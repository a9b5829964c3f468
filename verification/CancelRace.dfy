/** A cancel against the unlocked start-up of its run (terminal_control.py,
    ssh_manager.py), by single reads and writes. */
module CancelRaces {
  import opened Common

  /** Runs are numbered; a run opens at most one channel, named after it. */
  type RunId = nat

  /** Where the worker of the current run stands in `_exec`. */
  datatype Worker =
    | NoWorker
    | Checking   // before the first look at cancel_requested
    | Opening    // opening the channel and starting the command
    | Opened     // the channel is live, not yet in the session
    | Stored     // the session has the channel, not yet the writer
    | WriterUp   // the session has the writer, flag not yet looked at again
    | Reading    // past the second look, in read_channel
    | Finishing  // on the way to _finish_exec
  {
    predicate BeforeStore() { Checking? || Opening? || Opened? }
    predicate HasChannel() { Stored? || WriterUp? || Reading? }
    predicate HasWriter() { WriterUp? || Reading? }
  }

  /** A cancel that holds the device lock, with what it has read so far. */
  datatype Locked =
    | Free
    | Flagged(run: RunId)
    | ReadChannel(run: RunId, channel: Option<RunId>)
    | ReadAuth(run: RunId, channel: Option<RunId>, auth: bool)
    | ReadWriter(run: RunId, channel: Option<RunId>, ready: bool)

  /** A cancel that has released the lock and still has a channel to close. */
  datatype Late = Late(run: RunId, channel: Option<RunId>)

  /** `timer` is the session's field, `ticking` the timers that can still fire;
      `accepted` are the runs a cancel has returned ok for. */
  datatype Session = Session(
    lock: Locked, late: seq<Late>, inSlot: bool, busy: bool, run: RunId, worker: Worker,
    cancelRequested: bool, channel: Option<RunId>, writer: bool, auth: bool, timer: bool,
    ticking: set<RunId>, closed: set<RunId>, accepted: set<RunId>)

  const CONNECTED := Session(Free, [], true, false, 0, NoWorker, false, None, false, false, false, {}, {}, {})

  /** The worker writes the session's fields without the device lock, so its steps and
      those of a cancel are single reads and writes. */
  datatype Action =
    | RunCommand
    | WorkerStep(fails: bool)
    | SendStart
    | FinishExec
    | CancelFlag(run: RunId)
    | CancelReadChannel
    | CancelReadAuth
    | CancelReadWriter
    | CancelAct
    | CancelLate(index: nat)
    | ForceStop(run: RunId)
    | WriterStuck
    | Replace
    | CloseReplaced

  predicate Enabled(s: Session, a: Action) {
    match a
    case RunCommand => s.lock.Free? && s.inSlot && !s.busy
    case WorkerStep(_) => s.worker.BeforeStore() || s.worker.HasChannel()
    case SendStart => s.worker.Reading? && s.inSlot
    case FinishExec => s.lock.Free? && s.worker.Finishing?
    case CancelFlag(run) => s.lock.Free? && s.inSlot && s.busy && s.run == run
    case CancelReadChannel => s.lock.Flagged?
    case CancelReadAuth => s.lock.ReadChannel?
    case CancelReadWriter => s.lock.ReadAuth?
    case CancelAct => s.lock.ReadWriter?
    case CancelLate(i) => i < |s.late|
    case ForceStop(run) => s.lock.Free? && run in s.ticking
    case WriterStuck => s.lock.Free? && s.worker.Reading? && s.inSlot
    case Replace => s.lock.Free? && s.inSlot
    case CloseReplaced => !s.inSlot
  }

  /** Where one unlocked access takes the worker; opening and reading may end the run. */
  function NextWorker(s: Session, fails: bool): Worker {
    match s.worker
    case Checking => if s.cancelRequested then Finishing else Opening
    case Opening => if fails then Finishing else Opened
    case Opened => if fails then Finishing else Stored
    case Stored => if fails then Finishing else WriterUp
    case WriterUp => if fails then Finishing else Reading
    case _ => if fails || !s.inSlot then Finishing else s.worker
  }

  /** The second look at the flag, or the reader's look at the slot, closes the channel. */
  predicate Closes(s: Session, fails: bool) {
    !fails && ((s.worker.WriterUp? && s.cancelRequested) || (s.worker.Reading? && !s.inSlot))
  }

  function StepWorker(s: Session, fails: bool): Session {
    s.(worker := NextWorker(s, fails),
       channel := if s.worker.Opened? && !fails then Some(s.run) else s.channel,
       writer := s.writer || (s.worker.Stored? && !fails),
       closed := if Closes(s, fails) then s.closed + {s.run} else s.closed)
  }

  /** The rest of a cancel under the lock, once it has read what it needs. */
  function ActOnCancel(s: Session): Session
    requires s.lock.ReadWriter?
  {
    var run := s.lock.run;
    if s.lock.ready && s.lock.channel.Some? then
      if s.timer then s.(lock := Free, closed := s.closed + {s.lock.channel.value}, accepted := s.accepted + {run})
      else s.(lock := Free, timer := true, ticking := s.ticking + {run}, accepted := s.accepted + {run})
    else s.(lock := Free, late := s.late + [Late(run, s.lock.channel)])
  }

  function Step(s: Session, a: Action): Session
    requires Enabled(s, a)
  {
    match a
    case RunCommand =>
      s.(busy := true, run := s.run + 1, worker := Checking, cancelRequested := false, auth := false, timer := false)
    case WorkerStep(fails) => StepWorker(s, fails)
    case SendStart => s.(auth := true)
    case FinishExec =>
      var done := s.(worker := NoWorker, timer := false, ticking := if s.timer then s.ticking - {s.run} else s.ticking);
      if s.inSlot then done.(busy := false, channel := None, writer := false) else done
    case CancelFlag(run) => s.(lock := Flagged(run), cancelRequested := true)
    case CancelReadChannel => s.(lock := ReadChannel(s.lock.run, s.channel))
    case CancelReadAuth => s.(lock := ReadAuth(s.lock.run, s.lock.channel, s.auth))
    case CancelReadWriter => s.(lock := ReadWriter(s.lock.run, s.lock.channel, s.lock.auth && s.writer))
    case CancelAct => ActOnCancel(s)
    case CancelLate(i) =>
      var late := s.late[i];
      s.(late := s.late[..i] + s.late[i + 1..], accepted := s.accepted + {late.run},
         closed := if late.channel.Some? then s.closed + {late.channel.value} else s.closed)
    case ForceStop(run) =>
      var fired := s.(ticking := s.ticking - {run});
      if s.inSlot && s.busy && s.run == run && s.channel == Some(run) then fired.(closed := s.closed + {run}) else fired
    case WriterStuck => s.(closed := s.closed + {s.run})
    case Replace => s.(inSlot := false, cancelRequested := true)
    case CloseReplaced => s.(channel := None, closed := if s.channel.Some? then s.closed + {s.channel.value}
        else s.closed)
  }

  // ---- the invariant ------------------------------------------------------------

  /** The fields follow the worker as long as the session is in its slot. */
  predicate FieldsInv(s: Session) {
    && (s.inSlot ==> (s.busy <==> !s.worker.NoWorker?))
    && (s.inSlot && !s.busy ==> s.channel == None && !s.writer && !s.timer)
    && (s.inSlot && s.worker.BeforeStore() ==> s.channel == None && !s.writer && !s.timer)
    && (s.inSlot && s.worker.HasChannel() ==> s.channel == Some(s.run))
    && (s.inSlot && s.worker.HasWriter() ==> s.writer)
    && (s.inSlot && s.busy && s.auth ==>
        (s.worker.Reading? || s.worker.Finishing?) && s.channel == Some(s.run) && s.writer)
    && (s.channel.Some? ==> s.channel == Some(s.run))
    && (s.inSlot && s.timer ==> s.busy && s.auth)
    && (forall r :: r in s.ticking ==> r <= s.run) && (forall r :: r in s.accepted ==> r <= s.run)
  }

  /** The run has no live channel that nobody is going to stop. */
  predicate Handled(s: Session) {
    !s.worker.Reading? || s.run in s.closed || (s.timer && s.run in s.ticking)
  }

  predicate SeenBy(s: Session, run: RunId, channel: Option<RunId>) {
    && run <= s.run
    && (channel.Some? ==> channel.value == run)
    && (s.inSlot && s.busy && s.run == run ==> s.cancelRequested && (channel.None? ==> Handled(s)))
  }

  predicate LockInv(s: Session) {
    match s.lock
    case Free => true
    case Flagged(run) => s.inSlot && s.busy && s.run == run && s.cancelRequested
    case ReadChannel(run, channel) => s.inSlot && s.busy && s.run == run && SeenBy(s, run, channel)
    case ReadAuth(run, channel, auth) =>
      s.inSlot && s.busy && s.run == run && SeenBy(s, run, channel) && (auth ==> s.auth)
    case ReadWriter(run, channel, ready) =>
      s.inSlot && s.busy && s.run == run && SeenBy(s, run, channel) && (ready ==> s.auth)
  }

  predicate LateInv(s: Session) { forall l :: l in s.late ==> SeenBy(s, l.run, l.channel) }

  predicate AcceptedInv(s: Session) {
    s.inSlot && s.busy && s.run in s.accepted ==> s.cancelRequested && Handled(s)
  }

  predicate TimerInv(s: Session) {
    s.inSlot && s.timer ==> (s.run in s.ticking || s.run in s.closed)
  }

  predicate Inv(s: Session) { FieldsInv(s) && LockInv(s) && LateInv(s) && AcceptedInv(s) && TimerInv(s) }

  lemma FailureKeepsFields(s: Session)
    requires FieldsInv(s) && (s.worker.BeforeStore() || s.worker.HasChannel())
    ensures FieldsInv(s.(worker := Finishing))
  {
  }

  lemma EarlyStepKeepsFields(s: Session)
    requires FieldsInv(s) && s.worker.BeforeStore()
    ensures FieldsInv(StepWorker(s, false))
  {
  }

  lemma LateStepKeepsFields(s: Session)
    requires FieldsInv(s) && s.worker.HasChannel()
    ensures FieldsInv(StepWorker(s, false))
  {
  }

  lemma WorkerKeepsFields(s: Session, fails: bool)
    requires FieldsInv(s) && Enabled(s, WorkerStep(fails))
    ensures FieldsInv(StepWorker(s, fails))
  {
    hide FieldsInv;
    if fails && !s.worker.Checking? {
      FailureKeepsFields(s);
    } else if s.worker.BeforeStore() {
      EarlyStepKeepsFields(s);
    } else {
      LateStepKeepsFields(s);
    }
  }

  /** The worker touches only its own progress, the channel and the writer. */
  lemma WorkerTouches(s: Session, fails: bool)
    requires Enabled(s, WorkerStep(fails))
    ensures var n := StepWorker(s, fails);
            && n.lock == s.lock && n.late == s.late && n.inSlot == s.inSlot && n.busy == s.busy && n.run == s.run
            && n.cancelRequested == s.cancelRequested && n.auth == s.auth && n.timer == s.timer
            && n.ticking == s.ticking && n.accepted == s.accepted && s.closed <= n.closed
  {
    hide NextWorker, Closes;
  }

  /** A run that was handled, or whose flag is up, stays so. */
  lemma WorkerKeepsHandled(s: Session, fails: bool)
    requires Enabled(s, WorkerStep(fails)) && Handled(s) && (s.inSlot ==> s.cancelRequested)
    ensures s.inSlot ==> Handled(StepWorker(s, fails))
  {
  }

  lemma WorkerKeepsSeen(s: Session, fails: bool, run: RunId, channel: Option<RunId>)
    requires Enabled(s, WorkerStep(fails)) && SeenBy(s, run, channel)
    ensures SeenBy(StepWorker(s, fails), run, channel)
  {
    WorkerTouches(s, fails);
    hide Handled, StepWorker, Enabled;
    if s.inSlot && s.cancelRequested && Handled(s) { WorkerKeepsHandled(s, fails); }
  }

  lemma WorkerKeepsLock(s: Session, fails: bool)
    requires Enabled(s, WorkerStep(fails)) && LockInv(s)
    ensures LockInv(StepWorker(s, fails))
  {
    WorkerTouches(s, fails);
    hide SeenBy, Handled, StepWorker, Enabled;
    if s.lock.ReadChannel? || s.lock.ReadAuth? || s.lock.ReadWriter? {
      WorkerKeepsSeen(s, fails, s.lock.run, s.lock.channel);
    }
  }

  lemma WorkerKeepsInv(s: Session, fails: bool)
    requires Inv(s) && Enabled(s, WorkerStep(fails))
    ensures Inv(StepWorker(s, fails))
  {
    hide FieldsInv, LockInv, AcceptedInv, TimerInv, SeenBy, StepWorker;
    var n := StepWorker(s, fails);
    WorkerKeepsFields(s, fails);
    WorkerKeepsLock(s, fails);
    assert LateInv(n) by {
      WorkerTouches(s, fails);
      forall l | l in n.late ensures SeenBy(n, l.run, l.channel) { WorkerKeepsSeen(s, fails, l.run, l.channel); }
    }
    WorkerKeepsPromises(s, fails);
  }

  lemma WorkerKeepsPromises(s: Session, fails: bool)
    requires AcceptedInv(s) && TimerInv(s) && Enabled(s, WorkerStep(fails))
    ensures AcceptedInv(StepWorker(s, fails)) && TimerInv(StepWorker(s, fails))
  {
    WorkerTouches(s, fails);
    hide StepWorker, Handled, Enabled;
    if s.inSlot && s.cancelRequested && Handled(s) { WorkerKeepsHandled(s, fails); }
  }

  lemma FlagKeepsInv(s: Session, run: RunId)
    requires Inv(s) && Enabled(s, CancelFlag(run))
    ensures Inv(Step(s, CancelFlag(run)))
  {
  }

  lemma ReadKeepsInv(s: Session, a: Action)
    requires Inv(s) && Enabled(s, a) && (a.CancelReadChannel? || a.CancelReadAuth? || a.CancelReadWriter?)
    ensures Inv(Step(s, a))
  {
    var n := Step(s, a);
    assert LateInv(n) by { assert forall l :: l in n.late ==>
        SeenBy(s, l.run, l.channel) == SeenBy(n, l.run, l.channel); }
    assert FieldsInv(n);
    assert AcceptedInv(n);
    assert TimerInv(n);
    if a.CancelReadChannel? { assert LockInv(n); }
    if a.CancelReadAuth? { assert LockInv(n); }
    if a.CancelReadWriter? { assert LockInv(n); }
  }

  lemma ActKeepsInv(s: Session)
    requires Inv(s) && s.lock.ReadWriter?
    ensures Inv(ActOnCancel(s))
  {
    var late := s.late + [Late(s.lock.run, s.lock.channel)];
    assert forall l :: l in late ==> l in s.late || l == Late(s.lock.run, s.lock.channel);
  }

  lemma LateKeepsInv(s: Session, i: nat)
    requires Inv(s) && i < |s.late|
    ensures Inv(Step(s, CancelLate(i)))
  {
    var late := s.late[i];
    assert late in s.late;
    assert forall l :: l in s.late[..i] + s.late[i + 1..] ==> l in s.late;
  }

  lemma RunKeepsAll(s: Session, a: Action)
    requires Inv(s) && Enabled(s, a) && (a.RunCommand? || a.SendStart? || a.FinishExec?)
    ensures Inv(Step(s, a))
  {
  }

  lemma StopKeepsAll(s: Session, a: Action)
    requires Inv(s) && Enabled(s, a) && (a.WriterStuck? || a.Replace? || a.CloseReplaced? || a.ForceStop?)
    ensures Inv(Step(s, a))
  {
  }

  /** Every access of every thread keeps the invariant. */
  lemma StepKeepsInv(s: Session, a: Action)
    requires Inv(s) && Enabled(s, a)
    ensures Inv(Step(s, a))
  {
    hide Inv;
    match a
    case WorkerStep(fails) => WorkerKeepsInv(s, fails);
    case CancelAct => ActKeepsInv(s);
    case CancelLate(i) => LateKeepsInv(s, i);
    case CancelFlag(run) => FlagKeepsInv(s, run);
    case CancelReadChannel => ReadKeepsInv(s, a);
    case CancelReadAuth => ReadKeepsInv(s, a);
    case CancelReadWriter => ReadKeepsInv(s, a);
    case RunCommand => RunKeepsAll(s, a);
    case SendStart => RunKeepsAll(s, a);
    case FinishExec => RunKeepsAll(s, a);
    case _ => StopKeepsAll(s, a);
  }

  // ---- whole runs -----------------------------------------------------------------

  ghost predicate IsRun(s: Session, actions: seq<Action>)
    decreases |actions|
  {
    actions == [] || (Enabled(s, actions[0]) && IsRun(Step(s, actions[0]), actions[1..]))
  }

  function Run(s: Session, actions: seq<Action>): Session
    requires IsRun(s, actions)
    decreases |actions|
  {
    if actions == [] then s else Run(Step(s, actions[0]), actions[1..])
  }

  lemma {:induction false} RunKeepsInv(s: Session, actions: seq<Action>)
    requires Inv(s) && IsRun(s, actions)
    ensures Inv(Run(s, actions))
    decreases |actions|
  {
    if actions != [] {
      StepKeepsInv(s, actions[0]);
      RunKeepsInv(Step(s, actions[0]), actions[1..]);
    }
  }

  /** An accepted cancel is never lost: in every interleaving, once a cancel of
      the current run has returned ok, the run has not opened its channel for
      good (and will see the flag), is ending, has its channel closed, or has a
      stop timer that will close it. */
  lemma CancelIsNeverLost(actions: seq<Action>)
    requires IsRun(CONNECTED, actions)
    ensures var s := Run(CONNECTED, actions);
            s.inSlot && s.busy && s.run in s.accepted ==>
              || ((s.worker.BeforeStore() || s.worker.Stored? || s.worker.WriterUp?) && s.cancelRequested)
              || s.worker.Finishing?
              || s.run in s.closed
              || (s.timer && s.run in s.ticking)
  {
    RunKeepsInv(CONNECTED, actions);
  }

  /** A flagged run that has not begun to read, or is down. */
  predicate ComingDown(s: Session, run: RunId) {
    s.inSlot && s.busy && s.run == run ==> s.cancelRequested && (s.worker.Reading? ==> run in s.closed)
  }

  lemma WorkerStepBringsDown(s: Session, fails: bool, run: RunId)
    requires Enabled(s, WorkerStep(fails)) && run <= s.run && ComingDown(s, run)
    ensures ComingDown(StepWorker(s, fails), run) && run <= StepWorker(s, fails).run
  {
    WorkerTouches(s, fails);
    if s.inSlot && s.busy && s.run == run && s.cancelRequested { WorkerReadsClosed(s, fails); }
    hide StepWorker, Enabled;
  }

  lemma WorkerReadsClosed(s: Session, fails: bool)
    requires Enabled(s, WorkerStep(fails)) && s.cancelRequested && (s.worker.Reading? ==> s.run in s.closed)
    ensures StepWorker(s, fails).worker.Reading? ==> s.run in StepWorker(s, fails).closed
  {
  }

  lemma OtherStepBringsDown(s: Session, a: Action, run: RunId)
    requires Enabled(s, a) && run <= s.run && ComingDown(s, run) && !a.WorkerStep?
    ensures ComingDown(Step(s, a), run) && run <= Step(s, a).run
  {
    hide StepWorker;
  }

  lemma StepBringsDown(s: Session, a: Action, run: RunId)
    requires Enabled(s, a) && run <= s.run && ComingDown(s, run)
    ensures ComingDown(Step(s, a), run) && run <= Step(s, a).run
  {
    hide ComingDown, StepWorker;
    if a.WorkerStep? { WorkerStepBringsDown(s, a.fails, run); } else { hide Step; OtherStepBringsDown(s, a, run); }
  }

  /** A flag that is up before the worker reads stops the run in every
      interleaving: whatever else happens, if the run ever gets to reading its
      channel is closed by then, and the flag is not lowered before it ends. */
  lemma {:induction false} FlagStopsStartup(s: Session, actions: seq<Action>)
    requires s.cancelRequested && !s.worker.Reading? && IsRun(s, actions)
    ensures ComingDown(Run(s, actions), s.run)
  {
    DownStaysDown(s, actions, s.run);
  }

  lemma {:induction false} DownStaysDown(s: Session, actions: seq<Action>, run: RunId)
    requires run <= s.run && ComingDown(s, run) && IsRun(s, actions)
    ensures ComingDown(Run(s, actions), run)
    decreases |actions|
  {
    if actions != [] {
      StepBringsDown(s, actions[0], run);
      hide Step, ComingDown;
      DownStaysDown(Step(s, actions[0]), actions[1..], run);
    }
  }

  /** The worker is ending or has closed its channel after `n` of its own steps. */
  predicate DownAfter(s: Session, n: nat)
    decreases n
  {
    if n == 0 then s.worker.Finishing? || s.run in s.closed
    else Enabled(s, WorkerStep(false)) && DownAfter(Step(s, WorkerStep(false)), n - 1)
  }

  /** How many steps of its own the worker is from its next look at the flag. */
  function StepsToLook(worker: Worker): nat {
    match worker
    case Opening => 4
    case Opened => 3
    case Stored => 2
    case _ => 1
  }

  /** And the worker alone gets it there: at its next look at the flag, at most
      four of its own steps away, it is ending or its channel is closed. */
  lemma {:induction false} WorkerBringsDown(s: Session)
    requires s.cancelRequested && (s.worker.BeforeStore() || s.worker.Stored? || s.worker.WriterUp?)
    ensures DownAfter(s, StepsToLook(s.worker))
    decreases StepsToLook(s.worker)
  {
    var n := Step(s, WorkerStep(false));
    if s.worker.Checking? || s.worker.WriterUp? {
      assert DownAfter(n, 0);
    } else {
      WorkerBringsDown(n);
    }
  }

  /** And a ticking timer of the current run really closes its channel. */
  lemma TimerStopsRun(s: Session)
    requires Inv(s) && s.inSlot && s.busy && s.worker.Reading? && s.run in s.ticking && s.lock.Free?
    ensures s.run in Step(s, ForceStop(s.run)).closed
  {
  }

  /** A cancel that finds the run ready always finds its writer too. */
  lemma InterruptHasWriter(actions: seq<Action>)
    requires IsRun(CONNECTED, actions)
    ensures var s := Run(CONNECTED, actions);
            s.lock.ReadWriter? && s.lock.ready && s.lock.channel.Some? ==> s.writer && s.channel == s.lock.channel
  {
    RunKeepsInv(CONNECTED, actions);
  }

  // ---- a run that nobody cancels ------------------------------------------------------

  /** The reservation of a run starts it clean, and the end of a run leaves the session
      ready for the next one with no timer of it left. */
  lemma RunsBeginAndEndClean(s: Session)
    requires Inv(s)
    ensures Enabled(s, RunCommand) ==> var n := Step(s, RunCommand);
            && n.busy && n.run == s.run + 1 && n.worker.Checking? && !n.cancelRequested && !n.auth && !n.timer
            && n.channel == None && !n.writer && n.closed == s.closed && n.ticking == s.ticking
    ensures Enabled(s, FinishExec) && s.inSlot ==> var n := Step(s, FinishExec);
            && Enabled(n, RunCommand) && n.channel == None && !n.writer && !n.timer && n.closed == s.closed
            && (s.timer ==> s.run !in n.ticking)
    ensures Enabled(s, FinishExec) && !s.inSlot ==> var n := Step(s, FinishExec);
            n.busy == s.busy && n.channel == s.channel && n.writer == s.writer && n.worker.NoWorker? && !n.timer
  {
  }

  /** Left alone, and with nothing failing, a run gets to reading its own open channel
      with its writer in place, stays there while the session holds its slot, and is
      ready to be interrupted once its start has been announced. */
  lemma UndisturbedRunStarts(s: Session)
    requires Inv(s) && s.worker.Checking? && s.inSlot && s.busy && !s.cancelRequested
    ensures var go := WorkerStep(false); var actions := [go, go, go, go, go]; (
              && IsRun(s, actions)
              && var n := Run(s, actions);
                 && n.worker.Reading? && n.channel == Some(s.run) && n.writer && n.closed == s.closed
                 && Enabled(n, go) && Step(n, go) == n
                 && Enabled(n, SendStart) && Ready(Step(n, SendStart)))
  {
    var go := WorkerStep(false);
    var s1 := Step(s, go);
    var s2 := Step(s1, go);
    var s3 := Step(s2, go);
    var s4 := Step(s3, go);
    var s5 := Step(s4, go);
    assert s5 == s.(worker := Reading, channel := Some(s.run), writer := true);
    hide Step;
    RunOne(s4, go, []);
    RunOne(s3, go, [go]);
    RunOne(s2, go, [go, go]);
    RunOne(s1, go, [go, go, go]);
    RunOne(s, go, [go, go, go, go]);
    assert [go] == [go] + [] && [go, go] == [go] + [go] && [go, go, go] == [go] + [go, go];
    assert [go, go, go, go] == [go] + [go, go, go] && [go, go, go, go, go] == [go] + [go, go, go, go];
  }

  /** What ends a run from outside: a replaced or closed session leaves its slot with
      its flag up and has its channel closed, and a writer that is stuck closes it. */
  lemma OutsidersStopTheRun(s: Session)
    ensures Enabled(s, Replace) ==> !Step(s, Replace).inSlot && Step(s, Replace).cancelRequested
    ensures Enabled(s, CloseReplaced) ==> var n := Step(s, CloseReplaced);
            n.channel == None && n.closed == s.closed + if s.channel.Some? then {s.channel.value} else {}
    ensures Enabled(s, WriterStuck) ==> s.run in Step(s, WriterStuck).closed
  {
  }

  /** Channels are closed for runs that have begun, and a cancel is late for such a run. */
  predicate PastInv(s: Session) {
    && (forall r :: r in s.closed ==> r <= s.run)
    && (forall l :: l in s.late ==> l.run <= s.run && (l.channel.Some? ==> l.channel.value == l.run))
  }

  lemma StepKeepsPast(s: Session, a: Action)
    requires Inv(s) && PastInv(s) && Enabled(s, a)
    ensures PastInv(Step(s, a))
  {
    hide FieldsInv, TimerInv, AcceptedInv, Handled, LateInv;
    if a.CancelLate? {
      assert s.late[a.index] in s.late;
      forall l | l in Step(s, a).late ensures l in s.late {}
    } else if a.CancelAct? {
      forall l | l in Step(s, a).late ensures l in s.late || l == Late(s.lock.run, s.lock.channel) {}
    }
    ClosesItsOwn(s, a);
  }

  lemma ClosesItsOwn(s: Session, a: Action)
    requires Inv(s) && Enabled(s, a) && PastInv(s)
    ensures forall r :: r in Step(s, a).closed ==> r in s.closed || r <= s.run
    ensures s.run <= Step(s, a).run
  {
    if a.CancelLate? { assert s.late[a.index] in s.late; }
    hide TimerInv, AcceptedInv, Handled, LateInv, NextWorker;
  }

  lemma {:induction false} RunKeepsPast(s: Session, actions: seq<Action>)
    requires Inv(s) && PastInv(s) && IsRun(s, actions)
    ensures Inv(Run(s, actions)) && PastInv(Run(s, actions))
    decreases |actions|
  {
    hide Inv, PastInv;
    if actions != [] {
      StepKeepsInv(s, actions[0]);
      StepKeepsPast(s, actions[0]);
      RunKeepsPast(Step(s, actions[0]), actions[1..]);
    }
  }

  /** Run `run` goes on untouched, and what is left of older cancels is not about it. */
  predicate Untouched(s: Session, run: RunId) {
    && s.run == run && s.inSlot && s.lock.Free? && !s.cancelRequested && !s.timer
    && run !in s.closed && run !in s.ticking && run !in s.accepted
    && forall l :: l in s.late ==> l.run < run && (l.channel.Some? ==> l.channel.value == l.run)
  }

  /** Nobody cancels, replaces the session, starts another run, or finds the writer stuck. */
  predicate Undisturbing(a: Action) {
    !a.CancelFlag? && !a.Replace? && !a.WriterStuck? && !a.RunCommand?
  }

  lemma UndisturbedStep(s: Session, a: Action, run: RunId)
    requires Untouched(s, run) && Enabled(s, a) && Undisturbing(a)
    ensures Untouched(Step(s, a), run)
  {
    if a.CancelLate? {
      assert s.late[a.index] in s.late;
      forall l | l in Step(s, a).late ensures l in s.late {}
    }
  }

  lemma {:induction false} UndisturbedRun(s: Session, actions: seq<Action>, run: RunId)
    requires Untouched(s, run) && IsRun(s, actions) && forall i :: 0 <= i < |actions| ==> Undisturbing(actions[i])
    ensures Untouched(Run(s, actions), run)
    decreases |actions|
  {
    if actions != [] {
      UndisturbedStep(s, actions[0], run);
      hide Step, Untouched;
      UndisturbedRun(Step(s, actions[0]), actions[1..], run);
    }
  }

  /** A cancel stops its own run and no other: whatever cancels, timers and closes of
      earlier runs are still under way when a run begins, in every interleaving without
      a cancel of it its flag stays down and its channel open. */
  lemma CancelStopsNoOtherRun(before: seq<Action>, after: seq<Action>)
    requires IsRun(CONNECTED, before) && Enabled(Run(CONNECTED, before), RunCommand)
    requires IsRun(Step(Run(CONNECTED, before), RunCommand), after)
    requires forall i :: 0 <= i < |after| ==> Undisturbing(after[i])
    ensures var s := Run(Step(Run(CONNECTED, before), RunCommand), after);
            && s.run == Run(CONNECTED, before).run + 1 && s.inSlot && !s.cancelRequested && !s.timer
            && s.run !in s.closed && s.run !in s.accepted
  {
    RunKeepsPast(CONNECTED, before);
    var s := Run(CONNECTED, before);
    hide IsRun, Run;
    StartIsUntouched(s);
    UndisturbedRun(Step(s, RunCommand), after, s.run + 1);
  }

  lemma StartIsUntouched(s: Session)
    requires Inv(s) && PastInv(s) && Enabled(s, RunCommand)
    ensures Untouched(Step(s, RunCommand), s.run + 1)
  {
  }

  /** The reader of a replaced session closes its channel at its next look and ends. */
  lemma ReplacedReaderStops(s: Session)
    requires s.worker.Reading? && !s.inSlot
    ensures Enabled(s, WorkerStep(false)) && var n := Step(s, WorkerStep(false));
            n.worker.Finishing? && s.run in n.closed
  {
  }

  // ---- a cancel that nothing comes between ------------------------------------------

  function CancelSteps(run: RunId): seq<Action> { [CancelFlag(run), CancelReadChannel, CancelReadAuth,
      CancelReadWriter, CancelAct] }

  /** A ready run is interrupted and given a stop timer, or stopped for good if it
      has one; any other run has its channel closed if there is one. */
  function Cancelled(s: Session): Session {
    var flagged := s.(cancelRequested := true, accepted := s.accepted + {s.run});
    if s.channel.Some? && s.auth && s.writer && !s.timer then flagged.(timer := true, ticking := s.ticking + {s.run})
    else if s.channel.Some? then flagged.(closed := s.closed + {s.channel.value})
    else flagged
  }

  lemma CancelledIs(s: Session)
    ensures Ready(s) == (s.channel.Some? && s.auth && s.writer)
    ensures Cancelled(s) == s.(cancelRequested := true, accepted := s.accepted + {s.run},
                               timer := s.timer || Ready(s),
                               ticking := if Ready(s) && !s.timer then s.ticking + {s.run} else s.ticking,
                               closed := if s.channel.Some? && !(Ready(s) && !s.timer) then s.closed +
                                   {s.channel.value} else s.closed)
  {
  }

  predicate Ready(s: Session) { s.channel.Some? && s.auth && s.writer }

  lemma CancelReads(s: Session)
    requires s.lock.Free? && s.inSlot && s.busy
    ensures var looks := CancelSteps(s.run)[..4];
            IsRun(s, looks) && Run(s, looks) ==
                s.(cancelRequested := true, lock := ReadWriter(s.run, s.channel, s.auth && s.writer))
  {
    var s1 := Step(s, CancelFlag(s.run));
    var s2 := Step(s1, CancelReadChannel);
    var s3 := Step(s2, CancelReadAuth);
    var s4 := Step(s3, CancelReadWriter);
    assert s4 == s.(cancelRequested := true, lock := ReadWriter(s.run, s.channel, s.auth && s.writer));
    var looks := CancelSteps(s.run)[..4];
    hide Step;
    RunOne(s3, CancelReadWriter, []);
    RunOne(s2, CancelReadAuth, [CancelReadWriter]);
    RunOne(s1, CancelReadChannel, [CancelReadAuth, CancelReadWriter]);
    RunOne(s, CancelFlag(s.run), [CancelReadChannel, CancelReadAuth, CancelReadWriter]);
    assert looks == [CancelFlag(s.run)] + [CancelReadChannel, CancelReadAuth, CancelReadWriter];
    assert [CancelReadChannel, CancelReadAuth, CancelReadWriter] == [CancelReadChannel] +
        [CancelReadAuth, CancelReadWriter];
    assert [CancelReadAuth, CancelReadWriter] == [CancelReadAuth] + [CancelReadWriter];
    assert [CancelReadWriter] == [CancelReadWriter] + [];
  }

  lemma RunOne(s: Session, a: Action, rest: seq<Action>)
    requires Enabled(s, a) && IsRun(Step(s, a), rest)
    ensures IsRun(s, [a] + rest) && Run(s, [a] + rest) == Run(Step(s, a), rest)
  {
    assert ([a] + rest)[0] == a && ([a] + rest)[1..] == rest;
  }

  /** Undisturbed, the single accesses of a cancel add up to that. */
  lemma StepsOfCancelAddUp(s: Session)
    requires s.lock.Free? && s.late == [] && s.inSlot && s.busy
    ensures var read := s.(cancelRequested := true, lock := ReadWriter(s.run, s.channel, s.auth && s.writer));
            && Enabled(read, CancelAct)
            && var done := Step(read, CancelAct);
               if Ready(s) then done == Cancelled(s)
               else Enabled(done, CancelLate(0)) && Step(done, CancelLate(0)) == Cancelled(s)
  {
  }

  lemma CancelKeepsInv(s: Session)
    requires Inv(s) && s.lock.Free? && s.late == [] && s.inSlot && s.busy
    ensures Inv(Cancelled(s))
  {
    CancelReads(s);
    StepsOfCancelAddUp(s);
    RunKeepsInv(s, CancelSteps(s.run)[..4]);
    var read := Run(s, CancelSteps(s.run)[..4]);
    hide Inv, Step, Cancelled;
    StepKeepsInv(read, CancelAct);
    if !Ready(s) { StepKeepsInv(Step(read, CancelAct), CancelLate(0)); }
  }

  /** What a request to start or to cancel comes to. */
  datatype Reply = Done | NotConnected | NotOwner | EmptyCommand | AlreadyRunning | NoSuchRun

  /** A caller who names an owner must be the session's. */
  predicate Foreign(caller: Option<string>, owner: string) { caller.Some? && caller.value != owner }

  /** The session fields that `run_command`, `cancel`, `_force_stop` and
      `_finish_exec` share; `interrupts` are the Ctrl-C bytes queued for a writer. */
  class RunControl {
    const owner: string
    var inSlot: bool
    var busy: bool
    var run: RunId
    var worker: Worker
    var cancelRequested: bool
    var channel: Option<RunId>
    var writer: bool
    var authComplete: bool
    var stopTimer: bool
    var ticking: set<RunId>
    var closed: set<RunId>
    var interrupts: seq<RunId>
    ghost var accepted: set<RunId>

    ghost function Value(): Session reads this {
      Session(Free, [], inSlot, busy, run, worker, cancelRequested, channel, writer, authComplete, stopTimer,
              ticking, closed, accepted)
    }

    constructor (owner: string)
      ensures Value() == CONNECTED && Inv(Value()) && this.owner == owner && interrupts == []
    {
      this.owner := owner;
      inSlot, busy, run, worker, cancelRequested, channel := true, false, 0, NoWorker, false, None;
      writer, authComplete, stopTimer, ticking, closed, interrupts, accepted := false, false, false, {}, {}, [], {};
    }

    /** The reservation in `run_command`: refused to a foreign owner, for a blank
        command, and while a run is on. */
    method StartRun(caller: Option<string>, blank: bool) returns (reply: Reply)
      requires Inv(Value())
      modifies this
      ensures Inv(Value()) && interrupts == old(interrupts)
      ensures reply == if !old(inSlot) then NotConnected else if Foreign(caller, owner) then NotOwner
                       else if blank then EmptyCommand else if old(busy) then AlreadyRunning else Done
      ensures Value() == if reply.Done? then Step(old(Value()), RunCommand) else old(Value())
      ensures reply.Done? ==> busy && run == old(run) + 1 && worker.Checking? && !cancelRequested && !stopTimer &&
                              !authComplete && closed == old(closed)
    {
      hide Inv;
      if !inSlot {
        return NotConnected;
      }
      if Foreign(caller, owner) {
        return NotOwner;
      }
      if blank {
        return EmptyCommand;
      }
      if busy {
        return AlreadyRunning;
      }
      RunKeepsAll(Value(), RunCommand);
      busy, cancelRequested, stopTimer, authComplete := true, false, false, false;
      run := run + 1;
      worker := Checking;
      return Done;
    }

    /** `cancel`: the first one of a ready run interrupts the program and arms the
        timer, any other closes the channel there is. */
    method Cancel(target: RunId, caller: Option<string>) returns (reply: Reply)
      requires Inv(Value())
      modifies this
      ensures Inv(Value())
      ensures reply == if !old(inSlot) || !old(busy) || target != old(run) then NoSuchRun
                       else if Foreign(caller, owner) then NotOwner else Done
      ensures Value() == if reply.Done? then Cancelled(old(Value())) else old(Value())
      ensures interrupts == old(interrupts) +
              if reply.Done? && Ready(old(Value())) && !old(stopTimer) then [target] else []
      ensures reply.Done? ==> cancelRequested && run in accepted
      ensures var ready := old(channel).Some? && old(authComplete) && old(writer);
              reply.Done? ==>
                (if ready && !old(stopTimer) then
                   closed == old(closed) && stopTimer && ticking == old(ticking) + {target} &&
                   interrupts == old(interrupts) + [target]
                 else
                   closed == old(closed) + (if old(channel).Some? then {old(channel).value} else {}) &&
                   stopTimer == old(stopTimer) && ticking == old(ticking) && interrupts == old(interrupts))
    {
      if !inSlot || !busy || target != run {
        return NoSuchRun;
      }
      if Foreign(caller, owner) {
        return NotOwner;
      }
      hide Inv, Foreign;
      CancelKeepsInv(Value());
      ghost var before := Value();
      CancelledIs(before);
      hide Cancelled, Ready;
      cancelRequested := true;
      accepted := accepted + {run};
      var ready := channel.Some? && authComplete && writer;
      if ready && !stopTimer {
        interrupts := interrupts + [run];
        stopTimer := true;
        ticking := ticking + {run};
      } else if channel.Some? {
        closed := closed + {channel.value};
      }
      reply := Done;
    }

    /** `_force_stop`, when the timer of some run fires. */
    method ForceStopRun(target: RunId)
      requires Inv(Value()) && target in ticking
      modifies this
      ensures Inv(Value()) && Value() == Step(old(Value()), ForceStop(target)) && interrupts == old(interrupts)
      ensures ticking == old(ticking) - {target}
      ensures closed == old(closed) +
              if inSlot && busy && run == target && channel == Some(target) then {target} else {}
    {
      StepKeepsInv(Value(), ForceStop(target));
      hide Inv;
      ticking := ticking - {target};
      if inSlot && busy && run == target && channel == Some(target) {
        closed := closed + {target};
      }
    }

    /** `_finish_exec`. */
    method FinishRun()
      requires Inv(Value()) && worker.Finishing?
      modifies this
      ensures Inv(Value()) && Value() == Step(old(Value()), FinishExec) && interrupts == old(interrupts)
      ensures !stopTimer && (old(stopTimer) ==> run !in ticking) && run == old(run) && closed == old(closed)
      ensures inSlot ==> !busy && channel == None && !writer
      ensures !inSlot ==> busy == old(busy) && channel == old(channel) && writer == old(writer)
      ensures ticking == if old(stopTimer) then old(ticking) - {run} else old(ticking)
    {
      StepKeepsInv(Value(), FinishExec);
      hide Inv;
      worker := NoWorker;
      if stopTimer {
        ticking := ticking - {run};
        stopTimer := false;
      }
      if inSlot {
        busy, channel, writer := false, None, false;
      }
    }
  }
}
