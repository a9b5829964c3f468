/** The emit callback of a run's worker (ssh_manager.py): wait, history, push
    and record, with anything at all in between. */
module WorkerOutputs {
  import opened Common
  import opened Config
  import opened OutputBatchers
  import A = AckWindows
  import H = TerminalHistories
  import P = Pipelines

  /** `len(text.encode("utf-8"))`. */
  function Utf8Size(text: string): nat {
    if text == "" then 0
    else
      var code := text[0] as int;
      (if code < 0x80 then 1 else if code < 0x800 then 2 else if code < 0x10000 then 3 else 4) + Utf8Size(text[1..])
  }

  /** One character in UTF-8 (section 3 of RFC 3629). */
  function Utf8Char(c: char): Bytes {
    var code := c as int;
    if code < 0x80 then [code]
    else if code < 0x800 then [0xC0 + code / 0x40, 0x80 + code % 0x40]
    else if code < 0x10000 then [0xE0 + code / 0x1000, 0x80 + code / 0x40 % 0x40, 0x80 + code % 0x40]
    else [0xF0 + code / 0x40000, 0x80 + code / 0x1000 % 0x40, 0x80 + code / 0x40 % 0x40, 0x80 + code % 0x40]
  }

  function Utf8(text: string): Bytes { if text == "" then [] else Utf8Char(text[0]) + Utf8(text[1..]) }

  lemma {:induction false} SizeIsOfTheBytes(text: string)
    ensures Utf8Size(text) == |Utf8(text)|
  {
    if text != "" { SizeIsOfTheBytes(text[1..]); }
  }

  /** Where the worker is: before its run, between two calls of emit, in a call (not
      yet past the wait, past it, fed to the history, pushed), or at its end. */
  datatype Place = Unborn | Idle | Asked | Cleared | Shown | Sent | Over

  /** `calls` are the batches emit was called with, `answers` what it returned so far. */
  datatype State = State(pipe: P.State, window: A.State, history: H.History, calls: seq<Batch>, answers: seq<bool>,
                         place: Place)

  const FRESH := State(P.EMPTY, A.IDLE, H.EMPTY, [], [], Unborn)

  datatype Action =
    | Begin(device: P.Device, now: real)
    | Call(batch: Batch)
    | PassWait(now: real)
    | FeedHistory
    | Push
    | Record
    | TurnDown
    | Finish
    | OnWindow(a: A.Action)
    | Mark(socket: P.SocketId, now: real)
    | OnPipe(step: P.Action)

  predicate InCall(s: State) { s.place.Asked? || s.place.Cleared? || s.place.Shown? || s.place.Sent? }

  /** What only the worker itself does to its run. */
  predicate OwnStep(a: P.Action, r: P.RunId) {
    a == P.Feed(r) || a == P.PushBatch(r) || (a.StartRun? && a.run == r) || (a.TakeMark? && a.run == r)
  }

  predicate Enabled(r: P.RunId, s: State, a: Action) {
    match a
    case Begin(device, now) =>
      s.place.Unborn? && P.Enabled(s.pipe, P.StartRun(r, device)) && A.Enabled(s.window, A.Start(now))
    case Call(batch) => s.place.Idle? && batch.number == |s.calls| + 1 && batch.text != ""
    case PassWait(now) =>
      s.place.Asked? && s.calls != [] && A.Enabled(s.window, A.Admit(Utf8Size(s.calls[|s.calls| - 1].text), now))
    case FeedHistory => s.place.Cleared? && s.calls != [] && P.Enabled(s.pipe, P.Feed(r))
    case Push => s.place.Shown? && P.Enabled(s.pipe, P.PushBatch(r)) && A.Enabled(s.window, A.Push)
    case Record => s.place.Sent? && A.Enabled(s.window, A.Record)
    case TurnDown =>
      || ((s.place.Asked? || (s.place.Cleared? && A.Enabled(s.window, A.TurnDown))) && !P.Live(s.pipe, r))
      || (s.place.Shown? && (!P.Live(s.pipe, r) || s.pipe.closing) && A.Enabled(s.window, A.TurnDown))
    case Finish => s.place.Idle? && A.Enabled(s.window, A.EndRun)
    case OnWindow(a) => a.Ack? || a.Cancel? || a.Watch?
    case Mark(k, _) => s.window.running && P.Enabled(s.pipe, P.TakeMark(k, r))
    case OnPipe(a) => P.Enabled(s.pipe, a) && !OwnStep(a, r)
  }

  function Step(r: P.RunId, s: State, a: Action): State
    requires Enabled(r, s, a)
  {
    match a
    case Begin(device, now) =>
      s.(pipe := P.Step(s.pipe, P.StartRun(r, device)), window := A.Step(s.window, A.Start(now)),
         history := H.EMPTY, place := Idle)
    case Call(batch) => s.(calls := s.calls + [batch], place := Asked)
    case PassWait(now) =>
      s.(window := A.Step(s.window, A.Admit(Utf8Size(s.calls[|s.calls| - 1].text), now)), place := Cleared)
    case FeedHistory =>
      var last := s.calls[|s.calls| - 1];
      s.(pipe := P.Step(s.pipe, P.Feed(r)), history := H.FeedBatch(s.history, last.text, last.number), place := Shown)
    case Push => s.(pipe := P.Step(s.pipe, P.PushBatch(r)), window := A.Step(s.window, A.Push), place := Sent)
    case Record => s.(window := A.Step(s.window, A.Record), answers := s.answers + [true], place := Idle)
    case TurnDown =>
      s.(window := if s.place.Asked? then s.window else A.Step(s.window, A.TurnDown), answers := s.answers + [false],
         place := Idle)
    case Finish => s.(window := A.Step(s.window, A.EndRun), place := Over)
    case OnWindow(a) => s.(window := A.Step(s.window, a))
    case Mark(k, now) =>
      s.(pipe := P.Step(s.pipe, P.TakeMark(k, r)), window := A.Step(s.window, A.Snapshot(now)))
    case OnPipe(a) => s.(pipe := P.Step(s.pipe, a))
  }

  ghost predicate IsRun(r: P.RunId, s: State, actions: seq<Action>)
    decreases |actions|
  {
    actions == [] || (Enabled(r, s, actions[0]) && IsRun(r, Step(r, s, actions[0]), actions[1..]))
  }

  function After(r: P.RunId, s: State, actions: seq<Action>): State
    requires IsRun(r, s, actions)
    decreases |actions|
  {
    if actions == [] then s else After(r, Step(r, s, actions[0]), actions[1..])
  }

  // ---- the worker's steps are the pipeline's and the window's ------------------------

  /** What the pipeline sees of a step. */
  function OfPipe(r: P.RunId, a: Action): seq<P.Action> {
    match a
    case Begin(device, _) => [P.StartRun(r, device)]
    case FeedHistory => [P.Feed(r)]
    case Push => [P.PushBatch(r)]
    case Mark(k, _) => [P.TakeMark(k, r)]
    case OnPipe(a) => [a]
    case _ => []
  }

  /** What the acknowledgement window sees of a step. */
  function OfWindow(s: State, a: Action): seq<A.Action> {
    match a
    case Begin(_, now) => [A.Start(now)]
    case PassWait(now) => if s.calls == [] then [] else [A.Admit(Utf8Size(s.calls[|s.calls| - 1].text), now)]
    case Push => [A.Push]
    case Record => [A.Record]
    case TurnDown => if s.place.Asked? then [] else [A.TurnDown]
    case Finish => [A.EndRun]
    case OnWindow(a) => [a]
    case Mark(_, now) => [A.Snapshot(now)]
    case _ => []
  }

  lemma StepIsBoth(r: P.RunId, s: State, a: Action)
    requires Enabled(r, s, a)
    ensures var n, p := Step(r, s, a), OfPipe(r, a);
            if p == [] then n.pipe == s.pipe else |p| == 1 && P.Enabled(s.pipe, p[0]) && n.pipe == P.Step(s.pipe, p[0])
    ensures var n, w := Step(r, s, a), OfWindow(s, a);
            if w == [] then n.window == s.window
            else |w| == 1 && A.Enabled(s.window, w[0]) && n.window == A.Step(s.window, w[0])
  {
    hide P.Step, P.Enabled, A.Step, H.FeedBatch;
  }

  /** Whatever happens between two steps of emit, the whole is a run of the pipeline and
      of the acknowledgement window, so what holds in all of theirs holds here. */
  lemma {:induction false} RunsAreBoth(r: P.RunId, s: State, actions: seq<Action>)
    returns (pipe: seq<P.Action>, window: seq<A.Action>)
    requires IsRun(r, s, actions)
    ensures P.IsRun(s.pipe, pipe) && P.After(s.pipe, pipe) == After(r, s, actions).pipe
    ensures A.IsRun(s.window, window) && A.After(s.window, window) == After(r, s, actions).window
    decreases |actions|
  {
    if actions == [] {
      pipe, window := [], [];
    } else {
      var a := actions[0];
      StepIsBoth(r, s, a);
      hide Step, Enabled, P.Step, P.Enabled, A.Step, A.Enabled, OfPipe, OfWindow;
      pipe, window := RunsAreBoth(r, Step(r, s, a), actions[1..]);
      if OfPipe(r, a) != [] {
        P.Prepended(s.pipe, OfPipe(r, a)[0], pipe);
        pipe := [OfPipe(r, a)[0]] + pipe;
      }
      if OfWindow(s, a) != [] {
        A.RunOne(s.window, OfWindow(s, a)[0], window);
        window := [OfWindow(s, a)[0]] + window;
      }
    }
  }

  // ---- what a call of emit keeps -----------------------------------------------------

  /** The batches as the history is fed them. */
  function AsFed(batches: seq<Batch>): seq<(string, nat)> {
    if batches == [] then [] else [(batches[0].text, batches[0].number)] + AsFed(batches[1..])
  }

  lemma {:induction false} AsFedSnoc(batches: seq<Batch>, last: Batch)
    ensures AsFed(batches + [last]) == AsFed(batches) + [(last.text, last.number)]
  {
    if batches == [] {
      assert [last][1..] == [] && batches + [last] == [last];
    } else {
      assert (batches + [last])[0] == batches[0] && (batches + [last])[1..] == batches[1..] + [last];
      AsFedSnoc(batches[1..], last);
    }
  }

  /** The calls and their answers: numbered, and what was taken is a beginning. */
  predicate CallsInv(s: State, pushed: nat) {
    && Numbered(s.calls) && |s.calls| == |s.answers| + (if InCall(s) then 1 else 0)
    && forall i :: 0 <= i < |s.answers| ==> (s.answers[i] <==> i < pushed)
  }

  /** How far the run's batches are, by where the worker is. A session that is in its
      slot has had every batch fed, and pushed unless the queue has been shut down. */
  predicate CountInv(r: P.RunId, s: State) {
    r in s.pipe.runs &&
    var run, n := s.pipe.runs[r], |s.calls|;
    && run.generation <= s.pipe.counter && run.pushed <= run.fed <= n
    && (match s.place
        case Unborn => false
        case Asked => run.fed < n
        case Cleared => run.fed < n
        case Shown => run.fed == n && run.pushed < n && (!s.pipe.closing ==> run.pushed == n - 1)
        case Sent => run.pushed == n
        case _ => true)
    && (P.Live(s.pipe, r) ==> run.fed >= (if s.place.Asked? || s.place.Cleared? then n - 1 else n))
    && (P.Live(s.pipe, r) && !s.pipe.closing && !s.place.Shown? ==> run.pushed == run.fed)
  }

  function BytesOf(calls: seq<Batch>, q: nat): nat
    requires 1 <= q <= |calls|
  {
    Utf8Size(calls[q - 1].text)
  }

  /** The window counts the pushed batches, each with its own bytes. */
  predicate WindowInv(s: State, pushed: nat) {
    && (s.window.running <==> s.place != Over)
    && s.window.sentSeq == pushed - (if s.place.Sent? then 1 else 0) <= |s.calls|
    && (forall q :: q in s.window.sent ==> 1 <= q <= |s.calls| && s.window.sent[q] == BytesOf(s.calls, q))
    && (match s.place
        case Cleared => s.calls != [] && s.window.phase == A.Admitted(BytesOf(s.calls, |s.calls|))
        case Shown => s.calls != [] && s.window.phase == A.Admitted(BytesOf(s.calls, |s.calls|))
        case Sent => s.calls != [] && s.window.phase == A.Pushed(BytesOf(s.calls, |s.calls|))
        case _ => s.window.phase.Reading?)
  }

  predicate HistoryInv(s: State, fed: nat) {
    fed <= |s.calls| && s.history == H.FeedBatches(H.EMPTY, AsFed(s.calls[..fed]))
  }

  predicate SlotsAreOld(s: P.State) { forall d :: d in s.slots ==> s.slots[d].generation <= s.counter }

  ghost predicate Inv(r: P.RunId, s: State) {
    && A.Window(s.window) && SlotsAreOld(s.pipe)
    && if s.place.Unborn? then r !in s.pipe.runs && s.calls == [] && s.answers == []
       else CountInv(r, s) && CallsInv(s, s.pipe.runs[r].pushed) && WindowInv(s, s.pipe.runs[r].pushed) &&
            HistoryInv(s, s.pipe.runs[r].fed)
  }

  /** What the pipeline does to a run without its worker. */
  lemma OthersLeaveRun(s: P.State, a: P.Action, r: P.RunId)
    requires P.Enabled(s, a) && !(OwnStep(a, r) && !a.TakeMark?)
    ensures s.closing ==> P.Step(s, a).closing
    ensures r !in s.runs ==> r !in P.Step(s, a).runs
    ensures r in s.runs ==> r in P.Step(s, a).runs && var was, now := s.runs[r], P.Step(s, a).runs[r];
            && now.fed == was.fed && now.pushed == was.pushed && now.generation == was.generation
            && (was.generation <= s.counter && P.Live(P.Step(s, a), r) ==> P.Live(s, r))
  {
    if r in s.runs {
      P.RunStays(s, a, r);
      P.CountsStep(s, a, r);
    }
  }

  /** A step of the pipeline without the worker. */
  lemma PipeKeepsInv(r: P.RunId, s: State, a: P.Action)
    requires Inv(r, s) && P.Enabled(s.pipe, a) && !(OwnStep(a, r) && !a.TakeMark?)
    ensures Inv(r, s.(pipe := P.Step(s.pipe, a)))
  {
    OthersLeaveRun(s.pipe, a, r);
    P.SlotsStayOld(s.pipe, a);
    hide P.Step, P.Enabled, P.Live, A.Window, Numbered, H.FeedBatches, AsFed, BytesOf;
  }

  /** What a foreign step of the window, or a snapshot, leaves as it is. */
  lemma ForeignLeaves(w: A.State, a: A.Action)
    requires A.Window(w) && A.Foreign(a)
    ensures A.Enabled(w, a) && A.Window(A.Step(w, a))
    ensures var n := A.Step(w, a);
            && n.running == w.running && n.sentSeq == w.sentSeq && n.phase == w.phase
            && forall q :: q in n.sent ==> q in w.sent && n.sent[q] == w.sent[q]
  {
  }

  lemma WindowKeepsInv(r: P.RunId, s: State, a: A.Action)
    requires Inv(r, s) && A.Foreign(a)
    ensures A.Enabled(s.window, a) && Inv(r, s.(window := A.Step(s.window, a)))
  {
    ForeignLeaves(s.window, a);
    hide A.Step, A.Enabled, P.Live, A.Window, Numbered, H.FeedBatches, AsFed, BytesOf;
  }

  lemma BeginKeepsInv(r: P.RunId, s: State, a: Action)
    requires Inv(r, s) && Enabled(r, s, a) && a.Begin?
    ensures Inv(r, Step(r, s, a))
  {
    P.SlotsStayOld(s.pipe, P.StartRun(r, a.device));
    A.StepKeepsWindow(s.window, A.Start(a.now));
    assert s.calls[..0] == [];
    hide A.Window;
  }

  lemma CallKeepsInv(r: P.RunId, s: State, a: Action)
    requires Inv(r, s) && Enabled(r, s, a) && a.Call?
    ensures Inv(r, Step(r, s, a))
  {
    var fed := s.pipe.runs[r].fed;
    assert (s.calls + [a.batch])[..fed] == s.calls[..fed];
    hide A.Window, P.Live, H.FeedBatches, AsFed, Utf8Size;
  }

  lemma PassWaitKeepsInv(r: P.RunId, s: State, a: Action)
    requires Inv(r, s) && Enabled(r, s, a) && a.PassWait?
    ensures Inv(r, Step(r, s, a))
  {
    A.StepKeepsWindow(s.window, A.Admit(Utf8Size(s.calls[|s.calls| - 1].text), a.now));
    hide A.Window, A.MayGo, P.Live, H.FeedBatches, AsFed, Utf8Size, Numbered;
  }

  lemma FedStep(s: P.State, r: P.RunId)
    requires P.Enabled(s, P.Feed(r))
    ensures r in s.runs && P.Live(s, r) && (s.closing || s.runs[r].fed == s.runs[r].pushed)
    ensures P.Live(P.Step(s, P.Feed(r)), r)
    ensures P.Step(s, P.Feed(r)) == s.(runs := s.runs[r := s.runs[r].(fed := s.runs[r].fed + 1)])
  {
  }

  /** The history shows one batch more. */
  lemma HistoryGrows(s: State, fed: nat)
    requires HistoryInv(s, fed) && fed < |s.calls|
    ensures H.FeedBatch(s.history, s.calls[fed].text, s.calls[fed].number) ==
            H.FeedBatches(H.EMPTY, AsFed(s.calls[..fed + 1]))
  {
    assert s.calls[..fed] + [s.calls[fed]] == s.calls[..fed + 1];
    AsFedSnoc(s.calls[..fed], s.calls[fed]);
    H.FeedBatchesSnoc(H.EMPTY, AsFed(s.calls[..fed]), (s.calls[fed].text, s.calls[fed].number));
    hide H.FeedBatches, H.FeedBatch, AsFed;
  }

  lemma SlotsOldAfterFeed(s: P.State, r: P.RunId)
    requires SlotsAreOld(s) && P.Enabled(s, P.Feed(r))
    ensures SlotsAreOld(P.Step(s, P.Feed(r)))
  {
  }

  lemma FeedKeepsInv(r: P.RunId, s: State, a: Action)
    requires Inv(r, s) && Enabled(r, s, a) && a.FeedHistory?
    ensures Inv(r, Step(r, s, a))
  {
    hide A.Window, H.FeedBatches, H.FeedBatch, AsFed, Utf8Size, Numbered, SlotsAreOld;
    FedStep(s.pipe, r);
    assert s.pipe.runs[r].fed == |s.calls| - 1;
    HistoryGrows(s, |s.calls| - 1);
    SlotsOldAfterFeed(s.pipe, r);
    hide P.Live, P.Step, P.Enabled, A.Enabled;
  }

  lemma PushKeepsInv(r: P.RunId, s: State, a: Action)
    requires Inv(r, s) && Enabled(r, s, a) && a.Push?
    ensures Inv(r, Step(r, s, a))
  {
    A.StepKeepsWindow(s.window, A.Push);
    hide A.Window, H.FeedBatches, AsFed, Utf8Size, Numbered;
  }

  lemma RecordKeepsInv(r: P.RunId, s: State, a: Action)
    requires Inv(r, s) && Enabled(r, s, a) && a.Record?
    ensures Inv(r, Step(r, s, a))
  {
    A.StepKeepsWindow(s.window, A.Record);
    hide A.Window, H.FeedBatches, AsFed, BytesOf, Numbered, P.Live, SlotsAreOld, HistoryInv;
  }

  /** The window after a turned-down batch and after the run. */
  lemma WindowGivesUp(w: A.State)
    requires A.Window(w)
    ensures A.Enabled(w, A.TurnDown) ==>
              A.Step(w, A.TurnDown) == w.(phase := A.Reading) && A.Window(A.Step(w, A.TurnDown))
    ensures A.Enabled(w, A.EndRun) ==>
              A.Step(w, A.EndRun) == w.(running := false, phase := A.Reading) && A.Window(A.Step(w, A.EndRun))
  {
  }

  lemma TurnDownKeepsInv(r: P.RunId, s: State, a: Action)
    requires Inv(r, s) && Enabled(r, s, a) && a.TurnDown?
    ensures Inv(r, Step(r, s, a))
  {
    WindowGivesUp(s.window);
    hide A.Window, A.Step, A.Enabled, H.FeedBatches, AsFed, BytesOf, Numbered, P.Live, SlotsAreOld;
  }

  lemma FinishKeepsInv(r: P.RunId, s: State, a: Action)
    requires Inv(r, s) && Enabled(r, s, a) && a.Finish?
    ensures Inv(r, Step(r, s, a))
  {
    WindowGivesUp(s.window);
    hide A.Window, A.Step, A.Enabled, H.FeedBatches, AsFed, BytesOf, Numbered, P.Live, SlotsAreOld;
  }

  lemma StepKeepsInv(r: P.RunId, s: State, a: Action)
    requires Inv(r, s) && Enabled(r, s, a)
    ensures Inv(r, Step(r, s, a))
  {
    match a
    case Begin(_, _) => BeginKeepsInv(r, s, a);
    case Call(_) => CallKeepsInv(r, s, a);
    case PassWait(_) => PassWaitKeepsInv(r, s, a);
    case FeedHistory => FeedKeepsInv(r, s, a);
    case Push => PushKeepsInv(r, s, a);
    case Record => RecordKeepsInv(r, s, a);
    case OnWindow(b) => WindowKeepsInv(r, s, b);
    case OnPipe(b) => PipeKeepsInv(r, s, b);
    case Mark(k, now) =>
      PipeKeepsInv(r, s, P.TakeMark(k, r));
      WindowKeepsInv(r, s.(pipe := P.Step(s.pipe, P.TakeMark(k, r))), A.Snapshot(now));
    case TurnDown => TurnDownKeepsInv(r, s, a);
    case Finish => FinishKeepsInv(r, s, a);
  }

  lemma {:induction false} RunKeepsInv(r: P.RunId, s: State, actions: seq<Action>)
    requires Inv(r, s) && IsRun(r, s, actions)
    ensures Inv(r, After(r, s, actions))
    decreases |actions|
  {
    if actions != [] {
      StepKeepsInv(r, s, actions[0]);
      hide Inv, Step, Enabled;
      RunKeepsInv(r, Step(r, s, actions[0]), actions[1..]);
    }
  }

  /** The run has begun. */
  ghost predicate Reached(r: P.RunId, actions: seq<Action>, s: State) {
    IsRun(r, FRESH, actions) && s == After(r, FRESH, actions) && !s.place.Unborn?
  }

  lemma ReachedKeepsInv(r: P.RunId, actions: seq<Action>, s: State)
    requires Reached(r, actions, s)
    ensures Inv(r, s) && CountInv(r, s)
  {
    assert Inv(r, FRESH);
    RunKeepsInv(r, FRESH, actions);
    hide After, IsRun;
  }

  // ---- what emit promises -----------------------------------------------------------

  /** Over every interleaving: the batches taken are the first ones, up to the last
      pushed, so one turned down is turned down for good; and while the session holds
      its slot and the delivery queue is open none is, every finished call has been fed
      and pushed, and the history is that of the calls. */
  lemma TakenIsABeginning(r: P.RunId, actions: seq<Action>, s: State)
    requires Reached(r, actions, s)
    ensures r in s.pipe.runs && Numbered(s.calls) && s.pipe.runs[r].pushed <= s.pipe.runs[r].fed <= |s.calls|
    ensures forall i :: 0 <= i < |s.answers| ==> (s.answers[i] <==> i < s.pipe.runs[r].pushed)
    ensures s.history == H.FeedBatches(H.EMPTY, AsFed(s.calls[..s.pipe.runs[r].fed]))
    ensures P.Live(s.pipe, r) && !InCall(s) ==> s.pipe.runs[r].fed == |s.calls| == |s.answers|
    ensures P.Live(s.pipe, r) && !InCall(s) && !s.pipe.closing ==>
              s.pipe.runs[r].pushed == |s.calls| && forall i :: 0 <= i < |s.answers| ==> s.answers[i]
  {
    ReachedKeepsInv(r, actions, s);
    hide IsRun, After, P.Live, Numbered, H.FeedBatches, AsFed, WindowInv;
  }

  /** Once the wait lets it go a call of emit always has a next step, and which one is
      decided by the slot and the queue alone. */
  lemma EmitIsNeverStuck(r: P.RunId, actions: seq<Action>, s: State)
    requires Reached(r, actions, s)
    ensures s.place.Cleared? ==> (Enabled(r, s, FeedHistory) <==> P.Live(s.pipe, r))
    ensures s.place.Cleared? ==> (Enabled(r, s, TurnDown) <==> !P.Live(s.pipe, r))
    ensures s.place.Shown? ==> (Enabled(r, s, Push) <==> !s.pipe.closing)
    ensures s.place.Shown? && s.pipe.closing ==> Enabled(r, s, TurnDown)
    ensures s.place.Sent? ==> Enabled(r, s, Record)
  {
    ReachedKeepsInv(r, actions, s);
    hide IsRun, After, Numbered, H.FeedBatches, HistoryInv, CallsInv, BytesOf, A.Window, SlotsAreOld;
  }

  /** The steps of a call that nothing gets in the way of. */
  function WholeCall(batch: Batch, now: real): seq<Action> { [Call(batch), PassWait(now), FeedHistory, Push, Record] }

  lemma CallStarts(r: P.RunId, s: State, batch: Batch, now: real)
    requires Enabled(r, s, Call(batch)) && s.window.running && s.window.phase.Reading? && !A.Holding(s.window, now)
    ensures var s1 := Step(r, s, Call(batch)); Enabled(r, s1, PassWait(now)) && var s2 := Step(r, s1, PassWait(now));
            && s2.place.Cleared? && s2.pipe == s.pipe && s2.calls == s.calls + [batch] && s2.answers == s.answers
            && s2.history == s.history
  {
    A.HeldExactly(s.window, Utf8Size(batch.text), now);
    hide A.MayGo, A.Holding, Utf8Size, A.Step;
  }

  /** While the session holds its slot, the queue is open and the browser keeps up, a
      batch that is offered is fed to the history, pushed, recorded and taken. */
  lemma UndisturbedCallIsTaken(r: P.RunId, actions: seq<Action>, s: State, batch: Batch, now: real)
    requires Reached(r, actions, s) && Enabled(r, s, Call(batch)) && P.Live(s.pipe, r) && !s.pipe.closing
    requires !A.Holding(s.window, now)
    ensures IsRun(r, s, WholeCall(batch, now))
    ensures r in s.pipe.runs && var n := After(r, s, WholeCall(batch, now)); (
              && n.calls == s.calls + [batch] && n.answers == s.answers + [true] && n.place.Idle?
              && r in n.pipe.runs && n.pipe.runs[r].pushed == |n.calls| == s.pipe.runs[r].pushed + 1
              && n.history == H.FeedBatch(s.history, batch.text, batch.number))
  {
    ReachedKeepsInv(r, actions, s);
    assert WindowInv(s, s.pipe.runs[r].pushed) && s.window.running && s.window.phase.Reading?;
    assert s.pipe.runs[r].pushed == |s.calls|;
    CallStarts(r, s, batch, now);
    var s1 := Step(r, s, Call(batch));
    var s2 := Step(r, s1, PassWait(now));
    hide IsRun, After, Inv, Reached, H.FeedBatch, H.FeedBatches, WindowInv, CountInv, Numbered;
    CallGoesOn(r, actions, s, s1, s2, batch, now);
  }

  lemma CallGoesOn(r: P.RunId, actions: seq<Action>, s: State, s1: State, s2: State, batch: Batch, now: real)
    requires Inv(r, s) && Enabled(r, s, Call(batch)) && s1 == Step(r, s, Call(batch))
    requires Enabled(r, s1, PassWait(now)) && s2 == Step(r, s1, PassWait(now)) && s2.place.Cleared?
    requires s2.pipe == s.pipe && s2.calls == s.calls + [batch] && s2.answers == s.answers && s2.history == s.history
    requires P.Live(s.pipe, r) && !s.pipe.closing && r in s.pipe.runs && s.pipe.runs[r].pushed == |s.calls|
    ensures IsRun(r, s, WholeCall(batch, now))
    ensures var n := After(r, s, WholeCall(batch, now));
            && n.calls == s2.calls && n.answers == s.answers + [true] && n.place.Idle?
            && r in n.pipe.runs && n.pipe.runs[r].pushed == |n.calls|
            && n.history == H.FeedBatch(s.history, batch.text, batch.number)
  {
    hide Inv, Step, H.FeedBatch;
    StepKeepsInv(r, s, Call(batch));
    StepKeepsInv(r, s1, PassWait(now));
    LastSteps(r, s2, batch);
    var s3 := Step(r, s2, FeedHistory);
    var s4 := Step(r, s3, Push);
    RunOne(r, s4, Record, []);
    RunOne(r, s3, Push, [Record]);
    RunOne(r, s2, FeedHistory, [Push, Record]);
    RunOne(r, s1, PassWait(now), [FeedHistory, Push, Record]);
    RunOne(r, s, Call(batch), [PassWait(now), FeedHistory, Push, Record]);
    assert [Record] == [Record] + [] && [Push, Record] == [Push] + [Record];
    assert [FeedHistory, Push, Record] == [FeedHistory] + [Push, Record];
    assert [PassWait(now), FeedHistory, Push, Record] == [PassWait(now)] + [FeedHistory, Push, Record];
    assert WholeCall(batch, now) == [Call(batch)] + [PassWait(now), FeedHistory, Push, Record];
  }

  lemma RunOne(r: P.RunId, s: State, a: Action, rest: seq<Action>)
    requires Enabled(r, s, a) && IsRun(r, Step(r, s, a), rest)
    ensures IsRun(r, s, [a] + rest) && After(r, s, [a] + rest) == After(r, Step(r, s, a), rest)
  {
    hide Step, Enabled;
    assert ([a] + rest)[0] == a && ([a] + rest)[1..] == rest;
  }

  lemma FeedIs(s: P.State, r: P.RunId)
    requires r in s.runs && P.Live(s, r) && !s.closing && s.runs[r].fed == s.runs[r].pushed
    ensures P.Enabled(s, P.Feed(r))
    ensures P.Step(s, P.Feed(r)) == s.(runs := s.runs[r := s.runs[r].(fed := s.runs[r].fed + 1)])
  {
  }

  lemma PushIs(s: P.State, r: P.RunId)
    requires r in s.runs && !s.closing && s.runs[r].fed == s.runs[r].pushed + 1
    ensures P.Enabled(s, P.PushBatch(r)) && r in P.Step(s, P.PushBatch(r)).runs
    ensures P.Step(s, P.PushBatch(r)).runs[r].pushed == s.runs[r].fed
  {
  }

  /** Feed, push and record of the batch at hand. */
  lemma LastSteps(r: P.RunId, s: State, batch: Batch)
    requires Inv(r, s) && s.place.Cleared? && s.calls != [] && s.calls[|s.calls| - 1] == batch
    requires P.Live(s.pipe, r) && !s.pipe.closing && r in s.pipe.runs && s.pipe.runs[r].pushed == |s.calls| - 1
    ensures Enabled(r, s, FeedHistory) && var s3 := Step(r, s, FeedHistory);
            Enabled(r, s3, Push) && var s4 := Step(r, s3, Push);
            Enabled(r, s4, Record) && var n := Step(r, s4, Record);
            && n.calls == s.calls && n.answers == s.answers + [true] && n.place.Idle?
            && r in n.pipe.runs && n.pipe.runs[r].pushed == |n.calls|
            && n.history == H.FeedBatch(s.history, batch.text, batch.number)
  {
    assert WindowInv(s, s.pipe.runs[r].pushed) && CountInv(r, s);
    hide H.FeedBatch, H.FeedBatches, AsFed, Utf8Size, A.Window, Numbered, Inv, WindowInv, CountInv, CallsInv,
         HistoryInv, SlotsAreOld;
    assert s.pipe.runs[r].fed == s.pipe.runs[r].pushed;
    FeedIs(s.pipe, r);
    PushIs(P.Step(s.pipe, P.Feed(r)), r);
  }

  // ---- the window against the batches -------------------------------------------------

  lemma {:induction false} Utf8SizeJoins(a: string, b: string)
    ensures Utf8Size(a + b) == Utf8Size(a) + Utf8Size(b)
  {
    if a == "" {
      assert a + b == b;
    } else {
      assert (a + b)[0] == a[0] && (a + b)[1..] == a[1..] + b;
      Utf8SizeJoins(a[1..], b);
    }
  }

  lemma {:induction false} WindowBytes(sent: map<nat, nat>, calls: seq<Batch>, low: nat, high: nat)
    requires low <= high <= |calls|
    requires forall q :: low < q <= high ==> q in sent && sent[q] == BytesOf(calls, q)
    ensures A.Sum(sent, low, high) == Utf8Size(Joined(calls[low..high]))
    decreases high
  {
    if low < high {
      WindowBytes(sent, calls, low, high - 1);
      assert calls[low..high] == calls[low..high - 1] + [calls[high - 1]];
      JoinedSnoc(calls[low..high - 1], calls[high - 1]);
      Utf8SizeJoins(Joined(calls[low..high - 1]), calls[high - 1].text);
    }
  }

  /** The browser is never counted as owing anything but pushed output: what is
      unacknowledged is, byte for byte, the text of the batches recorded since the last
      one acknowledged, and at most one pushed batch is not recorded yet. */
  lemma UnackedIsPushedText(r: P.RunId, actions: seq<Action>, s: State)
    requires Reached(r, actions, s)
    ensures r in s.pipe.runs && var pushed := s.pipe.runs[r].pushed;
            && s.window.ackedSeq <= s.window.sentSeq <= pushed <= s.window.sentSeq + 1 && pushed <= |s.calls|
            && (s.window.sentSeq < pushed <==> s.place.Sent?)
    ensures A.Unacked(s.window) == Utf8Size(Joined(s.calls[s.window.ackedSeq..s.window.sentSeq]))
  {
    ReachedKeepsInv(r, actions, s);
    WindowBytes(s.window.sent, s.calls, s.window.ackedSeq, s.window.sentSeq);
    hide IsRun, After, P.Live, Numbered, H.FeedBatches, AsFed, Utf8Size, HistoryInv, CallsInv;
  }

  lemma MarkShows(s: P.State, k: P.SocketId, r: P.RunId)
    requires P.Enabled(s, P.TakeMark(k, r))
    ensures r in s.runs && var n := P.Step(s, P.TakeMark(k, r));
            k in n.sockets && r in n.sockets[k].marks && n.sockets[k].marks[r] == s.runs[r].fed
  {
  }

  lemma SnapshotAcksAll(w: A.State, now: real)
    requires A.Window(w) && w.running
    ensures var n := A.Step(w, A.Snapshot(now)); n.ackedSeq == n.sentSeq == w.sentSeq
  {
  }

  /** A snapshot for a page acknowledges only what it shows: the history it is made of
      is that of the batches up to its watermark, and none beyond that counts as
      acknowledged. */
  lemma SnapshotShowsWhatItAcknowledges(r: P.RunId, actions: seq<Action>, s: State, k: P.SocketId, now: real)
    requires Reached(r, actions, s) && Enabled(r, s, Mark(k, now))
    ensures var n := Step(r, s, Mark(k, now)); (
              && k in n.pipe.sockets && r in n.pipe.sockets[k].marks && var mark := n.pipe.sockets[k].marks[r];
              && n.window.ackedSeq == n.window.sentSeq <= mark <= |s.calls|
              && s.history == H.FeedBatches(H.EMPTY, AsFed(s.calls[..mark])) && s.history.lastSeq == mark)
  {
    ReachedKeepsInv(r, actions, s);
    var fed := s.pipe.runs[r].fed;
    LastIsCount(s.calls, fed);
    MarkShows(s.pipe, k, r);
    assert s.window.running;
    SnapshotAcksAll(s.window, now);
    hide Inv, IsRun, After, P.Step, P.Enabled, P.Live, A.Step, Numbered, H.FeedBatches, AsFed, BytesOf, CallsInv;
  }

  lemma {:induction false} FedNumbers(batches: seq<Batch>)
    ensures |AsFed(batches)| == |batches|
    ensures forall i :: 0 <= i < |batches| ==> AsFed(batches)[i] == (batches[i].text, batches[i].number)
    ensures H.TextOf(AsFed(batches)) == Joined(batches)
  {
    if batches != [] { FedNumbers(batches[1..]); }
  }

  lemma LastIsCount(batches: seq<Batch>, fed: nat)
    requires Numbered(batches) && fed <= |batches|
    ensures H.FeedBatches(H.EMPTY, AsFed(batches[..fed])).lastSeq == fed
  {
    FedNumbers(batches[..fed]);
    H.BatchingIsInvisible(H.EMPTY, AsFed(batches[..fed]));
  }
}
