/** How much terminal output may be on its way to the browser before SSH
    reading pauses (terminal_control.py). */
module AckWindows {
  import opened Common
  import opened Config

  /** Where the reader thread is with its next batch of some size in bytes. */
  datatype Phase = Reading | Admitted(size: nat) | Pushed(size: nat)

  datatype State = State(running: bool, sentSeq: nat, ackedSeq: nat, sent: map<nat, nat>, stalled: bool,
                         cancelled: bool, watching: bool, progressAt: real, phase: Phase)

  const IDLE := State(false, 0, 0, map[], false, false, false, 0.0, Reading)

  datatype Action =
    | Start(now: real)
    | Admit(size: nat, now: real)
    | Push
    | TurnDown
    | Record
    | Ack(number: int, now: real)
    | Snapshot(now: real)
    | Cancel
    | Watch(watching: bool)
    | EndRun

  /** The bytes of the batches after `low` up to and with `high`. */
  function Sum(sent: map<nat, nat>, low: nat, high: nat): nat
    decreases high
  {
    if high <= low then 0 else Sum(sent, low, high - 1) + if high in sent then sent[high] else 0
  }

  function Unacked(s: State): nat { Sum(s.sent, s.ackedSeq, s.sentSeq) }

  /** The waiting loop lets the batch go on without counting bytes. */
  predicate Bypass(s: State) { s.cancelled || !s.watching || s.stalled }

  /** The browser has made no progress for too long. */
  predicate Expired(s: State, now: real) { now - s.progressAt >= TERM_ACK_STALL_SECONDS }

  /** Whether one turn of the waiting loop ends it. */
  predicate MayGo(s: State, now: real) { Bypass(s) || Unacked(s) <= TERM_UNACKED_MAX_BYTES || Expired(s, now) }

  predicate Enabled(s: State, a: Action) {
    match a
    case Start(_) => !s.running
    case Admit(_, now) => s.running && s.phase.Reading? && MayGo(s, now)
    case Push => s.running && s.phase.Admitted?
    case TurnDown => s.running && s.phase.Admitted?
    case Record => s.running && s.phase.Pushed?
    case EndRun => s.running
    case _ => true
  }

  function Started(s: State, now: real): State {
    s.(running := true, sentSeq := 0, ackedSeq := 0, sent := map[], stalled := false, cancelled := false,
        progressAt := now, phase := Reading)
  }

  function Acked(s: State, upTo: nat, now: real): State {
    s.(ackedSeq := upTo, progressAt := now, stalled := false, sent := map q | q in s.sent && q > upTo :: s.sent[q])
  }

  function Step(s: State, a: Action): State
    requires Enabled(s, a)
  {
    match a
    case Start(now) => Started(s, now)
    case Admit(size, _) =>
      s.(phase := Admitted(size), stalled := s.stalled || !(Bypass(s) || Unacked(s) <= TERM_UNACKED_MAX_BYTES))
    case TurnDown => s.(phase := Reading)
    case Push => s.(phase := Pushed(s.phase.size))
    case Record => s.(phase := Reading, sentSeq := s.sentSeq + 1, sent := s.sent[s.sentSeq + 1 := s.phase.size])
    case Ack(q, now) => if !s.running || q > s.sentSeq || q <= s.ackedSeq then s else Acked(s, q, now)
    case Snapshot(now) => if s.running && s.sentSeq > s.ackedSeq then Acked(s, s.sentSeq, now) else s
    case Cancel => if s.running then s.(cancelled := true) else s
    case Watch(watching) => s.(watching := watching)
    case EndRun => s.(running := false, phase := Reading)
  }

  ghost predicate IsRun(s: State, actions: seq<Action>)
    decreases |actions|
  {
    actions == [] || (Enabled(s, actions[0]) && IsRun(Step(s, actions[0]), actions[1..]))
  }

  function After(s: State, actions: seq<Action>): State
    requires IsRun(s, actions)
    decreases |actions|
  {
    if actions == [] then s else After(Step(s, actions[0]), actions[1..])
  }

  // ---- the window ------------------------------------------------------------

  /** The batches kept are exactly those sent and not acknowledged. */
  ghost predicate Window(s: State) {
    s.ackedSeq <= s.sentSeq && forall q :: q in s.sent <==> s.ackedSeq < q <= s.sentSeq
  }

  lemma StepKeepsWindow(s: State, a: Action)
    requires Window(s) && Enabled(s, a)
    ensures Window(Step(s, a))
  {
  }

  /** In every reachable state `acked_seq` is at most `sent_seq`, and the sizes
      kept are exactly those of the batches in between. */
  lemma {:induction false} WindowIsExact(s: State, actions: seq<Action>)
    requires Window(s) && IsRun(s, actions)
    ensures Window(After(s, actions))
    decreases |actions|
  {
    if actions != [] {
      StepKeepsWindow(s, actions[0]);
      WindowIsExact(Step(s, actions[0]), actions[1..]);
    }
  }

  lemma {:induction false} SumIsLocal(a: map<nat, nat>, b: map<nat, nat>, low: nat, high: nat)
    requires forall q :: low < q <= high ==> (q in a <==> q in b) && (q in a ==> a[q] == b[q])
    ensures Sum(a, low, high) == Sum(b, low, high)
    decreases high
  {
    if low < high { SumIsLocal(a, b, low, high - 1); }
  }

  lemma {:induction false} SumSplits(sent: map<nat, nat>, low: nat, mid: nat, high: nat)
    requires low <= mid <= high
    ensures Sum(sent, low, high) == Sum(sent, low, mid) + Sum(sent, mid, high)
    decreases high
  {
    if mid < high { SumSplits(sent, low, mid, high - 1); }
  }

  /** An acknowledgement takes off exactly the bytes it covers. */
  lemma AckTakesOff(s: State, q: nat, now: real)
    requires s.ackedSeq <= q <= s.sentSeq
    ensures Unacked(Acked(s, q, now)) + Sum(s.sent, s.ackedSeq, q) == Unacked(s)
  {
    SumSplits(s.sent, s.ackedSeq, q, s.sentSeq);
    SumIsLocal(s.sent, Acked(s, q, now).sent, q, s.sentSeq);
  }

  /** How a step changes the bytes in the window: only a recorded batch adds. */
  lemma UnackedStep(s: State, a: Action)
    requires Window(s) && Enabled(s, a)
    ensures a.Record? ==> Unacked(Step(s, a)) == Unacked(s) + s.phase.size
    ensures a.Start? ==> Unacked(Step(s, a)) == 0
    ensures !a.Record? ==> Unacked(Step(s, a)) <= Unacked(s)
  {
    if a.Record? {
      SumIsLocal(s.sent, Step(s, a).sent, s.ackedSeq, s.sentSeq);
    } else if a.Ack? && s.running && s.ackedSeq < a.number <= s.sentSeq {
      AckTakesOff(s, a.number, a.now);
    } else if a.Snapshot? && s.running && s.sentSeq > s.ackedSeq {
      AckTakesOff(s, s.sentSeq, a.now);
    }
  }

  /** At most the limit and one batch is waiting for the browser. */
  predicate Bounded(s: State) {
    s.ackedSeq < s.sentSeq && s.sentSeq in s.sent ==> Unacked(s) <= TERM_UNACKED_MAX_BYTES + s.sent[s.sentSeq]
  }

  /** A batch joins a window that is not over its limit. */
  predicate RecordedWithin(s: State, a: Action) { a.Record? ==> Unacked(s) <= TERM_UNACKED_MAX_BYTES }

  ghost predicate AlwaysBounded(s: State, actions: seq<Action>)
    requires IsRun(s, actions)
    decreases |actions|
  {
    Bounded(s) && (actions != [] ==> AlwaysBounded(Step(s, actions[0]), actions[1..]))
  }

  ghost predicate AllRecordedWithin(s: State, actions: seq<Action>)
    requires IsRun(s, actions)
    decreases |actions|
  {
    actions != [] ==> RecordedWithin(s, actions[0]) && AllRecordedWithin(Step(s, actions[0]), actions[1..])
  }

  lemma BoundedStep(s: State, a: Action)
    requires Window(s) && Enabled(s, a) && Bounded(s)
    ensures Bounded(Step(s, a)) <==> RecordedWithin(s, a)
  {
    UnackedStep(s, a);
    hide Unacked;
  }

  /** Exactly when the window keeps to the limit plus one batch throughout a run:
      when no batch is recorded while the window is already over the limit. */
  lemma {:induction false} WindowHoldsExactly(s: State, actions: seq<Action>)
    requires Window(s) && IsRun(s, actions) && Bounded(s)
    ensures AlwaysBounded(s, actions) <==> AllRecordedWithin(s, actions)
    decreases |actions|
  {
    if actions != [] {
      var n := Step(s, actions[0]);
      StepKeepsWindow(s, actions[0]);
      BoundedStep(s, actions[0]);
      if Bounded(n) { WindowHoldsExactly(n, actions[1..]); } else { assert !AlwaysBounded(n, actions[1..]); }
    }
  }

  /** Every batch was let go with the window within its limit, so neither an
      absent or stalled browser nor a cancel waved one past it. */
  ghost predicate AllWithin(s: State, actions: seq<Action>)
    requires IsRun(s, actions)
    decreases |actions|
  {
    actions != [] ==>
      (actions[0].Admit? ==> Unacked(s) <= TERM_UNACKED_MAX_BYTES) && AllWithin(Step(s, actions[0]), actions[1..])
  }

  /** A batch let go within the limit is also recorded within it: what happens in
      between can only take bytes off. */
  lemma {:induction false} LetGoWithinIsRecordedWithin(s: State, actions: seq<Action>)
    requires Window(s) && IsRun(s, actions) && AllWithin(s, actions)
    requires !s.phase.Reading? ==> Unacked(s) <= TERM_UNACKED_MAX_BYTES
    ensures AllRecordedWithin(s, actions)
    decreases |actions|
  {
    if actions != [] {
      StepKeepsWindow(s, actions[0]);
      UnackedStep(s, actions[0]);
      PhaseStep(s, actions[0]);
      hide Unacked, Step, Window;
      LetGoWithinIsRecordedWithin(Step(s, actions[0]), actions[1..]);
    }
  }

  lemma PhaseStep(s: State, a: Action)
    requires Enabled(s, a)
    ensures !Step(s, a).phase.Reading? ==> a.Admit? || (!a.Record? && !s.phase.Reading?)
    ensures a.Record? ==> !s.phase.Reading?
  {
  }

  /** While the browser watches, keeps up and nothing is cancelled whenever a
      batch asks to go, the window never exceeds the limit by more than one batch. */
  lemma OrdinaryRunIsBounded(actions: seq<Action>)
    requires IsRun(IDLE, actions) && AllWithin(IDLE, actions)
    ensures AlwaysBounded(IDLE, actions)
  {
    LetGoWithinIsRecordedWithin(IDLE, actions);
    WindowHoldsExactly(IDLE, actions);
  }

  // ---- when a batch is held -------------------------------------------------------------

  /** A watching browser keeps up with a run nobody cancelled, owes more than the limit
      and has made progress lately. */
  predicate Holding(s: State, now: real) {
    && s.watching && !s.cancelled && !s.stalled && now - s.progressAt < TERM_ACK_STALL_SECONDS
    && Sum(s.sent, s.ackedSeq, s.sentSeq) > TERM_UNACKED_MAX_BYTES
  }

  /** Exactly then a batch is held back; and a run counts as stalled only because one
      was let past the limit when the time for progress was over. */
  lemma HeldExactly(s: State, size: nat, now: real)
    requires s.running && s.phase.Reading?
    ensures Enabled(s, Admit(size, now)) <==> !Holding(s, now)
    ensures Enabled(s, Admit(size, now)) ==> (
              Step(s, Admit(size, now)).stalled <==>
                || s.stalled
                || (s.watching && !s.cancelled && Sum(s.sent, s.ackedSeq, s.sentSeq) > TERM_UNACKED_MAX_BYTES
                    && now - s.progressAt >= TERM_ACK_STALL_SECONDS))
  {
  }

  /** A cancel or a browser that goes away lets the waiting batch go at the next look. */
  lemma CancelLetsGo(s: State, now: real)
    requires s.running
    ensures !Holding(Step(s, Cancel), now) && !Holding(Step(s, Watch(false)), now)
    ensures Step(s, Cancel).cancelled && Step(s, Cancel).sent == s.sent && Step(s, Cancel).ackedSeq == s.ackedSeq
  {
  }

  /** Every batch asks to go on a watched, uncancelled run, less than twenty seconds
      after the last progress. */
  ghost predicate AllPrompt(s: State, actions: seq<Action>)
    requires IsRun(s, actions)
    decreases |actions|
  {
    actions != [] ==>
      && (actions[0].Admit? ==>
            s.watching && !s.cancelled && actions[0].now - s.progressAt < TERM_ACK_STALL_SECONDS)
      && AllPrompt(Step(s, actions[0]), actions[1..])
  }

  lemma {:induction false} PromptIsWithin(s: State, actions: seq<Action>)
    requires IsRun(s, actions) && AllPrompt(s, actions) && !s.stalled
    ensures AllWithin(s, actions)
    decreases |actions|
  {
    if actions != [] {
      var n := Step(s, actions[0]);
      assert !n.stalled;
      hide Unacked, Step;
      PromptIsWithin(n, actions[1..]);
    }
  }

  /** With a browser that makes progress within twenty seconds of every batch, the
      limit plus one batch holds in every state of every run. */
  lemma PromptRunIsBounded(actions: seq<Action>)
    requires IsRun(IDLE, actions) && AllPrompt(IDLE, actions)
    ensures AlwaysBounded(IDLE, actions)
  {
    PromptIsWithin(IDLE, actions);
    OrdinaryRunIsBounded(actions);
  }

  // ---- what the source promises: the bound while the browser keeps up -------------

  /** The run is on, watched, not cancelled and not stalled: then the limit and one
      batch is all that may wait. */
  predicate Kept(s: State) { s.running && !Bypass(s) ==> Bounded(s) }

  ghost predicate AlwaysKept(s: State, actions: seq<Action>)
    requires IsRun(s, actions)
    decreases |actions|
  {
    Kept(s) && (actions != [] ==> AlwaysKept(Step(s, actions[0]), actions[1..]))
  }

  /** The guard that matters where a batch asks to go. */
  predicate Guarded(s: State) { s.cancelled || Unacked(s) <= TERM_UNACKED_MAX_BYTES }

  ghost predicate AllGuarded(s: State, actions: seq<Action>)
    requires IsRun(s, actions)
    decreases |actions|
  {
    actions != [] ==> (actions[0].Admit? ==> Guarded(s)) && AllGuarded(Step(s, actions[0]), actions[1..])
  }

  /** A run that is not cancelled has kept to the limit with every batch so far. */
  predicate GuardInv(s: State) {
    s.running && !s.cancelled ==> Bounded(s) && (!s.phase.Reading? ==> Unacked(s) <= TERM_UNACKED_MAX_BYTES)
  }

  lemma GuardedStep(s: State, a: Action)
    requires Window(s) && GuardInv(s) && Enabled(s, a) && (a.Admit? ==> Guarded(s))
    ensures GuardInv(Step(s, a))
  {
    RunFlags(s, a);
    UnackedStep(s, a);
    if !s.running { return; }
    if !s.cancelled {
      BoundedStep(s, a);
      PhaseStep(s, a);
    }
    hide Unacked, Step, Window, Bounded;
  }

  lemma RunFlags(s: State, a: Action)
    requires Enabled(s, a)
    ensures Step(s, a).running && !s.running ==> a.Start? && Bounded(Step(s, a)) && Step(s, a).phase.Reading?
    ensures Step(s, a).running && s.running && s.cancelled ==> Step(s, a).cancelled
  {
  }

  /** Batches that are let go only within the limit, or after a cancel, keep the
      promise in every state of every run. */
  lemma {:induction false} GuardedRunIsKept(s: State, actions: seq<Action>)
    requires Window(s) && GuardInv(s) && IsRun(s, actions) && AllGuarded(s, actions)
    ensures AlwaysKept(s, actions)
    decreases |actions|
  {
    if actions != [] {
      StepKeepsWindow(s, actions[0]);
      GuardedStep(s, actions[0]);
      GuardedRunIsKept(Step(s, actions[0]), actions[1..]);
    }
  }

  // ---- where the bound fails ----------------------------------------------------

  function Cycle(size: nat, now: real): seq<Action> { [Admit(size, now), Push, Record] }

  function Cycled(s: State, size: nat, now: real): State
    requires s.running && s.phase.Reading? && MayGo(s, now)
  {
    Step(Step(Step(s, Admit(size, now)), Push), Record)
  }

  lemma RunOne(s: State, a: Action, rest: seq<Action>)
    requires Enabled(s, a) && IsRun(Step(s, a), rest)
    ensures IsRun(s, [a] + rest) && After(s, [a] + rest) == After(Step(s, a), rest)
  {
    assert ([a] + rest)[0] == a && ([a] + rest)[1..] == rest;
  }

  lemma RunCycle(s: State, size: nat, now: real, rest: seq<Action>)
    requires s.running && s.phase.Reading? && MayGo(s, now) && IsRun(Cycled(s, size, now), rest)
    ensures IsRun(s, Cycle(size, now) + rest) && After(s, Cycle(size, now) + rest) == After(Cycled(s, size, now), rest)
  {
    hide After, IsRun, MayGo;
    var s1 := Step(s, Admit(size, now));
    var s2 := Step(s1, Push);
    RunOne(s2, Record, rest);
    RunOne(s1, Push, [Record] + rest);
    RunOne(s, Admit(size, now), [Push] + ([Record] + rest));
    assert Cycle(size, now) + rest == [Admit(size, now)] + ([Push] + ([Record] + rest));
  }

  lemma CycleAdds(s: State, size: nat, now: real)
    requires Window(s) && s.running && s.phase.Reading? && MayGo(s, now)
    ensures var n := Cycled(s, size, now);
            && Window(n) && n.running && n.phase.Reading? && n.ackedSeq == s.ackedSeq && n.sentSeq == s.sentSeq + 1
            && n.watching == s.watching && n.cancelled == s.cancelled && n.progressAt == s.progressAt
            && n.sent == s.sent[s.sentSeq + 1 := size] && Unacked(n) == Unacked(s) + size
            && n.stalled == (s.stalled || !(Bypass(s) || Unacked(s) <= TERM_UNACKED_MAX_BYTES))
  {
    var s2 := Step(Step(s, Admit(size, now)), Push);
    assert Unacked(s2) == Unacked(s);
    UnackedStep(s2, Record);
  }

  /** A batch cut at 32,768 characters of four bytes each. */
  const BIG := 131072

  /** Batches of that size, one after the other, as long as they may go. */
  function Burst(s: State, n: nat, now: real): State
    decreases n
  {
    if n == 0 || !s.running || !s.phase.Reading? || !MayGo(s, now) then s else Burst(Cycled(s, BIG, now), n - 1, now)
  }

  function Cycles(n: nat, now: real): seq<Action> { if n == 0 then [] else Cycle(BIG, now) + Cycles(n - 1, now) }

  /** Whether all of a burst may go. */
  predicate BurstMayGo(s: State, n: nat, now: real) {
    s.running && s.phase.Reading? &&
        (Bypass(s) || Expired(s, now) || n == 0 || Unacked(s) + (n - 1) * BIG <= TERM_UNACKED_MAX_BYTES)
  }

  lemma {:induction false} BurstAdds(s: State, n: nat, now: real)
    requires Window(s) && BurstMayGo(s, n, now)
    ensures var t := Burst(s, n, now);
            && Window(t) && t.running && t.phase.Reading? && t.ackedSeq == s.ackedSeq && t.sentSeq == s.sentSeq + n
            && t.watching == s.watching && t.cancelled == s.cancelled && t.progressAt == s.progressAt
            && Unacked(t) == Unacked(s) + n * BIG
            && (forall q :: q in t.sent ==>
                if q <= s.sentSeq then q in s.sent && t.sent[q] == s.sent[q] else t.sent[q] == BIG)
    decreases n
  {
    if n > 0 {
      CycleAdds(s, BIG, now);
      hide Cycled, Unacked;
      BurstAdds(Cycled(s, BIG, now), n - 1, now);
    }
  }

  lemma {:induction false} BurstRuns(s: State, n: nat, now: real, rest: seq<Action>)
    requires Window(s) && BurstMayGo(s, n, now) && IsRun(Burst(s, n, now), rest)
    ensures IsRun(s, Cycles(n, now) + rest) && After(s, Cycles(n, now) + rest) == After(Burst(s, n, now), rest)
    decreases n
  {
    if n == 0 {
      assert Cycles(n, now) + rest == rest;
    } else {
      CycleAdds(s, BIG, now);
      hide Cycled, Unacked, IsRun, After, Cycle;
      BurstRuns(Cycled(s, BIG, now), n - 1, now, rest);
      RunCycle(s, BIG, now, Cycles(n - 1, now) + rest);
      assert Cycles(n, now) + rest == Cycle(BIG, now) + (Cycles(n - 1, now) + rest);
    }
  }

  /** The bound fails for a watched, running, uncancelled, unstalled run: a stall
      lets two batches through, and the late acknowledgement of the first one
      ends the stall with the window still far over its limit. */
  lemma StallThenAckOverruns() returns (actions: seq<Action>)
    ensures IsRun(IDLE, actions)
    ensures var s := After(IDLE, actions);
            && s.running && s.watching && !Bypass(s) && s.sentSeq in s.sent
            && Unacked(s) > TERM_UNACKED_MAX_BYTES + s.sent[s.sentSeq]
  {
    var s0 := Step(Step(IDLE, Watch(true)), Start(0.0));
    var s5 := Burst(s0, 5, 0.0);
    assert Window(s0) && Unacked(s0) == 0;
    BurstAdds(s0, 5, 0.0);
    hide Burst, After, IsRun, Cycles;
    var s7 := Burst(s5, 2, 20.0);
    BurstAdds(s5, 2, 20.0);
    var ack := Ack(1, 21.0);
    AckTakesOff(s7, 1, 21.0);
    OneRun(s7, ack);
    BurstRuns(s5, 2, 20.0, [ack]);
    BurstRuns(s0, 5, 0.0, Cycles(2, 20.0) + [ack]);
    var rest := Cycles(5, 0.0) + (Cycles(2, 20.0) + [ack]);
    RunOne(Step(IDLE, Watch(true)), Start(0.0), rest);
    RunOne(IDLE, Watch(true), [Start(0.0)] + rest);
    actions := [Watch(true)] + ([Start(0.0)] + rest);
    SumOfOne(s7.sent);
  }

  lemma SumOfOne(sent: map<nat, nat>)
    ensures Sum(sent, 0, 1) == if 1 in sent then sent[1] else 0
  {
  }

  lemma OneRun(s: State, a: Action)
    requires Enabled(s, a)
    ensures IsRun(s, [a]) && After(s, [a]) == Step(s, a)
  {
    assert [a][1..] == [];
  }

  /** The oldest waiting batch is no more than all that waits. */
  lemma FirstIsPart(s: State, sent: map<nat, nat>)
    requires Window(s) && s.ackedSeq < s.sentSeq
    requires s.ackedSeq + 1 in sent && sent[s.ackedSeq + 1] == s.sent[s.ackedSeq + 1]
    ensures Sum(sent, s.ackedSeq, s.ackedSeq + 1) <= Unacked(s)
  {
    SumSplits(s.sent, s.ackedSeq, s.ackedSeq + 1, s.sentSeq);
    SumIsLocal(s.sent, sent, s.ackedSeq, s.ackedSeq + 1);
  }

  /** What six more batches leave of a window that was over its limit. */
  ghost predicate Overrun(s: State, t: State, size: nat) {
    && Window(t) && t.running && t.phase.Reading? && !t.cancelled && t.ackedSeq == s.ackedSeq
    && t.sentSeq == s.sentSeq + 7
    && Unacked(t) == Unacked(s) + size + 6 * BIG && t.sentSeq in t.sent && t.sent[t.sentSeq] == BIG
    && s.ackedSeq + 1 in t.sent && s.ackedSeq + 1 in s.sent && t.sent[s.ackedSeq + 1] == s.sent[s.ackedSeq + 1]
  }

  lemma SixMoreOverrun(s: State, size: nat, now: real)
    requires Window(s) && s.running && s.phase.Reading? && MayGo(s, now) && !Guarded(s)
    ensures s.ackedSeq < s.sentSeq && BurstMayGo(Cycled(s, size, now), 6, now)
    ensures Window(Cycled(s, size, now)) && Overrun(s, Burst(Cycled(s, size, now), 6, now), size)
  {
    assert s.ackedSeq < s.sentSeq by { assert Unacked(s) > 0; }
    CycleAdds(s, size, now);
    var s1 := Cycled(s, size, now);
    hide Cycled, Burst, Unacked;
    BurstAdds(s1, 6, now);
  }

  /** Then a watching browser and one acknowledgement are enough. */
  lemma AckExposesOverrun(s: State, t: State, size: nat, now: real)
    requires Window(s) && s.ackedSeq < s.sentSeq && Unacked(s) > TERM_UNACKED_MAX_BYTES && Overrun(s, t, size)
    ensures !Kept(Step(Step(t, Watch(true)), Ack(s.ackedSeq + 1, now)))
  {
    var watched := Step(t, Watch(true));
    FirstIsPart(s, t.sent);
    AckTakesOff(watched, s.ackedSeq + 1, now);
    assert Unacked(watched) == Unacked(t);
    hide Unacked, Sum;
  }

  /** After any batch let past the limit in a run that is not cancelled, six more
      may follow it, and one acknowledgement brings the browser back with the
      window far over its limit. */
  lemma PastTheLimitBreaks(s: State, size: nat, now: real) returns (more: seq<Action>)
    requires Window(s) && s.running && s.phase.Reading? && MayGo(s, now) && !Guarded(s)
    ensures more != [] && more[0] == Admit(size, now) && IsRun(s, more) && !Kept(After(s, more))
  {
    SixMoreOverrun(s, size, now);
    var s1 := Cycled(s, size, now);
    var s7 := Burst(s1, 6, now);
    AckExposesOverrun(s, s7, size, now);
    var watched := Step(s7, Watch(true));
    var ack := Ack(s.ackedSeq + 1, now);
    hide Burst, After, IsRun, Cycles, Cycled, Unacked, Kept, Overrun, Window, MayGo, BurstMayGo, Step;
    OneRun(watched, ack);
    RunOne(s7, Watch(true), [ack]);
    var tail := [Watch(true)] + [ack];
    BurstRuns(s1, 6, now, tail);
    RunCycle(s, size, now, Cycles(6, now) + tail);
    more := Cycle(size, now) + (Cycles(6, now) + tail);
  }

  /** The exact guard: the promise holds in every state of a run whose batches were
      each let go within the limit or after a cancel; and wherever in any run one
      may go past that, whatever its size, some continuation breaks the promise. */
  lemma GuardIsExact(actions: seq<Action>)
    requires IsRun(IDLE, actions)
    ensures AllGuarded(IDLE, actions) ==> AlwaysKept(IDLE, actions)
    ensures var s := After(IDLE, actions);
            forall size: nat, now | Enabled(s, Admit(size, now)) ::
              !Guarded(s) ==> exists more :: BreaksFrom(s, Admit(size, now), more)
  {
    if AllGuarded(IDLE, actions) { GuardedRunIsKept(IDLE, actions); }
    WindowIsExact(IDLE, actions);
    var s := After(IDLE, actions);
    forall size: nat, now | Enabled(s, Admit(size, now)) && !Guarded(s)
      ensures exists more :: BreaksFrom(s, Admit(size, now), more)
    {
      var more := PastTheLimitBreaks(s, size, now);
      assert BreaksFrom(s, Admit(size, now), more);
    }
  }

  ghost predicate BreaksFrom(s: State, a: Action, more: seq<Action>) {
    more != [] && more[0] == a && IsRun(s, more) && !Kept(After(s, more))
  }

  // ---- acknowledgements that come too early -----------------------------------------

  /** The step takes batch `q`, still counted in `s`, out of the window of its run. */
  predicate Releases(s: State, a: Action, q: nat) {
    s.running && (a.Snapshot? || (a.Ack? && q <= a.number <= s.sentSeq))
  }

  /** The same run goes on, or has ended and no other begins. */
  predicate NoStart(actions: seq<Action>) { forall i :: 0 <= i < |actions| ==> !actions[i].Start? }

  ghost predicate NeverReleased(s: State, actions: seq<Action>, q: nat)
    requires IsRun(s, actions)
    decreases |actions|
  {
    actions != [] ==> !Releases(s, actions[0], q) && NeverReleased(Step(s, actions[0]), actions[1..], q)
  }

  lemma CountedStep(s: State, a: Action, q: nat)
    requires Window(s) && Enabled(s, a) && !a.Start?
    ensures q in s.sent ==> (q in Step(s, a).sent <==> !Releases(s, a, q))
    ensures q in s.sent && q in Step(s, a).sent ==> Step(s, a).sent[q] == s.sent[q]
    ensures q <= s.sentSeq ==> q <= Step(s, a).sentSeq
    ensures q <= s.ackedSeq ==> q <= Step(s, a).ackedSeq
  {
  }

  /** What a run has taken out of its window does not come back. */
  lemma {:induction false} ReleasedForGood(s: State, actions: seq<Action>, q: nat)
    requires Window(s) && IsRun(s, actions) && NoStart(actions) && q <= s.ackedSeq
    ensures q !in After(s, actions).sent
    decreases |actions|
  {
    if actions != [] {
      CountedStep(s, actions[0], q);
      StepKeepsWindow(s, actions[0]);
      ReleasedForGood(Step(s, actions[0]), actions[1..], q);
    }
  }

  /** A recorded batch stays in the window of its run exactly until an acknowledgement
      of it or of a later one, or a snapshot; till then its bytes are counted. */
  lemma {:induction false} CountedUntilReleased(s: State, actions: seq<Action>, q: nat)
    requires Window(s) && IsRun(s, actions) && NoStart(actions) && q in s.sent
    ensures q in After(s, actions).sent <==> NeverReleased(s, actions, q)
    ensures q in After(s, actions).sent ==>
              After(s, actions).sent[q] == s.sent[q] && s.sent[q] <= Unacked(After(s, actions))
    decreases |actions|
  {
    if actions == [] {
      PartOfUnacked(s, q);
    } else {
      var next := Step(s, actions[0]);
      CountedStep(s, actions[0], q);
      StepKeepsWindow(s, actions[0]);
      if q in next.sent {
        hide Step, Unacked;
        CountedUntilReleased(next, actions[1..], q);
      } else {
        ReleasedForGood(next, actions[1..], q);
      }
    }
  }

  lemma PartOfUnacked(s: State, q: nat)
    requires Window(s) && q in s.sent
    ensures s.sent[q] <= Unacked(s)
  {
    SumSplits(s.sent, s.ackedSeq, q, s.sentSeq);
  }

  /** An acknowledgement counts exactly when its batch is recorded and newer than the
      last one that counted. */
  lemma AckCountsExactly(s: State, number: int, now: real)
    requires Window(s) && s.running
    ensures Step(s, Ack(number, now)) != s <==> s.ackedSeq < number <= s.sentSeq
    ensures s.ackedSeq < number <= s.sentSeq ==> Step(s, Ack(number, now)).ackedSeq == number
  {
  }

  /** An acknowledgement that comes between the push of a batch and its record is
      lost: whatever follows in the run, the bytes of the batch are counted as
      unacknowledged until a further acknowledgement or a snapshot. */
  lemma EarlyAckIsLost(s: State, now: real, more: seq<Action>)
    requires Window(s) && s.running && s.phase.Pushed?
    requires IsRun(s, [Ack(s.sentSeq + 1, now)] + ([Record] + more)) && NoStart(more)
    ensures var recorded, end := Step(s, Record), After(s, [Ack(s.sentSeq + 1, now)] + ([Record] + more));
            var q := s.sentSeq + 1;
            && IsRun(recorded, more) && Unacked(recorded) == Unacked(s) + s.phase.size
            && (q in end.sent <==> NeverReleased(recorded, more, q))
            && (q in end.sent ==> end.sent[q] == s.phase.size && s.phase.size <= Unacked(end))
  {
    var early, rest := Ack(s.sentSeq + 1, now), [Record] + more;
    assert Step(s, early) == s;
    UnackedStep(s, Record);
    StepKeepsWindow(s, Record);
    assert ([early] + rest)[0] == early && ([early] + rest)[1..] == rest;
    assert rest[0] == Record && rest[1..] == more;
    var recorded := Step(s, Record);
    hide Unacked, Step, NeverReleased;
    CountedUntilReleased(recorded, more, s.sentSeq + 1);
  }

  // ---- the session's window fields and the methods on them ---------------------

  /** One look of the waiting loop: the clock, whether the session or its run has
      been replaced, and what another thread does before the next look. */
  datatype Turn = Turn(now: real, replaced: bool, meanwhile: Action)

  /** Let go, given up because the run is no longer current, or still waiting. */
  datatype Verdict = Go | Gone | Wait

  function Judge(s: State, now: real, replaced: bool): Verdict {
    if replaced then Gone else if MayGo(s, now) then Go else Wait
  }

  lemma JudgedExactly(s: State, now: real, replaced: bool)
    ensures Judge(s, now, replaced).Wait? <==> !replaced && Holding(s, now)
  {
  }

  /** What other threads can do to a run while its reader waits. */
  predicate Foreign(a: Action) { a.Ack? || a.Snapshot? || a.Cancel? || a.Watch? }

  /** The state at the loop's look number `n` if it has not ended before. */
  function AtLook(s: State, turns: seq<Turn>, n: nat): State
    requires n <= |turns| && forall i :: 0 <= i < |turns| ==> Foreign(turns[i].meanwhile)
    decreases n
  {
    if n == 0 then s else Step(AtLook(s, turns, n - 1), turns[n - 1].meanwhile)
  }

  lemma AtFirstLook(s: State, turns: seq<Turn>)
    requires forall i :: 0 <= i < |turns| ==> Foreign(turns[i].meanwhile)
    ensures AtLook(s, turns, 0) == s
  {
  }

  lemma AtNextLook(s: State, turns: seq<Turn>, n: nat)
    requires n < |turns| && forall i :: 0 <= i < |turns| ==> Foreign(turns[i].meanwhile)
    ensures AtLook(s, turns, n + 1) == Step(AtLook(s, turns, n), turns[n].meanwhile)
  {
  }

  class RunOutput {
    var running: bool
    var sentSeq: nat
    var ackedSeq: nat
    var sentBytes: map<nat, nat>
    var ackStalled: bool
    var cancelled: bool
    var watching: bool
    var ackProgressAt: real
    var phase: Phase

    function Value(): State reads this {
      State(running, sentSeq, ackedSeq, sentBytes, ackStalled, cancelled, watching, ackProgressAt, phase)
    }

    constructor ()
      ensures Value() == IDLE && Window(Value())
    {
      running, sentSeq, ackedSeq, sentBytes, ackStalled, cancelled := false, 0, 0, map[], false, false;
      watching, ackProgressAt, phase := false, 0.0, Reading;
    }

    /** The reset in `run_command`. */
    method StartRun(now: real)
      requires !running
      modifies this
      ensures Value() == Step(old(Value()), Start(now)) && Window(Value())
      ensures running && !cancelled && !ackStalled && sentSeq == 0 == ackedSeq && sentBytes == map[] &&
              ackProgressAt == now && watching == old(watching)
    {
      running, cancelled, phase := true, false, Reading;
      sentSeq, ackedSeq, sentBytes := 0, 0, map[];
      ackProgressAt, ackStalled := now, false;
    }

    /** `sum(sess.sent_bytes.values())`, batch by batch. */
    method CountUnacked() returns (total: nat)
      requires Window(Value())
      ensures total == Unacked(Value())
    {
      total := 0;
      for q := ackedSeq to sentSeq
        invariant total == Sum(sentBytes, ackedSeq, q)
      {
        total := total + sentBytes[q + 1];
      }
    }

    method TerminalAck(number: int, now: real)
      requires Window(Value())
      modifies this
      ensures Value() == Step(old(Value()), Ack(number, now)) && Window(Value())
      ensures if old(running) && old(ackedSeq) < number <= old(sentSeq) then
                && ackedSeq == number && ackProgressAt == now && !ackStalled && sentSeq == old(sentSeq)
                && (forall q :: q in sentBytes <==> number < q <= sentSeq)
                && (forall q :: q in sentBytes ==> q in old(sentBytes) && sentBytes[q] == old(sentBytes)[q])
              else Value() == old(Value())
    {
      StepKeepsWindow(Value(), Ack(number, now));
      if !running {
        return;
      }
      if number > sentSeq || number <= ackedSeq {
        return;
      }
      ackedSeq := number;
      ackProgressAt := now;
      ackStalled := false;
      sentBytes := map q | q in sentBytes && q > number :: sentBytes[q];
    }

    /** The acknowledgement a page snapshot makes of everything recorded. */
    method AcknowledgeSnapshot(now: real)
      requires Window(Value())
      modifies this
      ensures Value() == Step(old(Value()), Snapshot(now)) && Window(Value())
      ensures sentSeq == old(sentSeq) && (old(running) ==> ackedSeq == sentSeq && sentBytes == map[])
      ensures if old(running) && old(sentSeq) > old(ackedSeq) then ackProgressAt == now && !ackStalled
              else Value() == old(Value())
    {
      if running && sentSeq > ackedSeq {
        ackedSeq := sentSeq;
        ackProgressAt := now;
        ackStalled := false;
        sentBytes := map[];
        assert Value().sent == Acked(old(Value()), old(sentSeq), now).sent;
      }
    }

    /** One look of the waiting loop. */
    method Look(size: nat, now: real, replaced: bool) returns (verdict: Verdict)
      requires Window(Value()) && running && phase.Reading?
      modifies this
      ensures verdict == Judge(old(Value()), now, replaced) && Window(Value())
      ensures Value() == if verdict.Go? then Step(old(Value()), Admit(size, now)) else old(Value())
      ensures !replaced && !old(cancelled) && !old(ackStalled) && old(watching) ==>
                (verdict.Wait? <==> Sum(old(sentBytes), old(ackedSeq), old(sentSeq)) > TERM_UNACKED_MAX_BYTES
                                    && now - old(ackProgressAt) < TERM_ACK_STALL_SECONDS)
      ensures !replaced && (old(cancelled) || old(ackStalled) || !old(watching)) ==> verdict.Go?
      ensures replaced <==> verdict.Gone?
      ensures ackStalled && !old(ackStalled) ==> now - old(ackProgressAt) >= TERM_ACK_STALL_SECONDS
    {
      if replaced {
        return Gone;
      }
      if cancelled || !watching || ackStalled {
        phase := Admitted(size);
        return Go;
      }
      var unacked := CountUnacked();
      if unacked <= TERM_UNACKED_MAX_BYTES {
        phase := Admitted(size);
        return Go;
      }
      var remaining := TERM_ACK_STALL_SECONDS - (now - ackProgressAt);
      if remaining <= 0.0 {
        ackStalled, phase := true, Admitted(size);
        return Go;
      }
      return Wait;
    }

    method Meanwhile(a: Action)
      requires Window(Value()) && Foreign(a)
      modifies this
      ensures Value() == Step(old(Value()), a) && Window(Value()) && running == old(running) && phase == old(phase)
    {
      match a
      case Ack(number, now) => TerminalAck(number, now);
      case Snapshot(now) => AcknowledgeSnapshot(now);
      case Cancel => if running { cancelled := true; }
      case Watch(w) => watching := w;
      case _ =>
    }

    /** The waiting loop ends at the first look at which the batch may go or the run
        is no longer current, and then changes nothing but what that look changes. */
    method WaitForTerminalAck(size: nat, turns: seq<Turn>) returns (looks: nat, verdict: Verdict)
      requires Window(Value()) && running && phase.Reading?
      requires forall i :: 0 <= i < |turns| ==> Foreign(turns[i].meanwhile)
      modifies this
      ensures looks <= |turns| && (verdict.Wait? <==> looks == |turns|) && Window(Value())
      ensures forall i :: 0 <= i < looks ==>
              Judge(AtLook(old(Value()), turns, i), turns[i].now, turns[i].replaced).Wait?
      ensures forall i :: 0 <= i < looks ==>
              !turns[i].replaced && Holding(AtLook(old(Value()), turns, i), turns[i].now)
      ensures !verdict.Wait? ==>
              turns[looks].replaced || !Holding(AtLook(old(Value()), turns, looks), turns[looks].now)
      ensures AtLook(old(Value()), turns, looks).running && AtLook(old(Value()), turns, looks).phase.Reading?
      ensures !verdict.Wait? ==>
                verdict == Judge(AtLook(old(Value()), turns, looks), turns[looks].now, turns[looks].replaced)
      ensures Value() == if verdict.Go? then Step(AtLook(old(Value()), turns, looks), Admit(size, turns[looks].now))
                         else AtLook(old(Value()), turns, looks)
    {
      hide Step, Window, MayGo, Judge, Holding, Sum, Unacked, Bypass, Expired, AtLook;
      AtFirstLook(Value(), turns);
      looks, verdict := 0, Wait;
      while looks < |turns|
        invariant looks <= |turns| && verdict.Wait? && Value() == AtLook(old(Value()), turns, looks)
        invariant Window(Value()) && running && phase.Reading?
        invariant forall i :: 0 <= i < looks ==>
                    Judge(AtLook(old(Value()), turns, i), turns[i].now, turns[i].replaced).Wait?
        invariant forall i :: 0 <= i < looks ==>
                    !turns[i].replaced && Holding(AtLook(old(Value()), turns, i), turns[i].now)
      {
        JudgedExactly(Value(), turns[looks].now, turns[looks].replaced);
        AtNextLook(old(Value()), turns, looks);
        verdict := Look(size, turns[looks].now, turns[looks].replaced);
        if !verdict.Wait? {
          return;
        }
        Meanwhile(turns[looks].meanwhile);
        looks := looks + 1;
      }
    }

    /** After a successful push: the batch joins the window. */
    method RecordSent()
      requires Window(Value()) && running && phase.Pushed?
      modifies this
      ensures Value() == Step(old(Value()), Record) && Window(Value())
      ensures sentSeq == old(sentSeq) + 1 && ackedSeq == old(ackedSeq) && phase.Reading?
      ensures sentBytes == old(sentBytes)[sentSeq := old(phase).size]
    {
      StepKeepsWindow(Value(), Record);
      sentSeq := sentSeq + 1;
      sentBytes := sentBytes[sentSeq := phase.size];
      phase := Reading;
    }
  }
}
