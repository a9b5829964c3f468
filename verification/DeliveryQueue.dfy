/** The thread-to-loop hand-off of delivery_queue.py as atomic steps of its
    producers, its event and its drain task, with a history of what was admitted
    and what was handed on. */
module DeliveryQueues {
  import opened Common
  import opened Config

  datatype Entry<T> = Entry(msg: T, size: nat, terminal: bool)

  /** Where the drain task stands: before `start`, at `event.wait()`, about to
      take the lock, inside `_deliver`, or cancelled. */
  datatype Drain<T> = NotStarted | Waiting | Popping | Delivering(msg: T) | Cancelled

  /** `scheduled` counts the `event.set` callbacks still queued on the loop. */
  datatype Queue<T> = Queue(entries: seq<Entry<T>>, bytes: nat, shutdown: bool, loopOpen: bool, event: bool,
                            scheduled: nat, drain: Drain<T>, admitted: seq<T>, delivered: seq<T>)

  function Empty<T>(): Queue<T> { Queue([], 0, false, false, false, 0, NotStarted, [], []) }

  const BYTE_LIMIT: real := DELIVERY_QUEUE_MAX_BYTES as real * (1.0 - DELIVERY_RESERVED_FRACTION)
  const ITEM_LIMIT: real := DELIVERY_QUEUE_MAX_ITEMS as real * (1.0 - DELIVERY_RESERVED_FRACTION)

  datatype Action<T> =
    | Start
    | Push(entry: Entry<T>)
    | TryTerminal(entry: Entry<T>, continues: bool)
    | RunSet
    | Wake
    | Pop
    | Delivered
    | Shutdown
    | RunCancel
    | CloseLoop

  function Append<T>(q: Queue<T>, entry: Entry<T>): Queue<T> {
    var wake := q.entries == [] && !q.drain.NotStarted? && q.loopOpen;
    q.(entries := q.entries + [entry], bytes := q.bytes + entry.size, admitted := q.admitted + [entry.msg],
       scheduled := if wake then q.scheduled + 1 else q.scheduled)
  }

  predicate Fits<T>(q: Queue<T>, size: nat) {
    (q.bytes + size) as real <= BYTE_LIMIT && (|q.entries| + 1) as real <= ITEM_LIMIT
  }

  predicate Enabled<T>(q: Queue<T>, a: Action<T>) {
    match a
    case Start => q.drain.NotStarted?
    case Push(entry) => !entry.terminal
    case TryTerminal(entry, _) => entry.terminal
    case RunSet => q.loopOpen && q.scheduled > 0
    case Wake => q.loopOpen && q.drain.Waiting? && q.event
    case Pop => q.loopOpen && q.drain.Popping?
    case Delivered => q.loopOpen && q.drain.Delivering?
    case Shutdown => true
    case RunCancel => q.loopOpen && q.shutdown && !q.drain.NotStarted?
    case CloseLoop => q.loopOpen
  }

  function Step<T>(q: Queue<T>, a: Action<T>): Queue<T>
    requires Enabled(q, a)
  {
    match a
    case Start => q.(drain := Waiting, event := false, loopOpen := true)
    case Push(entry) => if q.shutdown || q.drain.NotStarted? || !q.loopOpen then q else Append(q, entry)
    case TryTerminal(entry, continues) =>
      if q.shutdown || !continues || !Fits(q, entry.size) then q else Append(q, entry)
    case RunSet => q.(event := true, scheduled := q.scheduled - 1)
    case Wake => q.(drain := Popping)
    case Pop =>
      if q.entries == [] then q.(event := false, drain := Waiting)
      else
        q.(entries := q.entries[1..], drain := Delivering(q.entries[0].msg),
           bytes := if q.entries[0].size <= q.bytes then q.bytes - q.entries[0].size else 0)
    case Delivered => q.(delivered := q.delivered + [q.drain.msg], drain := Popping)
    case Shutdown => q.(shutdown := true)
    case RunCancel => q.(drain := Cancelled)
    case CloseLoop => q.(loopOpen := false)
  }

  // ---- invariants -------------------------------------------------------------

  function Sizes<T>(entries: seq<Entry<T>>): nat {
    if entries == [] then 0 else entries[0].size + Sizes(entries[1..])
  }

  function TerminalSizes<T>(entries: seq<Entry<T>>): nat {
    if entries == [] then 0 else (if entries[0].terminal then entries[0].size else 0) + TerminalSizes(entries[1..])
  }

  function TerminalCount<T>(entries: seq<Entry<T>>): nat {
    if entries == [] then 0 else (if entries[0].terminal then 1 else 0) + TerminalCount(entries[1..])
  }

  function Messages<T>(entries: seq<Entry<T>>): seq<T> {
    if entries == [] then [] else [entries[0].msg] + Messages(entries[1..])
  }

  function InFlight<T>(q: Queue<T>): seq<T> {
    if q.drain.Delivering? then [q.drain.msg] else []
  }

  /** A waiting entry is about to be noticed. */
  predicate Awake<T>(q: Queue<T>) {
    q.entries != [] && q.loopOpen && !q.drain.Cancelled? ==>
      q.drain.Popping? || q.drain.Delivering? || (q.drain.Waiting? && (q.event || q.scheduled > 0))
  }

  predicate Inv<T(==)>(q: Queue<T>) {
    && q.bytes == Sizes(q.entries)
    && TerminalSizes(q.entries) as real <= BYTE_LIMIT && TerminalCount(q.entries) as real <= ITEM_LIMIT
    && (q.drain.NotStarted? ==> !q.loopOpen && q.scheduled == 0 && !q.event)
  }

  /** Nothing is lost, repeated or reordered; a cancelled drain may drop only the
      one message it was delivering. */
  predicate Conserved<T(==)>(q: Queue<T>) {
    !q.drain.Cancelled? ==> q.admitted == q.delivered + InFlight(q) + Messages(q.entries)
  }

  lemma {:induction false} AppendedTotals<T>(entries: seq<Entry<T>>, entry: Entry<T>)
    ensures Sizes(entries + [entry]) == Sizes(entries) + entry.size
    ensures TerminalSizes(entries + [entry]) == TerminalSizes(entries) + if entry.terminal then entry.size else 0
    ensures TerminalCount(entries + [entry]) == TerminalCount(entries) + if entry.terminal then 1 else 0
    ensures Messages(entries + [entry]) == Messages(entries) + [entry.msg]
  {
    var more := entries + [entry];
    if entries == [] {
      assert more[1..] == [];
    } else {
      assert more[0] == entries[0] && more[1..] == entries[1..] + [entry];
      AppendedTotals(entries[1..], entry);
    }
  }

  lemma {:induction false} TerminalIsPart<T>(entries: seq<Entry<T>>)
    ensures TerminalSizes(entries) <= Sizes(entries) && TerminalCount(entries) <= |entries|
  {
    if entries != [] { TerminalIsPart(entries[1..]); }
  }

  lemma StepKeepsInv<T>(q: Queue<T>, a: Action<T>)
    requires Inv(q) && Conserved(q) && Enabled(q, a)
    ensures Inv(Step(q, a)) && Conserved(Step(q, a))
  {
    if a.Push? || a.TryTerminal? {
      AppendedTotals(q.entries, a.entry);
      TerminalIsPart(q.entries);
      assert q.delivered + InFlight(q) + Messages(q.entries) + [a.entry.msg]
          == q.delivered + InFlight(q) + (Messages(q.entries) + [a.entry.msg]);
    }
    if a.Pop? && q.entries != [] {
      assert q.delivered + [] + Messages(q.entries) == q.delivered + [q.entries[0].msg] + Messages(q.entries[1..]);
    }
  }

  lemma StepKeepsAwake<T>(q: Queue<T>, a: Action<T>)
    requires Inv(q) && Awake(q) && !q.drain.NotStarted? && Enabled(q, a)
    ensures Awake(Step(q, a)) && !Step(q, a).drain.NotStarted?
  {
  }

  // ---- whole runs -----------------------------------------------------------------

  ghost predicate IsRun<T>(q: Queue<T>, actions: seq<Action<T>>)
    decreases |actions|
  {
    actions == [] || (Enabled(q, actions[0]) && IsRun(Step(q, actions[0]), actions[1..]))
  }

  function Run<T>(q: Queue<T>, actions: seq<Action<T>>): Queue<T>
    requires IsRun(q, actions)
    decreases |actions|
  {
    if actions == [] then q else Run(Step(q, actions[0]), actions[1..])
  }

  lemma {:induction false} RunKeepsInv<T>(q: Queue<T>, actions: seq<Action<T>>)
    requires Inv(q) && Conserved(q) && IsRun(q, actions)
    ensures Inv(Run(q, actions)) && Conserved(Run(q, actions))
    decreases |actions|
  {
    if actions != [] {
      StepKeepsInv(q, actions[0]);
      RunKeepsInv(Step(q, actions[0]), actions[1..]);
    }
  }

  lemma {:induction false} RunKeepsAwake<T>(q: Queue<T>, actions: seq<Action<T>>)
    requires Inv(q) && Conserved(q) && Awake(q) && !q.drain.NotStarted? && IsRun(q, actions)
    ensures Awake(Run(q, actions))
    decreases |actions|
  {
    if actions != [] {
      StepKeepsInv(q, actions[0]);
      StepKeepsAwake(q, actions[0]);
      RunKeepsAwake(Step(q, actions[0]), actions[1..]);
    }
  }

  /** Over every interleaving: what was admitted is what was delivered, then the
      message in flight, then the queue, in order; the byte count is exact; and
      terminal output never takes up the tenth that is reserved for the rest. */
  lemma QueueConserves<T>(actions: seq<Action<T>>)
    requires IsRun(Empty<T>(), actions)
    ensures var q := Run(Empty<T>(), actions);
            && (!q.drain.Cancelled? ==> q.admitted == q.delivered + InFlight(q) + Messages(q.entries))
            && q.bytes == Sizes(q.entries)
            && TerminalSizes(q.entries) as real <= BYTE_LIMIT && TerminalCount(q.entries) as real <= ITEM_LIMIT
  {
    RunKeepsInv(Empty<T>(), actions);
  }

  /** A terminal message is admitted only into the unreserved part. */
  lemma TerminalLeavesReserve<T>(q: Queue<T>, a: Action<T>)
    requires Enabled(q, a) && a.TryTerminal? && Step(q, a) != q
    ensures Step(q, a).bytes as real <= BYTE_LIMIT && |Step(q, a).entries| as real <= ITEM_LIMIT
    ensures !q.shutdown && a.continues && Step(q, a).admitted == q.admitted + [a.entry.msg]
  {
  }

  /** Terminal output is let in exactly while the queue is open, its run goes on, and
      nine tenths of the configured bytes and items hold it too. */
  lemma TerminalIsAdmittedExactly<T>(q: Queue<T>, entry: Entry<T>, continues: bool)
    requires entry.terminal
    ensures var n := Step(q, TryTerminal(entry, continues));
            if !q.shutdown && continues && q.bytes + entry.size <= 3774873 && |q.entries| < 3686 then
              && n.entries == q.entries + [entry] && n.bytes == q.bytes + entry.size
              && n.admitted == q.admitted + [entry.msg] && n.drain == q.drain && n.delivered == q.delivered
            else n == q
  {
    Limits();
    assert ITEM_LIMIT == 3686.4;
  }

  /** Any other message is let in exactly between start and shutdown. */
  lemma OtherIsAdmittedExactly<T>(q: Queue<T>, entry: Entry<T>)
    requires Inv(q) && !entry.terminal
    ensures var n := Step(q, Push(entry));
            if !q.shutdown && q.loopOpen then
              && n.entries == q.entries + [entry] && n.bytes == q.bytes + entry.size
              && n.admitted == q.admitted + [entry.msg] && n.drain == q.drain && n.delivered == q.delivered
            else n == q
  {
  }

  function OtherSizes<T>(entries: seq<Entry<T>>): nat {
    if entries == [] then 0 else (if entries[0].terminal then 0 else entries[0].size) + OtherSizes(entries[1..])
  }

  lemma {:induction false} SizesSplit<T>(entries: seq<Entry<T>>)
    ensures Sizes(entries) == TerminalSizes(entries) + OtherSizes(entries)
  {
    if entries != [] { SizesSplit(entries[1..]); }
  }

  /** The bytes terminal output may take up. */
  const UNRESERVED_BYTES: nat := 3774873

  lemma Limits()
    ensures BYTE_LIMIT == 3774873.6 && UNRESERVED_BYTES == BYTE_LIMIT.Floor && ITEM_LIMIT >= 1.0
  {
  }

  /** The bound that holds for the queue as a whole: the unreserved bytes and
      whatever non-terminal messages wait. */
  lemma BytesAreBounded<T>(actions: seq<Action<T>>)
    requires IsRun(Empty<T>(), actions)
    ensures var q := Run(Empty<T>(), actions); q.bytes <= UNRESERVED_BYTES + OtherSizes(q.entries)
  {
    RunKeepsInv(Empty<T>(), actions);
    SizesSplit(Run(Empty<T>(), actions).entries);
  }

  /** `push` itself has no limit: for every size some run meets that bound with so
      many non-terminal bytes, far over what the queue is configured to hold. */
  lemma PushHasNoLimit<T>(extra: nat, first: T, second: T) returns (actions: seq<Action<T>>)
    ensures IsRun(Empty<T>(), actions)
    ensures var q := Run(Empty<T>(), actions); OtherSizes(q.entries) == extra && q.bytes == UNRESERVED_BYTES + extra
  {
    var a, b := Entry(first, UNRESERVED_BYTES, true), Entry(second, extra, false);
    var q0 := Empty<T>();
    var q1 := Step(q0, Start);
    Limits();
    assert Fits(q1, UNRESERVED_BYTES);
    var q2 := Step(q1, TryTerminal(a, true));
    var q3 := Step(q2, Push(b));
    assert q2.entries == [a] && q2.bytes == UNRESERVED_BYTES;
    assert q3.entries == [a, b] && q3.bytes == UNRESERVED_BYTES + extra;
    OthersOfTwo(a, b);
    actions := [Start, TryTerminal(a, true), Push(b)];
    hide Step;
    RunOne(q2, Push(b), []);
    RunOne(q1, TryTerminal(a, true), [Push(b)]);
    RunOne(q0, Start, [TryTerminal(a, true), Push(b)]);
    assert actions == [Start] + [TryTerminal(a, true), Push(b)];
    assert [TryTerminal(a, true), Push(b)] == [TryTerminal(a, true)] + [Push(b)];
    assert [Push(b)] == [Push(b)] + [];
  }

  lemma OthersOfTwo<T>(a: Entry<T>, b: Entry<T>)
    requires a.terminal && !b.terminal
    ensures OtherSizes([a, b]) == b.size
  {
    var none: seq<Entry<T>> := [];
    assert [a, b][1..] == [b] && [b][1..] == none;
    assert OtherSizes([b]) == b.size + OtherSizes(none);
  }

  lemma RunOne<T>(q: Queue<T>, a: Action<T>, rest: seq<Action<T>>)
    requires Enabled(q, a) && IsRun(Step(q, a), rest)
    ensures IsRun(q, [a] + rest) && Run(q, [a] + rest) == Run(Step(q, a), rest)
  {
    assert ([a] + rest)[0] == a && ([a] + rest)[1..] == rest;
  }

  ghost predicate NeverLosesWakeUp<T(!new)>(q: Queue<T>)
    requires Enabled(q, Start)
  {
    forall actions {:trigger IsRun(Step(q, Start), actions)} ::
      IsRun(Step(q, Start), actions) ==> Awake(Run(Step(q, Start), actions))
  }

  /** After `start` no wake-up is ever lost, in any interleaving, exactly when
      the queue was empty at `start`. */
  lemma NoLostWakeUp<T(!new)>(q: Queue<T>)
    requires Inv(q) && Conserved(q) && Enabled(q, Start)
    ensures NeverLosesWakeUp(q) <==> q.entries == []
  {
    var started := Step(q, Start);
    if q.entries == [] {
      StepKeepsInv(q, Start);
      forall actions | IsRun(started, actions) ensures Awake(Run(started, actions)) {
        RunKeepsAwake(started, actions);
      }
    } else {
      var none: seq<Action<T>> := [];
      assert IsRun(started, none) && !Awake(Run(started, none));
    }
  }

  // ---- everything admitted can be delivered -----------------------------------------

  /** The steps that hand on one entry after the other. */
  function Deliveries<T>(n: nat): seq<Action<T>> { if n == 0 then [] else [Pop] + ([Delivered] + Deliveries(n - 1)) }

  lemma {:induction false} DeliveriesDeliver<T>(q: Queue<T>)
    requires Inv(q) && q.loopOpen && q.drain.Popping?
    ensures IsRun(q, Deliveries(|q.entries|))
    ensures var n := Run(q, Deliveries(|q.entries|));
            n.entries == [] && n.delivered == q.delivered + Messages(q.entries) && n.bytes == 0
    decreases |q.entries|
  {
    if q.entries != [] {
      var n1 := Step(q, Pop);
      var n2 := Step(n1, Delivered);
      assert n2.delivered == q.delivered + [q.entries[0].msg] && n2.entries == q.entries[1..];
      assert Inv(n2);
      hide Step, Inv, Enabled;
      DeliveriesDeliver(n2);
      DeliverOne(q, n1, n2, Deliveries(|n2.entries|));
      assert q.delivered + [q.entries[0].msg] + Messages(q.entries[1..]) == q.delivered + Messages(q.entries);
    }
  }

  lemma DeliverOne<T>(q: Queue<T>, n1: Queue<T>, n2: Queue<T>, rest: seq<Action<T>>)
    requires Enabled(q, Pop) && n1 == Step(q, Pop) && Enabled(n1, Delivered) && n2 == Step(n1, Delivered)
    requires IsRun(n2, rest)
    ensures IsRun(q, [Pop] + ([Delivered] + rest)) && Run(q, [Pop] + ([Delivered] + rest)) == Run(n2, rest)
  {
    hide Step, Enabled;
    RunOne(n1, Delivered, rest);
    RunOne(q, Pop, [Delivered] + rest);
  }

  /** What the loop runs first: the wake-up that is scheduled, the end of the delivery
      under way. */
  function FirstSteps<T>(q: Queue<T>): seq<Action<T>> {
    if q.drain.Delivering? then [Delivered]
    else if q.drain.Popping? then []
    else if q.event then [Wake] else [RunSet] + [Wake]
  }

  lemma FirstStepsPop<T>(q: Queue<T>)
    requires Inv(q) && Awake(q) && q.entries != [] && q.loopOpen && !q.drain.Cancelled? && !q.drain.NotStarted?
    ensures IsRun(q, FirstSteps(q))
    ensures var n := Run(q, FirstSteps(q));
            && Inv(n) && n.drain.Popping? && n.loopOpen && n.entries == q.entries
            && n.delivered == q.delivered + InFlight(q)
  {
    var none: seq<Action<T>> := [];
    if q.drain.Delivering? {
      assert [Delivered] == [Delivered] + none;
      RunOne(q, Delivered, none);
    } else if q.drain.Waiting? && q.event {
      assert [Wake] == [Wake] + none;
      RunOne(q, Wake, none);
    } else if q.drain.Waiting? {
      var n := Step(q, RunSet);
      assert [Wake] == [Wake] + none;
      RunOne(n, Wake, none);
      RunOne(q, RunSet, [Wake]);
    }
  }

  lemma {:induction false} RunJoins<T>(q: Queue<T>, a: seq<Action<T>>, b: seq<Action<T>>)
    requires IsRun(q, a) && IsRun(Run(q, a), b)
    ensures IsRun(q, a + b) && Run(q, a + b) == Run(Run(q, a), b)
    decreases |a|
  {
    hide Step, Enabled;
    if a == [] {
      assert a + b == b;
    } else {
      assert (a + b)[0] == a[0] && (a + b)[1..] == a[1..] + b;
      RunJoins(Step(q, a[0]), a[1..], b);
    }
  }

  /** An awake queue whose loop is open delivers everything: the steps of the loop alone
      lead to the state in which all that was admitted has been handed on, in order. */
  lemma AwakeQueueDelivers<T>(q: Queue<T>) returns (actions: seq<Action<T>>)
    requires Inv(q) && Conserved(q) && Awake(q) && q.entries != []
    requires q.loopOpen && !q.drain.Cancelled? && !q.drain.NotStarted?
    ensures forall i :: 0 <= i < |actions| ==>
              actions[i].RunSet? || actions[i].Wake? || actions[i].Pop? || actions[i].Delivered?
    ensures IsRun(q, actions) && Run(q, actions).entries == [] && Run(q, actions).delivered == q.admitted
  {
    FirstStepsPop(q);
    var n := Run(q, FirstSteps(q));
    DeliveriesDeliver(n);
    RunJoins(q, FirstSteps(q), Deliveries(|n.entries|));
    actions := FirstSteps(q) + Deliveries(|n.entries|);
    LoopSteps<T>(|n.entries|);
  }

  lemma {:induction false} LoopSteps<T>(n: nat)
    ensures forall i :: 0 <= i < |Deliveries<T>(n)| ==> Deliveries<T>(n)[i].Pop? || Deliveries<T>(n)[i].Delivered?
  {
    if n > 0 { LoopSteps<T>(n - 1); }
  }

  /** Once the loop is closed nothing more is delivered, and only terminal output is
      still let in. */
  lemma {:induction false} ClosedLoopDeliversNothing<T>(q: Queue<T>, actions: seq<Action<T>>)
    requires Inv(q) && Enabled(q, CloseLoop) && IsRun(Step(q, CloseLoop), actions)
    ensures Run(Step(q, CloseLoop), actions).delivered == q.delivered
  {
    ClosedStaysClosed(Step(q, CloseLoop), actions);
  }

  lemma {:induction false} ClosedStaysClosed<T>(q: Queue<T>, actions: seq<Action<T>>)
    requires !q.loopOpen && !q.drain.NotStarted? && IsRun(q, actions)
    ensures Run(q, actions).delivered == q.delivered
    decreases |actions|
  {
    if actions != [] { ClosedStaysClosed(Step(q, actions[0]), actions[1..]); }
  }

  /** A queue whose drain waits for a wake-up that nobody will send. */
  predicate Stranded<T>(q: Queue<T>) { q.entries != [] && q.drain.Waiting? && !q.event && q.scheduled == 0 }

  /** What goes wrong otherwise: terminal output admitted before `start` leaves the
      queue stranded, and then nothing is ever delivered, whatever follows. */
  lemma EarlyTerminalOutputStrands<T>(entry: Entry<T>, more: seq<Action<T>>)
    requires entry.terminal && Fits(Empty<T>(), entry.size)
    ensures var early := [TryTerminal(entry, true), Start];
            IsRun(Empty<T>(), early) && Stranded(Run(Empty<T>(), early))
            && (IsRun(Run(Empty<T>(), early), more) ==>
                  Run(Run(Empty<T>(), early), more).delivered == [] && Run(Run(Empty<T>(), early), more).entries != [])
  {
    var q0 := Empty<T>();
    var q1 := Step(q0, TryTerminal(entry, true));
    var q2 := Step(q1, Start);
    assert Stranded(q2) && q2.delivered == [];
    hide Step, Stranded;
    RunOne(q1, Start, []);
    RunOne(q0, TryTerminal(entry, true), [Start]);
    assert [TryTerminal(entry, true), Start] == [TryTerminal(entry, true)] + [Start];
    var none: seq<Action<T>> := [];
    assert [Start] == [Start] + none;
    if IsRun(q2, more) { StrandedForGood(q2, more); }
  }

  /** Only a push into an empty queue wakes the drain. */
  lemma {:induction false} StrandedForGood<T>(q: Queue<T>, actions: seq<Action<T>>)
    requires Stranded(q) && IsRun(q, actions)
    ensures Run(q, actions).delivered == q.delivered && Run(q, actions).entries != []
    decreases |actions|
  {
    if actions != [] {
      var next := Step(q, actions[0]);
      if actions[0].RunCancel? {
        CancelledDeliversNothing(next, actions[1..]);
      } else {
        StrandedForGood(next, actions[1..]);
      }
    }
  }

  lemma {:induction false} CancelledDeliversNothing<T>(q: Queue<T>, actions: seq<Action<T>>)
    requires q.entries != [] && q.drain.Cancelled? && IsRun(q, actions)
    ensures Run(q, actions).delivered == q.delivered && Run(q, actions).entries != []
    decreases |actions|
  {
    if actions != [] { CancelledDeliversNothing(Step(q, actions[0]), actions[1..]); }
  }

  /** A shutdown ends admission for good, and with the drain cancelled delivery too. */
  lemma {:induction false} ShutdownEndsAdmission<T>(q: Queue<T>, actions: seq<Action<T>>)
    requires q.shutdown && IsRun(q, actions)
    ensures Run(q, actions).shutdown && Run(q, actions).admitted == q.admitted
    ensures q.drain.Cancelled? ==> Run(q, actions).delivered == q.delivered && Run(q, actions).drain.Cancelled?
    decreases |actions|
  {
    if actions != [] { ShutdownEndsAdmission(Step(q, actions[0]), actions[1..]); }
  }

  // ---- the queue object ----------------------------------------------------------------

  datatype Verdict = Admitted | Refused | MustWait

  class DeliveryQueue<T> {
    var queue: seq<Entry<T>>
    var bytes: nat
    var closing: bool
    var loopOpen: bool
    var event: bool
    ghost var scheduled: nat
    ghost var drain: Drain<T>
    ghost var admitted: seq<T>
    ghost var delivered: seq<T>

    ghost function State(): Queue<T>
      reads this
    {
      Queue(queue, bytes, closing, loopOpen, event, scheduled, drain, admitted, delivered)
    }

    constructor ()
      ensures State() == Empty<T>()
    {
      queue, bytes, closing, loopOpen, event := [], 0, false, false, false;
      scheduled, drain, admitted, delivered := 0, NotStarted, [], [];
    }

    method StartDrain()
      requires Enabled(State(), Start)
      modifies this
      ensures State() == Step(old(State()), Start)
      ensures loopOpen && !event && drain.Waiting? && queue == old(queue)
    {
      loopOpen, event, drain := true, false, Waiting;
    }

    /** `wake`: the callback itself runs later, on the loop. */
    method ScheduleWake()
      modifies this`scheduled
      ensures scheduled == old(scheduled) + if loopOpen then 1 else 0
    {
      if loopOpen {
        scheduled := scheduled + 1;
      }
    }

    method PushMessage(entry: Entry<T>)
      requires Inv(State()) && !entry.terminal
      modifies this
      ensures State() == Step(old(State()), Push(entry))
      ensures queue == if old(closing) || !old(loopOpen) then old(queue) else old(queue) + [entry]
    {
      if closing || !loopOpen {
        return;
      }
      var wasEmpty := queue == [];
      queue := queue + [entry];
      bytes := bytes + entry.size;
      admitted := admitted + [entry.msg];
      if wasEmpty {
        ScheduleWake();
      }
    }

    /** One pass of the loop in `push_terminal`, under the lock. */
    method TryPushTerminal(entry: Entry<T>, continues: bool) returns (verdict: Verdict)
      requires Inv(State()) && entry.terminal
      modifies this
      ensures State() == Step(old(State()), TryTerminal(entry, continues))
      ensures verdict == if old(closing) || !continues then Refused
              else if Fits(old(State()), entry.size) then Admitted else MustWait
      ensures queue == if verdict.Admitted? then old(queue) + [entry] else old(queue)
    {
      if closing || !continues {
        return Refused;
      }
      if (bytes + entry.size) as real <= BYTE_LIMIT && (|queue| + 1) as real <= ITEM_LIMIT {
        var wasEmpty := queue == [];
        queue := queue + [entry];
        bytes := bytes + entry.size;
        admitted := admitted + [entry.msg];
        if wasEmpty {
          ScheduleWake();
        }
        return Admitted;
      }
      verdict := MustWait;
    }

    /** The locked part of one turn of `_drain`. */
    method PopNext() returns (msg: Option<T>)
      requires Inv(State()) && Enabled(State(), Pop)
      modifies this
      ensures State() == Step(old(State()), Pop)
      ensures msg == if old(queue) == [] then None else Some(old(queue)[0].msg)
      ensures old(queue) != [] ==> queue == old(queue)[1..] && bytes == old(bytes) - old(queue)[0].size
      ensures old(queue) == [] ==> queue == [] && !event && drain.Waiting?
    {
      if queue == [] {
        event, drain := false, Waiting;
        return None;
      }
      var entry := queue[0];
      queue := queue[1..];
      bytes := bytes - entry.size;
      drain := Delivering(entry.msg);
      msg := Some(entry.msg);
    }

    /** `shutdown`: no producer is admitted any more, and a running drain is going to
        be cancelled. */
    method BeginShutdown()
      modifies this
      ensures State() == Step(old(State()), Shutdown)
      ensures forall actions {:trigger IsRun(State(), actions)} | IsRun(State(), actions) ::
                Run(State(), actions).admitted == old(admitted)
      ensures loopOpen && !drain.NotStarted? ==> Enabled(State(), RunCancel)
    {
      closing := true;
      forall actions | IsRun(State(), actions) ensures Run(State(), actions).admitted == old(admitted) {
        ShutdownEndsAdmission(State(), actions);
      }
    }
  }
}
