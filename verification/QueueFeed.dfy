/** The delivery queue carries the pipeline: every step of the queue of
    delivery_queue.py that takes, hands out or refuses a message is, for the pipeline,
    a push, the start of a delivery or nothing. */
module QueueFeeds {
  import opened Common
  import P = Pipelines
  import D = DeliveryQueues

  type Queue = D.Queue<P.Frame>

  /** The pipeline's queue is the content of the delivery queue, and the frame in
      flight is the message its drain is delivering. */
  ghost predicate Linked(q: Queue, s: P.State) {
    && s.queue == D.Messages(q.entries) && s.closing == q.shutdown
    && (s.flight.NoFlight? || q.drain.Cancelled? || (q.drain.Delivering? && q.drain.msg == s.flight.frame))
  }

  /** A step of both: terminal output or another message asks to go in, the drain
      takes the next message or has handed one on, the queue is shut down or does
      something the pipeline does not see, or the pipeline moves without the queue. */
  datatype Joint =
    | AskBatch(run: P.RunId, size: nat, continues: bool)
    | AskOther(frame: P.Frame, size: nat)
    | TakeNext
    | HandedOn
    | Shutdown
    | Quiet(a: D.Action<P.Frame>)
    | OfPipeline(step: P.Action)

  /** The queue's own part of a step. */
  function OfQueue(s: P.State, j: Joint): Option<D.Action<P.Frame>> {
    match j
    case AskBatch(r, size, continues) =>
      if r !in s.runs then None
      else Some(D.TryTerminal(D.Entry(P.BatchFrame(s.runs[r], r, s.runs[r].fed), size, true), continues))
    case AskOther(frame, size) => Some(D.Push(D.Entry(frame, size, false)))
    case TakeNext => Some(D.Pop)
    case HandedOn => Some(D.Delivered)
    case Shutdown => Some(D.Shutdown)
    case Quiet(a) => Some(a)
    case OfPipeline(_) => None
  }

  /** The message was let in. */
  predicate LetIn(q: Queue, a: D.Action<P.Frame>)
    requires D.Enabled(q, a)
  {
    D.Step(q, a).admitted != q.admitted
  }

  predicate Unseen(a: D.Action<P.Frame>) { a.Start? || a.RunSet? || a.Wake? || a.RunCancel? || a.CloseLoop? }

  predicate Enabled(q: Queue, s: P.State, j: Joint) {
    && (OfQueue(s, j).Some? ==> D.Enabled(q, OfQueue(s, j).value))
    && match j
       case AskBatch(r, _, _) => r in s.runs && s.runs[r].fed == s.runs[r].pushed + 1
       case AskOther(frame, _) =>
         frame.body.Other? && (frame.generation.Some? ==> frame.generation.value <= s.counter)
       case HandedOn => s.flight.NoFlight?
       case Quiet(a) => Unseen(a)
       case OfPipeline(a) => P.Enabled(s, a) && !a.PushBatch? && !a.PushOther? && !a.PopFrame? && !a.Shutdown?
       case _ => true
  }

  /** What the pipeline sees of a step. */
  function Seen(q: Queue, s: P.State, j: Joint): Option<P.Action>
    requires Enabled(q, s, j)
  {
    match j
    case AskBatch(r, _, _) => if LetIn(q, OfQueue(s, j).value) then Some(P.PushBatch(r)) else None
    case AskOther(frame, _) => if LetIn(q, OfQueue(s, j).value) then Some(P.PushOther(frame)) else None
    case TakeNext => if q.entries != [] then Some(P.PopFrame) else None
    case Shutdown => Some(P.Shutdown)
    case OfPipeline(a) => Some(a)
    case _ => None
  }

  function NextQueue(q: Queue, s: P.State, j: Joint): Queue
    requires Enabled(q, s, j)
  {
    if OfQueue(s, j).Some? then D.Step(q, OfQueue(s, j).value) else q
  }

  /** A message is let in at the end of the queue and of what was admitted. */
  lemma LettingIn(q: Queue, a: D.Action<P.Frame>)
    requires D.Enabled(q, a) && (a.Push? || a.TryTerminal?)
    ensures var n := D.Step(q, a);
            if LetIn(q, a)
            then !q.shutdown && n.admitted == q.admitted + [a.entry.msg] &&
                 D.Messages(n.entries) == D.Messages(q.entries) + [a.entry.msg]
            else n == q
    ensures D.Step(q, a).drain == q.drain && D.Step(q, a).shutdown == q.shutdown
  {
    D.AppendedTotals(q.entries, a.entry);
    assert |q.admitted + [a.entry.msg]| != |q.admitted|;
  }

  /** Every step of the delivery queue is a step of the pipeline or none, so whatever
      holds in every run of the pipeline holds with the real queue under it. */
  lemma QueueStepsDriveThePipeline(q: Queue, s: P.State, j: Joint)
    requires Linked(q, s) && Enabled(q, s, j)
    ensures Seen(q, s, j).Some? ==> P.Enabled(s, Seen(q, s, j).value)
                                    && Linked(NextQueue(q, s, j), P.Step(s, Seen(q, s, j).value))
    ensures Seen(q, s, j).None? ==> Linked(NextQueue(q, s, j), s)
  {
    if j.AskBatch? || j.AskOther? {
      AskingDrivesThePipeline(q, s, j);
    } else if j.OfPipeline? {
      PipelineAlone(s, j.step);
      hide P.Step, P.Enabled, D.Messages;
    } else if j.TakeNext? {
      hide P.Current;
    } else {
      hide D.Messages;
    }
  }

  lemma AskingDrivesThePipeline(q: Queue, s: P.State, j: Joint)
    requires Linked(q, s) && Enabled(q, s, j) && (j.AskBatch? || j.AskOther?)
    ensures Seen(q, s, j).Some? ==> P.Enabled(s, Seen(q, s, j).value)
                                    && Linked(NextQueue(q, s, j), P.Step(s, Seen(q, s, j).value))
    ensures Seen(q, s, j).None? ==> Linked(NextQueue(q, s, j), s)
  {
    LettingIn(q, OfQueue(s, j).value);
    hide D.Step, LetIn, D.Messages;
  }

  lemma PipelineAlone(s: P.State, a: P.Action)
    requires P.Enabled(s, a) && !a.PushBatch? && !a.PushOther? && !a.PopFrame? && !a.Shutdown?
    ensures P.Step(s, a).queue == s.queue && P.Step(s, a).closing == s.closing
    ensures P.Step(s, a).flight.NoFlight? || (!s.flight.NoFlight? && P.Step(s, a).flight.frame == s.flight.frame)
  {
  }

  // ---- whole runs of both machines ----------------------------------------------------

  function NextPipeline(q: Queue, s: P.State, j: Joint): P.State
    requires Enabled(q, s, j)
  {
    if Seen(q, s, j).Some? && P.Enabled(s, Seen(q, s, j).value) then P.Step(s, Seen(q, s, j).value) else s
  }

  ghost predicate IsJointRun(q: Queue, s: P.State, steps: seq<Joint>)
    decreases |steps|
  {
    steps == [] ||
    (Enabled(q, s, steps[0]) && IsJointRun(NextQueue(q, s, steps[0]), NextPipeline(q, s, steps[0]), steps[1..]))
  }

  /** Where both machines stand after the run. */
  function JointAfter(q: Queue, s: P.State, steps: seq<Joint>): (Queue, P.State)
    requires IsJointRun(q, s, steps)
    decreases |steps|
  {
    if steps == [] then (q, s)
    else JointAfter(NextQueue(q, s, steps[0]), NextPipeline(q, s, steps[0]), steps[1..])
  }

  /** Every interleaving of producers, drain, slots and senders over the real queue is
      a run of the pipeline. */
  lemma {:induction false} JointRunsAreThePipelines(q: Queue, s: P.State, steps: seq<Joint>)
    returns (actions: seq<P.Action>)
    requires Linked(q, s) && IsJointRun(q, s, steps)
    ensures P.IsRun(s, actions) && P.After(s, actions) == JointAfter(q, s, steps).1
    ensures Linked(JointAfter(q, s, steps).0, JointAfter(q, s, steps).1)
    decreases |steps|
  {
    if steps == [] {
      actions := [];
    } else {
      var j := steps[0];
      QueueStepsDriveThePipeline(q, s, j);
      hide P.Step, P.Enabled, Linked, Enabled, Seen, NextQueue;
      actions := JointRunsAreThePipelines(NextQueue(q, s, j), NextPipeline(q, s, j), steps[1..]);
      if Seen(q, s, j).Some? {
        P.Prepended(s, Seen(q, s, j).value, actions);
        actions := [Seen(q, s, j).value] + actions;
      }
    }
  }

  // ---- what the queue does to the batches of a run -----------------------------------

  /** Each run's batches were let in one by one. */
  ghost predicate LetInOnce(q: Queue, s: P.State, r: P.RunId) {
    P.Numbers(r, q.admitted) == if r in s.runs then P.Range(0, s.runs[r].pushed) else []
  }

  lemma StepLetsInOnce(q: Queue, s: P.State, j: Joint, r: P.RunId)
    requires Linked(q, s) && Enabled(q, s, j) && LetInOnce(q, s, r)
    ensures LetInOnce(NextQueue(q, s, j), NextPipeline(q, s, j), r)
  {
    QueueStepsDriveThePipeline(q, s, j);
    if Seen(q, s, j).Some? { PushedStep(s, Seen(q, s, j).value, r); }
    if j.AskBatch? || j.AskOther? {
      var a := OfQueue(s, j).value;
      LettingIn(q, a);
      P.NumbersSnoc(r, q.admitted, a.entry.msg);
      hide D.Step, LetIn, P.Step, P.Enabled, P.Numbers, Linked;
    } else {
      OthersAdmitNothing(q, s, j);
      hide P.Step, P.Enabled, P.Numbers, NextQueue, Linked, Enabled, P.Range;
    }
  }

  lemma OthersAdmitNothing(q: Queue, s: P.State, j: Joint)
    requires Enabled(q, s, j) && !j.AskBatch? && !j.AskOther?
    ensures NextQueue(q, s, j).admitted == q.admitted
    ensures Seen(q, s, j).Some? ==> !Seen(q, s, j).value.PushBatch?
  {
  }

  lemma PushedStep(s: P.State, a: P.Action, r: P.RunId)
    requires P.Enabled(s, a)
    ensures r in s.runs ==> r in P.Step(s, a).runs
    ensures r in s.runs ==>
              P.Step(s, a).runs[r].pushed == if a == P.PushBatch(r) then s.runs[r].fed else s.runs[r].pushed
    ensures r !in s.runs && r in P.Step(s, a).runs ==> P.Step(s, a).runs[r].pushed == 0
  {
  }

  lemma {:induction false} RunLetsInOnce(q: Queue, s: P.State, steps: seq<Joint>, r: P.RunId)
    requires Linked(q, s) && IsJointRun(q, s, steps) && LetInOnce(q, s, r) && D.Inv(q) && D.Conserved(q)
    ensures var (q', s') := JointAfter(q, s, steps); LetInOnce(q', s', r) && D.Inv(q') && D.Conserved(q')
    decreases |steps|
  {
    if steps != [] {
      var j := steps[0];
      QueueStepsDriveThePipeline(q, s, j);
      StepLetsInOnce(q, s, j, r);
      if OfQueue(s, j).Some? { D.StepKeepsInv(q, OfQueue(s, j).value); }
      assert D.Inv(NextQueue(q, s, j)) && D.Conserved(NextQueue(q, s, j));
      assert Linked(NextQueue(q, s, j), NextPipeline(q, s, j));
      hide P.Step, P.Enabled, Linked, Enabled, Seen, NextQueue, NextPipeline, LetInOnce, D.Inv, D.Conserved;
      RunLetsInOnce(NextQueue(q, s, j), NextPipeline(q, s, j), steps[1..], r);
    }
  }

  /** Over every interleaving with the real queue, whatever it turned down and however
      full it was: a run's batches handed on, in delivery and waiting are together its
      pushed ones, and those handed on are the first of them, each once and in order. */
  lemma BatchesPassInOrder(steps: seq<Joint>, r: P.RunId) returns (m: nat)
    requires IsJointRun(D.Empty(), P.EMPTY, steps) && r in JointAfter(D.Empty(), P.EMPTY, steps).1.runs
    requires !JointAfter(D.Empty(), P.EMPTY, steps).0.drain.Cancelled?
    ensures var (q, s) := JointAfter(D.Empty(), P.EMPTY, steps); (
              && m <= s.runs[r].pushed && P.Numbers(r, q.delivered) == P.Range(0, m)
              && P.Numbers(r, D.InFlight(q) + D.Messages(q.entries)) == P.Range(m, s.runs[r].pushed))
  {
    RunLetsInOnce(D.Empty(), P.EMPTY, steps, r);
    var (q, s) := JointAfter(D.Empty(), P.EMPTY, steps);
    hide IsJointRun, JointAfter, D.Inv, P.Numbers, P.Range, D.InFlight, D.Messages;
    m := FrontOfRange(r, q.admitted, q.delivered, D.InFlight(q), D.Messages(q.entries), s.runs[r].pushed);
  }

  lemma FrontOfRange(r: P.RunId, all: seq<P.Frame>, front: seq<P.Frame>, mid: seq<P.Frame>, rest: seq<P.Frame>,
      high: nat) returns (m: nat)
    requires all == front + mid + rest && P.Numbers(r, all) == P.Range(0, high)
    ensures m <= high && P.Numbers(r, front) == P.Range(0, m) && P.Numbers(r, mid + rest) == P.Range(m, high)
  {
    assert all == front + (mid + rest);
    P.NumbersConcat(r, front, mid + rest);
    m := P.RangePrefix(0, high, P.Numbers(r, front), P.Numbers(r, mid + rest));
  }
}
