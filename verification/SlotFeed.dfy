/** The slot protocol drives the delivery pipeline: every step of the slot
    machine is, for the pipeline, an install, a vacated slot or nothing, so every
    interleaving of the two is a run of the pipeline, and its theorems hold of the
    slots of ssh_manager.py. */
module SlotFeeds {
  import opened Common
  import S = SessionSlots
  import P = Pipelines

  /** What the pipeline sees of the slots: generation and owner per device. */
  function View(m: S.Manager): map<S.Device, P.Slot> {
    map d | d in m.slots && m.slots[d] in m.sessions :: P.Slot(m.slots[d], m.sessions[m.slots[d]].owner)
  }

  ghost predicate Agree(m: S.Manager, s: P.State) { s.counter == m.counter && s.slots == View(m) }

  /** The device whose slot a step may touch. */
  function Touched(m: S.Manager, a: S.Action): Option<S.Device> {
    match a
    case Reserve(device, _) => Some(device)
    case Discard(g) => if g in m.sessions then Some(m.sessions[g].device) else None
    case Close(device, _) => Some(device)
    case Disconnect(device, _) => Some(device)
    case _ => None
  }

  /** The pipeline's name for a slot step. */
  function Named(m: S.Manager, a: S.Action): Option<P.Action>
    requires S.Enabled(m, a)
  {
    var d := Touched(m, a);
    if d.None? then None
    else if a.Reserve? then if S.InUse(m, a.device, a.owner) then None else Some(P.Install(a.device, a.owner))
    else if d.value in m.slots && d.value !in S.Step(m, a).slots then Some(P.Vacate(d.value))
    else None
  }

  /** Under the invariant each slot shows its generation and that session's owner. */
  lemma ViewAt(m: S.Manager, d: S.Device)
    requires S.Inv(m)
    ensures d in View(m) <==> d in m.slots
    ensures d in m.slots ==> m.slots[d] in m.sessions && View(m)[d] == P.Slot(m.slots[d], m.sessions[m.slots[d]].owner)
  {
    hide S.HolderInv, S.CounterInv, S.PromptInv;
  }

  /** A slot whose generation stays shows the same; only the touched one empties. */
  lemma EntryStays(m: S.Manager, a: S.Action, d: S.Device)
    requires S.Inv(m) && S.Enabled(m, a) && S.Inv(S.Step(m, a)) && d in m.slots
    ensures var n := S.Step(m, a); d in n.slots && n.slots[d] == m.slots[d] ==>
            d in View(n) && d in View(m) && View(n)[d] == View(m)[d]
  {
    hide S.Step, S.Inv;
    ViewAt(m, d);
    ViewAt(S.Step(m, a), d);
    S.SessionKeepsIdentity(m, a, m.slots[d]);
  }

  lemma OnlyTouchedEmpties(m: S.Manager, a: S.Action, d: S.Device)
    requires S.Inv(m) && S.Enabled(m, a) && d in m.slots && d !in S.Step(m, a).slots
    ensures Touched(m, a) == Some(d) && !a.Reserve?
  {
    hide S.Inv;
  }

  lemma ReserveAt(m: S.Manager, a: S.Action, d: S.Device)
    requires S.Inv(m) && a.Reserve? && S.Inv(S.Step(m, a))
    ensures var n := S.Step(m, a); if S.InUse(m, a.device, a.owner) then n == m else
      && n.counter == m.counter + 1 && (d in n.slots <==> d in m.slots || d == a.device)
      && (d == a.device ==> View(n)[d] == P.Slot(n.counter, a.owner) && d in View(n))
      && (d != a.device && d in n.slots ==> n.slots[d] == m.slots[d])
  {
    ViewAt(S.Step(m, a), d);
    hide S.HolderInv, S.CounterInv, S.PromptInv, S.SlotInv, View;
  }

  /** One entry of the view after a reservation. */
  lemma ReserveShows(m: S.Manager, a: S.Action, d: S.Device)
    requires S.Inv(m) && a.Reserve? && !S.InUse(m, a.device, a.owner) && S.Inv(S.Step(m, a))
    ensures var n := S.Step(m, a);
            && n.counter == m.counter + 1 && (d in View(n) <==> d in View(m) || d == a.device)
            && (d in View(n) ==> View(n)[d] == if d == a.device then P.Slot(n.counter, a.owner) else View(m)[d])
  {
    hide *;
    AlwaysEnabled(m, a);
    ReserveAt(m, a, d);
    ViewAt(m, d);
    ViewAt(S.Step(m, a), d);
    if d in m.slots && d != a.device { EntryStays(m, a, d); }
  }

  lemma AlwaysEnabled(m: S.Manager, a: S.Action)
    requires a.Reserve?
    ensures S.Enabled(m, a)
  {
  }

  lemma IsUpdate(now: map<S.Device, P.Slot>, was: map<S.Device, P.Slot>, k: S.Device, v: P.Slot)
    requires forall d :: d in now <==> d in was || d == k
    requires forall d :: d in now ==> now[d] == if d == k then v else was[d]
    ensures now == was[k := v]
  {
  }

  lemma ReserveInstalls(m: S.Manager, a: S.Action)
    requires S.Inv(m) && a.Reserve? && !S.InUse(m, a.device, a.owner)
    ensures S.Step(m, a).counter == m.counter + 1
    ensures View(S.Step(m, a)) == View(m)[a.device := P.Slot(m.counter + 1, a.owner)]
  {
    S.StepKeepsInv(m, a);
    hide *;
    var now, slot := View(S.Step(m, a)), P.Slot(m.counter + 1, a.owner);
    ReserveShows(m, a, a.device);
    forall d ensures d in now <==> d in View(m) || d == a.device { ReserveShows(m, a, d); }
    forall d ensures d in now ==> now[d] == if d == a.device then slot else View(m)[d] { ReserveShows(m, a, d); }
    IsUpdate(now, View(m), a.device, slot);
  }

  /** Any other step leaves the view as it was, but for the slot it empties. */
  lemma OtherStepsVacate(m: S.Manager, a: S.Action)
    requires S.Inv(m) && S.Enabled(m, a) && (a.Reserve? ==> S.InUse(m, a.device, a.owner))
    ensures S.Step(m, a).counter == m.counter
    ensures Named(m, a).Some? ==> Named(m, a).value.Vacate? && Named(m, a).value.device in View(m)
                                  && View(S.Step(m, a)) == View(m) - {Named(m, a).value.device}
    ensures Named(m, a).None? ==> View(S.Step(m, a)) == View(m)
  {
    hide S.Inv, S.Step, S.InUse, View, Touched, Named;
    S.StepKeepsInv(m, a);
    CounterStays(m, a);
    NamedVacates(m, a);
    var n := S.Step(m, a);
    forall d ensures d in View(n) ==> d in View(m) && View(n)[d] == View(m)[d] { NothingNew(m, a, d); }
    forall d ensures d in View(m) && d !in View(n) ==> Named(m, a) == Some(P.Vacate(d)) { Emptied(m, a, d); }
  }

  lemma NamedVacates(m: S.Manager, a: S.Action)
    requires S.Inv(m) && S.Enabled(m, a) && (a.Reserve? ==> S.InUse(m, a.device, a.owner)) && S.Inv(S.Step(m, a))
    ensures Named(m, a).Some? ==> Named(m, a).value.Vacate? && var d := Named(m, a).value.device;
            d in View(m) && d !in View(S.Step(m, a))
  {
    hide S.Inv, S.Step, S.InUse, View;
    if Named(m, a).Some? { ViewAt(m, Named(m, a).value.device); ViewAt(S.Step(m, a), Named(m, a).value.device); }
  }

  lemma CounterStays(m: S.Manager, a: S.Action)
    requires S.Inv(m) && S.Enabled(m, a) && (a.Reserve? ==> S.InUse(m, a.device, a.owner))
    ensures S.Step(m, a).counter == m.counter
  {
    hide S.Inv, S.InUse;
  }

  lemma NothingNew(m: S.Manager, a: S.Action, d: S.Device)
    requires S.Inv(m) && S.Enabled(m, a) && (a.Reserve? ==> S.InUse(m, a.device, a.owner)) && S.Inv(S.Step(m, a))
    ensures d in View(S.Step(m, a)) ==> d in View(m) && View(S.Step(m, a))[d] == View(m)[d]
  {
    CounterStays(m, a);
    S.SlotMoves(m, a, d);
    ViewAt(m, d);
    ViewAt(S.Step(m, a), d);
    if d in m.slots { EntryStays(m, a, d); }
    hide S.Inv, S.Step, S.InUse, View;
  }

  lemma Emptied(m: S.Manager, a: S.Action, d: S.Device)
    requires S.Inv(m) && S.Enabled(m, a) && S.Inv(S.Step(m, a))
    ensures d in View(m) && d !in View(S.Step(m, a)) ==> Named(m, a) == Some(P.Vacate(d))
  {
    ViewAt(m, d);
    ViewAt(S.Step(m, a), d);
    if d in m.slots && d !in S.Step(m, a).slots { OnlyTouchedEmpties(m, a, d); }
    hide S.Inv, S.Step, S.InUse, View, Touched;
  }

  /** Every step of the slot protocol is one of the pipeline's slot steps or no
      step at all, so what holds in every run of the pipeline holds under it. */
  lemma SlotStepsDriveThePipeline(m: S.Manager, a: S.Action, s: P.State)
    requires S.Inv(m) && S.Enabled(m, a) && Agree(m, s)
    ensures Named(m, a).Some? ==> (
              && (Named(m, a).value.Install? || Named(m, a).value.Vacate?) && P.Enabled(s, Named(m, a).value)
              && Agree(S.Step(m, a), P.Step(s, Named(m, a).value)))
    ensures Named(m, a).None? ==> Agree(S.Step(m, a), s)
  {
    hide S.Inv, S.Step, S.InUse, View;
    if a.Reserve? && !S.InUse(m, a.device, a.owner) {
      ReserveInstalls(m, a);
    } else {
      OtherStepsVacate(m, a);
    }
  }

  // ---- whole runs of both machines ----------------------------------------------------

  /** One step of either machine; the pipeline leaves the slots to the slot protocol. */
  datatype Joint = OfSlots(a: S.Action) | OfPipeline(step: P.Action)

  /** The pipeline with the slots as a slot step leaves them. */
  function Fed(m: S.Manager, a: S.Action, s: P.State): P.State
    requires S.Enabled(m, a)
  {
    s.(counter := S.Step(m, a).counter, slots := View(S.Step(m, a)))
  }

  ghost predicate IsJointRun(m: S.Manager, s: P.State, steps: seq<Joint>)
    decreases |steps|
  {
    steps == [] || (
      match steps[0]
      case OfSlots(a) => S.Enabled(m, a) && IsJointRun(S.Step(m, a), Fed(m, a, s), steps[1..])
      case OfPipeline(a) => !a.Install? && !a.Vacate? && P.Enabled(s, a) && IsJointRun(m, P.Step(s, a), steps[1..]))
  }

  /** Where both machines stand after the run. */
  function JointAfter(m: S.Manager, s: P.State, steps: seq<Joint>): (S.Manager, P.State)
    requires IsJointRun(m, s, steps)
    decreases |steps|
  {
    if steps == [] then (m, s)
    else match steps[0]
      case OfSlots(a) => JointAfter(S.Step(m, a), Fed(m, a, s), steps[1..])
      case OfPipeline(a) => JointAfter(m, P.Step(s, a), steps[1..])
  }

  lemma FedIsTheNamedStep(m: S.Manager, a: S.Action, s: P.State)
    requires S.Inv(m) && S.Enabled(m, a) && Agree(m, s)
    ensures Named(m, a).Some? ==> P.Enabled(s, Named(m, a).value) && P.Step(s, Named(m, a).value) == Fed(m, a, s)
    ensures Named(m, a).None? ==> Fed(m, a, s) == s
    ensures Agree(S.Step(m, a), Fed(m, a, s))
  {
    SlotStepsDriveThePipeline(m, a, s);
    hide S.Inv, S.Step, S.Enabled, View, Named;
  }

  lemma OtherStepsKeepSlots(s: P.State, a: P.Action)
    requires P.Enabled(s, a) && !a.Install? && !a.Vacate?
    ensures P.Step(s, a).slots == s.slots && P.Step(s, a).counter == s.counter
  {
  }

  /** Every interleaving of connects, closes, pushes, drains and sends is a run of
      the pipeline, so its theorems hold of the two machines together. */
  lemma {:induction false} JointRunsAreThePipelines(m: S.Manager, s: P.State,
      steps: seq<Joint>) returns (actions: seq<P.Action>)
    requires S.Inv(m) && Agree(m, s) && IsJointRun(m, s, steps)
    ensures P.IsRun(s, actions) && P.After(s, actions) == JointAfter(m, s, steps).1
    ensures S.Inv(JointAfter(m, s, steps).0) && Agree(JointAfter(m, s, steps).0, JointAfter(m, s, steps).1)
    decreases |steps|
  {
    if steps == [] {
      actions := [];
    } else {
      match steps[0]
      case OfSlots(a) =>
        FedIsTheNamedStep(m, a, s);
        S.StepKeepsInv(m, a);
        hide S.Inv, S.Step, P.Step, P.Enabled, Agree, Fed, Named;
        var rest := JointRunsAreThePipelines(S.Step(m, a), Fed(m, a, s), steps[1..]);
        actions := if Named(m, a).Some? then [Named(m, a).value] + rest else rest;
        if Named(m, a).Some? { P.Prepended(s, Named(m, a).value, rest); }
      case OfPipeline(a) =>
        OtherStepsKeepSlots(s, a);
        assert Agree(m, P.Step(s, a));
        hide S.Inv, S.Step, P.Step, P.Enabled, Agree;
        var rest := JointRunsAreThePipelines(m, P.Step(s, a), steps[1..]);
        actions := [a] + rest;
        P.Prepended(s, a, rest);
    }
  }

  /** Generation order under the slot protocol itself: over every interleaving of
      the two machines each socket gets the frames of a device in the order of the
      sessions that held its slot. */
  lemma GenerationOrderUnderTheSlots(steps: seq<Joint>, k: P.SocketId, d: P.Device)
    requires IsJointRun(S.FRESH, P.EMPTY, steps) && k in JointAfter(S.FRESH, P.EMPTY, steps).1.sockets
    ensures P.Ascending(JointAfter(S.FRESH, P.EMPTY, steps).1.sockets[k].handed, d)
  {
    assert S.Inv(S.FRESH) && Agree(S.FRESH, P.EMPTY);
    var actions := JointRunsAreThePipelines(S.FRESH, P.EMPTY, steps);
    P.HandedInGenerationOrder(actions, k, d);
  }
}
