/** One SSH session per device (ssh_manager.py): its locked sections as steps,
    in any interleaving. */
module SessionSlots {
  import opened Common
  import opened Config

  type Device = string
  type Owner = string
  type Generation = nat

  datatype SessionState = Connecting | Connected | HostKeyPending | Closed

  datatype Session = Session(device: Device, owner: Owner, state: SessionState)

  datatype Prompt = Prompt(code: string, owner: Owner, generation: Generation, createdAt: real)

  /** What a connect returns to its caller. */
  datatype Reply = Ok | HostKeyUnknown | Failed | Superseded

  /** A connect between its reservation and its last locked section, or done. */
  datatype Attempt = InFlight | Returned(reply: Reply)

  /** A session is named by its generation, which is never given twice. `closing`
      are the devices whose closer has yet to run its second locked section,
      `issued` and `resolved` the prompt codes handed out and used up so far. */
  datatype Manager = Manager(
    counter: nat, sessions: map<Generation, Session>, slots: map<Device, Generation>,
    attempts: map<Generation, Attempt>,
    pending: map<Device, Prompt>, closing: multiset<Device>, issued: set<string>, resolved: set<string>)

  const FRESH := Manager(0, map[], map[], map[], map[], multiset{}, {}, {})

  /** One step is one locked section; a connect blocks between two of its own with no
      lock held, so every other step may come in between. */
  datatype Action =
    | Reserve(device: Device, owner: Owner)
    | Promote(generation: Generation)
    | RaisePrompt(generation: Generation, code: string, now: real)
    | Discard(generation: Generation)
    | Close(device: Device, target: Option<Generation>)
    | Disconnect(device: Device, caller: Option<Owner>)
    | FinishClose(device: Device)
    | ClearPrompt(device: Device)
    | Resolve(device: Device, code: string, owner: Owner, now: real)
    | Sweep(device: Device, now: real)

  predicate Holds(m: Manager, g: Generation) {
    g in m.sessions && m.sessions[g].device in m.slots && m.slots[m.sessions[g].device] == g
  }

  function SetState(m: Manager, g: Generation, state: SessionState): Manager
    requires g in m.sessions
  {
    m.(sessions := m.sessions[g := m.sessions[g].(state := state)])
  }

  predicate Live(state: SessionState) { state in {Connecting, Connected, HostKeyPending} }

  /** Whether a reservation is turned away because someone else holds the device. */
  predicate InUse(m: Manager, device: Device, owner: Owner) {
    && device in m.slots && m.slots[device] in m.sessions
    && var held := m.sessions[m.slots[device]]; Live(held.state) && held.owner != owner
  }

  /** The first locked section of `connect`. */
  function StepReserve(m: Manager, device: Device, owner: Owner): Manager {
    if InUse(m, device, owner) then m
    else
      var retired := if device in m.slots && m.slots[device] in m.sessions && Live(m.sessions[m.slots[device]].state)
                     then SetState(m, m.slots[device], Closed) else m;
      var g := m.counter + 1;
      retired.(counter := g, sessions := retired.sessions[g := Session(device, owner, Connecting)],
               slots := m.slots[device := g], attempts := m.attempts[g := InFlight])
  }

  /** The network connect succeeded. */
  function StepPromote(m: Manager, g: Generation): Manager
    requires g in m.sessions
  {
    if !Holds(m, g) then m.(attempts := m.attempts[g := Returned(Superseded)])
    else SetState(m, g, Connected).(attempts := m.attempts[g := Returned(Ok)],
        pending := m.pending - {m.sessions[g].device})
  }

  /** The device offered an unknown or a changed host key. */
  function StepPrompt(m: Manager, g: Generation, code: string, now: real): Manager
    requires g in m.sessions
  {
    var asked := m.(attempts := m.attempts[g := Returned(HostKeyUnknown)], issued := m.issued + {code});
    if !Holds(m, g) then asked
    else
      var s := m.sessions[g];
      SetState(asked, g, HostKeyPending).(pending := m.pending[s.device := Prompt(code, s.owner, g, now)])
  }

  /** The network connect failed. */
  function StepDiscard(m: Manager, g: Generation): Manager
    requires g in m.sessions
  {
    var failed := m.(attempts := m.attempts[g := Returned(Failed)]);
    if Holds(m, g) then failed.(slots := m.slots - {m.sessions[g].device}) else failed
  }

  /** Empty a slot and leave the second locked section of the closer to come. */
  function Pop(m: Manager, device: Device): Manager
    requires device in m.slots && m.slots[device] in m.sessions
  {
    SetState(m, m.slots[device], Closed).(slots := m.slots - {device}, closing := m.closing + multiset{device})
  }

  /** `_valid_host_key_pending`. */
  predicate ValidPrompt(m: Manager, device: Device, code: string, owner: Owner, now: real) {
    && device in m.pending && device in m.slots && m.slots[device] in m.sessions
    && var prompt := m.pending[device];
       && m.slots[device] == prompt.generation && m.sessions[m.slots[device]].state == HostKeyPending
       && prompt.owner == owner && prompt.code == code && now - prompt.createdAt <= HOST_KEY_PENDING_SECONDS
  }

  predicate Enabled(m: Manager, a: Action) {
    match a
    case Promote(g) => g in m.attempts && m.attempts[g].InFlight? && g in m.sessions
    case RaisePrompt(g, code, _) => g in m.attempts && m.attempts[g].InFlight? && g in m.sessions && code !in m.issued
    case Discard(g) => g in m.attempts && m.attempts[g].InFlight? && g in m.sessions
    case FinishClose(device) => device in m.closing
    case _ => true
  }

  function Step(m: Manager, a: Action): Manager
    requires Enabled(m, a)
  {
    match a
    case Reserve(device, owner) => StepReserve(m, device, owner)
    case Promote(g) => StepPromote(m, g)
    case RaisePrompt(g, code, now) => StepPrompt(m, g, code, now)
    case Discard(g) => StepDiscard(m, g)
    case Close(device, target) =>
      if device !in m.slots || m.slots[device] !in m.sessions then m
      else if target.Some? && m.slots[device] != target.value then m
      else Pop(m, device)
    case Disconnect(device, owner) =>
      if device !in m.slots || m.slots[device] !in m.sessions then m
      else if owner.Some? && m.sessions[m.slots[device]].owner != owner.value then m
      else Pop(m, device)
    case FinishClose(device) => m.(closing := m.closing - multiset{device}, pending := m.pending - {device})
    case ClearPrompt(device) => m.(pending := m.pending - {device})
    case Resolve(device, code, owner, now) =>
      if !ValidPrompt(m, device, code, owner, now) then m
      else m.(pending := m.pending - {device}, resolved := m.resolved + {code})
    case Sweep(device, now) =>
      if device !in m.pending || now - m.pending[device].createdAt < HOST_KEY_PENDING_SECONDS then m
      else m.(pending := m.pending - {device})
  }

  // ---- the invariant ----------------------------------------------------------

  /** A slot holds a live session of its own device. */
  predicate SlotInv(m: Manager) {
    forall d :: d in m.slots ==>
      m.slots[d] in m.sessions && m.sessions[m.slots[d]].device == d && Live(m.sessions[m.slots[d]].state)
  }

  /** A connected or prompting session is the one in its device's slot. */
  predicate HolderInv(m: Manager) {
    forall g :: g in m.sessions && m.sessions[g].state in {Connected, HostKeyPending} ==> Holds(m, g)
  }

  predicate CounterInv(m: Manager) {
    && (forall g :: g in m.sessions ==> 1 <= g <= m.counter)
    && m.attempts.Keys == m.sessions.Keys
    && (forall g :: g in m.sessions && m.attempts[g].InFlight? ==> m.sessions[g].state in {Connecting, Closed})
  }

  predicate PromptInv(m: Manager) {
    && m.resolved <= m.issued
    && (forall d :: d in m.pending ==>
          var p := m.pending[d];
          && p.code in m.issued && p.code !in m.resolved && p.generation in m.sessions
          && m.sessions[p.generation].device == d && m.sessions[p.generation].owner == p.owner)
    && forall d, e :: d in m.pending && e in m.pending && m.pending[d].code == m.pending[e].code ==> d == e
  }

  predicate Inv(m: Manager) { SlotInv(m) && HolderInv(m) && CounterInv(m) && PromptInv(m) }

  lemma ReserveKeepsSlots(m: Manager, device: Device, owner: Owner)
    requires Inv(m)
    ensures SlotInv(StepReserve(m, device, owner)) && CounterInv(StepReserve(m, device, owner))
  {
    assert m.counter + 1 !in m.sessions;
  }

  lemma ReserveKeepsRest(m: Manager, device: Device, owner: Owner)
    requires Inv(m)
    ensures HolderInv(StepReserve(m, device, owner)) && PromptInv(StepReserve(m, device, owner))
  {
    assert m.counter + 1 !in m.sessions;
  }

  lemma PromoteKeepsInv(m: Manager, g: Generation)
    requires Inv(m) && Enabled(m, Promote(g))
    ensures Inv(StepPromote(m, g))
  {
    PromoteKeepsPrompts(m, g);
  }

  lemma PromoteKeepsPrompts(m: Manager, g: Generation)
    requires Inv(m) && Enabled(m, Promote(g))
    ensures PromptInv(StepPromote(m, g))
  {
  }

  lemma PromptKeepsSlots(m: Manager, g: Generation, code: string, now: real)
    requires Inv(m) && Enabled(m, RaisePrompt(g, code, now))
    ensures var n := StepPrompt(m, g, code, now); SlotInv(n) && CounterInv(n) && HolderInv(n)
  {
  }

  lemma PromptKeepsPrompts(m: Manager, g: Generation, code: string, now: real)
    requires Inv(m) && Enabled(m, RaisePrompt(g, code, now))
    ensures PromptInv(StepPrompt(m, g, code, now))
  {
  }

  lemma DiscardKeepsInv(m: Manager, g: Generation)
    requires Inv(m) && Enabled(m, Discard(g))
    ensures Inv(StepDiscard(m, g))
  {
  }

  lemma PopKeepsInv(m: Manager, device: Device)
    requires Inv(m) && device in m.slots
    ensures Inv(Pop(m, device))
  {
  }

  lemma ForgetKeepsInv(m: Manager, device: Device, code: string)
    requires Inv(m)
    ensures Inv(m.(pending := m.pending - {device}))
    ensures device in m.pending && m.pending[device].code == code ==>
      Inv(m.(pending := m.pending - {device}, resolved := m.resolved + {code}))
  {
  }

  lemma ClosingIsFree(m: Manager, closing: multiset<Device>)
    requires Inv(m)
    ensures Inv(m.(closing := closing))
  {
  }

  /** Every locked section keeps the invariant, in any interleaving. */
  lemma StepKeepsInv(m: Manager, a: Action)
    requires Inv(m) && Enabled(m, a)
    ensures Inv(Step(m, a))
  {
    hide SlotInv, HolderInv, CounterInv, PromptInv;
    match a
    case Reserve(device, owner) => ReserveKeepsSlots(m, device, owner); ReserveKeepsRest(m, device, owner);
    case Promote(g) => PromoteKeepsInv(m, g);
    case RaisePrompt(g, code, now) => PromptKeepsSlots(m, g, code, now); PromptKeepsPrompts(m, g, code, now);
    case Discard(g) => DiscardKeepsInv(m, g);
    case Close(device, target) => if device in m.slots { PopKeepsInv(m, device); }
    case Disconnect(device, caller) => if device in m.slots { PopKeepsInv(m, device); }
    case FinishClose(device) =>
      ForgetKeepsInv(m, device, "");
      ClosingIsFree(m.(pending := m.pending - {device}), m.closing - multiset{device});
    case ClearPrompt(device) => ForgetKeepsInv(m, device, "");
    case Resolve(device, code, owner, now) => ForgetKeepsInv(m, device, code);
    case Sweep(device, now) => ForgetKeepsInv(m, device, "");
  }

  // ---- whole runs ------------------------------------------------------------------

  ghost predicate IsRun(m: Manager, actions: seq<Action>)
    decreases |actions|
  {
    actions == [] || (Enabled(m, actions[0]) && IsRun(Step(m, actions[0]), actions[1..]))
  }

  function Run(m: Manager, actions: seq<Action>): Manager
    requires IsRun(m, actions)
    decreases |actions|
  {
    if actions == [] then m else Run(Step(m, actions[0]), actions[1..])
  }

  lemma {:induction false} RunKeepsInv(m: Manager, actions: seq<Action>)
    requires Inv(m) && IsRun(m, actions)
    ensures Inv(Run(m, actions))
    decreases |actions|
  {
    if actions != [] {
      StepKeepsInv(m, actions[0]);
      RunKeepsInv(Step(m, actions[0]), actions[1..]);
    }
  }

  /** Over all interleavings of connects, closes, disconnects, prompts and
      failures: a slot holds only a live session of its own device, and every
      connected or prompting session is the one in its device's slot. */
  lemma SlotsAreSound(actions: seq<Action>)
    requires IsRun(FRESH, actions)
    ensures var m := Run(FRESH, actions);
            && (forall d :: d in m.slots ==>
                  (m.slots[d] in m.sessions && m.sessions[m.slots[d]].device == d
                   && m.sessions[m.slots[d]].state in {Connecting, Connected, HostKeyPending}))
            && (forall g :: g in m.sessions && m.sessions[g].state in {Connected, HostKeyPending} ==>
                  (m.sessions[g].device in m.slots && m.slots[m.sessions[g].device] == g))
  {
    RunKeepsInv(FRESH, actions);
  }

  /** A reservation is refused exactly when a live session of another owner
      holds the device, and then nothing changes; otherwise the device goes to
      the new session at once. */
  lemma ReservationIsExclusive(m: Manager, device: Device, owner: Owner)
    requires Inv(m)
    ensures var n := Step(m, Reserve(device, owner));
            if device in m.slots && m.sessions[m.slots[device]].owner != owner then n == m
            else
              (&& device in n.slots && n.slots[device] == m.counter + 1 && m.counter + 1 in n.sessions
               && n.sessions[m.counter + 1] == Session(device, owner, Connecting)
               && (device in m.slots ==> m.slots[device] in n.sessions && n.sessions[m.slots[device]].state == Closed))
  {
    assert m.counter + 1 !in m.sessions;
  }

  predicate SameSession(m: Manager, n: Manager, g: Generation) {
    && g in m.sessions && g in n.sessions
    && n.sessions[g].device == m.sessions[g].device && n.sessions[g].owner == m.sessions[g].owner
  }

  lemma ReserveKeepsIdentity(m: Manager, device: Device, owner: Owner, g: Generation)
    requires g in m.sessions && g != m.counter + 1
    ensures SameSession(m, StepReserve(m, device, owner), g)
  {
    hide InUse, Live;
  }

  lemma ConnectKeepsIdentity(m: Manager, a: Action, g: Generation)
    requires Enabled(m, a) && g in m.sessions && (a.Promote? || a.RaisePrompt? || a.Discard?)
    ensures SameSession(m, Step(m, a), g)
  {
    hide Holds;
  }

  lemma IdentityStays(m: Manager, a: Action, g: Generation)
    requires Enabled(m, a) && g in m.sessions && g != m.counter + 1
    ensures SameSession(m, Step(m, a), g)
  {
    if a.Reserve? {
      hide StepReserve, SameSession;
      ReserveKeepsIdentity(m, a.device, a.owner, g);
    } else if a.Promote? || a.RaisePrompt? || a.Discard? {
      hide Step, Enabled, SameSession;
      ConnectKeepsIdentity(m, a, g);
    } else {
      hide StepReserve, StepPromote, StepPrompt, StepDiscard, ValidPrompt;
    }
  }

  lemma SessionKeepsIdentity(m: Manager, a: Action, g: Generation)
    requires Inv(m) && Enabled(m, a) && g in m.sessions
    ensures var n := Step(m, a);
            g in n.sessions && n.sessions[g].device == m.sessions[g].device &&
                n.sessions[g].owner == m.sessions[g].owner
  {
    assert m.counter + 1 !in m.sessions;
    hide Inv, Step, Enabled;
    IdentityStays(m, a, g);
  }

  lemma SlotMoves(m: Manager, a: Action, d: Device)
    requires Inv(m) && Enabled(m, a)
    ensures var n := Step(m, a);
            && n.counter >= m.counter
            && (d in n.slots && (d !in m.slots || n.slots[d] != m.slots[d]) ==>
                  a.Reserve? && a.device == d && n.slots[d] == n.counter == m.counter + 1)
  {
    hide SlotInv, HolderInv, PromptInv;
  }

  /** One step on one slot: it stays, it empties, or a newer session of the same
      owner takes it over; only an empty slot can go to someone else. */
  lemma SlotChanges(m: Manager, a: Action, d: Device)
    requires Inv(m) && Enabled(m, a)
    ensures var n := Step(m, a);
            && n.counter >= m.counter
            && (d in n.slots && (d !in m.slots || n.slots[d] != m.slots[d]) ==>
                n.slots[d] == n.counter == m.counter + 1)
            && (d in m.slots && d in n.slots ==>
                  n.slots[d] in n.sessions && n.sessions[n.slots[d]].owner == m.sessions[m.slots[d]].owner)
  {
    SlotMoves(m, a, d);
    if d in m.slots && d in Step(m, a).slots {
      if Step(m, a).slots[d] == m.slots[d] {
        SessionKeepsIdentity(m, a, m.slots[d]);
      } else {
        ReservationIsExclusive(m, d, a.owner);
      }
    }
  }

  /** The generations that occupy a slot strictly increase; a generation that
      has left its slot, or lost the race for it, never comes back. */
  lemma {:induction false} GenerationNeverReturns(m: Manager, actions: seq<Action>, d: Device, g: Generation)
    requires Inv(m) && IsRun(m, actions) && g <= m.counter
    requires d !in m.slots || m.slots[d] > g
    ensures var n := Run(m, actions); d !in n.slots || n.slots[d] > g
    decreases |actions|
  {
    if actions != [] {
      StepKeepsInv(m, actions[0]);
      SlotChanges(m, actions[0], d);
      GenerationNeverReturns(Step(m, actions[0]), actions[1..], d, g);
    }
  }

  /** Every state on a run, the first and the last included. */
  ghost predicate Throughout(m: Manager, actions: seq<Action>, d: Device)
    requires IsRun(m, actions)
    decreases |actions|
  {
    d in m.slots && (actions == [] || Throughout(Step(m, actions[0]), actions[1..], d))
  }

  /** While a device's slot is never empty its owner never changes. */
  lemma {:induction false} OwnershipNeedsEmptySlot(m: Manager, actions: seq<Action>, d: Device)
    requires Inv(m) && IsRun(m, actions) && Throughout(m, actions, d)
    ensures var n := Run(m, actions);
            && d in n.slots && n.slots[d] in n.sessions && n.sessions[n.slots[d]].owner == m.sessions[m.slots[d]].owner
            && n.slots[d] >= m.slots[d]
    decreases |actions|
  {
    if actions == [] {
    } else {
      StepKeepsInv(m, actions[0]);
      SlotChanges(m, actions[0], d);
      OwnershipNeedsEmptySlot(Step(m, actions[0]), actions[1..], d);
    }
  }

  /** A connect that has lost its slot. */
  predicate Overtaken(m: Manager, g: Generation) {
    g in m.sessions && !Holds(m, g)
  }

  lemma AttemptStays(m: Manager, a: Action, g: Generation)
    requires CounterInv(m) && Enabled(m, a) && g in m.attempts && g != m.counter + 1 && !Holds(m, g)
    ensures g in Step(m, a).attempts
    ensures m.attempts[g] != Returned(Ok) ==> Step(m, a).attempts[g] != Returned(Ok)
  {
    hide InUse, ValidPrompt, SlotInv, HolderInv, PromptInv;
  }

  lemma AttemptChanges(m: Manager, a: Action, g: Generation)
    requires Inv(m) && Enabled(m, a) && Overtaken(m, g)
    ensures Overtaken(Step(m, a), g)
    ensures g in m.attempts && g in Step(m, a).attempts
    ensures m.attempts[g] != Returned(Ok) ==> Step(m, a).attempts[g] != Returned(Ok)
  {
    assert m.counter + 1 !in m.sessions;
    SessionKeepsIdentity(m, a, g);
    SlotMoves(m, a, m.sessions[g].device);
    AttemptStays(m, a, g);
    hide Inv, Step, Enabled;
  }

  /** An overtaken connect never returns ok, whatever happens later. */
  lemma {:induction false} OvertakenNeverOk(m: Manager, actions: seq<Action>, g: Generation)
    requires Inv(m) && IsRun(m, actions) && Overtaken(m, g) && m.attempts[g] != Returned(Ok)
    ensures g in Run(m, actions).attempts && Run(m, actions).attempts[g] != Returned(Ok)
    decreases |actions|
  {
    if actions != [] {
      StepKeepsInv(m, actions[0]);
      AttemptChanges(m, actions[0], g);
      OvertakenNeverOk(Step(m, actions[0]), actions[1..], g);
    }
  }

  /** When the network connect succeeds, the reply is ok if and only if the
      session still holds its slot, and then it is connected there. */
  lemma OkMeansHolding(m: Manager, g: Generation)
    requires Inv(m) && Enabled(m, Promote(g))
    ensures var n := Step(m, Promote(g));
            && (n.attempts[g] == Returned(Ok) <==> Holds(m, g))
            && (n.attempts[g] == Returned(Superseded) <==> Overtaken(m, g))
            && (Holds(m, g) ==> Holds(n, g) && n.sessions[g].state == Connected && m.sessions[g].device !in n.pending)
            && (Overtaken(m, g) ==> n.sessions == m.sessions && n.slots == m.slots && n.pending == m.pending)
  {
  }

  /** A close aimed at a session that was replaced leaves the replacement alone. */
  lemma StaleCloseIsHarmless(m: Manager, device: Device, g: Generation)
    requires Inv(m) && Overtaken(m, g) && m.sessions[g].device == device
    ensures Step(m, Close(device, Some(g))) == m
  {
  }

  // ---- host-key prompts ----------------------------------------------------------------

  /** A prompt is resolved only by its owner, with its code, in time, while the
      session it was raised for still prompts in the slot; and a code works once. */
  lemma ResolveIsBound(m: Manager, device: Device, code: string, owner: Owner, now: real)
    requires Inv(m)
    ensures var n := Step(m, Resolve(device, code, owner, now));
            n != m ==>
              (&& device in m.pending && device in m.slots && m.slots[device] == m.pending[device].generation
               && m.slots[device] in m.sessions
               && m.sessions[m.slots[device]].state == HostKeyPending && m.sessions[m.slots[device]].owner == owner
               && now - m.pending[device].createdAt <= HOST_KEY_PENDING_SECONDS
               && code in m.issued && code !in m.resolved && code in n.resolved && n.pending == m.pending - {device})
  {
  }

  lemma {:induction false} CodeWorksOnce(m: Manager, actions: seq<Action>, code: string, device: Device, owner: Owner,
      now: real)
    requires Inv(m) && IsRun(m, actions) && code in m.resolved
    ensures Step(Run(m, actions), Resolve(device, code, owner, now)) == Run(m, actions)
    decreases |actions|
  {
    if actions == [] {
      ResolveIsBound(m, device, code, owner, now);
    } else {
      StepKeepsInv(m, actions[0]);
      CodeWorksOnce(Step(m, actions[0]), actions[1..], code, device, owner, now);
    }
  }

  /** The second locked section of an old close can wipe a newer prompt: then
      the session prompts in its slot and nobody can ever answer it. */
  lemma LateCloseWipesPrompt(device: Device, owner: Owner, code: string)
    ensures var actions := [Reserve(device, owner), Close(device, None), Reserve(device, owner),
            RaisePrompt(2, code, 0.0), FinishClose(device)];
            && IsRun(FRESH, actions)
            && Prompts(Run(FRESH, actions), device) && device !in Run(FRESH, actions).pending
            && code !in Run(FRESH, actions).resolved
  {
    var a0, a1, a2, a3, a4 := Reserve(device, owner), Close(device, None), Reserve(device, owner),
        RaisePrompt(2, code, 0.0), FinishClose(device);
    hide *;
    AlwaysEnabled(FRESH, a0);
    var m1 := Step(FRESH, a0);
    AlwaysEnabled(m1, a1);
    var m2 := Step(m1, a1);
    AlwaysEnabled(m2, a2);
    var m3 := Step(m2, a2);
    ReopenedWhileClosing(device, owner);
    PromptWhileClosing(m3, device, code);
    var m4 := Step(m3, a3);
    WipeRuns(m4, device);
    RunOne(m3, a3, [a4]);
    RunOne(m2, a2, [a3, a4]);
    RunOne(m1, a1, [a2, a3, a4]);
    RunOne(FRESH, a0, [a1, a2, a3, a4]);
  }

  lemma AlwaysEnabled(m: Manager, a: Action)
    requires a.Reserve? || a.Close?
    ensures Enabled(m, a)
  {
  }

  lemma ReopenedWhileClosing(device: Device, owner: Owner)
    ensures var m := Step(Step(Step(FRESH, Reserve(device, owner)), Close(device, None)), Reserve(device, owner));
            && Holds(m, 2) && m.sessions[2].device == device && 2 in m.attempts && m.attempts[2].InFlight?
            && m.issued == {} && m.resolved == {} && device in m.closing
  {
    var s, t := Session(device, owner, Closed), Session(device, owner, Connecting);
    var m1 := FRESH.(counter := 1, sessions := map[1 := t], slots := map[device := 1], attempts := map[1 := InFlight]);
    var m2 := m1.(sessions := map[1 := s], slots := map[], closing := multiset{device});
    assert Step(FRESH, Reserve(device, owner)) == m1;
    assert Step(m1, Close(device, None)) == m2;
  }

  lemma PromptWhileClosing(m: Manager, device: Device, code: string)
    requires Holds(m, 2) && m.sessions[2].device == device && 2 in m.attempts && m.attempts[2].InFlight? &&
             code !in m.issued && device in m.closing
    ensures Enabled(m, RaisePrompt(2, code, 0.0))
    ensures var n := Step(m, RaisePrompt(2, code, 0.0));
            Prompts(n, device) && device in n.closing && n.resolved == m.resolved
  {
  }

  predicate Expired(m: Manager, d: Device, now: real) {
    d in m.pending && now - m.pending[d].createdAt >= HOST_KEY_PENDING_SECONDS
  }

  /** The record was raised for the session that prompts in the slot. */
  predicate PromptersOwn(m: Manager, d: Device) {
    d in m.pending && Prompts(m, d) && m.slots[d] == m.pending[d].generation
  }

  /** The record is used up: answered, expired, or cleared when its owner leaves. */
  predicate Taken(m: Manager, a: Action, d: Device) {
    || a == ClearPrompt(d)
    || (a.Resolve? && a.device == d && ValidPrompt(m, d, a.code, a.owner, a.now))
    || (a.Sweep? && a.device == d && Expired(m, d, a.now))
  }

  /** The connect behind a prompting session has returned. */
  lemma PromptingHasReturned(m: Manager, d: Device)
    requires Inv(m) && Prompts(m, d)
    ensures m.slots[d] in m.attempts && !m.attempts[m.slots[d]].InFlight? && m.sessions[m.slots[d]].device == d
  {
  }

  /** The steps of a connect leave another session's prompt record alone. */
  lemma ConnectsKeepRecord(m: Manager, a: Action, d: Device)
    requires Enabled(m, a) && Prompts(m, d) && m.slots[d] in m.attempts && !m.attempts[m.slots[d]].InFlight?
    requires m.sessions[m.slots[d]].device == d && (a.Promote? || a.RaisePrompt? || a.Discard?)
    ensures d in Step(m, a).pending <==> d in m.pending
  {
  }

  lemma SlotStepsKeepRecords(m: Manager, a: Action)
    requires a.Reserve? || a.Close? || a.Disconnect?
    ensures Enabled(m, a) && Step(m, a).pending == m.pending
  {
    hide InUse, Live;
  }

  /** When a waiting prompt goes: a session that still prompts after a step lost
      its record in that step exactly when the record was used up, or wiped by the
      second locked section of an earlier close. */
  lemma PromptIsLostExactlyBy(m: Manager, a: Action, d: Device)
    requires Inv(m) && Enabled(m, a) && Prompts(m, d) && d in m.pending && Prompts(Step(m, a), d)
    ensures d !in Step(m, a).pending <==> a == FinishClose(d) || Taken(m, a, d)
  {
    PromptingHasReturned(m, d);
    if a.Promote? || a.RaisePrompt? || a.Discard? {
      hide Inv, Step, Enabled;
      ConnectsKeepRecord(m, a, d);
    } else if a.Reserve? || a.Close? || a.Disconnect? {
      hide Inv, Step, Enabled, Prompts;
      SlotStepsKeepRecords(m, a);
    } else {
      hide Inv, Step, Enabled, Prompts, Taken;
      RecordStepsDrop(m, a, d);
    }
  }

  lemma RecordStepsDrop(m: Manager, a: Action, d: Device)
    requires Enabled(m, a) && d in m.pending && (a.FinishClose? || a.ClearPrompt? || a.Resolve? || a.Sweep?)
    ensures d !in Step(m, a).pending <==> a == FinishClose(d) || Taken(m, a, d)
  {
    hide Prompts, StepReserve, StepPromote, StepPrompt, StepDiscard;
    if a.Resolve? { assert ValidPrompt(m, a.device, a.code, a.owner, a.now) ==> a.device in m.pending; }
  }

  /** A record that is gone is not raised again for the same session. */
  lemma GoneStaysGone(m: Manager, a: Action, d: Device)
    requires Inv(m) && Enabled(m, a) && Prompts(m, d) && d !in m.pending
    ensures d !in Step(m, a).pending
  {
    PromptingHasReturned(m, d);
    if a.Promote? || a.RaisePrompt? || a.Discard? {
      hide Inv, Step, Enabled;
      ConnectsKeepRecord(m, a, d);
    } else if a.Reserve? || a.Close? || a.Disconnect? {
      hide Inv, Step, Enabled, Prompts;
      SlotStepsKeepRecords(m, a);
    } else {
      hide Inv, ValidPrompt, StepReserve, StepPromote, StepPrompt, StepDiscard, Prompts;
    }
  }

  /** Only emptying a slot leaves a closer behind. */
  lemma ClosersNeedEmptySlot(m: Manager, a: Action, d: Device)
    requires Inv(m) && Enabled(m, a) && d in m.slots && d in Step(m, a).slots && d !in m.closing
    ensures a != FinishClose(d) && d !in Step(m, a).closing
  {
    hide HolderInv, PromptInv, CounterInv;
  }

  /** A session prompts in the slot of the device in every state of the run. */
  ghost predicate KeepsPrompting(m: Manager, actions: seq<Action>, d: Device)
    requires IsRun(m, actions)
    decreases |actions|
  {
    Prompts(m, d) && (actions != [] ==> KeepsPrompting(Step(m, actions[0]), actions[1..], d))
  }

  ghost predicate SomeTaken(m: Manager, actions: seq<Action>, d: Device)
    requires IsRun(m, actions)
    decreases |actions|
  {
    actions != [] && (Taken(m, actions[0], d) || SomeTaken(Step(m, actions[0]), actions[1..], d))
  }

  /** With no closer left behind, over every run in which the session goes on
      prompting its record is there exactly until it is used up. */
  lemma {:induction false} RecordStaysUntilTaken(m: Manager, actions: seq<Action>, d: Device)
    requires Inv(m) && IsRun(m, actions) && KeepsPrompting(m, actions, d) && d !in m.closing
    ensures d in Run(m, actions).pending <==> d in m.pending && !SomeTaken(m, actions, d)
    ensures d !in Run(m, actions).closing
    decreases |actions|
  {
    if actions != [] {
      var n := Step(m, actions[0]);
      StepKeepsInv(m, actions[0]);
      assert Prompts(n, d) by { assert KeepsPrompting(n, actions[1..], d); }
      ClosersNeedEmptySlot(m, actions[0], d);
      if d in m.pending { PromptIsLostExactlyBy(m, actions[0], d); } else { GoneStaysGone(m, actions[0], d); }
      hide Step, Inv, Taken, Prompts;
      RecordStaysUntilTaken(n, actions[1..], d);
    }
  }

  /** Some run leaves the session prompting without its record, which nobody used up. */
  ghost predicate CanBeWiped(m: Manager, d: Device) {
    exists actions :: Wipes(m, actions, d)
  }

  ghost predicate Wipes(m: Manager, actions: seq<Action>, d: Device) {
    && IsRun(m, actions) && KeepsPrompting(m, actions, d)
    && d !in Run(m, actions).pending && !SomeTaken(m, actions, d)
  }

  lemma CloserWipes(m: Manager, d: Device)
    requires Prompts(m, d) && d in m.closing
    ensures Wipes(m, [FinishClose(d)], d)
  {
    var n := Step(m, FinishClose(d));
    var none: seq<Action> := [];
    WipeRuns(m, d);
    assert [FinishClose(d)][1..] == none;
    assert KeepsPrompting(n, none, d) && !SomeTaken(n, none, d) && Run(n, none) == n;
  }

  /** A waiting prompt can be wiped under its session if and only if a close of the
      device has yet to run its second locked section. */
  lemma WipedExactlyIfClosing(m: Manager, d: Device)
    requires Inv(m) && Prompts(m, d) && d in m.pending
    ensures CanBeWiped(m, d) <==> d in m.closing
  {
    if d in m.closing {
      CloserWipes(m, d);
    } else {
      forall actions ensures !Wipes(m, actions, d) {
        if IsRun(m, actions) && KeepsPrompting(m, actions, d) { RecordStaysUntilTaken(m, actions, d); }
      }
    }
  }

  /** What a connect can tell when it raises its prompt: the record is safe from
      older closes if and only if none of the device is unfinished then. */
  lemma RaisedPromptIsSafeExactly(m: Manager, g: Generation, code: string, now: real)
    requires Inv(m) && Enabled(m, RaisePrompt(g, code, now)) && Holds(m, g)
    ensures CanBeWiped(Step(m, RaisePrompt(g, code, now)), m.sessions[g].device) <==> m.sessions[g].device in m.closing
  {
    StepKeepsInv(m, RaisePrompt(g, code, now));
    RaisedPromptWaits(m, g, code, now);
    hide Inv, Step, CanBeWiped;
    WipedExactlyIfClosing(Step(m, RaisePrompt(g, code, now)), m.sessions[g].device);
  }

  lemma RaisedPromptWaits(m: Manager, g: Generation, code: string, now: real)
    requires Enabled(m, RaisePrompt(g, code, now)) && Holds(m, g)
    ensures var n, d := Step(m, RaisePrompt(g, code, now)), m.sessions[g].device;
            Prompts(n, d) && d in n.pending && n.closing == m.closing
  {
  }

  predicate Prompts(m: Manager, device: Device) {
    device in m.slots && m.slots[device] in m.sessions && m.sessions[m.slots[device]].state == HostKeyPending
  }

  lemma WipeRuns(m: Manager, device: Device)
    requires device in m.closing && Prompts(m, device)
    ensures IsRun(m, [FinishClose(device)])
    ensures var n := Run(m, [FinishClose(device)]);
            Prompts(n, device) && device !in n.pending && n.resolved == m.resolved
  {
    RunOne(m, FinishClose(device), []);
  }

  lemma RunOne(m: Manager, a: Action, rest: seq<Action>)
    requires Enabled(m, a) && IsRun(Step(m, a), rest)
    ensures IsRun(m, [a] + rest) && Run(m, [a] + rest) == Run(Step(m, a), rest)
  {
    assert ([a] + rest)[0] == a && ([a] + rest)[1..] == rest;
  }

  // ---- how a slot becomes free ---------------------------------------------------------

  /** The device is free: whoever asks next gets its slot. */
  lemma FreeSlotTakesAnyone(m: Manager, d: Device, owner: Owner)
    requires Inv(m) && d !in m.slots
    ensures var n := Step(m, Reserve(d, owner));
            d in n.slots && n.slots[d] in n.sessions && n.sessions[n.slots[d]] == Session(d, owner, Connecting)
  {
  }

  /** A failed connect leaves its slot if it still holds it, and only that slot, so
      that anyone can connect next. */
  lemma DiscardFreesSlot(m: Manager, g: Generation, next: Owner)
    requires Inv(m) && Enabled(m, Discard(g))
    ensures var d, n := m.sessions[g].device, Step(m, Discard(g));
            && n.slots == (if d in m.slots && m.slots[d] == g then m.slots - {d} else m.slots)
            && n.sessions == m.sessions && n.pending == m.pending && n.attempts[g] == Returned(Failed)
            && (d in m.slots && m.slots[d] == g ==>
                  var taken := Step(n, Reserve(d, next));
                  d in taken.slots && taken.slots[d] in taken.sessions && taken.sessions[taken.slots[d]].owner == next)
  {
    StepKeepsInv(m, Discard(g));
    if Holds(m, g) { FreeSlotTakesAnyone(Step(m, Discard(g)), m.sessions[g].device, next); }
  }

  /** What a close or a disconnect that finds its session makes of the manager. */
  predicate SlotGone(m: Manager, n: Manager, d: Device) {
    && d in m.slots && n.slots == m.slots - {d} && m.slots[d] in n.sessions && n.sessions[m.slots[d]].state == Closed
    && (forall g :: g in m.sessions && g != m.slots[d] ==> g in n.sessions && n.sessions[g] == m.sessions[g])
    && n.pending == m.pending && d in n.closing
  }

  /** A close empties the slot exactly when it holds the target, or holds anything if
      there is no target; then anyone can connect next. */
  lemma CloseFreesSlot(m: Manager, d: Device, target: Option<Generation>, next: Owner)
    requires Inv(m)
    ensures var n := Step(m, Close(d, target));
            if d in m.slots && (target.None? || target.value == m.slots[d]) then
              SlotGone(m, n, d) && !InUse(n, d, next)
            else n == m
  {
  }

  /** A disconnect empties it exactly for its owner, or for a caller without one. */
  lemma DisconnectFreesSlot(m: Manager, d: Device, caller: Option<Owner>, next: Owner)
    requires Inv(m)
    ensures var n := Step(m, Disconnect(d, caller));
            if d in m.slots && (caller.None? || caller.value == m.sessions[m.slots[d]].owner) then
              SlotGone(m, n, d) && !InUse(n, d, next)
            else n == m
  {
  }

  /** A raised prompt can be answered: by its owner, with its code, for five minutes,
      and in no other way; the answer uses up that record and nothing else. */
  lemma RaisedPromptIsAnswerable(m: Manager, g: Generation, code: string, now: real, d: Device, tried: string,
      owner: Owner, at: real)
    requires Inv(m) && Enabled(m, RaisePrompt(g, code, now)) && Holds(m, g) && d == m.sessions[g].device
    ensures var asked := Step(m, RaisePrompt(g, code, now));
            var n := Step(asked, Resolve(d, tried, owner, at));
            && d in asked.pending && asked.slots == m.slots && asked.sessions[g].state == HostKeyPending
            && (if tried == code && owner == m.sessions[g].owner && at - now <= 300.0
                then n.pending == asked.pending - {d} && n.slots == asked.slots && n.sessions == asked.sessions
                else n == asked)
  {
  }

  lemma ReserveIs(m: Manager, device: Device, owner: Owner)
    requires Inv(m)
    ensures m.counter + 1 !in m.sessions
    ensures InUse(m, device, owner) <==> device in m.slots && m.sessions[m.slots[device]].owner != owner
    ensures device in m.slots ==> m.slots[device] in m.sessions && Live(m.sessions[m.slots[device]].state)
    ensures Inv(StepReserve(m, device, owner))
  {
    StepKeepsInv(m, Reserve(device, owner));
  }

  // ---- the manager object ----------------------------------------------------------------

  /** The locked sections of `SSHManager`, one method each. */
  class SshManager {
    var genCounter: nat
    var sessions: map<Generation, Session>
    var slots: map<Device, Generation>
    var prompts: map<Device, Prompt>
    ghost var attempts: map<Generation, Attempt>
    ghost var closing: multiset<Device>
    ghost var issued: set<string>
    ghost var resolved: set<string>

    ghost function State(): Manager
      reads this
    {
      Manager(genCounter, sessions, slots, attempts, prompts, closing, issued, resolved)
    }

    constructor ()
      ensures State() == FRESH
    {
      genCounter, sessions, slots, prompts := 0, map[], map[], map[];
      attempts, closing, issued, resolved := map[], multiset{}, {}, {};
    }

    /** `connect`, first section. */
    method ReserveSlot(device: Device, owner: Owner) returns (g: Option<Generation>)
      requires Inv(State())
      modifies this
      ensures State() == Step(old(State()), Reserve(device, owner)) && Inv(State())
      ensures g == if InUse(old(State()), device, owner) then None else Some(genCounter)
      ensures g.None? <==> device in old(slots) && old(sessions)[old(slots)[device]].owner != owner
      ensures prompts == old(prompts) && slots == if g.None? then old(slots) else old(slots)[device := g.value]
      ensures g.Some? ==> g.value !in old(sessions) && g.value in sessions && sessions[g.value] ==
                          Session(device, owner, Connecting)
      ensures g.Some? && device in old(slots) ==>
                old(slots)[device] in sessions && sessions[old(slots)[device]].state == Closed
    {
      hide Inv, InUse;
      ReserveIs(State(), device, owner);
      if device in slots && Live(sessions[slots[device]].state) {
        var existing := slots[device];
        if sessions[existing].owner != owner {
          return None;
        }
        sessions := sessions[existing := sessions[existing].(state := Closed)];
      }
      genCounter := genCounter + 1;
      sessions := sessions[genCounter := Session(device, owner, Connecting)];
      slots := slots[device := genCounter];
      attempts := attempts[genCounter := InFlight];
      g := Some(genCounter);
    }

    /** `connect`, last section after a successful network connect. */
    method PromoteSession(g: Generation) returns (superseded: bool)
      requires Inv(State()) && Enabled(State(), Promote(g))
      modifies this
      ensures State() == Step(old(State()), Promote(g)) && Inv(State())
      ensures superseded == !Holds(old(State()), g) && attempts[g] == Returned(if superseded then Superseded else Ok)
      ensures var device := old(sessions)[g].device;
              && (superseded <==> device !in slots || slots[device] != g) && slots == old(slots)
              && sessions == (if superseded then old(sessions)
                              else old(sessions)[g := Session(device, old(sessions)[g].owner, Connected)])
              && prompts == (if superseded then old(prompts) else old(prompts) - {device})
    {
      PromoteKeepsInv(State(), g);
      var device := sessions[g].device;
      if device !in slots || slots[device] != g {
        attempts := attempts[g := Returned(Superseded)];
        return true;
      }
      sessions := sessions[g := sessions[g].(state := Connected)];
      prompts := prompts - {device};
      attempts := attempts[g := Returned(Ok)];
      superseded := false;
    }

    /** `connect`, last section after an unknown or changed host key. */
    method RaiseHostKeyPrompt(g: Generation, code: string, now: real)
      requires Inv(State()) && Enabled(State(), RaisePrompt(g, code, now))
      modifies this
      ensures State() == Step(old(State()), RaisePrompt(g, code, now)) && Inv(State())
      ensures slots == old(slots) && var s := old(sessions)[g];
              if s.device in slots && slots[s.device] == g then
                sessions == old(sessions)[g := Session(s.device, s.owner, HostKeyPending)] &&
                prompts == old(prompts)[s.device := Prompt(code, s.owner, g, now)]
              else sessions == old(sessions) && prompts == old(prompts)
    {
      PromptKeepsSlots(State(), g, code, now);
      PromptKeepsPrompts(State(), g, code, now);
      var device := sessions[g].device;
      if device in slots && slots[device] == g {
        sessions := sessions[g := sessions[g].(state := HostKeyPending)];
        prompts := prompts[device := Prompt(code, sessions[g].owner, g, now)];
      }
      attempts, issued := attempts[g := Returned(HostKeyUnknown)], issued + {code};
    }

    /** `connect`, last section after any other failure. */
    method DiscardSession(g: Generation) returns (removed: bool)
      requires Inv(State()) && Enabled(State(), Discard(g))
      modifies this
      ensures State() == Step(old(State()), Discard(g)) && Inv(State()) && removed == Holds(old(State()), g)
      ensures var device := old(sessions)[g].device;
              && (removed <==> device in old(slots) && old(slots)[device] == g)
              && slots == (if removed then old(slots) - {device} else old(slots))
              && sessions == old(sessions) && prompts == old(prompts)
    {
      DiscardKeepsInv(State(), g);
      var device := sessions[g].device;
      removed := device in slots && slots[device] == g;
      if removed {
        slots := slots - {device};
      }
      attempts := attempts[g := Returned(Failed)];
    }

    /** `_close`, first section: only if the slot still holds the target. */
    method CloseSession(device: Device, target: Option<Generation>) returns (popped: Option<Generation>)
      requires Inv(State())
      modifies this
      ensures State() == Step(old(State()), Close(device, target)) && Inv(State())
      ensures popped == if device in old(slots) && (target.None? || target.value == old(slots)[device])
                        then Some(old(slots)[device]) else None
      ensures slots == (if popped.Some? then old(slots) - {device} else old(slots)) && prompts == old(prompts)
      ensures popped.Some? ==> popped.value in sessions && sessions[popped.value].state == Closed
    {
      StepKeepsInv(State(), Close(device, target));
      if device !in slots || (target.Some? && slots[device] != target.value) {
        return None;
      }
      var g := PopSlot(device);
      popped := Some(g);
    }

    /** `disconnect`: owner check and removal in one section. */
    method DisconnectDevice(device: Device, caller: Option<Owner>) returns (notOwner: bool)
      requires Inv(State())
      modifies this
      ensures State() == Step(old(State()), Disconnect(device, caller)) && Inv(State())
      ensures notOwner <==>
              caller.Some? && device in old(slots) && old(sessions)[old(slots)[device]].owner != caller.value
      ensures slots == (if notOwner then old(slots) else old(slots) - {device}) && prompts == old(prompts)
      ensures device in old(slots) && !notOwner ==> sessions[old(slots)[device]].state == Closed
    {
      StepKeepsInv(State(), Disconnect(device, caller));
      if caller.Some? && device in slots && sessions[slots[device]].owner != caller.value {
        return true;
      }
      if device in slots {
        var popped := PopSlot(device);
      }
      notOwner := false;
    }

    method PopSlot(device: Device) returns (popped: Generation)
      requires device in slots && slots[device] in sessions
      modifies this
      ensures State() == Pop(old(State()), device) && popped == old(slots)[device]
    {
      popped := slots[device];
      slots := slots - {device};
      sessions := sessions[popped := sessions[popped].(state := Closed)];
      closing := closing + multiset{device};
    }

    /** `_clear_pending` at the end of a close. */
    method FinishClosing(device: Device)
      requires Inv(State()) && device in closing
      modifies this
      ensures State() == Step(old(State()), FinishClose(device)) && Inv(State())
      ensures prompts == old(prompts) - {device} && slots == old(slots) && sessions == old(sessions)
    {
      StepKeepsInv(State(), FinishClose(device));
      prompts := prompts - {device};
      closing := closing - multiset{device};
    }

    /** The locked section of `trust_host_key` and of `reject_host_key`. */
    method ResolvePrompt(device: Device, code: string, owner: Owner, now: real) returns (bound: Option<Generation>)
      requires Inv(State())
      modifies this
      ensures State() == Step(old(State()), Resolve(device, code, owner, now)) && Inv(State())
      ensures bound == if ValidPrompt(old(State()), device, code, owner, now) then Some(old(slots)[device]) else None
      ensures slots == old(slots) && sessions == old(sessions)
      ensures prompts == if bound.Some? then old(prompts) - {device} else old(prompts)
    {
      StepKeepsInv(State(), Resolve(device, code, owner, now));
      if device !in prompts || device !in slots {
        return None;
      }
      var prompt := prompts[device];
      if slots[device] != prompt.generation || sessions[slots[device]].state != HostKeyPending || prompt.owner != owner
         || prompt.code != code || now - prompt.createdAt > HOST_KEY_PENDING_SECONDS {
        return None;
      }
      prompts := prompts - {device};
      resolved := resolved + {code};
      bound := Some(slots[device]);
    }

    /** One device of `_sweep_expired_host_key_prompts`; the session to close, if any. */
    method SweepPrompt(device: Device, now: real) returns (expired: Option<Generation>)
      requires Inv(State())
      modifies this
      ensures State() == Step(old(State()), Sweep(device, now)) && Inv(State())
      ensures expired == if Expired(old(State()), device, now) && PromptersOwn(old(State()), device)
                         then Some(old(prompts)[device].generation) else None
      ensures slots == old(slots) && sessions == old(sessions)
      ensures prompts == if device in old(prompts) && now - old(prompts)[device].createdAt >= 300.0
                         then old(prompts) - {device} else old(prompts)
    {
      StepKeepsInv(State(), Sweep(device, now));
      if device !in prompts || now - prompts[device].createdAt < HOST_KEY_PENDING_SECONDS {
        return None;
      }
      var prompt := prompts[device];
      prompts := prompts - {device};
      if device in slots && slots[device] == prompt.generation && sessions[slots[device]].state == HostKeyPending {
        return Some(slots[device]);
      }
      expired := None;
    }
  }
}
