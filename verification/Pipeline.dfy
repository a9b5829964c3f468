/** From SSH workers to browser sockets (ssh_manager.py, ws_manager.py): order
    of generations and gap-free refresh. */
module Pipelines {
  import opened Common

  type Device = string
  type Owner = string
  type RunId = nat
  type SocketId = nat

  /** What a frame carries: one terminal batch, the init frame of a socket with
      the watermark of every run it shows, or anything else. */
  datatype Body = Batch(run: RunId, number: nat) | Init(marks: map<RunId, nat>) | Other

  /** `generation` is the `_gen` stamp, `owner` the `_owner` key. */
  datatype Frame = Frame(device: Device, generation: Option<nat>, owner: Option<Owner>, body: Body)

  datatype Slot = Slot(generation: nat, owner: Owner)

  /** One command run of one session: batches fed to its history, admitted to
      the delivery queue, and handed on to the socket queues. */
  datatype Run = Run(device: Device, generation: nat, owner: Owner, fed: nat, pushed: nat, delivered: nat)

  /** A socket: its held or running queue, the frame between its currency check
      and `send_text`, everything handed to it, the watermarks its init frame is
      being built from, and how far each run was when the socket registered. */
  datatype Socket = Socket(owner: Owner, ready: bool, queue: seq<Frame>, sending: Option<Frame>, handed: seq<Frame>,
                           marks: map<RunId, nat>, base: map<RunId, nat>)

  datatype Flight = NoFlight | Popped(frame: Frame) | Checked(frame: Frame)

  /** `closing`: the delivery queue has been shut down and takes nothing more. */
  datatype State = State(counter: nat, slots: map<Device, Slot>, runs: map<RunId, Run>, queue: seq<Frame>,
                         closing: bool, flight: Flight, sockets: map<SocketId, Socket>)

  const EMPTY := State(0, map[], map[], [], false, NoFlight, map[])

  datatype Action =
    | Install(device: Device, owner: Owner)
    | Vacate(device: Device)
    | StartRun(run: RunId, device: Device)
    | Feed(run: RunId)
    | PushBatch(run: RunId)
    | PushOther(frame: Frame)
    | Shutdown
    | PopFrame
    | CheckFrame
    | FanOut(overflowing: set<SocketId>)
    | Connect(socket: SocketId, owner: Owner)
    | TakeMark(socket: SocketId, run: RunId)
    | SendInit(socket: SocketId)
    | SendDirect(socket: SocketId, frame: Frame)
    | Dequeue(socket: SocketId)
    | Hand(socket: SocketId)
    | Drop(socket: SocketId)

  /** Whether the slot of the frame's device still holds its generation. */
  predicate CurrentIn(slots: map<Device, Slot>, frame: Frame) {
    frame.generation.None? || (frame.device in slots && slots[frame.device].generation == frame.generation.value)
  }

  predicate Current(s: State, frame: Frame) { CurrentIn(s.slots, frame) }

  /** The run's session is the one in its device's slot. */
  predicate Live(s: State, r: RunId) {
    r in s.runs && s.runs[r].device in s.slots && s.slots[s.runs[r].device].generation == s.runs[r].generation
  }

  function BatchFrame(run: Run, r: RunId, number: nat): Frame {
    Frame(run.device, Some(run.generation), Some(run.owner), Batch(r, number))
  }

  function InitFrame(marks: map<RunId, nat>): Frame { Frame("", None, None, Init(marks)) }

  /** A frame with an owner goes to that owner's sockets, any other to all. */
  predicate Routed(frame: Frame, socket: Socket) {
    frame.owner.None? || frame.owner.value == socket.owner
  }

  function Enqueue(socket: Socket, frame: Frame): Socket { socket.(queue := socket.queue + [frame]) }

  /** The sender takes the head of its queue and keeps it if it is still current. */
  function Dequeued(s: State, socket: Socket): Socket
    requires socket.queue != []
  {
    socket.(queue := socket.queue[1..], sending := if Current(s, socket.queue[0]) then Some(socket.queue[0]) else None)
  }

  predicate Enabled(s: State, a: Action) {
    match a
    case Install(_, _) => true
    case Vacate(device) => device in s.slots
    case StartRun(r, device) => r !in s.runs && device in s.slots
    case Feed(r) => Live(s, r) && (s.closing || s.runs[r].fed == s.runs[r].pushed)
    case PushBatch(r) => !s.closing && r in s.runs && s.runs[r].fed == s.runs[r].pushed + 1
    case Shutdown => true
    case PushOther(frame) =>
      !s.closing && frame.body.Other? && (frame.generation.Some? ==> frame.generation.value <= s.counter)
    case PopFrame => s.flight.NoFlight? && s.queue != []
    case CheckFrame => s.flight.Popped?
    case FanOut(_) => s.flight.Checked?
    case Connect(k, _) => k !in s.sockets
    case TakeMark(k, r) => k in s.sockets && !s.sockets[k].ready && Live(s, r) && s.runs[r].owner == s.sockets[k].owner
    case SendInit(k) => k in s.sockets && !s.sockets[k].ready
    case SendDirect(k, frame) => k in s.sockets && frame.body.Other? && frame.generation.None? && frame.owner.None?
    case Dequeue(k) => k in s.sockets && s.sockets[k].ready && s.sockets[k].sending.None? && s.sockets[k].queue != []
    case Hand(k) => k in s.sockets && s.sockets[k].sending.Some?
    case Drop(k) => k in s.sockets
  }

  /** `_broadcast`: queue the frame on every socket it is for; a socket whose
      queue would overflow is closed and dropped instead. */
  function Fan(sockets: map<SocketId, Socket>, frame: Frame, overflowing: set<SocketId>): map<SocketId, Socket> {
    map k | k in sockets && !(Routed(frame, sockets[k]) && k in overflowing) ::
      if Routed(frame, sockets[k]) then Enqueue(sockets[k], frame) else sockets[k]
  }

  function CountDelivered(runs: map<RunId, Run>, frame: Frame): map<RunId, Run> {
    if frame.body.Batch? && frame.body.run in runs then
      var r := frame.body.run; runs[r := runs[r].(delivered := runs[r].delivered + 1)]
    else runs
  }

  function Step(s: State, a: Action): State
    requires Enabled(s, a)
  {
    match a
    case Install(device, owner) => s.(counter := s.counter + 1, slots := s.slots[device := Slot(s.counter + 1, owner)])
    case Vacate(device) => s.(slots := s.slots - {device})
    case StartRun(r, device) =>
      s.(runs := s.runs[r := Run(device, s.slots[device].generation, s.slots[device].owner, 0, 0, 0)])
    case Feed(r) => s.(runs := s.runs[r := s.runs[r].(fed := s.runs[r].fed + 1)])
    case PushBatch(r) =>
      var run := s.runs[r];
      s.(queue := s.queue + [BatchFrame(run, r, run.fed)], runs := s.runs[r := run.(pushed := run.fed)])
    case PushOther(frame) => s.(queue := s.queue + [frame])
    case Shutdown => s.(closing := true)
    case PopFrame => s.(queue := s.queue[1..], flight := Popped(s.queue[0]))
    case CheckFrame => s.(flight := if Current(s, s.flight.frame) then Checked(s.flight.frame) else NoFlight)
    case FanOut(overflowing) =>
      s.(sockets := Fan(s.sockets, s.flight.frame, overflowing), runs := CountDelivered(s.runs, s.flight.frame),
          flight := NoFlight)
    case Connect(k, owner) =>
      s.(sockets := s.sockets[k := Socket(owner, false, [], None, [], map[],
          map r | r in s.runs :: s.runs[r].delivered)])
    case TakeMark(k, r) => s.(sockets := s.sockets[k := s.sockets[k].(marks := s.sockets[k].marks[r := s.runs[r].fed])])
    case SendInit(k) =>
      s.(sockets := s.sockets[k := s.sockets[k].(ready := true,
          queue := [InitFrame(s.sockets[k].marks)] + s.sockets[k].queue)])
    case SendDirect(k, frame) => s.(sockets := s.sockets[k := Enqueue(s.sockets[k], frame)])
    case Dequeue(k) =>
      s.(sockets := s.sockets[k := Dequeued(s, s.sockets[k])])
    case Hand(k) =>
      var socket := s.sockets[k];
      s.(sockets := s.sockets[k := socket.(sending := None, handed := socket.handed + [socket.sending.value])])
    case Drop(k) => s.(sockets := s.sockets - {k})
  }

  // ---- runs ------------------------------------------------------------------

  ghost predicate IsRun(s: State, actions: seq<Action>)
    decreases |actions|
  {
    actions == [] || (Enabled(s, actions[0]) && IsRun(Step(s, actions[0]), actions[1..]))
  }

  function After(s: State, actions: seq<Action>): State
    requires IsRun(s, actions)
    decreases |actions|
  {
    if actions == [] then s else After(Step(s, actions[0]), actions[1..])
  }

  lemma Prepended(s: State, a: Action, rest: seq<Action>)
    requires Enabled(s, a) && IsRun(Step(s, a), rest)
    ensures IsRun(s, [a] + rest) && After(s, [a] + rest) == After(Step(s, a), rest)
  {
    hide Step, Enabled;
    assert ([a] + rest)[0] == a && ([a] + rest)[1..] == rest;
  }

  // ---- generation order --------------------------------------------------------

  /** The frame is stamped for this device. */
  predicate Stamped(frame: Frame, d: Device) { frame.device == d && frame.generation.Some? }

  /** Stamps of one device never go down along the list. */
  predicate Ascending(frames: seq<Frame>, d: Device) {
    forall i, j :: 0 <= i < j < |frames| && Stamped(frames[i], d) && Stamped(frames[j], d) ==>
      frames[i].generation.value <= frames[j].generation.value
  }

  function Opt(frame: Option<Frame>): seq<Frame> { if frame.Some? then [frame.value] else [] }

  /** Handed and about to be handed. */
  function Out(socket: Socket): seq<Frame> { socket.handed + Opt(socket.sending) }

  /** No stamp that passed a check is newer than the slot, or than any session yet. */
  predicate Passed(s: State, frames: seq<Frame>, d: Device) {
    forall i :: 0 <= i < |frames| && Stamped(frames[i], d) ==>
      frames[i].generation.value <= s.counter && (d in s.slots ==> frames[i].generation.value <= s.slots[d].generation)
  }

  ghost predicate OrderInv(s: State) {
    && (forall d :: d in s.slots ==> s.slots[d].generation <= s.counter)
    && forall k, d :: k in s.sockets ==> Ascending(Out(s.sockets[k]), d) && Passed(s, Out(s.sockets[k]), d)
  }

  lemma OutAfterCheck(s: State, k: SocketId, frame: Frame, d: Device)
    requires OrderInv(s) && k in s.sockets && s.sockets[k].sending.None? && Current(s, frame)
    ensures Ascending(s.sockets[k].handed + [frame], d) && Passed(s, s.sockets[k].handed + [frame], d)
  {
    var frames := s.sockets[k].handed + [frame];
    assert Out(s.sockets[k]) == s.sockets[k].handed;
    assert Ascending(s.sockets[k].handed, d) && Passed(s, s.sockets[k].handed, d);
  }

  lemma StepKeepsOrder(s: State, a: Action)
    requires OrderInv(s) && Enabled(s, a)
    ensures OrderInv(Step(s, a))
  {
    var n := Step(s, a);
    forall k, d | k in n.sockets ensures Ascending(Out(n.sockets[k]), d) && Passed(n, Out(n.sockets[k]), d) {
      SocketKeepsOrder(s, a, k, d);
    }
  }

  lemma SocketKeepsOrder(s: State, a: Action, k: SocketId, d: Device)
    requires OrderInv(s) && Enabled(s, a) && k in Step(s, a).sockets
    ensures Ascending(Out(Step(s, a).sockets[k]), d) && Passed(Step(s, a), Out(Step(s, a).sockets[k]), d)
  {
    var n := Step(s, a);
    if a.Dequeue? && a.socket == k && Current(s, s.sockets[k].queue[0]) {
      OutAfterCheck(s, k, s.sockets[k].queue[0], d);
    } else if k in s.sockets {
      OutIsKept(s, a, k);
      assert Ascending(Out(s.sockets[k]), d) && Passed(s, Out(s.sockets[k]), d);
    }
  }

  /** Only a dequeue that passes its check extends what goes out. */
  lemma OutIsKept(s: State, a: Action, k: SocketId)
    requires Enabled(s, a) && k in s.sockets && k in Step(s, a).sockets
    requires !(a.Dequeue? && a.socket == k && Current(s, s.sockets[k].queue[0]))
    ensures Out(Step(s, a).sockets[k]) == Out(s.sockets[k])
  {
  }

  lemma {:induction false} RunKeepsOrder(s: State, actions: seq<Action>)
    requires OrderInv(s) && IsRun(s, actions)
    ensures OrderInv(After(s, actions))
    decreases |actions|
  {
    if actions != [] {
      StepKeepsOrder(s, actions[0]);
      RunKeepsOrder(Step(s, actions[0]), actions[1..]);
    }
  }

  /** In every interleaving of connects, closes, pushes, drains and sends, the
      stamped frames of one device reach each socket in non-decreasing order of
      generation. */
  lemma HandedInGenerationOrder(actions: seq<Action>, k: SocketId, d: Device)
    requires IsRun(EMPTY, actions) && k in After(EMPTY, actions).sockets
    ensures Ascending(After(EMPTY, actions).sockets[k].handed, d)
  {
    RunKeepsOrder(EMPTY, actions);
    var socket := After(EMPTY, actions).sockets[k];
    assert Ascending(Out(socket), d);
    assert forall i :: 0 <= i < |socket.handed| ==> Out(socket)[i] == socket.handed[i];
  }

  lemma {:induction false} RunSplits(s: State, actions: seq<Action>, n: nat)
    requires IsRun(s, actions) && n <= |actions|
    ensures IsRun(s, actions[..n]) && IsRun(After(s, actions[..n]), actions[n..])
    ensures After(After(s, actions[..n]), actions[n..]) == After(s, actions)
    decreases n
  {
    hide Step, Enabled;
    if n == 0 {
      assert actions[..0] == [] && actions[0..] == actions;
    } else {
      assert actions[..n][0] == actions[0] && actions[..n][1..] == actions[1..][..n - 1] &&
          actions[1..][n - 1..] == actions[n..];
      RunSplits(Step(s, actions[0]), actions[1..], n - 1);
    }
  }

  /** Step `n` of the run is a dequeue at this socket that takes this frame, and the
      frame's session is in its device's slot then. */
  ghost predicate PassedCheck(s: State, actions: seq<Action>, k: SocketId, frame: Frame, n: nat)
    requires IsRun(s, actions)
  {
    && n < |actions| && actions[n] == Dequeue(k)
    && (RunSplits(s, actions, n);
        var m := After(s, actions[..n]);
        k in m.sockets && m.sockets[k].queue != [] && m.sockets[k].queue[0] == frame && Current(m, frame))
  }

  lemma PassedEarlier(s: State, actions: seq<Action>, m: nat, k: SocketId, frame: Frame, n: nat)
    requires IsRun(s, actions) && m <= |actions| && IsRun(s, actions[..m]) && PassedCheck(s, actions[..m], k, frame, n)
    ensures PassedCheck(s, actions, k, frame, n)
  {
    hide Step, Enabled, IsRun, After, Current;
    assert actions[..m][..n] == actions[..n];
  }

  lemma LastStep(s: State, actions: seq<Action>)
    requires IsRun(s, actions) && actions != []
    ensures var m := |actions| - 1; IsRun(s, actions[..m]) && Enabled(After(s, actions[..m]), actions[m])
                                    && After(s, actions) == Step(After(s, actions[..m]), actions[m])
  {
    var m := |actions| - 1;
    RunSplits(s, actions, m);
    hide Step, Enabled;
    assert actions[m..] == [actions[m]] && [actions[m]][1..] == [];
  }

  /** Every frame handed to a socket, or about to be, was taken from its queue by a
      dequeue that found its session in its device's slot. */
  lemma {:induction false} HandedWasCurrent(actions: seq<Action>, k: SocketId, frame: Frame) returns (n: nat)
    requires IsRun(EMPTY, actions) && k in After(EMPTY, actions).sockets
    requires frame in Out(After(EMPTY, actions).sockets[k])
    ensures PassedCheck(EMPTY, actions, k, frame, n)
    decreases |actions|
  {
    assert actions != [];
    var m := |actions| - 1;
    LastStep(EMPTY, actions);
    var before, a := After(EMPTY, actions[..m]), actions[m];
    if k in before.sockets && frame in Out(before.sockets[k]) {
      n := HandedWasCurrent(actions[..m], k, frame);
      PassedEarlier(EMPTY, actions, m, k, frame, n);
    } else {
      OutGrows(before, a, k, frame);
      n := m;
    }
  }

  /** Only a dequeue that passes its check puts a frame on its way out. */
  lemma OutGrows(s: State, a: Action, k: SocketId, frame: Frame)
    requires Enabled(s, a) && k in Step(s, a).sockets && frame in Out(Step(s, a).sockets[k])
    requires k in s.sockets ==> frame !in Out(s.sockets[k])
    ensures a == Dequeue(k) && k in s.sockets && s.sockets[k].queue != [] && s.sockets[k].queue[0] == frame &&
            Current(s, frame)
  {
    if k in s.sockets && !(a.Dequeue? && a.socket == k && Current(s, s.sockets[k].queue[0])) { OutIsKept(s, a, k); }
  }

  /** Step `n` of the run is the check of this frame at delivery, and the frame's session
      is in its device's slot then. */
  ghost predicate PassedDelivery(s: State, actions: seq<Action>, frame: Frame, n: nat)
    requires IsRun(s, actions)
  {
    && n < |actions| && actions[n] == CheckFrame
    && (RunSplits(s, actions, n);
        var m := After(s, actions[..n]);
        m.flight == Popped(frame) && Current(m, frame))
  }

  lemma DeliveryEarlier(s: State, actions: seq<Action>, m: nat, frame: Frame, n: nat)
    requires IsRun(s, actions) && m <= |actions| && IsRun(s, actions[..m]) && PassedDelivery(s, actions[..m], frame, n)
    ensures PassedDelivery(s, actions, frame, n)
  {
    hide Step, Enabled, IsRun, After, Current;
    assert actions[..m][..n] == actions[..n];
  }

  /** Only a check that finds the frame's session in its slot lets it on. */
  lemma CheckedByCheck(s: State, a: Action, frame: Frame)
    requires Enabled(s, a) && Step(s, a).flight == Checked(frame) && s.flight != Checked(frame)
    ensures a == CheckFrame && s.flight == Popped(frame) && Current(s, frame)
  {
  }

  /** No frame is handed to the sockets' queues unless its session was in its device's
      slot when the delivery loop looked. */
  lemma {:induction false} FannedOutWasCurrent(actions: seq<Action>, frame: Frame) returns (n: nat)
    requires IsRun(EMPTY, actions) && After(EMPTY, actions).flight == Checked(frame)
    ensures PassedDelivery(EMPTY, actions, frame, n)
    decreases |actions|
  {
    assert actions != [];
    var m := |actions| - 1;
    LastStep(EMPTY, actions);
    var before, a := After(EMPTY, actions[..m]), actions[m];
    if before.flight == Checked(frame) {
      n := FannedOutWasCurrent(actions[..m], frame);
      DeliveryEarlier(EMPTY, actions, m, frame, n);
    } else {
      CheckedByCheck(before, a, frame);
      n := m;
    }
  }

  // ---- gap-free refresh -----------------------------------------------------------

  /** The batch numbers of one run in a list of frames, in order. */
  function Numbers(r: RunId, frames: seq<Frame>): seq<nat> {
    if frames == [] then []
    else
      var first := if frames[0].body.Batch? && frames[0].body.run == r then [frames[0].body.number] else [];
      first + Numbers(r, frames[1..])
  }

  /** The numbers after `low` up to and with `high`. */
  function Range(low: nat, high: nat): seq<nat>
    decreases high
  {
    if high <= low then [] else Range(low, high - 1) + [high]
  }

  function Flying(s: State): seq<Frame> { if s.flight.NoFlight? then [] else [s.flight.frame] }

  /** The frames between the workers and the socket queues. */
  function Pipe(s: State): seq<Frame> { Flying(s) + s.queue }

  /** Everything one socket has been given so far. */
  function All(socket: Socket): seq<Frame> { Out(socket) + socket.queue }

  function Base(socket: Socket, r: RunId): nat { if r in socket.base then socket.base[r] else 0 }

  /** Batches travel under their run's stamp and owner. */
  predicate WellStamped(s: State, frame: Frame) {
    frame.body.Batch? ==>
      frame.body.run in s.runs && frame == BatchFrame(s.runs[frame.body.run], frame.body.run, frame.body.number)
  }

  predicate AllStamped(s: State, frames: seq<Frame>) { forall i :: 0 <= i < |frames| ==> WellStamped(s, frames[i]) }

  predicate NoInit(frames: seq<Frame>) { forall i :: 0 <= i < |frames| ==> !frames[i].body.Init? }

  /** A live run's batches between the worker and the sockets have no gap. */
  predicate RunInv(s: State, r: RunId) {
    if r !in s.runs then Numbers(r, Pipe(s)) == []
    else
      && s.runs[r].generation <= s.counter
      && s.runs[r].pushed <= s.runs[r].fed && (s.closing || s.runs[r].fed <= s.runs[r].pushed + 1)
      && (Live(s, r) ==> (
            && s.runs[r].delivered <= s.runs[r].pushed
            && Numbers(r, Pipe(s)) == Range(s.runs[r].delivered, s.runs[r].pushed)))
  }

  predicate Watches(s: State, k: SocketId, r: RunId) {
    k in s.sockets && Live(s, r) && s.sockets[k].owner == s.runs[r].owner
  }

  /** A socket of the run's owner has every batch since it registered, in order. */
  predicate SocketInv(s: State, k: SocketId, r: RunId) {
    && (k in s.sockets && r !in s.runs ==> (
          Numbers(r, All(s.sockets[k])) == [] && r !in s.sockets[k].base && r !in s.sockets[k].marks))
    && (Watches(s, k, r) ==> (
          && Base(s.sockets[k], r) <= s.runs[r].delivered
          && Numbers(r, All(s.sockets[k])) == Range(Base(s.sockets[k], r), s.runs[r].delivered)
          && (r in s.sockets[k].marks ==> Base(s.sockets[k], r) <= s.sockets[k].marks[r] <= s.runs[r].fed)))
  }

  /** Nothing goes out before the init frame, which comes first and once. */
  predicate InitInv(socket: Socket) {
    if socket.ready then All(socket) != [] && All(socket)[0] == InitFrame(socket.marks) && NoInit(All(socket)[1..])
    else Out(socket) == [] && NoInit(socket.queue)
  }

  ghost predicate FramesInv(s: State) {
    && AllStamped(s, Pipe(s)) && NoInit(Pipe(s))
    && (forall d :: d in s.slots ==> s.slots[d].generation <= s.counter)
    && (forall k :: k in s.sockets ==> AllStamped(s, s.sockets[k].queue))
  }

  ghost predicate GapInv(s: State) {
    && FramesInv(s)
    && (forall r :: RunInv(s, r))
    && (forall k, r :: SocketInv(s, k, r))
    && (forall k :: k in s.sockets ==> InitInv(s.sockets[k]))
  }

  lemma {:induction false} NumbersConcat(r: RunId, a: seq<Frame>, b: seq<Frame>)
    ensures Numbers(r, a + b) == Numbers(r, a) + Numbers(r, b)
  {
    if a == [] {
      assert a + b == b;
    } else {
      assert (a + b)[0] == a[0] && (a + b)[1..] == a[1..] + b;
      NumbersConcat(r, a[1..], b);
    }
  }

  predicate Carries(frame: Frame, r: RunId) { frame.body.Batch? && frame.body.run == r }

  lemma NumbersSnoc(r: RunId, frames: seq<Frame>, frame: Frame)
    ensures Numbers(r, frames + [frame]) == Numbers(r, frames) + if Carries(frame, r) then [frame.body.number] else []
  {
    NumbersConcat(r, frames, [frame]);
    assert [frame][1..] == [];
  }

  lemma NumbersHead(r: RunId, frames: seq<Frame>)
    requires frames != []
    ensures Numbers(r, frames) == (if Carries(frames[0], r) then [frames[0].body.number] else []) +
            Numbers(r, frames[1..])
  {
  }

  /** Taking out a frame that is not a batch of the run changes nothing. */
  lemma NumbersSkip(r: RunId, a: seq<Frame>, b: seq<Frame>)
    requires b != [] && !Carries(b[0], r)
    ensures Numbers(r, a + b[1..]) == Numbers(r, a + b)
  {
    hide Numbers;
    NumbersHead(r, b);
    NumbersConcat(r, a, b);
    NumbersConcat(r, a, b[1..]);
  }

  lemma {:induction false} RangeHead(low: nat, high: nat)
    requires low < high
    ensures Range(low, high) == [low + 1] + Range(low + 1, high)
  {
    if low + 1 < high { RangeHead(low, high - 1); }
  }

  /** How one step moves the frames between workers and sockets. */
  lemma PipeStep(s: State, a: Action)
    requires Enabled(s, a)
    ensures a.PushBatch? ==> Pipe(Step(s, a)) == Pipe(s) + [BatchFrame(s.runs[a.run], a.run, s.runs[a.run].fed)]
    ensures a.PushOther? ==> Pipe(Step(s, a)) == Pipe(s) + [a.frame]
    ensures a.FanOut? ==> Pipe(s) == [s.flight.frame] + Pipe(Step(s, a))
    ensures a.CheckFrame? && !Current(s, s.flight.frame) ==> Pipe(s) == [s.flight.frame] + Pipe(Step(s, a))
    ensures a.FanOut? || a.CheckFrame? ==> Pipe(s) != [] && Pipe(s)[0] == s.flight.frame
    ensures a.CheckFrame? && Current(s, s.flight.frame) ==> Pipe(Step(s, a)) == Pipe(s)
    ensures !a.PushBatch? && !a.PushOther? && !a.FanOut? && !a.CheckFrame? ==> Pipe(Step(s, a)) == Pipe(s)
  {
  }

  /** A run keeps its device, generation and owner. */
  predicate SameRun(s: State, n: State, r: RunId) {
    && r in s.runs && r in n.runs && n.runs[r].device == s.runs[r].device
    && n.runs[r].generation == s.runs[r].generation && n.runs[r].owner == s.runs[r].owner
  }

  lemma RunStays(s: State, a: Action, r: RunId)
    requires Enabled(s, a) && r in s.runs
    ensures SameRun(s, Step(s, a), r)
  {
  }

  /** A session that left its slot never comes back to it. */
  lemma NeverLiveAgain(s: State, a: Action, r: RunId)
    requires Enabled(s, a) && r in s.runs && s.runs[r].generation <= s.counter && Live(Step(s, a), r)
    ensures Live(s, r)
  {
    RunStays(s, a, r);
  }

  lemma StampStays(s: State, a: Action, frame: Frame)
    requires Enabled(s, a) && WellStamped(s, frame)
    ensures WellStamped(Step(s, a), frame)
  {
    hide Step, Enabled;
    if frame.body.Batch? { RunStays(s, a, frame.body.run); }
  }

  lemma StampsStay(s: State, a: Action, frames: seq<Frame>)
    requires Enabled(s, a) && AllStamped(s, frames)
    ensures AllStamped(Step(s, a), frames)
  {
    hide Step, Enabled, WellStamped;
    forall i | 0 <= i < |frames| ensures WellStamped(Step(s, a), frames[i]) { StampStays(s, a, frames[i]); }
  }

  lemma PushedIsStamped(s: State, a: Action)
    requires Enabled(s, a) && a.PushBatch?
    ensures WellStamped(Step(s, a), BatchFrame(s.runs[a.run], a.run, s.runs[a.run].fed))
  {
  }

  lemma PipeKeepsStamps(s: State, a: Action)
    requires Enabled(s, a) && AllStamped(s, Pipe(s)) && NoInit(Pipe(s))
    ensures AllStamped(Step(s, a), Pipe(Step(s, a))) && NoInit(Pipe(Step(s, a)))
  {
    hide Step, Pipe, WellStamped;
    PipeStep(s, a);
    StampsStay(s, a, Pipe(s));
    if a.PushBatch? {
      PushedIsStamped(s, a);
    } else if a.PushOther? {
      assert a.frame.body.Other?;
      assert WellStamped(Step(s, a), a.frame) by { OtherIsStamped(Step(s, a), a.frame); }
    } else if a.FanOut? || (a.CheckFrame? && !Current(s, s.flight.frame)) {
      var n := Pipe(Step(s, a));
      forall i | 0 <= i < |n| ensures WellStamped(Step(s, a), n[i]) && !n[i].body.Init? {
        assert Pipe(s)[i + 1] == n[i];
      }
    }
  }

  lemma OtherIsStamped(s: State, frame: Frame)
    requires !frame.body.Batch?
    ensures WellStamped(s, frame)
  {
  }

  /** The queue of one socket after a step: the old one, one frame more, or one less. */
  lemma QueueStep(s: State, a: Action, k: SocketId)
    requires Enabled(s, a) && k in s.sockets && k in Step(s, a).sockets
    ensures var q, n := s.sockets[k].queue, Step(s, a).sockets[k].queue;
            || n == q
            || (a.FanOut? && n == q + [s.flight.frame])
            || (a.SendDirect? && n == q + [a.frame])
            || (a.SendInit? && n == [InitFrame(s.sockets[k].marks)] + q)
            || (a.Dequeue? && q != [] && n == q[1..])
  {
    SocketStep(s, a, k);
    hide Step, Routed, Current;
  }

  lemma QueueKeepsStamps(s: State, a: Action, k: SocketId)
    requires Enabled(s, a) && k in Step(s, a).sockets && AllStamped(s, Pipe(s))
    requires k in s.sockets ==> AllStamped(s, s.sockets[k].queue)
    ensures AllStamped(Step(s, a), Step(s, a).sockets[k].queue)
  {
    if k in s.sockets {
      hide Step, WellStamped;
      QueueStep(s, a, k);
      StampsStay(s, a, s.sockets[k].queue);
      if a.FanOut? {
        assert Pipe(s)[0] == s.flight.frame;
        StampStays(s, a, s.flight.frame);
      } else if a.SendDirect? {
        OtherIsStamped(Step(s, a), a.frame);
      } else if a.SendInit? {
        OtherIsStamped(Step(s, a), InitFrame(s.sockets[k].marks));
      }
    }
  }

  lemma StepKeepsFrames(s: State, a: Action)
    requires Enabled(s, a) && FramesInv(s)
    ensures FramesInv(Step(s, a))
  {
    var n := Step(s, a);
    SlotsStayOld(s, a);
    hide Step, AllStamped, NoInit, Pipe;
    PipeKeepsStamps(s, a);
    forall k | k in n.sockets ensures AllStamped(n, n.sockets[k].queue) { QueueKeepsStamps(s, a, k); }
  }

  lemma SlotsStayOld(s: State, a: Action)
    requires Enabled(s, a) && forall d :: d in s.slots ==> s.slots[d].generation <= s.counter
    ensures s.counter <= Step(s, a).counter
    ensures forall d :: d in Step(s, a).slots ==> Step(s, a).slots[d].generation <= Step(s, a).counter
  {
  }

  /** The counters of one run after a step. */
  lemma CountsStep(s: State, a: Action, r: RunId)
    requires Enabled(s, a) && r in s.runs && r in Step(s, a).runs
    ensures Step(s, a).runs[r] ==
            if a == Feed(r) then s.runs[r].(fed := s.runs[r].fed + 1)
            else if a == PushBatch(r) then s.runs[r].(pushed := s.runs[r].fed)
            else if a.FanOut? && Carries(s.flight.frame, r) then s.runs[r].(delivered := s.runs[r].delivered + 1)
            else s.runs[r]
  {
  }

  /** The batch leaving the pipe of a live run is the next one after those delivered. */
  lemma HeadIsNext(s: State, r: RunId)
    requires r in s.runs && RunInv(s, r) && Live(s, r) && Pipe(s) != []
    ensures Carries(Pipe(s)[0], r) ==> (
              && Pipe(s)[0].body.number == s.runs[r].delivered + 1 && s.runs[r].delivered < s.runs[r].pushed
              && Numbers(r, Pipe(s)[1..]) == Range(s.runs[r].delivered + 1, s.runs[r].pushed))
    ensures !Carries(Pipe(s)[0], r) ==> Numbers(r, Pipe(s)[1..]) == Range(s.runs[r].delivered, s.runs[r].pushed)
  {
    hide Pipe, Numbers;
    var run := s.runs[r];
    NumbersHead(r, Pipe(s));
    if Carries(Pipe(s)[0], r) {
      assert Range(run.delivered, run.pushed) != [];
      RangeHead(run.delivered, run.pushed);
      assert Numbers(r, Pipe(s))[1..] == Numbers(r, Pipe(s)[1..]);
      assert Range(run.delivered, run.pushed)[1..] == Range(run.delivered + 1, run.pushed);
    }
  }

  /** A live run's batch always passes its currency check. */
  lemma LiveIsCurrent(s: State, frame: Frame, r: RunId)
    requires WellStamped(s, frame) && Carries(frame, r) && Live(s, r)
    ensures Current(s, frame)
  {
  }

  lemma NumbersOfPipe(s: State, a: Action, r: RunId)
    requires Enabled(s, a)
    ensures Numbers(r, Pipe(Step(s, a))) ==
            if a == PushBatch(r) then Numbers(r, Pipe(s)) + [s.runs[r].fed]
            else if a.FanOut? || (a.CheckFrame? && !Current(s, s.flight.frame)) then Numbers(r, Pipe(s)[1..])
            else Numbers(r, Pipe(s))
  {
    hide Step, Pipe, Numbers;
    PipeStep(s, a);
    if a.PushBatch? {
      NumbersSnoc(r, Pipe(s), BatchFrame(s.runs[a.run], a.run, s.runs[a.run].fed));
    } else if a.PushOther? {
      NumbersSnoc(r, Pipe(s), a.frame);
    } else if a.FanOut? || (a.CheckFrame? && !Current(s, s.flight.frame)) {
      assert Pipe(s)[1..] == Pipe(Step(s, a));
    }
  }

  lemma StartedRun(s: State, a: Action, r: RunId)
    requires Enabled(s, a) && r !in s.runs
    ensures r in Step(s, a).runs <==> a.StartRun? && a.run == r
    ensures r in Step(s, a).runs ==> var run := Step(s, a).runs[r];
      run.fed == 0 && run.pushed == 0 && run.delivered == 0 && a.device in s.slots &&
          run.generation == s.slots[a.device].generation
      && Step(s, a).counter == s.counter
  {
  }

  lemma StepKeepsRun(s: State, a: Action, r: RunId)
    requires Enabled(s, a) && FramesInv(s) && RunInv(s, r)
    ensures RunInv(Step(s, a), r)
  {
    if r in s.runs { RunGoesOn(s, a, r); } else { RunBegins(s, a, r); }
  }

  lemma RunBegins(s: State, a: Action, r: RunId)
    requires Enabled(s, a) && FramesInv(s) && RunInv(s, r) && r !in s.runs
    ensures RunInv(Step(s, a), r)
  {
    hide Step, Pipe, Numbers, AllStamped, NoInit;
    NumbersOfPipe(s, a, r);
    StartedRun(s, a, r);
    if Pipe(s) != [] { NumbersHead(r, Pipe(s)); }
    assert a.FanOut? || a.CheckFrame? ==> Pipe(s) != [] by { PipeStep(s, a); }
  }

  lemma FedAndPushed(s: State, a: Action, r: RunId)
    requires Enabled(s, a) && r in s.runs && r in Step(s, a).runs
    requires s.runs[r].pushed <= s.runs[r].fed && (s.closing || s.runs[r].fed <= s.runs[r].pushed + 1)
    ensures var n := Step(s, a);
            n.runs[r].pushed <= n.runs[r].fed && (n.closing || n.runs[r].fed <= n.runs[r].pushed + 1)
  {
    CountsStep(s, a, r);
    hide Live, Current;
  }

  lemma RunGoesOn(s: State, a: Action, r: RunId)
    requires Enabled(s, a) && FramesInv(s) && RunInv(s, r) && r in s.runs
    ensures RunInv(Step(s, a), r)
  {
    var n := Step(s, a);
    hide Step, Pipe, Numbers, Range, AllStamped, NoInit, Live;
    SlotsStayOld(s, a);
    RunStays(s, a, r);
    FedAndPushed(s, a, r);
    if Live(n, r) {
      NeverLiveAgain(s, a, r);
      PipeOfLiveRun(s, a, r);
    }
  }

  lemma PipeOfLiveRun(s: State, a: Action, r: RunId)
    requires Enabled(s, a) && FramesInv(s) && RunInv(s, r) && Live(s, r) && r in Step(s, a).runs
    ensures var run := Step(s, a).runs[r];
            run.delivered <= run.pushed && Numbers(r, Pipe(Step(s, a))) == Range(run.delivered, run.pushed)
  {
    hide Step, Pipe, Numbers, NoInit;
    CountsStep(s, a, r);
    NumbersOfPipe(s, a, r);
    PipeStep(s, a);
    if a.FanOut? || (a.CheckFrame? && !Current(s, s.flight.frame)) {
      HeadIsNext(s, r);
      if Carries(s.flight.frame, r) { LiveIsCurrent(s, s.flight.frame, r); }
    }
  }

  /** What the delivery loop, an endpoint or a sender does to one socket. */
  lemma SocketStep(s: State, a: Action, k: SocketId)
    requires Enabled(s, a) && k in s.sockets && k in Step(s, a).sockets
    ensures var was, next := s.sockets[k], Step(s, a).sockets[k];
            if a.FanOut? then next == (if Routed(s.flight.frame, was) then Enqueue(was, s.flight.frame) else was)
            else if a.SendDirect? && a.socket == k then next == Enqueue(was, a.frame)
            else if a.SendInit? && a.socket == k then next ==
                was.(ready := true, queue := [InitFrame(was.marks)] + was.queue)
            else if a.Dequeue? && a.socket == k then next == Dequeued(s, was)
            else if a.Hand? && a.socket == k then next == was.(sending := None, handed := Out(was))
            else if a.TakeMark? && a.socket == k then next == was.(marks := was.marks[a.run := s.runs[a.run].fed])
            else next == was
  {
  }

  lemma DequeueKeepsAll(s: State, was: Socket)
    requires was.sending.None? && was.queue != []
    ensures All(was) == Out(was) + was.queue
    ensures All(Dequeued(s, was)) == if Current(s, was.queue[0]) then All(was) else Out(was) + was.queue[1..]
  {
  }

  lemma EnqueueGivesOne(was: Socket, frame: Frame)
    ensures All(Enqueue(was, frame)) == All(was) + [frame]
  {
  }

  lemma InitGivesOne(was: Socket)
    requires InitInv(was) && !was.ready
    ensures All(was.(ready := true, queue := [InitFrame(was.marks)] + was.queue)) == [InitFrame(was.marks)] + All(was)
  {
  }

  lemma HandKeepsAll(was: Socket)
    ensures All(was.(sending := None, handed := Out(was))) == All(was)
  {
  }

  /** What a step does to everything one socket has been given. */
  lemma AllStep(s: State, a: Action, k: SocketId)
    requires Enabled(s, a) && k in s.sockets && k in Step(s, a).sockets && InitInv(s.sockets[k])
    ensures var was, next := s.sockets[k], All(Step(s, a).sockets[k]);
            if a.FanOut? && Routed(s.flight.frame, was) then next == All(was) + [s.flight.frame]
            else if a.SendDirect? && a.socket == k then next == All(was) + [a.frame]
            else if a.SendInit? && a.socket == k then next == [InitFrame(was.marks)] + All(was)
            else if Skips(s, a, k) then All(was) == Out(was) + was.queue && next == Out(was) + was.queue[1..]
            else next == All(was)
  {
    SocketStep(s, a, k);
    var was := s.sockets[k];
    if a.Dequeue? && a.socket == k { DequeueKeepsAll(s, was); }
    if a.FanOut? { EnqueueGivesOne(was, s.flight.frame); }
    if a.SendDirect? { EnqueueGivesOne(was, a.frame); }
    if a.SendInit? && a.socket == k { InitGivesOne(was); }
    if a.Hand? && a.socket == k { HandKeepsAll(was); }
    if a.TakeMark? && a.socket == k { assert All(Step(s, a).sockets[k]) == All(was); }
    hide Step, NoInit, InitInv, Current, CurrentIn, Routed, Enabled, All, Out, Dequeued, Enqueue;
  }

  /** A sender drops the head of its queue because its session is gone. */
  predicate Skips(s: State, a: Action, k: SocketId) {
    a.Dequeue? && a.socket == k && k in s.sockets && s.sockets[k].queue != [] && !Current(s, s.sockets[k].queue[0])
  }

  lemma NumbersOfSocket(s: State, a: Action, k: SocketId, r: RunId)
    requires Enabled(s, a) && k in s.sockets && k in Step(s, a).sockets && InitInv(s.sockets[k])
    requires Skips(s, a, k) ==> !Carries(s.sockets[k].queue[0], r)
    ensures Numbers(r, All(Step(s, a).sockets[k])) == Numbers(r, All(s.sockets[k]))
            + if a.FanOut? && Routed(s.flight.frame, s.sockets[k]) && Carries(s.flight.frame, r)
              then [s.flight.frame.body.number] else []
  {
    var socket := s.sockets[k];
    AllStep(s, a, k);
    hide Step, Numbers, All, Out, Current;
    if a.FanOut? && Routed(s.flight.frame, socket) {
      NumbersSnoc(r, All(socket), s.flight.frame);
    } else if a.SendDirect? && a.socket == k {
      NumbersSnoc(r, All(socket), a.frame);
    } else if a.SendInit? && a.socket == k {
      InitHasNoBatch(r, socket.marks, All(socket));
    } else if Skips(s, a, k) {
      NumbersSkip(r, Out(socket), socket.queue);
    }
  }

  lemma InitHasNoBatch(r: RunId, marks: map<RunId, nat>, frames: seq<Frame>)
    ensures Numbers(r, [InitFrame(marks)] + frames) == Numbers(r, frames)
  {
    assert ([InitFrame(marks)] + frames)[1..] == frames;
  }

  /** No batch of a live run, or of a run yet to start, is dropped by a sender. */
  lemma SkipsNoBatch(s: State, a: Action, k: SocketId, r: RunId)
    requires Skips(s, a, k) && AllStamped(s, s.sockets[k].queue) && (r !in s.runs || Live(s, r))
    ensures !Carries(s.sockets[k].queue[0], r)
  {
    assert WellStamped(s, s.sockets[k].queue[0]);
  }

  /** What a step leaves of a socket that was there before. */
  lemma SocketStays(s: State, a: Action, k: SocketId)
    requires Enabled(s, a) && k in s.sockets && k in Step(s, a).sockets
    ensures var was, next := s.sockets[k], Step(s, a).sockets[k];
            && next.owner == was.owner && next.base == was.base
            && next.marks == (if a.TakeMark? && a.socket == k then was.marks[a.run := s.runs[a.run].fed] else was.marks)
  {
    SocketStep(s, a, k);
    hide Step, Routed, Current;
  }

  lemma SocketOpens(s: State, a: Action, k: SocketId)
    requires Enabled(s, a) && k !in s.sockets && k in Step(s, a).sockets
    ensures a.Connect? && Step(s, a).runs == s.runs && var socket := Step(s, a).sockets[k];
      All(socket) == [] && socket.marks == map[] && (forall r :: r in socket.base <==> r in s.runs)
      && forall r :: r in s.runs ==> socket.base[r] == s.runs[r].delivered
  {
  }

  lemma NewSocketHasAll(s: State, a: Action, k: SocketId, r: RunId)
    requires Enabled(s, a) && k !in s.sockets && k in Step(s, a).sockets
    ensures SocketInv(Step(s, a), k, r)
  {
    SocketOpens(s, a, k);
    hide Step, All;
  }

  /** A run that starts finds every socket without a batch of it. */
  lemma NewRunHasAll(s: State, a: Action, k: SocketId, r: RunId)
    requires Enabled(s, a) && FramesInv(s) && SocketInv(s, k, r) && r !in s.runs
    requires k in s.sockets && k in Step(s, a).sockets && InitInv(s.sockets[k])
    ensures SocketInv(Step(s, a), k, r)
  {
    if Skips(s, a, k) { SkipsNoBatch(s, a, k, r); }
    NumbersOfSocket(s, a, k, r);
    SocketStays(s, a, k);
    StartedRun(s, a, r);
    if a.FanOut? {
      PipeStep(s, a);
      assert WellStamped(s, Pipe(s)[0]);
    }
    hide Step, All, Pipe, Numbers, NoInit, AllStamped, Skips;
  }

  lemma WatchedRunHasAll(s: State, a: Action, k: SocketId, r: RunId)
    requires Enabled(s, a) && FramesInv(s) && RunInv(s, r) && SocketInv(s, k, r) && r in s.runs
    requires k in s.sockets && Watches(Step(s, a), k, r) && InitInv(s.sockets[k])
    ensures SocketInv(Step(s, a), k, r)
  {
    RunStays(s, a, r);
    NeverLiveAgain(s, a, r);
    SocketStays(s, a, k);
    CountsStep(s, a, r);
    BatchReaches(s, a, k, r);
    hide Step, All, Pipe, Numbers, Live, Range, NoInit, AllStamped, Skips;
  }

  lemma FlightIsStamped(s: State, a: Action)
    requires Enabled(s, a) && a.FanOut? && FramesInv(s)
    ensures WellStamped(s, s.flight.frame) && Pipe(s) != [] && Pipe(s)[0] == s.flight.frame
  {
    hide WellStamped, NoInit;
    assert Pipe(s)[0] == s.flight.frame;
  }

  lemma BatchIsRouted(s: State, frame: Frame, k: SocketId, r: RunId)
    requires WellStamped(s, frame) && Carries(frame, r) && Watches(s, k, r)
    ensures Routed(frame, s.sockets[k])
  {
  }

  /** What the delivery loop hands on for a live run is its next batch, and every
      socket of its owner gets it. */
  lemma FanOutReaches(s: State, a: Action, k: SocketId, r: RunId)
    requires Enabled(s, a) && a.FanOut? && FramesInv(s) && RunInv(s, r) && Watches(s, k, r) &&
             Carries(s.flight.frame, r)
    ensures s.flight.frame.body.number == s.runs[r].delivered + 1 && Routed(s.flight.frame, s.sockets[k])
  {
    assert r in s.runs && Live(s, r) && s.flight.Checked?;
    hide Pipe, Numbers, NoInit, AllStamped, WellStamped, Routed, Enabled, Live;
    FlightIsStamped(s, a);
    HeadIsNext(s, r);
    BatchIsRouted(s, s.flight.frame, k, r);
  }

  lemma RangeGrows(low: nat, high: nat)
    requires low <= high
    ensures Range(low, high + 1) == Range(low, high) + [high + 1]
  {
  }

  /** What the invariants say of a socket that watches a run. */
  lemma WatchedSoFar(s: State, k: SocketId, r: RunId)
    requires FramesInv(s) && SocketInv(s, k, r) && Watches(s, k, r)
    ensures Base(s.sockets[k], r) <= s.runs[r].delivered && Live(s, r) && AllStamped(s, s.sockets[k].queue)
    ensures Numbers(r, All(s.sockets[k])) == Range(Base(s.sockets[k], r), s.runs[r].delivered)
  {
  }

  lemma FanOutIsChecked(s: State, a: Action)
    requires Enabled(s, a)
    ensures a.FanOut? ==> s.flight.Checked?
  {
  }

  /** One more delivered batch is one more number at each socket that watches the run. */
  lemma BatchReaches(s: State, a: Action, k: SocketId, r: RunId)
    requires Enabled(s, a) && FramesInv(s) && RunInv(s, r) && SocketInv(s, k, r) && r in s.runs
    requires k in s.sockets && k in Step(s, a).sockets && Watches(s, k, r) && InitInv(s.sockets[k])
    requires r in Step(s, a).runs
    ensures Base(s.sockets[k], r) <= Step(s, a).runs[r].delivered
    ensures Numbers(r, All(Step(s, a).sockets[k])) == Range(Base(s.sockets[k], r), Step(s, a).runs[r].delivered)
  {
    hide *;
    FanOutIsChecked(s, a);
    WatchedSoFar(s, k, r);
    if Skips(s, a, k) { SkipsNoBatch(s, a, k, r); }
    NumbersOfSocket(s, a, k, r);
    CountsStep(s, a, r);
    if a.FanOut? && Carries(s.flight.frame, r) {
      FanOutReaches(s, a, k, r);
      RangeGrows(Base(s.sockets[k], r), s.runs[r].delivered);
    }
  }

  /** The init frame leads, and comes once. */
  predicate Led(frames: seq<Frame>, marks: map<RunId, nat>) {
    frames != [] && frames[0] == InitFrame(marks) && NoInit(frames[1..])
  }

  lemma LedGrows(frames: seq<Frame>, marks: map<RunId, nat>, frame: Frame)
    requires Led(frames, marks) && !frame.body.Init?
    ensures Led(frames + [frame], marks)
  {
    assert (frames + [frame])[1..] == frames[1..] + [frame];
  }

  lemma Leads(queue: seq<Frame>, marks: map<RunId, nat>)
    requires NoInit(queue)
    ensures Led([InitFrame(marks)] + queue, marks)
  {
    assert ([InitFrame(marks)] + queue)[1..] == queue;
  }

  /** The frames of the delivery loop and the direct ones are no init frames. */
  lemma NoInitIsGiven(s: State, a: Action)
    requires Enabled(s, a) && NoInit(Pipe(s))
    ensures a.FanOut? ==> s.flight.Checked? && !s.flight.frame.body.Init?
    ensures a.SendDirect? ==> !a.frame.body.Init?
  {
    if a.FanOut? { assert Pipe(s)[0] == s.flight.frame; }
  }

  /** A socket that has seen its init frame keeps it in front of everything else. */
  lemma ReadyKeepsInit(s: State, a: Action, k: SocketId)
    requires Enabled(s, a) && k in s.sockets && k in Step(s, a).sockets && s.sockets[k].ready
    requires InitInv(s.sockets[k]) && NoInit(Pipe(s))
    ensures InitInv(Step(s, a).sockets[k])
  {
    var was, next := s.sockets[k], Step(s, a).sockets[k];
    assert Led(All(was), was.marks);
    assert next.ready && Led(All(next), next.marks) ==> InitInv(next);
    assert Skips(s, a, k) ==> SkipsWell(s, k) by { if Skips(s, a, k) { SkipKeepsInit(s, a, k); } }
    hide *;
    ReadyStays(s, a, k);
    AllStep(s, a, k);
    NoInitIsGiven(s, a);
    if a.FanOut? && Routed(s.flight.frame, was) {
      LedGrows(All(was), was.marks, s.flight.frame);
    } else if a.SendDirect? && a.socket == k {
      LedGrows(All(was), was.marks, a.frame);
    } else if Skips(s, a, k) {
      SkipsWellMeans(s, k);
    }
  }

  predicate SkipsWell(s: State, k: SocketId)
    requires k in s.sockets
  {
    s.sockets[k].queue != [] && Led(Out(s.sockets[k]) + s.sockets[k].queue[1..], s.sockets[k].marks)
  }

  lemma SkipsWellMeans(s: State, k: SocketId)
    requires k in s.sockets && SkipsWell(s, k)
    ensures s.sockets[k].queue != [] && Led(Out(s.sockets[k]) + s.sockets[k].queue[1..], s.sockets[k].marks)
  {
  }

  /** Before that it only gathers frames, until the init frame goes in front. */
  lemma HeldKeepsInit(s: State, a: Action, k: SocketId)
    requires Enabled(s, a) && k in s.sockets && k in Step(s, a).sockets && !s.sockets[k].ready
    requires InitInv(s.sockets[k]) && NoInit(Pipe(s))
    ensures InitInv(Step(s, a).sockets[k])
  {
    var was, next := s.sockets[k], Step(s, a).sockets[k];
    NoInitIsGiven(s, a);
    SocketStep(s, a, k);
    Leads(was.queue, was.marks);
    assert a.SendInit? && a.socket == k ==> All(next) == [InitFrame(was.marks)] + was.queue;
    hide Step, Enabled, Routed, Current, Pipe;
  }

  lemma StepKeepsInit(s: State, a: Action, k: SocketId)
    requires Enabled(s, a) && k in Step(s, a).sockets && (k in s.sockets ==> InitInv(s.sockets[k])) && NoInit(Pipe(s))
    ensures InitInv(Step(s, a).sockets[k])
  {
    if k in s.sockets {
      hide *;
      if s.sockets[k].ready { ReadyKeepsInit(s, a, k); } else { HeldKeepsInit(s, a, k); }
    }
  }

  lemma ReadyStays(s: State, a: Action, k: SocketId)
    requires Enabled(s, a) && k in s.sockets && k in Step(s, a).sockets && s.sockets[k].ready
    ensures Step(s, a).sockets[k].ready && Step(s, a).sockets[k].marks == s.sockets[k].marks &&
            !(a.SendInit? && a.socket == k)
  {
    SocketStep(s, a, k);
    hide Step, Routed, Current;
  }

  lemma FrontOf(a: seq<Frame>, b: seq<Frame>)
    requires a + b != []
    ensures (a + b)[0] == if a == [] then b[0] else a[0]
  {
  }

  /** The init frame carries no stamp, so no sender drops it. */
  lemma SkipKeepsInit(s: State, a: Action, k: SocketId)
    requires Enabled(s, a) && Skips(s, a, k) && s.sockets[k].ready && InitInv(s.sockets[k])
    ensures var next := Out(s.sockets[k]) + s.sockets[k].queue[1..];
            next != [] && next[0] == InitFrame(s.sockets[k].marks) && NoInit(next[1..])
  {
    var out, queue := Out(s.sockets[k]), s.sockets[k].queue;
    assert All(s.sockets[k]) == out + queue;
    FrontOf(out, queue);
    assert Current(s, InitFrame(s.sockets[k].marks));
    var next := out + queue[1..];
    forall i | 0 <= i < |next[1..]| ensures !next[1..][i].body.Init? {
      assert next[1..][i] == All(s.sockets[k])[1..][if i + 1 < |out| then i else i + 1];
    }
  }

  lemma StepKeepsGapInv(s: State, a: Action)
    requires Enabled(s, a) && GapInv(s)
    ensures GapInv(Step(s, a))
  {
    var n := Step(s, a);
    StepKeepsFrames(s, a);
    hide Step, FramesInv, RunInv, SocketInv, InitInv;
    forall r ensures RunInv(n, r) { StepKeepsRun(s, a, r); }
    forall k, r ensures SocketInv(n, k, r) { StepKeepsSocket(s, a, k, r); }
    forall k | k in n.sockets ensures InitInv(n.sockets[k]) { GapInvKeepsInit(s, a, k); }
  }

  lemma GapInvKeepsInit(s: State, a: Action, k: SocketId)
    requires Enabled(s, a) && GapInv(s) && k in Step(s, a).sockets
    ensures InitInv(Step(s, a).sockets[k])
  {
    hide Step, AllStamped, NoInit, InitInv, RunInv, SocketInv;
    StepKeepsInit(s, a, k);
  }

  lemma StepKeepsSocket(s: State, a: Action, k: SocketId, r: RunId)
    requires Enabled(s, a) && GapInv(s)
    ensures SocketInv(Step(s, a), k, r)
  {
    assert RunInv(s, r) && SocketInv(s, k, r) && (k in s.sockets ==> InitInv(s.sockets[k]));
    hide Step, FramesInv, RunInv, InitInv, All, Numbers, Live, Range;
    if k in Step(s, a).sockets {
      if k !in s.sockets {
        NewSocketHasAll(s, a, k, r);
      } else if r !in s.runs {
        NewRunHasAll(s, a, k, r);
      } else if Watches(Step(s, a), k, r) {
        WatchedRunHasAll(s, a, k, r);
      } else {
        RunStays(s, a, r);
      }
    }
  }

  lemma {:induction false} RunKeepsGapInv(s: State, actions: seq<Action>)
    requires GapInv(s) && IsRun(s, actions)
    ensures GapInv(After(s, actions))
    decreases |actions|
  {
    hide GapInv;
    if actions != [] {
      StepKeepsGapInv(s, actions[0]);
      RunKeepsGapInv(Step(s, actions[0]), actions[1..]);
    }
  }

  /** The numbers above a watermark: what a page that applied the snapshot still applies. */
  function Above(mark: nat, numbers: seq<nat>): seq<nat> {
    if numbers == [] then [] else (if numbers[0] > mark then [numbers[0]] else []) + Above(mark, numbers[1..])
  }

  lemma {:induction false} AboveSnoc(mark: nat, numbers: seq<nat>, last: nat)
    ensures Above(mark, numbers + [last]) == Above(mark, numbers) + if last > mark then [last] else []
  {
    if numbers == [] {
      assert [last][1..] == [];
    } else {
      var own, more := if numbers[0] > mark then [numbers[0]] else [], if last > mark then [last] else [];
      assert (numbers + [last])[0] == numbers[0] && (numbers + [last])[1..] == numbers[1..] + [last];
      AboveSnoc(mark, numbers[1..], last);
      Joined(own, Above(mark, numbers[1..]), more);
    }
  }

  lemma {:induction false} AboveRange(mark: nat, low: nat, high: nat)
    requires low <= mark
    ensures Above(mark, Range(low, high)) == Range(mark, high)
    decreases high
  {
    if high > low {
      AboveRange(mark, low, high - 1);
      AboveSnoc(mark, Range(low, high - 1), high);
    }
  }

  lemma SameEnd(a: seq<nat>, x: nat, b: seq<nat>, y: nat)
    requires a + [x] == b + [y]
    ensures a == b && x == y
  {
    assert |a + [x]| == |b + [y]| && (a + [x])[|a|] == x && (b + [y])[|b|] == y;
    assert a == (a + [x])[..|a|] && b == (b + [y])[..|b|];
  }

  /** A stretch that begins a range is a range. */
  lemma {:induction false} RangePrefix(low: nat, high: nat, front: seq<nat>, rest: seq<nat>) returns (m: nat)
    requires front + rest == Range(low, high) && low <= high
    ensures low <= m <= high && front == Range(low, m) && rest == Range(m, high)
    decreases |rest|
  {
    if rest == [] {
      assert front + rest == front;
      m := high;
    } else {
      var most, last := rest[..|rest| - 1], rest[|rest| - 1];
      assert front + rest == (front + most) + [last];
      assert Range(low, high) == Range(low, high - 1) + [high] by { assert Range(low, high) != []; }
      SameEnd(front + most, last, Range(low, high - 1), high);
      m := RangePrefix(low, high - 1, front, most);
      assert rest == most + [high];
    }
  }

  lemma {:induction false} RangesJoin(low: nat, mid: nat, high: nat)
    requires low <= mid <= high
    ensures Range(low, mid) + Range(mid, high) == Range(low, high)
    decreases high
  {
    if mid < high {
      RangesJoin(low, mid, high - 1);
      assert Range(low, mid) + Range(mid, high) == Range(low, mid) + Range(mid, high - 1) + [high];
    } else {
      assert Range(mid, high) == [];
    }
  }

  /** The range counts up one by one. */
  lemma {:induction false} RangeAt(low: nat, high: nat, i: nat)
    requires low <= high
    ensures |Range(low, high)| == high - low
    ensures i < high - low ==> Range(low, high)[i] == low + 1 + i
    decreases high
  {
    if low < high { RangeAt(low, high - 1, i); }
  }

  /** The run's page is being refreshed through this socket: its init frame shows
      the run, and socket, session and run are still live. */
  predicate Refreshing(s: State, k: SocketId, r: RunId) {
    Watches(s, k, r) && s.sockets[k].ready && r in s.sockets[k].marks
  }

  lemma StartIsClean()
    ensures GapInv(EMPTY)
  {
    assert Pipe(EMPTY) == [];
  }

  lemma WatchedStretch(s: State, k: SocketId, r: RunId)
    requires GapInv(s) && Watches(s, k, r)
    ensures Base(s.sockets[k], r) <= s.runs[r].delivered <= s.runs[r].pushed <= s.runs[r].fed
    ensures Numbers(r, All(s.sockets[k])) + Numbers(r, Pipe(s)) == Range(Base(s.sockets[k], r), s.runs[r].pushed)
    ensures r in s.sockets[k].marks ==> Base(s.sockets[k], r) <= s.sockets[k].marks[r] <= s.runs[r].fed
  {
    assert RunInv(s, r) && SocketInv(s, k, r);
    RangesJoin(Base(s.sockets[k], r), s.runs[r].delivered, s.runs[r].pushed);
  }

  /** Gap-free refresh: the init frame goes to the socket first and once, and the
      batches given to the socket or on their way to it that lie above the
      watermark of that frame are exactly the later batches, one by one. */
  lemma GapFreeRefresh(actions: seq<Action>, k: SocketId, r: RunId)
    requires IsRun(EMPTY, actions) && Refreshing(After(EMPTY, actions), k, r)
    ensures var s := After(EMPTY, actions); var socket := s.sockets[k]; (
              && All(socket) != [] && All(socket)[0] == InitFrame(socket.marks) && NoInit(All(socket)[1..])
              && socket.marks[r] <= s.runs[r].fed
              && Above(socket.marks[r], Numbers(r, All(socket)) + Numbers(r, Pipe(s))) ==
                  Range(socket.marks[r], s.runs[r].pushed))
  {
    StartIsClean();
    RunKeepsGapInv(EMPTY, actions);
    var s := After(EMPTY, actions);
    assert InitInv(s.sockets[k]);
    WatchedStretch(s, k, r);
    AboveRange(s.sockets[k].marks[r], Base(s.sockets[k], r), s.runs[r].pushed);
  }

  /** What the page shows of a run: the snapshot, then each batch above its watermark. */
  function Shown(mark: nat, numbers: seq<nat>): seq<nat> { Range(0, mark) + Above(mark, numbers) }

  /** At every moment the refreshed page has each batch up to some number exactly
      once and in order; once nothing is under way that is every pushed batch. */
  lemma PageSeesEachBatchOnce(actions: seq<Action>, k: SocketId, r: RunId) returns (n: nat)
    requires IsRun(EMPTY, actions) && Refreshing(After(EMPTY, actions), k, r)
    ensures var s := After(EMPTY, actions); var socket := s.sockets[k]; (
              && (socket.handed != [] ==> socket.handed[0] == InitFrame(socket.marks))
              && socket.marks[r] <= n <= s.runs[r].fed
              && Shown(socket.marks[r], Numbers(r, socket.handed)) == Range(0, n)
              && (socket.sending.None? && socket.queue == [] && Pipe(s) == [] ==>
                  n == Max(socket.marks[r], s.runs[r].pushed)))
  {
    hide After, IsRun, GapInv, All, Numbers, Above, Pipe;
    GapFreeRefresh(actions, k, r);
    StartIsClean();
    RunKeepsGapInv(EMPTY, actions);
    var s := After(EMPTY, actions);
    var socket := s.sockets[k];
    var base, mark := Base(socket, r), socket.marks[r];
    WatchedStretch(s, k, r);
    HandedIsFront(socket, r, s, base);
    var rest := Numbers(r, Opt(socket.sending) + socket.queue) + Numbers(r, Pipe(s));
    var m := RangePrefix(base, s.runs[r].pushed, Numbers(r, socket.handed), rest);
    n := Max(mark, m);
    AboveRange(mark, base, m);
    if m >= mark { RangesJoin(0, mark, m); }
    if socket.sending.None? && socket.queue == [] && Pipe(s) == [] {
      NothingUnderWay(r, socket, s);
      RangeAt(m, s.runs[r].pushed, 0);
    }
  }

  lemma NothingUnderWay(r: RunId, socket: Socket, s: State)
    requires socket.sending.None? && socket.queue == [] && Pipe(s) == []
    ensures Numbers(r, Opt(socket.sending) + socket.queue) + Numbers(r, Pipe(s)) == []
  {
    assert Opt(socket.sending) + socket.queue == [];
  }

  lemma AllIsHandedAndRest(socket: Socket)
    ensures All(socket) == socket.handed + (Opt(socket.sending) + socket.queue)
  {
  }

  lemma HandedIsFront(socket: Socket, r: RunId, s: State, base: nat)
    requires r in s.runs && Numbers(r, All(socket)) + Numbers(r, Pipe(s)) == Range(base, s.runs[r].pushed)
    ensures Numbers(r, socket.handed) +
            (Numbers(r, Opt(socket.sending) + socket.queue) + Numbers(r, Pipe(s))) == Range(base, s.runs[r].pushed)
    ensures All(socket) == socket.handed + (Opt(socket.sending) + socket.queue)
  {
    hide *;
    AllIsHandedAndRest(socket);
    NumbersConcat(r, socket.handed, Opt(socket.sending) + socket.queue);
    Joined(Numbers(r, socket.handed), Numbers(r, Opt(socket.sending) + socket.queue), Numbers(r, Pipe(s)));
  }

  lemma Joined(a: seq<nat>, b: seq<nat>, c: seq<nat>)
    ensures a + b + c == a + (b + c)
  {
  }

  // ---- a page can always catch up -----------------------------------------------------

  /** The steps between a socket and having been handed everything under way. */
  function StepsLeft(s: State, k: SocketId): nat
    requires k in s.sockets
  {
    5 * |s.queue| + (if s.flight.Popped? then 4 else if s.flight.Checked? then 3 else 0)
    + 2 * |s.sockets[k].queue| + if s.sockets[k].sending.Some? then 1 else 0
  }

  /** Steps of the delivery loop and of one sender. */
  predicate Delivers(a: Action, k: SocketId) {
    a == PopFrame || a == CheckFrame || a == FanOut({}) || a == Dequeue(k) || a == Hand(k)
  }

  /** Those steps leave the sessions, what has been pushed and the socket's snapshot alone. */
  predicate SameRuns(s: State, n: State, k: SocketId) {
    && n.slots == s.slots && k in s.sockets && k in n.sockets && n.sockets[k].ready == s.sockets[k].ready
    && n.sockets[k].marks == s.sockets[k].marks && n.sockets[k].owner == s.sockets[k].owner
    && n.runs.Keys == s.runs.Keys
    && forall r :: r in s.runs ==> SameRun(s, n, r) && n.runs[r].pushed == s.runs[r].pushed
  }

  function NextDelivery(s: State, k: SocketId): Action
    requires k in s.sockets
  {
    if s.flight.Popped? then CheckFrame
    else if s.flight.Checked? then FanOut({})
    else if s.queue != [] then PopFrame
    else if s.sockets[k].sending.Some? then Hand(k) else Dequeue(k)
  }

  lemma RunsStayPushed(s: State, a: Action)
    requires Enabled(s, a) && (a.PopFrame? || a.CheckFrame? || a.FanOut? || a.Dequeue? || a.Hand?)
    ensures Step(s, a).runs.Keys == s.runs.Keys && Step(s, a).slots == s.slots
    ensures forall r :: r in s.runs ==> SameRun(s, Step(s, a), r) && Step(s, a).runs[r].pushed == s.runs[r].pushed
  {
  }

  lemma DeliveryStep(s: State, k: SocketId)
    requires k in s.sockets && s.sockets[k].ready && StepsLeft(s, k) > 0
    ensures var a := NextDelivery(s, k);
            && Delivers(a, k) && Enabled(s, a) && SameRuns(s, Step(s, a), k)
            && StepsLeft(Step(s, a), k) < StepsLeft(s, k)
  {
    hide Current, Routed, CurrentIn, CountDelivered;
    var a := NextDelivery(s, k);
    assert Enabled(s, a);
    assert k in Step(s, a).sockets;
    SocketStep(s, a, k);
    RunsStayPushed(s, a);
  }

  lemma SameRunsJoin(s: State, m: State, n: State, k: SocketId)
    requires SameRuns(s, m, k) && SameRuns(m, n, k)
    ensures SameRuns(s, n, k)
  {
  }

  lemma {:induction false} SocketCatchesUp(s: State, k: SocketId) returns (actions: seq<Action>)
    requires k in s.sockets && s.sockets[k].ready
    ensures IsRun(s, actions) && forall i :: 0 <= i < |actions| ==> Delivers(actions[i], k)
    ensures var n := After(s, actions);
            SameRuns(s, n, k) && n.sockets[k].sending.None? && n.sockets[k].queue == [] && Pipe(n) == []
    decreases StepsLeft(s, k)
  {
    if StepsLeft(s, k) == 0 {
      actions := [];
    } else {
      var a := NextDelivery(s, k);
      DeliveryStep(s, k);
      hide Step, Enabled, SameRuns, StepsLeft, NextDelivery, Delivers, Pipe;
      var n := Step(s, a);
      ReadyStaysReady(s, n, k);
      var rest := SocketCatchesUp(n, k);
      Prepended(s, a, rest);
      SameRunsJoin(s, n, After(n, rest), k);
      actions := [a] + rest;
    }
  }

  lemma ReadyStaysReady(s: State, n: State, k: SocketId)
    requires SameRuns(s, n, k)
    ensures k in n.sockets && k in s.sockets && n.sockets[k].ready == s.sockets[k].ready
  {
  }

  lemma {:induction false} RunsJoin(s: State, a: seq<Action>, b: seq<Action>)
    requires IsRun(s, a) && IsRun(After(s, a), b)
    ensures IsRun(s, a + b) && After(s, a + b) == After(After(s, a), b)
    decreases |a|
  {
    hide Step, Enabled;
    if a == [] {
      assert a + b == b;
    } else {
      assert (a + b)[0] == a[0] && (a + b)[1..] == a[1..] + b;
      RunsJoin(Step(s, a[0]), a[1..], b);
    }
  }

  /** A refreshed page can always be brought up to date: from every reachable state the
      delivery loop and the sender alone lead to one in which it shows the snapshot and
      every batch pushed since, each once and in order. */
  lemma PageCatchesUp(actions: seq<Action>, k: SocketId, r: RunId) returns (more: seq<Action>)
    requires IsRun(EMPTY, actions) && Refreshing(After(EMPTY, actions), k, r)
    ensures IsRun(EMPTY, actions + more) && forall i :: 0 <= i < |more| ==> Delivers(more[i], k)
    ensures var s, n := After(EMPTY, actions), After(EMPTY, actions + more); (
              && Refreshing(n, k, r) && n.sockets[k].marks == s.sockets[k].marks
              && n.runs[r].pushed == s.runs[r].pushed
              && Shown(n.sockets[k].marks[r], Numbers(r, n.sockets[k].handed)) ==
                 Range(0, Max(s.sockets[k].marks[r], s.runs[r].pushed)))
  {
    var s := After(EMPTY, actions);
    more := SocketCatchesUp(s, k);
    RunsJoin(EMPTY, actions, more);
    hide After, IsRun, Pipe, Numbers, Shown;
    StillRefreshing(s, After(s, more), k, r);
    var m := PageSeesEachBatchOnce(actions + more, k, r);
  }

  lemma StillRefreshing(s: State, n: State, k: SocketId, r: RunId)
    requires SameRuns(s, n, k) && Refreshing(s, k, r)
    ensures Refreshing(n, k, r) && n.sockets[k].marks == s.sockets[k].marks && n.runs[r].pushed == s.runs[r].pushed
  {
  }

  // ---- whose frames a socket is given --------------------------------------------

  /** Everything the socket was given is for its owner or for everyone. */
  predicate Own(socket: Socket) { forall i :: 0 <= i < |All(socket)| ==> Routed(All(socket)[i], socket) }

  ghost predicate OwnInv(s: State) { forall k :: k in s.sockets ==> Own(s.sockets[k]) }

  lemma SocketKeepsOwn(s: State, a: Action, k: SocketId)
    requires Enabled(s, a) && k in s.sockets && k in Step(s, a).sockets && InitInv(s.sockets[k]) && Own(s.sockets[k])
    ensures Own(Step(s, a).sockets[k])
  {
    hide Step, All, Out, NoInit, InitInv, Enabled, Routed;
    SocketStays(s, a, k);
    var was, next := s.sockets[k], Step(s, a).sockets[k];
    forall i | 0 <= i < |All(next)| ensures Routed(All(next)[i], next) {
      GivenFrom(s, a, k, i);
      SameOwnerRoutes(All(next)[i], was, next);
    }
  }

  lemma SameOwnerRoutes(frame: Frame, was: Socket, next: Socket)
    requires was.owner == next.owner
    ensures Routed(frame, was) ==> Routed(frame, next)
    ensures frame.owner.None? ==> Routed(frame, next)
  {
  }

  /** Where a frame that a socket has been given came from. */
  lemma GivenFrom(s: State, a: Action, k: SocketId, i: nat)
    requires Enabled(s, a) && k in s.sockets && k in Step(s, a).sockets && InitInv(s.sockets[k])
    requires i < |All(Step(s, a).sockets[k])|
    ensures var was, frame := s.sockets[k], All(Step(s, a).sockets[k])[i];
            || frame in All(was) || (a.FanOut? && frame == s.flight.frame && Routed(frame, was)) || frame.owner.None?
  {
    hide Step, All, Out, NoInit, InitInv, Routed, Current;
    AllStep(s, a, k);
    var was, next := s.sockets[k], All(Step(s, a).sockets[k]);
    if Skips(s, a, k) {
      assert next[i] == All(was)[if i < |Out(was)| then i else i + 1];
    } else if a.SendInit? && a.socket == k && i > 0 {
      assert next[i] == All(was)[i - 1];
    }
  }

  lemma {:induction false} RunKeepsOwn(s: State, actions: seq<Action>)
    requires GapInv(s) && OwnInv(s) && IsRun(s, actions)
    ensures OwnInv(After(s, actions))
    decreases |actions|
  {
    if actions != [] {
      var n := Step(s, actions[0]);
      forall k | k in n.sockets ensures Own(n.sockets[k]) {
        if k in s.sockets {
          assert InitInv(s.sockets[k]) && Own(s.sockets[k]);
          SocketKeepsOwn(s, actions[0], k);
        } else {
          SocketOpens(s, actions[0], k);
        }
      }
      StepKeepsGapInv(s, actions[0]);
      hide Step, GapInv, Own;
      RunKeepsOwn(n, actions[1..]);
    }
  }

  /** Over every interleaving a frame with an owner is handed to that owner's
      sockets only. */
  lemma HandedToItsOwner(actions: seq<Action>, k: SocketId, frame: Frame)
    requires IsRun(EMPTY, actions) && k in After(EMPTY, actions).sockets
    requires frame in After(EMPTY, actions).sockets[k].handed && frame.owner.Some?
    ensures frame.owner.value == After(EMPTY, actions).sockets[k].owner
  {
    StartIsClean();
    RunKeepsOwn(EMPTY, actions);
    var socket := After(EMPTY, actions).sockets[k];
    var i :| 0 <= i < |socket.handed| && socket.handed[i] == frame;
    assert Own(socket) && All(socket)[i] == frame;
  }

  /** The init frame of a socket shows runs of its owner only. */
  ghost predicate OwnMarks(s: State) {
    forall k, r :: k in s.sockets && r in s.sockets[k].marks ==>
      r in s.runs && s.runs[r].owner == s.sockets[k].owner
  }

  lemma StepKeepsOwnMarks(s: State, a: Action)
    requires Enabled(s, a) && OwnMarks(s)
    ensures OwnMarks(Step(s, a))
  {
    var n := Step(s, a);
    forall k, r | k in n.sockets && r in n.sockets[k].marks
      ensures r in n.runs && n.runs[r].owner == n.sockets[k].owner
    {
      MarkIsOwn(s, a, k, r);
    }
  }

  lemma MarkIsOwn(s: State, a: Action, k: SocketId, r: RunId)
    requires Enabled(s, a) && OwnMarks(s) && k in Step(s, a).sockets && r in Step(s, a).sockets[k].marks
    ensures r in Step(s, a).runs && Step(s, a).runs[r].owner == Step(s, a).sockets[k].owner
  {
    if k in s.sockets {
      SocketStays(s, a, k);
      assert a == TakeMark(k, r) ==> r in s.runs && s.runs[r].owner == s.sockets[k].owner;
      hide Step;
      if r in s.runs { RunStays(s, a, r); }
    } else {
      SocketOpens(s, a, k);
    }
  }

  lemma {:induction false} RunKeepsOwnMarks(s: State, actions: seq<Action>)
    requires IsRun(s, actions) && OwnMarks(s)
    ensures OwnMarks(After(s, actions))
    decreases |actions|
  {
    hide OwnMarks;
    if actions != [] {
      StepKeepsOwnMarks(s, actions[0]);
      RunKeepsOwnMarks(Step(s, actions[0]), actions[1..]);
    }
  }

  /** Over every interleaving the runs an init frame shows are its socket owner's. */
  lemma InitShowsOwnRuns(actions: seq<Action>, k: SocketId, r: RunId)
    requires IsRun(EMPTY, actions) && k in After(EMPTY, actions).sockets
    requires r in After(EMPTY, actions).sockets[k].marks
    ensures var s := After(EMPTY, actions); r in s.runs && s.runs[r].owner == s.sockets[k].owner
  {
    RunKeepsOwnMarks(EMPTY, actions);
  }
}
