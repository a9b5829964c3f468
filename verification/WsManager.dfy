/** The outbound queues of the browser sockets (ws_manager.py): bounded by bytes,
    held back until the init frame, and drained by one sender per socket. The
    objects here carry out the socket steps of the delivery pipeline. */
module WsManagers {
  import opened Common
  import opened Config
  import P = Pipelines

  type Owner = P.Owner
  type SocketId = P.SocketId

  /** One serialized frame and its length. */
  datatype Entry = Entry(frame: P.Frame, size: nat)

  /** `signalled` is the sender's wake-up event, `sending` the frame it took and has
      not yet handed to the socket. */
  datatype Outbox = Outbox(queue: seq<Entry>, queuedBytes: nat, ready: bool, signalled: bool, sending: Option<Entry>)

  function FrameOf(entry: Option<Entry>): Option<P.Frame> { if entry.Some? then Some(entry.value.frame) else None }

  function SizeOf(queue: seq<Entry>): nat {
    if queue == [] then 0 else queue[0].size + SizeOf(queue[1..])
  }

  lemma {:induction false} SizeConcat(a: seq<Entry>, b: seq<Entry>)
    ensures SizeOf(a + b) == SizeOf(a) + SizeOf(b)
  {
    if a == [] {
      assert a + b == b;
    } else {
      assert (a + b)[1..] == a[1..] + b;
      SizeConcat(a[1..], b);
    }
  }

  lemma HeadIsCounted(queue: seq<Entry>)
    requires queue != []
    ensures SizeOf(queue) == queue[0].size + SizeOf(queue[1..])
  {
  }

  /** The counter is right, within the limit, and waiting frames have a wake-up. */
  predicate Sound(o: Outbox) {
    && o.queuedBytes == SizeOf(o.queue) && o.queuedBytes <= SOCKET_QUEUE_MAX_BYTES
    && (o.ready && o.queue != [] ==> o.signalled)
  }

  predicate Fits(o: Outbox, e: Entry) { o.queuedBytes + e.size <= SOCKET_QUEUE_MAX_BYTES }

  function Appended(o: Outbox, e: Entry): Outbox {
    o.(queue := o.queue + [e], queuedBytes := o.queuedBytes + e.size, signalled := o.signalled || o.ready)
  }

  function Initialised(o: Outbox, e: Entry): Outbox {
    o.(queue := [e] + o.queue, queuedBytes := o.queuedBytes + e.size, ready := true, signalled := true)
  }

  lemma AppendedIsSound(o: Outbox, e: Entry)
    requires Sound(o) && Fits(o, e)
    ensures Sound(Appended(o, e)) && Sound(Initialised(o, e))
  {
    SizeConcat(o.queue, [e]);
    SizeConcat([e], o.queue);
    assert [e][1..] == [];
  }

  /** The sockets a message is for: one owner's, or all of them. */
  predicate Aimed(owners: map<SocketId, Owner>, target: Option<Owner>, k: SocketId) {
    target.None? || (k in owners && owners[k] == target.value)
  }

  /** What `_enqueue` makes of one socket: a full one is closed and dropped. */
  predicate Enqueued(was: map<SocketId, Outbox>, now: map<SocketId, Outbox>, e: Entry, k: SocketId)
    requires k in was
  {
    && (k in now <==> Fits(was[k], e))
    && (k in now ==> now[k] == Appended(was[k], e))
  }

  predicate Untouched(was: map<SocketId, Outbox>, now: map<SocketId, Outbox>, k: SocketId)
    requires k in was
  {
    k in now && now[k] == was[k]
  }

  /** Of the sockets seen so far, the message has reached those it is for; all
      others are as they were. */
  ghost predicate Fanned(was: map<SocketId, Outbox>, owners: map<SocketId, Owner>, target: Option<Owner>, e: Entry,
                         now: map<SocketId, Outbox>, seen: set<SocketId>) {
    && now.Keys <= was.Keys
    && forall k :: k in was ==> if k in seen && Aimed(owners, target, k) then Enqueued(was, now, e, k)
        else Untouched(was, now, k)
  }

  /** A message has reached the sockets it is for and no other. */
  ghost predicate FannedOut(was: map<SocketId, Outbox>, owners: map<SocketId, Owner>, target: Option<Owner>, e: Entry,
                            now: map<SocketId, Outbox>) {
    Fanned(was, owners, target, e, now, was.Keys)
  }

  /** What `_enqueue` does to the sockets as a whole. */
  function EnqueueAt(states: map<SocketId, Outbox>, ws: SocketId, e: Entry): map<SocketId, Outbox> {
    if ws !in states then states
    else if Fits(states[ws], e) then states[ws := Appended(states[ws], e)]
    else states - {ws}
  }

  lemma FanOne(was: map<SocketId, Outbox>, owners: map<SocketId, Owner>, target: Option<Owner>, e: Entry,
               mid: map<SocketId, Outbox>, seen: set<SocketId>, ws: SocketId)
    requires Fanned(was, owners, target, e, mid, seen) && ws in was && ws !in seen
    ensures ws in mid && mid[ws] == was[ws]
    ensures var now := if Aimed(owners, target, ws) then EnqueueAt(mid, ws, e) else mid;
            Fanned(was, owners, target, e, now, seen + {ws})
  {
    assert Untouched(was, mid, ws);
    hide Fits, Appended;
  }

  /** The first sockets of a list. */
  function Seen(ids: seq<SocketId>, n: nat): set<SocketId>
    requires n <= |ids|
  {
    set i | 0 <= i < n :: ids[i]
  }

  lemma FanNone(was: map<SocketId, Outbox>, owners: map<SocketId, Owner>, target: Option<Owner>, e: Entry,
      ids: seq<SocketId>)
    ensures Fanned(was, owners, target, e, was, Seen(ids, 0))
  {
  }

  lemma SeenGrows(ids: seq<SocketId>, n: nat)
    requires n < |ids| && Distinct(ids)
    ensures ids[n] !in Seen(ids, n) && Seen(ids, n + 1) == Seen(ids, n) + {ids[n]}
  {
  }

  lemma SeenAll(ids: seq<SocketId>, keys: set<SocketId>)
    requires forall k :: k in ids <==> k in keys
    ensures Seen(ids, |ids|) == keys
  {
    forall k | k in keys ensures k in Seen(ids, |ids|) { assert k in ids; }
  }

  function Frames(queue: seq<Entry>): seq<P.Frame> { seq(|queue|, i requires 0 <= i < |queue| => queue[i].frame) }

  /** The pipeline's sockets have these owners, flags and queues. */
  ghost predicate Mirrors(states: map<SocketId, Outbox>, owners: map<SocketId, Owner>,
      sockets: map<SocketId, P.Socket>) {
    && sockets.Keys == states.Keys
    && forall k :: k in states ==>
         && k in owners && sockets[k].owner == owners[k] && sockets[k].ready == states[k].ready
         && sockets[k].queue == Frames(states[k].queue) && sockets[k].sending == FrameOf(states[k].sending)
  }

  /** The sockets a frame would overflow. */
  function Overflowing(states: map<SocketId, Outbox>, e: Entry): set<SocketId> {
    set k | k in states && !Fits(states[k], e)
  }

  /** Handing a frame to the sockets it is for is the fan-out step of the pipeline,
      with exactly the full sockets dropped. */
  lemma FanOutIsThePipelines(was: map<SocketId, Outbox>, owners: map<SocketId, Owner>, e: Entry,
      now: map<SocketId, Outbox>, left: map<SocketId, Owner>, sockets: map<SocketId, P.Socket>)
    requires Mirrors(was, owners, sockets) && FannedOut(was, owners, e.frame.owner, e, now)
    requires forall k :: k in now ==> k in left && k in owners && left[k] == owners[k]
    ensures Mirrors(now, left, P.Fan(sockets, e.frame, Overflowing(was, e)))
  {
    var fan := P.Fan(sockets, e.frame, Overflowing(was, e));
    forall k ensures k in fan <==> k in now { FanAt(was, owners, e, now, sockets, k); }
    forall k | k in now
      ensures k in fan && fan[k].owner == owners[k] && fan[k].ready == now[k].ready &&
              fan[k].queue == Frames(now[k].queue)
      ensures k in fan && fan[k].sending == FrameOf(now[k].sending)
    {
      FanAt(was, owners, e, now, sockets, k);
    }
  }

  lemma FanAt(was: map<SocketId, Outbox>, owners: map<SocketId, Owner>, e: Entry, now: map<SocketId, Outbox>,
              sockets: map<SocketId, P.Socket>, k: SocketId)
    requires Mirrors(was, owners, sockets) && FannedOut(was, owners, e.frame.owner, e, now)
    ensures var fan := P.Fan(sockets, e.frame, Overflowing(was, e));
            && (k in fan <==> k in now)
            && (k in now ==> (
                  && k in owners && fan[k].owner == owners[k] && fan[k].ready == now[k].ready
                  && fan[k].queue == Frames(now[k].queue) && fan[k].sending == FrameOf(now[k].sending)))
  {
    if k in was {
      assert P.Routed(e.frame, sockets[k]) <==> Aimed(owners, e.frame.owner, k);
      FramesAppended(was[k].queue, e);
    }
  }

  lemma FramesAppended(queue: seq<Entry>, e: Entry)
    ensures Frames(queue + [e]) == Frames(queue) + [e.frame] && Frames([e] + queue) == [e.frame] + Frames(queue)
  {
  }

  /** The sender's turn: the head comes off, counted, and is kept to be sent only if
      its session is in its device's slot. */
  function Turned(o: Outbox, slots: map<P.Device, P.Slot>): Outbox
    requires o.queue != [] && o.queuedBytes >= o.queue[0].size
  {
    o.(queue := o.queue[1..], queuedBytes := o.queuedBytes - o.queue[0].size,
       sending := if P.CurrentIn(slots, o.queue[0].frame) then Some(o.queue[0]) else None)
  }

  predicate HasTurn(o: Outbox) { o.ready && o.sending.None? && o.queue != [] && o.queuedBytes >= o.queue[0].size }

  lemma InitIsThePipelines(states: map<SocketId, Outbox>, owners: map<SocketId, Owner>, s: P.State, k: SocketId,
      e: Entry)
    requires Mirrors(states, owners, s.sockets) && k in states && !states[k].ready &&
             e.frame == P.InitFrame(s.sockets[k].marks)
    ensures P.Enabled(s, P.SendInit(k))
    ensures Mirrors(states[k := Initialised(states[k], e)], owners, P.Step(s, P.SendInit(k)).sockets)
  {
    FramesAppended(states[k].queue, e);
  }

  /** The currency check at the socket is the pipeline's dequeue. */
  lemma TurnIsThePipelines(states: map<SocketId, Outbox>, owners: map<SocketId, Owner>, s: P.State, k: SocketId)
    requires Mirrors(states, owners, s.sockets) && k in states && HasTurn(states[k])
    ensures P.Enabled(s, P.Dequeue(k))
    ensures Mirrors(states[k := Turned(states[k], s.slots)], owners, P.Step(s, P.Dequeue(k)).sockets)
  {
    assert s.sockets[k].queue == Frames(states[k].queue) && s.sockets[k].queue[0] == states[k].queue[0].frame;
    assert Frames(states[k].queue[1..]) == Frames(states[k].queue)[1..];
  }

  lemma SentIsThePipelines(states: map<SocketId, Outbox>, owners: map<SocketId, Owner>, s: P.State, k: SocketId)
    requires Mirrors(states, owners, s.sockets) && k in states && states[k].sending.Some?
    ensures P.Enabled(s, P.Hand(k))
    ensures Mirrors(states[k := states[k].(sending := None)], owners, P.Step(s, P.Hand(k)).sockets)
    ensures P.Step(s, P.Hand(k)).sockets[k].handed == s.sockets[k].handed + [states[k].sending.value.frame]
  {
  }

  lemma DropIsThePipelines(states: map<SocketId, Outbox>, owners: map<SocketId, Owner>, s: P.State, k: SocketId)
    requires Mirrors(states, owners, s.sockets) && k in states
    ensures P.Enabled(s, P.Drop(k)) && Mirrors(states - {k}, owners - {k}, P.Step(s, P.Drop(k)).sockets)
  {
  }

  function Without(ids: seq<SocketId>, k: SocketId): (rest: seq<SocketId>)
    ensures forall x :: x in rest <==> x in ids && x != k
  {
    if ids == [] then [] else (if ids[0] == k then [] else [ids[0]]) + Without(ids[1..], k)
  }

  predicate Distinct(ids: seq<SocketId>) { forall i, j :: 0 <= i < j < |ids| ==> ids[i] != ids[j] }

  lemma {:induction false} WithoutIsDistinct(ids: seq<SocketId>, k: SocketId)
    requires Distinct(ids)
    ensures Distinct(Without(ids, k))
  {
    if ids != [] {
      WithoutIsDistinct(ids[1..], k);
      var rest := Without(ids[1..], k);
      if ids[0] != k {
        forall j | 0 <= j < |rest| ensures rest[j] != ids[0] { assert rest[j] in ids[1..]; }
        assert Without(ids, k) == [ids[0]] + rest;
      }
    }
  }

  /** Owners are only ever forgotten. */
  predicate Kept(was: map<SocketId, Owner>, now: map<SocketId, Owner>) {
    forall k :: k in now ==> k in was && now[k] == was[k]
  }

  class WsManager {
    var connections: seq<SocketId>
    var owners: map<SocketId, Owner>
    var states: map<SocketId, Outbox>

    ghost predicate Valid() reads this {
      && Distinct(connections) && (forall k :: k in connections <==> k in states) && owners.Keys == states.Keys
      && forall k :: k in states ==> Sound(states[k])
    }

    constructor ()
      ensures Valid() && states == map[]
    {
      connections, owners, states := [], map[], map[];
    }

    /** Registers a socket; its frames are held until `SendInit`. */
    method Connect(ws: SocketId, owner: Owner)
      requires Valid() && ws !in states
      modifies this
      ensures Valid() && owners == old(owners)[ws := owner]
      ensures states == old(states)[ws := Outbox([], 0, false, false, None)]
    {
      connections := connections + [ws];
      states := states[ws := Outbox([], 0, false, false, None)];
      owners := owners[ws := owner];
    }

    method Drop(ws: SocketId)
      requires Valid()
      modifies this
      ensures Valid() && states == old(states) - {ws} && owners == old(owners) - {ws}
    {
      WithoutIsDistinct(connections, ws);
      connections := Without(connections, ws);
      owners := owners - {ws};
      states := states - {ws};
    }

    /** Puts the init frame in front of everything held and starts the sender; a
        socket it would overflow is closed instead. */
    method SendInit(ws: SocketId, e: Entry)
      requires Valid()
      modifies this
      ensures Valid()
      ensures if ws !in old(states) then states == old(states) && owners == old(owners)
              else if Fits(old(states)[ws], e) then states == old(states)[ws := Initialised(old(states)[ws], e)] &&
                  owners == old(owners)
              else states == old(states) - {ws} && owners == old(owners) - {ws}
      ensures ws in old(states) ==>
                if old(states)[ws].queuedBytes + e.size <= SOCKET_QUEUE_MAX_BYTES then
                  && ws in states && states[ws].queue == [e] + old(states)[ws].queue && states[ws].ready
                  && states[ws].signalled && states[ws].queuedBytes == old(states)[ws].queuedBytes + e.size
                else ws !in states
      ensures forall k :: k != ws ==>
                (k in states <==> k in old(states)) && (k in states ==> states[k] == old(states)[k])
    {
      if ws !in states {
        return;
      }
      if states[ws].queuedBytes + e.size > SOCKET_QUEUE_MAX_BYTES {
        Drop(ws);
        return;
      }
      AppendedIsSound(states[ws], e);
      states := states[ws := Initialised(states[ws], e)];
    }

    method Enqueue(ws: SocketId, e: Entry)
      requires Valid()
      modifies this
      ensures Valid()
      ensures states == EnqueueAt(old(states), ws, e)
      ensures owners == if ws in old(states) && !Fits(old(states)[ws], e) then old(owners) - {ws} else old(owners)
      ensures ws in old(states) ==>
                if old(states)[ws].queuedBytes + e.size <= SOCKET_QUEUE_MAX_BYTES then
                  && ws in states && states[ws].queue == old(states)[ws].queue + [e]
                  && (states[ws].ready ==> states[ws].signalled) && states[ws].ready == old(states)[ws].ready
                  && states[ws].queuedBytes == old(states)[ws].queuedBytes + e.size
                else ws !in states
      ensures forall k :: k != ws ==>
                (k in states <==> k in old(states)) && (k in states ==> states[k] == old(states)[k])
    {
      if ws !in states {
        return;
      }
      if states[ws].queuedBytes + e.size > SOCKET_QUEUE_MAX_BYTES {
        Drop(ws);
        return;
      }
      AppendedIsSound(states[ws], e);
      states := states[ws := Appended(states[ws], e)];
    }

    method SendToOwner(owner: Owner, e: Entry)
      requires Valid()
      modifies this
      ensures Valid() && FannedOut(old(states), old(owners), Some(owner), e, states)
      ensures Kept(old(owners), owners)
    {
      hide Fanned, Seen, Sound, Fits, Appended;
      var all := connections;
      var i := 0;
      FanNone(states, owners, Some(owner), e, all);
      while i < |all|
        invariant 0 <= i <= |all| && Valid() && Kept(old(owners), owners) && Distinct(all)
        invariant forall k :: k in all <==> k in old(states)
        invariant Fanned(old(states), old(owners), Some(owner), e, states, Seen(all, i))
      {
        SeenGrows(all, i);
        FanOne(old(states), old(owners), Some(owner), e, states, Seen(all, i), all[i]);
        if owners[all[i]] == owner {
          Enqueue(all[i], e);
        }
        i := i + 1;
      }
      SeenAll(all, old(states).Keys);
    }

    method Broadcast(e: Entry)
      requires Valid()
      modifies this
      ensures Valid() && FannedOut(old(states), old(owners), None, e, states)
      ensures Kept(old(owners), owners)
    {
      hide Fanned, Seen, Sound, Fits, Appended;
      var all := connections;
      var i := 0;
      FanNone(states, owners, None, e, all);
      while i < |all|
        invariant 0 <= i <= |all| && Valid() && Kept(old(owners), owners) && Distinct(all)
        invariant forall k :: k in all <==> k in old(states)
        invariant Fanned(old(states), old(owners), None, e, states, Seen(all, i))
      {
        SeenGrows(all, i);
        FanOne(old(states), old(owners), None, e, states, Seen(all, i), all[i]);
        Enqueue(all[i], e);
        i := i + 1;
      }
      SeenAll(all, old(states).Keys);
    }

    /** `_broadcast` of main.py: an owner key routes, its absence means everyone. */
    method Deliver(e: Entry, ghost sockets: map<SocketId, P.Socket>)
      requires Valid() && Mirrors(states, owners, sockets)
      modifies this
      ensures Valid() && FannedOut(old(states), old(owners), e.frame.owner, e, states)
      ensures Mirrors(states, owners, P.Fan(sockets, e.frame, Overflowing(old(states), e)))
    {
      if e.frame.owner.Some? {
        SendToOwner(e.frame.owner.value, e);
      } else {
        Broadcast(e);
      }
      FanOutIsThePipelines(old(states), old(owners), e, states, owners, sockets);
    }

    /** One turn of the sender with a frame waiting: take the head, count it off, and
        send it exactly if its session is in its device's slot now. */
    method TakeNext(ws: SocketId, slots: map<P.Device, P.Slot>) returns (send: Option<Entry>)
      requires Valid() && ws in states && states[ws].ready && states[ws].sending.None? && states[ws].queue != []
      modifies this
      ensures Valid() && owners == old(owners)
      ensures HasTurn(old(states)[ws]) && states == old(states)[ws := Turned(old(states)[ws], slots)]
      ensures send == if P.CurrentIn(slots, old(states)[ws].queue[0].frame) then Some(old(states)[ws].queue[0])
              else None
      ensures states[ws].sending == send
    {
      var head := states[ws].queue[0];
      HeadIsCounted(states[ws].queue);
      hide SizeOf, P.CurrentIn;
      send := if P.CurrentIn(slots, head.frame) then Some(head) else None;
      states := states[ws := states[ws].(queue := states[ws].queue[1..], sending := send,
                                         queuedBytes := states[ws].queuedBytes - head.size)];
    }

    /** `send_text` came back: the frame is with the browser, which is the pipeline's
        hand-over. */
    method Sent(ws: SocketId, ghost s: P.State)
      requires Valid() && ws in states && states[ws].sending.Some? && Mirrors(states, owners, s.sockets)
      modifies this
      ensures Valid() && owners == old(owners) && states == old(states)[ws := old(states)[ws].(sending := None)]
      ensures P.Enabled(s, P.Hand(ws)) && Mirrors(states, owners, P.Step(s, P.Hand(ws)).sockets)
    {
      hide P.Step, P.Enabled, Mirrors, SizeOf, Distinct;
      SentIsThePipelines(states, owners, s, ws);
      states := states[ws := states[ws].(sending := None)];
    }

    /** The sender goes back to waiting: only unready or with nothing queued, so no
        frame is left without a wake-up. */
    method Rest(ws: SocketId)
      requires Valid() && ws in states && states[ws].sending.None? && (!states[ws].ready || states[ws].queue == [])
      modifies this
      ensures Valid() && owners == old(owners) && states == old(states)[ws := old(states)[ws].(signalled := false)]
    {
      states := states[ws := states[ws].(signalled := false)];
    }
  }
}
