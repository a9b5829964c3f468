/** The writer thread of one run and the control checks in front of it
    (terminal_run.py, terminal_control.py). */
module TerminalWriters {
  import opened Common
  import opened Config

  type SocketId = string

  /** Who an item comes from: the browser that had control at some revision, or
      the dashboard itself. */
  datatype Origin = Typed(controller: SocketId, rev: nat) | Own

  datatype Item = Write(data: Bytes, origin: Origin) | Resize(cols: int, rows: int)

  /** `current` is the unsent rest of the item at hand, `over` that the thread has
      returned, `taken` every item dequeued and `channel` every byte the channel took. */
  datatype Writer = Writer(items: seq<Item>, pending: int, closed: bool, current: Option<Bytes>, over: bool,
                           taken: seq<Item>, channel: Bytes)

  /** `accepted` is the typed input let in since the last claim. */
  datatype State = State(controller: Option<SocketId>, rev: nat, writer: Writer, accepted: seq<Item>)

  const EMPTY := Writer([], 0, false, None, false, [], [])
  const START := State(None, 0, EMPTY, [])

  /** `valid`: the run is the owner's, current and ready. */
  datatype Action =
    | Claim(socket: SocketId, valid: bool)
    | Input(socket: SocketId, rev: nat, chars: nat, data: Bytes, valid: bool)
    | ResizeTo(socket: SocketId, rev: nat, cols: int, rows: int, valid: bool)
    | Redraw(cols: int, rows: int)
    | Password(password: Bytes)
    | Interrupt
    | Close
    | Take
    | Send(count: nat)
    | Finish
    | GiveUp
    | Return

  const CTRL_C: Bytes := [3]
  const NEWLINE: Bytes := [10]

  predicate IsTyped(item: Item) { item.Write? && item.origin.Typed? }

  function TypedBytes(items: seq<Item>): nat {
    if items == [] then 0 else (if IsTyped(items[0]) then |items[0].data| else 0) + TypedBytes(items[1..])
  }

  /** `clear_input`: everything but typed input stays. */
  function Untyped(items: seq<Item>): seq<Item> {
    if items == [] then [] else (if IsTyped(items[0]) then [] else [items[0]]) + Untyped(items[1..])
  }

  /** The input typed under one revision, in order. */
  function Under(rev: nat, items: seq<Item>): seq<Item> {
    if items == [] then []
    else (if IsTyped(items[0]) && items[0].origin.rev == rev then [items[0]] else []) + Under(rev, items[1..])
  }

  predicate Full(w: Writer, data: Bytes) { w.closed || w.pending + |data| > TERM_PENDING_INPUT_MAX_BYTES }

  function Put(w: Writer, item: Item): Writer { if w.closed then w else w.(items := w.items + [item]) }

  /** The checks of `terminal_input` and `terminal_resize`. */
  predicate Controls(s: State, socket: SocketId, rev: nat) { s.controller == Some(socket) && s.rev == rev }

  function Typing(socket: SocketId, rev: nat, data: Bytes): Item { Write(data, Typed(socket, rev)) }

  function Clamp(low: int, high: int, x: int): int { Max(low, Min(high, x)) }

  /** `clamp_size` on the numbers a browser sends. */
  function ClampSize(cols: int, rows: int): (int, int) {
    (Clamp(TERM_MIN_COLS, TERM_MAX_COLS, cols), Clamp(TERM_MIN_ROWS, TERM_MAX_ROWS, rows))
  }

  function ClampedResize(cols: int, rows: int): Item { Resize(ClampSize(cols, rows).0, ClampSize(cols, rows).1) }

  /** A resize within the supported bounds that honours what was asked for if it can. */
  predicate SizeFits(item: Item, cols: int, rows: int) {
    && item.Resize? && TERM_MIN_COLS <= item.cols <= TERM_MAX_COLS && TERM_MIN_ROWS <= item.rows <= TERM_MAX_ROWS
    && (TERM_MIN_COLS <= cols <= TERM_MAX_COLS ==> item.cols == cols)
    && (TERM_MIN_ROWS <= rows <= TERM_MAX_ROWS ==> item.rows == rows)
    && (cols > TERM_MAX_COLS ==> item.cols == TERM_MAX_COLS) && (rows > TERM_MAX_ROWS ==> item.rows == TERM_MAX_ROWS)
    && (cols < TERM_MIN_COLS ==> item.cols == TERM_MIN_COLS) && (rows < TERM_MIN_ROWS ==> item.rows == TERM_MIN_ROWS)
  }

  predicate Enabled(s: State, a: Action) {
    var w := s.writer;
    match a
    case Take => !w.over && !w.closed && w.current.None? && w.items != []
    case Send(count) => !w.over && w.current.Some? && 0 < count <= |w.current.value|
    case Finish => !w.over && w.current == Some([])
    case GiveUp => !w.over && w.current.Some? && w.current.value != []
    case Return => !w.over && w.closed && w.current.None?
    case _ => true
  }

  function Taken(w: Writer): Writer
    requires w.items != []
  {
    var item := w.items[0];
    w.(items := w.items[1..], taken := w.taken + [item],
       pending := if IsTyped(item) then w.pending - |item.data| else w.pending,
       current := if item.Write? then Some(item.data) else None)
  }

  function Step(s: State, a: Action): State
    requires Enabled(s, a)
  {
    var w := s.writer;
    match a
    case Claim(socket, valid) =>
      if !valid then s
      else s.(controller := Some(socket), rev := s.rev + 1, writer := w.(items := Untyped(w.items), pending := 0),
          accepted := [])
    case Input(socket, rev, chars, data, valid) =>
      if !valid || chars > TERM_INPUT_MAX_CHARS || !Controls(s, socket, rev) || Full(w, data) then s
      else
        var item := Typing(socket, rev, data);
        s.(writer := w.(items := w.items + [item], pending := w.pending + |data|), accepted := s.accepted + [item])
    case ResizeTo(socket, rev, cols, rows, valid) =>
      if !valid || !Controls(s, socket, rev) then s else s.(writer := Put(w, ClampedResize(cols, rows)))
    case Redraw(cols, rows) => s.(writer := Put(Put(w, Resize(cols, rows - 1)), Resize(cols, rows)))
    case Password(password) => if password == [] then s else s.(writer := Put(w, Write(password + NEWLINE, Own)))
    case Interrupt => if w.closed then s else s.(writer := w.(items := [Write(CTRL_C, Own)] + w.items))
    case Close => s.(writer := w.(closed := true))
    case Take => s.(writer := Taken(w))
    case Send(count) => s.(writer := w.(channel := w.channel + w.current.value[..count],
        current := Some(w.current.value[count..])))
    case Finish => s.(writer := w.(current := None))
    case GiveUp => s.(writer := w.(over := true))
    case Return => s.(writer := w.(over := true))
  }

  ghost predicate IsRun(s: State, actions: seq<Action>)
    decreases |actions|
  {
    actions == [] || (Enabled(s, actions[0]) && IsRun(Step(s, actions[0]), actions[1..]))
  }

  function After(s: State, actions: seq<Action>): State
    requires IsRun(s, actions)
    decreases |actions|
  {
    if actions == [] then s else After(Step(s, actions[0]), actions[1..])
  }

  // ---- what reaches the channel -------------------------------------------------

  /** The bytes items stand for, joined in order; a resize stands for none. */
  function Joined(items: seq<Item>): Bytes {
    if items == [] then [] else (if items[0].Write? then items[0].data else []) + Joined(items[1..])
  }

  lemma {:induction false} JoinedSnoc(items: seq<Item>, item: Item)
    ensures Joined(items + [item]) == Joined(items) + if item.Write? then item.data else []
  {
    if items == [] {
      assert [item][1..] == [];
    } else {
      assert (items + [item])[0] == items[0] && (items + [item])[1..] == items[1..] + [item];
      JoinedSnoc(items[1..], item);
    }
  }

  function Rest(w: Writer): Bytes { if w.current.Some? then w.current.value else [] }

  /** What the channel took and the rest of the item at hand make up exactly the
      dequeued items; only the last of them can be unfinished. */
  predicate SentInv(w: Writer) {
    && w.channel + Rest(w) == Joined(w.taken)
    && (w.current.Some? ==>
          w.taken != [] && w.taken[|w.taken| - 1].Write? && |Rest(w)| <= |w.taken[|w.taken| - 1].data|)
  }

  lemma StepKeepsSent(s: State, a: Action)
    requires Enabled(s, a) && SentInv(s.writer)
    ensures SentInv(Step(s, a).writer)
  {
    var w := s.writer;
    if a.Take? {
      JoinedSnoc(w.taken, w.items[0]);
    } else if a.Send? {
      assert w.current.value[..a.count] + w.current.value[a.count..] == w.current.value;
      assert w.channel + w.current.value[..a.count] + w.current.value[a.count..] == w.channel + w.current.value;
    }
  }

  // ---- who typed what is queued ----------------------------------------------------

  /** The counter is the typed bytes in the queue and keeps to its limit. */
  predicate PendingInv(w: Writer) { w.pending == TypedBytes(w.items) && w.pending <= TERM_PENDING_INPUT_MAX_BYTES }

  predicate From(item: Item, controller: Option<SocketId>, rev: nat) {
    IsTyped(item) ==> controller == Some(item.origin.controller) && item.origin.rev == rev
  }

  /** All queued typing is the present controller's, under the present revision;
      what was taken earlier is under no later one. */
  predicate OriginInv(s: State) {
    && (forall i :: 0 <= i < |s.writer.items| ==> From(s.writer.items[i], s.controller, s.rev))
    && (forall i :: 0 <= i < |s.writer.taken| && IsTyped(s.writer.taken[i]) ==> s.writer.taken[i].origin.rev <= s.rev)
  }

  /** What was let in since the claim is taken or queued, in the order it came. */
  predicate AcceptedInv(s: State) { Under(s.rev, s.writer.taken) + Under(s.rev, s.writer.items) == s.accepted }

  predicate QueueInv(s: State) { PendingInv(s.writer) && OriginInv(s) && AcceptedInv(s) }

  predicate Inv(s: State) { SentInv(s.writer) && QueueInv(s) }

  lemma {:induction false} UntypedHasNone(items: seq<Item>, rev: nat)
    ensures forall i :: 0 <= i < |Untyped(items)| ==> !IsTyped(Untyped(items)[i])
    ensures TypedBytes(Untyped(items)) == 0 && Under(rev, Untyped(items)) == []
  {
    if items != [] {
      UntypedHasNone(items[1..], rev);
      if IsTyped(items[0]) {
        assert Untyped(items) == Untyped(items[1..]);
      } else {
        assert Untyped(items)[0] == items[0] && Untyped(items)[1..] == Untyped(items[1..]);
        HeadCounts(Untyped(items), rev);
      }
    }
  }

  lemma {:induction false} SnocCounts(items: seq<Item>, item: Item, rev: nat)
    ensures TypedBytes(items + [item]) == TypedBytes(items) + if IsTyped(item) then |item.data| else 0
    ensures Under(rev, items + [item]) == Under(rev, items) +
            if IsTyped(item) && item.origin.rev == rev then [item] else []
  {
    if items == [] {
      assert [item][1..] == [];
    } else {
      assert (items + [item])[0] == items[0] && (items + [item])[1..] == items[1..] + [item];
      SnocCounts(items[1..], item, rev);
    }
  }

  lemma HeadCounts(items: seq<Item>, rev: nat)
    requires items != []
    ensures TypedBytes(items) == TypedBytes(items[1..]) + if IsTyped(items[0]) then |items[0].data| else 0
    ensures Under(rev, items) == (if IsTyped(items[0]) && items[0].origin.rev == rev then [items[0]] else []) +
            Under(rev, items[1..])
  {
  }

  lemma {:induction false} NoneYet(items: seq<Item>, rev: nat)
    requires forall i :: 0 <= i < |items| && IsTyped(items[i]) ==> items[i].origin.rev < rev
    ensures Under(rev, items) == []
  {
    if items != [] { NoneYet(items[1..], rev); }
  }

  lemma PutKeepsQueue(s: State, item: Item)
    requires QueueInv(s) && !IsTyped(item)
    ensures QueueInv(s.(writer := Put(s.writer, item)))
  {
    SnocCounts(s.writer.items, item, s.rev);
    hide Under, TypedBytes;
  }

  lemma PushFrontKeepsQueue(s: State, item: Item)
    requires QueueInv(s) && !IsTyped(item)
    ensures QueueInv(s.(writer := s.writer.(items := [item] + s.writer.items)))
  {
    HeadCounts([item] + s.writer.items, s.rev);
    assert ([item] + s.writer.items)[1..] == s.writer.items;
    hide Under, TypedBytes;
  }

  lemma InputKeepsQueue(s: State, socket: SocketId, data: Bytes)
    requires QueueInv(s) && s.controller == Some(socket) && !Full(s.writer, data)
    ensures var item := Typing(socket, s.rev, data);
            QueueInv(s.(writer := s.writer.(items := s.writer.items + [item], pending := s.writer.pending + |data|),
                accepted := s.accepted + [item]))
  {
    SnocCounts(s.writer.items, Typing(socket, s.rev, data), s.rev);
    hide Under, TypedBytes;
  }

  lemma ClaimKeepsQueue(s: State, socket: SocketId)
    requires QueueInv(s)
    ensures QueueInv(s.(controller := Some(socket), rev := s.rev + 1,
            writer := s.writer.(items := Untyped(s.writer.items), pending := 0), accepted := []))
  {
    UntypedHasNone(s.writer.items, s.rev + 1);
    NoneYet(s.writer.taken, s.rev + 1);
    hide Under, TypedBytes, Untyped;
  }

  lemma TakeKeepsQueue(s: State)
    requires QueueInv(s) && s.writer.items != [] && s.writer.current.None?
    ensures QueueInv(s.(writer := Taken(s.writer)))
  {
    HeadCounts(s.writer.items, s.rev);
    SnocCounts(s.writer.taken, s.writer.items[0], s.rev);
    assert From(s.writer.items[0], s.controller, s.rev);
    TakeKeepsOrigin(s);
    hide Under, TypedBytes, OriginInv, From;
    var t := s.(writer := Taken(s.writer));
    assert PendingInv(t.writer);
  }

  lemma TakeKeepsOrigin(s: State)
    requires OriginInv(s) && s.writer.items != []
    ensures OriginInv(s.(writer := Taken(s.writer)))
  {
    assert From(s.writer.items[0], s.controller, s.rev);
  }

  lemma StepKeepsInv(s: State, a: Action)
    requires Inv(s) && Enabled(s, a)
    ensures Inv(Step(s, a))
  {
    StepKeepsSent(s, a);
    hide SentInv, QueueInv, Under, TypedBytes, Untyped;
    match a
    case Claim(socket, _) => ClaimKeepsQueue(s, socket);
    case Input(socket, rev, _, data, _) =>
      if Controls(s, socket, rev) && !Full(s.writer, data) { InputKeepsQueue(s, socket, data); }
    case ResizeTo(_, _, cols, rows, _) => PutKeepsQueue(s, ClampedResize(cols, rows));
    case Redraw(cols, rows) =>
      PutKeepsQueue(s, Resize(cols, rows - 1));
      PutKeepsQueue(s.(writer := Put(s.writer, Resize(cols, rows - 1))), Resize(cols, rows));
    case Password(password) => PutKeepsQueue(s, Write(password + NEWLINE, Own));
    case Interrupt => PushFrontKeepsQueue(s, Write(CTRL_C, Own));
    case Take => TakeKeepsQueue(s);
    case _ => QueueUntouched(s, a);
  }

  lemma QueueUntouched(s: State, a: Action)
    requires QueueInv(s) && Enabled(s, a) && (a.Close? || a.Send? || a.Finish? || a.GiveUp? || a.Return?)
    ensures QueueInv(Step(s, a))
  {
  }

  lemma {:induction false} RunKeepsInv(s: State, actions: seq<Action>)
    requires Inv(s) && IsRun(s, actions)
    ensures Inv(After(s, actions))
    decreases |actions|
  {
    hide Inv;
    if actions != [] {
      StepKeepsInv(s, actions[0]);
      RunKeepsInv(Step(s, actions[0]), actions[1..]);
    }
  }

  /** For any pattern of partial sends, timeouts, failures and closes the channel
      holds a prefix of the dequeued items joined in order, and every item but the
      last is on it in full. */
  lemma ChannelHoldsWholeItems(actions: seq<Action>)
    requires IsRun(START, actions)
    ensures var w := After(START, actions).writer;
            && w.channel <= Joined(w.taken)
            && (w.current.None? ==> w.channel == Joined(w.taken))
            && (w.taken != [] ==> Joined(w.taken[..|w.taken| - 1]) <= w.channel)
  {
    RunKeepsInv(START, actions);
    var w := After(START, actions).writer;
    hide Joined, QueueInv, After, IsRun;
    if w.taken != [] {
      var k := |w.taken| - 1;
      JoinedSnoc(w.taken[..k], w.taken[k]);
      assert w.taken[..k] + [w.taken[k]] == w.taken;
      ShortRest(w.channel, Rest(w), Joined(w.taken[..k]), if w.taken[k].Write? then w.taken[k].data else []);
    }
  }

  lemma ShortRest(channel: Bytes, rest: Bytes, front: Bytes, last: Bytes)
    requires channel + rest == front + last && |rest| <= |last|
    ensures front <= channel
  {
    forall i | 0 <= i < |front| ensures front[i] == channel[i] {
      assert (channel + rest)[i] == (front + last)[i];
    }
  }

  /** Once the writer gave an item up, nothing more ever reaches the channel. */
  lemma {:induction false} NothingFollowsAnUnfinishedItem(s: State, actions: seq<Action>)
    requires IsRun(s, actions) && s.writer.over
    ensures var w := After(s, actions).writer;
            w.over && w.channel == s.writer.channel && w.taken == s.writer.taken && w.current == s.writer.current
    decreases |actions|
  {
    if actions != [] { NothingFollowsAnUnfinishedItem(Step(s, actions[0]), actions[1..]); }
  }

  /** At every moment the typed bytes queued are counted exactly and keep to the
      limit, all come from the browser in control under its present revision, and
      with what was taken make up what was let in since its claim, in order. */
  lemma QueuedTypingIsTheControllers(actions: seq<Action>)
    requires IsRun(START, actions)
    ensures var s := After(START, actions);
            && s.writer.pending == TypedBytes(s.writer.items) <= TERM_PENDING_INPUT_MAX_BYTES
            && (forall item :: item in s.writer.items && IsTyped(item) ==>
                  s.controller == Some(item.origin.controller) && item.origin.rev == s.rev)
            && Under(s.rev, s.writer.taken) + Under(s.rev, s.writer.items) == s.accepted
  {
    RunKeepsInv(START, actions);
    var s := After(START, actions);
    forall item | item in s.writer.items && IsTyped(item)
      ensures s.controller == Some(item.origin.controller) && item.origin.rev == s.rev
    {
      var i :| 0 <= i < |s.writer.items| && s.writer.items[i] == item;
      assert From(s.writer.items[i], s.controller, s.rev);
    }
  }

  /** An interrupt goes in front of everything queued, and is refused only by a closed
      writer. */
  lemma InterruptGoesFirst(s: State)
    ensures Step(s, Interrupt) ==
            if s.writer.closed then s else s.(writer := s.writer.(items := [Write([3], Own)] + s.writer.items))
  {
  }

  /** So it overtakes everything: in every run that begins with an interrupt of an open
      writer, whatever happens until the next item is taken, that item is Ctrl-C. */
  lemma InterruptIsNext(s: State, actions: seq<Action>)
    requires !s.writer.closed && actions != [] && actions[0] == Interrupt && IsRun(s, actions)
    requires forall i :: 0 <= i < |actions| ==> !actions[i].Take?
    ensures var items := After(s, actions).writer.items; items != [] && items[0] == Write([3], Own)
  {
    InterruptGoesFirst(s);
    HeadWaits(Step(s, Interrupt), actions[1..]);
  }

  lemma {:induction false} HeadWaits(s: State, actions: seq<Action>)
    requires IsRun(s, actions) && s.writer.items != [] && s.writer.items[0] == Write([3], Own)
    requires forall i :: 0 <= i < |actions| ==> !actions[i].Take?
    ensures var items := After(s, actions).writer.items; items != [] && items[0] == Write([3], Own)
    decreases |actions|
  {
    if actions != [] {
      HeadStays(s, actions[0]);
      hide Step;
      HeadWaits(Step(s, actions[0]), actions[1..]);
    }
  }

  lemma HeadStays(s: State, a: Action)
    requires Enabled(s, a) && !a.Take? && s.writer.items != [] && s.writer.items[0] == Write([3], Own)
    ensures var items := Step(s, a).writer.items; items != [] && items[0] == Write([3], Own)
  {
  }

  /** A claim drops what was typed and keeps everything else in its order. */
  lemma {:induction false} UntypedKeepsTheRest(a: seq<Item>, b: seq<Item>)
    ensures Untyped(a + b) == Untyped(a) + Untyped(b)
    decreases |a|
  {
    hide IsTyped;
    if a == [] {
      assert a + b == b;
    } else {
      assert (a + b)[0] == a[0] && (a + b)[1..] == a[1..] + b;
      UntypedKeepsTheRest(a[1..], b);
    }
  }

  lemma {:induction false} UntypedOfOneKind(items: seq<Item>)
    ensures (forall i :: 0 <= i < |items| ==> !IsTyped(items[i])) ==> Untyped(items) == items
    ensures (forall i :: 0 <= i < |items| ==> IsTyped(items[i])) ==> Untyped(items) == []
  {
    hide IsTyped;
    if items != [] {
      UntypedOfOneKind(items[1..]);
      assert items == [items[0]] + items[1..];
    }
  }

  /** A closed writer takes nothing more on and takes nothing more off: over every run
      from the close what was dequeued stays, and nothing new is queued. */
  lemma ClosedWriterTakesNothing(s: State, actions: seq<Action>)
    requires IsRun(Step(s, Close), actions)
    ensures var n := After(Step(s, Close), actions);
            n.writer.closed && n.writer.taken == s.writer.taken && forall item :: item in n.writer.items ==>
              item in s.writer.items
  {
    ClosedStaysClosed(Step(s, Close), actions);
  }

  lemma {:induction false} ClosedStaysClosed(s: State, actions: seq<Action>)
    requires s.writer.closed && IsRun(s, actions)
    ensures var n := After(s, actions);
            n.writer.closed && n.writer.taken == s.writer.taken && forall item :: item in n.writer.items ==>
              item in s.writer.items
    decreases |actions|
  {
    if actions != [] {
      UntypedIsPart(s.writer.items);
      assert forall item :: item in Step(s, actions[0]).writer.items ==> item in s.writer.items;
      ClosedStaysClosed(Step(s, actions[0]), actions[1..]);
    }
  }

  lemma {:induction false} UntypedIsPart(items: seq<Item>)
    ensures forall item :: item in Untyped(items) ==> item in items
  {
    if items != [] { UntypedIsPart(items[1..]); }
  }

  /** A redraw first shrinks the terminal by a row and then sets its size again. */
  lemma RedrawEndsAtTheSize(s: State, cols: int, rows: int)
    requires !s.writer.closed
    ensures Step(s, Redraw(cols, rows)).writer.items ==
            s.writer.items + [Resize(cols, rows - 1), Resize(cols, rows)]
  {
  }

  // ---- the thread's inner loop and the methods of the writer -----------------------

  /** How one turn of the sending loop finds the world. */
  datatype SendResult = Sent(count: nat) | TimedOut | Raised
  datatype Turn = Turn(closed: bool, late: bool, result: SendResult)

  lemma SendsJoin(channel: Bytes, data: Bytes, sent: nat, count: nat)
    requires sent + count <= |data|
    ensures data[sent..][count..] == data[sent + count..]
    ensures (channel + data[..sent]) + data[sent..][..count] == channel + data[..sent + count]
  {
    assert data[..sent] + data[sent..][..count] == data[..sent + count];
  }

  /** Looks that end the loop whatever is left to send. */
  predicate Fatal(turn: Turn) { turn.closed || turn.late || turn.result.Raised? || turn.result == Sent(0) }

  datatype Outcome = Outcome(sent: nat, ended: bool, stuck: bool)

  /** How the sending loop fares with so many bytes. */
  function Sending(size: nat, turns: seq<Turn>): Outcome
    decreases |turns|
  {
    if size == 0 then Outcome(0, true, false)
    else if turns == [] then Outcome(0, false, false)
    else if Fatal(turns[0]) then Outcome(0, true, turns[0].late && !turns[0].closed)
    else if turns[0].result.TimedOut? then Sending(size, turns[1..])
    else
      var count := Min(turns[0].result.count, size);
      var later := Sending(size - count, turns[1..]);
      later.(sent := count + later.sent)
  }

  /** What the channel offered to take, timeouts counting for nothing. */
  function Offered(turns: seq<Turn>): nat {
    if turns == [] then 0 else (if turns[0].result.Sent? then turns[0].result.count else 0) + Offered(turns[1..])
  }

  /** Before any fatal look the loop sends what the channel takes, and goes on
      exactly as long as bytes are left. */
  lemma {:induction false} SendingGoesOn(size: nat, turns: seq<Turn>)
    requires forall i :: 0 <= i < |turns| ==>
               !turns[i].closed && !turns[i].late && !turns[i].result.Raised? && turns[i].result != Sent(0)
    ensures Sending(size, turns) == Outcome(Min(size, Offered(turns)), Offered(turns) >= size, false)
    decreases |turns|
  {
    if size > 0 && turns != [] {
      SendingGoesOn(if turns[0].result.TimedOut? then size else size - Min(turns[0].result.count, size), turns[1..]);
    }
  }

  /** A fatal look ends the loop with what was sent until then; the thread counts
      as stuck exactly when bytes were left and only the deadline had passed. */
  lemma {:induction false} SendingEnds(size: nat, turns: seq<Turn>, i: nat)
    requires i < |turns| && forall j :: 0 <= j < i ==> !Fatal(turns[j])
    requires turns[i].closed || turns[i].late || turns[i].result.Raised? || turns[i].result == Sent(0)
    ensures var sent := Min(size, Offered(turns[..i]));
            Sending(size, turns) == Outcome(sent, true, sent < size && turns[i].late && !turns[i].closed)
    decreases i
  {
    if i > 0 && size > 0 {
      assert turns[..i][1..] == turns[1..][..i - 1];
      SendingEnds(if turns[0].result.TimedOut? then size
          else size - Min(turns[0].result.count, size), turns[1..], i - 1);
    }
  }

  predicate Continues(whole: Outcome, sent: nat, later: Outcome) { whole == later.(sent := sent + later.sent) }

  class RunTerminal {
    var controller: Option<SocketId>
    var controlRev: nat
    var items: seq<Item>
    var pendingInput: int
    var closed: bool
    var current: Option<Bytes>
    var over: bool
    ghost var taken: seq<Item>
    ghost var channel: Bytes
    ghost var accepted: seq<Item>

    ghost function Value(): State reads this {
      State(controller, controlRev, Writer(items, pendingInput, closed, current, over, taken, channel), accepted)
    }

    constructor ()
      ensures Value() == START
    {
      controller, controlRev, items, pendingInput, closed, current, over := None, 0, [], 0, false, None, false;
      taken, channel, accepted := [], [], [];
    }

    /** `claim_terminal`: control moves on, and what the last controller still had
        queued is thrown away. */
    method ClaimTerminal(socket: SocketId, valid: bool) returns (rev: Option<nat>)
      requires Inv(Value())
      modifies this
      ensures Value() == Step(old(Value()), Claim(socket, valid)) && Inv(Value())
      ensures rev == if valid then Some(controlRev) else None
      ensures valid ==> controller == Some(socket) && controlRev == old(controlRev) + 1 && pendingInput == 0
      ensures valid ==> forall i :: 0 <= i < |items| ==> !IsTyped(items[i])
      ensures (forall i :: 0 <= i < |old(items)| ==> !IsTyped(old(items)[i])) ==> items == old(items)
      ensures !valid ==> Value() == old(Value())
    {
      hide Inv, Step, Untyped, TypedBytes, Under;
      UntypedHasNone(items, 0);
      UntypedOfOneKind(items);
      ClaimIs(Value(), socket, valid);
      StepKeepsInv(Value(), Claim(socket, valid));
      if !valid {
        return None;
      }
      controller := Some(socket);
      controlRev := controlRev + 1;
      items := Untyped(items);
      pendingInput := 0;
      accepted := [];
      return Some(controlRev);
    }

    /** `terminal_input` and the writer's `input`: refused without control, full at the limit. */
    method TerminalInput(socket: SocketId, rev: nat, chars: nat, data: Bytes, valid: bool) returns (ok: bool,
        full: bool)
      requires Inv(Value())
      modifies this
      ensures Value() == Step(old(Value()), Input(socket, rev, chars, data, valid)) && Inv(Value())
      ensures ok ==> items == old(items) + [Typing(socket, rev, data)]
      ensures !ok ==> Value() == old(Value())
      ensures ok || full <==> valid && chars <= TERM_INPUT_MAX_CHARS && Controls(old(Value()), socket, rev)
      ensures ok <==> valid && chars <= TERM_INPUT_MAX_CHARS && controller == Some(socket) && controlRev == rev
                      && !closed && old(pendingInput) + |data| <= TERM_PENDING_INPUT_MAX_BYTES
      ensures ok ==> pendingInput == old(pendingInput) + |data|
    {
      StepKeepsInv(Value(), Input(socket, rev, chars, data, valid));
      if !(chars <= TERM_INPUT_MAX_CHARS && valid && controller == Some(socket) && controlRev == rev) {
        return false, false;
      }
      if closed || pendingInput + |data| > TERM_PENDING_INPUT_MAX_BYTES {
        return false, true;
      }
      items := items + [Typing(socket, rev, data)];
      pendingInput := pendingInput + |data|;
      accepted := accepted + [Typing(socket, rev, data)];
      return true, false;
    }

    method QueuePassword(password: Bytes)
      requires Inv(Value())
      modifies this
      ensures Value() == Step(old(Value()), Password(password)) && Inv(Value())
      ensures items == if password == [] || closed then old(items) else old(items) + [Write(password + [10], Own)]
    {
      StepKeepsInv(Value(), Password(password));
      if password != [] && !closed {
        items := items + [Write(password + NEWLINE, Own)];
      }
    }

    method InterruptProgram()
      requires Inv(Value())
      modifies this
      ensures Value() == Step(old(Value()), Interrupt) && Inv(Value())
      ensures !old(closed) ==> items == [Write([3], Own)] + old(items)
      ensures old(closed) ==> Value() == old(Value())
    {
      StepKeepsInv(Value(), Interrupt);
      if !closed {
        items := [Write(CTRL_C, Own)] + items;
      }
    }

    method TerminalResize(socket: SocketId, rev: nat, cols: int, rows: int, valid: bool) returns (ok: bool)
      requires Inv(Value())
      modifies this
      ensures Value() == Step(old(Value()), ResizeTo(socket, rev, cols, rows, valid)) && Inv(Value())
      ensures ok <==> valid && Controls(old(Value()), socket, rev)
      ensures ok && !closed ==> |items| == |old(items)| + 1 && items[..|old(items)|] == old(items) &&
                                SizeFits(items[|items| - 1], cols, rows)
      ensures !ok || closed ==> items == old(items)
    {
      StepKeepsInv(Value(), ResizeTo(socket, rev, cols, rows, valid));
      ok := valid && controller == Some(socket) && controlRev == rev;
      if ok && !closed {
        var (c, r) := ClampSize(cols, rows);
        items := items + [Resize(c, r)];
      }
    }

    /** The locked section at the top of the thread's loop. */
    method TakeItem() returns (item: Option<Item>)
      requires Inv(Value()) && !over && current.None?
      modifies this
      ensures Inv(Value())
      ensures Value() == if old(closed) then Step(old(Value()), Return)
                         else if old(items) == [] then old(Value()) else Step(old(Value()), Take)
      ensures item == if old(closed) || old(items) == [] then None else Some(old(items)[0])
      ensures items == (if item.Some? then old(items)[1..] else old(items)) && (over <==> old(closed))
      ensures taken == (if item.Some? then old(taken) + [item.value] else old(taken))
      ensures current == if item.Some? && item.value.Write? then Some(item.value.data) else None
    {
      hide Inv;
      if closed {
        StepKeepsInv(Value(), Return);
        over := true;
        return None;
      }
      if items == [] {
        return None;
      }
      StepKeepsInv(Value(), Take);
      item := Some(items[0]);
      items := items[1..];
      taken := taken + [item.value];
      if IsTyped(item.value) {
        pendingInput := pendingInput - |item.value.data|;
      }
      if item.value.Write? {
        current := Some(item.value.data);
      }
    }

    /** The sending loop for the item at hand: it ends with all of the item on the
        channel, or the thread gives up for good. `turns` is how the clock, the
        closed flag and the channel behave; when it runs out the loop is still going. */
    method SendItem(turns: seq<Turn>) returns (sent: nat, ended: bool, stuck: bool)
      requires Inv(Value()) && !over && current.Some?
      modifies this
      ensures sent <= |old(current).value| && Inv(Value())
      ensures Outcome(sent, ended, stuck) == Sending(|old(current).value|, turns)
      ensures channel == old(channel) + old(current).value[..sent]
      ensures ended && sent == |old(current).value| <==> !over && current.None?
      ensures ended && sent < |old(current).value| <==> over
      ensures !ended ==> current == Some(old(current).value[sent..])
      ensures stuck ==> over
      ensures items == old(items) && taken == old(taken) && controller == old(controller) &&
              controlRev == old(controlRev)
    {
      hide Inv, Step, Enabled, Sending;
      ghost var start := Value();
      sent, ended, stuck := SendRest(turns);
      SendKeepsInv(start, sent);
      if current == Some([]) {
        ended := true;
        FinishIs(Value());
        StepKeepsInv(Value(), Finish);
        current := None;
      } else if ended {
        GiveUpIs(Value());
        StepKeepsInv(Value(), GiveUp);
        over := true;
      }
    }

    /** The loop itself, on the channel and the rest of the item. */
    method SendRest(turns: seq<Turn>) returns (sent: nat, ended: bool, stuck: bool)
      requires current.Some?
      modifies `channel, `current
      ensures sent <= |old(current).value| && current == Some(old(current).value[sent..])
      ensures channel == old(channel) + old(current).value[..sent]
      ensures Outcome(sent, ended, stuck) == Sending(|old(current).value|, turns)
      ensures stuck ==> ended && sent < |old(current).value|
      ensures sent == |old(current).value| ==> ended
    {
      hide Sending, Continues;
      var data := current.value;
      var rest := data;
      var i := 0;
      sent, ended, stuck := 0, false, false;
      NothingSent(data, channel, turns);
      while rest != [] && !ended
        invariant i <= |turns| && sent <= |data| && rest == data[sent..] && current == Some(rest)
        invariant channel == old(channel) + data[..sent]
        invariant stuck ==> ended
        invariant ended ==> rest != [] && Sending(|data|, turns) == Outcome(sent, ended, stuck)
        invariant !ended ==> Continues(Sending(|data|, turns), sent, Sending(|rest|, turns[i..]))
        decreases |turns| - i, !ended
      {
        SendingTurn(Sending(|data|, turns), sent, |rest|, turns, i);
        if i == |turns| {
          return;
        }
        var turn := turns[i];
        i := i + 1;
        if turn.closed {
          ended := true;
        } else if turn.late {
          ended, stuck := true, true;
        } else if turn.result.Raised? || turn.result == Sent(0) {
          ended := true;
        } else if turn.result.Sent? {
          var count := if turn.result.count <= |rest| then turn.result.count else |rest|;
          SendsJoin(old(channel), data, sent, count);
          channel := channel + rest[..count];
          rest := rest[count..];
          current := Some(rest);
          sent := sent + count;
        }
      }
      if rest == [] {
        AllSent(Sending(|data|, turns), sent, turns[i..]);
        ended := true;
      }
    }
  }

  lemma NothingSent(data: Bytes, channel: Bytes, turns: seq<Turn>)
    ensures data[0..] == data && channel + data[..0] == channel && turns[0..] == turns
    ensures Continues(Sending(|data|, turns), 0, Sending(|data|, turns))
  {
  }

  lemma AllSent(whole: Outcome, sent: nat, later: seq<Turn>)
    requires Continues(whole, sent, Sending(0, later))
    ensures whole == Outcome(sent, true, false)
  {
  }

  /** One turn of the loop with bytes left. */
  lemma SendingTurn(whole: Outcome, sent: nat, left: nat, turns: seq<Turn>, i: nat)
    requires i <= |turns| && left > 0 && Continues(whole, sent, Sending(left, turns[i..]))
    ensures i == |turns| ==> whole == Outcome(sent, false, false)
    ensures i < |turns| && turns[i].closed ==> whole == Outcome(sent, true, false)
    ensures i < |turns| && !turns[i].closed && turns[i].late ==> whole == Outcome(sent, true, true)
    ensures i < |turns| && Fatal(turns[i]) && !turns[i].closed && !turns[i].late ==>
              whole == Outcome(sent, true, false)
    ensures i < |turns| && !turns[i].closed && !turns[i].late && turns[i].result.TimedOut? ==>
              Continues(whole, sent, Sending(left, turns[i + 1..]))
    ensures i < |turns| && !Fatal(turns[i]) && turns[i].result.Sent? ==>
              var count := Min(turns[i].result.count, left);
              Continues(whole, sent + count, Sending(left - count, turns[i + 1..]))
  {
    if i < |turns| { assert turns[i..][0] == turns[i] && turns[i..][1..] == turns[i + 1..]; }
  }

  lemma ClaimIs(s: State, socket: SocketId, valid: bool)
    ensures Step(s, Claim(socket, valid)) ==
            if !valid then s
            else s.(controller := Some(socket), rev := s.rev + 1, accepted := [],
                    writer := s.writer.(items := Untyped(s.writer.items), pending := 0))
  {
  }

  lemma FinishIs(s: State)
    requires !s.writer.over && s.writer.current == Some([])
    ensures Enabled(s, Finish) && Step(s, Finish) == s.(writer := s.writer.(current := None))
  {
  }

  lemma GiveUpIs(s: State)
    requires !s.writer.over && s.writer.current.Some? && s.writer.current.value != []
    ensures Enabled(s, GiveUp) && Step(s, GiveUp) == s.(writer := s.writer.(over := true))
  {
  }

  lemma SendKeepsInv(s: State, sent: nat)
    requires Inv(s) && !s.writer.over && s.writer.current.Some? && sent <= |s.writer.current.value|
    ensures Inv(s.(writer := s.writer.(channel := s.writer.channel + s.writer.current.value[..sent],
            current := Some(s.writer.current.value[sent..]))))
  {
    hide Joined, Under, TypedBytes, QueueInv;
    var rest := s.writer.current.value;
    if sent == 0 {
      assert rest[0..] == rest && s.writer.channel + rest[..0] == s.writer.channel;
    } else {
      StepKeepsInv(s, Send(sent));
    }
  }
}
