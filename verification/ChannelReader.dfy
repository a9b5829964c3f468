/** The reader loop of one run (terminal_run.py): two byte streams of a channel go
    through the sudo gate, the decoder and the batcher to the emit callback. */
module ChannelReaders {
  import opened Common
  import opened Config
  import opened SudoGates
  import opened OutputBatchers

  /** One turn of the reading loop: the answer of `should_continue`, and what the
      two streams have ready. A stream that is ready may still hand over nothing. */
  datatype Round = Round(goOn: bool, out: Option<Bytes>, err: Option<Bytes>)

  /** How the channel and the callbacks behave: rounds until the exit status is
      there, then the last look at `should_continue` and what is left to drain.
      `accepts` answers emit by batch number, `clock` gives its readings in turn. */
  datatype Script = Script(rounds: seq<Round>, lastGoOn: bool, drainOut: seq<Bytes>, drainErr: seq<Bytes>,
                           accepts: nat -> bool, clock: nat -> real, exitCode: int)

  /** What the caller sees of a run, in order. */
  datatype Event = Started | PasswordAsked | Offered(batch: Batch, accepted: bool) | ChannelClosed

  datatype ReadResult = ReadResult(gatePassed: bool, refused: bool, superseded: bool, exitCode: int)

  function Ready(raw: Option<Bytes>): seq<Bytes> { if raw.Some? && raw.value != [] then [raw.value] else [] }

  function RoundPieces(rounds: seq<Round>): seq<Bytes> {
    if rounds == [] then [] else Ready(rounds[0].out) + Ready(rounds[0].err) + RoundPieces(rounds[1..])
  }

  /** Draining stops at the first empty read. */
  function UpToEmpty(raws: seq<Bytes>): seq<Bytes> {
    if raws == [] || raws[0] == [] then [] else [raws[0]] + UpToEmpty(raws[1..])
  }

  /** Everything there is to receive, in order. */
  function AllPieces(s: Script): seq<Bytes> { RoundPieces(s.rounds) + UpToEmpty(s.drainOut) + UpToEmpty(s.drainErr) }

  /** What the two streams hand over in turn, standard output first. */
  function Spoken(rounds: seq<Round>): Bytes {
    if rounds == [] then []
    else
      (if rounds[0].out.Some? then rounds[0].out.value else []) +
      (if rounds[0].err.Some? then rounds[0].err.value else []) + Spoken(rounds[1..])
  }

  lemma FlattenReady(raw: Option<Bytes>, rest: seq<Bytes>)
    ensures Flatten(Ready(raw) + rest) == (if raw.Some? then raw.value else []) + Flatten(rest)
  {
    if raw.Some? && raw.value != [] {
      assert ([raw.value] + rest)[0] == raw.value && ([raw.value] + rest)[1..] == rest;
    } else {
      assert [] + rest == rest && [] + Flatten(rest) == Flatten(rest);
    }
  }

  /** No byte of a round is skipped, repeated or moved. */
  lemma {:induction false} EveryByteIsRead(rounds: seq<Round>)
    ensures Flatten(RoundPieces(rounds)) == Spoken(rounds)
  {
    hide Ready, Flatten;
    if rounds == [] {
      FlattenNone();
    } else {
      var out, err := rounds[0].out, rounds[0].err;
      var rest := RoundPieces(rounds[1..]);
      EveryByteIsRead(rounds[1..]);
      FlattenReady(err, rest);
      FlattenReady(out, Ready(err) + rest);
      assert Ready(out) + Ready(err) + rest == Ready(out) + (Ready(err) + rest);
    }
  }

  lemma FlattenNone()
    ensures Flatten<byte>([]) == []
  {
  }

  /** The drain takes everything up to the first empty read. */
  lemma {:induction false} DrainStopsAtEmpty(raws: seq<Bytes>)
    ensures var n := |UpToEmpty(raws)|;
            && n <= |raws| && UpToEmpty(raws) == raws[..n] && (n < |raws| ==> raws[n] == [])
            && forall i :: 0 <= i < n ==> raws[i] != []
  {
    if raws != [] && raws[0] != [] {
      DrainStopsAtEmpty(raws[1..]);
      var n := |UpToEmpty(raws[1..])|;
      assert [raws[0]] + raws[1..][..n] == raws[..n + 1];
    }
  }

  predicate AlwaysGoesOn(s: Script) { s.lastGoOn && forall i :: 0 <= i < |s.rounds| ==> s.rounds[i].goOn }

  /** The gate's account of the pieces, or the bytes themselves without a gate. */
  function Through(gated: bool, p: Patterns, pieces: seq<Bytes>): Summary
    requires p.Valid()
  {
    if gated then FeedAll(p, INITIAL, pieces) else Summary(INITIAL, Flatten(pieces), 0)
  }

  function Offers(log: seq<Event>): seq<Batch> {
    if log == [] then [] else (if log[0].Offered? then [log[0].batch] else []) + Offers(log[1..])
  }

  function Passwords(log: seq<Event>): nat {
    if log == [] then 0 else (if log[0].PasswordAsked? then 1 else 0) + Passwords(log[1..])
  }

  function Starts(log: seq<Event>): nat {
    if log == [] then 0 else (if log[0].Started? then 1 else 0) + Starts(log[1..])
  }

  /** No output is offered before the start was announced. */
  predicate StartsFirst(log: seq<Event>) { forall i :: 0 <= i < |log| && log[i].Offered? ==> Started in log[..i] }

  lemma {:induction false} LogSnoc(log: seq<Event>, e: Event)
    ensures Offers(log + [e]) == Offers(log) + if e.Offered? then [e.batch] else []
    ensures Passwords(log + [e]) == Passwords(log) + if e.PasswordAsked? then 1 else 0
    ensures Starts(log + [e]) == Starts(log) + if e.Started? then 1 else 0
  {
    if log == [] {
      assert [e][1..] == [] && log + [e] == [e];
    } else {
      assert (log + [e])[0] == log[0] && (log + [e])[1..] == log[1..] + [e];
      LogSnoc(log[1..], e);
    }
  }

  lemma StartsFirstSnoc(log: seq<Event>, e: Event)
    requires StartsFirst(log) && (e.Offered? ==> Started in log)
    ensures StartsFirst(log + [e])
  {
    forall i | 0 <= i < |log + [e]| && (log + [e])[i].Offered? ensures Started in (log + [e])[..i] {
      assert (log + [e])[..i] == log[..i];
      if i == |log| { assert log[..i] == log; }
    }
  }

  lemma {:induction false} StartedIsThere(log: seq<Event>)
    requires Starts(log) > 0
    ensures Started in log
  {
    if !log[0].Started? { StartedIsThere(log[1..]); }
  }

  /** One more piece through the gate. */
  lemma {:induction false} FeedAllSnoc(p: Patterns, s: GateState, pieces: seq<Bytes>, last: Bytes)
    requires p.Valid()
    ensures var before := FeedAll(p, s, pieces);
            var (next, event) := FeedStep(p, before.state, last);
            FeedAll(p, s, pieces + [last]) ==
              Summary(next, before.output + event.output, before.passwordRequests + if event.sendPassword then 1 else 0)
    decreases |pieces|
  {
    hide FeedStep;
    if pieces == [] {
      assert [last][1..] == [] && pieces + [last] == [last];
      var (next, event) := FeedStep(p, s, last);
      assert FeedAll(p, next, []) == Summary(next, [], 0);
      assert event.output + [] == event.output && [] + event.output == event.output;
    } else {
      assert (pieces + [last])[0] == pieces[0] && (pieces + [last])[1..] == pieces[1..] + [last];
      FeedAllSnoc(p, FeedStep(p, s, pieces[0]).0, pieces[1..], last);
    }
  }

  /** A gate that has not passed has let nothing through. */
  lemma {:induction false} NothingBeforePass(p: Patterns, s: GateState, pieces: seq<Bytes>)
    requires p.Valid() && !FeedAll(p, s, pieces).state.passed
    ensures !s.passed && FeedAll(p, s, pieces).output == []
    decreases |pieces|
  {
    if pieces != [] { NothingBeforePass(p, FeedStep(p, s, pieces[0]).0, pieces[1..]); }
  }

  /** Whole reader, stated without it: for separate patterns the text a gated run
      shows is the decoding of the bytes after the first mark, however they came. */
  lemma ShownIsAfterTheMark(c: Codec, p: Patterns, pieces: seq<Bytes>)
    requires p.Valid() && Separate(p) && Phrases(p, BeforeMark(p, Flatten(pieces))) < 2
    ensures var stream := Flatten(pieces);
            var markAt := Find(stream, p.mark);
            Whole(c, Through(true, p, pieces).output) ==
                Whole(c, if markAt == -1 then [] else stream[markAt + |p.mark|..])
  {
    GateContract(p, pieces);
  }

  /** Each offer got the answer its number gets. */
  predicate Answered(log: seq<Event>, accepts: nat -> bool) {
    forall i :: 0 <= i < |log| && log[i].Offered? ==> log[i].accepted == accepts(log[i].batch.number)
  }

  /** The log agrees with what was cut, asked and announced. */
  predicate LogInv(log: seq<Event>, sent: seq<Batch>, accepts: nat -> bool, gated: bool, announced: bool,
      requests: nat) {
    && Offers(log) == sent && Answered(log, accepts) && Passwords(log) == requests
    && Starts(log) == (if announced then 1 else 0)
    && (gated ==> StartsFirst(log))
  }

  lemma LogGrows(log: seq<Event>, e: Event, sent: seq<Batch>, accepts: nat -> bool, gated: bool, announced: bool,
      requests: nat)
    requires LogInv(log, sent, accepts, gated, announced, requests)
    requires e.Offered? ==> (gated ==> announced) && e.accepted == accepts(e.batch.number)
    requires e.Started? ==> !announced
    ensures LogInv(log + [e], sent + (if e.Offered? then [e.batch] else []), accepts, gated, announced || e.Started?,
                   requests + if e.PasswordAsked? then 1 else 0)
  {
    LogSnoc(log, e);
    if announced { StartedIsThere(log); }
    if gated { StartsFirstSnoc(log, e); }
    hide Offers, Passwords, Starts, StartsFirst;
  }

  /** Output exists only once the gate has passed. */
  lemma OutputMeansPassed(c: Codec, p: Patterns, pieces: seq<Bytes>, text: string)
    requires p.Valid() && Lawful(c)
    requires var output := Through(true, p, pieces).output;
             text == Decode(c, [], output).text || text == Whole(c, output)
    ensures text != "" ==> Through(true, p, pieces).state.passed
  {
    if !Through(true, p, pieces).state.passed { NothingBeforePass(p, INITIAL, pieces); }
  }

  lemma ThroughSnoc(gated: bool, p: Patterns, pieces: seq<Bytes>, last: Bytes)
    requires p.Valid()
    ensures var before := Through(gated, p, pieces);
            var (next, event) := FeedStep(p, before.state, last);
            Through(gated, p, pieces + [last]) ==
              if gated then Summary(next, before.output + event.output,
                  before.passwordRequests + if event.sendPassword then 1 else 0)
              else Summary(INITIAL, before.output + last, 0)
  {
    if gated { FeedAllSnoc(p, INITIAL, pieces, last); } else { FlattenSnoc(pieces, last); }
  }

  class ChannelReader {
    const gate: SudoGate?
    const batcher: OutputBatcher
    const p: Patterns
    const accepts: nat -> bool
    const clock: nat -> real
    var log: seq<Event>
    var announced: bool
    var refused: bool
    var ticks: nat
    ghost var pieces: seq<Bytes>

    ghost predicate GateLinked() reads this, gate {
      && p.Valid()
      && var t := Through(gate != null, p, pieces);
         !(announced && refused) &&
         if gate == null then !announced && !refused
         else gate.p == p && gate.State() == t.state && announced == t.state.passed && refused == t.state.refused
    }

    ghost predicate Logged(sent: seq<Batch>) reads this, gate {
      p.Valid() && LogInv(log, sent, accepts, gate != null, announced,
          Through(gate != null, p, pieces).passwordRequests)
    }

    ghost predicate Valid() reads this, gate, batcher {
      && GateLinked() && Lawful(batcher.codec) && batcher.Valid()
      && batcher.fed == Through(gate != null, p, pieces).output
      && Logged(batcher.sent)
    }

    constructor (gate: SudoGate?, batcher: OutputBatcher, p: Patterns, s: Script)
      requires p.Valid() && batcher.Valid() && batcher.fed == [] && batcher.sent == [] && Lawful(batcher.codec)
      requires gate != null ==> gate.p == p && gate.State() == INITIAL
      ensures Valid() && this.gate == gate && this.batcher == batcher && this.p == p && log == [] && pieces == []
      ensures accepts == s.accepts && clock == s.clock
    {
      this.gate, this.batcher, this.p := gate, batcher, p;
      accepts, clock := s.accepts, s.clock;
      log, announced, refused, ticks, pieces := [], false, false, 0, [];
    }

    method Tick() returns (now: real)
      modifies `ticks
      ensures ticks == old(ticks) + 1 && now == clock(old(ticks))
    {
      now := clock(ticks);
      ticks := ticks + 1;
    }

    /** The emit callback for what the batcher cut. */
    method Offer(batches: seq<Batch>) returns (ok: bool)
      requires |batches| <= 1
      modifies `log
      ensures log == old(log) + if batches == [] then [] else [Offered(batches[0], ok)]
      ensures batches == [] ==> ok
      ensures batches != [] ==> ok == accepts(batches[0].number)
    {
      ok := true;
      if batches != [] {
        ok := accepts(batches[0].number);
        log := log + [Offered(batches[0], ok)];
      }
    }

    /** The gate's part of `handle`: ask for the password, announce the start, or refuse. */
    method PassGate(raw: Bytes, g: SudoGate) returns (go: bool, output: Bytes)
      requires GateLinked() && gate == g
      requires Logged(batcher.sent)
      modifies `log, `announced, `refused, `pieces, g
      ensures GateLinked() && pieces == old(pieces) + [raw] && (go <==> !refused)
      ensures Logged(batcher.sent)
      ensures Through(true, p, pieces).output == Through(true, p, old(pieces)).output + output && (!go ==> output == [])
      ensures old(log) <= log && Taken(log, |old(log)|) && (old(refused) ==> refused)
      ensures !go ==> Closed(log)
    {
      hide LogInv, FeedStep;
      ThroughSnoc(true, p, pieces, raw);
      GateStays(p, g.State(), raw);
      ghost var requests := Through(true, p, pieces).passwordRequests;
      pieces := pieces + [raw];
      var event := g.Feed(raw);
      output := event.output;
      if event.sendPassword {
        LogGrows(log, PasswordAsked, batcher.sent, accepts, true, announced, requests);
        log := log + [PasswordAsked];
        requests := requests + 1;
      }
      assert batcher.sent + [] == batcher.sent;
      if g.passed && !announced {
        LogGrows(log, Started, batcher.sent, accepts, true, announced, requests);
        announced := true;
        log := log + [Started];
      }
      go := !event.refused;
      if event.refused {
        LogGrows(log, ChannelClosed, batcher.sent, accepts, true, announced, requests);
        refused := true;
        log := log + [ChannelClosed];
      }
    }

    /** `handle`: one piece through gate, decoder and batcher to the caller. */
    method Handle(raw: Bytes) returns (ok: bool)
      requires Valid()
      modifies this, gate, batcher
      ensures Valid() && pieces == old(pieces) + [raw] && old(log) <= log
      ensures ok <==> !refused && Taken(log, |old(log)|)
      ensures old(refused) ==> refused
      ensures refused && !old(refused) ==> Closed(log)
    {
      hide LogInv;
      var fed := raw;
      if gate != null {
        ghost var before := batcher.fed;
        ok, fed := PassGate(raw, gate);
        if !ok {
          assert before + [] == before;
          return;
        }
      } else {
        ThroughSnoc(false, p, pieces, raw);
        pieces := pieces + [raw];
      }
      ok := AddAndOffer(fed);
    }

    /** The batcher's part of `handle`. */
    method AddAndOffer(fed: Bytes) returns (ok: bool)
      requires GateLinked() && Lawful(batcher.codec) && batcher.Valid() && !refused
      requires batcher.fed + fed == Through(gate != null, p, pieces).output
      requires Logged(batcher.sent)
      modifies `log, `ticks, batcher
      ensures Valid() && old(log) <= log && (ok <==> Taken(log, |old(log)|))
    {
      hide LogInv;
      var t0 := Tick();
      var t1 := Tick();
      var t2 := Tick();
      var batches := batcher.Add(fed, t0, t1, t2);
      ok := OfferCut(batches);
    }

    /** Hands on what the batcher just cut. */
    method OfferCut(batches: seq<Batch>) returns (ok: bool)
      requires GateLinked() && Lawful(batcher.codec) && batcher.Valid() && |batches| <= 1 && |batches| <= |batcher.sent|
      requires batcher.fed == Through(gate != null, p, pieces).output
      requires batcher.sent[|batcher.sent| - |batches|..] == batches
      requires Logged(batcher.sent[..|batcher.sent| - |batches|])
      modifies `log
      ensures Valid() && old(log) <= log && (ok <==> Taken(log, |old(log)|))
    {
      ghost var sent := batcher.sent[..|batcher.sent| - |batches|];
      ghost var requests := Through(gate != null, p, pieces).passwordRequests;
      ghost var was := log;
      ok := Offer(batches);
      assert batcher.sent == sent + batches;
      if batches != [] {
        if gate != null {
          SentIsShown(batcher.sent, batches[0]);
          OutputMeansPassed(batcher.codec, p, pieces, Decode(batcher.codec, [], batcher.fed).text);
        }
        hide LogInv, Numbered;
        LogGrows(was, log[|was|], sent, accepts, gate != null, announced, requests);
        assert batches == [batches[0]];
      } else {
        assert sent + batches == sent && log == was;
      }
    }

    /** The text that waits, if any, is not due yet by the last reading of the clock. */
    predicate NothingDue() reads this, batcher {
      batcher.text != "" ==> ticks > 0 && batcher.started.Some? &&
                             clock(ticks - 1) - batcher.started.value < TERM_BATCH_INTERVAL
    }

    /** `flush()` between reads. */
    method FlushDue() returns (ok: bool)
      requires Valid()
      modifies `log, `ticks, batcher
      ensures NothingDue()
      ensures Valid() && old(log) <= log && (ok <==> Taken(log, |old(log)|))
    {
      hide LogInv;
      assert batcher.sent[..|batcher.sent|] == batcher.sent;
      ghost var sent := batcher.sent;
      var now := Tick();
      var batches := batcher.Flush(now);
      assert batcher.sent[..|batcher.sent| - |batches|] == sent;
      ok := OfferCut(batches);
    }

    /** One stream of one round. */
    method ReadStream(raw: Option<Bytes>) returns (gotData: bool, ok: bool)
      requires Valid() && !refused
      modifies this, gate, batcher
      ensures Valid() && old(log) <= log && pieces == old(pieces) + Ready(raw)
      ensures ok <==> !refused && Taken(log, |old(log)|)
      ensures refused ==> Closed(log)
    {
      gotData, ok := false, true;
      if raw.Some? && raw.value != [] {
        gotData := true;
        ok := Handle(raw.value);
      }
    }

    /** One turn of the reading loop after `should_continue`. */
    method ReadRound(round: Round) returns (superseded: bool)
      requires Valid() && !refused
      modifies this, gate, batcher
      ensures Valid() && old(log) <= log && (superseded ==> !refused)
      ensures old(pieces) <= pieces <= old(pieces) + (Ready(round.out) + Ready(round.err))
      ensures !superseded && !refused ==> pieces == old(pieces) + (Ready(round.out) + Ready(round.err))
      ensures superseded || refused <==> refused || !Taken(log, |old(log)|)
      ensures !superseded && !refused ==> NothingDue()
      ensures refused ==> Closed(log)
    {
      hide Valid;
      ghost var begun := log;
      var gotOut, ok := ReadStream(round.out);
      if !ok {
        return !refused;
      }
      ghost var between := log;
      var gotErr;
      gotErr, ok := ReadStream(round.err);
      TakenJoins(begun, between, log);
      if !ok {
        return !refused;
      }
      between := log;
      ok := FlushDue();
      TakenJoins(begun, between, log);
      superseded := !ok;
    }

    /** The reading loop: until the run is no longer wanted, an emit is turned down,
        the gate refuses, or the exit status is there with nothing left to read. */
    method ReadRounds(s: Script) returns (superseded: bool)
      requires Valid() && !refused && pieces == []
      modifies this, gate, batcher
      ensures Valid() && old(log) <= log && (superseded ==> !refused)
      ensures pieces <= RoundPieces(s.rounds) && (refused ==> Closed(log))
      ensures !superseded && !refused ==> pieces == RoundPieces(s.rounds) && AlwaysGoesOn(s) && Taken(log, |old(log)|)
      ensures superseded ==> !AlwaysGoesOn(s) || !Taken(log, |old(log)|)
    {
      hide *;
      AllRoundsLeft(s.rounds, pieces);
      TakenNothing(log);
      var i := 0;
      while true
        invariant i <= |s.rounds| && Valid() && !refused && old(log) <= log && Taken(log, |old(log)|)
        invariant forall j :: 0 <= j < i ==> s.rounds[j].goOn
        invariant pieces + RoundPieces(s.rounds[i..]) == RoundPieces(s.rounds)
        decreases |s.rounds| - i
      {
        ghost var between, before := log, pieces;
        RoundPiecesAt(s.rounds, i, before);
        LooksDecide(s, i);
        if !(if i < |s.rounds| then s.rounds[i].goOn else s.lastGoOn) {
          return true;
        }
        superseded := ReadRound(if i < |s.rounds| then s.rounds[i] else Round(true, None, None));
        TakenJoins(old(log), between, log);
        if superseded || refused || i == |s.rounds| {
          return;
        }
        i := i + 1;
      }
    }

    /** What is left on one stream after the exit status. */
    method Drain(raws: seq<Bytes>)
      requires Valid()
      modifies this, gate, batcher
      ensures Valid() && old(log) <= log
      ensures Taken(log, |old(log)|) && !refused ==> pieces == old(pieces) + UpToEmpty(raws)
      ensures old(refused) ==> refused
      ensures refused && !old(refused) ==> Closed(log)
      ensures old(pieces) <= pieces && (raws != [] && raws[0] != [] ==> old(pieces) + [raws[0]] <= pieces)
    {
      hide *;
      var i := 0;
      var ok := true;
      assert old(pieces) + raws[..0] == old(pieces);
      while ok && i < |raws| && raws[i] != []
        invariant i <= |raws| && Valid() && old(log) <= log && (old(refused) ==> refused)
        invariant pieces == old(pieces) + raws[..i] && (forall j :: 0 <= j < i ==> raws[j] != [])
        invariant !ok ==> i > 0 && (refused || !Taken(log, |old(log)|))
        invariant refused && !old(refused) ==> Closed(log)
        decreases |raws| - i
      {
        ghost var between := log;
        ok := Handle(raws[i]);
        if Closed(between) { ClosedStays(between, log); }
        TakenJoins(old(log), between, log);
        assert raws[..i] + [raws[i]] == raws[..i + 1];
        i := i + 1;
      }
      if ok { UpToEmptyIs(raws, i); }
      if i > 0 { assert raws[..i][0] == raws[0]; }
    }

    /** The last batch of the run, decoded to the end. */
    method FinishOutput() returns (ok: bool)
      requires Valid()
      modifies `log, `ticks, batcher
      ensures old(log) <= log && (ok <==> Taken(log, |old(log)|)) && GateLinked()
      ensures Shown(true) && Shown(false)
      ensures Logged(batcher.sent)
    {
      hide LogInv, Through, Decode, Whole, Joined, Offers, Passwords, Starts, StartsFirst, FeedAll;
      ghost var sent, was := batcher.sent, log;
      ghost var t := Through(gate != null, p, pieces);
      var now := Tick();
      var batches := batcher.FlushFinal(now);
      ok := Offer(batches);
      if batches != [] {
        if gate != null {
          assert batcher.sent[|batcher.sent| - 1] == batches[0];
          SentIsShown(batcher.sent, batches[0]);
          OutputMeansPassed(batcher.codec, p, pieces, Whole(batcher.codec, batcher.fed));
        }
        hide Numbered;
        LogGrows(was, log[|was|], sent, accepts, gate != null, announced, t.passwordRequests);
        assert batches == [batches[0]];
      } else {
        assert batcher.sent == sent && log == was;
      }
    }

    /** What the batcher cut so far begins the decoded output, and is all of it at the end. */
    ghost predicate Shown(complete: bool) reads this, gate, batcher {
      GateLinked() && Begun(batcher.sent, Whole(batcher.codec, Through(gate != null, p, pieces).output), complete)
    }

    lemma ValidShows()
      requires Valid()
      ensures Shown(false)
      ensures Logged(batcher.sent)
    {
      UnfinishedIsABeginning(batcher.codec, batcher.fed, batcher.sent, batcher.text);
    }

    /** Where the drain lies in the log, and what was received before and by its end. */
    ghost predicate Drained(s: Script, marks: Marks) reads this, gate, batcher {
      && p.Valid() && marks.from <= marks.to <= |log| && marks.main <= RoundPieces(s.rounds) && marks.main <= pieces
      && Begun(Offers(log[..marks.from]), Whole(batcher.codec, Through(gate != null, p, marks.main).output), false)
      && Held(Offers(log[..marks.to]), Decode(batcher.codec, [], Through(gate != null, p, pieces).output).text)
    }

    lemma ValidHolds()
      requires Valid()
      ensures Begun(Offers(log), Whole(batcher.codec, Through(gate != null, p, pieces).output), false)
      ensures Held(Offers(log), Decode(batcher.codec, [], Through(gate != null, p, pieces).output).text)
    {
      ValidShows();
    }

    /** Reading, draining and the last flush. An emit turned down counts as
        superseding before the drain and after it, not in it. */
    method ReadAll(s: Script) returns (superseded: bool, ghost marks: Marks)
      requires Valid() && log == [] && pieces == [] && !refused
      modifies this, gate, batcher
      ensures Shown(!superseded && !refused) && Logged(batcher.sent) && Drained(s, marks)
      ensures refused ==> Closed(log)
      ensures AlwaysGoesOn(s) && Taken(log, 0) && !refused ==> !superseded && pieces == AllPieces(s)
      ensures !superseded && !refused ==> AlwaysGoesOn(s) && Taken(log[..marks.from], 0) && Taken(log, marks.to)
      ensures AlwaysGoesOn(s) && Taken(log[..marks.from], 0) && Taken(log, marks.to) && !refused ==> !superseded
      ensures AlwaysGoesOn(s) && Taken(log[..marks.from], 0) && !refused && s.drainOut != [] && s.drainOut[0] != [] ==>
                marks.main + [s.drainOut[0]] <= pieces
    {
      hide Valid, Logged, Taken, Begun, Held, Offers, Whole, Decode, Through, AlwaysGoesOn, RoundPieces, UpToEmpty;
      superseded := ReadRounds(s);
      ValidHolds();
      marks := Marks(|log|, |log|, pieces);
      ghost var main := log;
      assert log[..|log|] == log;
      if superseded || refused {
        ValidShows();
        TakenNothing(log);
        return;
      }
      ghost var between := log;
      Drain(s.drainOut);
      TakenJoins([], between, log);
      between := log;
      Drain(s.drainErr);
      TakenJoins([], between, log);
      ValidHolds();
      between := log;
      marks := marks.(to := |log|);
      var ok := FinishOutput();
      TakenJoins([], between, log);
      assert log[..marks.from] == main && log[..marks.to] == between;
      superseded := !ok;
    }

    /** `read_channel`. What was offered is numbered from one with no gap and no
        empty batch; it is a beginning of, and unless the run was superseded or
        refused all of, the decoded output of the gate over the bytes received in
        order. With every answer positive everything there was to receive has been
        received. The start is announced at most once and before any output. A run
        that goes on to its end is superseded exactly by an emit turned down before
        or after the drain, so that without that everything offered was taken if
        and only if nothing offered in the drain was turned down. */
    method ReadChannel(s: Script) returns (result: ReadResult, ghost marks: Marks)
      requires Valid() && log == [] && pieces == [] && !refused && accepts == s.accepts
      modifies this, gate, batcher
      ensures GateLinked() && Logged(batcher.sent) && Drained(s, marks)
      ensures Begun(Offers(log), Whole(batcher.codec, Through(gate != null, p, pieces).output), !result.superseded &&
              !refused)
      ensures AlwaysGoesOn(s) && Taken(log, 0) && !refused ==> !result.superseded && pieces == AllPieces(s)
      ensures !result.superseded && !refused ==> AlwaysGoesOn(s)
      ensures AlwaysGoesOn(s) && !refused ==>
                (result.superseded <==> !Taken(log[..marks.from], 0) || !Taken(log, marks.to))
      ensures !result.superseded && !refused ==> (Taken(log, 0) <==> Taken(log[..marks.to], marks.from))
      ensures AlwaysGoesOn(s) && Taken(log[..marks.from], 0) && !refused && s.drainOut != [] && s.drainOut[0] != [] ==>
                marks.main + [s.drainOut[0]] <= pieces
      ensures Starts(log) == (if announced then 1 else 0) && (gate != null ==> StartsFirst(log))
      ensures Passwords(log) == Through(gate != null, p, pieces).passwordRequests
      ensures result.gatePassed == (gate == null || Through(true, p, pieces).state.passed) &&
              result.exitCode == s.exitCode
      ensures result.refused == (refused || (!result.gatePassed && s.exitCode == 97))
      ensures refused || result.superseded ==> Closed(log)
    {
      var superseded;
      superseded, marks := ReadAll(s);
      DrainDecides(log, marks);
      if superseded {
        ghost var before := log;
        CloseChannel();
        PrefixesStay(before, marks);
      }
      var gatePassed := gate == null || gate.passed;
      result := ReadResult(gatePassed, refused ||
          (gate != null && !gatePassed && s.exitCode == 97), superseded, s.exitCode);
    }

    /** An abandoned command is stopped. */
    method CloseChannel()
      requires GateLinked() && Logged(batcher.sent)
      modifies `log
      ensures Logged(batcher.sent)
      ensures log == old(log) + [ChannelClosed]
      ensures Taken(log, 0) <==> Taken(old(log), 0)
    {
      LogGrows(log, ChannelClosed, batcher.sent, accepts, gate != null, announced,
          Through(gate != null, p, pieces).passwordRequests);
      assert batcher.sent + [] == batcher.sent;
      TakenJoins([], log, log + [ChannelClosed]);
      log := log + [ChannelClosed];
    }
  }

  /** The channel has been closed, which stops the command. */
  predicate Closed(log: seq<Event>) { ChannelClosed in log }

  lemma ClosedStays(log: seq<Event>, more: seq<Event>)
    requires log <= more && Closed(log)
    ensures Closed(more)
  {
    var i :| 0 <= i < |log| && log[i] == ChannelClosed;
    assert more[i] == log[i];
  }

  /** The log before the drain, the log by its end, and the pieces before it. */
  datatype Marks = Marks(from: nat, to: nat, main: seq<Bytes>)

  /** Less than one full batch of the text is still held back. */
  predicate Held(batches: seq<Batch>, text: string) {
    Numbered(batches) && Joined(batches) <= text && |text| - |Joined(batches)| < TERM_BATCH_MAX_CHARS
  }

  /** With the rest taken, the drain decides whether everything was. */
  lemma DrainDecides(log: seq<Event>, marks: Marks)
    requires marks.from <= marks.to <= |log|
    ensures Taken(log[..marks.from], 0) && Taken(log, marks.to) ==>
            (Taken(log, 0) <==> Taken(log[..marks.to], marks.from))
    ensures Taken(log, 0) ==> Taken(log[..marks.from], 0) && Taken(log, marks.to)
  {
    TakenJoins([], log[..marks.to], log);
    TakenJoins([], log[..marks.from], log[..marks.to]);
    assert log[..marks.to][..marks.from] == log[..marks.from];
  }

  lemma PrefixesStay(log: seq<Event>, marks: Marks)
    requires marks.from <= marks.to <= |log|
    ensures var more := log + [ChannelClosed];
            && more[..marks.from] == log[..marks.from] && more[..marks.to] == log[..marks.to]
            && (Taken(more, marks.to) <==> Taken(log, marks.to))
  {
    assert forall i :: 0 <= i < |log| ==> (log + [ChannelClosed])[i] == log[i];
  }

  lemma TakenNothing(log: seq<Event>)
    ensures Taken(log, |log|)
  {
  }

  /** Numbered from one, none empty, and the text so far begins, or is, the whole. */
  predicate Begun(batches: seq<Batch>, whole: string, complete: bool) {
    Numbered(batches) && Joined(batches) <= whole && (complete ==> Joined(batches) == whole)
  }

  lemma UnfinishedIsABeginning(c: Codec, fed: Bytes, sent: seq<Batch>, text: string)
    requires Decode(c, [], fed).text == Joined(sent) + text
    ensures Joined(sent) <= Whole(c, fed)
  {
  }

  lemma AllRoundsLeft(rounds: seq<Round>, none: seq<Bytes>)
    requires none == []
    ensures none + RoundPieces(rounds[0..]) == RoundPieces(rounds)
  {
    assert rounds[0..] == rounds;
  }

  /** The looks at `should_continue` so far, and what this one makes of them. */
  lemma LooksDecide(s: Script, i: nat)
    requires i <= |s.rounds| && forall j :: 0 <= j < i ==> s.rounds[j].goOn
    ensures !(if i < |s.rounds| then s.rounds[i].goOn else s.lastGoOn) ==> !AlwaysGoesOn(s)
    ensures i == |s.rounds| && s.lastGoOn ==> AlwaysGoesOn(s)
  {
  }

  lemma RoundPiecesAt(rounds: seq<Round>, i: nat, before: seq<Bytes>)
    requires i <= |rounds|
    ensures i == |rounds| ==> RoundPieces(rounds[i..]) == [] && before + [] == before && Ready(None) + Ready(None) == []
    ensures i < |rounds| ==>
              before + RoundPieces(rounds[i..]) == before + (Ready(rounds[i].out) + Ready(rounds[i].err)) +
                  RoundPieces(rounds[i + 1..])
    ensures before <= before + RoundPieces(rounds[i..])
    ensures i < |rounds| ==>
              before + (Ready(rounds[i].out) + Ready(rounds[i].err)) <= before + RoundPieces(rounds[i..])
  {
    if i < |rounds| { assert rounds[i..][0] == rounds[i] && rounds[i..][1..] == rounds[i + 1..]; }
  }

  lemma {:induction false} UpToEmptyIs(raws: seq<Bytes>, i: nat)
    requires i <= |raws| && (i < |raws| ==> raws[i] == []) && forall j :: 0 <= j < i ==> raws[j] != []
    ensures UpToEmpty(raws) == raws[..i]
    decreases i
  {
    if i > 0 {
      UpToEmptyIs(raws[1..], i - 1);
      assert [raws[0]] + raws[1..][..i - 1] == raws[..i];
    }
  }

  /** Taking everything is taking everything in each part. */
  lemma TakenJoins(begun: seq<Event>, between: seq<Event>, log: seq<Event>)
    requires begun <= between <= log
    ensures Taken(log, |begun|) <==> Taken(between, |begun|) && Taken(log, |between|)
  {
    assert forall i :: 0 <= i < |between| ==> between[i] == log[i];
  }

  /** A batch that was cut shows in the text. */
  lemma SentIsShown(sent: seq<Batch>, last: Batch)
    requires Numbered(sent) && sent != [] && sent[|sent| - 1] == last
    ensures Joined(sent) != ""
  {
    assert sent[0].text != "";
  }

  /** Everything offered from some point of the log on was taken. */
  predicate Taken(log: seq<Event>, since: nat) { forall i :: since <= i < |log| && log[i].Offered? ==> log[i].accepted }

  /** A gate never goes back on a verdict, and a refusal shows in each event. */
  lemma GateStays(p: Patterns, s: GateState, data: Bytes)
    requires p.Valid() && !(s.passed && s.refused)
    ensures var (next, event) := FeedStep(p, s, data);
            && (s.passed ==> next.passed) && (s.refused ==> next.refused) && !(next.passed && next.refused)
            && event.refused == next.refused && (event.refused ==> event.output == [])
  {
  }

  // ---- an emit turned down in the drain --------------------------------------------------

  /** One character for each byte. */
  const PLAIN := Codec((kept: Bytes, b: byte) => ([], [b as char]), (kept: Bytes) => "")

  lemma {:induction false} PlainDecodes(kept: Bytes, data: Bytes)
    ensures |Decode(PLAIN, kept, data).text| == |data|
    decreases |data|
  {
    if data != [] { PlainDecodes(PLAIN.step(kept, data[0]).0, data[1..]); }
  }

  lemma {:induction false} OfferAt(log: seq<Event>, i: nat)
    requires i < |log| && log[i].Offered?
    ensures |Offers(log[..i])| < |Offers(log)| && Offers(log)[|Offers(log[..i])|] == log[i].batch
  {
    if i > 0 {
      OfferAt(log[1..], i - 1);
      assert log[..i][1..] == log[1..][..i - 1] && log[..i][0] == log[0];
    } else {
      assert log[..0] == [];
    }
  }

  lemma {:induction false} OffersGrow(log: seq<Event>, i: nat, j: nat)
    requires i <= j <= |log|
    ensures |Offers(log[..i])| <= |Offers(log[..j])|
    decreases j - i
  {
    if i < j {
      OffersGrow(log, i, j - 1);
      LogSnoc(log[..j - 1], log[j - 1]);
      assert log[..j - 1] + [log[j - 1]] == log[..j];
    }
  }

  /** If only the first batch is ever turned down, everything after it is taken. */
  lemma LaterIsTaken(log: seq<Event>, from: nat)
    requires Numbered(Offers(log)) && Answered(log, number => number != 1) && from <= |log| && Offers(log[..from]) != []
    ensures Taken(log, from) && !Taken(log, 0)
  {
    forall i | from <= i < |log| && log[i].Offered? ensures log[i].accepted {
      OfferAt(log, i);
      OffersGrow(log, from, i);
    }
    OffersGrow(log, from, |log|);
    assert log[..|log|] == log;
    var i := FirstOffer(log);
  }

  lemma {:induction false} FirstOffer(log: seq<Event>) returns (i: nat)
    requires Offers(log) != []
    ensures i < |log| && log[i].Offered? && log[i].batch == Offers(log)[0]
  {
    if log[0].Offered? {
      i := 0;
    } else {
      i := FirstOffer(log[1..]);
      i := i + 1;
    }
  }

  lemma OfferCounts(log: seq<Event>, i: nat)
    requires i < |log|
    ensures log[i].Offered? ==> Offers(log) != []
  {
    if log[i].Offered? { OfferAt(log, i); }
  }

  lemma NothingOffered(log: seq<Event>)
    requires Offers(log) == []
    ensures Taken(log, 0)
  {
    forall i | 0 <= i < |log| ensures !log[i].Offered? { OfferCounts(log, i); }
  }

  lemma SomethingShows(batches: seq<Batch>)
    requires Numbered(batches)
    ensures batches != [] ==> Joined(batches) != ""
  {
    if batches != [] { assert batches[0].text != ""; }
  }

  lemma NothingBegun(batches: seq<Batch>)
    requires Begun(batches, "", false)
    ensures batches == []
  {
    SomethingShows(batches);
  }

  lemma FirstPieceIsIn(piece: Bytes, pieces: seq<Bytes>)
    requires [piece] <= pieces
    ensures |Flatten(pieces)| >= |piece|
  {
    assert pieces[0] == piece;
  }

  /** What is left of the promise there: this channel has one full batch ready after
      its exit status, emit turns it down, and the run still counts as complete. */
  method RefusalInTheDrainIsHidden() returns (reader: ChannelReader, result: ReadResult)
    ensures !result.superseded && !result.refused && Offers(reader.log) != [] && !Taken(reader.log, 0)
  {
    var line := seq(TERM_BATCH_MAX_CHARS, i => 65);
    var s := Script([], true, [line], [], number => number != 1, n => 0.0, 0);
    var batcher := new OutputBatcher(PLAIN);
    var p := Patterns([1], [2]);
    reader := new ChannelReader(null, batcher, p, s);
    ghost var marks;
    result, marks := reader.ReadChannel(s);
    assert RoundPieces(s.rounds) == [] && AlwaysGoesOn(s) && !reader.refused;
    assert Whole(PLAIN, Through(false, p, marks.main).output) == "";
    NothingBegun(Offers(reader.log[..marks.from]));
    NothingOffered(reader.log[..marks.from]);
    assert marks.main + [s.drainOut[0]] == [line];
    FirstPieceIsIn(line, reader.pieces);
    PlainDecodes([], Through(false, p, reader.pieces).output);
    LaterIsTaken(reader.log, marks.to);
  }
}
