/** The browser session store of session_manager.py: pruning on every check is
    proved unobservable, against a reference that only looks at the log of what
    was ever created and revoked. */
module SessionStores {
  import opened Common

  const SESSION_ONLY_SECONDS: nat := 24 * 60 * 60
  const REMEMBERED_SECONDS: nat := 30 * 24 * 60 * 60

  type Token = string
  type Digest = string
  type Generation = string

  datatype Record = Record(generation: Generation, expiresAt: int)

  type Sessions = map<Digest, Record>

  /** How publishing the file ends: it may fail before or after the replace. */
  datatype Publish = Published | FailedBefore | FailedAfter {
    predicate Replaced() { !FailedBefore? }
  }

  datatype Result<+T> = Ok(value: T) | StorageError

  // ---- the store object ------------------------------------------------------

  /** The state file is the object's only state; a missing file is no sessions. */
  class SessionStore {
    var file: Option<Sessions>
    const digest: Token -> Digest

    constructor (digest: Token -> Digest)
      ensures file == None && this.digest == digest
    {
      file, this.digest := None, digest;
    }

    function Load(): Sessions
      reads this
    {
      if file.None? then map[] else file.value
    }

    method PublishState(sessions: Sessions, publish: Publish)
      modifies this
      ensures file == if publish.Replaced() then Some(sessions) else old(file)
    {
      if publish.Replaced() {
        file := Some(sessions);
      }
    }

    method Create(generation: Generation, remembered: bool, now: int, token: Token, publish: Publish)
      returns (r: Result<(Token, int)>)
      modifies this
      ensures Load() == AfterCreate(old(Load()), digest(token), Record(generation, Expiry(now, remembered)), publish)
      ensures r == if publish.Published? then Ok((token, Expiry(now, remembered))) else StorageError
      ensures r.Ok? ==> r.value == (token, now + if remembered then 2592000 else 86400)
      ensures r.Ok? ==> Load() == old(Load())[digest(token) := Record(generation, r.value.1)]
    {
      var expiresAt := now + if remembered then REMEMBERED_SECONDS else SESSION_ONLY_SECONDS;
      var state := Load();
      state := state[digest(token) := Record(generation, expiresAt)];
      PublishState(state, publish);
      r := if publish.Published? then Ok((token, expiresAt)) else StorageError;
    }

    method Validate(token: Option<Token>, generation: Generation, now: int, publish: Publish) returns (r: Result<bool>)
      modifies this
      ensures (Load(), r) == ValidateStep(old(Load()), digest, token, generation, now, publish)
      ensures token.None? || token.value == "" ==> r == Ok(false) && Load() == old(Load())
      ensures r.Ok? && token.Some? && token.value != "" ==>
                var key := digest(token.value);
                r.value <==> key in old(Load()) && old(Load())[key].expiresAt > now &&
                             old(Load())[key].generation == generation
      ensures publish.Published? ==> r.Ok?
      ensures forall k :: k in Load() ==> k in old(Load()) && Load()[k] == old(Load())[k]
      ensures r.Ok? && token.Some? && token.value != "" ==>
                forall k :: k in old(Load()) ==>
                  (k in Load() <==> old(Load())[k].expiresAt > now && old(Load())[k].generation == generation)
    {
      if token.None? || token.value == "" {
        return Ok(false);
      }
      var sessions := Load();
      ghost var before := sessions;
      var key := digest(token.value);
      var found := key in sessions;
      var changed := false;
      var todo := sessions.Keys;
      while todo != {}
        invariant todo <= sessions.Keys <= before.Keys
        invariant forall k :: k in sessions ==>
            sessions[k] == before[k] && (k in todo || Live(before[k], generation, now))
        invariant forall k :: k in before && k !in sessions ==> !Live(before[k], generation, now)
        invariant changed == (sessions != before)
        decreases |todo|
      {
        var k :| k in todo;
        todo := todo - {k};
        if sessions[k].expiresAt <= now || sessions[k].generation != generation {
          sessions := sessions - {k};
          changed := true;
          assert k !in sessions;
        }
      }
      assert sessions == Prune(before, generation, now);
      var valid := found && key in sessions;
      if changed {
        PublishState(sessions, publish);
        if !publish.Published? {
          return StorageError;
        }
      }
      r := Ok(valid);
    }

    method Revoke(token: Option<Token>, publish: Publish) returns (r: Result<()>)
      modifies this
      ensures (Load(), r) == RevokeStep(old(Load()), digest, token, publish)
      ensures r.Ok? && token.Some? && token.value != "" ==> Load() == old(Load()) - {digest(token.value)}
      ensures token.None? || token.value == "" ==> r == Ok(()) && Load() == old(Load())
      ensures publish.Published? ==> r.Ok?
    {
      if token.None? || token.value == "" || file.None? {
        return Ok(());
      }
      var state := Load();
      var key := digest(token.value);
      if key !in state {
        return Ok(());
      }
      PublishState(state - {key}, publish);
      r := if publish.Published? then Ok(()) else StorageError;
    }
  }

  function Expiry(now: int, remembered: bool): int {
    now + if remembered then REMEMBERED_SECONDS else SESSION_ONLY_SECONDS
  }

  predicate Live(record: Record, generation: Generation, now: int) {
    now < record.expiresAt && record.generation == generation
  }

  function Prune(sessions: Sessions, generation: Generation, now: int): Sessions {
    map k | k in sessions && Live(sessions[k], generation, now) :: sessions[k]
  }

  function AfterCreate(sessions: Sessions, key: Digest, record: Record, publish: Publish): Sessions {
    if publish.Replaced() then sessions[key := record] else sessions
  }

  function ValidateStep(sessions: Sessions, digest: Token -> Digest, token: Option<Token>, generation: Generation,
      now: int, publish: Publish): (Sessions, Result<bool>)
  {
    if token.None? || token.value == "" then (sessions, Ok(false))
    else
      var kept := Prune(sessions, generation, now);
      if kept == sessions then (sessions, Ok(digest(token.value) in kept))
      else (if publish.Replaced() then kept else sessions,
            if publish.Published? then Ok(digest(token.value) in kept) else StorageError)
  }

  function RevokeStep(sessions: Sessions, digest: Token -> Digest, token: Option<Token>, publish: Publish)
    : (Sessions, Result<()>)
  {
    if token.None? || token.value == "" || digest(token.value) !in sessions then (sessions, Ok(()))
    else (if publish.Replaced() then sessions - {digest(token.value)} else sessions,
          if publish.Published? then Ok(()) else StorageError)
  }

  // ---- whole runs ----------------------------------------------------------------

  /** One call, with the server's session generation and clock at that time. */
  datatype Call =
    | Create(remembered: bool, issued: Token)
    | Validate(token: Option<Token>)
    | Revoke(token: Option<Token>)

  datatype Event = Event(call: Call, generation: Generation, now: int, publish: Publish)

  /** The answers a run of the real store gives to its `validate` calls. */
  function Answers(sessions: Sessions, digest: Token -> Digest, events: seq<Event>): seq<Result<bool>>
    decreases |events|
  {
    if events == [] then []
    else
      var e := events[0];
      match e.call
      case Create(remembered, token) =>
        Answers(AfterCreate(sessions, digest(token), Record(e.generation, Expiry(e.now, remembered)), e.publish),
            digest, events[1..])
      case Validate(token) =>
        var (next, answer) := ValidateStep(sessions, digest, token, e.generation, e.now, e.publish);
        [answer] + Answers(next, digest, events[1..])
      case Revoke(token) => Answers(RevokeStep(sessions, digest, token, e.publish).0, digest, events[1..])
  }

  /** The reference keeps a log and never forgets: the record a token was last
      given, unless it was revoked since. */
  function Granted(log: seq<Event>, token: Token): Option<Record> {
    if log == [] then None
    else
      var e := log[|log| - 1];
      var before := Granted(log[..|log| - 1], token);
      match e.call
      case Create(remembered, t) =>
        if t == token && e.publish.Replaced() then Some(Record(e.generation, Expiry(e.now, remembered))) else before
      case Revoke(t) => if t == Some(token) && token != "" && e.publish.Replaced() then None else before
      case Validate(_) => before
  }

  /** Created, not revoked, unexpired, same generation. */
  predicate Valid(log: seq<Event>, token: Option<Token>, generation: Generation, now: int) {
    token.Some? && token.value != "" &&
    var record := Granted(log, token.value); record.Some? && Live(record.value, generation, now)
  }

  /** An answer is right when it is the reference's, or no answer at all. */
  predicate Right(answer: Result<bool>, expected: bool) { answer.StorageError? || answer == Ok(expected) }

  ghost predicate AllRight(answers: seq<Result<bool>>, log: seq<Event>, events: seq<Event>)
    decreases |events|
  {
    if events == [] then answers == []
    else
      var e := events[0];
      if e.call.Validate? then
        answers != [] && Right(answers[0], Valid(log, e.call.token, e.generation, e.now)) &&
            AllRight(answers[1..], log + [e], events[1..])
      else AllRight(answers, log + [e], events[1..])
  }

  ghost predicate Injective(digest: Token -> Digest) {
    forall a, b :: digest(a) == digest(b) ==> a == b
  }

  /** The clock never goes back and a generation that was left never returns. */
  ghost predicate Orderly(now: int, left: set<Generation>, current: Generation, events: seq<Event>)
    decreases |events|
  {
    events == [] ||
    (var e := events[0];
     now <= e.now && e.generation !in left && Orderly(e.now, Left(left, current, e), e.generation, events[1..]))
  }

  function Left(left: set<Generation>, current: Generation, e: Event): set<Generation> {
    if e.generation == current then left else left + {current}
  }

  /** For one token the file holds what the log grants, unless that can never
      be valid again. */
  predicate AgreesOn(sessions: Sessions, digest: Token -> Digest, log: seq<Event>, token: Token, now: int,
      left: set<Generation>, current: Generation) {
    var granted := Granted(log, token);
    && (granted.Some? ==> granted.value.generation in left + {current})
    && (if digest(token) in sessions then granted == Some(sessions[digest(token)])
        else granted.None? || granted.value.expiresAt <= now || granted.value.generation in left)
  }

  ghost predicate Agrees(sessions: Sessions, digest: Token -> Digest, log: seq<Event>, now: int, left: set<Generation>,
      current: Generation) {
    && current !in left
    && forall token :: AgreesOn(sessions, digest, log, token, now, left, current)
  }

  lemma GrantedAfter(log: seq<Event>, e: Event, token: Token)
    ensures Granted(log + [e], token) ==
            match e.call
            case Create(remembered, t) =>
              if t == token && e.publish.Replaced() then Some(Record(e.generation, Expiry(e.now, remembered)))
              else Granted(log, token)
            case Revoke(t) => if t == Some(token) && token != "" && e.publish.Replaced() then None
                else Granted(log, token)
            case Validate(_) => Granted(log, token)
  {
    var more := log + [e];
    assert more[|more| - 1] == e && more[..|more| - 1] == log;
  }

  /** The state after one event. */
  function Next(sessions: Sessions, digest: Token -> Digest, e: Event): Sessions {
    match e.call
    case Create(remembered, token) => AfterCreate(sessions, digest(token),
        Record(e.generation, Expiry(e.now, remembered)), e.publish)
    case Validate(token) => ValidateStep(sessions, digest, token, e.generation, e.now, e.publish).0
    case Revoke(token) => RevokeStep(sessions, digest, token, e.publish).0
  }

  lemma EventKeepsAgreement(sessions: Sessions, digest: Token -> Digest, log: seq<Event>, e: Event, now: int,
      left: set<Generation>, current: Generation)
    requires Injective(digest) && Agrees(sessions, digest, log, now, left, current)
    requires now <= e.now && e.generation !in left
    ensures Agrees(Next(sessions, digest, e), digest, log + [e], e.now, Left(left, current, e), e.generation)
  {
    var next := Next(sessions, digest, e);
    forall token ensures AgreesOn(next, digest, log + [e], token, e.now, Left(left, current, e), e.generation) {
      GrantedAfter(log, e, token);
      assert AgreesOn(sessions, digest, log, token, now, left, current);
    }
  }

  lemma AnswerIsRight(sessions: Sessions, digest: Token -> Digest, log: seq<Event>, e: Event, now: int,
      left: set<Generation>, current: Generation)
    requires Agrees(sessions, digest, log, now, left, current) && e.call.Validate?
    requires now <= e.now && e.generation !in left
    ensures Right(ValidateStep(sessions, digest, e.call.token, e.generation, e.now, e.publish).1,
                  Valid(log, e.call.token, e.generation, e.now))
  {
    if e.call.token.Some? {
      assert AgreesOn(sessions, digest, log, e.call.token.value, now, left, current);
    }
  }

  lemma {:induction false} RunIsRight(sessions: Sessions, digest: Token -> Digest, log: seq<Event>, events: seq<Event>,
      now: int, left: set<Generation>, current: Generation)
    requires Injective(digest) && Agrees(sessions, digest, log, now, left, current) &&
             Orderly(now, left, current, events)
    ensures AllRight(Answers(sessions, digest, events), log, events)
    decreases |events|
  {
    if events != [] {
      var e := events[0];
      EventKeepsAgreement(sessions, digest, log, e, now, left, current);
      if e.call.Validate? { AnswerIsRight(sessions, digest, log, e, now, left, current); }
      RunIsRight(Next(sessions, digest, e), digest, log + [e], events[1..], e.now, Left(left, current, e),
          e.generation);
    }
  }

  /** Pruning is unobservable: over every orderly run, with any tokens and any
      publishing failures, each `validate` that answers gives the reference's
      answer, which never forgets anything. */
  lemma PruningIsUnobservable(digest: Token -> Digest, events: seq<Event>, now: int, generation: Generation)
    requires Injective(digest) && Orderly(now, {}, generation, events)
    ensures AllRight(Answers(map[], digest, events), [], events)
  {
    RunIsRight(map[], digest, [], events, now, {}, generation);
  }

  // ---- when pruning shows ------------------------------------------------------------

  /** A check that published its pruning. */
  predicate Pruning(e: Event) {
    e.call.Validate? && e.call.token.Some? && e.call.token.value != "" && e.publish.Replaced()
  }

  /** Some pruning since the token's record was granted found it dead. */
  predicate Dropped(log: seq<Event>, token: Token) {
    log != [] &&
    var e, before := log[|log| - 1], log[..|log| - 1];
    match e.call
    case Create(_, t) => !(t == token && e.publish.Replaced()) && Dropped(before, token)
    case Revoke(t) => !(t == Some(token) && token != "" && e.publish.Replaced()) && Dropped(before, token)
    case Validate(_) =>
      Dropped(before, token) ||
      (Pruning(e) && Granted(before, token).Some? && !Live(Granted(before, token).value, e.generation, e.now))
  }

  /** Without any assumption on clock or generations the file holds exactly the granted
      records that no pruning has found dead. */
  ghost predicate Holds(sessions: Sessions, digest: Token -> Digest, log: seq<Event>, token: Token) {
    var key, granted := digest(token), Granted(log, token);
    && (key in sessions <==> granted.Some? && !Dropped(log, token))
    && (key in sessions ==> granted == Some(sessions[key]))
  }

  ghost predicate Keyed(sessions: Sessions, digest: Token -> Digest) {
    forall k :: k in sessions ==> exists token :: digest(token) == k
  }

  ghost predicate Stored(sessions: Sessions, digest: Token -> Digest, log: seq<Event>) {
    Keyed(sessions, digest) && forall token :: Holds(sessions, digest, log, token)
  }

  lemma DroppedAfter(log: seq<Event>, e: Event, token: Token)
    ensures Dropped(log + [e], token) <==>
            match e.call
            case Create(_, t) => !(t == token && e.publish.Replaced()) && Dropped(log, token)
            case Revoke(t) => !(t == Some(token) && token != "" && e.publish.Replaced()) && Dropped(log, token)
            case Validate(_) =>
              Dropped(log, token) ||
              (Pruning(e) && Granted(log, token).Some? && !Live(Granted(log, token).value, e.generation, e.now))
  {
    var more := log + [e];
    assert more[|more| - 1] == e && more[..|more| - 1] == log;
  }

  lemma EventKeepsStored(sessions: Sessions, digest: Token -> Digest, log: seq<Event>, e: Event)
    requires Injective(digest) && Stored(sessions, digest, log)
    ensures Stored(Next(sessions, digest, e), digest, log + [e])
  {
    var next := Next(sessions, digest, e);
    forall token ensures Holds(next, digest, log + [e], token) {
      GrantedAfter(log, e, token);
      DroppedAfter(log, e, token);
      assert Holds(sessions, digest, log, token);
    }
  }

  /** The check can answer: its pruning is published, or there is nothing to prune. */
  ghost predicate CanAnswer(log: seq<Event>, e: Event) {
    e.publish.Published? || forall token :: Granted(log, token).Some? && !Dropped(log, token) ==>
      Live(Granted(log, token).value, e.generation, e.now)
  }

  /** The check answers no for a valid token, because a pruning dropped its record. */
  ghost predicate Shows(log: seq<Event>, e: Event) {
    && e.call.Validate? && CanAnswer(log, e) && Valid(log, e.call.token, e.generation, e.now)
    && Dropped(log, e.call.token.value)
  }

  /** Nothing is pruned exactly when every stored record is live. */
  lemma NothingToPrune(sessions: Sessions, digest: Token -> Digest, log: seq<Event>, e: Event)
    requires Stored(sessions, digest, log)
    ensures CanAnswer(log, e) <==> e.publish.Published? || Prune(sessions, e.generation, e.now) == sessions
  {
    var kept := Prune(sessions, e.generation, e.now);
    if kept == sessions {
      forall token | Granted(log, token).Some? && !Dropped(log, token)
        ensures Live(Granted(log, token).value, e.generation, e.now)
      {
        assert Holds(sessions, digest, log, token);
      }
    } else if CanAnswer(log, e) && !e.publish.Published? {
      forall k | k in sessions ensures Live(sessions[k], e.generation, e.now) {
        var token :| digest(token) == k;
        assert Holds(sessions, digest, log, token);
      }
    }
  }

  /** Every answer by the log alone, for any clock and any generations. */
  lemma AnswerIs(sessions: Sessions, digest: Token -> Digest, log: seq<Event>, e: Event)
    requires Stored(sessions, digest, log) && e.call.Validate?
    ensures ValidateStep(sessions, digest, e.call.token, e.generation, e.now, e.publish).1 ==
            if e.call.token.None? || e.call.token.value == "" then Ok(false)
            else if !CanAnswer(log, e) then StorageError
            else Ok(Valid(log, e.call.token, e.generation, e.now) && !Dropped(log, e.call.token.value))
  {
    NothingToPrune(sessions, digest, log, e);
    if e.call.token.Some? { assert Holds(sessions, digest, log, e.call.token.value); }
    hide CanAnswer, Dropped, Granted, Keyed;
  }

  /** No check of the run shows the pruning. */
  ghost predicate NeverShows(log: seq<Event>, events: seq<Event>)
    decreases |events|
  {
    events == [] || (!Shows(log, events[0]) && NeverShows(log + [events[0]], events[1..]))
  }

  lemma {:induction false} RunShowsExactly(sessions: Sessions, digest: Token -> Digest, log: seq<Event>,
      events: seq<Event>)
    requires Injective(digest) && Stored(sessions, digest, log)
    ensures AllRight(Answers(sessions, digest, events), log, events) <==> NeverShows(log, events)
    decreases |events|
  {
    if events != [] {
      var e := events[0];
      EventKeepsStored(sessions, digest, log, e);
      if e.call.Validate? { AnswerIs(sessions, digest, log, e); }
      hide Stored, Injective, CanAnswer, Dropped, Granted, Prune, Live;
      RunShowsExactly(Next(sessions, digest, e), digest, log + [e], events[1..]);
      var answers := Answers(sessions, digest, events);
      assert e.call.Validate? ==> answers[1..] == Answers(Next(sessions, digest, e), digest, events[1..]);
    }
  }

  /** Over every run, whatever clock and generations do: each answer is the
      reference's if and only if no token that is valid when it is checked was found
      dead by a pruning since it was granted. */
  lemma PruningShowsExactly(digest: Token -> Digest, events: seq<Event>)
    requires Injective(digest)
    ensures AllRight(Answers(map[], digest, events), [], events) <==> NeverShows([], events)
  {
    RunShowsExactly(map[], digest, [], events);
  }

  lemma {:induction false} DroppedWasDead(log: seq<Event>, token: Token) returns (i: nat)
    requires Dropped(log, token)
    ensures i < |log| && Pruning(log[i]) && Granted(log, token).Some?
    ensures !Live(Granted(log, token).value, log[i].generation, log[i].now)
    decreases |log|
  {
    var before := log[..|log| - 1];
    if Dropped(before, token) {
      i := DroppedWasDead(before, token);
    } else {
      i := |log| - 1;
    }
  }

  /** That takes a clock that went back or a generation that returned: the pruning
      that dropped the record ran under another generation or at a later time. */
  lemma ShowingTakesAReturn(log: seq<Event>, e: Event) returns (i: nat)
    requires Shows(log, e)
    ensures i < |log| && Pruning(log[i]) && (log[i].generation != e.generation || e.now < log[i].now)
  {
    i := DroppedWasDead(log, e.call.token.value);
  }

  /** If a left generation came back, pruning would show: the token of `a` is
      granted throughout, and is refused after a check under `b`. */
  lemma ReturningGenerationShows(digest: Token -> Digest, token: Token, a: Generation, b: Generation)
    requires Injective(digest) && a != b && token != ""
    ensures var events := [Event(Create(false, token), a, 0, Published), Event(Validate(Some(token)), b, 0, Published),
                           Event(Validate(Some(token)), a, 0, Published)];
            && Answers(map[], digest, events) == [Ok(false), Ok(false)]
            && Valid(events[..2], Some(token), a, 0)
            && !AllRight(Answers(map[], digest, events), [], events)
  {
    var e0, e1, e2 := Event(Create(false, token), a, 0, Published), Event(Validate(Some(token)), b, 0, Published),
                      Event(Validate(Some(token)), a, 0, Published);
    var events := [e0, e1, e2];
    var record := Record(a, Expiry(0, false));
    var held: Sessions := map[digest(token) := record];
    assert events[1..] == [e1, e2] && [e1, e2][1..] == [e2] && [e2][1..] == [];
    assert AfterCreate(map[], digest(token), record, Published) == held;
    assert Prune(held, b, 0) == map[] && held != map[] by { assert digest(token) in held; }
    assert ValidateStep(held, digest, Some(token), b, 0, Published) == (map[], Ok(false));
    assert Answers(map[], digest, [e2]) == [Ok(false)] + Answers(map[], digest, []);
    assert Answers(held, digest, [e1, e2]) == [Ok(false)] + Answers(map[], digest, [e2]);
    assert Answers(map[], digest, events) == Answers(held, digest, [e1, e2]);
    assert [] + [e0] == [e0] && [e0] + [e1] == [e0, e1] == events[..2];
    GrantedAfter([], e0, token);
    GrantedAfter([e0], e1, token);
    assert Granted([e0, e1], token) == Some(record);
    var answers := Answers(map[], digest, events);
    assert !AllRight(answers[1..], [e0, e1], [e2]);
    assert !AllRight(answers, [e0], [e1, e2]);
  }
}
