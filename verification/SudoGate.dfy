/** The sudo gate of terminal_run.py: output is discarded up to the start marker,
    whatever the cuts. */
module SudoGates {
  import opened Common

  /** The two byte patterns a gate looks for: the first phrase asks for the password, a
      second one refuses the run, and the mark starts its output. */
  datatype Patterns = Patterns(phrase: Bytes, mark: Bytes) {
    predicate Valid() { phrase != [] && mark != [] }

    function Longest(): nat { Max(|phrase|, |mark|) }
  }

  predicate OccursAt(buf: Bytes, pattern: Bytes, at: int) {
    0 <= at && at + |pattern| <= |buf| && buf[at..at + |pattern|] == pattern
  }

  /** `bytes.find` from an index on: the first occurrence, or -1. */
  function FindFrom(buf: Bytes, pattern: Bytes, start: nat): (at: int)
    ensures at == -1 || start <= at <= |buf| - |pattern|
    decreases |buf| - start
  {
    if |buf| < start + |pattern| then -1
    else if OccursAt(buf, pattern, start) then start
    else FindFrom(buf, pattern, start + 1)
  }

  function Find(buf: Bytes, pattern: Bytes): (at: int)
    ensures at == -1 || 0 <= at <= |buf| - |pattern|
  {
    FindFrom(buf, pattern, 0)
  }

  lemma {:induction false} FindFromIsFirst(buf: Bytes, pattern: Bytes, start: nat)
    ensures var at := FindFrom(buf, pattern, start);
            && (at == -1 || OccursAt(buf, pattern, at))
            && forall k :: start <= k && (at == -1 || k < at) ==> !OccursAt(buf, pattern, k)
    decreases |buf| - start
  {
    if start + |pattern| <= |buf| && !OccursAt(buf, pattern, start) {
      FindFromIsFirst(buf, pattern, start + 1);
    }
  }

  /** `find` returns the first occurrence, and -1 exactly when there is none. */
  lemma FindIsFirst(buf: Bytes, pattern: Bytes)
    ensures var at := Find(buf, pattern);
            && (at == -1 || OccursAt(buf, pattern, at))
            && forall k :: 0 <= k && (at == -1 || k < at) ==> !OccursAt(buf, pattern, k)
  {
    FindFromIsFirst(buf, pattern, 0);
  }

  datatype Hit = NoHit | PhraseHit(at: nat) | MarkHit(at: nat)

  /** The candidate that comes first; on a tie the name "mark" sorts first. */
  function FirstHit(p: Patterns, buf: Bytes): Hit {
    var phraseAt, markAt := Find(buf, p.phrase), Find(buf, p.mark);
    if markAt >= 0 && (phraseAt < 0 || markAt <= phraseAt) then MarkHit(markAt)
    else if phraseAt >= 0 then PhraseHit(phraseAt)
    else NoHit
  }

  /** Whether the last `size` bytes of `buf` begin one of the patterns. */
  predicate Begins(p: Patterns, buf: Bytes, size: nat)
    requires size <= |buf|
  {
    buf[|buf| - size..] <= p.phrase || buf[|buf| - size..] <= p.mark
  }

  /** The largest size up to `limit` whose suffix begins a pattern. */
  function TailSize(p: Patterns, buf: Bytes, limit: nat): (size: nat)
    requires limit <= |buf|
    ensures size <= limit && Begins(p, buf, size)
  {
    if limit == 0 || Begins(p, buf, limit) then limit else TailSize(p, buf, limit - 1)
  }

  lemma {:induction false} TailSizeIsLargest(p: Patterns, buf: Bytes, limit: nat, size: nat)
    requires size <= limit <= |buf| && Begins(p, buf, size)
    ensures size <= TailSize(p, buf, limit)
  {
    if size < limit && !Begins(p, buf, limit) {
      TailSizeIsLargest(p, buf, limit - 1, size);
    }
  }

  /** What must be remembered of a buffer without a hit. */
  function Tail(p: Patterns, buf: Bytes): Bytes
    requires p.Valid()
  {
    buf[|buf| - TailSize(p, buf, Min(|buf|, p.Longest() - 1))..]
  }

  datatype Verdict = Waiting(asked: bool, rest: Bytes) | Passed(asked: bool, output: Bytes) | Refused

  /** Read a whole buffer at once, with no regard to how it arrived. */
  function Scan(p: Patterns, buf: Bytes, asked: bool): Verdict
    requires p.Valid()
    decreases |buf|
  {
    match FirstHit(p, buf)
    case NoHit => Waiting(asked, buf)
    case MarkHit(at) => Passed(asked, buf[at + |p.mark|..])
    case PhraseHit(at) => if asked then Refused else Scan(p, buf[at + |p.phrase|..], true)
  }

  datatype GateState = GateState(pending: Bytes, asked: bool, refused: bool, passed: bool)

  datatype GateEvent = GateEvent(sendPassword: bool, refused: bool, output: Bytes)

  const INITIAL := GateState([], false, false, false)

  /** One call of `feed`. */
  function FeedStep(p: Patterns, s: GateState, data: Bytes): (GateState, GateEvent)
    requires p.Valid()
  {
    if s.passed then (s, GateEvent(false, false, data))
    else if s.refused then (s, GateEvent(false, true, []))
    else match Scan(p, s.pending + data, s.asked)
      case Waiting(asked, rest) =>
        (GateState(Tail(p, rest), asked, false, false), GateEvent(asked && !s.asked, false, []))
      case Passed(asked, output) =>
        (GateState([], asked, false, true), GateEvent(asked && !s.asked, false, output))
      case Refused => (GateState([], true, true, false), GateEvent(!s.asked, true, []))
  }

  /** Everything a caller can see of a gate fed piece by piece. */
  datatype Summary = Summary(state: GateState, output: Bytes, passwordRequests: nat)

  function FeedAll(p: Patterns, s: GateState, pieces: seq<Bytes>): Summary
    requires p.Valid()
    decreases |pieces|
  {
    if pieces == [] then Summary(s, [], 0)
    else
      var (next, event) := FeedStep(p, s, pieces[0]);
      var rest := FeedAll(p, next, pieces[1..]);
      Summary(rest.state, event.output + rest.output, (if event.sendPassword then 1 else 0) + rest.passwordRequests)
  }

  ghost predicate ChunkIndependent(p: Patterns)
    requires p.Valid()
  {
    forall pieces: seq<Bytes> :: FeedAll(p, INITIAL, pieces) == FeedAll(p, INITIAL, [Flatten(pieces)])
  }

  /** No pattern can be completed strictly inside the other one and win the
      race, except that a mark which begins the phrase wins either way. */
  ghost predicate Unambiguous(p: Patterns) {
    && (p.mark <= p.phrase || !exists at :: 0 < at < |p.phrase| - |p.mark| && OccursAt(p.phrase, p.mark, at))
    && !exists at :: 0 <= at < |p.mark| - |p.phrase| && OccursAt(p.mark, p.phrase, at)
  }

  // ---- finding in a longer buffer --------------------------------------

  lemma OccursInExtension(buf: Bytes, more: Bytes, pattern: Bytes, at: int)
    ensures at + |pattern| <= |buf| ==> OccursAt(buf + more, pattern, at) == OccursAt(buf, pattern, at)
  {
    if 0 <= at && at + |pattern| <= |buf| {
      assert (buf + more)[at..at + |pattern|] == buf[at..at + |pattern|];
    }
  }

  lemma OccursInSuffix(buf: Bytes, drop: nat, pattern: Bytes, at: nat)
    requires drop <= |buf|
    ensures OccursAt(buf[drop..], pattern, at) == OccursAt(buf, pattern, at + drop)
  {
    if at + drop + |pattern| <= |buf| {
      assert buf[drop..][at..at + |pattern|] == buf[at + drop..at + drop + |pattern|];
    }
  }

  /** One pattern inside another that occurs around it. */
  lemma OccursInside(buf: Bytes, outer: Bytes, outerAt: int, inner: Bytes, innerAt: int)
    requires OccursAt(buf, outer, outerAt) && OccursAt(buf, inner, innerAt)
    requires outerAt <= innerAt && innerAt + |inner| <= outerAt + |outer|
    ensures OccursAt(outer, inner, innerAt - outerAt)
  {
    var at := innerAt - outerAt;
    forall k | 0 <= k < |inner| ensures outer[at..at + |inner|][k] == inner[k] {
      assert outer[at + k] == buf[outerAt..outerAt + |outer|][at + k];
      assert inner[k] == buf[innerAt..innerAt + |inner|][k];
    }
  }

  /** A mark strictly inside a phrase also stands where the phrase begins. */
  lemma MarkAlsoBeginsThere(p: Patterns, buf: Bytes, phraseAt: int, markAt: int)
    requires Unambiguous(p) && OccursAt(buf, p.phrase, phraseAt) && OccursAt(buf, p.mark, markAt)
    requires phraseAt < markAt && markAt + |p.mark| < phraseAt + |p.phrase|
    ensures OccursAt(buf, p.mark, phraseAt)
  {
    OccursInside(buf, p.phrase, phraseAt, p.mark, markAt);
    assert buf[phraseAt..phraseAt + |p.mark|] == buf[phraseAt..phraseAt + |p.phrase|][..|p.mark|];
  }

  /** A hit is final: bytes that arrive later cannot change it. */
  lemma HitIsStable(p: Patterns, buf: Bytes, more: Bytes)
    requires p.Valid() && Unambiguous(p) && FirstHit(p, buf) != NoHit
    ensures FirstHit(p, buf + more) == FirstHit(p, buf)
  {
    var longer := buf + more;
    forall pattern, at ensures at + |pattern| <= |buf| ==> OccursAt(longer, pattern, at) == OccursAt(buf, pattern, at) {
      OccursInExtension(buf, more, pattern, at);
    }
    var phraseAt, markAt := Find(longer, p.phrase), Find(longer, p.mark);
    FindIsFirst(buf, p.phrase);
    FindIsFirst(buf, p.mark);
    FindIsFirst(longer, p.phrase);
    FindIsFirst(longer, p.mark);
    match FirstHit(p, buf)
    case MarkHit(at) =>
      assert markAt == at;
      if 0 <= phraseAt < at {
        MarkAlsoBeginsThere(p, longer, phraseAt, at);
      }
    case PhraseHit(at) =>
      assert phraseAt == at;
      if 0 <= markAt <= at {
        OccursInside(longer, p.mark, markAt, p.phrase, at);
      }
  }

  // ---- what the tail must remember -------------------------------------

  lemma StraddlerStarts(buf: Bytes, more: Bytes, pattern: Bytes, at: nat)
    requires at <= |buf| < at + |pattern| && OccursAt(buf + more, pattern, at)
    ensures buf[at..] == pattern[..|buf| - at]
  {
    assert forall i :: 0 <= i < |buf[at..]| ==> buf[at..][i] == (buf + more)[at..at + |pattern|][i];
  }

  /** A pattern that begins in `buf` and ends in `more` begins in the tail. */
  lemma StraddlerBeginsInTail(p: Patterns, buf: Bytes, more: Bytes, pattern: Bytes, at: nat)
    requires p.Valid() && (pattern == p.phrase || pattern == p.mark)
    requires at <= |buf| < at + |pattern| && OccursAt(buf + more, pattern, at)
    ensures |buf| - |Tail(p, buf)| <= at
  {
    var size := |buf| - at;
    StraddlerStarts(buf, more, pattern, at);
    hide TailSize;
    TailSizeIsLargest(p, buf, Min(|buf|, p.Longest() - 1), size);
  }

  lemma FindInSuffix(whole: Bytes, cut: nat, pattern: Bytes)
    requires cut <= |whole| && forall at :: 0 <= at < cut ==> !OccursAt(whole, pattern, at)
    ensures var at := Find(whole[cut..], pattern); Find(whole, pattern) == if at == -1 then -1 else at + cut
  {
    var short := whole[cut..];
    FindIsFirst(whole, pattern);
    FindIsFirst(short, pattern);
    var at, there := Find(short, pattern), Find(whole, pattern);
    if at != -1 { OccursInSuffix(whole, cut, pattern, at); }
    if there != -1 { OccursInSuffix(whole, cut, pattern, there - cut); }
  }

  lemma TailFindsTheSame(p: Patterns, buf: Bytes, more: Bytes, pattern: Bytes)
    requires p.Valid() && (pattern == p.phrase || pattern == p.mark) && Find(buf, pattern) == -1
    ensures var cut := |buf| - |Tail(p, buf)|; var at := Find(Tail(p, buf) + more, pattern);
            Find(buf + more, pattern) == if at == -1 then -1 else at + cut
  {
    var cut := |buf| - |Tail(p, buf)|;
    var whole, short := buf + more, Tail(p, buf) + more;
    assert short == whole[cut..];
    forall at: nat | at < cut ensures !OccursAt(whole, pattern, at) {
      FindIsFirst(buf, pattern);
      if at + |pattern| <= |buf| {
        OccursInExtension(buf, more, pattern, at);
      } else if OccursAt(whole, pattern, at) {
        StraddlerBeginsInTail(p, buf, more, pattern, at);
      }
    }
    FindInSuffix(whole, cut, pattern);
  }

  /** A remembered suffix that reaches back before `more` lies in the old tail. */
  lemma LongTailIsInBuffer(p: Patterns, buf: Bytes, more: Bytes, size: nat)
    requires p.Valid() && size <= |buf + more| && size < p.Longest() && Begins(p, buf + more, size)
    ensures size <= |Tail(p, buf)| + |more|
  {
    hide TailSize;
    if size > |more| {
      var part := size - |more|;
      assert buf[|buf| - part..] == (buf + more)[|buf + more| - size..][..part];
      TailSizeIsLargest(p, buf, Min(|buf|, p.Longest() - 1), part);
    }
  }

  lemma LastBytesOfSuffix(whole: Bytes, cut: nat, size: nat)
    requires cut + size <= |whole|
    ensures whole[cut..][|whole| - cut - size..] == whole[|whole| - size..]
  {
  }

  function Limit(p: Patterns, buf: Bytes): (limit: nat)
    requires p.Valid()
    ensures limit <= |buf|
  {
    Min(|buf|, p.Longest() - 1)
  }

  /** Dropping bytes that the tail does not reach leaves the tail alone. */
  lemma TailOfSuffix(p: Patterns, whole: Bytes, cut: nat)
    requires p.Valid() && cut <= |whole|
    requires TailSize(p, whole, Limit(p, whole)) <= |whole| - cut
    ensures Tail(p, whole) == Tail(p, whole[cut..])
  {
    hide TailSize, Limit;
    TailSizesAgree(p, whole, cut);
    TailIs(p, whole);
    TailIs(p, whole[cut..]);
    LastBytesOfSuffix(whole, cut, TailSize(p, whole, Limit(p, whole)));
  }

  lemma TailIs(p: Patterns, buf: Bytes)
    requires p.Valid()
    ensures Limit(p, buf) <= |buf| && Tail(p, buf) == buf[|buf| - TailSize(p, buf, Limit(p, buf))..]
  {
    hide TailSize;
  }

  lemma TailSizesAgree(p: Patterns, whole: Bytes, cut: nat)
    requires p.Valid() && cut <= |whole|
    requires TailSize(p, whole, Limit(p, whole)) <= |whole| - cut
    ensures TailSize(p, whole, Limit(p, whole)) == TailSize(p, whole[cut..], Limit(p, whole[cut..]))
  {
    hide Begins, TailSize;
    var short := whole[cut..];
    var a := TailSize(p, whole, Limit(p, whole));
    var b := TailSize(p, short, Limit(p, short));
    BeginsInSuffix(p, whole, cut, a);
    BeginsInSuffix(p, whole, cut, b);
    TailSizeIsLargest(p, short, Limit(p, short), a);
    TailSizeIsLargest(p, whole, Limit(p, whole), b);
  }

  lemma BeginsInSuffix(p: Patterns, whole: Bytes, cut: nat, size: nat)
    requires cut + size <= |whole|
    ensures Begins(p, whole[cut..], size) == Begins(p, whole, size)
  {
    LastBytesOfSuffix(whole, cut, size);
  }

  /** The tail of a longer buffer is found from the tail of the shorter one. */
  lemma TailOfExtension(p: Patterns, buf: Bytes, more: Bytes)
    requires p.Valid()
    ensures Tail(p, buf + more) == Tail(p, Tail(p, buf) + more)
  {
    hide Begins, TailSize;
    var whole, short := buf + more, Tail(p, buf) + more;
    var cut := |buf| - |Tail(p, buf)|;
    assert short == whole[cut..];
    var a := TailSize(p, whole, Min(|whole|, p.Longest() - 1));
    if a > |short| {
      LongTailIsInBuffer(p, buf, more, a);
    }
    TailOfSuffix(p, whole, cut);
  }

  /** The gate keeps only the tail of the bytes it waits on. */
  ghost predicate SameToTheGate(p: Patterns, a: Verdict, b: Verdict)
    requires p.Valid()
  {
    if a.Waiting? && b.Waiting? then a.asked == b.asked && Tail(p, a.rest) == Tail(p, b.rest) else a == b
  }

  lemma ScanPhraseInSuffix(p: Patterns, whole: Bytes, cut: nat, asked: bool, at: nat)
    requires p.Valid() && cut <= |whole|
    requires FirstHit(p, whole) == PhraseHit(at + cut) && FirstHit(p, whole[cut..]) == PhraseHit(at)
    ensures Scan(p, whole, asked) == Scan(p, whole[cut..], asked)
  {
    hide Tail, Find;
    var short := whole[cut..];
    DropTwice(whole, cut, at + |p.phrase|);
    var rest := short[at + |p.phrase|..];
    if !asked {
      assert Scan(p, short, asked) == Scan(p, rest, true);
      assert whole[at + cut + |p.phrase|..] == rest;
    }
  }

  /** A scan may start after bytes that hold no beginning of a hit. */
  lemma ScanOfSuffix(p: Patterns, whole: Bytes, cut: nat, asked: bool)
    requires p.Valid() && cut <= |whole|
    requires FirstHit(p, whole) ==
             match FirstHit(p, whole[cut..])
             case NoHit => NoHit
             case MarkHit(at) => MarkHit(at + cut)
             case PhraseHit(at) => PhraseHit(at + cut)
    ensures var a, b := Scan(p, whole, asked), Scan(p, whole[cut..], asked);
            a == b || (a == Waiting(asked, whole) && b == Waiting(asked, whole[cut..]))
  {
    match FirstHit(p, whole[cut..])
    case NoHit =>
    case MarkHit(at) => DropTwice(whole, cut, at + |p.mark|);
    case PhraseHit(at) => ScanPhraseInSuffix(p, whole, cut, asked, at);
  }

  lemma ScanFromTail(p: Patterns, buf: Bytes, more: Bytes, asked: bool)
    requires p.Valid() && FirstHit(p, buf) == NoHit
    ensures SameToTheGate(p, Scan(p, buf + more, asked), Scan(p, Tail(p, buf) + more, asked))
  {
    var cut := |buf| - |Tail(p, buf)|;
    assert Tail(p, buf) + more == (buf + more)[cut..];
    TailFindsTheSame(p, buf, more, p.phrase);
    TailFindsTheSame(p, buf, more, p.mark);
    TailOfExtension(p, buf, more);
    ScanOfSuffix(p, buf + more, cut, asked);
  }

  lemma DropTwice(whole: Bytes, cut: nat, n: nat)
    requires cut + n <= |whole|
    ensures whole[cut..][n..] == whole[cut + n..]
  {
  }

  /** One turn of the scan, hit by hit. */
  lemma ScanTurn(p: Patterns, buf: Bytes, asked: bool)
    requires p.Valid()
    ensures FirstHit(p, buf).NoHit? ==> Scan(p, buf, asked) == Waiting(asked, buf)
    ensures FirstHit(p, buf).MarkHit? ==> FirstHit(p, buf).at + |p.mark| <= |buf|
                                          && Scan(p, buf, asked) == Passed(asked, buf[FirstHit(p, buf).at + |p.mark|..])
    ensures FirstHit(p, buf).PhraseHit? ==> FirstHit(p, buf).at + |p.phrase| <= |buf|
                                            && Scan(p, buf, asked) ==
                                               if asked then Refused
                                               else Scan(p, buf[FirstHit(p, buf).at + |p.phrase|..], true)
  {
    hide Find;
  }

  /** What a longer buffer makes of the verdict on a shorter one. */
  ghost predicate Continues(p: Patterns, buf: Bytes, more: Bytes, asked: bool)
    requires p.Valid()
  {
    var part, whole := Scan(p, buf, asked), Scan(p, buf + more, asked);
    if part.Waiting? then whole == Scan(p, part.rest + more, part.asked) && FirstHit(p, part.rest) == NoHit
    else if part.Passed? then whole == Passed(part.asked, part.output + more)
    else whole == Refused
  }

  lemma DropOfLonger(buf: Bytes, more: Bytes, n: nat)
    requires n <= |buf|
    ensures (buf + more)[n..] == buf[n..] + more
  {
  }

  /** Scanning a longer buffer continues from the verdict on the shorter one. */
  lemma {:induction false} ScanContinues(p: Patterns, buf: Bytes, more: Bytes, asked: bool)
    requires p.Valid() && Unambiguous(p)
    ensures Continues(p, buf, more, asked)
    decreases |buf|
  {
    hide Scan, FirstHit, Unambiguous;
    ScanTurn(p, buf, asked);
    if FirstHit(p, buf) != NoHit {
      HitIsStable(p, buf, more);
      ScanTurn(p, buf + more, asked);
      var size := if FirstHit(p, buf).MarkHit? then |p.mark| else |p.phrase|;
      DropOfLonger(buf, more, FirstHit(p, buf).at + size);
      if FirstHit(p, buf).PhraseHit? && !asked { ScanContinues(p, buf[FirstHit(p, buf).at + size..], more, true); }
    }
  }

  lemma {:induction false} AskedIsKept(p: Patterns, buf: Bytes)
    requires p.Valid()
    ensures Scan(p, buf, true) != Refused ==> Scan(p, buf, true).asked
  {
  }

  /** Two calls of `feed` do what one call with both pieces does. */
  lemma FeedTwice(p: Patterns, s: GateState, a: Bytes, b: Bytes)
    requires p.Valid() && Unambiguous(p)
    ensures var (s1, e1) := FeedStep(p, s, a); var (s2, e2) := FeedStep(p, s1, b);
            var (whole, event) := FeedStep(p, s, a + b);
            && whole == s2 && event.output == e1.output + e2.output
            && event.sendPassword == (e1.sendPassword || e2.sendPassword) && !(e1.sendPassword && e2.sendPassword)
  {
    hide Tail, FirstHit, Unambiguous;
    if !s.passed && !s.refused {
      var buf := s.pending + a;
      assert s.pending + (a + b) == buf + b;
      ScanContinues(p, buf, b, s.asked);
      if s.asked { AskedIsKept(p, buf); AskedIsKept(p, buf + b); }
      match Scan(p, buf, s.asked)
      case Waiting(asked, rest) =>
        ScanFromTail(p, rest, b, asked);
        if asked { AskedIsKept(p, rest + b); }
      case Passed(asked, output) =>
      case Refused =>
    }
  }

  lemma FeedAllTwo(p: Patterns, s: GateState, a: Bytes, b: Bytes)
    requires p.Valid() && Unambiguous(p)
    ensures FeedAll(p, s, [a, b]) == FeedAll(p, s, [a + b])
  {
    hide FeedStep, Unambiguous;
    FeedTwice(p, s, a, b);
    assert [a, b][1..] == [b] && [b][1..] == [] && [a + b][1..] == [];
    var next := FeedStep(p, s, a).0;
    assert FeedAll(p, next, [b]).state == FeedStep(p, next, b).0;
  }

  lemma {:induction false} FeedAllAsOne(p: Patterns, s: GateState, pieces: seq<Bytes>)
    requires p.Valid() && Unambiguous(p) && pieces != []
    ensures FeedAll(p, s, pieces) == FeedAll(p, s, [Flatten(pieces)])
    decreases |pieces|
  {
    if |pieces| == 1 {
      assert Flatten(pieces) == pieces[0] + [] == pieces[0];
      assert pieces == [pieces[0]];
    } else {
      var (next, event) := FeedStep(p, s, pieces[0]);
      FeedAllAsOne(p, next, pieces[1..]);
      FeedAllTwo(p, s, pieces[0], Flatten(pieces[1..]));
      assert [pieces[0], Flatten(pieces[1..])][1..] == [Flatten(pieces[1..])];
    }
  }

  // ---- chunk independence, exactly --------------------------------------

  /** The halves of an ambiguous stream. Fed whole it gives one answer, cut
      where the inner pattern ends it gives another. */
  lemma AmbiguousPatternsDependOnChunks(p: Patterns)
    requires p.Valid() && !Unambiguous(p)
    ensures !ChunkIndependent(p)
  {
    if at :| 0 <= at < |p.mark| - |p.phrase| && OccursAt(p.mark, p.phrase, at) {
      MarkHidesPhrase(p, at);
    } else {
      var at :| 0 < at < |p.phrase| - |p.mark| && OccursAt(p.phrase, p.mark, at);
      PhraseHidesMark(p, at);
    }
  }

  lemma TwoPieces(p: Patterns, a: Bytes, b: Bytes)
    requires p.Valid() && ChunkIndependent(p)
    ensures FeedAll(p, INITIAL, [a, b]).state == FeedAll(p, INITIAL, [a + b]).state
    ensures FeedAll(p, INITIAL, [a + b]).state == FeedStep(p, INITIAL, a + b).0
    ensures FeedAll(p, INITIAL, [a, b]).state == FeedStep(p, FeedStep(p, INITIAL, a).0, b).0
  {
    assert [a, b][1..] == [b] && [b][1..] == [] && [a + b][1..] == [];
    assert Flatten([a, b]) == a + Flatten([b]) && Flatten([b]) == b + Flatten<byte>([]) == b;
    assert FeedAll(p, INITIAL, [a, b]) == FeedAll(p, INITIAL, [Flatten([a, b])]);
    var next := FeedStep(p, INITIAL, a).0;
    assert FeedAll(p, next, [b]).state == FeedAll(p, FeedStep(p, next, b).0, []).state;
  }

  lemma PhraseAtTheEnd(p: Patterns, buf: Bytes, at: nat)
    requires p.Valid() && FirstHit(p, buf) == PhraseHit(at) && |buf| == at + |p.phrase|
    ensures Scan(p, buf, false) == Waiting(true, [])
  {
    var rest := buf[at + |p.phrase|..];
    assert rest == [];
    assert Scan(p, buf, false) == Scan(p, rest, true);
    NothingInShortBuffer(p, rest);
  }

  lemma WholeMarkPasses(p: Patterns)
    requires p.Valid()
    ensures FeedStep(p, INITIAL, p.mark).0.passed
  {
    FindIsFirst(p.mark, p.mark);
    FindIsFirst(p.mark, p.phrase);
    assert OccursAt(p.mark, p.mark, 0);
    assert INITIAL.pending + p.mark == p.mark;
  }

  /** A phrase that ends before its stream does is taken once it has ended. */
  lemma PrefixEndingInPhrase(p: Patterns, stream: Bytes, first: nat)
    requires p.Valid() && first + |p.phrase| < |stream| <= |p.mark|
    requires Find(stream, p.phrase) == first
    ensures FeedStep(p, INITIAL, stream[..first + |p.phrase|]).0 == GateState([], true, false, false)
  {
    var a, b := stream[..first + |p.phrase|], stream[first + |p.phrase|..];
    assert a + b == stream;
    FindIsFirst(stream, p.phrase);
    FindIsFirst(a, p.phrase);
    FindIsFirst(a, p.mark);
    OccursInExtension(a, b, p.phrase, first);
    OccursInExtension(a, b, p.phrase, Find(a, p.phrase));
    assert FirstHit(p, a) == PhraseHit(first);
    PhraseAtTheEnd(p, a, first);
    assert INITIAL.pending + a == a;
  }

  lemma MarkHidesPhrase(p: Patterns, at: nat)
    requires p.Valid() && at < |p.mark| - |p.phrase| && OccursAt(p.mark, p.phrase, at)
    ensures !ChunkIndependent(p)
  {
    FindIsFirst(p.mark, p.phrase);
    hide OccursAt, FeedStep, FeedAll, ChunkIndependent, Find;
    var first := Find(p.mark, p.phrase);
    PrefixEndingInPhrase(p, p.mark, first);
    var a, b := p.mark[..first + |p.phrase|], p.mark[first + |p.phrase|..];
    assert a + b == p.mark;
    WholeMarkPasses(p);
    ShortRestDoesNotPass(p, b);
    if ChunkIndependent(p) { TwoPieces(p, a, b); }
  }

  lemma NothingInShortBuffer(p: Patterns, buf: Bytes)
    requires p.Valid() && buf == []
    ensures Scan(p, buf, true) == Waiting(true, []) && Scan(p, buf, false) == Waiting(false, [])
    ensures Tail(p, buf) == []
  {
    FindIsFirst(buf, p.mark);
    FindIsFirst(buf, p.phrase);
  }

  lemma {:induction false} ShortBufferHasNoMark(p: Patterns, buf: Bytes)
    requires p.Valid() && |buf| < |p.mark|
    ensures !Scan(p, buf, true).Passed?
  {
    FindIsFirst(buf, p.mark);
  }

  lemma ShortRestDoesNotPass(p: Patterns, buf: Bytes)
    requires p.Valid() && |buf| < |p.mark|
    ensures !FeedStep(p, GateState([], true, false, false), buf).0.passed
  {
    ShortBufferHasNoMark(p, buf);
    assert [] + buf == buf;
  }

  lemma PhraseHidesMark(p: Patterns, at: nat)
    requires p.Valid() && 0 < at < |p.phrase| - |p.mark| && OccursAt(p.phrase, p.mark, at) && !(p.mark <= p.phrase)
    ensures !ChunkIndependent(p)
  {
    hide Scan, Find;
    var a, b := p.phrase[..at + |p.mark|], p.phrase[at + |p.mark|..];
    assert a + b == p.phrase;
    WholePhraseAsks(p);
    assert OccursAt(a, p.mark, at) by { assert a[at..at + |p.mark|] == p.phrase[at..at + |p.mark|]; }
    ShortMarkPasses(p, a, at);
    if ChunkIndependent(p) { TwoPieces(p, a, b); }
  }

  lemma WholePhraseAsks(p: Patterns)
    requires p.Valid() && !(p.mark <= p.phrase)
    ensures !FeedStep(p, INITIAL, p.phrase).0.passed
  {
    FindIsFirst(p.phrase, p.phrase);
    FindIsFirst(p.phrase, p.mark);
    assert OccursAt(p.phrase, p.phrase, 0);
    assert FirstHit(p, p.phrase) == PhraseHit(0);
    PhraseAtTheEnd(p, p.phrase, 0);
    assert INITIAL.pending + p.phrase == p.phrase;
  }

  lemma ShortMarkPasses(p: Patterns, buf: Bytes, at: nat)
    requires p.Valid() && |buf| < |p.phrase| && OccursAt(buf, p.mark, at)
    ensures FeedStep(p, INITIAL, buf).0.passed
  {
    FindIsFirst(buf, p.phrase);
    FindIsFirst(buf, p.mark);
    assert INITIAL.pending + buf == buf;
  }

  lemma NoPieces(p: Patterns)
    requires p.Valid()
    ensures FeedAll(p, INITIAL, []) == FeedAll(p, INITIAL, [Flatten([])])
  {
    NothingInShortBuffer(p, []);
    var none: Bytes := [];
    assert INITIAL.pending + none == none && [none][1..] == [];
  }

  /** The gate does not depend on how the stream was cut, for every stream and
      every cut, exactly when its patterns are unambiguous. */
  lemma ChunkIndependence(p: Patterns)
    requires p.Valid()
    ensures ChunkIndependent(p) <==> Unambiguous(p)
  {
    hide FeedAll, Unambiguous;
    if Unambiguous(p) {
      forall pieces: seq<Bytes> ensures FeedAll(p, INITIAL, pieces) == FeedAll(p, INITIAL, [Flatten(pieces)]) {
        if pieces == [] {
          NoPieces(p);
        } else {
          FeedAllAsOne(p, INITIAL, pieces);
        }
      }
    } else {
      AmbiguousPatternsDependOnChunks(p);
    }
  }

  // ---- what the gate lets through ----------------------------------------

  /** No pattern lies in the other and no phrase ends in the start of a mark. */
  ghost predicate Separate(p: Patterns) {
    && (forall at :: !OccursAt(p.phrase, p.mark, at) && !OccursAt(p.mark, p.phrase, at))
    && forall n {:trigger p.mark[..n]} :: 0 < n <= Min(|p.phrase|, |p.mark|) ==>
        p.phrase[|p.phrase| - n..] != p.mark[..n]
  }

  lemma SeparateIsUnambiguous(p: Patterns)
    requires Separate(p)
    ensures Unambiguous(p)
  {
    assert !OccursAt(p.phrase, p.mark, 0);
  }

  /** `bytes.count`: occurrences of the phrase that do not overlap. */
  function Phrases(p: Patterns, buf: Bytes): nat
    requires p.Valid()
    decreases |buf|
  {
    var at := Find(buf, p.phrase);
    if at == -1 then 0 else 1 + Phrases(p, buf[at + |p.phrase|..])
  }

  /** The bytes before the first mark, or all of them. */
  function BeforeMark(p: Patterns, buf: Bytes): Bytes {
    var at := Find(buf, p.mark);
    if at == -1 then buf else buf[..at]
  }

  /** Where two occurrences overlap, one ends with what the other begins with. */
  lemma OverlapIsShared(buf: Bytes, left: Bytes, leftAt: nat, right: Bytes, rightAt: nat)
    requires OccursAt(buf, left, leftAt) && OccursAt(buf, right, rightAt)
    requires leftAt < rightAt < leftAt + |left| <= rightAt + |right|
    ensures var n := leftAt + |left| - rightAt; left[|left| - n..] == right[..n]
  {
    var n := leftAt + |left| - rightAt;
    assert buf[leftAt..leftAt + |left|][|left| - n..] == buf[rightAt..rightAt + n];
    assert buf[rightAt..rightAt + |right|][..n] == buf[rightAt..rightAt + n];
  }

  /** A phrase that starts before the first mark also ends before it. */
  lemma PhraseEndsBeforeMark(p: Patterns, buf: Bytes, at: nat, markAt: nat)
    requires p.Valid() && Separate(p) && OccursAt(buf, p.phrase, at) && OccursAt(buf, p.mark, markAt) && at < markAt
    ensures at + |p.phrase| <= markAt
  {
    var n := at + |p.phrase| - markAt;
    if n > 0 {
      if n <= |p.mark| {
        OverlapIsShared(buf, p.phrase, at, p.mark, markAt);
      } else {
        OccursInside(buf, p.phrase, at, p.mark, markAt);
      }
    }
  }

  lemma FindInPrefix(buf: Bytes, pattern: Bytes, end: nat)
    requires end <= |buf|
    ensures var at := Find(buf, pattern);
            Find(buf[..end], pattern) == if at == -1 || at + |pattern| > end then -1 else at
  {
    var at, there := Find(buf, pattern), Find(buf[..end], pattern);
    FindIsFirst(buf, pattern);
    FindIsFirst(buf[..end], pattern);
    assert buf[..end] + buf[end..] == buf;
    OccursInExtension(buf[..end], buf[end..], pattern, at);
    OccursInExtension(buf[..end], buf[end..], pattern, there);
  }

  lemma AfterPhraseBeforeMark(p: Patterns, buf: Bytes, at: nat)
    requires p.Valid() && Separate(p) && FirstHit(p, buf) == PhraseHit(at)
    ensures var rest := buf[at + |p.phrase|..];
            && Find(rest, p.mark) == (if Find(buf, p.mark) == -1 then -1 else Find(buf, p.mark) - at - |p.phrase|)
            && (Find(buf, p.mark) == -1 || Find(buf, p.mark) >= at + |p.phrase|)
            && Find(BeforeMark(p, buf), p.phrase) == at
            && BeforeMark(p, buf)[at + |p.phrase|..] == BeforeMark(p, rest)
  {
    var cut := at + |p.phrase|;
    var markAt := Find(buf, p.mark);
    FindIsFirst(buf, p.mark);
    FindIsFirst(buf, p.phrase);
    if markAt != -1 { PhraseEndsBeforeMark(p, buf, at, markAt); }
    FindInSuffix(buf, cut, p.mark);
    if markAt != -1 {
      FindInPrefix(buf, p.phrase, markAt);
      assert buf[..markAt][cut..] == buf[cut..][..markAt - cut];
    }
  }

  lemma MarkFirstHasNoPhrase(p: Patterns, buf: Bytes)
    requires p.Valid() && FirstHit(p, buf).MarkHit?
    ensures Phrases(p, BeforeMark(p, buf)) == 0
  {
    FindInPrefix(buf, p.phrase, Find(buf, p.mark));
  }

  /** The verdict on a whole stream, stated without the gate: it looks only
      at the phrases before the first mark and passes on what follows it. */
  lemma {:induction false} VerdictOnStream(p: Patterns, buf: Bytes, asked: bool)
    requires p.Valid() && Separate(p)
    ensures var seen := Phrases(p, BeforeMark(p, buf)) + if asked then 1 else 0;
            var markAt := Find(buf, p.mark);
            && (Scan(p, buf, asked).Refused? <==> seen >= 2)
            && (Scan(p, buf, asked).Waiting? <==> seen < 2 && markAt == -1)
            && (seen < 2 ==> Scan(p, buf, asked).asked == (seen == 1))
            && (seen < 2 && markAt != -1 ==> Scan(p, buf, asked) == Passed(seen == 1, buf[markAt + |p.mark|..]))
    decreases |buf|
  {
    match FirstHit(p, buf)
    case NoHit =>
    case MarkHit(at) => MarkFirstHasNoPhrase(p, buf);
    case PhraseHit(at) =>
      hide FirstHit, Find, Phrases, BeforeMark, Separate, Tail;
      PhraseCounts(p, buf, at);
      if !asked {
        var rest := buf[at + |p.phrase|..];
        VerdictOnStream(p, rest, true);
        ScanAfterPhrase(p, buf, at);
        hide Scan;
        var markAt := Find(rest, p.mark);
        if markAt != -1 { DropTwice(buf, at + |p.phrase|, markAt + |p.mark|); }
      }
  }

  lemma ScanAfterPhrase(p: Patterns, buf: Bytes, at: nat)
    requires p.Valid() && FirstHit(p, buf) == PhraseHit(at)
    ensures Scan(p, buf, false) == Scan(p, buf[at + |p.phrase|..], true)
  {
  }

  lemma PhraseCounts(p: Patterns, buf: Bytes, at: nat)
    requires p.Valid() && Separate(p) && FirstHit(p, buf) == PhraseHit(at)
    ensures var rest := buf[at + |p.phrase|..];
            && Find(rest, p.mark) == (if Find(buf, p.mark) == -1 then -1 else Find(buf, p.mark) - at - |p.phrase|)
            && (Find(buf, p.mark) == -1 || Find(buf, p.mark) >= at + |p.phrase|)
            && Phrases(p, BeforeMark(p, buf)) == 1 + Phrases(p, BeforeMark(p, rest))
  {
    hide Find, Separate, BeforeMark;
    AfterPhraseBeforeMark(p, buf, at);
  }

  /** The whole contract of a gate: however a stream was cut, the command's
      output is exactly the bytes after the first mark, the password is asked
      for at most once and only by a phrase, a second phrase refuses. */
  lemma GateContract(p: Patterns, pieces: seq<Bytes>)
    requires p.Valid() && Separate(p)
    ensures var stream := Flatten(pieces);
            var seen := Phrases(p, BeforeMark(p, stream));
            var markAt := Find(stream, p.mark);
            var run := FeedAll(p, INITIAL, pieces);
            && run.state.refused == (seen >= 2)
            && run.state.passed == (seen < 2 && markAt != -1)
            && run.output == (if run.state.passed then stream[markAt + |p.mark|..] else [])
            && run.passwordRequests == Min(seen, 1)
  {
    hide Separate, Unambiguous, Tail, FirstHit, Phrases, BeforeMark;
    var stream := Flatten(pieces);
    SeparateIsUnambiguous(p);
    ChunkIndependence(p);
    assert FeedAll(p, INITIAL, pieces) == FeedAll(p, INITIAL, [stream]);
    VerdictOnStream(p, stream, false);
    FeedOnce(p, stream);
  }

  lemma FeedOnce(p: Patterns, stream: Bytes)
    requires p.Valid()
    ensures var (next, event) := FeedStep(p, INITIAL, stream);
            FeedAll(p, INITIAL, [stream]) == Summary(next, event.output, if event.sendPassword then 1 else 0)
    ensures var v := Scan(p, stream, false); var (next, event) := FeedStep(p, INITIAL, stream);
            && next.refused == v.Refused? && next.passed == v.Passed? && event.sendPassword == (v.Refused? || v.asked)
            && event.output == (if v.Passed? then v.output else [])
  {
    assert INITIAL.pending + stream == stream;
    var none: seq<Bytes> := [];
    assert [stream][1..] == none;
    var (next, event) := FeedStep(p, INITIAL, stream);
    assert event.output + [] == event.output;
    assert FeedAll(p, next, none) == Summary(next, [], 0);
  }

  // ---- the patterns the program really uses ------------------------------

  /** "SNDsudoprompt" and "SNDtermmark" in ASCII. */
  const PHRASE_HEAD: Bytes := [83, 78, 68, 115, 117, 100, 111, 112, 114, 111, 109, 112, 116]
  const MARK_HEAD: Bytes := [83, 78, 68, 116, 101, 114, 109, 109, 97, 114, 107]

  /** What `secrets.token_hex(16)` may return. */
  predicate HexNonce(nonce: Bytes) {
    |nonce| == 32 && forall i :: 0 <= i < 32 ==> 48 <= nonce[i] <= 57 || 97 <= nonce[i] <= 102
  }

  lemma ByteOfOccurrence(buf: Bytes, pattern: Bytes, at: int, i: nat)
    requires i < |pattern|
    ensures OccursAt(buf, pattern, at) ==> buf[at + i] == pattern[i]
  {
    if OccursAt(buf, pattern, at) {
      assert buf[at..at + |pattern|][i] == buf[at + i];
    }
  }

  /** Whatever the two nonces are, the patterns of `build_command` are separate. */
  lemma BuildCommandPatternsAreSeparate(phraseNonce: Bytes, markNonce: Bytes)
    requires HexNonce(phraseNonce) && HexNonce(markNonce)
    ensures var p := Patterns(PHRASE_HEAD + phraseNonce, MARK_HEAD + markNonce);
            p.Valid() && Separate(p) && ChunkIndependent(p)
  {
    var p := Patterns(PHRASE_HEAD + phraseNonce, MARK_HEAD + markNonce);
    assert p.phrase[0] == p.mark[0] == 83 && p.phrase[3] == 115 && p.mark[3] == 116;
    assert forall i :: 0 < i < |p.phrase| ==> p.phrase[i] != 83;
    assert forall i :: 0 < i < |p.mark| ==> p.mark[i] != 83;
    forall at ensures !OccursAt(p.phrase, p.mark, at) && !OccursAt(p.mark, p.phrase, at) {
      ByteOfOccurrence(p.phrase, p.mark, at, 0);
      ByteOfOccurrence(p.phrase, p.mark, at, 3);
    }
    forall n | 0 < n <= Min(|p.phrase|, |p.mark|) ensures p.phrase[|p.phrase| - n..] != p.mark[..n] {
      assert p.phrase[|p.phrase| - n..][0] == p.phrase[|p.phrase| - n] && p.mark[..n][0] == p.mark[0];
    }
    SeparateIsUnambiguous(p);
    ChunkIndependence(p);
  }

  // ---- the gate object ----------------------------------------------------

  lemma TailSizeFound(p: Patterns, buf: Bytes, size: nat)
    requires size <= |buf| && (buf[|buf| - size..] <= p.phrase || buf[|buf| - size..] <= p.mark)
    ensures TailSize(p, buf, size) == size
  {
  }

  lemma TailSizeNext(p: Patterns, buf: Bytes, size: nat)
    requires 0 < size <= |buf| && !(buf[|buf| - size..] <= p.phrase) && !(buf[|buf| - size..] <= p.mark)
    ensures TailSize(p, buf, size) == TailSize(p, buf, size - 1)
  {
  }

  class SudoGate {
    const p: Patterns
    var pending: Bytes
    var asked: bool
    var refused: bool
    var passed: bool

    constructor (p: Patterns)
      ensures this.p == p && State() == INITIAL
    {
      this.p := p;
      pending, asked, refused, passed := [], false, false, false;
    }

    function State(): GateState
      reads this
    {
      GateState(pending, asked, refused, passed)
    }

    method SuffixPrefix(data: Bytes) returns (suffix: Bytes)
      requires p.Valid()
      ensures suffix == Tail(p, data)
    {
      hide Begins, TailSize;
      var keep := Min(|data|, p.Longest() - 1);
      var size := keep;
      while size > 0
        invariant 0 <= size <= keep
        invariant TailSize(p, data, keep) == TailSize(p, data, size)
      {
        suffix := data[|data| - size..];
        if suffix <= p.phrase || suffix <= p.mark {
          TailSizeFound(p, data, size);
          return;
        }
        TailSizeNext(p, data, size);
        size := size - 1;
      }
      suffix := [];
    }

    method Feed(data: Bytes) returns (event: GateEvent)
      requires p.Valid()
      modifies this
      ensures (State(), event) == FeedStep(p, old(State()), data)
    {
      hide Tail, Find;
      if passed {
        return GateEvent(false, false, data);
      }
      if refused {
        return GateEvent(false, true, []);
      }
      var buf := pending + data;
      pending := [];
      var sendPassword := false;
      while buf != []
        invariant pending == [] && !passed && !refused
        invariant sendPassword == (asked && !old(asked)) && (old(asked) ==> asked)
        invariant Scan(p, buf, asked) == Scan(p, old(pending) + data, old(asked))
        decreases |buf|
      {
        match FirstHit(p, buf) {
          case NoHit =>
            pending := SuffixPrefix(buf);
            break;
          case MarkHit(at) =>
            passed := true;
            return GateEvent(sendPassword, false, buf[at + |p.mark|..]);
          case PhraseHit(at) =>
            buf := buf[at + |p.phrase|..];
            if asked {
              refused := true;
              return GateEvent(sendPassword, true, []);
            }
            asked := true;
            sendPassword := true;
        }
      }
      if buf == [] {
        NothingInShortBuffer(p, buf);
      }
      event := GateEvent(sendPassword, false, []);
    }
  }
}
