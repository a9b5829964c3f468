/** What a refreshed page shows of a run, from the channel's bytes to the
    frames at its socket. */
module TerminalViews {
  import opened Common
  import opened Config
  import opened OutputBatchers
  import P = Pipelines
  import R = ChannelReaders
  import G = SudoGates
  import H = TerminalHistories
  import W = WorkerOutputs

  /** The text of the batches with these numbers, in the order given. */
  function TextOf(batches: seq<Batch>, numbers: seq<nat>): string
    requires forall i :: 0 <= i < |numbers| ==> 1 <= numbers[i] <= |batches|
  {
    if numbers == [] then "" else batches[numbers[0] - 1].text + TextOf(batches, numbers[1..])
  }

  lemma RangeIsWithin(low: nat, high: nat)
    requires low <= high
    ensures forall i :: 0 <= i < |P.Range(low, high)| ==> low < P.Range(low, high)[i] <= high
  {
    forall i | 0 <= i < |P.Range(low, high)| ensures low < P.Range(low, high)[i] <= high { P.RangeAt(low, high, i); }
  }

  lemma {:induction false} TextSnoc(batches: seq<Batch>, numbers: seq<nat>, last: nat)
    requires 1 <= last <= |batches| && forall i :: 0 <= i < |numbers| ==> 1 <= numbers[i] <= |batches|
    ensures TextOf(batches, numbers + [last]) == TextOf(batches, numbers) + batches[last - 1].text
  {
    if numbers == [] {
      assert [last][1..] == [] && numbers + [last] == [last];
    } else {
      assert (numbers + [last])[0] == numbers[0] && (numbers + [last])[1..] == numbers[1..] + [last];
      TextSnoc(batches, numbers[1..], last);
    }
  }

  /** The batches one to n are the first n. */
  lemma {:induction false} FirstBatches(batches: seq<Batch>, n: nat)
    requires n <= |batches|
    ensures forall i :: 0 <= i < |P.Range(0, n)| ==> 1 <= P.Range(0, n)[i] <= |batches|
    ensures TextOf(batches, P.Range(0, n)) == Joined(batches[..n])
  {
    RangeIsWithin(0, n);
    if n > 0 {
      RangeIsWithin(0, n - 1);
      FirstBatches(batches, n - 1);
      TextSnoc(batches, P.Range(0, n - 1), n);
      assert batches[..n - 1] + [batches[n - 1]] == batches[..n];
      JoinedSnoc(batches[..n - 1], batches[n - 1]);
    }
  }

  lemma {:induction false} JoinedPrefix(batches: seq<Batch>, n: nat)
    requires n <= |batches|
    ensures Joined(batches[..n]) <= Joined(batches)
    decreases |batches| - n
  {
    if n < |batches| {
      JoinedPrefix(batches, n + 1);
      assert batches[..n] + [batches[n]] == batches[..n + 1];
      JoinedSnoc(batches[..n], batches[n]);
    } else {
      assert batches[..n] == batches;
    }
  }

  /** The page's text of a run: its snapshot's batches and those applied since. */
  function PageNumbers(s: P.State, k: P.SocketId, r: P.RunId): seq<nat>
    requires P.Refreshing(s, k, r)
  {
    P.Shown(s.sockets[k].marks[r], P.Numbers(r, s.sockets[k].handed))
  }

  predicate Quiet(s: P.State, k: P.SocketId)
    requires k in s.sockets
  {
    s.sockets[k].sending.None? && s.sockets[k].queue == [] && P.Pipe(s) == []
  }

  /** The answers of emit, in order. */
  function Replies(log: seq<R.Event>): seq<bool> {
    if log == [] then [] else (if log[0].Offered? then [log[0].accepted] else []) + Replies(log[1..])
  }

  lemma {:induction false} RepliesDecide(log: seq<R.Event>)
    requires forall i :: 0 <= i < |Replies(log)| ==> Replies(log)[i]
    ensures R.Taken(log, 0)
  {
    if log != [] {
      var own := if log[0].Offered? then [log[0].accepted] else [];
      assert forall i :: 0 <= i < |Replies(log[1..])| ==> Replies(log)[|own| + i] == Replies(log[1..])[i];
      RepliesDecide(log[1..]);
      assert own != [] ==> Replies(log)[0];
      assert forall i :: 0 < i < |log| ==> log[i] == log[1..][i - 1];
    }
  }

  /** No batch of a session that still holds its slot is turned down before the
      delivery queue is shut down, so nothing supersedes its reader. */
  lemma LiveRunIsTaken(actions: seq<W.Action>, s: W.State, r: P.RunId, log: seq<R.Event>)
    requires W.Reached(r, actions, s) && s.answers == Replies(log)
    requires P.Live(s.pipe, r) && !s.pipe.closing && !W.InCall(s)
    ensures R.Taken(log, 0)
  {
    W.TakenIsABeginning(r, actions, s);
    hide W.Reached, P.Live;
    RepliesDecide(log);
  }

  /** Nothing of the run is under way any more. */
  predicate Settled(s: W.State, k: P.SocketId)
    requires k in s.pipe.sockets
  {
    Quiet(s.pipe, k) && !W.InCall(s) && !s.pipe.closing
  }

  /** What a refreshed page shows of a worker's run, by batch numbers. */
  lemma PageHasTheFirstBatches(actions: seq<W.Action>, s: W.State, k: P.SocketId, r: P.RunId) returns (n: nat)
    requires W.Reached(r, actions, s) && P.Refreshing(s.pipe, k, r)
    ensures PageNumbers(s.pipe, k, r) == P.Range(0, n) && n <= |s.calls| && Numbered(s.calls)
    ensures Settled(s, k) ==> n == |s.calls|
  {
    W.TakenIsABeginning(r, actions, s);
    var pipe, window := W.RunsAreBoth(r, W.FRESH, actions);
    n := P.PageSeesEachBatchOnce(pipe, k, r);
    assert P.Live(s.pipe, r);
    hide W.After, W.IsRun, P.After, P.IsRun, P.Pipe, P.Numbers, P.Live;
  }

  /** End to end: whatever the interleaving, the text on a refreshed page is a
      beginning of the decoding of what the reader let through, each piece once and
      in order; once the calls of emit are over and nothing is under way it is all of
      it, provided the reader got to its end. `log` is what the reader offered, as
      `ReadChannel` promises of it. */
  lemma PageShowsTheOutput(actions: seq<W.Action>, s: W.State, k: P.SocketId, r: P.RunId, c: Codec, output: Bytes,
                           log: seq<R.Event>, complete: bool)
    requires W.Reached(r, actions, s) && P.Refreshing(s.pipe, k, r)
    requires s.calls == R.Offers(log) && R.Begun(R.Offers(log), Whole(c, output), complete)
    ensures forall i :: 0 <= i < |PageNumbers(s.pipe, k, r)| ==> 1 <= PageNumbers(s.pipe, k, r)[i] <= |s.calls|
    ensures TextOf(s.calls, PageNumbers(s.pipe, k, r)) <= Whole(c, output)
    ensures complete && Settled(s, k) ==> TextOf(s.calls, PageNumbers(s.pipe, k, r)) == Whole(c, output)
  {
    var n := PageHasTheFirstBatches(actions, s, k, r);
    hide W.Reached, PageNumbers, Settled, P.Refreshing;
    FirstBatches(s.calls, n);
    JoinedPrefix(s.calls, n);
    PrefixOfPrefix(Joined(s.calls[..n]), Joined(s.calls), Whole(c, output));
    if n == |s.calls| { assert s.calls[..n] == s.calls; }
  }

  lemma PrefixOfPrefix(a: string, b: string, c: string)
    requires a <= b <= c
    ensures a <= c
  {
  }

  /** Behind a sudo gate with separate patterns that text is decoded from exactly
      the bytes after the first mark of everything the channel handed over. */
  lemma GatedPageShowsTheCommand(actions: seq<W.Action>, s: W.State, k: P.SocketId, r: P.RunId, c: Codec,
                                 p: G.Patterns, pieces: seq<Bytes>, log: seq<R.Event>, complete: bool)
    requires W.Reached(r, actions, s) && P.Refreshing(s.pipe, k, r)
    requires p.Valid() && G.Separate(p) && G.Phrases(p, G.BeforeMark(p, Flatten(pieces))) < 2
    requires s.calls == R.Offers(log) && R.Begun(R.Offers(log), Whole(c, R.Through(true, p, pieces).output), complete)
    ensures forall i :: 0 <= i < |PageNumbers(s.pipe, k, r)| ==> 1 <= PageNumbers(s.pipe, k, r)[i] <= |s.calls|
    ensures var stream, markAt := Flatten(pieces), G.Find(Flatten(pieces), p.mark);
            var shown := TextOf(s.calls, PageNumbers(s.pipe, k, r));
            var whole := Whole(c, if markAt == -1 then [] else stream[markAt + |p.mark|..]);
            shown <= whole && (complete && Settled(s, k) ==> shown == whole)
  {
    R.ShownIsAfterTheMark(c, p, pieces);
    hide W.Reached, PageNumbers, Settled, P.Refreshing, G.Separate, G.Phrases, G.BeforeMark, G.Find, R.Through;
    PageShowsTheOutput(actions, s, k, r, c, R.Through(true, p, pieces).output, log, complete);
  }

  /** The snapshot with watermark n shows exactly the text of the batches one to n,
      through the three passes, and carries n as its number. */
  lemma SnapshotShowsTheFirstBatches(offered: seq<Batch>, n: nat)
    requires Numbered(offered) && n <= |offered|
    ensures forall i :: 0 <= i < |P.Range(0, n)| ==> 1 <= P.Range(0, n)[i] <= |offered|
    ensures var h := H.FeedBatches(H.EMPTY, W.AsFed(offered[..n]));
            var tokens := H.Strip(TextOf(offered, P.Range(0, n)));
            && h.lastSeq == n && h.fullscreen == H.ScreenAfter(tokens, false)
            && var page := H.EditAll(H.BLANK, H.Visible(tokens, false));
               && h.line == page.line && |h.lines| == Min(|page.lines|, TERM_HISTORY_MAX_LINES)
               && h.lines == page.lines[|page.lines| - |h.lines|..]
  {
    FirstBatches(offered, n);
    W.FedNumbers(offered[..n]);
    W.LastIsCount(offered, n);
    H.HistoryIsThreePasses(W.AsFed(offered[..n]));
    hide H.FeedBatches, H.Strip, H.EditAll, H.Visible, H.ScreenAfter;
  }
}
