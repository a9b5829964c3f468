/** The recovery history of terminal_history.py: one fused machine proved equal
    to three passes over the whole text. */
module TerminalHistories {
  import opened Common
  import opened Config

  const ESC: char := '\U{1B}'
  const BEL: char := '\U{07}'
  const BACKSPACE: char := '\U{08}'

  // ---- the fused machine --------------------------------------------------

  datatype Mode = Text | Escape | Csi | Osc | OscEscape | Str | StrEscape | Charset

  datatype History = History(lines: seq<string>, line: string, position: nat, mode: Mode, csi: string,
                             fullscreen: bool, lastSeq: nat)

  const EMPTY := History([], [], 0, Text, [], false, 0)

  /** What a `deque(maxlen=n)` keeps of everything appended to it. */
  function Last<T>(items: seq<T>, n: nat): seq<T> {
    if |items| <= n then items else items[|items| - n..]
  }

  predicate Printable(c: char) {
    c == '\t' || (c as int >= 32 && !(0x7F <= c as int <= 0x9F))
  }

  predicate IsFinal(c: char) { '@' <= c <= '~' }

  /** `str.split` on one separator character. */
  function Split(text: string, separator: char): seq<string> {
    if text == [] then [[]]
    else
      var rest := Split(text[1..], separator);
      if text[0] == separator then [[]] + rest else [[text[0]] + rest[0]] + rest[1..]
  }

  /** Whether the parameters name a mode that switches the alternate screen. */
  predicate SwitchesScreen(params: string) {
    && params != [] && params[0] == '?'
    && exists mode :: mode in Split(params[1..], ';') && mode in ["47", "1047", "1049"]
  }

  function WriteChar(h: History, c: char): History {
    if c == '\n' then h.(lines := Last(h.lines + [h.line], TERM_HISTORY_MAX_LINES), line := [], position := 0)
    else if c == '\r' then h.(position := 0)
    else if c == BACKSPACE then h.(position := Max(0, h.position - 1))
    else if !Printable(c) then h
    else if h.position < |h.line| then h.(line := h.line[h.position := c], position := h.position + 1)
    else if |h.line| < TERM_HISTORY_MAX_LINE_CHARS then
      h.(line := h.line + seq(h.position - |h.line|, _ => ' ') + [c], position := h.position + 1)
    else h
  }

  function HandleCsi(h: History, sequence: string): History
    requires sequence != []
  {
    var final, params := sequence[|sequence| - 1], sequence[..|sequence| - 1];
    if final == 'K' && (params == "" || params == "0") && !h.fullscreen then
      h.(line := if h.position < |h.line| then h.line[..h.position] else h.line)
    else if (final == 'h' || final == 'l') && SwitchesScreen(params) then h.(fullscreen := final == 'h')
    else h
  }

  function FeedChar(h: History, c: char): History {
    match h.mode
    case Text => if c == ESC then h.(mode := Escape) else if h.fullscreen then h else WriteChar(h, c)
    case Escape =>
      if c == '[' then h.(mode := Csi, csi := [])
      else if c == ']' then h.(mode := Osc)
      else if c in "PX^_" then h.(mode := Str)
      else if c in "()" then h.(mode := Charset)
      else h.(mode := Text)
    case Charset => h.(mode := Text)
    case Csi =>
      var h' := h.(csi := h.csi + [c]);
      if IsFinal(c) then HandleCsi(h', h'.csi).(mode := Text) else h'
    case Osc => if c == BEL then h.(mode := Text) else if c == ESC then h.(mode := OscEscape) else h
    case Str => if c == ESC then h.(mode := StrEscape) else h
    case OscEscape => if c == '\\' then h.(mode := Text) else if c != ESC then h.(mode := Osc) else h
    case StrEscape => if c == '\\' then h.(mode := Text) else if c != ESC then h.(mode := Str) else h
  }

  function FeedText(h: History, text: string): History
    decreases |text|
  {
    if text == [] then h else FeedText(FeedChar(h, text[0]), text[1..])
  }

  /** One call of `feed`. */
  function FeedBatch(h: History, text: string, batchSeq: nat): History {
    FeedText(h.(lastSeq := batchSeq), text)
  }

  function FeedBatches(h: History, batches: seq<(string, nat)>): History
    decreases |batches|
  {
    if batches == [] then h else FeedBatches(FeedBatch(h, batches[0].0, batches[0].1), batches[1..])
  }

  // ---- the reference: three passes over the whole text ---------------------

  datatype Token = Show(c: char) | Erase | Screen(on: bool)

  datatype Kind = CsiKind | OscKind | StringKind

  /** Whether the sequence that begins with `text` (introducer at 0 and 1) ends
      at `j`. A control sequence ends at its final byte (ECMA-48, section 5.4),
      a control string at ST, an operating system command also at BEL (5.6). */
  predicate Ends(text: string, kind: Kind, j: nat)
    requires j < |text|
  {
    var escaped := j > 2 && text[j - 1] == ESC;
    match kind
    case CsiKind => IsFinal(text[j])
    case OscKind => (text[j] == BEL && !escaped) || (text[j] == '\\' && escaped)
    case StringKind => text[j] == '\\' && escaped
  }

  function EndFrom(text: string, kind: Kind, j: nat): (end: nat)
    requires j <= |text|
    ensures j <= end <= |text|
    decreases |text| - j
  {
    if j == |text| then j else if Ends(text, kind, j) then j + 1 else EndFrom(text, kind, j + 1)
  }

  /** Length of the escape sequence at the start; an unfinished one takes all. */
  function SequenceLength(text: string): (n: nat)
    requires text != [] && text[0] == ESC
    ensures 1 <= n <= |text|
  {
    if |text| == 1 then 1
    else if text[1] == '[' then EndFrom(text, CsiKind, 2)
    else if text[1] == ']' then EndFrom(text, OscKind, 2)
    else if text[1] in "PX^_" then EndFrom(text, StringKind, 2)
    else if text[1] in "()" then Min(3, |text|)
    else 2
  }

  /** The only sequences with an effect: erase to end of line, screen switch. */
  function Effect(sequence: string): seq<Token> {
    if |sequence| < 3 || sequence[1] != '[' || !IsFinal(sequence[|sequence| - 1]) then []
    else
      var final, params := sequence[|sequence| - 1], sequence[2..|sequence| - 1];
      if final == 'K' && params in ["", "0"] then [Erase]
      else if final in "hl" && SwitchesScreen(params) then [Screen(final == 'h')]
      else []
  }

  /** Pass 1: strip escape sequences. */
  function Strip(text: string): seq<Token>
    decreases |text|
  {
    if text == [] then []
    else if text[0] != ESC then [Show(text[0])] + Strip(text[1..])
    else var n := SequenceLength(text); Effect(text[..n]) + Strip(text[n..])
  }

  /** Pass 2: drop everything shown in the alternate screen. */
  function Visible(tokens: seq<Token>, fullscreen: bool): (shown: seq<Token>)
    ensures |shown| <= |tokens|
  {
    if tokens == [] then []
    else if tokens[0].Screen? then Visible(tokens[1..], tokens[0].on)
    else if fullscreen then Visible(tokens[1..], fullscreen)
    else [tokens[0]] + Visible(tokens[1..], fullscreen)
  }

  function ScreenAfter(tokens: seq<Token>, fullscreen: bool): bool {
    if tokens == [] then fullscreen
    else ScreenAfter(tokens[1..], if tokens[0].Screen? then tokens[0].on else fullscreen)
  }

  datatype Page = Page(lines: seq<string>, line: string, cursor: nat)

  /** A line editor without limits on the number of lines: it overwrites under
      the cursor, appends at the end, and refuses a 4097th character. */
  function Edit(page: Page, token: Token): Page {
    match token
    case Screen(_) => page
    case Erase => page.(line := page.line[..Min(page.cursor, |page.line|)])
    case Show(c) =>
      if c == '\n' then Page(page.lines + [page.line], [], 0)
      else if c == '\r' then page.(cursor := 0)
      else if c == BACKSPACE then page.(cursor := if page.cursor == 0 then 0 else page.cursor - 1)
      else if !Printable(c) || (page.cursor >= |page.line| && |page.line| >= TERM_HISTORY_MAX_LINE_CHARS) then page
      else if page.cursor < |page.line| then page.(line := page.line[page.cursor := c], cursor := page.cursor + 1)
      else page.(line := page.line + [c], cursor := page.cursor + 1)
  }

  /** Pass 3: edit lines. */
  function EditAll(page: Page, tokens: seq<Token>): Page
    decreases |tokens|
  {
    if tokens == [] then page else EditAll(Edit(page, tokens[0]), tokens[1..])
  }

  const BLANK := Page([], [], 0)

  // ---- invariants ----------------------------------------------------------

  predicate Clean(line: string) {
    |line| <= TERM_HISTORY_MAX_LINE_CHARS && forall i :: 0 <= i < |line| ==> Printable(line[i])
  }

  /** The cursor never leaves the line, so the space padding is never used. */
  predicate WellFormed(h: History) {
    && h.position <= |h.line| && Clean(h.line)
    && |h.lines| <= TERM_HISTORY_MAX_LINES && forall i :: 0 <= i < |h.lines| ==> Clean(h.lines[i])
  }

  lemma FeedCharKeepsWellFormed(h: History, c: char)
    requires WellFormed(h)
    ensures WellFormed(FeedChar(h, c))
  {
    assert Clean(h.line[..h.position]);
  }

  lemma {:induction false} FeedTextKeepsWellFormed(h: History, text: string)
    requires WellFormed(h)
    ensures WellFormed(FeedText(h, text))
    decreases |text|
  {
    if text != [] {
      FeedCharKeepsWellFormed(h, text[0]);
      FeedTextKeepsWellFormed(FeedChar(h, text[0]), text[1..]);
    }
  }

  // ---- the refinement --------------------------------------------------------

  /** The machine shows the page, of which it keeps the last 1500 lines. */
  predicate Shows(h: History, page: Page) {
    h.lines == Last(page.lines, TERM_HISTORY_MAX_LINES) && h.line == page.line && h.position == page.cursor
  }

  lemma WriteShows(h: History, page: Page, c: char)
    requires WellFormed(h) && Shows(h, page)
    ensures Shows(WriteChar(h, c), Edit(page, Show(c)))
  {
    if c == '\n' {
      assert Last(page.lines + [page.line], TERM_HISTORY_MAX_LINES)
          == Last(Last(page.lines, TERM_HISTORY_MAX_LINES) + [page.line], TERM_HISTORY_MAX_LINES);
    } else if Printable(c) && h.position == |h.line| {
      assert h.line + seq(h.position - |h.line|, _ => ' ') + [c] == h.line + [c];
    }
  }

  lemma {:induction false} FeedTextConcat(h: History, a: string, b: string)
    ensures FeedText(h, a + b) == FeedText(FeedText(h, a), b)
    decreases |a|
  {
    if a == [] {
      assert a + b == b;
    } else {
      assert (a + b)[0] == a[0] && (a + b)[1..] == a[1..] + b;
      FeedTextConcat(FeedChar(h, a[0]), a[1..], b);
    }
  }

  /** Equal in everything but the escape state. */
  predicate SameText(a: History, b: History) {
    a.lines == b.lines && a.line == b.line && a.position == b.position && a.fullscreen == b.fullscreen &&
        a.lastSeq == b.lastSeq
  }

  /** What one stripped sequence does to the machine. */
  function Apply(h: History, effect: seq<Token>): History {
    if effect == [] then h
    else match effect[0]
      case Show(c) => h
      case Erase =>
        if h.fullscreen then h
        else h.(line := if h.position < |h.line| then h.line[..h.position] else h.line)
      case Screen(on) => h.(fullscreen := on)
  }

  lemma HandleCsiApplies(h: History, sequence: string)
    requires |sequence| >= 3 && sequence[1] == '[' && IsFinal(sequence[|sequence| - 1])
    ensures SameText(HandleCsi(h, sequence[2..]), Apply(h, Effect(sequence)))
  {
    assert sequence[2..][..|sequence| - 3] == sequence[2..|sequence| - 1];
  }

  lemma FeedOne(h: History, text: string, j: nat, end: nat)
    requires j < end <= |text|
    ensures FeedText(h, text[j..end]) == FeedText(FeedChar(h, text[j]), text[j + 1..end])
  {
    assert text[j..end][0] == text[j] && text[j..end][1..] == text[j + 1..end];
  }

  /** From inside a control sequence to its end. */
  lemma {:induction false} CsiRun(h: History, text: string, j: nat)
    requires 2 <= j <= |text| && text[1] == '[' && h.mode == Csi && h.csi == text[2..j]
    ensures var end := EndFrom(text, CsiKind, j); var h' := FeedText(h, text[j..end]);
            if end > j && IsFinal(text[end - 1]) then
              h' == HandleCsi(h.(csi := text[2..end]), text[2..end]).(mode := Text)
            else end == |text| && SameText(h', h)
    decreases |text| - j
  {
    hide HandleCsi, Apply, Effect, WriteChar;
    var end := EndFrom(text, CsiKind, j);
    if j < |text| {
      var next := FeedChar(h, text[j]);
      assert text[2..j] + [text[j]] == text[2..j + 1];
      FeedOne(h, text, j, end);
      if IsFinal(text[j]) {
        assert text[j + 1..end] == [];
        assert FeedText(next, []) == next;
      } else {
        CsiRun(next, text, j + 1);
      }
    }
  }

  /** From inside a control string to its end. */
  lemma {:induction false} StringRun(h: History, text: string, kind: Kind, j: nat)
    requires 2 <= j <= |text| && kind != CsiKind
    requires h.mode == (if j > 2 && text[j - 1] == ESC then (if kind.OscKind? then OscEscape else StrEscape)
                        else if kind.OscKind? then Osc else Str)
    ensures var end := EndFrom(text, kind, j); var h' := FeedText(h, text[j..end]);
            SameText(h', h) && (end < |text| ==> h'.mode == Text)
    decreases |text| - j
  {
    var end := EndFrom(text, kind, j);
    if j < |text| {
      var next := FeedChar(h, text[j]);
      assert text[j..end][0] == text[j] && text[j..end][1..] == text[j + 1..end];
      if !Ends(text, kind, j) {
        StringRun(next, text, kind, j + 1);
      }
    }
  }

  lemma FeedTwoChars(h: History, text: string)
    requires |text| >= 2
    ensures FeedText(h, text) == FeedText(FeedChar(FeedChar(h, text[0]), text[1]), text[2..])
  {
    assert text[1..][1..] == text[2..];
  }

  /** The machine crosses a whole escape sequence as one effect. */
  lemma SequenceApplies(h: History, text: string)
    requires h.mode == Text && text != [] && text[0] == ESC
    ensures var n := SequenceLength(text); var h' := FeedText(h, text[..n]);
            SameText(h', Apply(h, Effect(text[..n]))) && (n < |text| ==> h'.mode == Text)
  {
    hide HandleCsi, WriteChar, SwitchesScreen;
    var n := SequenceLength(text);
    if |text| == 1 {
      assert text[..n][1..] == [];
    } else {
      var piece := text[..n];
      FeedTwoChars(h, piece);
      var inside := FeedChar(FeedChar(h, text[0]), text[1]);
      assert piece[2..] == text[2..n];
      if text[1] == '[' {
        CsiRun(inside, text, 2);
        assert piece[2..] == text[2..n];
        if n > 2 && IsFinal(text[n - 1]) {
          HandleCsiApplies(inside.(csi := text[2..n]), piece);
        }
      } else if text[1] == ']' {
        StringRun(inside, text, OscKind, 2);
      } else if text[1] in "PX^_" {
        StringRun(inside, text, StringKind, 2);
      } else if text[1] in "()" && |text| > 2 {
        assert piece[2..] == [text[2]] && piece[2..][1..] == [];
      } else {
        assert piece[2..] == [];
      }
    }
  }

  lemma {:induction false} EditAllOne(page: Page, effect: seq<Token>, rest: seq<Token>)
    requires |effect| <= 1
    ensures EditAll(page, effect + rest) == EditAll(if effect == [] then page else Edit(page, effect[0]), rest)
  {
    if effect == [] {
      assert effect + rest == rest;
    } else {
      assert (effect + rest)[1..] == rest;
    }
  }

  lemma VisibleOne(effect: seq<Token>, rest: seq<Token>, fullscreen: bool)
    requires |effect| <= 1
    ensures var after := ScreenAfter(effect, fullscreen);
            && Visible(effect + rest, fullscreen) == Visible(effect, fullscreen) + Visible(rest, after)
            && ScreenAfter(effect + rest, fullscreen) == ScreenAfter(rest, after)
  {
    if effect == [] {
      assert effect + rest == rest;
    } else {
      assert (effect + rest)[0] == effect[0] && (effect + rest)[1..] == rest;
      assert effect[1..] == [];
    }
  }

  /** One visible token on the machine and on the page. */
  lemma ApplyShows(h: History, page: Page, effect: seq<Token>)
    requires WellFormed(h) && Shows(h, page) && |effect| <= 1 && (effect != [] ==> !effect[0].Show?)
    ensures Shows(Apply(h, effect), EditAll(page, Visible(effect, h.fullscreen)))
    ensures Apply(h, effect).fullscreen == ScreenAfter(effect, h.fullscreen)
  {
    if effect != [] {
      assert effect[1..] == [];
      assert Visible(effect[1..], h.fullscreen) == [];
      EditAllOne(page, Visible(effect, h.fullscreen), []);
      assert Visible(effect, h.fullscreen) + [] == Visible(effect, h.fullscreen);
      assert h.line[..|h.line|] == h.line;
    }
  }

  /** Feeding a text shows what the three passes make of it. */
  lemma {:induction false} FeedShows(h: History, page: Page, text: string)
    requires h.mode == Text && WellFormed(h) && Shows(h, page)
    ensures var h' := FeedText(h, text);
            && Shows(h', EditAll(page, Visible(Strip(text), h.fullscreen)))
            && h'.fullscreen == ScreenAfter(Strip(text), h.fullscreen)
            && h'.lastSeq == h.lastSeq
    decreases |text|
  {
    if text != [] {
      var (effect, n) := if text[0] == ESC then (Effect(text[..SequenceLength(text)]), SequenceLength(text))
                         else ([Show(text[0])], 1);
      var next := FeedText(h, text[..n]);
      var rest := Strip(text[n..]);
      assert text == text[..n] + text[n..];
      FeedTextConcat(h, text[..n], text[n..]);
      FeedTextKeepsWellFormed(h, text[..n]);
      FirstPieceShows(h, page, text);
      VisibleOne(effect, rest, h.fullscreen);
      var shown := EditAll(page, Visible(effect, h.fullscreen));
      EditAllOne(page, Visible(effect, h.fullscreen), Visible(rest, next.fullscreen));
      EditAllOne(page, Visible(effect, h.fullscreen), []);
      assert Visible(effect, h.fullscreen) + [] == Visible(effect, h.fullscreen);
      if n < |text| {
        FeedShows(next, shown, text[n..]);
      } else {
        assert text[n..] == [];
      }
    }
  }

  lemma FirstPieceShows(h: History, page: Page, text: string)
    requires h.mode == Text && WellFormed(h) && Shows(h, page) && text != []
    ensures var n := if text[0] == ESC then SequenceLength(text) else 1;
            var effect := if text[0] == ESC then Effect(text[..n]) else [Show(text[0])];
            var next := FeedText(h, text[..n]);
            && Shows(next, EditAll(page, Visible(effect, h.fullscreen)))
            && next.fullscreen == ScreenAfter(effect, h.fullscreen) && next.lastSeq == h.lastSeq
            && (n < |text| ==> next.mode == Text)
  {
    if text[0] == ESC {
      var n := SequenceLength(text);
      SequenceApplies(h, text);
      ApplyShows(h, page, Effect(text[..n]));
    } else {
      assert text[..1] == [text[0]] && [text[0]][1..] == [];
      WriteShows(h, page, text[0]);
      var effect := [Show(text[0])];
      assert effect[1..] == [];
      EditAllOne(page, Visible(effect, h.fullscreen), []);
      assert Visible(effect, h.fullscreen) + [] == Visible(effect, h.fullscreen);
    }
  }

  lemma WriteIgnoresSeq(h: History, c: char, batchSeq: nat)
    ensures WriteChar(h.(lastSeq := batchSeq), c) == WriteChar(h, c).(lastSeq := batchSeq)
  {
  }

  lemma CsiIgnoresSeq(h: History, sequence: string, batchSeq: nat)
    requires sequence != []
    ensures HandleCsi(h.(lastSeq := batchSeq), sequence) == HandleCsi(h, sequence).(lastSeq := batchSeq)
  {
  }

  lemma FeedCharIgnoresSeq(h: History, c: char, batchSeq: nat)
    ensures FeedChar(h.(lastSeq := batchSeq), c) == FeedChar(h, c).(lastSeq := batchSeq)
  {
    if h.mode == Text {
      WriteIgnoresSeq(h, c, batchSeq);
    } else if h.mode == Csi {
      CsiIgnoresSeq(h.(csi := h.csi + [c]), h.csi + [c], batchSeq);
    }
  }

  lemma {:induction false} FeedIgnoresSeq(h: History, text: string, batchSeq: nat)
    ensures FeedText(h.(lastSeq := batchSeq), text) == FeedText(h, text).(lastSeq := batchSeq)
    decreases |text|
  {
    if text != [] {
      FeedCharIgnoresSeq(h, text[0], batchSeq);
      FeedIgnoresSeq(FeedChar(h, text[0]), text[1..], batchSeq);
      var next := FeedChar(h, text[0]);
      assert FeedText(h, text) == FeedText(next, text[1..]);
      assert FeedText(h.(lastSeq := batchSeq), text) == FeedText(next.(lastSeq := batchSeq), text[1..]);
    }
  }

  /** The batches' text in order, and the number of the last one. */
  function TextOf(batches: seq<(string, nat)>): string {
    if batches == [] then [] else batches[0].0 + TextOf(batches[1..])
  }

  function LastSeqOf(batches: seq<(string, nat)>, before: nat): nat {
    if batches == [] then before else batches[|batches| - 1].1
  }

  lemma {:induction false} BatchingIsInvisible(h: History, batches: seq<(string, nat)>)
    ensures FeedBatches(h, batches) == FeedText(h, TextOf(batches)).(lastSeq := LastSeqOf(batches, h.lastSeq))
    decreases |batches|
  {
    if batches == [] {
      assert FeedText(h, []) == h;
    } else {
      var (text, batchSeq) := batches[0];
      var next := FeedBatch(h, text, batchSeq);
      BatchingIsInvisible(next, batches[1..]);
      FeedIgnoresSeq(h, text, batchSeq);
      FeedIgnoresSeq(FeedText(h, text), TextOf(batches[1..]), batchSeq);
      FeedTextConcat(h, text, TextOf(batches[1..]));
      assert LastSeqOf(batches[1..], batchSeq) == LastSeqOf(batches, h.lastSeq);
    }
  }

  /** For every text and every way of cutting it into batches, the snapshot is
      what the three passes make of the whole text, of which the newest 1500 lines
      stay; the cursor stays in the line and no control character but tab is stored. */
  lemma HistoryIsThreePasses(batches: seq<(string, nat)>)
    ensures var h := FeedBatches(EMPTY, batches);
            var tokens := Strip(TextOf(batches));
            var page := EditAll(BLANK, Visible(tokens, false));
            && |h.lines| == Min(|page.lines|, TERM_HISTORY_MAX_LINES)
            && h.lines == page.lines[|page.lines| - |h.lines|..] && h.line == page.line
            && h.fullscreen == ScreenAfter(tokens, false) && h.lastSeq == LastSeqOf(batches, 0)
            && WellFormed(h)
  {
    var text := TextOf(batches);
    BatchingIsInvisible(EMPTY, batches);
    FeedShows(EMPTY, BLANK, text);
    FeedTextKeepsWellFormed(EMPTY, text);
  }

  // ---- plain output, and what is never stored ---------------------------------------

  /** A character a page shows: a tab, or no control character of C0, DEL or C1. */
  predicate Shown(c: char) {
    c as int == 9 || 32 <= c as int < 127 || 160 <= c as int
  }

  /** Only such characters are ever stored, at most 4096 to a line and 1500 lines. */
  lemma OnlyShownIsStored(text: string)
    ensures var h := FeedText(EMPTY, text);
            && |h.lines| <= 1500 && |h.line| <= 4096 && (forall i :: 0 <= i < |h.line| ==> Shown(h.line[i]))
            && forall i :: 0 <= i < |h.lines| ==>
                 |h.lines[i]| <= 4096 && forall j :: 0 <= j < |h.lines[i]| ==> Shown(h.lines[i][j])
  {
    FeedTextKeepsWellFormed(EMPTY, text);
    var h := FeedText(EMPTY, text);
    forall i | 0 <= i < |h.lines| ensures Clean(h.lines[i]) {}
  }

  lemma {:induction false} FeedPlain(h: History, text: string)
    requires h.mode == Text && !h.fullscreen && h.position == |h.line| && |h.line| + |text| <= 4096
    requires forall i :: 0 <= i < |text| ==> Shown(text[i])
    ensures FeedText(h, text) == h.(line := h.line + text, position := |h.line| + |text|)
    decreases |text|
  {
    if text == [] {
      assert h.line + text == h.line;
    } else {
      var next := FeedChar(h, text[0]);
      assert Shown(text[0]);
      assert h.line + seq(h.position - |h.line|, _ => ' ') + [text[0]] == h.line + [text[0]];
      FeedPlain(next, text[1..]);
      assert h.line + [text[0]] + text[1..] == h.line + text;
    }
  }

  function Terminated(lines: seq<string>): string {
    if lines == [] then "" else Terminated(lines[..|lines| - 1]) + lines[|lines| - 1] + "\n"
  }

  predicate PlainLine(line: string) { |line| <= 4096 && forall i :: 0 <= i < |line| ==> Shown(line[i]) }

  lemma {:induction false} FeedLines(lines: seq<string>)
    requires forall i :: 0 <= i < |lines| ==> PlainLine(lines[i])
    ensures FeedText(EMPTY, Terminated(lines)) ==
            EMPTY.(lines := if |lines| <= 1500 then lines else lines[|lines| - 1500..])
  {
    hide FeedChar, WriteChar, PlainLine, FeedText;
    if lines == [] {
      FeedNothing(EMPTY);
    } else {
      var front, last := lines[..|lines| - 1], lines[|lines| - 1];
      FeedLines(front);
      FeedTextConcat(EMPTY, Terminated(front) + last, "\n");
      FeedTextConcat(EMPTY, Terminated(front), last);
      FeedLine(FeedText(EMPTY, Terminated(front)), last);
      NewestStay(lines);
    }
  }

  /** The newest 1500 of a list after one more. */
  lemma NewestStay(lines: seq<string>)
    requires lines != []
    ensures var front := lines[..|lines| - 1];
            var kept := if |front| <= 1500 then front else front[|front| - 1500..];
            (if |kept| < 1500 then kept else kept[1..]) + [lines[|lines| - 1]] ==
            (if |lines| <= 1500 then lines else lines[|lines| - 1500..])
  {
  }

  lemma FeedNothing(h: History)
    ensures FeedText(h, "") == h
  {
  }

  /** One plain line and its end, from the start of a line. */
  lemma FeedLine(h: History, line: string)
    requires h == EMPTY.(lines := h.lines) && PlainLine(line) && |h.lines| <= 1500
    ensures FeedText(FeedText(h, line), "\n") ==
            h.(lines := (if |h.lines| < 1500 then h.lines else h.lines[1..]) + [line])
  {
    FeedPlain(h, line);
    var written := FeedText(h, line);
    assert [] + line == line;
    hide FeedText;
    FeedOneChar(written, '\n');
  }

  lemma FeedOneChar(h: History, c: char)
    ensures FeedText(h, [c]) == FeedChar(h, c)
  {
    assert [c][1..] == [];
    FeedNothing(FeedChar(h, c));
  }

  /** Plain lines come out as they went in: the newest 1500 of them, oldest first, and
      behind them the line that is not finished yet. */
  lemma PlainOutputIsKept(lines: seq<string>, partial: string)
    requires PlainLine(partial) && forall i :: 0 <= i < |lines| ==> PlainLine(lines[i])
    ensures var h := FeedText(EMPTY, Terminated(lines) + partial);
            && h.line == partial && |h.lines| == Min(|lines|, 1500) && h.lines == lines[|lines| - |h.lines|..]
            && !h.fullscreen
  {
    FeedLines(lines);
    FeedTextConcat(EMPTY, Terminated(lines), partial);
    FeedPlain(FeedText(EMPTY, Terminated(lines)), partial);
    assert [] + partial == partial;
  }

  /** The pieces with the separator between them. */
  function Between(pieces: seq<string>, separator: char): string {
    if pieces == [] then "" else if |pieces| == 1 then pieces[0]
    else pieces[0] + [separator] + Between(pieces[1..], separator)
  }

  lemma {:induction false} SplitPiece(piece: string, separator: char, rest: string)
    requires separator !in piece
    ensures Split(piece, separator) == [piece]
    ensures Split(piece + [separator] + rest, separator) == [piece] + Split(rest, separator)
  {
    var text := piece + [separator] + rest;
    if piece == [] {
      assert text[1..] == rest;
    } else {
      SplitPiece(piece[1..], separator, rest);
      assert text[1..] == piece[1..] + [separator] + rest;
      assert [piece[0]] + piece[1..] == piece;
    }
  }

  lemma {:induction false} SplitUndoesBetween(pieces: seq<string>, separator: char)
    requires pieces != [] && forall i :: 0 <= i < |pieces| ==> separator !in pieces[i]
    ensures Split(Between(pieces, separator), separator) == pieces
  {
    if |pieces| == 1 {
      SplitPiece(pieces[0], separator, "");
    } else {
      SplitPiece(pieces[0], separator, Between(pieces[1..], separator));
      SplitUndoesBetween(pieces[1..], separator);
    }
  }

  /** A private mode sequence switches the alternate screen exactly if one of its
      parameters is 47, 1047 or 1049. */
  lemma ScreenSwitchExactly(modes: seq<string>)
    requires modes != [] && forall i :: 0 <= i < |modes| ==> ';' !in modes[i]
    ensures SwitchesScreen("?" + Between(modes, ';')) <==> "47" in modes || "1047" in modes || "1049" in modes
    ensures forall params: string :: params == "" || params[0] != '?' ==> !SwitchesScreen(params)
  {
    SplitUndoesBetween(modes, ';');
    var params := "?" + Between(modes, ';');
    assert params[1..] == Between(modes, ';');
    if "47" in modes || "1047" in modes || "1049" in modes {
      var mode :| mode in modes && mode in ["47", "1047", "1049"];
    }
  }

  /** A control sequence of ECMA-48, section 5.4: parameters below 0x40, then a final byte
      from 0x40 to 0x7E. It is over with that byte; it can erase to the end of the line,
      switch the alternate screen, or do nothing to the text. */
  lemma ControlSequenceActs(h: History, params: string, final: char)
    requires h.mode == Text && 0x40 <= final as int <= 0x7E
    requires forall i :: 0 <= i < |params| ==> !(0x40 <= params[i] as int <= 0x7E)
    ensures var n := FeedText(h, [ESC, '['] + params + [final]);
            && n.mode == Text && n.lines == h.lines && n.position == h.position && n.lastSeq == h.lastSeq
            && n.line == (if final == 'K' && params in ["", "0"] && !h.fullscreen && h.position < |h.line|
                          then h.line[..h.position] else h.line)
            && n.fullscreen == (if final in "hl" && SwitchesScreen(params) then final == 'h' else h.fullscreen)
  {
    hide SwitchesScreen, FeedText, HandleCsi;
    FeedTextConcat(h, [ESC, '['] + params, [final]);
    FeedTextConcat(h, [ESC, '['], params);
    FeedTextConcat(h, [ESC], ['[']);
    assert [ESC, '['] == [ESC] + ['['];
    FeedOneChar(h, ESC);
    FeedOneChar(FeedChar(h, ESC), '[');
    var inside := FeedChar(FeedChar(h, ESC), '[');
    FeedParams(inside, params);
    var before := FeedText(inside, params);
    assert [] + params == params;
    FeedOneChar(before, final);
    FinalActs(before, params, final);
  }

  lemma FinalActs(h: History, params: string, final: char)
    requires 0x40 <= final as int <= 0x7E
    ensures var n := HandleCsi(h.(csi := params + [final]), params + [final]);
            && n.lines == h.lines && n.position == h.position && n.lastSeq == h.lastSeq
            && n.line == (if final == 'K' && params in ["", "0"] && !h.fullscreen && h.position < |h.line|
                          then h.line[..h.position] else h.line)
            && n.fullscreen == (if final in "hl" && SwitchesScreen(params) then final == 'h' else h.fullscreen)
  {
    hide SwitchesScreen;
    assert (params + [final])[..|params|] == params;
  }

  lemma {:induction false} FeedParams(h: History, params: string)
    requires h.mode == Csi && forall i :: 0 <= i < |params| ==> !(0x40 <= params[i] as int <= 0x7E)
    ensures FeedText(h, params) == h.(csi := h.csi + params)
    decreases |params|
  {
    if params == [] {
      assert h.csi + params == h.csi;
    } else {
      FeedParams(FeedChar(h, params[0]), params[1..]);
      assert h.csi + [params[0]] + params[1..] == h.csi + params;
    }
  }

  lemma {:induction false} FeedBatchesSnoc(h: History, batches: seq<(string, nat)>, last: (string, nat))
    ensures FeedBatches(h, batches + [last]) == FeedBatch(FeedBatches(h, batches), last.0, last.1)
    decreases |batches|
  {
    if batches == [] {
      assert [last][1..] == [] && batches + [last] == [last];
    } else {
      assert (batches + [last])[0] == batches[0] && (batches + [last])[1..] == batches[1..] + [last];
      FeedBatchesSnoc(FeedBatch(h, batches[0].0, batches[0].1), batches[1..], last);
    }
  }

  lemma SeqIsFree(h: History)
    ensures forall batchSeq {:trigger h.(lastSeq := batchSeq)} :: WellFormed(h) <==> WellFormed(h.(lastSeq := batchSeq))
  {
  }

  // ---- the history object ----------------------------------------------------

  datatype Snapshot = Snapshot(lines: seq<string>, partial: string, fullscreen: bool, lastSeq: nat)

  class TerminalHistory {
    var lines: seq<string>
    var line: string
    var position: nat
    var mode: Mode
    var csi: string
    var fullscreen: bool
    var lastSeq: nat
    ghost var fed: seq<(string, nat)>

    constructor ()
      ensures Valid() && fed == []
    {
      lines, line, position, mode, csi, fullscreen, lastSeq, fed := [], [], 0, Text, [], false, 0, [];
    }

    /** The history is that of the batches fed. */
    ghost predicate Valid()
      reads this
    {
      State() == FeedBatches(EMPTY, fed) && WellFormed(State())
    }

    function State(): History
      reads this
    {
      History(lines, line, position, mode, csi, fullscreen, lastSeq)
    }

    method Feed(text: string, batchSeq: nat)
      requires Valid()
      modifies this
      ensures Valid() && fed == old(fed) + [(text, batchSeq)]
      ensures State() == FeedBatch(old(State()), text, batchSeq)
    {
      hide WellFormed;
      FeedBatchesSnoc(EMPTY, fed, (text, batchSeq));
      fed := fed + [(text, batchSeq)];
      lastSeq := batchSeq;
      SeqIsFree(State());
      ghost var start := State();
      for i := 0 to |text|
        invariant WellFormed(State()) && fed == old(fed) + [(text, batchSeq)]
        invariant FeedText(start, text) == FeedText(State(), text[i..])
      {
        assert text[i..][0] == text[i] && text[i..][1..] == text[i + 1..];
        FeedCharacter(text[i]);
      }
    }

    /** What a reconnecting browser is sent: the three passes over everything fed,
        with the number of the last batch. */
    method TakeSnapshot() returns (snapshot: Snapshot)
      requires Valid()
      ensures var tokens := Strip(TextOf(fed));
              var page := EditAll(BLANK, Visible(tokens, false));
              && |snapshot.lines| == Min(|page.lines|, TERM_HISTORY_MAX_LINES)
              && snapshot.lines == page.lines[|page.lines| - |snapshot.lines|..] && snapshot.partial == page.line
              && snapshot.fullscreen == ScreenAfter(tokens, false) && snapshot.lastSeq == LastSeqOf(fed, 0)
    {
      HistoryIsThreePasses(fed);
      snapshot := Snapshot(lines, line, fullscreen, lastSeq);
    }

    method FeedCharacter(c: char)
      requires WellFormed(State())
      modifies this
      ensures State() == FeedChar(old(State()), c) && WellFormed(State()) && fed == old(fed)
    {
      FeedCharKeepsWellFormed(State(), c);
      if mode == Text {
        if c == ESC {
          mode := Escape;
        } else if !fullscreen {
          Write(c);
        }
      } else if mode == Escape {
        if c == '[' {
          mode, csi := Csi, [];
        } else if c == ']' {
          mode := Osc;
        } else if c in "PX^_" {
          mode := Str;
        } else if c in "()" {
          mode := Charset;
        } else {
          mode := Text;
        }
      } else if mode == Charset {
        mode := Text;
      } else if mode == Csi {
        csi := csi + [c];
        if '@' <= c <= '~' {
          Handle(csi);
          mode := Text;
        }
      } else if mode == Osc {
        if c == BEL {
          mode := Text;
        } else if c == ESC {
          mode := OscEscape;
        }
      } else if mode == Str {
        if c == ESC {
          mode := StrEscape;
        }
      } else if c == '\\' {
        mode := Text;
      } else if c != ESC {
        mode := if mode == OscEscape then Osc else Str;
      }
    }

    method Handle(sequence: string)
      requires sequence != []
      modifies this
      ensures State() == HandleCsi(old(State()), sequence) && fed == old(fed)
      ensures sequence in ["K", "0K"] && !old(fullscreen) ==>
                State() == old(State()).(line := if position < |old(line)| then old(line)[..position] else old(line))
      ensures sequence !in ["K", "0K"] || old(fullscreen) ==> State() == old(State()).(fullscreen := fullscreen)
      ensures fullscreen != old(fullscreen) ==> sequence[|sequence| - 1] == (if fullscreen then 'h' else 'l')
    {
      var final, params := sequence[|sequence| - 1], sequence[..|sequence| - 1];
      assert sequence == params + [final];
      if final == 'K' && params in ["", "0"] && !fullscreen {
        assert if params == "" then sequence == "K" else sequence == "0K";
        if position < |line| {
          line := line[..position];
        }
        return;
      }
      if final !in "hl" || params == [] || params[0] != '?' {
        return;
      }
      var modes := Split(params[1..], ';');
      if "47" in modes || "1047" in modes || "1049" in modes {
        fullscreen := final == 'h';
      }
    }

    method Write(c: char)
      modifies this
      ensures State() == WriteChar(old(State()), c) && fed == old(fed)
      ensures c == '\n' ==> line == [] && position == 0 && lines != [] && lines[|lines| - 1] == old(line)
      ensures c == '\n' && |old(lines)| < 1500 ==> lines == old(lines) + [old(line)]
      ensures c == '\n' && |old(lines)| == 1500 ==> lines == old(lines)[1..] + [old(line)]
      ensures c != '\n' ==> lines == old(lines)
      ensures c == '\r' ==> line == old(line) && position == 0
      ensures c as int == 8 ==> line == old(line) && position == (if old(position) == 0 then 0 else old(position) - 1)
      ensures Shown(c) && old(position) < |old(line)| ==>
                line == old(line)[old(position) := c] && position == old(position) + 1
      ensures Shown(c) && old(position) == |old(line)| < 4096 ==> line == old(line) + [c] && position == |line|
      ensures !Shown(c) && c !in "\n\r" && c as int != 8 ==> line == old(line) && position == old(position)
    {
      if c == '\n' {
        lines := Last(lines + [line], TERM_HISTORY_MAX_LINES);
        line := [];
        position := 0;
      } else if c == '\r' {
        position := 0;
      } else if c == BACKSPACE {
        position := Max(0, position - 1);
      } else if Printable(c) {
        if position < |line| {
          line := line[position := c];
          position := position + 1;
        } else if |line| < TERM_HISTORY_MAX_LINE_CHARS {
          line := line + seq(position - |line|, _ => ' ');
          line := line + [c];
          position := position + 1;
        }
      }
    }
  }
}
