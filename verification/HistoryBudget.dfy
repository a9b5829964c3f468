/** The budget for recovered history in one init frame (terminal_history.py): each
    terminal is cut to an even share of it from the oldest line on, and an
    unfinished line is never cut, so the budget is sure to hold for a certain
    number of terminals and no more. */
module HistoryBudgets {
  import opened Common
  import opened Config

  /** One terminal of the init frame; its other keys are left alone. */
  datatype Terminal = Terminal(deviceId: string, runId: string, lines: seq<string>, partial: string)

  /** Characters `json.dumps` spends on one character of a string. */
  function CharSize(c: char): nat {
    if c in ['"', '\\', '\n', '\r', '\t', '\U{08}', '\U{0C}'] then 2
    else if ' ' <= c <= '~' then 1
    else if c as int < 0x10000 then 6
    else 12
  }

  function CharsSize(text: string): nat {
    if text == [] then 0 else CharSize(text[0]) + CharsSize(text[1..])
  }

  /** `len(json.dumps(text))` for a string, with its quotes. */
  function JsonSize(text: string): nat { CharsSize(text) + 2 }

  /** Size of the last `count` lines with their separators. */
  function LinesSize(lines: seq<string>, count: nat): nat
    requires count <= |lines|
  {
    if count == 0 then 0 else LinesSize(lines, count - 1) + JsonSize(lines[|lines| - count]) + 2
  }

  /** Size of a terminal that sends only its last `count` lines. */
  function Cost(terminal: Terminal, count: nat): nat
    requires count <= |terminal.lines|
  {
    JsonSize(terminal.partial) + LinesSize(terminal.lines, count)
  }

  // ---- the sizes against the text itself --------------------------------------------

  function HexDigit(n: int): char
    requires 0 <= n < 16
  {
    "0123456789abcdef"[n]
  }

  /** `\\u` and four digits. */
  function Unicode(unit: int): string
    requires 0 <= unit < 0x10000
  {
    "\\u" + [HexDigit(unit / 0x1000), HexDigit(unit / 0x100 % 16), HexDigit(unit / 16 % 16), HexDigit(unit % 16)]
  }

  /** One character as JSON with ASCII only (section 7 of RFC 8259): a character beyond
      the basic plane is a surrogate pair. */
  function JsonChar(c: char): string {
    var code := c as int;
    if c == '"' then "\\\"" else if c == '\\' then "\\\\"
    else if code == 10 then "\\n" else if code == 13 then "\\r" else if code == 9 then "\\t"
    else if code == 8 then "\\b" else if code == 12 then "\\f"
    else if 32 <= code < 127 then [c]
    else if code < 0x10000 then Unicode(code)
    else Unicode(0xD800 + (code - 0x10000) / 0x400) + Unicode(0xDC00 + (code - 0x10000) % 0x400)
  }

  function JsonChars(text: string): string { if text == [] then "" else JsonChar(text[0]) + JsonChars(text[1..]) }

  function Json(text: string): string { "\"" + JsonChars(text) + "\"" }

  /** The elements of a JSON array, each with the ", " in front of it. */
  function JsonItems(lines: seq<string>): string {
    if lines == [] then "" else ", " + Json(lines[0]) + JsonItems(lines[1..])
  }

  function JsonArray(lines: seq<string>): string {
    if lines == [] then "[]" else "[" + JsonItems(lines)[2..] + "]"
  }

  lemma {:induction false} JsonSizeIsExact(text: string)
    ensures |Json(text)| == JsonSize(text) && |JsonChars(text)| == CharsSize(text)
  {
    if text != [] { JsonSizeIsExact(text[1..]); }
  }

  lemma NoLines()
    ensures LinesSize([], 0) == 0
  {
  }

  lemma LinesSizeHead(lines: seq<string>)
    requires lines != []
    ensures LinesSize(lines, |lines|) == JsonSize(lines[0]) + 2 + LinesSize(lines[1..], |lines| - 1)
  {
    hide JsonSize;
    LinesSizeOfSuffix(lines, |lines| - 1, |lines| - 1);
    assert lines[1..] == lines[|lines| - (|lines| - 1)..];
  }

  lemma {:induction false} JsonItemsSize(lines: seq<string>)
    ensures |JsonItems(lines)| == LinesSize(lines, |lines|)
  {
    hide Json, JsonSize, LinesSize;
    if lines == [] {
      NoLines();
    } else {
      JsonItemsSize(lines[1..]);
      JsonSizeIsExact(lines[0]);
      LinesSizeHead(lines);
    }
  }

  /** What the trimming counts is what a terminal's unfinished line and its array of
      lines take up in the frame, character for character; an empty array is two. */
  lemma CostIsTheJson(terminal: Terminal)
    ensures |Json(terminal.partial)| + |JsonArray(terminal.lines)| ==
            Cost(terminal, |terminal.lines|) + if terminal.lines == [] then 2 else 0
  {
    JsonSizeIsExact(terminal.partial);
    JsonItemsSize(terminal.lines);
  }

  /** `kept` lines are the longest suffix that fits next to the unfinished line. */
  predicate LongestFit(terminal: Terminal, share: nat, kept: nat) {
    && kept <= |terminal.lines|
    && (kept > 0 ==> Cost(terminal, kept) <= share)
    && forall more :: kept < more <= |terminal.lines| ==> Cost(terminal, more) > share
  }

  function Keep(terminal: Terminal, kept: nat): Terminal
    requires kept <= |terminal.lines|
  {
    terminal.(lines := terminal.lines[|terminal.lines| - kept..])
  }

  /** `after` is what one even share leaves of `before`. */
  ghost predicate Trimmed(before: Terminal, after: Terminal, share: nat) {
    exists kept :: LongestFit(before, share, kept) && after == Keep(before, kept)
  }

  lemma {:induction false} LinesSizeGrows(lines: seq<string>, count: nat, more: nat)
    requires count <= more <= |lines|
    ensures LinesSize(lines, count) <= LinesSize(lines, more)
  {
    if count < more {
      LinesSizeGrows(lines, count, more - 1);
    }
  }

  lemma {:induction false} LinesSizeOfSuffix(lines: seq<string>, kept: nat, count: nat)
    requires count <= kept <= |lines|
    ensures LinesSize(lines[|lines| - kept..], count) == LinesSize(lines, count)
  {
    if count > 0 {
      LinesSizeOfSuffix(lines, kept, count - 1);
    }
  }

  /** The loop counts from the newest line and keeps the longest suffix. */
  method CountKept(terminal: Terminal, share: nat) returns (kept: nat)
    ensures LongestFit(terminal, share, kept)
  {
    var lines := terminal.lines;
    var used := JsonSize(terminal.partial);
    kept := 0;
    while kept < |lines|
      invariant kept <= |lines| && used == Cost(terminal, kept)
      invariant kept > 0 ==> used <= share
    {
      used := used + JsonSize(lines[|lines| - 1 - kept]) + 2;
      if used > share {
        forall more | kept < more <= |lines| ensures Cost(terminal, more) > share {
          LinesSizeGrows(lines, kept + 1, more);
        }
        return;
      }
      kept := kept + 1;
    }
  }

  /** Rewrites every terminal in place; each gets an even share. */
  method TrimToBudget(terminals: array<Terminal>, budget: nat)
    modifies terminals
    ensures forall i :: 0 <= i < terminals.Length ==>
            Trimmed(old(terminals[i]), terminals[i], budget / terminals.Length)
  {
    if terminals.Length == 0 {
      return;
    }
    var share := budget / terminals.Length;
    for i := 0 to terminals.Length
      invariant forall j :: i <= j < terminals.Length ==> terminals[j] == old(terminals[j])
      invariant forall j :: 0 <= j < i ==> Trimmed(old(terminals[j]), terminals[j], share)
    {
      var kept := CountKept(terminals[i], share);
      terminals[i] := Keep(terminals[i], kept);
    }
  }

  /** What all terminals together put on the wire. */
  function TotalCost(terminals: seq<Terminal>): nat {
    if terminals == [] then 0 else Cost(terminals[0], |terminals[0].lines|) + TotalCost(terminals[1..])
  }

  /** A trimmed terminal fits its share exactly when its unfinished line does. */
  lemma TrimmedFits(terminal: Terminal, share: nat, kept: nat)
    requires LongestFit(terminal, share, kept)
    ensures Cost(Keep(terminal, kept), kept) <= share <==> JsonSize(terminal.partial) <= share
  {
    LinesSizeOfSuffix(terminal.lines, kept, kept);
    LinesSizeGrows(terminal.lines, 0, kept);
  }

  lemma {:induction false} SharesAddUp(terminals: seq<Terminal>, share: nat)
    requires forall i :: 0 <= i < |terminals| ==> Cost(terminals[i], |terminals[i].lines|) <= share
    ensures TotalCost(terminals) <= |terminals| * share
  {
    hide Cost;
    if terminals != [] {
      SharesAddUp(terminals[1..], share);
      OneShareMore(|terminals| - 1, share);
    }
  }

  lemma OneShareMore(n: nat, share: nat)
    ensures (n + 1) * share == share + n * share
  {
  }

  /** The trimmed frame fits its budget whenever every unfinished line fits its share. */
  lemma BudgetHolds(before: seq<Terminal>, after: seq<Terminal>, budget: nat)
    requires before != [] && |after| == |before|
    requires forall i :: 0 <= i < |before| ==> Trimmed(before[i], after[i], budget / |before|)
    requires forall i :: 0 <= i < |before| ==> JsonSize(before[i].partial) <= budget / |before|
    ensures TotalCost(after) <= budget
  {
    var share := budget / |before|;
    forall i | 0 <= i < |after| ensures Cost(after[i], |after[i].lines|) <= share {
      TrimmedWithinShare(before[i], after[i], share);
    }
    SharesAddUp(after, share);
    SharesWithinBudget(|before|, budget);
  }

  lemma TrimmedWithinShare(before: Terminal, after: Terminal, share: nat)
    requires Trimmed(before, after, share) && JsonSize(before.partial) <= share
    ensures Cost(after, |after.lines|) <= share
  {
    var kept :| LongestFit(before, share, kept) && after == Keep(before, kept);
    TrimmedFits(before, share, kept);
  }

  lemma SharesWithinBudget(n: nat, budget: nat)
    requires n > 0
    ensures n * (budget / n) <= budget
  {
  }

  /** Without that condition the promise fails: an unfinished line is never
      dropped, so one terminal with a long one is over any budget below it. */
  lemma LongUnfinishedLineBreaksBudget(terminal: Terminal, budget: nat, kept: nat)
    requires LongestFit(terminal, budget, kept) && JsonSize(terminal.partial) > budget
    ensures kept == 0 && TotalCost([Keep(terminal, kept)]) > budget
  {
    LinesSizeGrows(terminal.lines, 0, kept);
    var kept' := Keep(terminal, kept);
    assert TotalCost([kept']) == Cost(kept', |kept'.lines|) + TotalCost([]);
  }

  // ---- at the limits of the program ------------------------------------------------

  /** Unfinished lines are as long as the history lets them become. */
  predicate Capped(terminals: seq<Terminal>) {
    forall i :: 0 <= i < |terminals| ==> |terminals[i].partial| <= TERM_HISTORY_MAX_LINE_CHARS
  }

  /** `after` is what the init frame sends of `before`. */
  ghost predicate Sent(before: seq<Terminal>, after: seq<Terminal>) {
    && before != [] && |after| == |before|
    && forall i :: 0 <= i < |before| ==> Trimmed(before[i], after[i], TERM_INIT_HISTORY_MAX_CHARS / |before|)
  }

  lemma {:induction false} CharsSizeAtMost(text: string)
    ensures CharsSize(text) <= 12 * |text|
  {
    if text != [] { CharsSizeAtMost(text[1..]); }
  }

  /** Up to 21 terminals fit the init frame's budget whatever they show. */
  lemma TwentyOneFit(before: seq<Terminal>, after: seq<Terminal>)
    requires Sent(before, after) && Capped(before) && |before| <= 21
    ensures TotalCost(after) <= TERM_INIT_HISTORY_MAX_CHARS
  {
    forall i | 0 <= i < |before| ensures JsonSize(before[i].partial) <= TERM_INIT_HISTORY_MAX_CHARS / |before| {
      CharsSizeAtMost(before[i].partial);
      ShareAtLeast(|before|);
    }
    BudgetHolds(before, after, TERM_INIT_HISTORY_MAX_CHARS);
  }

  lemma ShareAtLeast(n: nat)
    requires 0 < n <= 21
    ensures TERM_INIT_HISTORY_MAX_CHARS / n >= 49932
  {
    assert n * 49932 <= TERM_INIT_HISTORY_MAX_CHARS;
  }

  /** An unfinished line as costly as one can be: emoji up to the cap. */
  function Costly(chars: nat): string { if chars == 0 then "" else ['\U{1F600}'] + Costly(chars - 1) }

  function CostlyTerminals(n: nat): seq<Terminal> {
    if n == 0 then [] else [Terminal("d", "r", [], Costly(TERM_HISTORY_MAX_LINE_CHARS))] + CostlyTerminals(n - 1)
  }

  lemma {:induction false} CostlySize(chars: nat)
    ensures |Costly(chars)| == chars && CharsSize(Costly(chars)) == 12 * chars
  {
    if chars > 0 {
      CostlySize(chars - 1);
      assert Costly(chars)[1..] == Costly(chars - 1);
    }
  }

  lemma {:induction false} CostlyTotal(n: nat)
    ensures |CostlyTerminals(n)| == n && TotalCost(CostlyTerminals(n)) == n * 49154
    ensures forall i :: 0 <= i < n ==>
            CostlyTerminals(n)[i] == Terminal("d", "r", [], Costly(TERM_HISTORY_MAX_LINE_CHARS))
  {
    hide Costly, CharsSize;
    if n > 0 {
      CostlyTotal(n - 1);
      CostlySize(TERM_HISTORY_MAX_LINE_CHARS);
      assert CostlyTerminals(n)[1..] == CostlyTerminals(n - 1);
    }
  }

  lemma NoLinesAreTrimmed(terminal: Terminal, share: nat)
    requires terminal.lines == []
    ensures Trimmed(terminal, terminal, share)
  {
    hide CharsSize;
    assert LongestFit(terminal, share, 0) && terminal == Keep(terminal, 0);
  }

  /** From 22 terminals on the budget can be exceeded: unfinished lines are never cut. */
  lemma TwentyTwoMayNotFit(n: nat)
    requires n >= 22
    ensures var all := CostlyTerminals(n); Sent(all, all) && Capped(all) && TotalCost(all) > TERM_INIT_HISTORY_MAX_CHARS
  {
    hide Costly, CharsSize, CostlyTerminals, TotalCost, LinesSize, Trimmed;
    CostlyTotal(n);
    CostlySize(TERM_HISTORY_MAX_LINE_CHARS);
    var all := CostlyTerminals(n);
    forall i | 0 <= i < n ensures Trimmed(all[i], all[i], TERM_INIT_HISTORY_MAX_CHARS / n) {
      NoLinesAreTrimmed(all[i], TERM_INIT_HISTORY_MAX_CHARS / n);
    }
  }

  /** For how many terminals the frame is sure to fit its budget: exactly up to 21. */
  lemma BudgetHoldsExactlyTo21(n: nat)
    requires n > 0
    ensures (forall before: seq<Terminal>, after: seq<Terminal> ::
               |before| == n && Sent(before, after) && Capped(before) ==>
                   TotalCost(after) <= TERM_INIT_HISTORY_MAX_CHARS)
            <==> n <= 21
  {
    hide TotalCost, CostlyTerminals, Sent, Capped;
    if n <= 21 {
      forall before: seq<Terminal>, after: seq<Terminal> | |before| == n && Sent(before, after) && Capped(before)
        ensures TotalCost(after) <= TERM_INIT_HISTORY_MAX_CHARS
      {
        TwentyOneFit(before, after);
      }
    } else {
      CostlyTotal(n);
      TwentyTwoMayNotFit(n);
    }
  }
}
