/** The label-block parser of metrics_poller.py accepts exactly the grammar of
    the Prometheus text exposition format. */
module LabelBlocks {
  import opened Common

  type Labels = map<string, string>

  // ---- what the regular expressions match ------------------------------------

  /** The characters `\s` matches in a Python string pattern. */
  predicate IsSpace(c: char) {
    var n := c as int;
    9 <= n <= 13 || 28 <= n <= 32 || n == 0x85 || n == 0xA0 || n == 0x1680 || 0x2000 <= n <= 0x200A
    || n == 0x2028 || n == 0x2029 || n == 0x202F || n == 0x205F || n == 0x3000
  }

  predicate IsNameStart(c: char) { 'A' <= c <= 'Z' || 'a' <= c <= 'z' || c == '_' }

  predicate IsNameChar(c: char) { IsNameStart(c) || '0' <= c <= '9' }

  /** The three classes by code point, and what keeps them and the punctuation apart. */
  lemma CharacterClasses(c: char)
    ensures var code := c as int;
            && (IsSpace(c) <==> code in {9, 10, 11, 12, 13, 28, 29, 30, 31, 32, 133, 160, 5760, 8192, 8193, 8194, 8195,
                                         8196, 8197, 8198, 8199, 8200, 8201, 8202, 8232, 8233, 8239, 8287, 12288})
            && (IsNameStart(c) <==> 65 <= code <= 90 || code == 95 || 97 <= code <= 122)
            && (IsNameChar(c) <==> IsNameStart(c) || 48 <= code <= 57)
    ensures !(IsSpace(c) && IsNameChar(c)) && (c in "=,}\"" ==> !IsSpace(c) && !IsNameChar(c))
  {
  }

  function SkipSpace(line: string, pos: nat): (end: nat)
    requires pos <= |line|
    ensures pos <= end <= |line|
    decreases |line| - pos
  {
    if pos < |line| && IsSpace(line[pos]) then SkipSpace(line, pos + 1) else pos
  }

  function SkipNameChars(line: string, pos: nat): (end: nat)
    requires pos <= |line|
    ensures pos <= end <= |line|
    decreases |line| - pos
  {
    if pos < |line| && IsNameChar(line[pos]) then SkipNameChars(line, pos + 1) else pos
  }

  /** The index of the quote that closes a value, reading escapes in pairs. */
  function CloseQuote(line: string, pos: nat): (at: Option<nat>)
    requires pos <= |line|
    ensures at.Some? ==> pos <= at.value < |line| && line[at.value] == '"'
    decreases |line| - pos
  {
    if pos == |line| then None
    else if line[pos] == '"' then Some(pos)
    else if line[pos] != '\\' then CloseQuote(line, pos + 1)
    else if pos + 1 < |line| && line[pos + 1] != '\n' then CloseQuote(line, pos + 2)
    else None
  }

  predicate CharAt(line: string, pos: nat, c: char) { pos < |line| && line[pos] == c }

  /** A closing brace, for an empty block or after a trailing comma. */
  function MatchEnd(line: string, pos: nat): (end: Option<nat>)
    requires pos <= |line|
    ensures end.Some? ==> pos < end.value <= |line|
  {
    var at := SkipSpace(line, pos);
    if CharAt(line, at, '}') then Some(at + 1) else None
  }

  datatype Pair = Pair(name: string, raw: string, separator: char, end: nat)

  /** One `name="value"` and the comma or brace after it. */
  function MatchPair(line: string, pos: nat): (pair: Option<Pair>)
    requires pos <= |line|
    ensures pair.Some? ==> pos < pair.value.end <= |line|
  {
    var nameAt := SkipSpace(line, pos);
    if nameAt == |line| || !IsNameStart(line[nameAt]) then None
    else
      var nameEnd := SkipNameChars(line, nameAt);
      var equals := SkipSpace(line, nameEnd);
      if !CharAt(line, equals, '=') then None
      else
        var open := SkipSpace(line, equals + 1);
        if !CharAt(line, open, '"') then None
        else
          match CloseQuote(line, open + 1)
          case None => None
          case Some(close) =>
            var after := SkipSpace(line, close + 1);
            if CharAt(line, after, ',') || CharAt(line, after, '}') then
              Some(Pair(line[nameAt..nameEnd], line[open + 1..close], line[after], after + 1))
            else None
  }

  /** Undo the three escapes; any other backslash pair is kept as written. */
  function Unescape(raw: string): string {
    if raw == [] then []
    else if raw[0] != '\\' || |raw| == 1 || raw[1] == '\n' then [raw[0]] + Unescape(raw[1..])
    else (if raw[1] == '\\' || raw[1] == '"' then [raw[1]] else if raw[1] == 'n' then ['\n'] else raw[..2])
         + Unescape(raw[2..])
  }

  /** Only the three escapes are undone: any other pair stays as it was written, and so
      does a backslash before the end of a line or of the text. */
  lemma UnescapeTakesPairs(c: char, rest: string)
    ensures Unescape(['\\', c] + rest) ==
            if c == '\\' then ['\\'] + Unescape(rest) else if c == '"' then ['"'] + Unescape(rest)
            else if c == 'n' then ['\n'] + Unescape(rest)
            else if c == '\n' then ['\\', '\n'] + Unescape(rest) else ['\\', c] + Unescape(rest)
    ensures Unescape("\\") == "\\" && (c != '\\' ==> Unescape([c] + rest) == [c] + Unescape(rest))
  {
    var raw := ['\\', c] + rest;
    assert raw[2..] == rest && raw[1..] == [c] + rest && ([c] + rest)[1..] == rest && "\\"[1..] == "";
  }

  /** What the loop makes of the text from `pos` on. */
  function ParseFrom(line: string, pos: nat, labels: Labels): (result: Option<(Labels, nat)>)
    requires pos <= |line|
    decreases |line| - pos
  {
    match MatchEnd(line, pos)
    case Some(end) => Some((labels, end))
    case None =>
      match MatchPair(line, pos)
      case None => None
      case Some(pair) =>
        var more := labels[pair.name := Unescape(pair.raw)];
        if pair.separator == '}' then Some((more, pair.end)) else ParseFrom(line, pair.end, more)
  }

  lemma {:induction false} NothingToUnescape(raw: string)
    requires '\\' !in raw
    ensures Unescape(raw) == raw
  {
    if raw != [] {
      NothingToUnescape(raw[1..]);
    }
  }

  /** The loop itself; it ends because every match moves the position on. */
  method ParseLabelBlock(line: string, start: nat) returns (result: Option<(Labels, nat)>)
    requires start < |line|
    ensures result == ParseFrom(line, start + 1, map[])
  {
    var labels: Labels := map[];
    var pos := start + 1;
    while true
      invariant pos <= |line| && ParseFrom(line, start + 1, map[]) == ParseFrom(line, pos, labels)
      decreases |line| - pos
    {
      var end := MatchEnd(line, pos);
      if end.Some? {
        return Some((labels, end.value));
      }
      var pair := MatchPair(line, pos);
      if pair.None? {
        return None;
      }
      var raw := pair.value.raw;
      var value := if '\\' in raw then Unescape(raw) else raw;
      if '\\' !in raw { NothingToUnescape(raw); }
      labels := labels[pair.value.name := value];
      pos := pair.value.end;
      if pair.value.separator == '}' {
        return Some((labels, pos));
      }
    }
  }

  // ---- the grammar -------------------------------------------------------------

  /** A pair as written, with the white space around its parts. */
  datatype Item = Item(lead: string, name: string, beforeEquals: string, afterEquals: string, raw: string,
      trail: string)

  /** How a block closes: right after a pair, or after white space that follows
      the opening brace or a comma. */
  datatype Close = AfterPair | AfterSpace(space: string)

  predicate AllSpace(text: string) { forall i :: 0 <= i < |text| ==> IsSpace(text[i]) }

  predicate LegalName(name: string) {
    name != [] && IsNameStart(name[0]) && forall i :: 0 <= i < |name| ==> IsNameChar(name[i])
  }

  /** No bare quote, no backslash that does not start a pair on its line. */
  predicate LegalRaw(raw: string) {
    raw == [] ||
    if raw[0] != '\\' then raw[0] != '"' && LegalRaw(raw[1..]) else |raw| >= 2 && raw[1] != '\n' && LegalRaw(raw[2..])
  }

  predicate LegalItem(item: Item) {
    && AllSpace(item.lead) && LegalName(item.name) && AllSpace(item.beforeEquals) && AllSpace(item.afterEquals)
    && LegalRaw(item.raw) && AllSpace(item.trail)
  }

  predicate LegalBlock(items: seq<Item>, close: Close) {
    && (forall i :: 0 <= i < |items| ==> LegalItem(items[i]))
    && (if close.AfterPair? then items != [] else AllSpace(close.space))
  }

  /** An item up to and with its closing quote and the space behind it. */
  function ItemText(item: Item): string {
    item.lead + (item.name + (item.beforeEquals +
        ("=" + (item.afterEquals + ("\"" + (item.raw + ("\"" + item.trail)))))))
  }

  /** A block as written, from behind its opening brace. */
  function Render(items: seq<Item>, close: Close): string {
    if items == [] then (if close.AfterPair? then [] else close.space) + "}"
    else ItemText(items[0]) + (if |items| == 1 && close.AfterPair? then "}" else "," + Render(items[1..], close))
  }

  /** The dictionary a list of items fills, later names winning. */
  function Fill(labels: Labels, items: seq<Item>): Labels
    decreases |items|
  {
    if items == [] then labels else Fill(labels[items[0].name := Unescape(items[0].raw)], items[1..])
  }

  // ---- text at a position --------------------------------------------------------

  predicate At(line: string, pos: nat, text: string) {
    pos + |text| <= |line| && forall i :: 0 <= i < |text| ==> line[pos + i] == text[i]
  }

  lemma AtParts(line: string, pos: nat, a: string, b: string)
    ensures At(line, pos, a + b) <==> At(line, pos, a) && At(line, pos + |a|, b)
  {
    if At(line, pos, a + b) {
      assert forall i :: 0 <= i < |a| ==> (a + b)[i] == a[i];
      forall i | 0 <= i < |b| ensures line[pos + |a| + i] == b[i] {
        assert (a + b)[|a| + i] == b[i];
      }
    }
  }

  lemma AtSlice(line: string, pos: nat, text: string)
    requires At(line, pos, text)
    ensures line[pos..pos + |text|] == text
  {
  }

  lemma AtChar(line: string, pos: nat, c: char)
    ensures At(line, pos, [c]) <==> CharAt(line, pos, c)
  {
    assert [c][0] == c;
  }

  lemma AtTail(line: string, pos: nat, text: string)
    requires At(line, pos, text) && text != []
    ensures line[pos] == text[0] && At(line, pos + 1, text[1..])
  {
    forall i | 0 <= i < |text| - 1 ensures line[pos + 1 + i] == text[1..][i] {
      assert text[1..][i] == text[1 + i];
    }
  }

  lemma {:induction false} SkipsExactly(line: string, pos: nat, space: string)
    requires At(line, pos, space) && AllSpace(space)
    requires pos + |space| < |line| && !IsSpace(line[pos + |space|])
    ensures SkipSpace(line, pos) == pos + |space|
    decreases |space|
  {
    if space != [] {
      AtTail(line, pos, space);
      SkipsExactly(line, pos + 1, space[1..]);
    }
  }

  lemma {:induction false} NamesExactly(line: string, pos: nat, name: string)
    requires At(line, pos, name) && forall i :: 0 <= i < |name| ==> IsNameChar(name[i])
    requires pos + |name| < |line| && !IsNameChar(line[pos + |name|])
    ensures SkipNameChars(line, pos) == pos + |name|
    decreases |name|
  {
    if name != [] {
      AtTail(line, pos, name);
      NamesExactly(line, pos + 1, name[1..]);
    }
  }

  lemma {:induction false} ClosesExactly(line: string, pos: nat, raw: string)
    requires At(line, pos, raw) && LegalRaw(raw) && CharAt(line, pos + |raw|, '"')
    ensures CloseQuote(line, pos) == Some(pos + |raw|)
    decreases |raw|
  {
    if raw != [] {
      AtTail(line, pos, raw);
      if raw[0] != '\\' {
        ClosesExactly(line, pos + 1, raw[1..]);
      } else {
        AtTail(line, pos + 1, raw[1..]);
        assert raw[1..][1..] == raw[2..];
        ClosesExactly(line, pos + 2, raw[2..]);
      }
    }
  }

  // ---- every block of the grammar is accepted --------------------------------------

  /** The first part of an item, up to and with the opening quote. */
  function HeadText(item: Item): string {
    item.lead + (item.name + (item.beforeEquals + ("=" + (item.afterEquals + "\""))))
  }

  function ValueText(item: Item): string { item.raw + ("\"" + item.trail) }

  lemma ItemIsHeadAndValue(item: Item)
    ensures ItemText(item) == HeadText(item) + ValueText(item)
  {
  }

  datatype Head = Head(nameAt: nat, nameEnd: nat, equals: nat, open: nat)

  /** Where the parts of an item stand when it is written at `pos`. */
  function HeadAt(item: Item, pos: nat): Head {
    var nameAt := pos + |item.lead|;
    var nameEnd := nameAt + |item.name|;
    var equals := nameEnd + |item.beforeEquals|;
    Head(nameAt, nameEnd, equals, equals + 1 + |item.afterEquals|)
  }

  predicate HeadMatches(line: string, pos: nat, item: Item) {
    var h := HeadAt(item, pos);
    && At(line, pos, item.lead) && At(line, h.nameAt, item.name) && At(line, h.nameEnd, item.beforeEquals)
    && CharAt(line, h.equals, '=') && At(line, h.equals + 1, item.afterEquals) && CharAt(line, h.open, '"')
  }

  lemma HeadParts(line: string, pos: nat, item: Item)
    ensures At(line, pos, HeadText(item)) <==> HeadMatches(line, pos, item)
  {
    var h := HeadAt(item, pos);
    AtParts(line, pos, item.lead, item.name + (item.beforeEquals + ("=" + (item.afterEquals + "\""))));
    AtParts(line, h.nameAt, item.name, item.beforeEquals + ("=" + (item.afterEquals + "\"")));
    AtParts(line, h.nameEnd, item.beforeEquals, "=" + (item.afterEquals + "\""));
    AtParts(line, h.equals, "=", item.afterEquals + "\"");
    AtParts(line, h.equals + 1, item.afterEquals, "\"");
    AtChar(line, h.equals, '=');
    AtChar(line, h.open, '"');
  }

  lemma ValueParts(line: string, pos: nat, item: Item)
    ensures At(line, pos, ValueText(item)) <==>
            At(line, pos, item.raw) && CharAt(line, pos + |item.raw|, '"') && At(line, pos + |item.raw| + 1, item.trail)
  {
    AtParts(line, pos, item.raw, "\"" + item.trail);
    AtParts(line, pos + |item.raw|, "\"", item.trail);
    AtChar(line, pos + |item.raw|, '"');
  }

  /** The scan of an item's head lands on its parts. */
  lemma HeadScans(line: string, pos: nat, item: Item)
    requires LegalItem(item) && HeadMatches(line, pos, item) && pos <= |line|
    ensures var h := HeadAt(item, pos);
            && SkipSpace(line, pos) == h.nameAt < |line| && line[h.nameAt] == item.name[0]
            && SkipNameChars(line, h.nameAt) == h.nameEnd
            && SkipSpace(line, h.nameEnd) == h.equals && SkipSpace(line, h.equals + 1) == h.open
  {
    var h := HeadAt(item, pos);
    AtTail(line, h.nameAt, item.name);
    SkipsExactly(line, pos, item.lead);
    if item.beforeEquals != [] { AtTail(line, h.nameEnd, item.beforeEquals); }
    NamesExactly(line, h.nameAt, item.name);
    SkipsExactly(line, h.nameEnd, item.beforeEquals);
    SkipsExactly(line, h.equals + 1, item.afterEquals);
  }

  /** Where the closing quote and the separator of an item at `pos` stand. */
  function CloseAt(item: Item, pos: nat): nat { HeadAt(item, pos).open + 1 + |item.raw| }

  function SeparatorAt(item: Item, pos: nat): nat { CloseAt(item, pos) + 1 + |item.trail| }

  predicate ItemMatches(line: string, pos: nat, item: Item) {
    && HeadMatches(line, pos, item) && At(line, HeadAt(item, pos).open + 1, item.raw)
    && CharAt(line, CloseAt(item, pos), '"') && At(line, CloseAt(item, pos) + 1, item.trail)
  }

  lemma ItemParts(line: string, pos: nat, item: Item)
    ensures At(line, pos, ItemText(item)) <==> ItemMatches(line, pos, item)
    ensures pos + |ItemText(item)| == SeparatorAt(item, pos)
  {
    HeadParts(line, pos, item);
    ValueParts(line, HeadAt(item, pos).open + 1, item);
    ItemIsHeadAndValue(item);
    assert |HeadText(item)| == HeadAt(item, pos).open + 1 - pos;
    AtParts(line, pos, HeadText(item), ValueText(item));
  }

  lemma ValueScans(line: string, pos: nat, item: Item)
    requires LegalItem(item) && ItemMatches(line, pos, item) && SeparatorAt(item, pos) < |line|
    requires line[SeparatorAt(item, pos)] in ",}"
    ensures CloseQuote(line, HeadAt(item, pos).open + 1) == Some(CloseAt(item, pos))
    ensures SkipSpace(line, CloseAt(item, pos) + 1) == SeparatorAt(item, pos)
  {
    ClosesExactly(line, HeadAt(item, pos).open + 1, item.raw);
    SkipsExactly(line, CloseAt(item, pos) + 1, item.trail);
  }

  /** A pair whose scans land on these positions. */
  lemma PairAt(line: string, pos: nat, nameAt: nat, nameEnd: nat, equals: nat, open: nat, close: nat, after: nat)
    requires pos <= |line| && SkipSpace(line, pos) == nameAt < |line| && IsNameStart(line[nameAt])
    requires SkipNameChars(line, nameAt) == nameEnd && SkipSpace(line, nameEnd) == equals
    requires CharAt(line, equals, '=') && SkipSpace(line, equals + 1) == open && CharAt(line, open, '"')
    requires CloseQuote(line, open + 1) == Some(close) && SkipSpace(line, close + 1) == after
    requires CharAt(line, after, ',') || CharAt(line, after, '}')
    ensures MatchEnd(line, pos).None?
    ensures MatchPair(line, pos) == Some(Pair(line[nameAt..nameEnd], line[open + 1..close], line[after], after + 1))
  {
  }

  lemma PairScans(line: string, pos: nat, item: Item)
    requires LegalItem(item) && ItemMatches(line, pos, item) && SeparatorAt(item, pos) < |line|
    requires line[SeparatorAt(item, pos)] in ",}"
    ensures var h := HeadAt(item, pos); var close, after := CloseAt(item, pos), SeparatorAt(item, pos);
            && MatchEnd(line, pos).None?
            && MatchPair(line, pos) == Some(Pair(line[h.nameAt..h.nameEnd], line[h.open + 1..close], line[after],
                after + 1))
  {
    hide SkipSpace, SkipNameChars, CloseQuote, LegalRaw, AllSpace, MatchPair;
    HeadScans(line, pos, item);
    ValueScans(line, pos, item);
    var h := HeadAt(item, pos);
    PairAt(line, pos, h.nameAt, h.nameEnd, h.equals, h.open, CloseAt(item, pos), SeparatorAt(item, pos));
  }

  lemma PairMatches(line: string, pos: nat, item: Item, separator: char)
    requires LegalItem(item) && ItemMatches(line, pos, item)
    requires CharAt(line, SeparatorAt(item, pos), separator) && separator in ",}"
    ensures MatchEnd(line, pos).None?
    ensures MatchPair(line, pos) == Some(Pair(item.name, item.raw, separator, SeparatorAt(item, pos) + 1))
  {
    hide LegalItem, MatchPair, MatchEnd;
    PairScans(line, pos, item);
    var h := HeadAt(item, pos);
    AtSlice(line, h.nameAt, item.name);
    AtSlice(line, h.open + 1, item.raw);
  }

  lemma EndParses(line: string, pos: nat, labels: Labels, space: string)
    requires AllSpace(space) && pos <= |line| && At(line, pos, space + "}")
    ensures ParseFrom(line, pos, labels) == Some((labels, pos + |space| + 1))
  {
    AtParts(line, pos, space, "}");
    AtChar(line, pos + |space|, '}');
    SkipsExactly(line, pos, space);
  }

  lemma LastItemParses(line: string, pos: nat, labels: Labels, item: Item)
    requires LegalItem(item) && At(line, pos, ItemText(item)) && pos <= |line|
    requires CharAt(line, pos + |ItemText(item)|, '}')
    ensures ParseFrom(line, pos, labels) == Some((labels[item.name := Unescape(item.raw)], pos + |ItemText(item)| + 1))
  {
    ItemParts(line, pos, item);
    PairMatches(line, pos, item, '}');
  }

  lemma ItemThenMoreParses(line: string, pos: nat, labels: Labels, item: Item)
    requires LegalItem(item) && At(line, pos, ItemText(item)) && pos <= |line|
    requires CharAt(line, pos + |ItemText(item)|, ',')
    ensures ParseFrom(line, pos, labels) ==
            ParseFrom(line, pos + |ItemText(item)| + 1, labels[item.name := Unescape(item.raw)])
  {
    hide ItemText, At, ItemMatches, MatchEnd, MatchPair, LegalItem, Unescape;
    ItemParts(line, pos, item);
    PairMatches(line, pos, item, ',');
  }

  lemma RenderOne(items: seq<Item>, close: Close)
    requires LegalBlock(items, close) && items != [] && !(|items| == 1 && close.AfterPair?)
    ensures Render(items, close) == ItemText(items[0]) + ("," + Render(items[1..], close))
    ensures LegalItem(items[0]) && LegalBlock(items[1..], close)
  {
  }

  lemma {:induction false} FillOne(labels: Labels, items: seq<Item>)
    requires items != []
    ensures Fill(labels, items) == Fill(labels[items[0].name := Unescape(items[0].raw)], items[1..])
  {
  }

  lemma CommaThenMore(line: string, pos: nat, item: Item, text: string)
    requires At(line, pos, ItemText(item) + ("," + text))
    ensures var after := pos + |ItemText(item)|;
            At(line, pos, ItemText(item)) && CharAt(line, after, ',') && At(line, after + 1, text)
  {
    var after := pos + |ItemText(item)|;
    AtParts(line, pos, ItemText(item), "," + text);
    AtParts(line, after, ",", text);
    AtChar(line, after, ',');
  }

  lemma FirstOfMoreParses(line: string, pos: nat, labels: Labels, items: seq<Item>, close: Close)
    requires LegalBlock(items, close) && pos <= |line| && At(line, pos, Render(items, close))
    requires items != [] && !(|items| == 1 && close.AfterPair?)
    ensures var after := pos + |ItemText(items[0])|; var more := labels[items[0].name := Unescape(items[0].raw)];
            && after < |line| && At(line, after + 1, Render(items[1..], close)) && LegalBlock(items[1..], close)
            && ParseFrom(line, pos, labels) == ParseFrom(line, after + 1, more)
            && pos + |Render(items, close)| == after + 1 + |Render(items[1..], close)|
  {
    hide ItemText, At, Unescape, LegalItem, LegalBlock, ParseFrom;
    RenderOne(items, close);
    CommaThenMore(line, pos, items[0], Render(items[1..], close));
    ItemThenMoreParses(line, pos, labels, items[0]);
  }

  lemma OnlyItemParses(line: string, pos: nat, labels: Labels, item: Item)
    requires LegalItem(item) && pos <= |line| && At(line, pos, ItemText(item) + "}")
    ensures ParseFrom(line, pos, labels) == Some((labels[item.name := Unescape(item.raw)], pos + |ItemText(item)| + 1))
  {
    AtParts(line, pos, ItemText(item), "}");
    AtChar(line, pos + |ItemText(item)|, '}');
    LastItemParses(line, pos, labels, item);
  }

  /** Every legal block parses to the dictionary it fills. */
  lemma {:induction false} BlockParses(line: string, pos: nat, labels: Labels, items: seq<Item>, close: Close)
    requires LegalBlock(items, close) && pos <= |line| && At(line, pos, Render(items, close))
    ensures ParseFrom(line, pos, labels) == Some((Fill(labels, items), pos + |Render(items, close)|))
    decreases |items|
  {
    hide MatchPair, MatchEnd, ItemText, Unescape, LegalItem, At;
    if items == [] {
      EndParses(line, pos, labels, close.space);
    } else if |items| == 1 && close.AfterPair? {
      OnlyItemParses(line, pos, labels, items[0]);
      FillOne(labels, items);
      assert items[1..] == [];
    } else {
      FirstOfMoreParses(line, pos, labels, items, close);
      FillOne(labels, items);
      BlockParses(line, pos + |ItemText(items[0])| + 1, labels[items[0].name := Unescape(items[0].raw)], items[1..],
          close);
    }
  }

  // ---- and nothing else is ------------------------------------------------------------

  lemma {:induction false} SkippedIsSpace(line: string, pos: nat)
    requires pos <= |line|
    ensures AllSpace(line[pos..SkipSpace(line, pos)])
    decreases |line| - pos
  {
    if pos < |line| && IsSpace(line[pos]) {
      SkippedIsSpace(line, pos + 1);
      var end := SkipSpace(line, pos);
      assert line[pos..end] == [line[pos]] + line[pos + 1..end];
    }
  }

  lemma {:induction false} SkippedIsName(line: string, pos: nat)
    requires pos <= |line|
    ensures forall i :: pos <= i < SkipNameChars(line, pos) ==> IsNameChar(line[i])
    decreases |line| - pos
  {
    if pos < |line| && IsNameChar(line[pos]) {
      SkippedIsName(line, pos + 1);
    }
  }

  lemma {:induction false} ClosedIsLegal(line: string, pos: nat)
    requires pos <= |line| && CloseQuote(line, pos).Some?
    ensures LegalRaw(line[pos..CloseQuote(line, pos).value])
    decreases |line| - pos
  {
    var close := CloseQuote(line, pos).value;
    var raw := line[pos..close];
    if line[pos] != '"' {
      if line[pos] != '\\' {
        ClosedIsLegal(line, pos + 1);
        assert raw[1..] == line[pos + 1..close];
      } else {
        ClosedIsLegal(line, pos + 2);
        assert raw[2..] == line[pos + 2..close];
      }
    }
  }

  /** Where the scans of a matched pair stop. */
  datatype Marks = Marks(nameAt: nat, nameEnd: nat, equals: nat, open: nat, close: nat, after: nat)

  predicate Scanned(line: string, pos: nat, m: Marks) {
    && pos <= |line| && SkipSpace(line, pos) == m.nameAt < |line| && IsNameStart(line[m.nameAt])
    && SkipNameChars(line, m.nameAt) == m.nameEnd && SkipSpace(line, m.nameEnd) == m.equals
    && CharAt(line, m.equals, '=') && SkipSpace(line, m.equals + 1) == m.open && CharAt(line, m.open, '"')
    && CloseQuote(line, m.open + 1) == Some(m.close) && SkipSpace(line, m.close + 1) == m.after
    && m.after < |line| && line[m.after] in ",}"
  }

  lemma PairScanned(line: string, pos: nat) returns (m: Marks)
    requires pos <= |line| && MatchPair(line, pos).Some?
    ensures Scanned(line, pos, m)
    ensures MatchPair(line, pos).value ==
            Pair(line[m.nameAt..m.nameEnd], line[m.open + 1..m.close], line[m.after], m.after + 1)
  {
    hide SkipSpace, SkipNameChars, CloseQuote;
    var nameAt := SkipSpace(line, pos);
    var nameEnd := SkipNameChars(line, nameAt);
    var equals := SkipSpace(line, nameEnd);
    var open := SkipSpace(line, equals + 1);
    var close := CloseQuote(line, open + 1).value;
    m := Marks(nameAt, nameEnd, equals, open, close, SkipSpace(line, close + 1));
  }

  lemma ScannedIsLegal(line: string, pos: nat, m: Marks)
    requires Scanned(line, pos, m)
    ensures pos <= m.nameAt <= m.nameEnd <= m.equals < m.open < m.close < m.after <= |line|
    ensures LegalItem(ItemAt(line, pos, m.nameAt, m.nameEnd, m.equals, m.open, m.close, m.after))
    ensures line[m.equals] == '=' && line[m.open] == '"' && line[m.close] == '"'
    ensures CharAt(line, m.after, line[m.after]) && line[m.after] in ",}"
  {
    hide SkipSpace, SkipNameChars, CloseQuote, LegalRaw, LegalName, AllSpace;
    SkippedIsSpace(line, pos);
    SkippedNameIsLegal(line, m.nameAt);
    SkippedIsSpace(line, m.nameEnd);
    SkippedIsSpace(line, m.equals + 1);
    ClosedIsLegal(line, m.open + 1);
    SkippedIsSpace(line, m.close + 1);
  }

  /** A matched pair is a legal item written at `pos`. */
  lemma PairIsItem(line: string, pos: nat) returns (item: Item)
    requires pos <= |line| && MatchPair(line, pos).Some?
    ensures var pair := MatchPair(line, pos).value;
            && LegalItem(item) && item.name == pair.name && item.raw == pair.raw
            && At(line, pos, ItemText(item)) && pair.end == pos + |ItemText(item)| + 1
            && CharAt(line, pair.end - 1, pair.separator) && pair.separator in ",}"
  {
    hide *;
    var m := PairScanned(line, pos);
    ScannedIsLegal(line, pos, m);
    item := ItemAt(line, pos, m.nameAt, m.nameEnd, m.equals, m.open, m.close, m.after);
    NameAndRaw(line, pos, m);
    ItemAtMatches(line, pos, m.nameAt, m.nameEnd, m.equals, m.open, m.close, m.after);
    ItemParts(line, pos, item);
  }

  lemma NameAndRaw(line: string, pos: nat, m: Marks)
    requires pos <= m.nameAt <= m.nameEnd <= m.equals < m.open < m.close < m.after <= |line|
    ensures var item := ItemAt(line, pos, m.nameAt, m.nameEnd, m.equals, m.open, m.close, m.after);
            item.name == line[m.nameAt..m.nameEnd] && item.raw == line[m.open + 1..m.close]
  {
  }

  lemma SkippedNameIsLegal(line: string, pos: nat)
    requires pos < |line| && IsNameStart(line[pos])
    ensures LegalName(line[pos..SkipNameChars(line, pos)])
  {
    SkippedIsName(line, pos);
  }

  /** The item cut out of a line at these positions. */
  function ItemAt(line: string, pos: nat, nameAt: nat, nameEnd: nat, equals: nat, open: nat, close: nat,
      after: nat): Item
    requires pos <= nameAt <= nameEnd <= equals < open < close < after <= |line|
  {
    Item(line[pos..nameAt], line[nameAt..nameEnd], line[nameEnd..equals], line[equals + 1..open],
         line[open + 1..close], line[close + 1..after])
  }

  lemma ItemAtMatches(line: string, pos: nat, nameAt: nat, nameEnd: nat, equals: nat, open: nat, close: nat, after: nat)
    requires pos <= nameAt <= nameEnd <= equals < open < close < after <= |line|
    requires line[equals] == '=' && line[open] == '"' && line[close] == '"'
    ensures var item := ItemAt(line, pos, nameAt, nameEnd, equals, open, close, after);
            && ItemMatches(line, pos, item) && SeparatorAt(item, pos) == after
  {
    hide At;
    SliceIsAt(line, pos, nameAt);
    SliceIsAt(line, nameAt, nameEnd);
    SliceIsAt(line, nameEnd, equals);
    SliceIsAt(line, equals + 1, open);
    SliceIsAt(line, open + 1, close);
    SliceIsAt(line, close + 1, after);
  }

  lemma SliceIsAt(line: string, from: nat, to: nat)
    requires from <= to <= |line|
    ensures At(line, from, line[from..to])
  {
  }

  /** The text a result was read from is a legal block with that content. */
  ghost predicate IsBlock(line: string, pos: nat, labels: Labels, result: (Labels, nat)) {
    exists items, close :: LegalBlock(items, close) && At(line, pos, Render(items, close))
      && result == (Fill(labels, items), pos + |Render(items, close)|)
  }

  lemma EndIsBlock(line: string, pos: nat, labels: Labels)
    requires pos <= |line| && MatchEnd(line, pos).Some?
    ensures IsBlock(line, pos, labels, (labels, MatchEnd(line, pos).value))
  {
    var at := SkipSpace(line, pos);
    var close := AfterSpace(line[pos..at]);
    SkippedIsSpace(line, pos);
    AtParts(line, pos, close.space, "}");
    AtChar(line, at, '}');
    var items: seq<Item> := [];
    assert LegalBlock(items, close) && Render(items, close) == close.space + "}";
    assert Fill(labels, items) == labels;
  }

  lemma LastPairIsBlock(line: string, pos: nat, labels: Labels, item: Item)
    requires LegalItem(item) && At(line, pos, ItemText(item)) && CharAt(line, pos + |ItemText(item)|, '}')
    ensures IsBlock(line, pos, labels, (labels[item.name := Unescape(item.raw)], pos + |ItemText(item)| + 1))
  {
    var items := [item];
    AtParts(line, pos, ItemText(item), "}");
    AtChar(line, pos + |ItemText(item)|, '}');
    assert LegalBlock(items, AfterPair) && Render(items, AfterPair) == ItemText(item) + "}";
    assert items[1..] == [];
    assert Fill(labels, items) == labels[item.name := Unescape(item.raw)];
  }

  lemma MorePairsAreBlock(line: string, pos: nat, labels: Labels, item: Item, result: (Labels, nat))
    requires LegalItem(item) && At(line, pos, ItemText(item)) && CharAt(line, pos + |ItemText(item)|, ',')
    requires IsBlock(line, pos + |ItemText(item)| + 1, labels[item.name := Unescape(item.raw)], result)
    ensures IsBlock(line, pos, labels, result)
  {
    hide ItemText, At, Unescape, LegalItem;
    var after := pos + |ItemText(item)|;
    var more := labels[item.name := Unescape(item.raw)];
    var rest, close :| LegalBlock(rest, close) && At(line, after + 1, Render(rest, close))
      && result == (Fill(more, rest), after + 1 + |Render(rest, close)|);
    var items := [item] + rest;
    assert items[1..] == rest;
    AtChar(line, after, ',');
    AtParts(line, after, ",", Render(rest, close));
    AtParts(line, pos, ItemText(item), "," + Render(rest, close));
    assert LegalBlock(items, close);
    assert Render(items, close) == ItemText(item) + ("," + Render(rest, close));
    assert Fill(labels, items) == Fill(more, rest);
  }

  lemma {:induction false} ParsedIsBlock(line: string, pos: nat, labels: Labels)
    requires pos <= |line| && ParseFrom(line, pos, labels).Some?
    ensures IsBlock(line, pos, labels, ParseFrom(line, pos, labels).value)
    decreases |line| - pos
  {
    hide MatchEnd, MatchPair, IsBlock, LegalItem, At, ItemText, Unescape;
    if MatchEnd(line, pos).Some? {
      EndIsBlock(line, pos, labels);
    } else {
      var pair := MatchPair(line, pos).value;
      var item := PairIsItem(line, pos);
      var more := labels[item.name := Unescape(item.raw)];
      if pair.separator == '}' {
        LastPairIsBlock(line, pos, labels, item);
      } else {
        ParsedIsBlock(line, pair.end, more);
        MorePairsAreBlock(line, pos, labels, item, ParseFrom(line, pos, labels).value);
      }
    }
  }

  /** The parser accepts exactly the grammar: it returns a result if and only if
      a legal block with that content stands there. */
  lemma ParserIsGrammar(line: string, pos: nat, labels: Labels, result: (Labels, nat))
    requires pos <= |line|
    ensures ParseFrom(line, pos, labels) == Some(result) <==> IsBlock(line, pos, labels, result)
  {
    hide ParseFrom, Render, Fill, LegalBlock, At;
    if ParseFrom(line, pos, labels).Some? { ParsedIsBlock(line, pos, labels); }
    if IsBlock(line, pos, labels, result) {
      var items, close :| LegalBlock(items, close) && At(line, pos, Render(items, close))
        && result == (Fill(labels, items), pos + |Render(items, close)|);
      BlockParses(line, pos, labels, items, close);
    }
  }

  // ---- printing and parsing back ---------------------------------------------------------

  /** The three escapes of the format. */
  function EscapeValue(value: string): string {
    if value == [] then []
    else (if value[0] == '\\' then "\\\\" else if value[0] == '"' then "\\\"" else if value[0] == '\n' then "\\n"
          else [value[0]]) + EscapeValue(value[1..])
  }

  /** The canonical way to write a list of labels, with no white space. */
  function ItemOf(entry: (string, string)): Item { Item([], entry.0, [], [], EscapeValue(entry.1), []) }

  function ItemsOf(labels: seq<(string, string)>): seq<Item> {
    if labels == [] then [] else [ItemOf(labels[0])] + ItemsOf(labels[1..])
  }

  function Print(labels: seq<(string, string)>): string {
    "{" + Render(ItemsOf(labels), if labels == [] then AfterSpace([]) else AfterPair)
  }

  function MapOf(labels: seq<(string, string)>, start: Labels): Labels
    decreases |labels|
  {
    if labels == [] then start else MapOf(labels[1..], start[labels[0].0 := labels[0].1])
  }

  lemma {:induction false} EscapeIsUndone(value: string)
    ensures LegalRaw(EscapeValue(value)) && Unescape(EscapeValue(value)) == value
  {
    if value != [] {
      var rest := EscapeValue(value[1..]);
      EscapeIsUndone(value[1..]);
      var raw := EscapeValue(value);
      assert value == [value[0]] + value[1..];
      if value[0] in "\\\"\n" {
        assert raw[2..] == rest;
      } else {
        assert raw[1..] == rest;
      }
    }
  }

  lemma {:induction false} PrintedItemsAreLegal(labels: seq<(string, string)>)
    requires forall i :: 0 <= i < |labels| ==> LegalName(labels[i].0)
    ensures |ItemsOf(labels)| == |labels| && forall i :: 0 <= i < |labels| ==> LegalItem(ItemsOf(labels)[i])
  {
    if labels != [] {
      PrintedItemsAreLegal(labels[1..]);
      EscapeIsUndone(labels[0].1);
    }
  }

  lemma {:induction false} PrintedItemsFill(labels: seq<(string, string)>, start: Labels)
    ensures Fill(start, ItemsOf(labels)) == MapOf(labels, start)
    decreases |labels|
  {
    if labels != [] {
      EscapeIsUndone(labels[0].1);
      assert ItemsOf(labels)[1..] == ItemsOf(labels[1..]);
      PrintedItemsFill(labels[1..], start[labels[0].0 := labels[0].1]);
    }
  }

  /** For any legal names and any values, in any surrounding line, parsing the
      printed block gives the labels back and the index after its brace. */
  lemma PrintParses(before: string, labels: seq<(string, string)>, after: string)
    requires forall i :: 0 <= i < |labels| ==> LegalName(labels[i].0)
    ensures var line := before + Print(labels) + after;
            ParseFrom(line, |before| + 1, map[]) == Some((MapOf(labels, map[]), |before| + |Print(labels)|))
  {
    var line := before + Print(labels) + after;
    var close := if labels == [] then AfterSpace([]) else AfterPair;
    PrintedItemsFill(labels, map[]);
    hide MatchPair, MatchEnd, ItemText, Unescape, LegalItem, ParseFrom;
    var items := ItemsOf(labels);
    var body := Render(items, close);
    assert Print(labels) == "{" + body;
    PrintedIsAt(before, body, after);
    PrintedBlockIsLegal(labels, close);
    BodyParses(line, |before| + 1, items, close, body);
  }

  lemma BodyParses(line: string, pos: nat, items: seq<Item>, close: Close, body: string)
    requires LegalBlock(items, close) && body == Render(items, close) && pos <= |line| && At(line, pos, body)
    ensures ParseFrom(line, pos, map[]) == Some((Fill(map[], items), pos + |body|))
  {
    BlockParses(line, pos, map[], items, close);
  }

  lemma PrintedBlockIsLegal(labels: seq<(string, string)>, close: Close)
    requires forall i :: 0 <= i < |labels| ==> LegalName(labels[i].0)
    requires close == if labels == [] then AfterSpace([]) else AfterPair
    ensures LegalBlock(ItemsOf(labels), close)
  {
    PrintedItemsAreLegal(labels);
  }

  lemma PrintedIsAt(before: string, body: string, after: string)
    ensures At(before + ("{" + body) + after, |before| + 1, body)
  {
  }

  /** With distinct names the dictionary holds exactly the printed labels. */
  lemma {:induction false} DistinctLabelsAreKept(labels: seq<(string, string)>, start: Labels)
    requires forall i, j :: 0 <= i < j < |labels| ==> labels[i].0 != labels[j].0
    requires forall i :: 0 <= i < |labels| ==> labels[i].0 !in start
    ensures MapOf(labels, start).Keys == start.Keys + set i | 0 <= i < |labels| :: labels[i].0
    ensures forall i :: 0 <= i < |labels| ==>
            labels[i].0 in MapOf(labels, start) && MapOf(labels, start)[labels[i].0] == labels[i].1
    ensures forall name :: name in start ==> name in MapOf(labels, start) && MapOf(labels, start)[name] == start[name]
    decreases |labels|
  {
    if labels != [] {
      var rest := labels[1..];
      var more := start[labels[0].0 := labels[0].1];
      DistinctLabelsAreKept(rest, more);
      assert forall i :: 0 < i < |labels| ==> labels[i] == rest[i - 1];
      assert (set i | 0 <= i < |labels| :: labels[i].0) == {labels[0].0} + set i | 0 <= i < |rest| :: rest[i].0;
    }
  }
}
