/** The styler's loops, over byte offsets. Every slice below has a proof that its
    offset falls between two characters, so none of them can panic. */
module Styler {
  import opened Options
  import opened Utf8
  import opened Markdown

  /** `n` characters starting at character `at`, seen as bytes. */
  lemma StepOver(text: string, at: nat, n: nat)
    requires at + n <= |text|
    ensures Bytes(text[..at + n]) == Bytes(text[..at]) + Bytes(text[at..at + n])
  {
    BytesSplit(text, at, at + n);
  }

  lemma StepOne(text: string, at: nat)
    requires at < |text|
    ensures Bytes(text[..at + 1]) == Bytes(text[..at]) + Width(text[at])
  {
    StepOver(text, at, 1);
    assert text[at..at + 1] == [text[at]];
  }

  lemma StepRun(text: string, at: nat, c: char, n: nat)
    requires at + n <= |text| && c as int < 0x80
    requires forall k :: at <= k < at + n ==> text[k] == c
    ensures Bytes(text[..at + n]) == Bytes(text[..at]) + n
  {
    StepOver(text, at, n);
    AsciiBytes(text[at..at + n]);
  }

  lemma AtEnd(text: string, at: nat)
    requires at <= |text|
    ensures Bytes(text[..at]) < Bytes(text) <==> at < |text|
  {
    assert text[..|text|] == text;
    if at < |text| {
      OffsetsIncrease(text, at, |text|);
    }
  }

  lemma OffsetZero(text: string, at: nat)
    requires at <= |text|
    ensures Bytes(text[..at]) == 0 <==> at == 0
  {
    if at > 0 {
      OffsetsIncrease(text, 0, at);
    }
  }

  function InBytes(s: string, position: Option<nat>): Option<nat>
    requires position.Some? ==> position.value <= |s|
  {
    if position.None? then None else Some(Bytes(s[..position.value]))
  }

  method FindBacktickRun(text: string, from: nat, ghost start: nat, length: nat) returns (r: Option<nat>)
    requires 0 < length && start <= |text| && from == Bytes(text[..start])
    ensures r == InBytes(text, BacktickRun(text, length, start))
  {
    var offset := from;
    ghost var at := start;
    AtEnd(text, at);
    while offset < Bytes(text)
      invariant at <= |text| && offset == Bytes(text[..at])
      invariant offset < Bytes(text) <==> at < |text|
      invariant BacktickRun(text, length, at) == BacktickRun(text, length, start)
      decreases |text| - at
    {
      PositionOf(text, at);
      var rest := Position(text, offset);
      if text[rest] == '`' {
        var run := Run(text, rest, '`');
        if run == length {
          return Some(offset);
        }
        StepRun(text, at, '`', run);
        offset, at := offset + run, at + run;
      } else {
        StepOne(text, at);
        offset, at := offset + Width(text[rest]), at + 1;
      }
      AtEnd(text, at);
    }
    r := None;
  }

  lemma StepDelimiter(text: string, at: nat, d: string)
    requires 1 <= |d| <= 2 && Occurs(text, d, at)
    requires d[0] as int < 0x80 && d[|d| - 1] as int < 0x80
    ensures Bytes(text[..at + |d|]) == Bytes(text[..at]) + |d|
  {
    StepOne(text, at);
    if |d| == 2 {
      StepOne(text, at + 1);
    }
  }

  /** The search loop: where the closing delimiter stands, in characters. */
  method SearchClose(alnum: char -> bool, text: string, content: nat, d: string, wordBound: bool)
    returns (r: Option<nat>)
    requires 1 <= |d| <= 2 && content <= |text|
    ensures r == EmphasisClose(alnum, text, content, d, wordBound, content)
  {
    var search := content;
    while true
      invariant content <= search <= |text|
      invariant EmphasisClose(alnum, text, content, d, wordBound, search)
             == EmphasisClose(alnum, text, content, d, wordBound, content)
      decreases |text| - search
    {
      var found := Find(text, d, search);
      if found.None? {
        return None;
      }
      if Closes(alnum, text, content, d, wordBound, found.value) {
        return found;
      }
      search := found.value + |d|;
    }
  }

  /** The byte offset where the emphasis opened by `d` at `index` ends. */
  method FindEmphasisClose(alnum: char -> bool, text: string, index: nat, ghost at: nat, d: string, wordBound: bool)
    returns (r: Option<nat>)
    requires 1 <= |d| <= 2 && Occurs(text, d, at) && index == Bytes(text[..at])
    requires d[0] as int < 0x80 && d[|d| - 1] as int < 0x80
    ensures r == InBytes(text, EmphasisEnd(alnum, text, at, d, wordBound))
  {
    StepDelimiter(text, at, d);
    PositionOf(text, at + |d|);
    var content := Position(text, index + |d|);
    assert content == at + |d|;
    if content == |text| || text[content] == ' ' {
      return None;
    }
    var close := SearchClose(alnum, text, content, d, wordBound);
    EndInBytes(alnum, text, at, d, wordBound);
    return if close.None? then None else Some(Bytes(text[..close.value]) + |d|);
  }

  lemma EndInBytes(alnum: char -> bool, text: string, at: nat, d: string, wordBound: bool)
    requires 1 <= |d| <= 2 && at + |d| < |text| && text[at + |d|] != ' '
    requires d[0] as int < 0x80 && d[|d| - 1] as int < 0x80
    ensures var close := EmphasisClose(alnum, text, at + |d|, d, wordBound, at + |d|);
            InBytes(text, EmphasisEnd(alnum, text, at, d, wordBound))
            == if close.None? then None else Some(Bytes(text[..close.value]) + |d|)
  {
    var close := EmphasisClose(alnum, text, at + |d|, d, wordBound, at + |d|);
    if close.Some? { StepDelimiter(text, close.value, d); }
  }

  method BacktickStep(text: string, index: nat, ghost at: nat) returns (style: Option<Style>, next: nat)
    requires at < |text| && index == Bytes(text[..at]) && text[at] == '`'
    ensures style == BacktickToken(text, at).style && next == Bytes(text[..BacktickToken(text, at).next])
  {
    PositionOf(text, at);
    var run := Run(text, Position(text, index), '`');
    StepRun(text, at, '`', run);
    var close := FindBacktickRun(text, index + run, at + run, run);
    AfterBackticks(text, at);
    return if close.None? then None else Some(CodeSpan), if close.None? then index + run else close.value + run;
  }

  /** Where the token that starts with backticks ends, in bytes. */
  lemma AfterBackticks(text: string, at: nat)
    requires at < |text| && text[at] == '`'
    ensures var run := Run(text, at, '`');
            var close := BacktickRun(text, run, at + run);
            Bytes(text[..BacktickToken(text, at).next])
            == if close.None? then Bytes(text[..at]) + run else Bytes(text[..close.value]) + run
  {
    var run := Run(text, at, '`');
    var close := BacktickRun(text, run, at + run);
    StepRun(text, at, '`', run);
    if close.Some? {
      RunFound(text, run, at + run);
      StepRun(text, close.value, '`', run);
    }
  }

  method EmphasisStep(alnum: char -> bool, text: string, index: nat, ghost at: nat)
    returns (style: Option<Style>, next: nat)
    requires at < |text| && index == Bytes(text[..at]) && text[at] in {'*', '_'}
    ensures style == EmphasisToken(alnum, text, at).style
    ensures next == Bytes(text[..EmphasisToken(alnum, text, at).next])
  {
    PositionOf(text, at);
    var rest := Position(text, index);
    var d, wordBound := Delimiter(text, rest), text[rest] == '_';
    OffsetZero(text, at);
    var leftOk := !wordBound || index == 0 || !alnum(text[rest - 1]);
    if leftOk {
      var end := FindEmphasisClose(alnum, text, index, at, d, wordBound);
      if end.Some? {
        return Some(if |d| == 2 then Strong else Emphasis), end.value;
      }
    }
    StepDelimiter(text, at, d);
    return None, index + |d|;
  }

  /** One turn of the scanner: the span found, if any, and where to go on, in bytes. */
  method ScanStep(alnum: char -> bool, text: string, index: nat, ghost at: nat)
    returns (style: Option<Style>, next: nat)
    requires at < |text| && index == Bytes(text[..at])
    ensures style == TokenAt(alnum, text, at).style
    ensures next == Bytes(text[..TokenAt(alnum, text, at).next])
  {
    PositionOf(text, at);
    var rest := Position(text, index);
    var c := text[rest];
    if c == '`' {
      style, next := BacktickStep(text, index, at);
    } else if c == '*' || c == '_' {
      style, next := EmphasisStep(alnum, text, index, at);
    } else if c == '[' {
      var end := LinkEnd(text, rest);
      if end.Some? {
        return Some(Link), Bytes(text[..end.value]);
      }
      StepOne(text, at);
      return None, index + 1;
    } else {
      StepOne(text, at);
      return None, index + Width(c);
    }
  }

  lemma Emit(alnum: char -> bool, text: string, at: nat, spans: seq<Span>)
    requires at < |text|
    ensures var token := TokenAt(alnum, text, at);
            var found := if token.style.None? then []
                         else [Span(Bytes(text[..at]), Bytes(text[..token.next]), token.style.value)];
            spans + AllToBytes(text, Scan(alnum, text, at))
            == spans + found + AllToBytes(text, Scan(alnum, text, token.next))
  {
    var token := TokenAt(alnum, text, at);
    AllToBytesConcat(text, Emitted(token, at), Scan(alnum, text, token.next));
    assert Scan(alnum, text, at) == Emitted(token, at) + Scan(alnum, text, token.next);
    if token.style.None? {
      assert AllToBytes(text, Emitted(token, at)) == [];
    } else {
      assert AllToBytes(text, Emitted(token, at))
          == [Span(Bytes(text[..at]), Bytes(text[..token.next]), token.style.value)];
    }
  }

  /** Appends the inline spans of `text` from byte `from` on. */
  method InlineSpans(alnum: char -> bool, text: string, from: nat, already: seq<Span>)
    returns (spans: seq<Span>)
    requires from <= |text| && Bytes(text[..from]) == from
    ensures spans == already + AllToBytes(text, Scan(alnum, text, from))
  {
    spans := already;
    var index := from;
    ghost var at := from;
    ghost var total := already + AllToBytes(text, Scan(alnum, text, from));
    AtEnd(text, at);
    while index < Bytes(text)
      invariant at <= |text| && index == Bytes(text[..at])
      invariant index < Bytes(text) <==> at < |text|
      invariant spans + AllToBytes(text, Scan(alnum, text, at)) == total
      decreases |text| - at
    {
      var style, next := ScanStep(alnum, text, index, at);
      ghost var token := TokenAt(alnum, text, at);
      Emit(alnum, text, at, spans);
      if style.Some? {
        spans := spans + [Span(index, next, style.value)];
      }
      index, at := next, token.next;
      AtEnd(text, at);
    }
  }

  lemma {:induction false} RunFound(s: string, length: nat, offset: nat)
    requires 0 < length && offset <= |s|
    ensures var r := BacktickRun(s, length, offset);
            r.Some? ==> forall k :: r.value <= k < r.value + length ==> s[k] == '`'
    decreases |s| - offset
  {
    if offset < |s| {
      if s[offset] == '`' {
        var run := Run(s, offset, '`');
        if run != length {
          RunFound(s, length, offset + run);
        }
      } else {
        RunFound(s, length, offset + 1);
      }
    }
  }

  /* ---- Block classification loops ---- */

  lemma {:induction false} CountSnoc(s: string, c: char, cs: set<char>)
    ensures Count(s + [c], cs) == Count(s, cs) + (if c in cs then 1 else 0)
  {
    if s != "" {
      CountSnoc(s[1..], c, cs);
      assert (s + [c])[1..] == s[1..] + [c];
    }
  }

  method RuleLine(body: string) returns (r: bool)
    ensures r == IsRule(body)
  {
    var marker: Option<char> := None;
    var count := 0;
    for i := 0 to |body|
      invariant count == Count(body[..i], RULE_MARKERS)
      invariant forall c | c in body[..i] :: c in RULE_BLANKS || (c in RULE_MARKERS && marker == Some(c))
      invariant marker.Some? ==> marker.value in body[..i] && marker.value in RULE_MARKERS
    {
      assert body[..i + 1] == body[..i] + [body[i]];
      CountSnoc(body[..i], body[i], RULE_MARKERS);
      assert body[i] in body;
      if body[i] in RULE_BLANKS {
      } else if body[i] in RULE_MARKERS {
        if marker.Some? && marker.value != body[i] {
          assert marker.value in body;
          return false;
        }
        marker := Some(body[i]);
        count := count + 1;
      } else {
        return false;
      }
    }
    assert body[..|body|] == body;
    r := count >= 3;
  }

  method TableSeparatorLine(body: string) returns (r: bool)
    ensures r == IsTableSeparator(body)
  {
    var dashes := 0;
    for i := 0 to |body|
      invariant dashes == Count(body[..i], {'-'})
      invariant forall c | c in body[..i] :: c in {'|', ':', ' ', '-'}
    {
      assert body[..i + 1] == body[..i] + [body[i]];
      CountSnoc(body[..i], body[i], {'-'});
      assert body[i] in body;
      if body[i] in {'|', ':', ' '} {
      } else if body[i] == '-' {
        dashes := dashes + 1;
      } else {
        return false;
      }
    }
    assert body[..|body|] == body;
    r := dashes >= 3;
  }

  lemma BorderStep(text: string, i: nat, spans: seq<Span>)
    requires i < |text|
    ensures Bytes(text[..i + 1]) == Bytes(text[..i]) + Width(text[i])
    ensures var here := if text[i] == '|' then [Span(Bytes(text[..i]), Bytes(text[..i]) + 1, TableBorder)] else [];
            spans + AllToBytes(text, Borders(text, i)) == spans + here + AllToBytes(text, Borders(text, i + 1))
  {
    StepOne(text, i);
    var here := if text[i] == '|' then [Span(i, i + 1, TableBorder)] else [];
    AllToBytesConcat(text, here, Borders(text, i + 1));
    assert AllToBytes(text, here)
        == if text[i] == '|' then [Span(Bytes(text[..i]), Bytes(text[..i]) + 1, TableBorder)] else [];
  }

  method BorderSpans(text: string, indent: nat) returns (spans: seq<Span>)
    requires indent <= |text| && Bytes(text[..indent]) == indent
    ensures spans == AllToBytes(text, Borders(text, indent))
  {
    spans := [];
    var offset := indent;
    ghost var total := AllToBytes(text, Borders(text, indent));
    for i := indent to |text|
      invariant offset == Bytes(text[..i])
      invariant spans + AllToBytes(text, Borders(text, i)) == total
    {
      BorderStep(text, i, spans);
      if text[i] == '|' {
        spans := spans + [Span(offset, offset + 1, TableBorder)];
      }
      offset := offset + Width(text[i]);
    }
    assert AllToBytes(text, Borders(text, |text|)) == [];
  }

  ghost predicate StartsWithin(text: string, spans: seq<Span>) {
    forall k :: 0 <= k < |spans| ==> spans[k].start <= |text|
  }

  lemma {:induction false} InsertToBytes(text: string, x: Span, ys: seq<Span>)
    requires x.start <= |text| && StartsWithin(text, ys)
    ensures StartsWithin(text, Insert(x, ys))
    ensures AllToBytes(text, Insert(x, ys)) == Insert(ToBytes(text, x), AllToBytes(text, ys))
  {
    if ys != [] {
      if x.start < ys[0].start {
        OffsetsIncrease(text, x.start, ys[0].start);
      } else if ys[0].start < x.start {
        OffsetsIncrease(text, ys[0].start, x.start);
        InsertToBytes(text, x, ys[1..]);
        assert AllToBytes(text, ys)[1..] == AllToBytes(text, ys[1..]);
        AllToBytesConcat(text, [ys[0]], Insert(x, ys[1..]));
      }
    }
  }

  /** Sorting by byte offset is sorting by character position. */
  lemma {:induction false} SortToBytes(text: string, xs: seq<Span>)
    requires StartsWithin(text, xs)
    ensures StartsWithin(text, SortByStart(xs))
    ensures AllToBytes(text, SortByStart(xs)) == SortByStart(AllToBytes(text, xs))
  {
    if xs != [] {
      SortToBytes(text, xs[1..]);
      InsertToBytes(text, xs[0], SortByStart(xs[1..]));
      assert AllToBytes(text, xs)[1..] == AllToBytes(text, xs[1..]);
    }
  }

  lemma {:induction false} ScanStarts(alnum: char -> bool, text: string, index: nat)
    requires index <= |text|
    ensures StartsWithin(text, Scan(alnum, text, index))
    decreases |text| - index
  {
    if index < |text| {
      ScanStarts(alnum, text, TokenAt(alnum, text, index).next);
    }
  }

  lemma {:induction false} BorderStarts(text: string, i: nat)
    requires i <= |text|
    ensures StartsWithin(text, Borders(text, i))
    decreases |text| - i
  {
    if i < |text| {
      BorderStarts(text, i + 1);
    }
  }

  lemma PrefixBytes(text: string, indent: nat, marker: nat)
    requires indent == Run(text, 0, ' ') && marker == MarkerLength(text[indent..])
    ensures Bytes(text[..indent]) == indent
    ensures Bytes(text[..indent + marker]) == indent + marker
  {
    AsciiBytes(text[..indent]);
    forall k | 0 <= k < indent + marker
      ensures text[k] as int < 0x80
    {
      if k >= indent {
        assert text[k] == text[indent..][k - indent];
      }
    }
    AsciiBytes(text[..indent + marker]);
  }

  method TableRowSpans(alnum: char -> bool, text: string, indent: nat) returns (spans: seq<Span>)
    requires indent <= |text| && Bytes(text[..indent]) == indent
    ensures spans == AllToBytes(text, TableSpans(alnum, text, indent))
  {
    spans := BorderSpans(text, indent);
    spans := InlineSpans(alnum, text, indent, spans);
    BorderStarts(text, indent);
    ScanStarts(alnum, text, indent);
    AllToBytesConcat(text, Borders(text, indent), Scan(alnum, text, indent));
    SortToBytes(text, Borders(text, indent) + Scan(alnum, text, indent));
    spans := SortByStart(spans);
  }

  method ListItemSpans(alnum: char -> bool, text: string, indent: nat, content: nat) returns (spans: seq<Span>)
    requires indent <= content <= |text| && Bytes(text[..indent]) == indent && Bytes(text[..content]) == content
    ensures spans == AllToBytes(text, ItemSpans(alnum, text, indent, content))
  {
    spans := if content > indent then [Span(indent, content, ListMarker)] else [];
    AllToBytesConcat(text, spans, Scan(alnum, text, content));
    assert AllToBytes(text, spans) == spans;
    spans := InlineSpans(alnum, text, content, spans);
  }

  /** Byte spans of a line that is neither fenced nor a block of one style. */
  method ContentSpans(alnum: char -> bool, text: string) returns (spans: seq<Span>)
    ensures spans == AllToBytes(text, LineSpans(alnum, text))
  {
    var indent := Run(text, 0, ' ');
    var body := text[indent..];
    PrefixBytes(text, indent, MarkerLength(body));
    if body != "" && body[0] == '|' {
      spans := TableRowSpans(alnum, text, indent);
    } else {
      spans := ListItemSpans(alnum, text, indent, indent + MarkerLength(body));
    }
  }

  method StyleOne(alnum: char -> bool, text: string, fence: Option<Fence>) returns (line: Line, after: Option<Fence>)
    ensures Styled(line, after) == StyleLine(alnum, text, fence)
  {
    var body := text[Run(text, 0, ' ')..];
    if fence.Some? {
      if ClosesFence(body, fence.value) {
        return StyledLine(text, CodeFence), None;
      }
      return StyledLine(text, Code), fence;
    }
    if OpensFence(body) {
      return StyledLine(text, CodeFence), FenceRun(body);
    }
    if IsHeading(body) {
      return StyledLine(text, Heading), None;
    }
    var rule := RuleLine(body);
    if rule {
      return StyledLine(text, Rule), None;
    }
    if body != "" && body[0] == '>' {
      return StyledLine(text, Quote), None;
    }
    if body != "" && body[0] == '|' {
      var separator := TableSeparatorLine(body);
      if separator {
        return StyledLine(text, TableBorder), None;
      }
    }
    var spans := ContentSpans(alnum, text);
    return Line(text, spans), None;
  }

  method StyleAll(alnum: char -> bool, texts: seq<string>) returns (lines: seq<Line>)
    ensures lines == StyleLines(alnum, texts)
  {
    lines := [];
    var fence: Option<Fence> := None;
    ghost var step := Stepper(alnum);
    for i := 0 to |texts|
      invariant lines + Fold(step, texts[i..], fence) == Fold(step, texts, None)
    {
      var line, after := StyleNext(alnum, step, texts[i], fence);
      assert texts[i..][1..] == texts[i + 1..];
      lines, fence := lines + [line], after;
    }
  }

  method StyleNext(alnum: char -> bool, ghost step: (string, Option<Fence>) -> Styled, text: string,
                   fence: Option<Fence>)
    returns (line: Line, after: Option<Fence>)
    requires step == Stepper(alnum)
    ensures Styled(line, after) == step(text, fence)
  {
    line, after := StyleOne(alnum, text, fence);
  }
}
