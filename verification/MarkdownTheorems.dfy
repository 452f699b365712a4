/** What the spans of a styled line mean. */
module MarkdownTheorems {
  import opened Options
  import opened Utf8
  import opened Markdown

  /* ---- Well-formed spans ---- */

  ghost predicate WellFormed(line: Line) {
    && (forall i :: 0 <= i < |line.spans| ==>
          && line.spans[i].start < line.spans[i].end <= Bytes(line.text)
          && IsBoundary(line.text, line.spans[i].start)
          && IsBoundary(line.text, line.spans[i].end))
    && (forall i, j :: 0 <= i < j < |line.spans| ==> line.spans[i].start <= line.spans[j].start)
  }

  ghost predicate Disjoint(line: Line) {
    forall i, j :: 0 <= i < j < |line.spans| ==> line.spans[i].end <= line.spans[j].start
  }

  predicate IsTableRow(text: string, fence: Option<Fence>) {
    fence.None? && StartsRow(text) && BlockStyle(text[Run(text, 0, ' ')..]).None?
  }

  /** Non-empty spans one after the other within `[lo, hi]`. */
  ghost predicate Chain(spans: seq<Span>, lo: nat, hi: nat) {
    spans == [] || (lo <= spans[0].start < spans[0].end <= hi && Chain(spans[1..], spans[0].end, hi))
  }

  lemma {:induction false} ScanChain(alnum: char -> bool, text: string, index: nat)
    requires index <= |text|
    ensures Chain(Scan(alnum, text, index), index, |text|)
    decreases |text| - index
  {
    if index < |text| {
      var token := TokenAt(alnum, text, index);
      ScanChain(alnum, text, token.next);
      assert Scan(alnum, text, index) == Emitted(token, index) + Scan(alnum, text, token.next);
      PrependSpan(Emitted(token, index), Scan(alnum, text, token.next), index, token.next, |text|);
    }
  }

  lemma PrependSpan(first: seq<Span>, spans: seq<Span>, lo: nat, mid: nat, hi: nat)
    requires lo <= mid <= hi && Chain(spans, mid, hi)
    requires first == [] || (|first| == 1 && lo <= first[0].start < first[0].end == mid)
    ensures Chain(first + spans, lo, hi)
  {
    if first == [] {
      assert first + spans == spans;
    } else {
      assert (first + spans)[1..] == spans;
    }
  }

  /** Each span of a chain is non-empty and in range. */
  lemma {:induction false} ChainWithin(spans: seq<Span>, lo: nat, hi: nat, i: nat)
    requires Chain(spans, lo, hi) && i < |spans|
    ensures lo <= spans[i].start < spans[i].end <= hi
  {
    if i > 0 {
      ChainWithin(spans[1..], spans[0].end, hi, i - 1);
    }
  }

  lemma ByteSpan(text: string, span: Span)
    requires span.start < span.end <= |text|
    ensures var b := ToBytes(text, span);
            b.start < b.end <= Bytes(text) && IsBoundary(text, b.start) && IsBoundary(text, b.end)
  {
    OffsetsIncrease(text, span.start, span.end);
  }

  lemma {:induction false} ChainApart(spans: seq<Span>, lo: nat, hi: nat, i: nat, j: nat)
    requires Chain(spans, lo, hi) && i < j < |spans|
    ensures spans[i].end <= spans[j].start
  {
    if i == 0 {
      ChainWithin(spans[1..], spans[0].end, hi, j - 1);
    } else {
      ChainApart(spans[1..], spans[0].end, hi, i - 1, j - 1);
    }
  }

  lemma OffsetsOrdered(text: string, i: nat, j: nat)
    requires i <= j
    ensures ByteAt(text, i) <= ByteAt(text, j)
  {
    assert text[..|text|] == text;
    var a, b := if i <= |text| then i else |text|, if j <= |text| then j else |text|;
    if a < b {
      OffsetsIncrease(text, a, b);
    }
  }

  lemma ChainInBytes(text: string, spans: seq<Span>, lo: nat)
    requires Chain(spans, lo, |text|)
    ensures WellFormed(Line(text, AllToBytes(text, spans))) && Disjoint(Line(text, AllToBytes(text, spans)))
  {
    var bytes := AllToBytes(text, spans);
    forall i | 0 <= i < |bytes|
      ensures bytes[i].start < bytes[i].end <= Bytes(text)
      ensures IsBoundary(text, bytes[i].start) && IsBoundary(text, bytes[i].end)
    {
      ChainWithin(spans, lo, |text|, i);
      ByteSpan(text, spans[i]);
    }
    forall i, j | 0 <= i < j < |bytes|
      ensures bytes[i].end <= bytes[j].start
    {
      ChainApart(spans, lo, |text|, i, j);
      OffsetsOrdered(text, spans[i].end, spans[j].start);
    }
  }

  ghost predicate Ordered(spans: seq<Span>) {
    forall i, j :: 0 <= i < j < |spans| ==> spans[i].start <= spans[j].start
  }

  lemma {:induction false} InsertKeeps(x: Span, ys: seq<Span>)
    ensures multiset(Insert(x, ys)) == multiset(ys) + multiset{x}
  {
    if ys != [] && ys[0].start < x.start {
      InsertKeeps(x, ys[1..]);
      assert ys == [ys[0]] + ys[1..];
    }
  }

  lemma {:induction false} InsertOrdered(x: Span, ys: seq<Span>)
    requires Ordered(ys)
    ensures Ordered(Insert(x, ys))
  {
    if ys != [] && ys[0].start < x.start {
      var rest := Insert(x, ys[1..]);
      InsertOrdered(x, ys[1..]);
      InsertKeeps(x, ys[1..]);
      forall k | 0 <= k < |rest|
        ensures ys[0].start <= rest[k].start
      {
        assert rest[k] in multiset(rest);
        assert rest[k] == x || rest[k] in ys[1..];
      }
    }
  }

  lemma {:induction false} SortOrders(xs: seq<Span>)
    ensures Ordered(SortByStart(xs)) && multiset(SortByStart(xs)) == multiset(xs)
  {
    if xs != [] {
      SortOrders(xs[1..]);
      InsertOrdered(xs[0], SortByStart(xs[1..]));
      InsertKeeps(xs[0], SortByStart(xs[1..]));
      assert xs == [xs[0]] + xs[1..];
    }
  }

  lemma {:induction false} BordersChain(text: string, i: nat)
    requires i <= |text|
    ensures Chain(Borders(text, i), i, |text|)
    decreases |text| - i
  {
    if i < |text| {
      BordersChain(text, i + 1);
      PrependSpan(if text[i] == '|' then [Span(i, i + 1, TableBorder)] else [], Borders(text, i + 1), i, i + 1, |text|);
    }
  }

  lemma TableInBytes(text: string, spans: seq<Span>)
    requires Ordered(spans)
    requires forall x | x in multiset(spans) :: x.start < x.end <= |text|
    ensures WellFormed(Line(text, AllToBytes(text, spans)))
  {
    var bytes := AllToBytes(text, spans);
    forall i | 0 <= i < |bytes|
      ensures bytes[i].start < bytes[i].end <= Bytes(text)
      ensures IsBoundary(text, bytes[i].start) && IsBoundary(text, bytes[i].end)
    {
      assert spans[i] in multiset(spans);
      ByteSpan(text, spans[i]);
    }
    forall i, j | 0 <= i < j < |bytes|
      ensures bytes[i].start <= bytes[j].start
    {
      OffsetsOrdered(text, spans[i].start, spans[j].start);
    }
  }

  lemma StyledLineWellFormed(text: string, style: Style)
    ensures WellFormed(StyledLine(text, style)) && Disjoint(StyledLine(text, style))
  {
    if text != "" {
      OffsetsIncrease(text, 0, |text|);
      assert text[..|text|] == text && text[..0] == "";
      assert IsBoundary(text, 0) && IsBoundary(text, Bytes(text));
    }
  }

  lemma ChainMembers(spans: seq<Span>, lo: nat, hi: nat)
    requires Chain(spans, lo, hi)
    ensures forall x | x in spans :: lo <= x.start < x.end <= hi
  {
    forall x | x in spans
      ensures lo <= x.start < x.end <= hi
    {
      var i :| 0 <= i < |spans| && spans[i] == x;
      ChainWithin(spans, lo, hi, i);
    }
  }

  /** A table row carries its borders and its inline spans, all of them, in order of start. */
  lemma TableRowSpans(alnum: char -> bool, text: string, indent: nat)
    requires indent <= |text|
    ensures WellFormed(Line(text, AllToBytes(text, TableSpans(alnum, text, indent))))
    ensures multiset(TableSpans(alnum, text, indent))
         == multiset(Borders(text, indent)) + multiset(Scan(alnum, text, indent))
  {
    var borders, inline := Borders(text, indent), Scan(alnum, text, indent);
    BordersChain(text, indent);
    ChainMembers(borders, indent, |text|);
    ScanChain(alnum, text, indent);
    ChainMembers(inline, indent, |text|);
    SortOrders(borders + inline);
    forall x | x in multiset(SortByStart(borders + inline))
      ensures x.start < x.end <= |text|
    {
      assert x in borders + inline;
    }
    TableInBytes(text, SortByStart(borders + inline));
  }

  lemma MarkedChain(alnum: char -> bool, text: string, indent: nat, content: nat)
    requires indent <= content <= |text|
    ensures Chain(ItemSpans(alnum, text, indent, content), 0, |text|)
  {
    ScanChain(alnum, text, content);
    PrependSpan(if content > indent then [Span(indent, content, ListMarker)] else [],
                Scan(alnum, text, content), 0, content, |text|);
  }

  lemma ItemWellFormed(alnum: char -> bool, text: string, indent: nat, content: nat)
    requires indent <= content <= |text|
    ensures var line := Line(text, AllToBytes(text, ItemSpans(alnum, text, indent, content)));
            WellFormed(line) && Disjoint(line)
  {
    MarkedChain(alnum, text, indent, content);
    ChainInBytes(text, ItemSpans(alnum, text, indent, content), 0);
  }

  lemma RowContent(alnum: char -> bool, text: string)
    requires StartsRow(text)
    ensures WellFormed(Line(text, AllToBytes(text, LineSpans(alnum, text))))
  {
    TableRowSpans(alnum, text, Run(text, 0, ' '));
  }

  lemma OtherContent(alnum: char -> bool, text: string)
    requires !StartsRow(text)
    ensures WellFormed(Line(text, AllToBytes(text, LineSpans(alnum, text))))
    ensures Disjoint(Line(text, AllToBytes(text, LineSpans(alnum, text))))
  {
    ItemWellFormed(alnum, text, Run(text, 0, ' '), ContentStart(text));
  }

  lemma ContentWellFormed(alnum: char -> bool, text: string)
    ensures WellFormed(Line(text, AllToBytes(text, LineSpans(alnum, text))))
    ensures StartsRow(text) || Disjoint(Line(text, AllToBytes(text, LineSpans(alnum, text))))
  {
    if StartsRow(text) {
      RowContent(alnum, text);
    } else {
      OtherContent(alnum, text);
    }
  }

  /** Every line, in any fence state: its text is kept, its spans are non-empty,
      in bounds, on character boundaries and in order, and they never overlap
      unless the line is a table row. */
  lemma LineIsWellFormed(alnum: char -> bool, text: string, fence: Option<Fence>)
    ensures var line := StyleLine(alnum, text, fence).line;
            line.text == text && WellFormed(line) && (!IsTableRow(text, fence) ==> Disjoint(line))
  {
    var line := StyleLine(alnum, text, fence).line;
    var body := text[Run(text, 0, ' ')..];
    if fence.None? && !OpensFence(body) && BlockStyle(body).None? {
      ContentWellFormed(alnum, text);
    } else {
      var style :| line == StyledLine(text, style);
      StyledLineWellFormed(text, style);
    }
  }

  /* ---- Code spans (section 6.1 of CommonMark 0.30) ---- */

  /** A run of exactly `n` backticks at `p`, neither preceded nor followed by another. */
  ghost predicate MaximalRun(s: string, p: nat, n: nat) {
    && 0 < n && p + n <= |s|
    && (forall k :: p <= k < p + n ==> s[k] == '`')
    && (p == 0 || s[p - 1] != '`')
    && (p + n == |s| || s[p + n] != '`')
  }

  /** Position `i` does not cut a run of backticks in two. */
  ghost predicate NoSplit(s: string, i: nat) {
    i == 0 || i >= |s| || s[i - 1] != '`' || s[i] != '`'
  }

  /** No run of `n` starts in `[a, b)`. */
  ghost predicate NoRunIn(text: string, a: nat, b: nat, n: nat) {
    forall q :: a <= q < b ==> !MaximalRun(text, q, n)
  }

  lemma RunAtIsMaximal(s: string, p: nat, n: nat)
    requires p < |s| && s[p] == '`' && NoSplit(s, p)
    ensures var run := Run(s, p, '`');
            MaximalRun(s, p, run) && NoSplit(s, p + run) && NoRunIn(s, p + 1, p + run, n)
  {
    forall q | p < q < p + Run(s, p, '`')
      ensures !MaximalRun(s, q, n)
    {
      assert s[q - 1] == '`';
    }
  }

  lemma RunLengthUnique(text: string, p: nat, n: nat, m: nat)
    requires MaximalRun(text, p, n) && MaximalRun(text, p, m)
    ensures n == m
  {
    assert n < m ==> p <= p + n < p + m;
    assert m < n ==> p <= p + m < p + n;
  }

  lemma RunSkipped(s: string, n: nat, offset: nat)
    requires offset < |s| && s[offset] == '`' && NoSplit(s, offset) && Run(s, offset, '`') != n
    ensures NoRunIn(s, offset, offset + Run(s, offset, '`'), n)
  {
    RunAtIsMaximal(s, offset, n);
    if MaximalRun(s, offset, n) { RunLengthUnique(s, offset, n, Run(s, offset, '`')); }
  }

  lemma NoRunJoin(s: string, a: nat, m: nat, b: nat, n: nat)
    requires NoRunIn(s, a, m, n) && NoRunIn(s, m, b, n)
    ensures NoRunIn(s, a, b, n)
  {
  }

  lemma NoRunAtText(s: string, offset: nat, n: nat)
    requires 0 < n && offset < |s| && s[offset] != '`'
    ensures NoRunIn(s, offset, offset + 1, n)
  {
  }

  lemma {:induction false} FirstRun(s: string, n: nat, offset: nat)
    requires 0 < n && offset <= |s| && NoSplit(s, offset)
    ensures var r := BacktickRun(s, n, offset);
            && (r.Some? ==> MaximalRun(s, r.value, n))
            && NoRunIn(s, offset, if r.Some? then r.value else |s|, n)
    decreases |s| - offset
  {
    if offset < |s| {
      var r := BacktickRun(s, n, offset);
      var end := if r.Some? then r.value else |s|;
      if s[offset] == '`' {
        var run := Run(s, offset, '`');
        RunAtIsMaximal(s, offset, n);
        if run != n {
          FirstRun(s, n, offset + run);
          RunSkipped(s, n, offset);
          NoRunJoin(s, offset, offset + run, end, n);
        }
      } else {
        FirstRun(s, n, offset + 1);
        NoRunAtText(s, offset, n);
        NoRunJoin(s, offset, offset + 1, end, n);
      }
    }
  }

  /** The opener at `index` closes at the first later run of its own length, and
      stays open only when there is none. */
  lemma BacktickTokenMeaning(text: string, index: nat)
    requires index < |text| && text[index] == '`' && NoSplit(text, index)
    ensures var token, n := BacktickToken(text, index), Run(text, index, '`');
            && MaximalRun(text, index, n)
            && (token.style.Some? ==>
                  && index + n < token.next - n
                  && MaximalRun(text, token.next - n, n)
                  && NoRunIn(text, index + 1, token.next - n, n))
            && (token.style.None? ==> token.next == index + n && NoRunIn(text, index + 1, |text|, n))
            && NoSplit(text, token.next)
  {
    var n := Run(text, index, '`');
    RunAtIsMaximal(text, index, n);
    FirstRun(text, n, index + n);
    assert NoRunIn(text, index + 1, index + n, n);
  }

  lemma TokenNoSplit(alnum: char -> bool, text: string, index: nat)
    requires index < |text| && NoSplit(text, index)
    ensures NoSplit(text, TokenAt(alnum, text, index).next)
  {
    if text[index] == '`' {
      BacktickTokenMeaning(text, index);
    } else if text[index] in {'*', '_'} {
      EmphasisTokenMeaning(alnum, text, index);
    } else if text[index] == '[' {
      LinkTokenMeaning(text, index);
    }
  }

  ghost predicate Inside(spans: seq<Span>, p: nat) {
    exists s :: s in spans && s.start < p < s.end
  }

  ghost predicate OpensAt(spans: seq<Span>, p: nat) {
    exists s :: s in spans && s.start == p && s.style == CodeSpan
  }

  ghost predicate HasLaterRun(text: string, p: nat, n: nat) {
    exists q :: p < q && MaximalRun(text, q, n)
  }

  /** `s` runs from a run of `n` to the first later run of `n`. */
  ghost predicate ClosesAtFirst(text: string, s: Span, n: nat) {
    && s.style == CodeSpan && s.start + n < s.end - n
    && MaximalRun(text, s.end - n, n) && NoRunIn(text, s.start + 1, s.end - n, n)
  }

  lemma OpenerAt(alnum: char -> bool, text: string, p: nat, n: nat)
    requires p < |text| && NoSplit(text, p) && MaximalRun(text, p, n)
    ensures var token := TokenAt(alnum, text, p);
            && (token.style.Some? <==> HasLaterRun(text, p, n))
            && (token.style.Some? ==> ClosesAtFirst(text, Span(p, token.next, token.style.value), n))
  {
    BacktickTokenMeaning(text, p);
    RunLengthUnique(text, p, n, Run(text, p, '`'));
    assert forall q :: q >= |text| ==> !MaximalRun(text, q, n);
  }

  /** The code-span rule: a maximal run of `n` backticks that no earlier span has
      swallowed opens a code span if and only if another maximal run of `n`
      follows, and the span then ends with the first such run. */
  lemma {:induction false} CodeSpanRule(alnum: char -> bool, text: string, from: nat, p: nat, n: nat)
    requires from <= p && from <= |text| && NoSplit(text, from)
    requires MaximalRun(text, p, n) && !Inside(Scan(alnum, text, from), p)
    ensures OpensAt(Scan(alnum, text, from), p) <==> HasLaterRun(text, p, n)
    ensures forall s | s in Scan(alnum, text, from) && s.start == p :: ClosesAtFirst(text, s, n)
    decreases |text| - from
  {
    var token := TokenAt(alnum, text, from);
    var here, later := Emitted(token, from), Scan(alnum, text, token.next);
    assert Scan(alnum, text, from) == here + later;
    if from == p {
      OpenerAt(alnum, text, p, n);
      LaterStarts(alnum, text, token.next);
      if token.style.Some? {
        assert here[0] in here + later;
      }
    } else {
      TokenSkipsNoRun(alnum, text, from, p, n);
      NotInsideEither(here, later, p);
      assert token.style.Some? ==> Span(from, token.next, token.style.value) in here;
      TokenNoSplit(alnum, text, from);
      CodeSpanRule(alnum, text, token.next, p, n);
      OpensInLater(here, later, p);
    }
  }

  lemma NotInsideEither(here: seq<Span>, later: seq<Span>, p: nat)
    requires !Inside(here + later, p)
    ensures !Inside(here, p) && !Inside(later, p)
  {
    forall s | s in here || s in later
      ensures !(s.start < p < s.end)
    {
      assert s in here + later;
    }
  }

  lemma LaterStarts(alnum: char -> bool, text: string, from: nat)
    requires from <= |text|
    ensures forall s | s in Scan(alnum, text, from) :: from <= s.start
  {
    ScanChain(alnum, text, from);
    ChainMembers(Scan(alnum, text, from), from, |text|);
  }

  lemma OpensInLater(here: seq<Span>, later: seq<Span>, p: nat)
    requires forall s | s in here :: s.start != p
    ensures OpensAt(here + later, p) <==> OpensAt(later, p)
  {
    if OpensAt(later, p) {
      var s :| s in later && s.start == p && s.style == CodeSpan;
      assert s in here + later;
    }
  }

  lemma TokenSkipsNoRun(alnum: char -> bool, text: string, index: nat, p: nat, n: nat)
    requires index < p && index < |text| && NoSplit(text, index) && MaximalRun(text, p, n)
    ensures TokenAt(alnum, text, index).style.None? ==> TokenAt(alnum, text, index).next <= p
  {
    if text[index] == '`' {
      RunAtIsMaximal(text, index, n);
    } else if text[index] in {'*', '_'} {
      assert text[p] == '`';
    }
  }

  /** Code spans do not take precedence here: emphasis that starts first swallows
      an opener that CommonMark would have honoured. */
  lemma EmphasisSwallowsCode(alnum: char -> bool)
    ensures var text := "*`*`";
            MaximalRun(text, 1, 1) && HasLaterRun(text, 1, 1)
            && !OpensAt(Scan(alnum, text, 0), 1) && Inside(Scan(alnum, text, 0), 1)
  {
    var text := "*`*`";
    assert MaximalRun(text, 3, 1);
    EmphasisOverBacktick(alnum);
    var spans := Scan(alnum, text, 0);
    assert spans == [Span(0, 3, Emphasis)] + Scan(alnum, text, 3);
    assert spans[0] in spans;
    LaterStarts(alnum, text, 3);
  }

  lemma EmphasisOverBacktick(alnum: char -> bool)
    ensures TokenAt(alnum, "*`*`", 0) == Token(Some(Emphasis), 3)
  {
    var text := "*`*`";
    assert Run(text, 0, '*') == 1;
    assert Find(text, "*", 1) == Find(text, "*", 2) == Some(2);
    assert EmphasisClose(alnum, text, 1, "*", false, 1) == Some(2);
  }

  /* ---- Emphasis and links ---- */

  /** Delimited by `d` on both sides, with content that neither starts nor ends with a space. */
  ghost predicate Delimited(text: string, start: nat, end: nat, d: string)
    requires 1 <= |d| <= 2
  {
    && start + 2 * |d| < end <= |text|
    && Occurs(text, d, start) && Occurs(text, d, end - |d|)
    && text[start + |d|] != ' ' && text[end - |d| - 1] != ' '
    && (end < |text| ==> text[end] != d[0])
  }

  ghost predicate WordBounded(alnum: char -> bool, text: string, start: nat, end: nat)
    requires start <= end <= |text|
  {
    (0 < start ==> !alnum(text[start - 1])) && (end < |text| ==> !alnum(text[end]))
  }

  /** Strong and emphasised text is enclosed in equal delimiters, `_` only at word bounds. */
  lemma EmphasisTokenMeaning(alnum: char -> bool, text: string, index: nat)
    requires index < |text| && text[index] in {'*', '_'}
    ensures var token, d := EmphasisToken(alnum, text, index), Delimiter(text, index);
            token.style.Some? ==>
              && token.style.value == (if |d| == 2 then Strong else Emphasis)
              && Delimited(text, index, token.next, d)
              && (text[index] == '_' ==> WordBounded(alnum, text, index, token.next))
    ensures NoSplit(text, EmphasisToken(alnum, text, index).next)
  {
  }

  /** `[text](target)` with a non-empty text free of `[` and a non-empty target free of spaces. */
  ghost predicate LinkBetween(text: string, start: nat, close: nat, end: nat) {
    && start + 1 < close && close + 2 < end - 1 && end <= |text|
    && text[close] == ']' && text[close + 1] == '(' && text[end - 1] == ')'
    && Free(text, start + 1, close, '[') && Free(text, close + 2, end - 1, ' ')
  }

  lemma LinkTokenMeaning(text: string, index: nat)
    requires index < |text| && text[index] == '['
    ensures var token := LinkToken(text, index);
            token.style.Some? ==>
              token.style.value == Link && exists close :: LinkBetween(text, index, close, token.next)
    ensures NoSplit(text, LinkToken(text, index).next)
  {
    var token := LinkToken(text, index);
    if token.style.Some? {
      assert LinkBetween(text, index, Find(text, "](", index).value, token.next);
    }
  }
}
