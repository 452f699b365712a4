/** Line-local Markdown styling. The functions are the meaning of the styler,
    in character positions; the methods are the styler itself, whose loops work
    in byte offsets, and each is proved to compute its function's value.

    `alnum` stands for the Unicode alphanumeric class, which is left arbitrary. */
module Markdown {
  import opened Options
  import opened Utf8

  datatype Style =
    | LabelAssistant | LabelSystem | MessageUser | Streaming
    | Heading | CodeFence | Code | CodeSpan | Strong | Emphasis
    | ListMarker | Quote | Link | Rule | TableBorder

  /** Half-open range. */
  datatype Span = Span(start: nat, end: nat, style: Style)

  datatype Line = Line(text: string, spans: seq<Span>)

  datatype Fence = Fence(marker: char, length: nat)

  function PlainLine(text: string): Line { Line(text, []) }

  function StyledLine(text: string, style: Style): Line {
    Line(text, if text == "" then [] else [Span(0, Bytes(text), style)])
  }

  /* ---- From character positions to byte offsets ---- */

  function ByteAt(text: string, i: nat): nat {
    if i <= |text| then Bytes(text[..i]) else Bytes(text)
  }

  function ToBytes(text: string, span: Span): Span {
    Span(ByteAt(text, span.start), ByteAt(text, span.end), span.style)
  }

  function AllToBytes(text: string, spans: seq<Span>): (r: seq<Span>)
    ensures |r| == |spans|
    ensures forall i :: 0 <= i < |r| ==> r[i] == ToBytes(text, spans[i])
  {
    seq(|spans|, i requires 0 <= i < |spans| => ToBytes(text, spans[i]))
  }

  lemma AllToBytesConcat(text: string, a: seq<Span>, b: seq<Span>)
    ensures AllToBytes(text, a + b) == AllToBytes(text, a) + AllToBytes(text, b)
  {
  }

  /* ---- Scanning primitives ----
     A slice of the line is given by the position it starts at. */

  /** Length of the run of `c` at position `i`. */
  function Run(s: string, i: nat, c: char): (n: nat)
    requires i <= |s|
    ensures i + n <= |s|
    ensures forall k :: i <= k < i + n ==> s[k] == c
    ensures i + n < |s| ==> s[i + n] != c
    decreases |s| - i
  {
    if i == |s| || s[i] != c then 0 else 1 + Run(s, i + 1, c)
  }

  /** The one- or two-character string `d` stands at position `p`. */
  predicate Occurs(s: string, d: string, p: nat)
    requires 1 <= |d| <= 2
  {
    p + |d| <= |s| && s[p] == d[0] && (|d| == 2 ==> s[p + 1] == d[1])
  }

  /** First occurrence of `d` at or after `from`. */
  function Find(s: string, d: string, from: nat): (r: Option<nat>)
    requires 1 <= |d| <= 2 && from <= |s|
    ensures r.Some? ==> from <= r.value && Occurs(s, d, r.value)
    ensures forall p :: from <= p < (if r.Some? then r.value else |s|) ==> !Occurs(s, d, p)
    decreases |s| - from
  {
    if from + |d| > |s| then None
    else if Occurs(s, d, from) then Some(from)
    else Find(s, d, from + 1)
  }

  /** First run of exactly `length` backticks at or after `offset`. */
  function BacktickRun(s: string, length: nat, offset: nat): (r: Option<nat>)
    requires 0 < length && offset <= |s|
    ensures r.Some? ==> offset <= r.value && r.value + length <= |s|
    decreases |s| - offset
  {
    if offset == |s| then None
    else if s[offset] == '`' then
      var run := Run(s, offset, '`');
      if run == length then Some(offset) else BacktickRun(s, length, offset + run)
    else BacktickRun(s, length, offset + 1)
  }

  /** Whether the delimiter at `at` may close an emphasis whose content begins at `start`. */
  predicate Closes(alnum: char -> bool, s: string, start: nat, d: string, wordBound: bool, at: nat)
    requires d != "" && start <= at && at + |d| <= |s|
  {
    var after := at + |d|;
    && start < at && s[at - 1] != ' '
    && !(after < |s| && s[after] == d[0])
    && !(wordBound && after < |s| && alnum(s[after]))
  }

  /** First closing delimiter, trying the non-overlapping occurrences from `search` on. */
  function EmphasisClose(alnum: char -> bool, s: string, start: nat, d: string, wordBound: bool, search: nat)
      : (r: Option<nat>)
    requires 1 <= |d| <= 2 && start <= search <= |s|
    ensures r.Some? ==> search <= r.value && Occurs(s, d, r.value) && Closes(alnum, s, start, d, wordBound, r.value)
    decreases |s| - search
  {
    match Find(s, d, search)
    case None => None
    case Some(at) =>
      if Closes(alnum, s, start, d, wordBound, at) then Some(at)
      else EmphasisClose(alnum, s, start, d, wordBound, at + |d|)
  }

  /** End of the emphasis opened by the delimiter `d` at `index`. */
  function EmphasisEnd(alnum: char -> bool, s: string, index: nat, d: string, wordBound: bool): (r: Option<nat>)
    requires 1 <= |d| <= 2 && index + |d| <= |s|
    ensures r.Some? ==> index + 2 * |d| < r.value <= |s|
  {
    var start := index + |d|;
    if start == |s| || s[start] == ' ' then None
    else
      match EmphasisClose(alnum, s, start, d, wordBound, start)
      case None => None
      case Some(at) => Some(at + |d|)
  }

  predicate Free(s: string, lo: nat, hi: nat, c: char)
    requires hi <= |s|
  {
    forall k | lo <= k < hi :: s[k] != c
  }

  /** End of the `[text](target)` link that starts at `index`. */
  function LinkEnd(s: string, index: nat): (r: Option<nat>)
    requires index < |s| && s[index] == '['
    ensures r.Some? ==> index + 5 < r.value <= |s|
  {
    match Find(s, "](", index)
    case None => None
    case Some(close) =>
      if close == index + 1 || !Free(s, index + 1, close, '[') then None
      else
        var target := close + 2;
        match Find(s, ")", target)
        case None => None
        case Some(end) => if end == target || !Free(s, target, end, ' ') then None else Some(end + 1)
  }

  predicate LeftOk(alnum: char -> bool, s: string, index: nat, wordBound: bool)
    requires index <= |s|
  {
    !wordBound || index == 0 || !alnum(s[index - 1])
  }

  /** What the scanner does at one position: perhaps a span, then on to `next`. */
  datatype Token = Token(style: Option<Style>, next: nat)

  function BacktickToken(text: string, index: nat): (t: Token)
    requires index < |text| && text[index] == '`'
    ensures index < t.next <= |text|
  {
    var run := Run(text, index, '`');
    match BacktickRun(text, run, index + run)
    case Some(close) => Token(Some(CodeSpan), close + run)
    case None => Token(None, index + run)
  }

  /** One or two delimiter characters, as many as there are. */
  function Delimiter(text: string, index: nat): (d: string)
    requires index < |text|
    ensures 1 <= |d| <= 2 && Occurs(text, d, index)
    ensures d[0] == d[|d| - 1] == text[index]
  {
    if Run(text, index, text[index]) >= 2 then [text[index], text[index]] else [text[index]]
  }

  function EmphasisToken(alnum: char -> bool, text: string, index: nat): (t: Token)
    requires index < |text| && text[index] in {'*', '_'}
    ensures index < t.next <= |text|
  {
    var d, wordBound := Delimiter(text, index), text[index] == '_';
    var end := if LeftOk(alnum, text, index, wordBound)
               then EmphasisEnd(alnum, text, index, d, wordBound) else None;
    match end
    case Some(next) => Token(Some(if |d| == 2 then Strong else Emphasis), next)
    case None => Token(None, index + |d|)
  }

  function LinkToken(text: string, index: nat): (t: Token)
    requires index < |text| && text[index] == '['
    ensures index < t.next <= |text|
  {
    match LinkEnd(text, index)
    case Some(next) => Token(Some(Link), next)
    case None => Token(None, index + 1)
  }

  function TokenAt(alnum: char -> bool, text: string, index: nat): (t: Token)
    requires index < |text|
    ensures index < t.next <= |text|
  {
    if text[index] == '`' then BacktickToken(text, index)
    else if text[index] in {'*', '_'} then EmphasisToken(alnum, text, index)
    else if text[index] == '[' then LinkToken(text, index)
    else Token(None, index + 1)
  }

  function Emitted(token: Token, index: nat): seq<Span> {
    if token.style.Some? then [Span(index, token.next, token.style.value)] else []
  }

  /** Inline spans of `text` from character `index` on. */
  function Scan(alnum: char -> bool, text: string, index: nat): seq<Span>
    requires index <= |text|
    decreases |text| - index
  {
    if index == |text| then []
    else
      var token := TokenAt(alnum, text, index);
      Emitted(token, index) + Scan(alnum, text, token.next)
  }

  /* ---- Block classification ---- */

  /** Unicode White_Space, what `trim` removes. */
  predicate IsWhitespace(c: char) {
    var v := c as int;
    || 0x9 <= v <= 0xD || v == 0x20 || v == 0x85 || v == 0xA0 || v == 0x1680
    || 0x2000 <= v <= 0x200A || v == 0x2028 || v == 0x2029 || v == 0x202F || v == 0x205F || v == 0x3000
  }

  predicate Blank(s: string) { forall c | c in s :: IsWhitespace(c) }

  function FenceRun(body: string): (r: Option<Fence>)
    ensures r.Some? ==> 3 <= r.value.length <= |body| && r.value.marker in {'`', '~'}
  {
    if body == "" || body[0] !in {'`', '~'} then None
    else
      var length := Run(body, 0, body[0]);
      if length >= 3 then Some(Fence(body[0], length)) else None
  }

  predicate IsHeading(body: string) {
    var hashes := Run(body, 0, '#');
    1 <= hashes <= 6 && (hashes == |body| || body[hashes] == ' ')
  }

  const RULE_MARKERS: set<char> := {'-', '*', '_'}
  const RULE_BLANKS: set<char> := {' ', '\t'}

  function Count(s: string, cs: set<char>): nat {
    if s == "" then 0 else (if s[0] in cs then 1 else 0) + Count(s[1..], cs)
  }

  /** At least three markers, all the same, and nothing else but blanks. */
  predicate IsRule(body: string) {
    && (forall c | c in body :: c in RULE_MARKERS || c in RULE_BLANKS)
    && (forall c, d | c in body && d in body && c in RULE_MARKERS && d in RULE_MARKERS :: c == d)
    && Count(body, RULE_MARKERS) >= 3
  }

  predicate IsTableSeparator(body: string) {
    (forall c | c in body :: c in {'|', ':', ' ', '-'}) && Count(body, {'-'}) >= 3
  }

  predicate IsDigit(c: char) { '0' <= c <= '9' }

  function Digits(body: string): (n: nat)
    ensures n <= |body| && forall k :: 0 <= k < n ==> IsDigit(body[k])
  {
    if body == "" || !IsDigit(body[0]) then 0 else 1 + Digits(body[1..])
  }

  /** Length of the list marker `body` starts with, its space included. */
  function MarkerLength(body: string): (n: nat)
    ensures n <= |body|
  {
    if |body| >= 2 && body[0] in {'-', '*', '+'} && body[1] == ' ' then 2
    else
      var digits := Digits(body);
      if 1 <= digits <= 9 && |body| > digits + 1 && body[digits] in {'.', ')'} && body[digits + 1] == ' '
      then digits + 2
      else 0
  }

  /** One span for every column border of a table row. */
  function Borders(text: string, i: nat): seq<Span>
    requires i <= |text|
    decreases |text| - i
  {
    if i == |text| then []
    else (if text[i] == '|' then [Span(i, i + 1, TableBorder)] else []) + Borders(text, i + 1)
  }

  /** Stable ordering by start. */
  function Insert(x: Span, ys: seq<Span>): seq<Span> {
    if ys == [] || x.start <= ys[0].start then [x] + ys else [ys[0]] + Insert(x, ys[1..])
  }

  function SortByStart(xs: seq<Span>): seq<Span> {
    if xs == [] then [] else Insert(xs[0], SortByStart(xs[1..]))
  }

  datatype Styled = Styled(line: Line, fence: Option<Fence>)

  predicate ClosesFence(body: string, open: Fence) {
    var run := FenceRun(body);
    run.Some? && run.value.marker == open.marker && run.value.length >= open.length
    && Blank(body[run.value.length..])
  }

  predicate OpensFence(body: string) {
    var run := FenceRun(body);
    run.Some? && (run.value.marker == '~' || '`' !in body[run.value.length..])
  }

  /** A line outside fenced code, in character positions; `None` styles the whole line. */
  function BlockStyle(body: string): Option<Style> {
    if IsHeading(body) then Some(Heading)
    else if IsRule(body) then Some(Rule)
    else if body != "" && body[0] == '>' then Some(Quote)
    else if body != "" && body[0] == '|' && IsTableSeparator(body) then Some(TableBorder)
    else None
  }

  function TableSpans(alnum: char -> bool, text: string, indent: nat): seq<Span>
    requires indent <= |text|
  {
    SortByStart(Borders(text, indent) + Scan(alnum, text, indent))
  }

  function ItemSpans(alnum: char -> bool, text: string, indent: nat, content: nat): seq<Span>
    requires indent <= content <= |text|
  {
    (if content > indent then [Span(indent, content, ListMarker)] else []) + Scan(alnum, text, content)
  }

  /** Spans, in character positions, of a line that is neither fenced nor a block of one style. */
  function LineSpans(alnum: char -> bool, text: string): seq<Span> {
    if StartsRow(text) then TableSpans(alnum, text, Run(text, 0, ' '))
    else ItemSpans(alnum, text, Run(text, 0, ' '), ContentStart(text))
  }

  predicate StartsRow(text: string) {
    var indent := Run(text, 0, ' ');
    indent < |text| && text[indent] == '|'
  }

  /** Where the inline content of a line starts. */
  function ContentStart(text: string): (start: nat)
    ensures Run(text, 0, ' ') <= start <= |text|
  {
    var indent := Run(text, 0, ' ');
    if StartsRow(text) then indent else indent + MarkerLength(text[indent..])
  }

  function StyleLine(alnum: char -> bool, text: string, fence: Option<Fence>): Styled {
    var body := text[Run(text, 0, ' ')..];
    if fence.Some? then
      if ClosesFence(body, fence.value) then Styled(StyledLine(text, CodeFence), None)
      else Styled(StyledLine(text, Code), fence)
    else if OpensFence(body) then Styled(StyledLine(text, CodeFence), FenceRun(body))
    else
      match BlockStyle(body)
      case Some(style) => Styled(StyledLine(text, style), None)
      case None => Styled(Line(text, AllToBytes(text, LineSpans(alnum, text))), None)
  }

  /** Styles each line with `step`, carrying only the fence from one line to the next. */
  function Fold(step: (string, Option<Fence>) -> Styled, texts: seq<string>, fence: Option<Fence>): (r: seq<Line>)
    ensures |r| == |texts|
  {
    if texts == [] then []
    else
      var first := step(texts[0], fence);
      [first.line] + Fold(step, texts[1..], first.fence)
  }

  function FoldFence(step: (string, Option<Fence>) -> Styled, texts: seq<string>, fence: Option<Fence>): Option<Fence> {
    if texts == [] then fence else FoldFence(step, texts[1..], step(texts[0], fence).fence)
  }

  lemma {:induction false} FoldConcat(
      step: (string, Option<Fence>) -> Styled, a: seq<string>, b: seq<string>, fence: Option<Fence>)
    ensures Fold(step, a + b, fence) == Fold(step, a, fence) + Fold(step, b, FoldFence(step, a, fence))
  {
    if a == [] {
      assert a + b == b;
    } else {
      var first := step(a[0], fence);
      FoldConcat(step, a[1..], b, first.fence);
      assert (a + b)[1..] == a[1..] + b && (a + b)[0] == a[0];
      assert FoldFence(step, a, fence) == FoldFence(step, a[1..], first.fence);
    }
  }

  function Stepper(alnum: char -> bool): (string, Option<Fence>) -> Styled {
    (text: string, fence: Option<Fence>) => StyleLine(alnum, text, fence)
  }

  function StyleLines(alnum: char -> bool, texts: seq<string>): (r: seq<Line>)
    ensures |r| == |texts|
  {
    Fold(Stepper(alnum), texts, None)
  }
}
