/** What the lines of a text are: fenced code, headings, rules, quotes, tables and lists, told by their characters. */
module Blocks {
  import opened Options
  import opened Utf8
  import opened Markdown
  import MarkdownTheorems

  /* ---- Lines ---- */

  /** The line starts with `i` spaces. */
  predicate Indented(text: string, i: nat) {
    i <= |text| && forall k :: 0 <= k < i ==> text[k] == ' '
  }

  predicate Repeats(text: string, i: nat, n: nat, c: char) {
    i + n <= |text| && forall k :: i <= k < i + n ==> text[k] == c
  }

  /** Three or more of a marker, all there are; after backticks, none follow. */
  predicate OpensAt(text: string, i: nat, open: Fence) {
    var end := i + open.length;
    && Indented(text, i) && open.marker in {'`', '~'} && open.length >= 3
    && Repeats(text, i, open.length, open.marker)
    && (end < |text| ==> text[end] != open.marker)
    && (open.marker == '`' ==> forall k :: end <= k < |text| ==> text[k] != '`')
  }

  ghost predicate Opens(text: string, open: Fence) {
    exists i :: OpensAt(text, i, open)
  }

  /** `m` of the marker, and then only white space. */
  predicate ClosesAt(text: string, i: nat, m: nat, marker: char) {
    Indented(text, i) && Repeats(text, i, m, marker) && forall k :: i + m <= k < |text| ==> IsWhitespace(text[k])
  }

  ghost predicate Closes(text: string, open: Fence) {
    exists i, m :: m >= open.length && ClosesAt(text, i, m, open.marker)
  }

  predicate IsFence(open: Fence) {
    open.marker in {'`', '~'} && open.length >= 3
  }

  lemma IndentIs(text: string, i: nat)
    requires Indented(text, i) && (i < |text| ==> text[i] != ' ')
    ensures Run(text, 0, ' ') == i
  {
  }

  lemma RunIs(text: string, i: nat, n: nat, c: char)
    requires Repeats(text, i, n, c) && (i + n < |text| ==> text[i + n] != c)
    ensures Run(text[i..], 0, c) == n
  {
    assert forall k :: 0 <= k < |text[i..]| ==> text[i..][k] == text[i + k];
  }

  /** The run at the first character that is no space. */
  lemma RunRepeats(text: string, c: char)
    ensures var i := Run(text, 0, ' '); var n := Run(text[i..], 0, c);
      Indented(text, i) && Repeats(text, i, n, c) && (i + n < |text| ==> text[i + n] != c)
  {
    var i := Run(text, 0, ' ');
    var body := text[i..];
    var n := Run(body, 0, c);
    forall k | i <= k < i + n ensures text[k] == c { assert body[k - i] == text[k]; }
    if i + n < |text| { assert body[n] == text[i + n]; }
  }

  lemma OpensIs(text: string, i: nat, open: Fence)
    requires OpensAt(text, i, open)
    ensures var body := text[Run(text, 0, ' ')..]; OpensFence(body) && FenceRun(body) == Some(open)
  {
    IndentIs(text, i);
    RunIs(text, i, open.length, open.marker);
    var body := text[i..];
    assert body[0] == text[i];
    assert forall k :: 0 <= k < |body[open.length..]| ==> body[open.length..][k] == text[i + open.length + k];
  }

  lemma OpensWhen(text: string)
    requires OpensFence(text[Run(text, 0, ' ')..])
    ensures Opens(text, FenceRun(text[Run(text, 0, ' ')..]).value)
  {
    var i := Run(text, 0, ' ');
    var body := text[i..];
    var open := FenceRun(body).value;
    RunRepeats(text, open.marker);
    assert forall k :: i + open.length <= k < |text| ==> text[k] == body[open.length..][k - i - open.length];
    assert OpensAt(text, i, open);
  }

  lemma ClosesIs(text: string, i: nat, m: nat, open: Fence)
    requires IsFence(open) && m >= open.length && ClosesAt(text, i, m, open.marker)
    ensures ClosesFence(text[Run(text, 0, ' ')..], open)
  {
    IndentIs(text, i);
    RunIs(text, i, m, open.marker);
    var body := text[i..];
    assert body[0] == text[i];
    assert forall k :: 0 <= k < |body[m..]| ==> body[m..][k] == text[i + m + k];
  }

  lemma ClosesIff(text: string, open: Fence)
    requires IsFence(open)
    ensures ClosesFence(text[Run(text, 0, ' ')..], open) <==> Closes(text, open)
  {
    var i := Run(text, 0, ' ');
    var body := text[i..];
    if ClosesFence(body, open) {
      var m := FenceRun(body).value.length;
      RunRepeats(text, open.marker);
      assert forall k :: i + m <= k < |text| ==> text[k] == body[m..][k - i - m];
      assert ClosesAt(text, i, m, open.marker);
    }
    if Closes(text, open) {
      var p: nat, m: nat :| m >= open.length && ClosesAt(text, p, m, open.marker);
      ClosesIs(text, p, m, open);
    }
  }

  /* ---- Fenced code ---- */

  /** Line `j` stands outside of fenced code and opens some, which no line before `k` closes. */
  ghost predicate OpenFrom(texts: seq<string>, j: nat, open: Fence, k: nat)
    requires k <= |texts|
    decreases k, 0
  {
    j < k && Outside(texts, j) && Opens(texts[j], open) && forall l :: j < l < k ==> !Closes(texts[l], open)
  }

  ghost predicate Outside(texts: seq<string>, k: nat)
    requires k <= |texts|
    decreases k, 1
  {
    forall j: nat, open :: j < k ==> !OpenFrom(texts, j, open, k)
  }

  /** The fence state that the styler carries to line `k`. */
  function Carried(alnum: char -> bool, texts: seq<string>, k: nat): Option<Fence>
    requires k <= |texts|
  {
    FoldFence(Stepper(alnum), texts[..k], None)
  }

  ghost predicate IsOpen(texts: seq<string>, open: Fence, k: nat)
    requires k <= |texts|
  {
    exists j: nat :: j < k && OpenFrom(texts, j, open, k)
  }

  lemma {:induction false} FoldFenceSnoc(step: (string, Option<Fence>) -> Styled, texts: seq<string>, text: string,
                                         fence: Option<Fence>)
    ensures FoldFence(step, texts + [text], fence) == step(text, FoldFence(step, texts, fence)).fence
  {
    if texts == [] {
      assert ([] + [text])[1..] == [];
    } else {
      assert (texts + [text])[1..] == texts[1..] + [text];
      FoldFenceSnoc(step, texts[1..], text, step(texts[0], fence).fence);
    }
  }

  lemma CarriedSnoc(alnum: char -> bool, texts: seq<string>, k: nat)
    requires k < |texts|
    ensures Carried(alnum, texts, k + 1) == StyleLine(alnum, texts[k], Carried(alnum, texts, k)).fence
  {
    assert texts[..k + 1] == texts[..k] + [texts[k]];
    FoldFenceSnoc(Stepper(alnum), texts[..k], texts[k], None);
  }

  lemma StyledAt(alnum: char -> bool, texts: seq<string>, k: nat)
    requires k < |texts|
    ensures StyleLines(alnum, texts)[k] == StyleLine(alnum, texts[k], Carried(alnum, texts, k)).line
  {
    assert texts == texts[..k] + texts[k..];
    FoldConcat(Stepper(alnum), texts[..k], texts[k..], None);
  }

  /** What was open before line `k` is open after it unless the line closes it. */
  lemma StaysOpen(texts: seq<string>, j: nat, open: Fence, k: nat)
    requires j < k < |texts|
    ensures OpenFrom(texts, j, open, k + 1) <==> OpenFrom(texts, j, open, k) && !Closes(texts[k], open)
  {
  }

  /** The state is what the characters say. */
  lemma {:induction false} CarriedIsOpen(alnum: char -> bool, texts: seq<string>, k: nat, open: Fence)
    requires k <= |texts|
    ensures Carried(alnum, texts, k) == Some(open) <==> IsOpen(texts, open, k)
    ensures Carried(alnum, texts, k) == Some(open) ==> IsFence(open)
    decreases k, 0
  {
    if k > 0 {
      var was := Carried(alnum, texts, k - 1);
      CarriedSnoc(alnum, texts, k - 1);
      if was.None? {
        OpensOnLine(alnum, texts, k - 1, open);
      } else {
        StaysOnLine(alnum, texts, k - 1, was.value, open);
      }
    }
  }

  lemma NoneIsOutside(alnum: char -> bool, texts: seq<string>, k: nat)
    requires k <= |texts|
    ensures Carried(alnum, texts, k).None? <==> Outside(texts, k)
    decreases k, 1
  {
    forall j: nat, open | j < k && OpenFrom(texts, j, open, k) ensures Carried(alnum, texts, k) == Some(open) {
      CarriedIsOpen(alnum, texts, k, open);
    }
    if Carried(alnum, texts, k).Some? {
      CarriedIsOpen(alnum, texts, k, Carried(alnum, texts, k).value);
    }
  }

  lemma OpensOnLine(alnum: char -> bool, texts: seq<string>, k: nat, open: Fence)
    requires k < |texts| && Carried(alnum, texts, k).None?
    ensures StyleLine(alnum, texts[k], None).fence == Some(open) <==> IsOpen(texts, open, k + 1)
    ensures StyleLine(alnum, texts[k], None).fence == Some(open) ==> IsFence(open)
    decreases k, 2
  {
    NoneIsOutside(alnum, texts, k);
    var body := texts[k][Run(texts[k], 0, ' ')..];
    if OpensFence(body) { OpensWhen(texts[k]); }
    if FenceRun(body) == Some(open) && OpensFence(body) { assert OpenFrom(texts, k, open, k + 1); }
    if IsOpen(texts, open, k + 1) {
      var j: nat :| j < k + 1 && OpenFrom(texts, j, open, k + 1);
      if j < k { StaysOpen(texts, j, open, k); }
      var i: nat :| OpensAt(texts[k], i, open);
      OpensIs(texts[k], i, open);
    }
  }

  lemma StaysOnLine(alnum: char -> bool, texts: seq<string>, k: nat, was: Fence, open: Fence)
    requires k < |texts| && Carried(alnum, texts, k) == Some(was)
    ensures StyleLine(alnum, texts[k], Some(was)).fence == Some(open) <==> IsOpen(texts, open, k + 1)
    ensures StyleLine(alnum, texts[k], Some(was)).fence == Some(open) ==> IsFence(open)
    decreases k, 2
  {
    CarriedIsOpen(alnum, texts, k, was);
    CarriedIsOpen(alnum, texts, k, open);
    NoneIsOutside(alnum, texts, k);
    ClosesIff(texts[k], was);
    StillOpen(texts, k, open);
  }

  lemma StillOpen(texts: seq<string>, k: nat, open: Fence)
    requires k < |texts| && !Outside(texts, k)
    ensures IsOpen(texts, open, k + 1) <==> IsOpen(texts, open, k) && !Closes(texts[k], open)
  {
    if IsOpen(texts, open, k + 1) {
      var l: nat :| l < k + 1 && OpenFrom(texts, l, open, k + 1);
      assert l < k;
      StaysOpen(texts, l, open, k);
    }
    if IsOpen(texts, open, k) {
      var j: nat :| j < k && OpenFrom(texts, j, open, k);
      StaysOpen(texts, j, open, k);
    }
  }

  /* ---- Whole lines ---- */

  ghost predicate IsHeadingLine(text: string) {
    exists i: nat, n: nat :: 1 <= n <= 6 && Indented(text, i) && Repeats(text, i, n, '#')
                             && (i + n == |text| || text[i + n] == ' ')
  }

  predicate Three(text: string, c: char, p: nat, q: nat, r: nat) {
    p < q < r < |text| && text[p] == c && text[q] == c && text[r] == c
  }

  /** At least three characters of the line are `c`. */
  ghost predicate Thrice(text: string, c: char) {
    exists p, q, r :: Three(text, c, p, q, r)
  }

  /** Three or more of one marker, and nothing else but blanks. */
  ghost predicate IsRuleLine(text: string) {
    exists c :: c in RULE_MARKERS && Thrice(text, c) && forall d | d in text :: d == c || d in RULE_BLANKS
  }

  ghost predicate StartsWith(text: string, c: char) {
    exists i: nat :: i < |text| && Indented(text, i) && text[i] == c
  }

  /** Below a table's head: a bar, and then only bars, colons and spaces and three or more dashes. */
  ghost predicate IsSeparatorLine(text: string) {
    StartsWith(text, '|') && Thrice(text, '-') && forall d | d in text :: d in {'|', ':', ' ', '-'}
  }

  lemma StartsIff(text: string, c: char)
    requires c != ' '
    ensures var i := Run(text, 0, ' '); StartsWith(text, c) <==> i < |text| && text[i] == c
  {
    if StartsWith(text, c) {
      var i: nat :| i < |text| && Indented(text, i) && text[i] == c;
      IndentIs(text, i);
    }
  }

  lemma HeadingIff(text: string)
    ensures IsHeading(text[Run(text, 0, ' ')..]) <==> IsHeadingLine(text)
  {
    var i := Run(text, 0, ' ');
    RunRepeats(text, '#');
    var hashes := Run(text[i..], 0, '#');
    if IsHeadingLine(text) {
      var p: nat, n: nat :| 1 <= n <= 6 && Indented(text, p) && Repeats(text, p, n, '#')
                            && (p + n == |text| || text[p + n] == ' ');
      IndentIs(text, p);
      RunIs(text, p, n, '#');
    }
  }

  lemma {:induction false} CountSplits(s: string, cs: set<char>, p: nat)
    requires p <= |s|
    ensures Count(s, cs) == Count(s[..p], cs) + Count(s[p..], cs)
  {
    if p == 0 {
      assert s[..0] == "" && s[0..] == s;
    } else {
      CountSplits(s[1..], cs, p - 1);
      assert s[..p][1..] == s[1..][..p - 1] && s[p..] == s[1..][p - 1..];
    }
  }

  lemma {:induction false} CountFirst(s: string, cs: set<char>) returns (p: nat)
    requires Count(s, cs) > 0
    ensures p < |s| && s[p] in cs && Count(s[p + 1..], cs) == Count(s, cs) - 1
  {
    if s[0] in cs {
      p := 0;
    } else {
      p := CountFirst(s[1..], cs);
      assert s[1..][p + 1..] == s[p + 2..];
      p := p + 1;
    }
  }

  lemma CountAt(s: string, cs: set<char>, p: nat)
    requires p < |s| && s[p] in cs
    ensures Count(s, cs) >= 1 + Count(s[p + 1..], cs)
  {
    CountSplits(s, cs, p);
    assert s[p..][1..] == s[p + 1..];
  }

  lemma CountedThrice(s: string, c: char)
    requires Count(s, {c}) >= 3
    ensures Thrice(s, c)
  {
    var p := CountFirst(s, {c});
    var q := CountFirst(s[p + 1..], {c});
    assert s[p + 1..][q + 1..] == s[p + q + 2..];
    var r := CountFirst(s[p + q + 2..], {c});
    assert Three(s, c, p, p + 1 + q, p + q + 2 + r);
  }

  lemma ThreeCounted(s: string, c: char, p: nat, q: nat, r: nat)
    requires Three(s, c, p, q, r)
    ensures Count(s, {c}) >= 3
  {
    var after := s[p + 1..];
    CountAt(s, {c}, p);
    assert after[q - p - 1] == c && after[q - p..] == s[q + 1..];
    CountAt(after, {c}, q - p - 1);
    CountAt(s[q + 1..], {c}, r - q - 1);
  }

  lemma ThriceCounts(s: string, c: char)
    ensures Thrice(s, c) <==> Count(s, {c}) >= 3
  {
    if Count(s, {c}) >= 3 { CountedThrice(s, c); }
    if Thrice(s, c) {
      var p: nat, q: nat, r: nat :| Three(s, c, p, q, r);
      ThreeCounted(s, c, p, q, r);
    }
  }

  /** The characters after the indentation are those that are not its spaces. */
  lemma ThriceInTail(text: string, i: nat, c: char)
    requires i <= |text| && forall k :: 0 <= k < i ==> text[k] != c
    ensures Thrice(text, c) <==> Thrice(text[i..], c)
  {
    if Thrice(text, c) {
      var p: nat, q: nat, r: nat :| Three(text, c, p, q, r);
      assert Three(text[i..], c, p - i, q - i, r - i);
    }
    if Thrice(text[i..], c) {
      var p: nat, q: nat, r: nat :| Three(text[i..], c, p, q, r);
      assert Three(text, c, p + i, q + i, r + i);
    }
  }

  lemma ThriceInBody(text: string, c: char)
    requires c != ' '
    ensures Thrice(text, c) <==> Thrice(text[Run(text, 0, ' ')..], c)
  {
    ThriceInTail(text, Run(text, 0, ' '), c);
  }

  lemma InBody(text: string, d: char)
    ensures d in text[Run(text, 0, ' ')..] ==> d in text
    ensures d in text ==> d == ' ' || d in text[Run(text, 0, ' ')..]
  {
    var i := Run(text, 0, ' ');
    if d in text && d != ' ' {
      var k :| 0 <= k < |text| && text[k] == d;
      assert text[i..][k - i] == d;
    }
  }

  lemma {:induction false} CountSame(s: string, c: char)
    requires c in RULE_MARKERS && forall d | d in s && d in RULE_MARKERS :: d == c
    ensures Count(s, RULE_MARKERS) == Count(s, {c})
  {
    if s != "" { CountSame(s[1..], c); }
  }

  /** The characters of the line are those of its body and perhaps spaces. */
  ghost predicate SameChars(text: string, body: string) {
    && (forall d: char {:trigger d in body} :: d in body ==> d in text)
    && (forall d: char {:trigger d in text} :: d in text ==> d == ' ' || d in body)
  }

  lemma BodyChars(text: string)
    ensures SameChars(text, text[Run(text, 0, ' ')..])
  {
    forall d: char ensures d in text[Run(text, 0, ' ')..] ==> d in text { InBody(text, d); }
    forall d: char ensures d in text ==> d == ' ' || d in text[Run(text, 0, ' ')..] { InBody(text, d); }
  }

  lemma RuleHasMarker(body: string) returns (c: char)
    requires IsRule(body)
    ensures c in RULE_MARKERS && Thrice(body, c) && forall d | d in body :: d == c || d in RULE_BLANKS
  {
    var p := CountFirst(body, RULE_MARKERS);
    c := body[p];
    CountSame(body, c);
    ThriceCounts(body, c);
  }

  lemma MarkerMakesRule(body: string, c: char)
    requires c in RULE_MARKERS && Thrice(body, c) && forall d | d in body :: d == c || d in RULE_BLANKS
    ensures IsRule(body)
  {
    CountSame(body, c);
    ThriceCounts(body, c);
  }

  lemma RuleIff(text: string)
    ensures IsRule(text[Run(text, 0, ' ')..]) <==> IsRuleLine(text)
  {
    var body := text[Run(text, 0, ' ')..];
    BodyChars(text);
    if IsRule(body) {
      var c := RuleHasMarker(body);
      ThriceInBody(text, c);
    }
    if IsRuleLine(text) {
      var c :| c in RULE_MARKERS && Thrice(text, c) && forall d | d in text :: d == c || d in RULE_BLANKS;
      ThriceInBody(text, c);
      MarkerMakesRule(body, c);
    }
  }

  lemma SeparatorIff(text: string)
    ensures var body := text[Run(text, 0, ' ')..];
      (body != "" && body[0] == '|' && IsTableSeparator(body)) <==> IsSeparatorLine(text)
  {
    var body := text[Run(text, 0, ' ')..];
    BodyChars(text);
    StartsIff(text, '|');
    ThriceInBody(text, '-');
    ThriceCounts(body, '-');
  }

  /* ---- Theorem ---- */

  /** One span over the whole line, in one style. */
  ghost predicate IsWhole(line: Line, text: string, style: Style) {
    line.text == text && line.spans == if text == "" then [] else [Span(0, Bytes(text), style)]
  }

  ghost predicate OpensAny(text: string) {
    exists open :: Opens(text, open)
  }

  /** The style that a line outside of fenced code has as a whole, if it has one. */
  ghost function WholeStyle(text: string): Option<Style> {
    if OpensAny(text) then Some(CodeFence)
    else if IsHeadingLine(text) then Some(Heading)
    else if IsRuleLine(text) then Some(Rule)
    else if StartsWith(text, '>') then Some(Quote)
    else if IsSeparatorLine(text) then Some(TableBorder)
    else None
  }

  ghost predicate IsStyledOutside(alnum: char -> bool, line: Line, text: string) {
    match WholeStyle(text)
    case Some(style) => IsWhole(line, text, style)
    case None => line == Line(text, AllToBytes(text, LineSpans(alnum, text)))
  }

  lemma OpensAnyIff(text: string)
    ensures OpensFence(text[Run(text, 0, ' ')..]) <==> OpensAny(text)
  {
    if OpensAny(text) {
      var open :| Opens(text, open);
      var i: nat :| OpensAt(text, i, open);
      OpensIs(text, i, open);
    }
    if OpensFence(text[Run(text, 0, ' ')..]) { OpensWhen(text); }
  }

  lemma BlockStyleIs(text: string)
    requires !OpensAny(text)
    ensures BlockStyle(text[Run(text, 0, ' ')..]) == WholeStyle(text)
  {
    var body := text[Run(text, 0, ' ')..];
    HeadingIff(text);
    RuleIff(text);
    StartsIff(text, '>');
    SeparatorIff(text);
    assert body != "" ==> body[0] == text[Run(text, 0, ' ')];
  }

  lemma OutsideIsStyled(alnum: char -> bool, text: string)
    ensures IsStyledOutside(alnum, StyleLine(alnum, text, None).line, text)
  {
    OpensAnyIff(text);
    if !OpensAny(text) { BlockStyleIs(text); }
  }

  /** Every line of every text is styled as its characters and the fences above it say. Once a line outside of
      fenced code opens some, every line up to the first that closes it is code, whatever it holds; the line
      that closes it is a fence line; and outside of fenced code the line's own characters decide. */
  lemma LinesFollowFences(alnum: char -> bool, texts: seq<string>, k: nat)
    requires k < |texts|
    ensures var line := StyleLines(alnum, texts)[k];
      && (forall j: nat, open :: j < k && OpenFrom(texts, j, open, k) ==>
            IsWhole(line, texts[k], if Closes(texts[k], open) then CodeFence else Code))
      && (Outside(texts, k) ==> IsStyledOutside(alnum, line, texts[k]))
  {
    StyledAt(alnum, texts, k);
    NoneIsOutside(alnum, texts, k);
    forall j: nat, open | j < k && OpenFrom(texts, j, open, k)
      ensures IsWhole(StyleLines(alnum, texts)[k], texts[k], if Closes(texts[k], open) then CodeFence else Code)
    {
      CarriedIsOpen(alnum, texts, k, open);
      ClosesIff(texts[k], open);
    }
    OutsideIsStyled(alnum, texts[k]);
  }

  /* ---- List markers and table rows ---- */

  predicate IsInline(style: Style) {
    style in {CodeSpan, Strong, Emphasis, Link}
  }

  lemma {:induction false} ScanIsInline(alnum: char -> bool, text: string, index: nat)
    requires index <= |text|
    ensures forall s | s in Scan(alnum, text, index) :: IsInline(s.style)
    decreases |text| - index
  {
    if index < |text| {
      ScanIsInline(alnum, text, TokenAt(alnum, text, index).next);
    }
  }

  /** A bullet and a space, or one to nine digits, a dot or a bracket, and a space. */
  predicate IsMarker(text: string, start: nat, end: nat) {
    && Indented(text, start) && start + 2 <= end <= |text| && text[end - 1] == ' '
    && if end == start + 2 then text[start] in {'-', '*', '+'}
       else end <= start + 11 && text[end - 2] in {'.', ')'} && forall k :: start <= k < end - 2 ==> IsDigit(text[k])
  }

  lemma {:induction false} DigitsAre(body: string, n: nat)
    requires n <= |body| && (forall k :: 0 <= k < n ==> IsDigit(body[k])) && (n < |body| ==> !IsDigit(body[n]))
    ensures Digits(body) == n
  {
    if n > 0 {
      assert forall k :: 0 <= k < |body[1..]| ==> body[1..][k] == body[k + 1];
      DigitsAre(body[1..], n - 1);
    }
  }

  lemma MarkerIs(text: string, start: nat, end: nat)
    requires IsMarker(text, start, end)
    ensures Run(text, 0, ' ') == start && MarkerLength(text[start..]) == end - start
  {
    IndentIs(text, start);
    var body := text[start..];
    assert forall k :: 0 <= k < |body| ==> body[k] == text[start + k];
    if end > start + 2 { DigitsAre(body, end - start - 2); }
  }

  lemma MarkerWhen(text: string)
    requires var i := Run(text, 0, ' '); MarkerLength(text[i..]) > 0
    ensures var i := Run(text, 0, ' '); IsMarker(text, i, i + MarkerLength(text[i..]))
  {
    var i := Run(text, 0, ' ');
    assert forall k :: 0 <= k < |text[i..]| ==> text[i..][k] == text[i + k];
  }

  /** The list markers among a line's spans are exactly those its characters make. */
  lemma ListMarkersAreMarked(alnum: char -> bool, text: string, s: Span)
    requires !StartsWith(text, '|') && s.style == ListMarker
    ensures s in LineSpans(alnum, text) <==> IsMarker(text, s.start, s.end)
  {
    var indent, content := Run(text, 0, ' '), ContentStart(text);
    StartsIff(text, '|');
    ScanIsInline(alnum, text, content);
    if MarkerLength(text[indent..]) > 0 { MarkerWhen(text); }
    if IsMarker(text, s.start, s.end) { MarkerIs(text, s.start, s.end); }
    var marker := if content > indent then [Span(indent, content, ListMarker)] else [];
    assert LineSpans(alnum, text) == marker + Scan(alnum, text, content);
    if content > indent { assert marker[0] in LineSpans(alnum, text); }
  }

  lemma {:induction false} BordersAre(text: string, i: nat, s: Span)
    requires i <= |text|
    ensures s in Borders(text, i)
       <==> i <= s.start < |text| && text[s.start] == '|' && s.end == s.start + 1 && s.style == TableBorder
    decreases |text| - i
  {
    if i < |text| { BordersAre(text, i + 1, s); }
  }

  lemma SortedHas(spans: seq<Span>, s: Span)
    ensures s in SortByStart(spans) <==> s in spans
  {
    MarkdownTheorems.SortOrders(spans);
    assert s in SortByStart(spans) <==> s in multiset(SortByStart(spans));
  }

  /** Every bar of a table row is marked, and nothing else is marked as a border. */
  lemma RowBordersAreMarked(alnum: char -> bool, text: string, s: Span)
    requires StartsWith(text, '|') && s.style == TableBorder
    ensures s in LineSpans(alnum, text) <==> s.start < |text| && text[s.start] == '|' && s.end == s.start + 1
  {
    var indent := Run(text, 0, ' ');
    StartsIff(text, '|');
    ScanIsInline(alnum, text, indent);
    BordersAre(text, indent, s);
    SortedHas(Borders(text, indent) + Scan(alnum, text, indent), s);
  }
}
