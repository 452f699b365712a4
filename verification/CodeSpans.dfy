/** Code spans against section 6.1 of CommonMark 0.30. */
module CodeSpans {
  import opened Options
  import opened Markdown
  import opened MarkdownTheorems

  // ---------------------------------------------------------------------------
  // Every code span of every line

  /** A run of backticks up to the first later run of the same length. */
  ghost predicate IsCodeSpan(text: string, s: Span) {
    exists n :: MaximalRun(text, s.start, n) && ClosesAtFirst(text, s, n)
  }

  ghost predicate AreCodeSpans(text: string, spans: seq<Span>) {
    forall i :: 0 <= i < |spans| && spans[i].style == CodeSpan ==> IsCodeSpan(text, spans[i])
  }

  lemma EmittedIsCodeSpan(alnum: char -> bool, text: string, index: nat)
    requires index < |text| && NoSplit(text, index)
    ensures AreCodeSpans(text, Emitted(TokenAt(alnum, text, index), index))
  {
    if text[index] == '`' {
      BacktickTokenMeaning(text, index);
      var token, n := BacktickToken(text, index), Run(text, index, '`');
      if token.style.Some? {
        assert MaximalRun(text, index, n) && ClosesAtFirst(text, Span(index, token.next, CodeSpan), n);
      }
    }
  }

  /** Every code span of the scanner opens and closes with maximal runs of equal length, with no run of
      that length between. */
  lemma {:induction false} EveryCodeSpan(alnum: char -> bool, text: string, from: nat)
    requires from <= |text| && NoSplit(text, from)
    ensures AreCodeSpans(text, Scan(alnum, text, from))
    decreases |text| - from
  {
    if from < |text| {
      var token := TokenAt(alnum, text, from);
      EmittedIsCodeSpan(alnum, text, from);
      TokenNoSplit(alnum, text, from);
      EveryCodeSpan(alnum, text, token.next);
      assert Scan(alnum, text, from) == Emitted(token, from) + Scan(alnum, text, token.next);
    }
  }

  lemma ContentStartIsUnsplit(text: string)
    ensures NoSplit(text, ContentStart(text))
  {
    var indent := Run(text, 0, ' ');
    var body := text[indent..];
    if !StartsRow(text) && MarkerLength(body) > 0 {
      MarkerEndsWithSpace(body);
      assert text[indent + MarkerLength(body) - 1] == body[MarkerLength(body) - 1];
    }
  }

  lemma MarkerEndsWithSpace(body: string)
    requires MarkerLength(body) > 0
    ensures body[MarkerLength(body) - 1] == ' '
  {
  }

  lemma LineSpansAreScanned(alnum: char -> bool, text: string, s: Span)
    requires s in LineSpans(alnum, text) && s.style == CodeSpan
    ensures s in Scan(alnum, text, ContentStart(text))
  {
    var indent := Run(text, 0, ' ');
    if StartsRow(text) { TableSpansAreScanned(alnum, text, indent, s); }
  }

  lemma TableSpansAreScanned(alnum: char -> bool, text: string, indent: nat, s: Span)
    requires indent <= |text| && s in TableSpans(alnum, text, indent) && s.style == CodeSpan
    ensures s in Scan(alnum, text, indent)
  {
    TableRowSpans(alnum, text, indent);
    assert s in multiset(Borders(text, indent)) + multiset(Scan(alnum, text, indent));
    BordersAreNoCode(text, indent);
  }

  lemma {:induction false} BordersAreNoCode(text: string, i: nat)
    requires i <= |text|
    ensures forall s | s in Borders(text, i) :: s.style == TableBorder
    decreases |text| - i
  {
    if i < |text| { BordersAreNoCode(text, i + 1); }
  }

  /** Every code span of every styled line, whatever the fence state and the block, is one in the text. */
  lemma LineCodeSpans(alnum: char -> bool, text: string, fence: Option<Fence>, i: nat)
    requires var line := StyleLine(alnum, text, fence).line; i < |line.spans| && line.spans[i].style == CodeSpan
    ensures exists s :: IsCodeSpan(text, s) && StyleLine(alnum, text, fence).line.spans[i] == ToBytes(text, s)
  {
    InlineCodeOnly(alnum, text, fence, i);
    InlineCodeSpans(alnum, text, LineSpans(alnum, text)[i]);
  }

  /** Only inline content has code spans. */
  lemma InlineCodeOnly(alnum: char -> bool, text: string, fence: Option<Fence>, i: nat)
    requires var line := StyleLine(alnum, text, fence).line; i < |line.spans| && line.spans[i].style == CodeSpan
    ensures StyleLine(alnum, text, fence).line == Line(text, AllToBytes(text, LineSpans(alnum, text)))
    ensures i < |LineSpans(alnum, text)| && LineSpans(alnum, text)[i].style == CodeSpan
  {
  }

  lemma InlineCodeSpans(alnum: char -> bool, text: string, s: Span)
    requires s in LineSpans(alnum, text) && s.style == CodeSpan
    ensures IsCodeSpan(text, s)
  {
    LineSpansAreScanned(alnum, text, s);
    ContentStartIsUnsplit(text);
    EveryCodeSpan(alnum, text, ContentStart(text));
  }

  // ---------------------------------------------------------------------------
  // The rule of section 6.1, on its own

  /** Left to right, each run of backticks opens a code span if it can; nothing else counts. */
  function CodeRule(text: string, index: nat): seq<Span>
    requires index <= |text|
    decreases |text| - index
  {
    if index == |text| then []
    else if text[index] == '`' then
      Emitted(BacktickToken(text, index), index) + CodeRule(text, BacktickToken(text, index).next)
    else CodeRule(text, index + 1)
  }

  lemma {:induction false} CodeRuleChain(text: string, index: nat)
    requires index <= |text|
    ensures Chain(CodeRule(text, index), index, |text|)
    decreases |text| - index
  {
    if index < |text| {
      if text[index] == '`' {
        var token := BacktickToken(text, index);
        CodeRuleChain(text, token.next);
        PrependSpan(Emitted(token, index), CodeRule(text, token.next), index, token.next, |text|);
      } else {
        CodeRuleChain(text, index + 1);
        PrependSpan([], CodeRule(text, index + 1), index, index + 1, |text|);
        assert [] + CodeRule(text, index + 1) == CodeRule(text, index + 1);
      }
    }
  }

  lemma CodeRuleStarts(text: string, index: nat)
    requires index <= |text|
    ensures forall s | s in CodeRule(text, index) :: index <= s.start
  {
    CodeRuleChain(text, index);
    ChainMembers(CodeRule(text, index), index, |text|);
  }

  /** The rule means what section 6.1 says: a maximal run outside of earlier code spans opens one if and
      only if an equal run follows, and the span ends with the first such run. */
  lemma {:induction false} CodeRuleMeaning(text: string, from: nat, p: nat, n: nat)
    requires from <= p && from <= |text| && NoSplit(text, from)
    requires MaximalRun(text, p, n) && !Inside(CodeRule(text, from), p)
    ensures OpensAt(CodeRule(text, from), p) <==> HasLaterRun(text, p, n)
    ensures forall s | s in CodeRule(text, from) && s.start == p :: ClosesAtFirst(text, s, n)
    decreases |text| - from
  {
    if text[from] != '`' {
      CodeRuleMeaning(text, from + 1, p, n);
    } else {
      var token := BacktickToken(text, from);
      var here, later := Emitted(token, from), CodeRule(text, token.next);
      assert CodeRule(text, from) == here + later;
      BacktickTokenMeaning(text, from);
      if from == p {
        RuleOpener(text, p, n);
        CodeRuleStarts(text, token.next);
        if token.style.Some? { assert here[0] in here + later; }
      } else {
        RunAtIsMaximal(text, from, n);
        NotInsideEither(here, later, p);
        assert token.style.Some? ==> Span(from, token.next, token.style.value) in here;
        CodeRuleMeaning(text, token.next, p, n);
        OpensInLater(here, later, p);
      }
    }
  }

  lemma RuleOpener(text: string, p: nat, n: nat)
    requires p < |text| && text[p] == '`' && NoSplit(text, p) && MaximalRun(text, p, n)
    ensures var token := BacktickToken(text, p);
      && (token.style.Some? <==> HasLaterRun(text, p, n))
      && (token.style.Some? ==> ClosesAtFirst(text, Span(p, token.next, token.style.value), n))
  {
    OpenerAt((c: char) => false, text, p, n);
  }

  // ---------------------------------------------------------------------------
  // When the scanner follows the rule

  function CodeOnly(spans: seq<Span>): seq<Span> {
    if spans == [] then []
    else (if spans[0].style == CodeSpan then [spans[0]] else []) + CodeOnly(spans[1..])
  }

  lemma CodeOnlyAfter(first: Span, rest: seq<Span>)
    ensures CodeOnly([first] + rest) == (if first.style == CodeSpan then [first] else []) + CodeOnly(rest)
  {
    assert ([first] + rest)[1..] == rest;
  }

  lemma {:induction false} CodeOnlyMembers(spans: seq<Span>)
    ensures forall s | s in CodeOnly(spans) :: s in spans
  {
    if spans != [] { CodeOnlyMembers(spans[1..]); }
  }

  /** No code span of the rule, read from `a`, opens before `b`. */
  predicate NoCodeBefore(text: string, a: nat, b: nat)
    requires a <= |text|
  {
    forall s | s in CodeRule(text, a) :: b <= s.start
  }

  /** Reading the text with code spans first, every emphasis and every link that opens outside of a code
      span ends before the next code span opens. */
  predicate Undisturbed(alnum: char -> bool, text: string, index: nat)
    requires index <= |text|
    decreases |text| - index
  {
    if index == |text| then true
    else
      var token := TokenAt(alnum, text, index);
      && (text[index] != '`' && token.style.Some? ==> NoCodeBefore(text, index, token.next))
      && Undisturbed(alnum, text, token.next)
  }

  lemma OpensFirst(text: string, a: nat)
    requires a < |text| && text[a] == '`'
    ensures var token := BacktickToken(text, a);
      && (token.style.Some? ==> Span(a, token.next, CodeSpan) in CodeRule(text, a))
      && (token.style.None? ==> CodeRule(text, a) == CodeRule(text, token.next))
  {
    var token := BacktickToken(text, a);
    if token.style.Some? { assert CodeRule(text, a)[0] == Span(a, token.next, CodeSpan); }
  }

  /** Text without code spans can be skipped. */
  lemma {:induction false} SkipPlain(text: string, a: nat, b: nat)
    requires a <= b <= |text| && NoSplit(text, a) && NoSplit(text, b) && NoCodeBefore(text, a, b)
    ensures CodeRule(text, a) == CodeRule(text, b)
    decreases b - a
  {
    if a < b {
      if text[a] == '`' {
        OpensFirst(text, a);
        RunAtIsMaximal(text, a, Run(text, a, '`'));
        SkipPlain(text, BacktickToken(text, a).next, b);
      } else {
        SkipPlain(text, a + 1, b);
      }
    }
  }

  lemma NoBackticks(text: string, index: nat, next: nat)
    requires index < |text| && text[index] != '`'
    requires next == index + 1 || (next == index + 2 <= |text| && text[index + 1] != '`')
    ensures CodeRule(text, index) == CodeRule(text, next)
  {
    assert CodeRule(text, index) == CodeRule(text, index + 1);
  }

  lemma UnopenedDelimiter(alnum: char -> bool, text: string, index: nat)
    requires index < |text| && text[index] in {'*', '_'} && EmphasisToken(alnum, text, index).style.None?
    ensures var d := Delimiter(text, index);
      EmphasisToken(alnum, text, index).next == index + |d| && (|d| == 2 ==> text[index + 1] == text[index])
  {
  }

  lemma UnopenedOther(alnum: char -> bool, text: string, index: nat)
    requires index < |text| && text[index] !in {'`', '*', '_'} && TokenAt(alnum, text, index).style.None?
    ensures TokenAt(alnum, text, index).next == index + 1
  {
  }

  /** Delimiters that open nothing are ordinary text. */
  lemma Unopened(alnum: char -> bool, text: string, index: nat, next: nat)
    requires index < |text| && text[index] != '`' && TokenAt(alnum, text, index) == Token(None, next)
    ensures next == index + 1 || (next == index + 2 && index + 1 < |text| && text[index + 1] != '`')
  {
    if text[index] in {'*', '_'} {
      UnopenedDelimiter(alnum, text, index);
    } else {
      UnopenedOther(alnum, text, index);
    }
  }

  /** An emphasis or a link hides the code spans that open before its end. */
  lemma HiddenCode(alnum: char -> bool, text: string, index: nat, next: nat)
    requires index <= next <= |text| && !NoCodeBefore(text, index, next)
    ensures CodeOnly(Scan(alnum, text, next)) != CodeRule(text, index)
  {
    var s :| s in CodeRule(text, index) && s.start < next;
    LaterStarts(alnum, text, next);
    CodeOnlyMembers(Scan(alnum, text, next));
  }

  /** The exact condition: the scanner's code spans are those of section 6.1 if and only if no emphasis
      or link that opens outside of a code span reaches the start of one. */
  lemma {:induction false} CodeSpansFollowRuleIff(alnum: char -> bool, text: string, from: nat)
    requires from <= |text| && NoSplit(text, from)
    ensures CodeOnly(Scan(alnum, text, from)) == CodeRule(text, from) <==> Undisturbed(alnum, text, from)
    decreases |text| - from
  {
    if from < |text| {
      var token := TokenAt(alnum, text, from);
      var rest := Scan(alnum, text, token.next);
      TokenNoSplit(alnum, text, from);
      CodeSpansFollowRuleIff(alnum, text, token.next);
      assert Scan(alnum, text, from) == Emitted(token, from) + rest;
      if token.style.Some? {
        var span := Span(from, token.next, token.style.value);
        CodeOnlyAfter(span, rest);
        if text[from] == '`' {
          SameHead(span, CodeOnly(rest), CodeRule(text, token.next));
        } else {
          DelimiterFollowsRule(alnum, text, from);
        }
      } else {
        assert Emitted(token, from) + rest == rest;
        if text[from] != '`' {
          Unopened(alnum, text, from, token.next);
          NoBackticks(text, from, token.next);
        }
      }
    }
  }

  lemma SameHead(first: Span, a: seq<Span>, b: seq<Span>)
    ensures [first] + a == [first] + b <==> a == b
  {
    assert ([first] + a)[1..] == a && ([first] + b)[1..] == b;
  }

  lemma DelimiterFollowsRule(alnum: char -> bool, text: string, from: nat)
    requires from < |text| && NoSplit(text, from) && text[from] != '`'
    requires TokenAt(alnum, text, from).style.Some?
    ensures var next := TokenAt(alnum, text, from).next;
      && TokenAt(alnum, text, from).style.value != CodeSpan
      && (NoCodeBefore(text, from, next) ==> CodeRule(text, from) == CodeRule(text, next))
      && (!NoCodeBefore(text, from, next) ==> CodeOnly(Scan(alnum, text, next)) != CodeRule(text, from))
  {
    var next := TokenAt(alnum, text, from).next;
    TokenNoSplit(alnum, text, from);
    if NoCodeBefore(text, from, next) {
      SkipPlain(text, from, next);
    } else {
      HiddenCode(alnum, text, from, next);
    }
  }

  /** In particular the rule holds for every text without `*`, `_` and `[`, and then there is nothing
      but code spans. */
  lemma {:induction false} PlainTextFollowsRule(alnum: char -> bool, text: string, from: nat)
    requires from <= |text| && forall k :: from <= k < |text| ==> text[k] !in {'*', '_', '['}
    ensures Scan(alnum, text, from) == CodeRule(text, from)
    decreases |text| - from
  {
    if from < |text| {
      var next := TokenAt(alnum, text, from).next;
      PlainTextFollowsRule(alnum, text, next);
      PlainStep(alnum, text, from);
    }
  }

  lemma PlainStep(alnum: char -> bool, text: string, from: nat)
    requires from < |text| && text[from] !in {'*', '_', '['}
    ensures var token := TokenAt(alnum, text, from);
      && Scan(alnum, text, from) == Emitted(token, from) + Scan(alnum, text, token.next)
      && CodeRule(text, from) == Emitted(token, from) + CodeRule(text, token.next)
  {
    if text[from] != '`' {
      assert TokenAt(alnum, text, from) == Token(None, from + 1);
      assert [] + CodeRule(text, from + 1) == CodeRule(text, from + 1);
    }
  }

  /** A text on which the rule fails. */
  lemma EmphasisBreaksRule(alnum: char -> bool)
    ensures var text := "*`*`";
      !Undisturbed(alnum, text, 0) && CodeOnly(Scan(alnum, text, 0)) != CodeRule(text, 0)
  {
    var text := "*`*`";
    EmphasisOverBacktick(alnum);
    assert MaximalRun(text, 1, 1) && MaximalRun(text, 3, 1);
    RuleOpener(text, 1, 1);
    assert CodeRule(text, 0) == CodeRule(text, 1);
    var token := BacktickToken(text, 1);
    assert CodeRule(text, 1)[0] == Span(1, token.next, CodeSpan);
    assert CodeRule(text, 1)[0] in CodeRule(text, 0);
    CodeSpansFollowRuleIff(alnum, text, 0);
  }
}
