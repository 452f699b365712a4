/** When the scanner sees emphasis and links: exactly by the characters around them. */
module InlineRules {
  import opened Options
  import opened Markdown

  /* ---- Emphasis ---- */

  /** `n` of `c` stand at `p`. */
  predicate Stand(text: string, p: nat, n: nat, c: char) {
    p + n <= |text| && forall k :: p <= k < p + n ==> text[k] == c
  }

  /** A delimiter that may end an emphasis whose content starts at `start`: it ends its run, follows something
      other than a space, and an underscore is not followed by a letter or a digit. */
  predicate IsCloser(alnum: char -> bool, text: string, start: nat, c: char, n: nat, at: nat) {
    && start < at && Stand(text, at, n, c) && text[at - 1] != ' '
    && (at + n < |text| ==> text[at + n] != c && (c == '_' ==> !alnum(text[at + n])))
  }

  /** Double delimiters are matched in pairs from where their run starts. */
  ghost predicate IsPaired(text: string, from: nat, c: char, at: nat)
    requires at + 2 <= |text|
  {
    exists q: nat :: from <= q <= at && (at - q) % 2 == 0 && Stand(text, q, at - q, c) && StartsRun(text, from, c, q)
  }

  predicate StartsRun(text: string, from: nat, c: char, q: nat)
    requires q <= |text|
  {
    from <= q && (q == from || text[q - 1] != c)
  }

  ghost predicate MayClose(alnum: char -> bool, text: string, start: nat, c: char, n: nat, from: nat, at: nat) {
    from <= at && IsCloser(alnum, text, start, c, n, at) && (n == 2 ==> IsPaired(text, from, c, at))
  }

  /** The first delimiter that may close. */
  ghost predicate IsFirstCloser(alnum: char -> bool, text: string, start: nat, c: char, n: nat, from: nat, at: nat) {
    && MayClose(alnum, text, start, c, n, from, at)
    && forall other :: from <= other < at ==> !MayClose(alnum, text, start, c, n, from, other)
  }

  function Delimiters(c: char, n: nat): (d: string)
    ensures |d| == n && forall k :: 0 <= k < n ==> d[k] == c
  {
    seq(n, i => c)
  }

  lemma OccursStands(text: string, c: char, n: nat, p: nat)
    requires 1 <= n <= 2
    ensures Occurs(text, Delimiters(c, n), p) <==> Stand(text, p, n, c)
  {
  }

  lemma ClosesIff(alnum: char -> bool, text: string, start: nat, c: char, n: nat, at: nat)
    requires 1 <= n <= 2 && start <= at && Stand(text, at, n, c)
    ensures Closes(alnum, text, start, Delimiters(c, n), c == '_', at) <==> IsCloser(alnum, text, start, c, n, at)
  {
  }

  /** No pair overlaps the first occurrence at `p`, and beyond it the pairs are those counted from `p + 2`. */
  lemma PairsGoOn(text: string, from: nat, c: char, p: nat, at: nat)
    requires from <= p && Stand(text, p, 2, c) && p < at && at + 2 <= |text| && Stand(text, at, 2, c)
    requires forall k :: from <= k < p ==> !Stand(text, k, 2, c)
    ensures IsPaired(text, from, c, at) <==> p + 2 <= at && IsPaired(text, p + 2, c, at)
  {
    if IsPaired(text, from, c, at) {
      var q: nat :| from <= q <= at && (at - q) % 2 == 0 && Stand(text, q, at - q, c) && StartsRun(text, from, c, q);
      assert q < p ==> !Stand(text, q, 2, c);
      assert q != p + 1;
      if q == p {
        assert p + 2 <= at && StartsRun(text, p + 2, c, p + 2) && Stand(text, p + 2, at - (p + 2), c);
      } else {
        assert StartsRun(text, p + 2, c, q);
      }
    }
    if p + 2 <= at && IsPaired(text, p + 2, c, at) {
      var q: nat :| p + 2 <= q <= at && (at - q) % 2 == 0 && Stand(text, q, at - q, c) && StartsRun(text, p + 2, c, q);
      if q == p + 2 {
        assert from < p ==> !Stand(text, p - 1, 2, c);
        assert StartsRun(text, from, c, p) && Stand(text, p, at - p, c) && (at - p) % 2 == 0;
      } else {
        assert StartsRun(text, from, c, q);
      }
    }
  }

  lemma FirstIsPaired(text: string, from: nat, c: char, p: nat)
    requires from <= p && Stand(text, p, 2, c)
    requires forall k :: from <= k < p ==> !Stand(text, k, 2, c)
    ensures IsPaired(text, from, c, p)
  {
    assert from < p ==> !Stand(text, p - 1, 2, c);
    assert StartsRun(text, from, c, p);
  }

  /** Past an occurrence that may not close, the search is for the same delimiters. */
  lemma SearchGoesOn(alnum: char -> bool, text: string, start: nat, c: char, n: nat, from: nat, p: nat, at: nat)
    requires 1 <= n <= 2 && from <= p < at && Stand(text, p, n, c)
    requires forall k :: from <= k < p ==> !Stand(text, k, n, c)
    ensures MayClose(alnum, text, start, c, n, from, at)
       <==> p + n <= at && MayClose(alnum, text, start, c, n, p + n, at)
  {
    if n == 2 && Stand(text, at, 2, c) { PairsGoOn(text, from, c, p, at); }
  }

  lemma FoundIsFirst(text: string, c: char, n: nat, from: nat)
    requires 1 <= n <= 2 && from <= |text|
    ensures var found := Find(text, Delimiters(c, n), from);
      && (found.Some? ==>
            && from <= found.value && Stand(text, found.value, n, c)
            && forall k :: from <= k < found.value ==> !Stand(text, k, n, c))
      && (found.None? ==> forall at :: from <= at ==> !Stand(text, at, n, c))
  {
    forall p: nat ensures Occurs(text, Delimiters(c, n), p) <==> Stand(text, p, n, c) { OccursStands(text, c, n, p); }
  }

  /** `r` is the first delimiter from `from` on that may close, or there is none. */
  ghost predicate IsSearched(alnum: char -> bool, text: string, start: nat, c: char, n: nat, from: nat,
                             r: Option<nat>)
  {
    && (r.Some? ==> IsFirstCloser(alnum, text, start, c, n, from, r.value))
    && (r.None? ==> forall at :: from <= at ==> !MayClose(alnum, text, start, c, n, from, at))
  }

  lemma SearchedFurther(alnum: char -> bool, text: string, start: nat, c: char, n: nat, from: nat, p: nat,
                        r: Option<nat>)
    requires 1 <= n <= 2 && from <= p && Stand(text, p, n, c) && !IsCloser(alnum, text, start, c, n, p)
    requires forall k :: from <= k < p ==> !Stand(text, k, n, c)
    requires IsSearched(alnum, text, start, c, n, p + n, r)
    ensures IsSearched(alnum, text, start, c, n, from, r)
  {
    forall at: nat | p < at
      ensures MayClose(alnum, text, start, c, n, from, at)
         <==> p + n <= at && MayClose(alnum, text, start, c, n, p + n, at)
    {
      SearchGoesOn(alnum, text, start, c, n, from, p, at);
    }
  }

  /** The search finds the first delimiter that may close. */
  lemma {:induction false} CloseIsFirst(alnum: char -> bool, text: string, start: nat, c: char, n: nat, from: nat)
    requires 1 <= n <= 2 && start <= from <= |text|
    ensures IsSearched(alnum, text, start, c, n, from,
                       EmphasisClose(alnum, text, start, Delimiters(c, n), c == '_', from))
    decreases |text| - from
  {
    var d := Delimiters(c, n);
    var found := Find(text, d, from);
    FoundIsFirst(text, c, n, from);
    if found.Some? {
      var p := found.value;
      ClosesIff(alnum, text, start, c, n, p);
      if IsCloser(alnum, text, start, c, n, p) {
        if n == 2 { FirstIsPaired(text, from, c, p); }
      } else {
        CloseIsFirst(alnum, text, start, c, n, p + n);
        SearchedFurther(alnum, text, start, c, n, from, p,
                        EmphasisClose(alnum, text, start, d, c == '_', p + n));
      }
    }
  }

  /** Whether an emphasis may open at `index`: its content does not start with a space, and an underscore
      does not follow a letter or a digit. */
  predicate MayOpen(alnum: char -> bool, text: string, index: nat, n: nat)
    requires index < |text|
  {
    && index + n < |text| && text[index + n] != ' '
    && (text[index] == '_' && index > 0 ==> !alnum(text[index - 1]))
  }

  /** A delimiter is double when its character is repeated. */
  function Width(text: string, index: nat): (n: nat)
    requires index < |text|
  {
    if index + 1 < |text| && text[index + 1] == text[index] then 2 else 1
  }

  lemma DelimiterIs(text: string, index: nat)
    requires index < |text|
    ensures Delimiter(text, index) == Delimiters(text[index], Width(text, index))
  {
    var c := text[index];
    assert Run(text, index, c) >= 2 <==> index + 1 < |text| && text[index + 1] == c;
  }

  lemma EmphasisTokenIs(alnum: char -> bool, text: string, index: nat)
    requires index < |text| && text[index] in {'*', '_'}
    ensures var c, n := text[index], Width(text, index);
      var start := index + n;
      start <= |text|
      && var close := EmphasisClose(alnum, text, start, Delimiters(c, n), c == '_', start);
         TokenAt(alnum, text, index)
         == if MayOpen(alnum, text, index, n) && close.Some?
            then Token(Some(if n == 2 then Strong else Emphasis), close.value + n) else Token(None, start)
  {
    DelimiterIs(text, index);
  }

  /** At a star or an underscore the scanner emits emphasis, strong if the delimiter is double, exactly when
      it may open and some delimiter may close it, and then up to the first such. */
  lemma EmphasisIff(alnum: char -> bool, text: string, index: nat)
    requires index < |text| && text[index] in {'*', '_'}
    ensures var token, c, n := TokenAt(alnum, text, index), text[index], Width(text, index);
      var start := index + n;
      && (token.style.Some? <==>
            MayOpen(alnum, text, index, n) && exists at :: MayClose(alnum, text, start, c, n, start, at))
      && (token.style.Some? ==>
            && token.style.value == (if n == 2 then Strong else Emphasis)
            && token.next >= n && IsFirstCloser(alnum, text, start, c, n, start, token.next - n))
      && (token.style.None? ==> token.next == start)
  {
    var c, n := text[index], Width(text, index);
    EmphasisTokenIs(alnum, text, index);
    CloseIsFirst(alnum, text, index + n, c, n, index + n);
  }

  /* ---- Links ---- */

  /** `[text](target)`: the text ends at the first `](` and is not empty and free of `[`; the target ends at the
      first `)` and is not empty and free of spaces. */
  ghost predicate IsLink(text: string, index: nat, close: nat, end: nat) {
    && index + 1 < close && close + 2 < end < |text|
    && text[index] == '[' && text[close] == ']' && text[close + 1] == '(' && text[end] == ')'
    && (forall k :: index < k < close ==> text[k] != '[' && !(text[k] == ']' && text[k + 1] == '('))
    && (forall k :: close + 2 <= k < end ==> text[k] != ')' && text[k] != ' ')
  }

  ghost predicate HasLink(text: string, index: nat, end: nat) {
    exists close: nat :: IsLink(text, index, close, end)
  }

  lemma LinkIs(text: string, index: nat, close: nat, end: nat)
    requires IsLink(text, index, close, end)
    ensures LinkEnd(text, index) == Some(end + 1)
  {
    assert Occurs(text, "](", close) && forall k :: index <= k < close ==> !Occurs(text, "](", k);
    assert Find(text, "](", index) == Some(close);
    assert Occurs(text, ")", end) && forall k :: close + 2 <= k < end ==> !Occurs(text, ")", k);
    assert Find(text, ")", close + 2) == Some(end);
  }

  lemma LinkWhen(text: string, index: nat)
    requires index < |text| && text[index] == '[' && LinkEnd(text, index).Some?
    ensures HasLink(text, index, LinkEnd(text, index).value - 1)
  {
    var close := Find(text, "](", index).value;
    var end := LinkEnd(text, index).value - 1;
    forall k | index < k < close ensures text[k] != '[' && !(text[k] == ']' && text[k + 1] == '(') {
      assert !Occurs(text, "](", k);
    }
    forall k | close + 2 <= k < end ensures text[k] != ')' && text[k] != ' ' {
      assert !Occurs(text, ")", k);
    }
    assert IsLink(text, index, close, end);
  }

  /** At a bracket the scanner emits a link exactly when there is one, and skips the bracket otherwise. */
  lemma LinkIff(alnum: char -> bool, text: string, index: nat)
    requires index < |text| && text[index] == '['
    ensures var token := TokenAt(alnum, text, index);
      && (token.style.Some? <==> exists end: nat :: HasLink(text, index, end))
      && (token.style.Some? ==> token.style.value == Link && HasLink(text, index, token.next - 1))
      && (token.style.None? ==> token.next == index + 1)
  {
    if LinkEnd(text, index).Some? { LinkWhen(text, index); }
    if end: nat :| HasLink(text, index, end) {
      var close: nat :| IsLink(text, index, close, end);
      LinkIs(text, index, close, end);
    }
  }
}
