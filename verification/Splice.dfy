/** Line-range replacement: trimming an edit to the lines that differ. */
module Splice {

  datatype Edit<T> = Edit(start: nat, end: nat, lines: seq<T>)

  ghost predicate Applies<T>(doc: seq<T>, edit: Edit<T>) {
    edit.start <= edit.end <= |doc|
  }

  function Apply<T>(doc: seq<T>, edit: Edit<T>): seq<T>
    requires Applies(doc, edit)
  {
    doc[..edit.start] + edit.lines + doc[edit.end..]
  }

  /** Number of leading elements in common, given that the first `k` are. */
  function Prefix<T(==)>(a: seq<T>, b: seq<T>, k: nat): (r: nat)
    requires k <= |a| && k <= |b|
    ensures k <= r <= |a| && r <= |b|
    ensures forall i {:trigger a[i]} :: k <= i < r ==> a[i] == b[i]
    ensures r < |a| && r < |b| ==> a[r] != b[r]
    decreases |a| - k
  {
    if k < |a| && k < |b| && a[k] == b[k] then Prefix(a, b, k + 1) else k
  }

  /** Number of trailing elements in common, at most `limit`, given that the last `k` are. */
  function Suffix<T(==)>(a: seq<T>, b: seq<T>, limit: nat, k: nat): (r: nat)
    requires k <= limit <= |a| && limit <= |b|
    ensures k <= r <= limit
    ensures forall i :: |a| - r <= i < |a| - k ==> a[i] == b[i - |a| + |b|]
    ensures r < limit ==> a[|a| - 1 - r] != b[|b| - 1 - r]
    decreases limit - k
  {
    if k < limit && a[|a| - 1 - k] == b[|b| - 1 - k] then Suffix(a, b, limit, k + 1) else k
  }

  function Least(a: nat, b: nat): nat { if a < b then a else b }

  function Trim<T(==)>(a: seq<T>, b: seq<T>): (r: (nat, nat))
    ensures r.0 + r.1 <= |a| && r.0 + r.1 <= |b|
  {
    var prefix := Prefix(a, b, 0);
    (prefix, Suffix(a, b, Least(|a|, |b|) - prefix, 0))
  }

  /** The edit from `a` to `b` without their common prefix and then their common suffix. */
  function Diff<T(==)>(a: seq<T>, b: seq<T>): (edit: Edit<T>)
    ensures Applies(a, edit)
  {
    var (prefix, suffix) := Trim(a, b);
    Edit(prefix, |a| - suffix, b[prefix..|b| - suffix])
  }

  lemma Trimmed<T>(a: seq<T>, b: seq<T>, prefix: nat, suffix: nat)
    requires prefix == Prefix(a, b, 0) && suffix == Suffix(a, b, Least(|a|, |b|) - prefix, 0)
    ensures prefix + suffix <= |a| && prefix + suffix <= |b|
    ensures Diff(a, b) == Edit(prefix, |a| - suffix, b[prefix..|b| - suffix])
  {
  }

  lemma DiffApplies<T>(a: seq<T>, b: seq<T>)
    ensures Apply(a, Diff(a, b)) == b
  {
    var d := Diff(a, b);
    DiffParts(a, b);
    Cut(b, d.start, |b| - (|a| - d.end), a[..d.start], a[d.end..]);
  }

  /** What the edit keeps is common to both documents. */
  lemma DiffParts<T>(a: seq<T>, b: seq<T>)
    ensures var d := Diff(a, b);
            var suffix := |a| - d.end;
            && d.start + suffix <= |b| && d.lines == b[d.start..|b| - suffix]
            && a[..d.start] == b[..d.start] && a[d.end..] == b[|b| - suffix..]
  {
    var (prefix, suffix) := Trim(a, b);
    CommonFlanks(a, b, prefix, suffix);
  }

  lemma CommonFlanks<T>(a: seq<T>, b: seq<T>, prefix: nat, suffix: nat)
    requires (prefix, suffix) == Trim(a, b)
    ensures a[..prefix] == b[..prefix]
    ensures a[|a| - suffix..] == b[|b| - suffix..]
  {
  }

  lemma Cut<T>(b: seq<T>, i: nat, j: nat, head: seq<T>, tail: seq<T>)
    requires i <= j <= |b| && head == b[..i] && tail == b[j..]
    ensures head + b[i..j] + tail == b
  {
  }

  /** No single-range replacement that turns `a` into `b` replaces fewer lines or carries fewer. */
  lemma DiffIsMinimal<T>(a: seq<T>, b: seq<T>, other: Edit<T>)
    requires Applies(a, other) && Apply(a, other) == b
    ensures var d := Diff(a, b);
            d.end - d.start <= other.end - other.start && |d.lines| <= |other.lines|
  {
    assert forall i :: 0 <= i < other.start ==> b[i] == a[i];
    assert forall i :: other.end <= i < |a| ==> a[i] == a[other.end..][i - other.end] == b[i - |a| + |b|];
    TrimIsMaximal(a, b, other.start, |a| - other.end);
  }

  /** No common prefix and suffix that do not overlap cover more than the trimmed ones. */
  lemma TrimIsMaximal<T>(a: seq<T>, b: seq<T>, head: nat, tail: nat)
    requires head + tail <= |a| && head + tail <= |b|
    requires forall i :: 0 <= i < head ==> a[i] == b[i]
    requires forall i :: |a| - tail <= i < |a| ==> a[i] == b[i - |a| + |b|]
    ensures var (prefix, suffix) := Trim(a, b); head <= prefix && head + tail <= prefix + suffix
  {
    var (prefix, suffix) := Trim(a, b);
    assert head <= prefix;
  }

  /** `p` and `q` are `a` and `b` behind the same `n` lines. */
  ghost predicate Behind<T>(n: nat, p: seq<T>, q: seq<T>, a: seq<T>, b: seq<T>) {
    && |p| == n + |a| && |q| == n + |b|
    && (forall i :: 0 <= i < n ==> p[i] == q[i])
    && (forall i :: n <= i < |p| ==> p[i] == a[i - n])
    && (forall i :: n <= i < |q| ==> q[i] == b[i - n])
  }

  /** The same edit behind `n` lines. */
  function Shifted<T>(edit: Edit<T>, n: nat): Edit<T> {
    Edit(n + edit.start, n + edit.end, edit.lines)
  }

  /** Lines in front of both documents shift the edit and change nothing else. */
  lemma DiffAfter<T>(front: seq<T>, a: seq<T>, b: seq<T>)
    ensures Diff(front + a, front + b) == Shifted(Diff(a, b), |front|)
  {
    IsBehind(front, a, b);
    DiffBehind(|front|, front + a, front + b, a, b);
  }

  lemma DiffBehind<T>(n: nat, p: seq<T>, q: seq<T>, a: seq<T>, b: seq<T>)
    requires Behind(n, p, q, a, b)
    ensures Diff(p, q) == Shifted(Diff(a, b), n)
  {
    var (prefix, suffix) := Trim(a, b);
    TrimAfter(n, p, q, a, b);
    SliceBehind(n, p, q, a, b, prefix, |b| - suffix);
  }

  lemma SliceBehind<T>(n: nat, p: seq<T>, q: seq<T>, a: seq<T>, b: seq<T>, i: nat, j: nat)
    requires Behind(n, p, q, a, b) && i <= j <= |b|
    ensures q[n + i..n + j] == b[i..j]
  {
  }

  lemma IsBehind<T>(front: seq<T>, a: seq<T>, b: seq<T>)
    ensures Behind(|front|, front + a, front + b, a, b)
  {
  }

  lemma TrimAfter<T>(n: nat, p: seq<T>, q: seq<T>, a: seq<T>, b: seq<T>)
    requires Behind(n, p, q, a, b)
    ensures Trim(p, q) == (n + Trim(a, b).0, Trim(a, b).1)
  {
    WholePrefix(n, p, q, a, b);
    var prefix, limit := Prefix(a, b, 0), Least(|a|, |b|) - Prefix(a, b, 0);
    assert Least(|p|, |q|) - (n + prefix) == limit;
    SuffixAfter(n, p, q, a, b, limit, 0);
  }

  lemma WholePrefix<T>(n: nat, p: seq<T>, q: seq<T>, a: seq<T>, b: seq<T>)
    requires Behind(n, p, q, a, b)
    ensures Prefix(p, q, 0) == n + Prefix(a, b, 0)
  {
    PrefixThrough(n, p, q, a, b, 0);
    PrefixAfter(n, p, q, a, b, 0);
  }

  lemma {:induction false} PrefixThrough<T>(n: nat, p: seq<T>, q: seq<T>, a: seq<T>, b: seq<T>, k: nat)
    requires Behind(n, p, q, a, b) && k <= n
    ensures Prefix(p, q, k) == Prefix(p, q, n)
    decreases n - k
  {
    if k < n {
      PrefixThrough(n, p, q, a, b, k + 1);
    }
  }

  lemma {:induction false} PrefixAfter<T>(n: nat, p: seq<T>, q: seq<T>, a: seq<T>, b: seq<T>, k: nat)
    requires Behind(n, p, q, a, b) && k <= |a| && k <= |b|
    ensures Prefix(p, q, n + k) == n + Prefix(a, b, k)
    decreases |a| - k
  {
    if k < |a| && k < |b| && a[k] == b[k] {
      PrefixAfter(n, p, q, a, b, k + 1);
    }
  }

  lemma {:induction false} SuffixAfter<T>(n: nat, p: seq<T>, q: seq<T>, a: seq<T>, b: seq<T>, limit: nat, k: nat)
    requires Behind(n, p, q, a, b) && k <= limit <= |a| && limit <= |b|
    ensures Suffix(p, q, limit, k) == Suffix(a, b, limit, k)
    decreases limit - k
  {
    if k < limit {
      BehindFromEnd(n, p, q, a, b, k);
      if a[|a| - 1 - k] == b[|b| - 1 - k] { SuffixAfter(n, p, q, a, b, limit, k + 1); }
    }
  }

  lemma BehindFromEnd<T>(n: nat, p: seq<T>, q: seq<T>, a: seq<T>, b: seq<T>, k: nat)
    requires Behind(n, p, q, a, b) && k < |a| && k < |b|
    ensures p[|p| - 1 - k] == a[|a| - 1 - k] && q[|q| - 1 - k] == b[|b| - 1 - k]
  {
    assert |p| - 1 - k - n == |a| - 1 - k && |q| - 1 - k - n == |b| - 1 - k;
  }

  /** An edit between two given flanks stays within what lies between them. */
  lemma DiffBetween<T>(front: seq<T>, a: seq<T>, b: seq<T>, back: seq<T>)
    ensures var d := Diff(front + a + back, front + b + back);
            && d.end - d.start <= |a| && |d.lines| <= |b|
            && (|a| <= |b| && d.start < d.end ==> |front| <= d.start && d.end <= |front| + |a|)
  {
    var p, q := front + a + back, front + b + back;
    ReplaceBetween(front, a, b, back);
    DiffIsMinimal(p, q, Edit(|front|, |front| + |a|, b));
    FlanksKept(front, a, b, back);
  }

  lemma ReplaceBetween<T>(front: seq<T>, a: seq<T>, b: seq<T>, back: seq<T>)
    ensures Apply(front + a + back, Edit(|front|, |front| + |a|, b)) == front + b + back
  {
    var p := front + a + back;
    assert p[..|front|] == front;
    assert p[|front| + |a|..] == back;
  }

  lemma FlanksKept<T>(front: seq<T>, a: seq<T>, b: seq<T>, back: seq<T>)
    ensures var p, q := front + a + back, front + b + back;
            var (prefix, suffix) := Trim(p, q);
            && |front| <= prefix
            && (|back| <= suffix || prefix + suffix == Least(|p|, |q|))
  {
    var p, q := front + a + back, front + b + back;
    var (prefix, suffix) := Trim(p, q);
    assert forall i :: 0 <= i < |front| ==> p[i] == q[i] == front[i];
    if suffix < |back| {
      assert p[|p| - 1 - suffix] == back[|back| - 1 - suffix] == q[|q| - 1 - suffix];
    }
  }

  /** Splicing the trimmed edit of one stretch of a document replaces that stretch. */
  lemma EditInPlace<T>(doc: seq<T>, start: nat, end: nat, was: seq<T>, lines: seq<T>)
    requires start <= end <= |doc| && was == doc[start..end]
    ensures var d := Diff(was, lines);
            doc[..start + d.start] + d.lines + doc[start + d.end..] == doc[..start] + lines + doc[end..]
  {
    DiffApplies(was, lines);
    InPlace(doc, start, end, was, lines, Diff(was, lines));
  }

  lemma InPlace<T>(doc: seq<T>, start: nat, end: nat, was: seq<T>, lines: seq<T>, d: Edit<T>)
    requires start <= end <= |doc| && was == doc[start..end]
    requires Applies(was, d) && Apply(was, d) == lines
    ensures doc[..start + d.start] + d.lines + doc[start + d.end..] == doc[..start] + lines + doc[end..]
  {
    Around(doc, start, end, was, d.start, d.end);
    Regroup(doc[..start], was[..d.start], d.lines, was[d.end..], doc[end..]);
  }

  lemma Around<T>(doc: seq<T>, start: nat, end: nat, was: seq<T>, i: nat, j: nat)
    requires start <= end <= |doc| && was == doc[start..end] && i <= |was| && j <= |was|
    ensures doc[..start + i] == doc[..start] + was[..i] && doc[start + j..] == was[j..] + doc[end..]
  {
  }

  lemma Regroup<T>(a: seq<T>, b: seq<T>, c: seq<T>, d: seq<T>, e: seq<T>)
    ensures (a + b) + c + (d + e) == a + (b + c + d) + e
  {
  }

  /* ---- Documents made of one stretch of lines per message ---- */

  /** The whole document, rendered from scratch. */
  function RenderAll<M, T>(render: M -> seq<T>, messages: seq<M>): seq<T> {
    if messages == [] then [] else render(messages[0]) + RenderAll(render, messages[1..])
  }

  lemma {:induction false} RenderConcat<M, T>(render: M -> seq<T>, a: seq<M>, b: seq<M>)
    ensures RenderAll(render, a + b) == RenderAll(render, a) + RenderAll(render, b)
  {
    if a == [] {
      assert a + b == b;
    } else {
      RenderConcat(render, a[1..], b);
      assert (a + b)[1..] == a[1..] + b && (a + b)[0] == a[0];
      Grouped(render(a[0]), RenderAll(render, a[1..]), RenderAll(render, b));
    }
  }

  lemma Grouped<T>(a: seq<T>, b: seq<T>, c: seq<T>)
    ensures a + (b + c) == a + b + c
  {
  }

  lemma RenderSnoc<M, T>(render: M -> seq<T>, a: seq<M>, m: M)
    ensures RenderAll(render, a + [m]) == RenderAll(render, a) + render(m)
  {
    RenderConcat(render, a, [m]);
    assert RenderAll(render, [m]) == render(m) + RenderAll(render, [m][1..]);
  }

  lemma RenderAround<M, T>(render: M -> seq<T>, messages: seq<M>, index: nat, m: M)
    requires index < |messages|
    ensures RenderAll(render, messages[index := m])
         == RenderAll(render, messages[..index]) + render(m) + RenderAll(render, messages[index + 1..])
  {
    var front, back := messages[..index], messages[index + 1..];
    assert messages[index := m] == (front + [m]) + back;
    RenderConcat(render, front + [m], back);
    RenderSnoc(render, front, m);
  }
}
