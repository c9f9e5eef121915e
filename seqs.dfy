/**
 * Sequence operations behind the table operations: boolean-mask selection
 * (`Keep`), order-preserving subsequences, a stable descending sort by a
 * numeric or text key (the order pandas `nlargest` and
 * `sort_values(ascending=False)` produce), and sums.
 */
module Seqs {
  import opened Text

  /** `a` can be obtained from `b` by deleting elements, keeping the order of the rest. */
  predicate IsSubsequence<T(==)>(a: seq<T>, b: seq<T>)
    decreases |b|
  {
    if a == [] then true
    else if b == [] then false
    else (a[0] == b[0] && IsSubsequence(a[1..], b[1..])) || IsSubsequence(a, b[1..])
  }

  lemma {:induction false} SubsequenceReflexive<T>(a: seq<T>)
    ensures IsSubsequence(a, a)
    decreases |a|
  {
    if a != [] {
      SubsequenceReflexive(a[1..]);
    }
  }

  lemma {:induction false} SubsequenceTransitive<T>(a: seq<T>, b: seq<T>, c: seq<T>)
    requires IsSubsequence(a, b) && IsSubsequence(b, c)
    ensures IsSubsequence(a, c)
    decreases |c|
  {
    if a != [] {
      if b[0] == c[0] && IsSubsequence(b[1..], c[1..]) {
        if a[0] == b[0] && IsSubsequence(a[1..], b[1..]) {
          SubsequenceTransitive(a[1..], b[1..], c[1..]);
        } else {
          SubsequenceTransitive(a, b[1..], c[1..]);
        }
      } else {
        SubsequenceTransitive(a, b, c[1..]);
      }
    }
  }

  /** A subsequence takes each element no more often than the original holds it. */
  lemma {:induction false} SubsequenceMultiset<T>(a: seq<T>, b: seq<T>)
    requires IsSubsequence(a, b)
    ensures multiset(a) <= multiset(b) && |a| <= |b|
    decreases |b|
  {
    if a != [] {
      assert b == [b[0]] + b[1..];
      if a[0] == b[0] && IsSubsequence(a[1..], b[1..]) {
        SubsequenceMultiset(a[1..], b[1..]);
        assert a == [a[0]] + a[1..];
      } else {
        SubsequenceMultiset(a, b[1..]);
      }
    }
  }

  /** The elements of `s` that satisfy `p`, in their original order (a boolean mask). */
  function Keep<T>(s: seq<T>, p: T -> bool): (r: seq<T>)
    ensures forall i :: 0 <= i < |r| ==> p(r[i])
    decreases |s|
  {
    if s == [] then []
    else (if p(s[0]) then [s[0]] else []) + Keep(s[1..], p)
  }

  lemma {:induction false} KeepSubsequence<T>(s: seq<T>, p: T -> bool)
    ensures IsSubsequence(Keep(s, p), s)
    decreases |s|
  {
    if s != [] {
      KeepSubsequence(s[1..], p);
      var k := Keep(s[1..], p);
      if p(s[0]) {
        assert Keep(s, p) == [s[0]] + k;
        assert (Keep(s, p)[0] == s[0] && IsSubsequence(Keep(s, p)[1..], s[1..]));
      } else {
        assert Keep(s, p) == k;
      }
    }
  }

  /** Every element that satisfies `p` is kept as often as it occurs, and no other element is. */
  lemma {:induction false} KeepMultiplicity<T>(s: seq<T>, p: T -> bool, x: T)
    ensures multiset(Keep(s, p))[x] == if p(x) then multiset(s)[x] else 0
    decreases |s|
  {
    if s != [] {
      KeepMultiplicity(s[1..], p, x);
      assert s == [s[0]] + s[1..];
    } else {
      assert multiset(Keep(s, p)) == multiset{};
    }
  }

  /** Selecting with a predicate every element already satisfies changes nothing. */
  lemma {:induction false} KeepAllSatisfy<T>(s: seq<T>, p: T -> bool)
    requires forall i :: 0 <= i < |s| ==> p(s[i])
    ensures Keep(s, p) == s
    decreases |s|
  {
    if s != [] {
      KeepAllSatisfy(s[1..], p);
      assert s == [s[0]] + s[1..];
    }
  }

  /** A stricter predicate keeps a subsequence of what a looser one keeps. */
  lemma {:induction false} KeepMonotone<T>(s: seq<T>, p: T -> bool, q: T -> bool)
    requires forall x :: p(x) ==> q(x)
    ensures IsSubsequence(Keep(s, p), Keep(s, q))
    decreases |s|
  {
    if s != [] {
      KeepMonotone(s[1..], p, q);
      var kp, kq := Keep(s[1..], p), Keep(s[1..], q);
      if p(s[0]) {
        assert Keep(s, p) == [s[0]] + kp && Keep(s, q) == [s[0]] + kq;
        assert Keep(s, p)[1..] == kp && Keep(s, q)[1..] == kq;
      } else if q(s[0]) {
        assert Keep(s, p) == kp && Keep(s, q) == [s[0]] + kq;
        assert Keep(s, q)[1..] == kq;
      } else {
        assert Keep(s, p) == kp && Keep(s, q) == kq;
      }
    }
  }

  /**
   * The orders a sort can use: a numeric key, or a text key compared as
   * Python compares strings.
   */
  datatype Order<-T> = ByNumber(number: T -> real) | ByText(text: T -> string)

  /** `a` is at least `b` under `o`. */
  predicate Ge<T>(o: Order<T>, a: T, b: T)
  {
    match o
    case ByNumber(key) => key(a) >= key(b)
    case ByText(key) => !StrLess(key(a), key(b))
  }

  /** Any two elements are comparable. */
  lemma GeTotal<T>(o: Order<T>, a: T, b: T)
    ensures Ge(o, a, b) || Ge(o, b, a)
  {
    if o.ByText? {
      StrLessAsymmetric(o.text(a), o.text(b));
    }
  }

  lemma GeTransitive<T>(o: Order<T>, a: T, b: T, c: T)
    requires Ge(o, a, b) && Ge(o, b, c)
    ensures Ge(o, a, c)
  {
    if o.ByText? {
      StrAtLeastTransitive(o.text(a), o.text(b), o.text(c));
    }
  }

  /** Position of the first largest element under `o`. */
  function MaxIndex<T>(s: seq<T>, o: Order<T>): (m: nat)
    requires |s| > 0
    ensures m < |s|
    ensures forall j :: 0 <= j < |s| ==> Ge(o, s[m], s[j])
    ensures forall j :: 0 <= j < m ==> !Ge(o, s[j], s[m])
    decreases |s|
  {
    if |s| == 1 then
      GeTotal(o, s[0], s[0]);
      0
    else
      var k := MaxIndex(s[..|s| - 1], o);
      MaxIndexStep(s, s[..|s| - 1], o, k);
      if !Ge(o, s[k], s[|s| - 1]) then |s| - 1 else k
  }

  /** Extending a first maximum of `s` without its last element to the whole of `s`. */
  lemma MaxIndexStep<T>(s: seq<T>, init: seq<T>, o: Order<T>, k: nat)
    requires 1 < |s| && init == s[..|s| - 1] && k < |init|
    requires forall j :: 0 <= j < |init| ==> Ge(o, init[k], init[j])
    requires forall j :: 0 <= j < k ==> !Ge(o, init[j], init[k])
    ensures var last := s[|s| - 1];
      if !Ge(o, s[k], last) then
        && (forall j :: 0 <= j < |s| ==> Ge(o, last, s[j]))
        && (forall j :: 0 <= j < |s| - 1 ==> !Ge(o, s[j], last))
      else
        && (forall j :: 0 <= j < |s| ==> Ge(o, s[k], s[j]))
        && (forall j :: 0 <= j < k ==> !Ge(o, s[j], s[k]))
  {
    var last := s[|s| - 1];
    if !Ge(o, s[k], last) {
      GeTotal(o, s[k], last);
      GeTotal(o, last, last);
      forall j | 0 <= j < |s| - 1 ensures Ge(o, last, s[j]) && !Ge(o, s[j], last) {
        GeTransitive(o, last, s[k], s[j]);
        if Ge(o, s[j], last) {
          GeTransitive(o, s[k], s[j], last);
        }
      }
    }
  }

  function RemoveAt<T>(s: seq<T>, i: nat): (r: seq<T>)
    requires i < |s|
    ensures |r| == |s| - 1
    ensures multiset(r) == multiset(s) - multiset{s[i]}
  {
    assert s == s[..i] + [s[i]] + s[i + 1..];
    s[..i] + s[i + 1..]
  }

  /**
   * `s` ordered by `o` from largest to smallest; among tied elements the
   * earlier one comes first (the sort is stable).
   */
  function SortDesc<T>(s: seq<T>, o: Order<T>): (r: seq<T>)
    ensures |r| == |s|
    decreases |s|
  {
    if s == [] then []
    else
      var m := MaxIndex(s, o);
      [s[m]] + SortDesc(RemoveAt(s, m), o)
  }

  predicate IsDescending<T>(s: seq<T>, o: Order<T>)
  {
    forall i, j :: 0 <= i < j < |s| ==> Ge(o, s[i], s[j])
  }

  /** The sorted sequence is a permutation of the input. */
  lemma {:induction false} SortDescPermutation<T>(s: seq<T>, o: Order<T>)
    ensures multiset(SortDesc(s, o)) == multiset(s)
    decreases |s|
  {
    if s != [] {
      var m := MaxIndex(s, o);
      SortDescPermutation(RemoveAt(s, m), o);
      assert multiset(s) == multiset{s[m]} + (multiset(s) - multiset{s[m]});
    }
  }

  /** The sorted sequence is ordered from the largest element to the smallest. */
  lemma {:induction false} SortDescOrdered<T>(s: seq<T>, o: Order<T>)
    ensures IsDescending(SortDesc(s, o), o)
    decreases |s|
  {
    if s != [] {
      var m := MaxIndex(s, o);
      var rest := RemoveAt(s, m);
      var tail := SortDesc(rest, o);
      SortDescOrdered(rest, o);
      SortDescPermutation(rest, o);
      forall j | 0 <= j < |tail| ensures Ge(o, s[m], tail[j]) {
        assert tail[j] in multiset(rest);
        assert tail[j] in s;
      }
      ConsDescending(s[m], tail, o);
    }
  }

  /** An element at least as large as every element of a descending sequence can go in front of it. */
  lemma ConsDescending<T>(x: T, tail: seq<T>, o: Order<T>)
    requires IsDescending(tail, o) && forall j :: 0 <= j < |tail| ==> Ge(o, x, tail[j])
    ensures IsDescending([x] + tail, o)
  {
    var r := [x] + tail;
    forall i, j | 0 <= i < j < |r| ensures Ge(o, r[i], r[j]) {
      assert r[j] == tail[j - 1];
      if i > 0 {
        assert r[i] == tail[i - 1];
      }
    }
  }

  /**
   * Taking the first `n` of the sorted sequence keeps the largest elements:
   * every kept element is at least every dropped one.
   */
  lemma {:induction false} PrefixDominates<T>(s: seq<T>, o: Order<T>, n: nat)
    requires n <= |s|
    ensures var kept := SortDesc(s, o)[..n];
      multiset(kept) <= multiset(s)
      && forall x, y :: x in kept && y in multiset(s) - multiset(kept) ==> Ge(o, x, y)
  {
    var r := SortDesc(s, o);
    SortDescPermutation(s, o);
    SortDescOrdered(s, o);
    SplitMultiset(r, n);
    forall x, y | x in r[..n] && y in multiset(s) - multiset(r[..n]) ensures Ge(o, x, y) {
      assert y in r[n..];
      DescendingSplit(r, o, n, x, y);
    }
  }

  lemma SplitMultiset<T>(r: seq<T>, n: nat)
    requires n <= |r|
    ensures multiset(r) - multiset(r[..n]) == multiset(r[n..])
    ensures multiset(r[..n]) <= multiset(r)
  {
    assert r == r[..n] + r[n..];
  }

  lemma DescendingSplit<T>(r: seq<T>, o: Order<T>, n: nat, x: T, y: T)
    requires n <= |r| && IsDescending(r, o)
    requires x in r[..n] && y in r[n..]
    ensures Ge(o, x, y)
  {
    var i :| 0 <= i < n && r[..n][i] == x;
    var j :| 0 <= j < |r| - n && r[n..][j] == y;
    assert r[i] == x && r[n + j] == y;
  }

  /** A prefix is a subsequence. */
  lemma {:induction false} PrefixSubsequence<T>(s: seq<T>, k: nat)
    requires k <= |s|
    ensures IsSubsequence(s[..k], s)
    decreases |s|
  {
    if k > 0 {
      PrefixSubsequence(s[1..], k - 1);
      assert s[..k][1..] == s[1..][..k - 1];
    }
  }

  /** How many rows pandas `head(n)` keeps: the first `n`, or all but the last `-n` when `n` is negative. */
  function HeadCount(len: nat, n: int): (k: nat)
    ensures k <= len
    ensures 0 <= n ==> k == if n <= len then n else len
    ensures n < 0 ==> k == if len + n >= 0 then len + n else 0
  {
    if n >= 0 then (if n <= len then n else len)
    else if len + n >= 0 then len + n else 0
  }

  /** pandas `head(n)`. */
  function Head<T>(s: seq<T>, n: int): (r: seq<T>)
    ensures r == s[..HeadCount(|s|, n)]
    ensures IsSubsequence(r, s) && multiset(r) <= multiset(s)
    ensures 0 <= n ==> |r| <= n
  {
    var k := HeadCount(|s|, n);
    PrefixSubsequence(s, k);
    SubsequenceMultiset(s[..k], s);
    s[..k]
  }

  /**
   * pandas `nlargest(n, key)` with `keep="first"`: the `n` elements with the
   * largest keys, largest first, earlier elements first among ties; nothing
   * when `n <= 0`.
   */
  function TakeLargest<T>(s: seq<T>, n: int, key: T -> real): (r: seq<T>)
    ensures |r| == if n <= 0 then 0 else if n <= |s| then n else |s|
    ensures multiset(r) <= multiset(s)
    ensures forall i, j :: 0 <= i < j < |r| ==> key(r[i]) >= key(r[j])
    ensures forall x, y :: x in r && y in multiset(s) - multiset(r) ==> key(x) >= key(y)
  {
    var k := if n <= 0 then 0 else if n <= |s| then n else |s|;
    LargestPrefix(s, key, k);
    SortDesc(s, ByNumber(key))[..k]
  }

  /** The first `k` of the sort by a numeric key, stated on the key. */
  lemma LargestPrefix<T>(s: seq<T>, key: T -> real, k: nat)
    requires k <= |s|
    ensures var r := SortDesc(s, ByNumber(key))[..k];
      && multiset(r) <= multiset(s)
      && (forall i, j :: 0 <= i < j < |r| ==> key(r[i]) >= key(r[j]))
      && forall x, y :: x in r && y in multiset(s) - multiset(r) ==> key(x) >= key(y)
  {
    var o := ByNumber(key);
    var sorted := SortDesc(s, o);
    var r := sorted[..k];
    PrefixDominates(s, o, k);
    SortDescOrdered(s, o);
    forall i, j | 0 <= i < j < |r| ensures key(r[i]) >= key(r[j]) {
      assert Ge(o, sorted[i], sorted[j]);
    }
    forall x, y | x in r && y in multiset(s) - multiset(r) ensures key(x) >= key(y) {
      assert Ge(o, x, y);
    }
  }

  function Sum(xs: seq<real>): real
    decreases |xs|
  {
    if xs == [] then 0.0 else Sum(xs[..|xs| - 1]) + xs[|xs| - 1]
  }

  /** Each element divided by `d`. */
  function Scaled(xs: seq<real>, d: real): (ys: seq<real>)
    requires d != 0.0
    ensures |ys| == |xs| && forall i :: 0 <= i < |xs| ==> ys[i] * d == xs[i]
  {
    seq(|xs|, i requires 0 <= i < |xs| => xs[i] / d)
  }

  /** `n` copies of `c`. */
  function Constant(n: nat, c: real): (ys: seq<real>)
    ensures |ys| == n && forall i :: 0 <= i < n ==> ys[i] == c
  {
    seq(n, _ => c)
  }

  /** Dividing every element by `d` divides the sum by `d`. */
  lemma {:induction false} SumScaled(xs: seq<real>, d: real)
    requires d != 0.0
    ensures Sum(Scaled(xs, d)) * d == Sum(xs)
    decreases |xs|
  {
    if xs != [] {
      var init := xs[..|xs| - 1];
      SumScaled(init, d);
      var ys := Scaled(xs, d);
      assert ys[..|ys| - 1] == Scaled(init, d);
      assert Sum(ys) * d == Sum(Scaled(init, d)) * d + ys[|ys| - 1] * d;
    }
  }

  lemma {:induction false} SumConstant(n: nat, c: real)
    ensures Sum(Constant(n, c)) == (n as real) * c
    decreases n
  {
    if n > 0 {
      SumConstant(n - 1, c);
      assert Constant(n, c)[..n - 1] == Constant(n - 1, c);
    }
  }

  /** A sum of `|xs|` elements, each in `[lo, hi]`, lies between `|xs| * lo` and `|xs| * hi`. */
  lemma {:induction false} SumBounds(xs: seq<real>, lo: real, hi: real)
    requires forall i :: 0 <= i < |xs| ==> lo <= xs[i] <= hi
    ensures (|xs| as real) * lo <= Sum(xs) <= (|xs| as real) * hi
    decreases |xs|
  {
    if xs != [] {
      SumBounds(xs[..|xs| - 1], lo, hi);
    }
  }
}
