/**
 * Sequence helpers behind the app's list handling: `slice(0, n)`,
 * `[...new Set(xs)]` and the first-occurrence order they preserve.
 */
module Lists {

  /** JavaScript `s.slice(0, n)` for a non-negative `n`: the first `min(n, |s|)` elements. */
  function Take<T>(s: seq<T>, n: nat): (r: seq<T>)
    ensures |r| == if |s| <= n then |s| else n
    ensures r == s[..|r|]
  {
    if |s| <= n then s else s[..n]
  }

  predicate NoDuplicates<T(==)>(s: seq<T>) {
    forall i, j :: 0 <= i < j < |s| ==> s[i] != s[j]
  }

  /** The position of the first occurrence of `x` in `xs`. */
  function FirstIndex<T(==)>(xs: seq<T>, x: T): (k: nat)
    requires x in xs
    ensures k < |xs| && xs[k] == x
    ensures forall i :: 0 <= i < k ==> xs[i] != x
  {
    if xs[0] == x then 0 else 1 + FirstIndex(xs[1..], x)
  }

  /**
   * `ys` lists elements of `xs`, and each element of `ys` was first seen in `xs`
   * strictly after the elements before it.
   */
  ghost predicate FirstSeenOrder<T>(ys: seq<T>, xs: seq<T>) {
    && (forall i :: 0 <= i < |ys| ==> ys[i] in xs)
    && (forall i, j :: 0 <= i < j < |ys| ==> FirstIndex(xs, ys[i]) < FirstIndex(xs, ys[j]))
  }

  /**
   * `[...new Set(xs)]`: a `Set` remembers insertion order, so this is `xs` with every
   * repeated element dropped after its first occurrence.
   */
  function Dedupe<T(==)>(xs: seq<T>): (r: seq<T>)
    ensures NoDuplicates(r)
    ensures forall i :: 0 <= i < |r| ==> r[i] in xs
    ensures forall i :: 0 <= i < |xs| ==> xs[i] in r
    decreases |xs|
  {
    if xs == [] then []
    else
      var init, last := xs[..|xs| - 1], xs[|xs| - 1];
      assert xs == init + [last];
      var p := Dedupe(init);
      if last in p then p else p + [last]
  }

  lemma FirstIndexInPrefix<T>(p: seq<T>, q: seq<T>, x: T)
    requires x in p
    ensures x in p + q && FirstIndex(p + q, x) == FirstIndex(p, x)
  {
    var k := FirstIndex(p, x);
    assert (p + q)[k] == x;
  }

  /** `Dedupe` keeps every element at its first occurrence: the result is in first-seen order. */
  lemma {:induction false} DedupeFirstSeen<T>(xs: seq<T>)
    ensures FirstSeenOrder(Dedupe(xs), xs)
    decreases |xs|
  {
    if xs != [] {
      var init, last := xs[..|xs| - 1], xs[|xs| - 1];
      assert xs == init + [last];
      DedupeFirstSeen(init);
      var p := Dedupe(init);
      forall y | y in init
        ensures y in xs && FirstIndex(xs, y) == FirstIndex(init, y)
      {
        FirstIndexInPrefix(init, [last], y);
      }
      if last !in p {
        var r := p + [last];
        assert FirstIndex(xs, last) == |init|;
        forall i, j | 0 <= i < j < |r|
          ensures FirstIndex(xs, r[i]) < FirstIndex(xs, r[j])
        {
          assert r[i] == p[i] && p[i] in init;
          if j < |p| {
            assert r[j] == p[j];
          } else {
            assert r[j] == last;
          }
        }
      }
    }
  }

  /** A prefix of a first-seen-ordered list is first-seen ordered. */
  lemma TakeFirstSeen<T>(ys: seq<T>, xs: seq<T>, n: nat)
    requires FirstSeenOrder(ys, xs)
    ensures FirstSeenOrder(Take(ys, n), xs)
  {
  }

  /** Strictly increasing first positions leave no room for a repeated element. */
  lemma FirstSeenNoDuplicates<T>(ys: seq<T>, xs: seq<T>)
    requires FirstSeenOrder(ys, xs)
    ensures NoDuplicates(ys)
  {
  }
}
