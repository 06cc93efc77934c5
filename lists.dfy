/** The one list operation several screens share: `xs.filter(x => x !== v)`,
    which drops every occurrence of a value and keeps everything else in order. */
module Lists {

  function Without<T(==)>(xs: seq<T>, v: T): (r: seq<T>)
    ensures v !in r
    ensures |r| <= |xs|
  {
    if xs == [] then [] else (if xs[0] == v then [] else [xs[0]]) + Without(xs[1..], v)
  }

  /** Filtering distributes over concatenation: the survivors of `a + b` are
      the survivors of `a` followed by those of `b`, so relative order is kept. */
  lemma {:induction false} WithoutConcat<T>(a: seq<T>, b: seq<T>, v: T)
    ensures Without(a + b, v) == Without(a, v) + Without(b, v)
  {
    if a != [] {
      assert (a + b)[1..] == a[1..] + b;
      WithoutConcat(a[1..], b, v);
    } else {
      assert a + b == b;
    }
  }

  /** Removing a value that does not occur changes nothing. */
  lemma {:induction false} WithoutAbsent<T>(xs: seq<T>, v: T)
    requires v !in xs
    ensures Without(xs, v) == xs
  {
    if xs != [] {
      WithoutAbsent(xs[1..], v);
    }
  }

  /** Removing the one copy of `v` closes the gap it leaves. */
  lemma {:induction false} WithoutOnlyCopy<T>(pre: seq<T>, v: T, post: seq<T>)
    requires v !in pre && v !in post
    ensures Without(pre + [v] + post, v) == pre + post
  {
    var xs := pre + [v] + post;
    if pre == [] {
      assert xs[0] == v && xs[1..] == post;
      WithoutAbsent(post, v);
    } else {
      assert xs[0] == pre[0] && xs[1..] == pre[1..] + [v] + post;
      WithoutOnlyCopy(pre[1..], v, post);
      assert pre + post == [pre[0]] + (pre[1..] + post);
    }
  }

  /** What survives is exactly what was there, other than `v`. */
  lemma WithoutMembers<T>(xs: seq<T>, v: T)
    ensures forall x :: x in Without(xs, v) <==> x in xs && x != v
  {
    WithoutCounts(xs, v);
    forall x
      ensures x in Without(xs, v) <==> x in xs && x != v
    {
      assert (x in Without(xs, v)) == (multiset(Without(xs, v))[x] > 0);
      assert (x in xs) == (multiset(xs)[x] > 0);
    }
  }

  /** Exactly the occurrences of `v` go: every other value keeps its count. */
  lemma {:induction false} WithoutCounts<T>(xs: seq<T>, v: T)
    ensures forall x :: multiset(Without(xs, v))[x] == if x == v then 0 else multiset(xs)[x]
  {
    if xs != [] {
      WithoutCounts(xs[1..], v);
      assert xs == [xs[0]] + xs[1..];
      var head := if xs[0] == v then [] else [xs[0]];
      assert Without(xs, v) == head + Without(xs[1..], v);
    }
  }
}
