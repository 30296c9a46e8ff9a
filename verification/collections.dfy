/** Sequence facts shared by the generators: distinctness, removal, shuffles of distinct lists. */
module Collections {
  import opened Random

  predicate Distinct<T(==)>(xs: seq<T>)
  {
    forall i, j :: 0 <= i < j < |xs| ==> xs[i] != xs[j]
  }

  function Min(a: int, b: int): int
  {
    if a <= b then a else b
  }

  /** `xs.filter(x => x !== a)`. */
  function Without<T(==,!new)>(xs: seq<T>, a: T): (r: seq<T>)
    ensures a !in r
    ensures forall x :: x in r <==> x in xs && x != a
    ensures |r| == |xs| - multiset(xs)[a]
    ensures Distinct(xs) ==> Distinct(r)
    decreases |xs|
  {
    if |xs| == 0 then []
    else
      assert xs == [xs[0]] + xs[1..];
      var rest := Without(xs[1..], a);
      DistinctCons(xs[0], xs[1..]);
      DistinctCons(xs[0], rest);
      if xs[0] != a then [xs[0]] + rest else rest
  }

  lemma DistinctCons<T>(x: T, ys: seq<T>)
    ensures Distinct([x] + ys) <==> x !in ys && Distinct(ys)
  {
    var zs := [x] + ys;
    if x !in ys && Distinct(ys) {
      forall i, j | 0 <= i < j < |zs|
        ensures zs[i] != zs[j]
      {
        if i > 0 {
          assert zs[i] == ys[i - 1] && zs[j] == ys[j - 1];
        } else {
          assert zs[j] == ys[j - 1];
        }
      }
    }
    if Distinct(zs) {
      assert forall i, j :: 0 <= i < j < |ys| ==> ys[i] == zs[i + 1] && ys[j] == zs[j + 1];
      forall k | 0 <= k < |ys|
        ensures ys[k] != x
      {
        assert zs[k + 1] == ys[k] && zs[0] == x;
      }
    }
  }

  /** A shuffle of a list without repeats has no repeats. */
  lemma {:induction false} PermuteKeepsDistinct<T>(xs: seq<T>, rand: Rand, pos: nat)
    requires Distinct(xs)
    ensures Distinct(Permute(xs, rand, pos).value)
    decreases |xs|
  {
    if |xs| > 0 {
      var k := rand(pos) % |xs|;
      var rest := xs[..k] + xs[k + 1..];
      assert xs == xs[..k] + [xs[k]] + xs[k + 1..];
      assert Distinct(rest) by {
        forall i, j | 0 <= i < j < |rest|
          ensures rest[i] != rest[j]
        {
          var i' := if i < k then i else i + 1;
          var j' := if j < k then j else j + 1;
          assert rest[i] == xs[i'] && rest[j] == xs[j'];
        }
      }
      assert xs[k] !in rest by {
        forall i | 0 <= i < |rest|
          ensures rest[i] != xs[k]
        {
          var i' := if i < k then i else i + 1;
          assert rest[i] == xs[i'];
        }
      }
      PermuteKeepsDistinct(rest, rand, pos + 1);
      PermuteIsPermutation(rest, rand, pos + 1);
      var tail := Permute(rest, rand, pos + 1).value;
      assert xs[k] !in multiset(tail);
      assert Permute(xs, rand, pos).value == [xs[k]] + tail;
    }
  }

  /** Taking a prefix keeps a list free of repeats. */
  lemma PrefixKeepsDistinct<T>(xs: seq<T>, n: nat)
    requires Distinct(xs) && n <= |xs|
    ensures Distinct(xs[..n])
  {
  }

  lemma DistinctSnoc<T>(xs: seq<T>, x: T)
    ensures Distinct(xs + [x]) <==> x !in xs && Distinct(xs)
  {
    var zs := xs + [x];
    assert forall i :: 0 <= i < |xs| ==> zs[i] == xs[i];
    if Distinct(zs) {
      forall k | 0 <= k < |xs|
        ensures xs[k] != x
      {
        assert zs[k] == xs[k] && zs[|xs|] == x;
      }
    }
  }

  /** A list without repeats holds each value at most once. */
  lemma {:induction false} DistinctCountAtMostOne<T>(xs: seq<T>, a: T)
    requires Distinct(xs)
    ensures multiset(xs)[a] <= 1
    decreases |xs|
  {
    if |xs| > 0 {
      assert xs == [xs[0]] + xs[1..];
      DistinctCons(xs[0], xs[1..]);
      DistinctCountAtMostOne(xs[1..], a);
      if xs[0] == a {
        assert a !in multiset(xs[1..]);
      }
    }
  }
}
