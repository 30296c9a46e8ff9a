/**
 * The injected random source. Every `Math.random()` call of the program reads
 * the next draw of an infinite stream; `Math.floor(Math.random() * k)` is the
 * draw taken modulo `k`, so every value below `k` is a possible outcome.
 */
module Random {

  /** An infinite stream of draws, indexed by position. */
  type Rand = nat -> nat

  /** A value produced from the stream, with the position of the next unused draw. */
  datatype Gen<T> = Gen(value: T, next: nat)

  /** `Math.floor(Math.random() * k)`, reading the draw at `pos`. */
  function Below(rand: Rand, pos: nat, k: nat): (r: Gen<nat>)
    requires 0 < k
    ensures r.value < k
    ensures r.next == pos + 1
  {
    Gen(rand(pos) % k, pos + 1)
  }

  /**
   * A shuffle driven by the stream: each draw selects which of the remaining
   * elements comes next. It stands in for `xs.sort(() => 0.5 - Math.random())`,
   * whose outcome depends on the engine's sort; every permutation of `xs` is
   * the result for some stream.
   */
  function Permute<T>(xs: seq<T>, rand: Rand, pos: nat): (r: Gen<seq<T>>)
    ensures |r.value| == |xs|
    ensures r.next == pos + |xs|
    decreases |xs|
  {
    if |xs| == 0 then Gen([], pos)
    else
      var k := rand(pos) % |xs|;
      var rest := Permute(xs[..k] + xs[k + 1..], rand, pos + 1);
      Gen([xs[k]] + rest.value, rest.next)
  }

  /** Each draw being zero keeps the original order. */
  lemma {:induction false} PermuteZerosIsIdentity<T>(xs: seq<T>, rand: Rand, pos: nat)
    requires forall i :: pos <= i < pos + |xs| ==> rand(i) == 0
    ensures Permute(xs, rand, pos).value == xs
    decreases |xs|
  {
    if |xs| > 0 {
      assert rand(pos) == 0;
      assert xs[..0] + xs[1..] == xs[1..];
      PermuteZerosIsIdentity(xs[1..], rand, pos + 1);
    }
  }

  /** The shuffle only reorders: the result holds the same elements, each as often. */
  lemma {:induction false} PermuteIsPermutation<T>(xs: seq<T>, rand: Rand, pos: nat)
    ensures multiset(Permute(xs, rand, pos).value) == multiset(xs)
    decreases |xs|
  {
    if |xs| > 0 {
      var k := rand(pos) % |xs|;
      var rest := xs[..k] + xs[k + 1..];
      PermuteIsPermutation(rest, rand, pos + 1);
      assert xs == xs[..k] + [xs[k]] + xs[k + 1..];
      assert multiset(xs) == multiset(rest) + multiset{xs[k]};
    }
  }
}
