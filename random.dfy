/**
 * The server draws its random choices with `Math.random()`. The model takes
 * every draw as a parameter: a real number in [0, 1), which is exactly the
 * range `Math.random()` returns.
 */
module Random {

  /** A value `Math.random()` can return. */
  predicate IsDraw(d: real) {
    0.0 <= d < 1.0
  }

  predicate AllDraws(ds: seq<real>) {
    forall i :: 0 <= i < |ds| ==> IsDraw(ds[i])
  }

  /** `Math.floor(draw * n)`: the position a draw selects among `n` choices. */
  function PickIndex(draw: real, n: nat): (i: nat)
    requires IsDraw(draw) && n > 0
    ensures i < n
  {
    DrawTimesBelow(draw, n);
    (draw * (n as real)).Floor
  }

  /** A draw scales `n` to a value strictly below `n`. */
  lemma {:induction false} DrawTimesBelow(d: real, n: nat)
    requires IsDraw(d) && n > 0
    ensures d * (n as real) < n as real
  {
    if n > 1 {
      DrawTimesBelow(d, n - 1);
      assert d * (n as real) == d * ((n - 1) as real) + d;
    }
  }

  /** Every position can be selected: the draw `k / n` selects position `k`. */
  lemma PickIndexOnto(k: nat, n: nat)
    requires k < n
    ensures IsDraw((k as real) / (n as real))
    ensures PickIndex((k as real) / (n as real), n) == k
  {
  }
}
