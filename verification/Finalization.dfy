/** Skip lists and balls (src/finalization.rs). */
module Finalization {
  import opened Dag

  /** The hash of a ball stands for everything it covers. */
  datatype Ball = Ball(unit: Hash, parentBalls: multiset<Ball>, skiplistBalls: multiset<Ball>, bad: bool)

  function Pow10(j: nat): (p: nat)
    ensures p >= 1
  {
    if j == 0 then 1 else 10 * Pow10(j - 1)
  }

  predicate Divides(k: nat, m: nat)
  {
    k > 0 && m % k == 0
  }

  /** The i-th target: mci less the power 10^(i+1), which divides it. */
  ghost predicate IsTarget(mci: nat, i: nat, t: nat)
  {
    Pow10(i + 1) <= mci && Divides(Pow10(i + 1), mci) && t == mci - Pow10(i + 1)
  }

  /** The targets mci - 10, mci - 100, ... as far as the power divides mci, and no shorter list. */
  ghost predicate IsSimilar(mci: nat, r: seq<nat>)
  {
    && (forall i :: 0 <= i < |r| ==> IsTarget(mci, i, r[i]))
    && (mci == 0 || !Divides(Pow10(|r| + 1), mci))
  }

  lemma DividesLeq(k: nat, m: nat)
    requires m > 0 && Divides(k, m)
    ensures k <= m
  {
    assert m == k * (m / k);
  }

  method GetSimilarMcis(mci: nat) returns (similar: seq<nat>)
    ensures IsSimilar(mci, similar)
    ensures forall i :: 0 <= i < |similar| ==> similar[i] < mci
  {
    similar := [];
    var divisor := 10;
    assert Pow10(1) == 10;
    while true
      invariant divisor == Pow10(|similar| + 1)
      invariant forall i :: 0 <= i < |similar| ==> IsTarget(mci, i, similar[i])
      invariant mci > 0 ==> divisor <= 10 * mci
      decreases 10 * mci + 10 - divisor
    {
      if !Divides(divisor, mci) || mci == 0 {
        return;
      }
      DividesLeq(divisor, mci);
      assert IsTarget(mci, |similar|, mci - divisor);
      assert Pow10(|similar| + 2) == 10 * Pow10(|similar| + 1);
      similar := similar + [mci - divisor];
      divisor := divisor * 10;
    }
  }

  /** There is one list of targets. */
  lemma SimilarUnique(mci: nat, r: seq<nat>, s: seq<nat>)
    requires IsSimilar(mci, r) && IsSimilar(mci, s)
    ensures r == s
  {
    assert |r| < |s| ==> IsTarget(mci, |r|, s[|r|]);
    assert |s| < |r| ==> IsTarget(mci, |s|, r[|s|]);
    forall i | 0 <= i < |r| && i < |s| ensures r[i] == s[i] {
      assert IsTarget(mci, i, r[i]) && IsTarget(mci, i, s[i]);
    }
  }
}
