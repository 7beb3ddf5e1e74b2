/** What a ball covers, counted by parents and main-chain units, and what equal balls of two nodes prove. */
module Coverage {
  import opened Dag
  import opened MainChain
  import opened Ledger
  import opened Finalization
  import opened Pipeline
  import opened Balls

  // ---------------------------------------------------------------- powers of ten

  lemma {:induction false} SmallerPowersDivide(i: nat, j: nat, m: nat)
    requires i <= j && Divides(Pow10(j), m)
    ensures Divides(Pow10(i), m)
    decreases j
  {
    if i < j {
      TenthDivides(Pow10(j - 1), m);
      SmallerPowersDivide(i, j - 1, m);
    }
  }

  lemma TenthDivides(p: nat, m: nat)
    requires p > 0 && Divides(10 * p, m)
    ensures Divides(p, m)
  {
    var q := m / (10 * p);
    assert m == p * (10 * q);
    MultipleDivides(p, 10 * q);
  }

  lemma MultipleDivides(p: nat, q: nat)
    requires p > 0
    ensures p * q % p == 0
  {
    var k, rest := p * q / p, p * q % p;
    assert p * q == p * k + rest;
    if q > k {
      Above(p, q, k);
    } else if q < k {
      Above(p, k, q);
    }
  }

  lemma {:induction false} Above(p: nat, x: nat, y: nat)
    requires x > y
    ensures p * x >= p * y + p
  {
    if x == y + 1 {
      assert p * (y + 1) == p * y + p;
    } else {
      Above(p, x - 1, y);
      assert p * x == p * (x - 1) + p;
    }
  }

  lemma {:induction false} PowerExceeds(j: nat)
    ensures Pow10(j) > j
  {
    if j > 0 { PowerExceeds(j - 1); }
  }

  /** The main-chain unit at `mci` refers back by 10^(j+1). */
  ghost predicate RefersBack(mci: nat, j: nat)
  {
    j < mci && Pow10(j + 1) <= mci && Divides(Pow10(j + 1), mci)
  }

  lemma TargetsAre(mci: nat, targets: seq<nat>, j: nat)
    requires IsSimilar(mci, targets)
    ensures RefersBack(mci, j) <==> j < |targets|
    ensures j < |targets| ==> targets[j] == mci - Pow10(j + 1)
  {
    PowerExceeds(j + 1);
    if j < |targets| {
      assert IsTarget(mci, j, targets[j]);
    } else if RefersBack(mci, j) {
      SmallerPowersDivide(|targets| + 1, j + 1, mci);
    }
  }

  // ---------------------------------------------------------------- how often a ball is covered

  /** The positions at which `units` has a unit with ball `b`. */
  ghost function Places(balls: map<Hash, Ball>, units: seq<Hash>, b: Ball): set<nat>
  {
    set i: nat | i < |units| && units[i] in balls && balls[units[i]] == b
  }

  /** The powers of ten that lead from main-chain index `mci` back to a unit with ball `b`. */
  ghost function Backward(balls: map<Hash, Ball>, chain: seq<Hash>, mci: nat, b: Ball): set<nat>
    requires mci < |chain|
  {
    set j: nat | j < mci && RefersBack(mci, j) &&
      chain[mci - Pow10(j + 1)] in balls && balls[chain[mci - Pow10(j + 1)]] == b
  }

  lemma PlacesStep(balls: map<Hash, Ball>, units: seq<Hash>, b: Ball)
    requires units != [] && units[|units| - 1] in balls
    ensures var n := |units| - 1;
      |Places(balls, units, b)| == |Places(balls, units[..n], b)| + if balls[units[n]] == b then 1 else 0
  {
    var n := |units| - 1;
    var before := Places(balls, units[..n], b);
    if balls[units[n]] == b {
      assert Places(balls, units, b) == before + {n};
    } else {
      assert Places(balls, units, b) == before;
    }
  }

  lemma {:induction false} BallsOfCount(balls: map<Hash, Ball>, units: seq<Hash>, b: Ball)
    requires forall u :: u in units ==> u in balls
    ensures BallsOf(balls, units)[b] == |Places(balls, units, b)|
  {
    if units == [] {
      assert Places(balls, units, b) == {};
    } else {
      hide Places;
      var n := |units| - 1;
      assert forall u :: u in units[..n] ==> u in units;
      BallsOfCount(balls, units[..n], b);
      PlacesStep(balls, units, b);
    }
  }

  lemma SkippedCount(balls: map<Hash, Ball>, chain: seq<Hash>, mci: nat, targets: seq<nat>, b: Ball)
    requires mci < |chain| && IsSimilar(mci, targets)
    requires forall i :: 0 <= i < |targets| ==> targets[i] < |chain| && chain[targets[i]] in balls
    ensures forall x :: x in Lookup(chain, targets) ==> x in balls
    ensures BallsOf(balls, Lookup(chain, targets))[b] == |Backward(balls, chain, mci, b)|
  {
    hide IsSimilar; hide RefersBack;
    var skiplist := Lookup(chain, targets);
    assert forall x :: x in skiplist ==> x in balls;
    BallsOfCount(balls, skiplist, b);
    forall j: nat ensures j in Places(balls, skiplist, b) <==> j in Backward(balls, chain, mci, b) {
      TargetsAre(mci, targets, j);
      if RefersBack(mci, j) { Within(mci, j); }
    }
    assert Places(balls, skiplist, b) == Backward(balls, chain, mci, b);
  }

  lemma Within(mci: nat, j: nat)
    requires RefersBack(mci, j)
    ensures j < mci && Pow10(j + 1) <= mci
  {
  }

  // ---------------------------------------------------------------- the ball of a unit

  /**
   * What the ball of `u` says: the unit, the verdict, for every ball the number of parents that
   * have it, and for every ball the number of powers 10^(j+1) that divide the main-chain index
   * of `u` and lead back to a unit that has it; off the main chain there are none of these.
   */
  ghost predicate CoversExactly(r: Run, verdicts: map<Hash, bool>, balls: map<Hash, Ball>, u: Hash)
  {
    && u in balls && u in r.d.units && u in verdicts
    && balls[u].unit == u && balls[u].bad == !verdicts[u]
    && (forall p :: p in r.d.units[u].parents ==> p in balls)
    && (forall b :: balls[u].parentBalls[b] == |Places(balls, r.d.units[u].parents, b)|)
    && (forall k, b :: 0 <= k < |r.fin.chain| && r.fin.chain[k] == u ==>
         balls[u].skiplistBalls[b] == |Backward(balls, r.fin.chain, k, b)|)
    && (u !in r.fin.chain ==> balls[u].skiplistBalls == multiset{})
  }

  /** A main-chain unit is at its own index and nowhere else. */
  lemma OwnIndex(r: Run, u: Hash, k: nat)
    requires RunOk(r) && k < |r.fin.chain| && r.fin.chain[k] == u
    ensures OnMainChain(r.fin.mci, r.fin.limci, u) && r.fin.mci[u] == k
  {
    var m := r.fin;
    ChainLe(r.d, r.st, m.chain, k, k);
    assert Le(r.d, u, m.chain[k]);
    OnMainChainIsRecorded(r.d, r.st, m, u);
    var i := m.mci[u];
    if i < k { ChainLe(r.d, r.st, m.chain, i, k); }
    if k < i { ChainLe(r.d, r.st, m.chain, k, i); }
  }

  lemma ChainMember(r: Run, u: Hash)
    requires RunOk(r) && OnMainChain(r.fin.mci, r.fin.limci, u)
    ensures u in r.fin.chain
  {
    OnMainChainIsRecorded(r.d, r.st, r.fin, u);
  }

  lemma BallCovers(r: Run, verdicts: map<Hash, bool>, balls: map<Hash, Ball>, i: nat, targets: seq<nat>)
    requires RunOk(r) && i < |r.order| && BallIs(r, verdicts, balls, i, targets)
    ensures CoversExactly(r, verdicts, balls, r.order[i])
  {
    hide RunOk; hide Places; hide Backward; hide IsSimilar; hide BallsOf; hide Lookup;
    var u := r.order[i];
    forall b ensures balls[u].parentBalls[b] == |Places(balls, r.d.units[u].parents, b)| {
      BallsOfCount(balls, r.d.units[u].parents, b);
    }
    forall k, b | 0 <= k < |r.fin.chain| && r.fin.chain[k] == u
      ensures balls[u].skiplistBalls[b] == |Backward(balls, r.fin.chain, k, b)|
    {
      OwnIndex(r, u, k);
      SkippedCount(balls, r.fin.chain, k, targets, b);
    }
    if u !in r.fin.chain {
      if OnMainChain(r.fin.mci, r.fin.limci, u) { ChainMember(r, u); }
      NothingLooked(r, balls, targets);
    }
  }

  lemma NothingLooked(r: Run, balls: map<Hash, Ball>, targets: seq<nat>)
    requires targets == []
    ensures Lookup(r.fin.chain, targets) == [] && BallsOf(balls, []) == multiset{}
  {
  }

  /** In every reachable state every ball covers exactly the balls of its parents and of its skip list. */
  lemma ReachableCoverage(r: Run, steps: seq<Step>, states: seq<State>, k: nat, u: Hash)
    requires RunOk(r) && Reaches(r, steps, states) && k < |states| && u in states[k].balls
    ensures CoversExactly(r, states[k].verdicts, states[k].balls, u)
  {
    hide RunOk; hide Reaches; hide CoversExactly; hide BallIs; hide Inv;
    var s := states[k];
    ReachableInv(r, steps, states, k);
    InvCounts(r, s);
    ReachableBalls(r, steps, states, k);
    assert u in s.stable && u in r.order[..s.finalised];
    var i :| 0 <= i < s.finalised && r.order[i] == u;
    assert BallAt(r, s.verdicts, s.balls, i);
    var targets :| BallIs(r, s.verdicts, s.balls, i, targets);
    BallCovers(r, s.verdicts, s.balls, i, targets);
  }

  // ---------------------------------------------------------------- equal balls, equal ancestries

  /** Every ball present covers what it should. */
  ghost predicate AllCover(r: Run, s: State)
  {
    forall u :: u in s.balls ==> CoversExactly(r, s.verdicts, s.balls, u)
  }

  /** A parent in one run is the same parent, with the same ball, in the other. */
  lemma ParentShared(r: Run, s: State, q: Run, t: State, u: Hash, p: Hash)
    requires CoversExactly(r, s.verdicts, s.balls, u) && CoversExactly(q, t.verdicts, t.balls, u)
    requires s.balls[u] == t.balls[u] && p in r.d.units[u].parents
    requires AllCover(r, s) && AllCover(q, t)
    ensures p in q.d.units[u].parents && p in s.balls && p in t.balls && s.balls[p] == t.balls[p]
  {
    var b := s.balls[p];
    var parents, parents' := r.d.units[u].parents, q.d.units[u].parents;
    var i :| 0 <= i < |parents| && parents[i] == p;
    assert i in Places(s.balls, parents, b);
    assert |Places(s.balls, parents, b)| == |Places(t.balls, parents', b)|;
    NotEmpty(Places(s.balls, parents, b), i, Places(t.balls, parents', b));
    var j: nat :| j in Places(t.balls, parents', b);
    var p' := parents'[j];
    assert p' in parents' && t.balls[p'] == b;
    assert CoversExactly(r, s.verdicts, s.balls, p) && CoversExactly(q, t.verdicts, t.balls, p');
  }

  lemma NotEmpty(s: set<nat>, i: nat, t: set<nat>)
    requires i in s && |s| == |t|
    ensures exists j :: j in t
  {
    assert s != {};
  }

  lemma {:induction false} AncestryShared(r: Run, s: State, q: Run, t: State, u: Hash, a: Hash)
    requires WellFormed(r.d) && WellFormed(q.d) && AllCover(r, s) && AllCover(q, t)
    requires u in s.balls && u in t.balls && s.balls[u] == t.balls[u] && Le(r.d, a, u)
    ensures Le(q.d, a, u) && a in s.balls && a in t.balls && s.balls[a] == t.balls[a]
    decreases Rank(r.d, u)
  {
    hide CoversExactly;
    CoveredUnits(r, s, u);
    CoveredUnits(q, t, u);
    if a != u {
      var p :| p in r.d.units[u].parents && Le(r.d, a, p);
      ParentShared(r, s, q, t, u, p);
      AncestryShared(r, s, q, t, p, a);
    }
  }

  lemma CoveredUnits(r: Run, s: State, u: Hash)
    requires AllCover(r, s) && u in s.balls
    ensures CoversExactly(r, s.verdicts, s.balls, u) && u in r.d.units
    ensures u in s.verdicts && s.balls[u].bad == !s.verdicts[u]
  {
  }

  /**
   * Two nodes with the same ball for a unit, whatever units they hold and whatever their runs: the
   * unit has the same ancestry in both, and every unit of it the same ball and the same verdict.
   */
  lemma EqualBallsEqualAncestry(r: Run, steps: seq<Step>, states: seq<State>, k: nat, q: Run, steps': seq<Step>,
                                states': seq<State>, k': nat, u: Hash, a: Hash)
    requires RunOk(r) && Reaches(r, steps, states) && k < |states| && WellFormed(r.d)
    requires RunOk(q) && Reaches(q, steps', states') && k' < |states'| && WellFormed(q.d)
    requires u in states[k].balls && u in states'[k'].balls && states[k].balls[u] == states'[k'].balls[u]
    ensures Le(r.d, a, u) <==> Le(q.d, a, u)
    ensures Le(r.d, a, u) ==> var s, s' := states[k], states'[k'];
      && a in s.balls && a in s'.balls && s.balls[a] == s'.balls[a]
      && a in s.verdicts && a in s'.verdicts && s.verdicts[a] == s'.verdicts[a]
  {
    hide RunOk; hide Reaches; hide CoversExactly; hide Le;
    var s, s' := states[k], states'[k'];
    forall v | v in s.balls ensures CoversExactly(r, s.verdicts, s.balls, v) {
      ReachableCoverage(r, steps, states, k, v);
    }
    forall v | v in s'.balls ensures CoversExactly(q, s'.verdicts, s'.balls, v) {
      ReachableCoverage(q, steps', states', k', v);
    }
    if Le(r.d, a, u) {
      AncestryShared(r, s, q, s', u, a);
      CoveredUnits(r, s, a);
      CoveredUnits(q, s', a);
    }
    if Le(q.d, a, u) { AncestryShared(q, s', r, s, u, a); }
  }

  // ---------------------------------------------------------------- the last stable joint

  /** The first `n` main-chain units are the stable ones, and the last of them is the last stable joint. */
  ghost predicate StableUpTo(r: Run, s: State, n: nat)
  {
    && n <= |r.fin.chain|
    && (forall i :: 0 <= i < |r.fin.chain| ==> (r.fin.chain[i] in s.stable <==> i < n))
    && s.lastStable == if n == 0 then None else Some(r.fin.chain[n - 1])
  }

  lemma FinalizeRaises(r: Run, s: State, s': State, targets: seq<nat>, n: nat)
    requires RunOk(r) && Inv(r, s) && Finalize(r, s, s', targets) && StableUpTo(r, s, n)
    ensures exists n' :: StableUpTo(r, s', n')
  {
    hide RunOk; hide Inv; hide CanFinalize; hide Skips; hide BallsOf; hide Lookup;
    FinalizeNeverFails(r, s, targets);
    InvCounts(r, s);
    NotFinalisedYet(r, s);
    var u, chain := r.order[s.finalised], r.fin.chain;
    if OnMainChain(r.fin.mci, r.fin.limci, u) {
      ChainMember(r, u);
      var m :| 0 <= m < |chain| && chain[m] == u;
      OwnIndex(r, u, m);
      forall i | 0 <= i < m ensures chain[i] in s.stable {
        UnitKnown(r, s.finalised);
        SkipTargetBelow(r, u, i);
        AncestorsFirst(r, s.finalised, chain[i]);
      }
      forall i | 0 <= i < |chain| && chain[i] == u ensures i == m { OwnIndex(r, u, i); }
      assert m > 0 ==> chain[m - 1] in s.stable;
      assert StableUpTo(r, s', n + 1);
    } else {
      forall i | 0 <= i < |chain| ensures chain[i] != u {
        if chain[i] == u { OwnIndex(r, u, i); }
      }
      assert StableUpTo(r, s', n);
    }
  }

  /**
   * In every reachable state the stable main-chain units are a prefix of the main chain, and the last
   * stable joint is the highest of them.
   */
  lemma {:induction false} LastStableIsHighest(r: Run, steps: seq<Step>, states: seq<State>, k: nat)
    requires RunOk(r) && Reaches(r, steps, states) && k < |states|
    ensures exists n :: StableUpTo(r, states[k], n)
    decreases k
  {
    hide RunOk; hide Inv;
    if k == 0 {
      assert StableUpTo(r, states[0], 0);
    } else {
      LastStableIsHighest(r, steps, states, k - 1);
      var n :| StableUpTo(r, states[k - 1], n);
      ReachableInv(r, steps, states, k - 1);
      assert Next(r, states[k - 1], states[k], steps[k - 1]);
      hide Reaches; hide Finalize; hide Admit; hide Handle;
      StableStep(r, states[k - 1], states[k], steps[k - 1], n);
    }
  }

  lemma StableStep(r: Run, s: State, s': State, step: Step, n: nat)
    requires RunOk(r) && Inv(r, s) && Next(r, s, s', step) && StableUpTo(r, s, n)
    ensures exists n' :: StableUpTo(r, s', n')
  {
    hide RunOk; hide Inv; hide Accepts; hide Apply; hide CanApply;
    if step.DoFinalize? {
      FinalizeRaises(r, s, s', step.targets, n);
    } else {
      assert s'.stable == s.stable && s'.lastStable == s.lastStable;
      assert StableUpTo(r, s', n);
    }
  }
}
