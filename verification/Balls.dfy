/** The value of a ball: a function of the units, the index and the verdicts, on every interleaving. */
module Balls {
  import opened Dag
  import opened MainChain
  import opened Ledger
  import opened Finalization
  import opened Pipeline

  /** `balls` holds the right ball for the unit at position `i`, `targets` being its skip list. */
  ghost predicate BallIs(r: Run, verdicts: map<Hash, bool>, balls: map<Hash, Ball>, i: nat, targets: seq<nat>)
    requires i < |r.order|
  {
    var u := r.order[i];
    && u in r.d.units && u in verdicts && u in balls && Skips(r, u, targets)
    && (forall p :: p in r.d.units[u].parents ==> p in balls)
    && (forall j :: 0 <= j < |targets| ==> targets[j] < |r.fin.chain| && r.fin.chain[targets[j]] in balls)
    && BallFrom(r, balls, u, targets, !verdicts[u]) == balls[u]
  }

  /** calc_ball: the ball made of what `balls` holds for parents and skip list units. */
  ghost function BallFrom(r: Run, balls: map<Hash, Ball>, u: Hash, targets: seq<nat>, bad: bool): Ball
    requires u in r.d.units && forall p :: p in r.d.units[u].parents ==> p in balls
    requires forall j :: 0 <= j < |targets| ==> targets[j] < |r.fin.chain| && r.fin.chain[targets[j]] in balls
  {
    var skiplist := Lookup(r.fin.chain, targets);
    assert forall x :: x in skiplist ==> x in balls;
    Ball(u, BallsOf(balls, r.d.units[u].parents), BallsOf(balls, skiplist), bad)
  }

  ghost predicate BallAt(r: Run, verdicts: map<Hash, bool>, balls: map<Hash, Ball>, i: nat)
    requires i < |r.order|
  {
    exists targets :: BallIs(r, verdicts, balls, i, targets)
  }

  /** The first `n` units have their balls. */
  ghost predicate BallsOk(r: Run, verdicts: map<Hash, bool>, balls: map<Hash, Ball>, n: nat)
  {
    n <= |r.order| && forall i :: 0 <= i < n ==> BallAt(r, verdicts, balls, i)
  }

  lemma {:induction false} BallsOfAgree(a: map<Hash, Ball>, b: map<Hash, Ball>, units: seq<Hash>)
    requires forall u :: u in units ==> u in a && u in b && a[u] == b[u]
    ensures BallsOf(a, units) == BallsOf(b, units)
  {
    if units != [] {
      var n := |units| - 1;
      assert forall u :: u in units[..n] ==> u in units;
      BallsOfAgree(a, b, units[..n]);
    }
  }

  lemma BallFromAgrees(r: Run, a: map<Hash, Ball>, b: map<Hash, Ball>, u: Hash, targets: seq<nat>, bad: bool)
    requires u in r.d.units && forall p :: p in r.d.units[u].parents ==> p in a && p in b && a[p] == b[p]
    requires forall j :: 0 <= j < |targets| ==>
      targets[j] < |r.fin.chain| && var x := r.fin.chain[targets[j]]; x in a && x in b && a[x] == b[x]
    ensures BallFrom(r, a, u, targets, bad) == BallFrom(r, b, u, targets, bad)
  {
    var skiplist := Lookup(r.fin.chain, targets);
    assert forall x :: x in skiplist ==> x in a && x in b && a[x] == b[x];
    BallsOfAgree(a, b, r.d.units[u].parents);
    BallsOfAgree(a, b, skiplist);
  }

  lemma SkipsUnique(r: Run, u: Hash, t: seq<nat>, t': seq<nat>)
    requires Skips(r, u, t) && Skips(r, u, t')
    ensures t == t'
  {
    if OnMainChain(r.fin.mci, r.fin.limci, u) { SimilarUnique(r.fin.mci[u], t, t'); }
  }

  /** Everything a ball is made of belongs to units earlier in the order. */
  lemma IngredientsFirst(r: Run, i: nat, targets: seq<nat>)
    requires RunOk(r) && i < |r.order| && r.order[i] in r.d.units && Skips(r, r.order[i], targets)
    ensures forall p :: p in r.d.units[r.order[i]].parents ==> p in r.order[..i]
    ensures forall j :: 0 <= j < |targets| ==> targets[j] < |r.fin.chain| && r.fin.chain[targets[j]] in r.order[..i]
  {
    hide RunOk;
    var u := r.order[i];
    UnitKnown(r, i);
    forall p | p in r.d.units[u].parents ensures p in r.order[..i] {
      ParentIsAncestor(r.d, p, u);
      AncestorsFirst(r, i, p);
    }
    forall j | 0 <= j < |targets| ensures targets[j] < |r.fin.chain| && r.fin.chain[targets[j]] in r.order[..i] {
      assert IsTarget(r.fin.mci[u], j, targets[j]);
      SkipTargetBelow(r, u, targets[j]);
      AncestorsFirst(r, i, r.fin.chain[targets[j]]);
    }
  }

  /** Among the first `n` units both give the same verdict on all. */
  ghost predicate SameVerdicts(order: seq<Hash>, v: map<Hash, bool>, v': map<Hash, bool>, n: nat)
  {
    n <= |order| && forall i :: 0 <= i < n ==> order[i] in v && order[i] in v' && v[order[i]] == v'[order[i]]
  }

  ghost predicate SameBalls(order: seq<Hash>, a: map<Hash, Ball>, b: map<Hash, Ball>, n: nat)
  {
    n <= |order| && forall i :: 0 <= i < n ==> order[i] in a && order[i] in b && a[order[i]] == b[order[i]]
  }

  /** With the same verdicts the equations determine the balls. */
  lemma {:induction false} BallsUnique(r: Run, v: map<Hash, bool>, a: map<Hash, Ball>, v': map<Hash, bool>,
      b: map<Hash, Ball>, i: nat, n: nat)
    requires RunOk(r) && i < n && BallsOk(r, v, a, n) && BallsOk(r, v', b, n) && SameVerdicts(r.order, v, v', n)
    ensures r.order[i] in a && r.order[i] in b && a[r.order[i]] == b[r.order[i]]
    decreases i
  {
    hide RunOk; hide Skips; hide BallFrom;
    assert BallAt(r, v, a, i) && BallAt(r, v', b, i);
    var t :| BallIs(r, v, a, i, t);
    var t' :| BallIs(r, v', b, i, t');
    SkipsUnique(r, r.order[i], t, t');
    IngredientsFirst(r, i, t);
    forall x | x in r.order[..i] ensures x in a && x in b && a[x] == b[x] {
      var j :| 0 <= j < i && r.order[j] == x;
      BallsUnique(r, v, a, v', b, j, n);
    }
    BallFromAgrees(r, a, b, r.order[i], t, !v[r.order[i]]);
  }

  /** A ball shows the verdict on its unit. */
  lemma BallShowsVerdict(r: Run, v: map<Hash, bool>, a: map<Hash, Ball>, n: nat, i: nat)
    requires BallsOk(r, v, a, n) && i < n
    ensures i < |r.order| && r.order[i] in v && r.order[i] in a && a[r.order[i]].bad == !v[r.order[i]]
  {
    assert BallAt(r, v, a, i);
    var t :| BallIs(r, v, a, i, t);
  }

  /** The first `n` balls are the same if and only if the first `n` verdicts are. */
  lemma SameBallsExactly(r: Run, v: map<Hash, bool>, a: map<Hash, Ball>, v': map<Hash, bool>, b: map<Hash, Ball>,
      n: nat)
    requires RunOk(r) && BallsOk(r, v, a, n) && BallsOk(r, v', b, n)
    ensures SameBalls(r.order, a, b, n) <==> SameVerdicts(r.order, v, v', n)
  {
    hide RunOk; hide BallsOk;
    assert n <= |r.order| by { BallsLength(r, v, a, n); }
    forall i | 0 <= i < n
      ensures r.order[i] in v && r.order[i] in a && a[r.order[i]].bad == !v[r.order[i]]
      ensures r.order[i] in v' && r.order[i] in b && b[r.order[i]].bad == !v'[r.order[i]]
    {
      BallShowsVerdict(r, v, a, n, i);
      BallShowsVerdict(r, v', b, n, i);
    }
    if SameVerdicts(r.order, v, v', n) {
      forall i | 0 <= i < n ensures a[r.order[i]] == b[r.order[i]] { BallsUnique(r, v, a, v', b, i, n); }
    }
  }

  lemma BallsLength(r: Run, v: map<Hash, bool>, a: map<Hash, Ball>, n: nat)
    requires BallsOk(r, v, a, n)
    ensures n <= |r.order|
  {
  }

  /** A new ball or verdict does not touch the balls that are there. */
  lemma BallStays(r: Run, v: map<Hash, bool>, v': map<Hash, bool>, a: map<Hash, Ball>, b: map<Hash, Ball>, i: nat)
    requires i < |r.order| && BallAt(r, v, a, i)
    requires forall u :: u in v ==> u in v' && v'[u] == v[u]
    requires forall u :: u in a ==> u in b && b[u] == a[u]
    ensures BallAt(r, v', b, i)
  {
    hide Skips; hide BallFrom;
    var t :| BallIs(r, v, a, i, t);
    BallFromAgrees(r, a, b, r.order[i], t, !v[r.order[i]]);
    assert BallIs(r, v', b, i, t);
  }

  lemma FinalizeBalls(r: Run, s: Pipeline.State, s': Pipeline.State, targets: seq<nat>)
    requires RunOk(r) && Inv(r, s) && Finalize(r, s, s', targets) && BallsOk(r, s.verdicts, s.balls, s.finalised)
    ensures BallsOk(r, s'.verdicts, s'.balls, s'.finalised)
  {
    hide RunOk; hide Inv; hide Finalize; hide BallAt;
    var n := s.finalised;
    FinalizeEffect(r, s, s', targets);
    forall i | 0 <= i < n ensures BallAt(r, s'.verdicts, s'.balls, i) {
      assert BallAt(r, s.verdicts, s.balls, i);
      BallStays(r, s.verdicts, s'.verdicts, s.balls, s'.balls, i);
    }
    NewBall(r, s, s', targets);
  }

  lemma FinalizeEffect(r: Run, s: Pipeline.State, s': Pipeline.State, targets: seq<nat>)
    requires RunOk(r) && Inv(r, s) && Finalize(r, s, s', targets)
    ensures s'.finalised == s.finalised + 1 <= |r.order| && r.order[s.finalised] !in s.balls
    ensures s'.verdicts == s.verdicts
    ensures r.order[s.finalised] in s'.balls
    ensures s'.balls == s.balls[r.order[s.finalised] := s'.balls[r.order[s.finalised]]]
  {
    hide RunOk; hide Skips; hide BallsOf; hide Lookup; hide Inv; hide CanFinalize;
    FinalizeNeverFails(r, s, targets);
    InvCounts(r, s);
    NotFinalisedYet(r, s);
  }

  lemma NotFinalisedYet(r: Run, s: Pipeline.State)
    requires RunOk(r) && FinalOk(r, s) && s.finalised < |r.order|
    ensures r.order[s.finalised] !in s.balls
  {
    RunOrder(r);
  }

  lemma VerdictRecorded(r: Run, s: Pipeline.State, i: nat)
    requires RunOk(r) && Inv(r, s) && i < s.handled
    ensures i < |r.order| && r.order[i] in s.verdicts
  {
    BusinessOfInv(r, s);
    BusinessFacts(r, s);
    hide RunOk; hide Inv; hide BusinessOk; hide VerdictIs;
    assert r.order[i] in r.order[..s.handled];
  }

  lemma NewBall(r: Run, s: Pipeline.State, s': Pipeline.State, targets: seq<nat>)
    requires RunOk(r) && Inv(r, s) && Finalize(r, s, s', targets)
    ensures s.finalised < |r.order| && BallAt(r, s'.verdicts, s'.balls, s.finalised)
  {
    hide RunOk; hide Skips; hide BallsOf; hide Inv;
    FinalizeNeverFails(r, s, targets);
    var n := s.finalised;
    var u := r.order[n];
    VerdictRecorded(r, s, n);
    InvCounts(r, s);
    NotFinalisedYet(r, s);
    BallFromAgrees(r, s.balls, s'.balls, u, targets, !s.verdicts[u]);
    assert BallIs(r, s'.verdicts, s'.balls, n, targets);
  }

  // ---------------------------------------------------------------- over whole runs

  lemma OtherStepsKeepBalls(r: Run, s: Pipeline.State, s': Pipeline.State, step: Step)
    requires RunOk(r) && Inv(r, s) && Next(r, s, s', step) && !step.DoFinalize?
    ensures s'.balls == s.balls && s'.finalised == s.finalised
    ensures forall u :: u in s.verdicts ==> u in s'.verdicts && s'.verdicts[u] == s.verdicts[u]
  {
    if step.DoHandle? { HandledIsNew(r, s, s'); }
    hide RunOk; hide Inv; hide Handle;
  }

  lemma HandledIsNew(r: Run, s: Pipeline.State, s': Pipeline.State)
    requires RunOk(r) && Inv(r, s) && Handle(r, s, s')
    ensures s'.balls == s.balls && s'.finalised == s.finalised
    ensures forall u :: u in s.verdicts ==> u in s'.verdicts && s'.verdicts[u] == s.verdicts[u]
  {
    hide RunOk; hide Inv; hide Accepts; hide Apply; hide CanApply; hide Positions; hide BusinessOk; hide VerdictIs;
    BusinessOfInv(r, s);
    BusinessFacts(r, s);
    NotHandledYet(r, s);
    assert r.order[s.handled] !in r.order[..s.handled];
  }

  lemma BallsStep(r: Run, s: Pipeline.State, s': Pipeline.State, step: Step)
    requires RunOk(r) && Inv(r, s) && Next(r, s, s', step) && BallsOk(r, s.verdicts, s.balls, s.finalised)
    ensures BallsOk(r, s'.verdicts, s'.balls, s'.finalised)
    ensures forall u :: u in s.balls ==> u in s'.balls && s'.balls[u] == s.balls[u]
    ensures forall u :: u in s.verdicts ==> u in s'.verdicts && s'.verdicts[u] == s.verdicts[u]
  {
    hide RunOk; hide Inv; hide BallAt;
    if step.DoFinalize? {
      hide BallsOk; hide Finalize;
      FinalizeBalls(r, s, s', step.targets);
      FinalizeEffect(r, s, s', step.targets);
    } else {
      OtherStepsKeepBalls(r, s, s', step);
      hide Next;
      forall i | 0 <= i < s'.finalised ensures BallAt(r, s'.verdicts, s'.balls, i) {
        BallStays(r, s.verdicts, s'.verdicts, s.balls, s'.balls, i);
      }
    }
  }

  /** In every reachable state the balls are made of the balls below them and of the recorded verdicts. */
  lemma {:induction false} ReachableBalls(r: Run, steps: seq<Step>, states: seq<Pipeline.State>, k: nat)
    requires RunOk(r) && Reaches(r, steps, states) && k < |states|
    ensures BallsOk(r, states[k].verdicts, states[k].balls, states[k].finalised)
    decreases k
  {
    hide RunOk; hide Next; hide Inv;
    if k > 0 {
      ReachableBalls(r, steps, states, k - 1);
      ReachableInv(r, steps, states, k - 1);
      assert Next(r, states[k - 1], states[k], steps[k - 1]);
      BallsStep(r, states[k - 1], states[k], steps[k - 1]);
    }
  }

  /** Balls and verdicts are final: no later state of a run holds others. */
  lemma {:induction false} BallsAreFinal(r: Run, steps: seq<Step>, states: seq<Pipeline.State>, k: nat, later: nat,
      u: Hash)
    requires RunOk(r) && Reaches(r, steps, states) && k <= later < |states|
    ensures u in states[k].balls ==> u in states[later].balls && states[later].balls[u] == states[k].balls[u]
    ensures u in states[k].verdicts ==>
      u in states[later].verdicts && states[later].verdicts[u] == states[k].verdicts[u]
    decreases later
  {
    hide RunOk; hide Next; hide Inv; hide BallsOk;
    if k < later {
      BallsAreFinal(r, steps, states, k, later - 1, u);
      ReachableBalls(r, steps, states, later - 1);
      ReachableInv(r, steps, states, later - 1);
      assert Next(r, states[later - 1], states[later], steps[later - 1]);
      BallsStep(r, states[later - 1], states[later], steps[later - 1]);
    }
  }

  lemma ShorterBalls(r: Run, v: map<Hash, bool>, a: map<Hash, Ball>, m: nat, n: nat)
    requires BallsOk(r, v, a, m) && n <= m
    ensures BallsOk(r, v, a, n)
  {
  }

  /**
   * Whatever two runs of the workers over the same units and index, and whatever two moments
   * of them: among the first `n` units, finalised in both, all have the same balls if and only
   * if all have the same verdicts.
   */
  lemma BallsFollowVerdicts(r: Run, steps: seq<Step>, states: seq<Pipeline.State>, k: nat,
                            steps': seq<Step>, states': seq<Pipeline.State>, k': nat, n: nat)
    requires RunOk(r) && Reaches(r, steps, states) && k < |states| && Reaches(r, steps', states') && k' < |states'|
    requires n <= states[k].finalised && n <= states'[k'].finalised
    ensures SameBalls(r.order, states[k].balls, states'[k'].balls, n) <==>
      SameVerdicts(r.order, states[k].verdicts, states'[k'].verdicts, n)
  {
    hide RunOk; hide Reaches; hide BallsOk; hide SameBalls; hide SameVerdicts;
    var s, s' := states[k], states'[k'];
    ReachableBalls(r, steps, states, k);
    ReachableBalls(r, steps', states', k');
    ShorterBalls(r, s.verdicts, s.balls, s.finalised, n);
    ShorterBalls(r, s'.verdicts, s'.balls, s'.finalised, n);
    SameBallsExactly(r, s.verdicts, s.balls, s'.verdicts, s'.balls, n);
  }

  /**
   * In every run, the whole ancestry of a stable unit, and so of the last stable joint, is
   * stable with final balls: no later state of the run holds another one.
   */
  lemma FinalAncestry(r: Run, steps: seq<Step>, states: seq<Pipeline.State>, k: nat, later: nat, a: Hash, u: Hash)
    requires RunOk(r) && Reaches(r, steps, states) && k <= later < |states| && WellFormed(r.d)
    requires (u in states[k].stable || states[k].lastStable == Some(u)) && Le(r.d, a, u)
    ensures a in states[k].stable && a in states[k].balls
    ensures a in states[later].balls && states[later].balls[a] == states[k].balls[a]
  {
    hide RunOk; hide Reaches; hide Le;
    StableAncestry(r, steps, states, k, a, u);
    BallsAreFinal(r, steps, states, k, later, a);
  }
}
