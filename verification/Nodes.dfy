/**
 * Two nodes that hold the same units and have stabilised the same main-chain unit: they agree
 * on properties, index and order, whatever order parents arrived in and however the workers
 * of each interleaved, and on verdicts, ledger and balls exactly as far as the marks each
 * has set on its own make no difference.
 */
module Nodes {
  import opened Dag
  import opened StaticProps
  import opened MainChain
  import opened Marking
  import opened GO = GlobalOrder
  import opened Ledger
  import opened LedgerRun
  import opened Finalization
  import opened Pipeline
  import opened Balls

  /** The same units and addresses; only the parents of a unit may have arrived in another order. */
  ghost predicate Same(d: Dag, e: Dag)
  {
    && d.witnesses == e.witnesses && d.addresses == e.addresses && d.units.Keys == e.units.Keys
    && forall u {:trigger e.units[u]} {:trigger d.units[u]} :: u in d.units ==>
         && e.units[u] == d.units[u].(parents := e.units[u].parents)
         && multiset(d.units[u].parents) == multiset(e.units[u].parents)
  }

  lemma SameParents(d: Dag, e: Dag)
    requires Same(d, e)
    ensures SameUnits(d, e) && SameUnits(e, d)
    ensures forall u :: IsGenesis(d, u) <==> IsGenesis(e, u)
  {
    forall u | u in d.units
      ensures (forall p :: p in d.units[u].parents <==> p in e.units[u].parents)
      ensures |d.units[u].parents| == |e.units[u].parents|
    {
      assert forall p :: p in d.units[u].parents <==> p in multiset(d.units[u].parents);
      assert forall p :: p in e.units[u].parents <==> p in multiset(e.units[u].parents);
      assert |multiset(d.units[u].parents)| == |multiset(e.units[u].parents)|;
    }
  }

  // ---------------------------------------------------------------- the ledger reads nothing else

  lemma SourceAgrees(d: Dag, e: Dag, i: Input)
    requires Same(d, e)
    ensures Source(d, i) == Source(e, i)
  {
    if i.unit.Some? && i.unit.value in d.units {
      var u := i.unit.value;
      assert e.units[u].outputs == d.units[u].outputs;
    }
  }

  lemma {:induction false} SpendAgrees(d: Dag, e: Dag, live: Live, inputs: seq<Input>)
    requires Same(d, e)
    ensures Spend(d, live, inputs) == Spend(e, live, inputs) && SumInputs(d, inputs) == SumInputs(e, inputs)
  {
    hide Same; hide Source;
    if inputs != [] {
      SpendAgrees(d, e, live, inputs[..|inputs| - 1]);
      SourceAgrees(d, e, inputs[|inputs| - 1]);
    }
  }

  lemma {:induction false} CreateAgrees(d: Dag, e: Dag, live: Live, u: Hash, n: nat, data: UtxoData)
    requires Same(d, e) && u in d.units && u in e.units && n <= |d.units[u].outputs| && n <= |e.units[u].outputs|
    ensures Create(d, live, u, n, data) == Create(e, live, u, n, data)
  {
    if n > 0 { CreateAgrees(d, e, live, u, n - 1, data); }
  }

  lemma {:induction false} RelateAgrees(d: Dag, e: Dag, related: map<Address, seq<Hash>>, u: Hash, n: nat)
    requires Same(d, e) && u in d.units && u in e.units && n <= |d.units[u].outputs| && n <= |e.units[u].outputs|
    requires d.units[u].authors != [] && e.units[u].authors != []
    ensures Relate(d, related, u, n) == Relate(e, related, u, n)
  {
    if n > 0 { RelateAgrees(d, e, related, u, n - 1); }
  }

  lemma {:induction false} PaidByAgrees(d: Dag, e: Dag, units: seq<Hash>, a: Address)
    requires Same(d, e) && forall u :: u in units ==> u in d.units && u in e.units
    ensures PaidBy(d, units, a) == PaidBy(e, units, a)
  {
    if units != [] { PaidByAgrees(d, e, units[..|units| - 1], a); }
  }

  lemma LtAgrees(d: Dag, e: Dag, a: Hash, u: Hash)
    requires Same(d, e) && WellFormed(d) && WellFormed(e)
    ensures Lt(d, a, u) <==> Lt(e, a, u)
  {
    SameParents(d, e);
    if Le(d, a, u) { LeAgrees(d, e, a, u); }
    if Le(e, a, u) { LeAgrees(e, d, a, u); }
  }

  lemma InputsOkAgrees(d: Dag, e: Dag, live: Live, good: set<Hash>, stable: set<Hash>, u: Hash, inputs: seq<Input>)
    requires Same(d, e) && u in d.units && u in e.units && InputsOk(d, live, good, stable, u, inputs)
    ensures InputsOk(e, live, good, stable, u, inputs)
  {
    SameParents(d, e);
    assert e.units[u].authors == d.units[u].authors;
    forall i | 0 <= i < |inputs| ensures InputOk(e, live, good, stable, u, i, inputs[i]) {
      assert InputOk(d, live, good, stable, u, i, inputs[i]);
      SourceAgrees(d, e, inputs[i]);
    }
  }

  lemma SameBack(d: Dag, e: Dag)
    requires Same(d, e)
    ensures Same(e, d)
  {
  }

  /** Both nodes give the same verdict on a unit they have marked alike, in the same state. */
  lemma AcceptsAgrees(d: Dag, m: set<Hash>, e: Dag, m': set<Hash>, l: Ledger, u: Hash)
    requires Same(d, e) && WellFormed(d) && WellFormed(e) && u in d.units && u in e.units && (u in m <==> u in m')
    ensures Accepts(d, m, l, d.units.Keys, u) ==> Accepts(e, m', l, e.units.Keys, u)
  {
    assert e.units[u] == d.units[u].(parents := e.units[u].parents);
    if Accepts(d, m, l, d.units.Keys, u) {
      forall a | a in e.units[u].authors && a in l.lastSelf ensures Lt(e, l.lastSelf[a], u) {
        LtAgrees(d, e, l.lastSelf[a], u);
      }
      InputsOkAgrees(d, e, l.live, GoodSet(l), d.units.Keys, u, d.units[u].inputs);
      SpendAgrees(d, e, l.live, d.units[u].inputs);
      hide Lt; hide InputsOk;
      assert OutputsOk(e, e.units[u].outputs);
    }
  }

  lemma BalanceAgrees(d: Dag, e: Dag, l: Ledger, a: Address)
    requires Same(d, e) && RefsOk(d, l) && RefsOk(e, l)
    ensures StableBalance(d, l, a) == StableBalance(e, l, a)
  {
    assert forall v :: v in Listed(l.related, a) ==> v in d.units && v in e.units;
    PaidByAgrees(d, e, Listed(l.related, a), a);
  }

  lemma ChargeAgrees(d: Dag, e: Dag, u: Hash)
    requires Same(d, e) && u in d.units && u in e.units && d.units[u].authors != [] && e.units[u].authors != []
    ensures Charge(d, u) == Charge(e, u) && Payer(d, u) == Payer(e, u)
  {
    SameParents(d, e);
    assert e.units[u] == d.units[u].(parents := e.units[u].parents);
  }

  /** Both nodes apply a unit to the same state alike. */
  lemma ApplyAgrees(d: Dag, e: Dag, l: Ledger, u: Hash, data: UtxoData)
    requires Same(d, e) && CanApply(d, l, u) && CanApply(e, l, u)
    ensures Apply(d, l, u, data) == Apply(e, l, u, data)
  {
    assert e.units[u] == d.units[u].(parents := e.units[u].parents);
    hide Apply; hide Spend; hide Create; hide Relate; hide Same; hide Charge; hide Payer; hide StableBalance;
    hide RefsOk;
    AppliedIndex(d, l, u, data);
    AppliedIndex(e, l, u, data);
    var a := d.units[u].authors[0];
    SpendAgrees(d, e, l.live, d.units[u].inputs);
    CreateAgrees(d, e, Spend(d, l.live, d.units[u].inputs).value, u, |d.units[u].outputs|, data);
    RelateAgrees(d, e, l.related - {a}, u, |d.units[u].outputs|);
    BalanceAgrees(d, e, l, a);
    ChargeAgrees(d, e, u);
  }

  /** The next unit, from the same state: both nodes do the same if and only if they give the same verdict. */
  lemma ProcessAgrees(d: Dag, m: set<Hash>, e: Dag, m': set<Hash>, l: Ledger, u: Hash, data: UtxoData)
    requires Same(d, e) && WellFormed(d) && WellFormed(e) && LedgerOk(d, l) && LedgerOk(e, l)
    requires InTurn(d, l, u) && InTurn(e, l, u)
    ensures u in d.units && u in e.units
    ensures (Accepts(d, m, l, d.units.Keys, u) <==> Accepts(e, m', l, e.units.Keys, u)) ==>
      Process(d, m, l, u, data) == Process(e, m', l, u, data)
    ensures (u in m <==> u in m') ==> (Accepts(d, m, l, d.units.Keys, u) <==> Accepts(e, m', l, e.units.Keys, u))
  {
    hide LedgerOk; hide Accepts; hide Process; hide Same;
    SameBack(d, e);
    if u in m <==> u in m' {
      AcceptsAgrees(d, m, e, m', l, u);
      AcceptsAgrees(e, m', d, m, l, u);
    }
    if Accepts(d, m, l, d.units.Keys, u) && Accepts(e, m', l, e.units.Keys, u) {
      AcceptedCanApply(d, m, l, u, data);
      AcceptedCanApply(e, m', l, u, data);
      ApplyAgrees(d, e, l, u, data);
    } else if !Accepts(d, m, l, d.units.Keys, u) && !Accepts(e, m', l, e.units.Keys, u) {
      Rejected(d, m, l, u, data);
      Rejected(e, m', l, u, data);
    }
  }

  lemma Rejected(d: Dag, m: set<Hash>, l: Ledger, u: Hash, data: UtxoData)
    requires WellFormed(d) && LedgerOk(d, l) && InTurn(d, l, u) && !Accepts(d, m, l, d.units.Keys, u)
    ensures Process(d, m, l, u, data) == l
  {
  }

  // ---------------------------------------------------------------- marks each node has set on its own

  /** The replays of both nodes give the same verdicts on the first `n` units. */
  ghost predicate AgreeTo(d: Dag, m: set<Hash>, e: Dag, m': set<Hash>, at: map<Hash, UtxoData>, order: seq<Hash>,
      n: nat)
    requires OrderOk(d, at, order) && OrderOk(e, at, order)
  {
    n <= |order| && forall i :: 0 <= i < n ==> (Verdict(d, m, at, order, i) <==> Verdict(e, m', at, order, i))
  }

  /** Both nodes have marked the unit alike, or the one that has not marked it rejects it too. */
  ghost predicate Harmless(d: Dag, m: set<Hash>, e: Dag, m': set<Hash>, at: map<Hash, UtxoData>, order: seq<Hash>,
      i: nat)
    requires OrderOk(d, at, order) && OrderOk(e, at, order) && i < |order|
  {
    && (order[i] in m && order[i] !in m' ==> !Verdict(e, m', at, order, i))
    && (order[i] in m' && order[i] !in m ==> !Verdict(d, m, at, order, i))
  }

  ghost predicate AllHarmless(d: Dag, m: set<Hash>, e: Dag, m': set<Hash>, at: map<Hash, UtxoData>, order: seq<Hash>,
      n: nat)
    requires OrderOk(d, at, order) && OrderOk(e, at, order)
  {
    n <= |order| && forall i :: 0 <= i < n ==> Harmless(d, m, e, m', at, order, i)
  }

  lemma MarkedIsRejected(d: Dag, m: set<Hash>, at: map<Hash, UtxoData>, order: seq<Hash>, i: nat)
    requires OrderOk(d, at, order) && i < |order| && order[i] in m
    ensures !Verdict(d, m, at, order, i)
  {
    hide Replay;
  }

  /** Verdicts agree up to `n` if and only if the units applied agree, and then the whole ledgers do. */
  lemma {:induction false} AgreeIsSameLedger(d: Dag, m: set<Hash>, e: Dag, m': set<Hash>, at: map<Hash, UtxoData>,
      order: seq<Hash>, n: nat)
    requires Same(d, e) && OrderOk(d, at, order) && OrderOk(e, at, order) && n <= |order|
    ensures OrderOk(d, at, order[..n]) && OrderOk(e, at, order[..n])
    ensures AgreeTo(d, m, e, m', at, order, n) <==>
      Replay(d, m, at, order[..n]).good == Replay(e, m', at, order[..n]).good
    ensures AgreeTo(d, m, e, m', at, order, n) ==> Replay(d, m, at, order[..n]) == Replay(e, m', at, order[..n])
  {
    hide LedgerOk; hide Accepts; hide Same; hide OrderOk; hide Replay; hide Verdict; hide Process;
    PrefixOrderOk(d, at, order, n);
    PrefixOrderOk(e, at, order, n);
    if n == 0 {
      EmptyReplay(d, m, at, order[..n]);
      EmptyReplay(e, m', at, order[..n]);
    } else {
      var k := n - 1;
      AgreeIsSameLedger(d, m, e, m', at, order, k);
      ReplayOneMore(d, m, at, order, k);
      ReplayOneMore(e, m', at, order, k);
      var l, l' := Replay(d, m, at, order[..k]), Replay(e, m', at, order[..k]);
      AgreeOneMore(d, m, e, m', at, order, k);
      GoodOneMore(l.good, l'.good, order[k], Verdict(d, m, at, order, k), Verdict(e, m', at, order, k));
      if AgreeTo(d, m, e, m', at, order, k) { ProcessAgrees(d, m, e, m', l, order[k], at[order[k]]); }
    }
  }

  lemma AgreeOneMore(d: Dag, m: set<Hash>, e: Dag, m': set<Hash>, at: map<Hash, UtxoData>, order: seq<Hash>, k: nat)
    requires OrderOk(d, at, order) && OrderOk(e, at, order) && k < |order|
    ensures AgreeTo(d, m, e, m', at, order, k + 1) <==>
      AgreeTo(d, m, e, m', at, order, k) && (Verdict(d, m, at, order, k) <==> Verdict(e, m', at, order, k))
    ensures AllHarmless(d, m, e, m', at, order, k + 1) <==>
      AllHarmless(d, m, e, m', at, order, k) && Harmless(d, m, e, m', at, order, k)
  {
    hide Verdict; hide OrderOk; hide Harmless;
  }

  /** Appending a unit that occurs in neither list keeps equality exactly when both or none append it. */
  lemma GoodOneMore(a: seq<Hash>, b: seq<Hash>, u: Hash, x: bool, y: bool)
    requires u !in a && u !in b
    ensures a + (if x then [u] else []) == b + (if y then [u] else []) <==> a == b && x == y
  {
    var s, t := a + (if x then [u] else []), b + (if y then [u] else []);
    assert x <==> u in s;
    assert y <==> u in t;
    if s == t {
      assert a == s[..|a|] && b == t[..|b|];
    }
  }

  /**
   * The exact condition: two nodes give the same first `n` verdicts if and only if, wherever
   * just one of them has marked a unit, the other one rejects it too.
   */
  lemma {:induction false} MarksExactly(d: Dag, m: set<Hash>, e: Dag, m': set<Hash>, at: map<Hash, UtxoData>,
      order: seq<Hash>, n: nat)
    requires Same(d, e) && OrderOk(d, at, order) && OrderOk(e, at, order) && n <= |order|
    ensures AgreeTo(d, m, e, m', at, order, n) <==> AllHarmless(d, m, e, m', at, order, n)
  {
    hide LedgerOk; hide Accepts; hide Same; hide OrderOk; hide Replay; hide Verdict; hide Process;
    if n > 0 {
      var k := n - 1;
      MarksExactly(d, m, e, m', at, order, k);
      AgreeOneMore(d, m, e, m', at, order, k);
      AgreeIsSameLedger(d, m, e, m', at, order, k);
      if order[k] in m { MarkedIsRejected(d, m, at, order, k); }
      if order[k] in m' { MarkedIsRejected(e, m', at, order, k); }
      if AgreeTo(d, m, e, m', at, order, k) && (order[k] in m <==> order[k] in m') {
        ReplayOneMore(d, m, at, order, k);
        ReplayOneMore(e, m', at, order, k);
        ProcessAgrees(d, m, e, m', Replay(d, m, at, order[..k]), order[k], at[order[k]]);
      }
    }
  }

  /**
   * One node against sequential replay without marks: the first `n` verdicts are the same if
   * and only if that replay rejects every marked unit among them.
   */
  lemma UnmarkedExactly(d: Dag, marked: set<Hash>, at: map<Hash, UtxoData>, order: seq<Hash>, n: nat)
    requires OrderOk(d, at, order) && n <= |order|
    ensures AgreeTo(d, marked, d, {}, at, order, n) <==>
      forall i :: 0 <= i < n && order[i] in marked ==> !Verdict(d, {}, at, order, i)
  {
    hide Verdict; hide OrderOk;
    MarksExactly(d, marked, d, {}, at, order, n);
    forall i | 0 <= i < n
      ensures Harmless(d, marked, d, {}, at, order, i) <==> (order[i] in marked ==> !Verdict(d, {}, at, order, i))
    {
    }
    hide Harmless;
  }

  // ---------------------------------------------------------------- balls

  lemma BallsOfLast(balls: map<Hash, Ball>, units: seq<Hash>)
    requires units != [] && forall u :: u in units ==> u in balls
    ensures forall u :: u in units[..|units| - 1] ==> u in balls
    ensures BallsOf(balls, units) == BallsOf(balls, units[..|units| - 1]) + multiset{balls[units[|units| - 1]]}
  {
    assert forall u :: u in units[..|units| - 1] ==> u in units;
  }

  /** `units` without position `j`. */
  function Without(units: seq<Hash>, j: nat): seq<Hash>
    requires j < |units|
  {
    units[..j] + units[j + 1..]
  }

  lemma WithoutShape(units: seq<Hash>, j: nat)
    requires j < |units|
    ensures forall u :: u in Without(units, j) ==> u in units
    ensures multiset(units) == multiset(Without(units, j)) + multiset{units[j]} && |Without(units, j)| == |units| - 1
    ensures var n := |units| - 1;
      if j == n then Without(units, j) == units[..n]
      else
        && Without(units, j) != [] && Without(units, j)[..n - 1] == Without(units[..n], j)
        && Without(units, j)[n - 1] == units[n] && units[..n][j] == units[j]
  {
    assert units == units[..j] + [units[j]] + units[j + 1..];
  }

  lemma {:induction false} BallsOfWithout(balls: map<Hash, Ball>, units: seq<Hash>, j: nat)
    requires j < |units| && forall u :: u in units ==> u in balls
    ensures forall u :: u in Without(units, j) ==> u in balls
    ensures BallsOf(balls, units) == BallsOf(balls, Without(units, j)) + multiset{balls[units[j]]}
    decreases |units|
  {
    hide BallsOf; hide Without;
    var n := |units| - 1;
    WithoutShape(units, j);
    BallsOfLast(balls, units);
    if j < n {
      BallsOfWithout(balls, units[..n], j);
      BallsOfLast(balls, Without(units, j));
    }
  }

  lemma PermutedRest(s: seq<Hash>, t: seq<Hash>) returns (j: nat)
    requires s != [] && multiset(s) == multiset(t)
    ensures j < |t| && t[j] == s[|s| - 1] && multiset(Without(t, j)) == multiset(s[..|s| - 1])
  {
    var n := |s| - 1;
    assert s == s[..n] + [s[n]];
    assert s[n] in multiset(t);
    j :| 0 <= j < |t| && t[j] == s[n];
    WithoutShape(t, j);
    hide Without;
    assert multiset(s) == multiset(s[..n]) + multiset{s[n]};
    assert multiset(Without(t, j)) == multiset(t) - multiset{s[n]};
    assert multiset(s[..n]) == multiset(s) - multiset{s[n]};
  }

  lemma {:induction false} BallsOfPermuted(balls: map<Hash, Ball>, s: seq<Hash>, t: seq<Hash>)
    requires multiset(s) == multiset(t) && (forall u :: u in s ==> u in balls) && forall u :: u in t ==> u in balls
    ensures BallsOf(balls, s) == BallsOf(balls, t)
    decreases |s|
  {
    if s == [] {
      assert |multiset(t)| == 0;
    } else {
      hide BallsOf; hide Without;
      var j := PermutedRest(s, t);
      BallsOfLast(balls, s);
      BallsOfWithout(balls, t, j);
      BallsOfPermuted(balls, s[..|s| - 1], Without(t, j));
    }
  }

  lemma BallAtAgrees(r: Run, q: Run, verdicts: map<Hash, bool>, balls: map<Hash, Ball>, i: nat)
    requires Same(r.d, q.d) && r.fin == q.fin && r.order == q.order && i < |r.order| && BallAt(q, verdicts, balls, i)
    ensures BallAt(r, verdicts, balls, i)
  {
    hide Same; hide Skips; hide BallFrom;
    var t :| BallIs(q, verdicts, balls, i, t);
    SkipsAgree(r, q, r.order[i], t);
    BallFromPermuted(r, q, balls, r.order[i], t, !verdicts[r.order[i]]);
    assert BallIs(r, verdicts, balls, i, t);
  }

  lemma BallsOkAgrees(r: Run, q: Run, verdicts: map<Hash, bool>, balls: map<Hash, Ball>, n: nat)
    requires Same(r.d, q.d) && r.fin == q.fin && r.order == q.order && BallsOk(q, verdicts, balls, n)
    ensures BallsOk(r, verdicts, balls, n)
  {
    hide Same; hide BallAt;
    forall i | 0 <= i < n ensures BallAt(r, verdicts, balls, i) { BallAtAgrees(r, q, verdicts, balls, i); }
  }

  lemma SkipsAgree(r: Run, q: Run, u: Hash, targets: seq<nat>)
    requires r.fin == q.fin && Skips(q, u, targets)
    ensures Skips(r, u, targets)
  {
  }

  lemma BallFromPermuted(r: Run, q: Run, balls: map<Hash, Ball>, u: Hash, targets: seq<nat>, bad: bool)
    requires Same(r.d, q.d) && r.fin == q.fin && u in q.d.units && forall p :: p in q.d.units[u].parents ==> p in balls
    requires forall j :: 0 <= j < |targets| ==> targets[j] < |q.fin.chain| && q.fin.chain[targets[j]] in balls
    ensures u in r.d.units && forall p :: p in r.d.units[u].parents ==> p in balls
    ensures BallFrom(r, balls, u, targets, bad) == BallFrom(q, balls, u, targets, bad)
  {
    SameAt(r.d, q.d, u);
    hide Same;
    BallsOfPermuted(balls, r.d.units[u].parents, q.d.units[u].parents);
  }

  lemma SameAt(d: Dag, e: Dag, u: Hash)
    requires Same(d, e)
    ensures u in d.units <==> u in e.units
    ensures u in d.units ==> multiset(d.units[u].parents) == multiset(e.units[u].parents)
    ensures u in d.units ==> forall p :: p in d.units[u].parents <==> p in e.units[u].parents
  {
    if u in d.units {
      assert forall p :: p in d.units[u].parents <==> p in multiset(d.units[u].parents);
      assert forall p :: p in e.units[u].parents <==> p in multiset(e.units[u].parents);
    }
  }

  // ---------------------------------------------------------------- two nodes

  /** What two nodes share: the units, and the last main-chain unit they have stabilised. */
  ghost predicate Alike(r: Run, q: Run)
  {
    && RunOk(r) && RunOk(q) && Same(r.d, q.d)
    && r.fin.chain != [] && q.fin.chain != [] && r.fin.chain[|r.fin.chain| - 1] == q.fin.chain[|q.fin.chain| - 1]
  }

  lemma AlikeFacts(r: Run, q: Run)
    requires Alike(r, q)
    ensures RunOk(r) && RunOk(q) && Same(r.d, q.d)
  {
  }

  /** They hold the same properties, the same index and the same order. */
  lemma SameOrder(r: Run, q: Run)
    requires Alike(r, q)
    ensures r.st == q.st && r.fin == q.fin && r.order == q.order
    ensures Positions(r) == Positions(q) && OrderOk(r.d, Positions(r), r.order) && OrderOk(q.d, Positions(q), q.order)
  {
    hide Indexed; hide ChannelOk; hide AuthorsOk; hide OrderOk; hide Same; hide InOrder; hide SameUnits;
    SameParents(r.d, q.d);
    RunOrder(r);
    RunOrder(q);
    NodesAgree(r.d, q.d, r.st, q.st, r.fin, q.fin);
    OrderUnique(r.fin, r.order, q.order);
  }

  /** Both nodes have decided on `u`, and if just one of them has marked it, the other one rejects it too. */
  ghost predicate MarkHarmless(u: Hash, s: Pipeline.State, s': Pipeline.State)
  {
    && u in s.verdicts && u in s'.verdicts
    && (u in s.marked && u !in s'.marked ==> !s'.verdicts[u])
    && (u in s'.marked && u !in s.marked ==> !s.verdicts[u])
  }

  ghost predicate MarksHarmless(order: seq<Hash>, s: Pipeline.State, s': Pipeline.State, n: nat)
  {
    n <= |order| && forall i :: 0 <= i < n ==> MarkHarmless(order[i], s, s')
  }

  /**
   * Whatever states two such nodes have reached, each through an interleaving of its own, they
   * hold the same order; on the first `n` units, handled by both, they have the same verdicts if and
   * only if marks set by just one of them are harmless; and having handled equally many they
   * have the same ledger, and having finalised `n` the same balls, if and only if they have
   * the same verdicts.
   */
  lemma NodesDecideAlike(r: Run, steps: seq<Step>, states: seq<Pipeline.State>, k: nat,
                         q: Run, steps': seq<Step>, states': seq<Pipeline.State>, k': nat, n: nat)
    requires Alike(r, q) && Reaches(r, steps, states) && k < |states| && Reaches(q, steps', states') && k' < |states'|
    requires n <= states[k].handled && n <= states'[k'].handled
    ensures r.order == q.order && r.fin == q.fin && r.st == q.st
    ensures var s, s' := states[k], states'[k'];
      && (SameVerdicts(r.order, s.verdicts, s'.verdicts, n) <==> MarksHarmless(r.order, s, s', n))
      && (n == s.handled == s'.handled ==>
           (s.ledger == s'.ledger <==> SameVerdicts(r.order, s.verdicts, s'.verdicts, n)))
      && (n <= s.finalised && n <= s'.finalised ==>
           (SameBalls(r.order, s.balls, s'.balls, n) <==> SameVerdicts(r.order, s.verdicts, s'.verdicts, n)))
  {
    hide RunOk; hide Reaches; hide Positions; hide Alike; hide Inv; hide SameVerdicts; hide SameBalls;
    hide MarksHarmless;
    AlikeFacts(r, q);
    SameOrder(r, q);
    var s, s' := states[k], states'[k'];
    ReachableInv(r, steps, states, k);
    ReachableInv(q, steps', states', k');
    VerdictsExactly(r, q, s, s', n);
    if n == s.handled == s'.handled { LedgersExactly(r, q, s, s'); }
    if n <= s.finalised && n <= s'.finalised {
      ReachableBalls(r, steps, states, k);
      ReachableBalls(q, steps', states', k');
      BallsExactly(r, q, s, s', n);
    }
  }

  /** What a node has recorded, in terms of its replay. */
  lemma Recorded(r: Run, s: Pipeline.State, i: nat)
    requires RunOk(r) && Inv(r, s) && OrderOk(r.d, Positions(r), r.order) && i < s.handled
    ensures i < |r.order| && r.order[i] in s.verdicts
    ensures s.verdicts[r.order[i]] <==> Verdict(r.d, s.marked, Positions(r), r.order, i)
  {
    hide RunOk; hide Inv; hide Positions; hide Verdict; hide OrderOk; hide BusinessOk;
    BusinessOfInv(r, s);
    BusinessFacts(r, s);
    assert VerdictIs(r, s.marked, s.verdicts, i);
  }

  lemma RecordedAgree(r: Run, q: Run, s: Pipeline.State, s': Pipeline.State, n: nat)
    requires Alike(r, q) && Inv(r, s) && Inv(q, s') && n <= s.handled && n <= s'.handled
    requires r.order == q.order && Positions(r) == Positions(q) && n <= |r.order|
    requires OrderOk(r.d, Positions(r), r.order) && OrderOk(q.d, Positions(r), r.order)
    ensures SameVerdicts(r.order, s.verdicts, s'.verdicts, n) <==>
      AgreeTo(r.d, s.marked, q.d, s'.marked, Positions(r), r.order, n)
    ensures MarksHarmless(r.order, s, s', n) <==>
      AllHarmless(r.d, s.marked, q.d, s'.marked, Positions(r), r.order, n)
  {
    hide RunOk; hide Inv; hide Positions; hide Verdict; hide OrderOk; hide Alike;
    AlikeFacts(r, q);
    forall i | 0 <= i < n
      ensures r.order[i] in s.verdicts && r.order[i] in s'.verdicts
      ensures s.verdicts[r.order[i]] <==> Verdict(r.d, s.marked, Positions(r), r.order, i)
      ensures s'.verdicts[r.order[i]] <==> Verdict(q.d, s'.marked, Positions(r), r.order, i)
      ensures MarkHarmless(r.order[i], s, s') <==>
        Harmless(r.d, s.marked, q.d, s'.marked, Positions(r), r.order, i)
    {
      Recorded(r, s, i);
      Recorded(q, s', i);
    }
    hide MarkHarmless; hide Harmless;
  }

  lemma VerdictsExactly(r: Run, q: Run, s: Pipeline.State, s': Pipeline.State, n: nat)
    requires Alike(r, q) && Inv(r, s) && Inv(q, s') && n <= s.handled && n <= s'.handled
    ensures SameVerdicts(r.order, s.verdicts, s'.verdicts, n) <==> MarksHarmless(r.order, s, s', n)
  {
    hide RunOk; hide Inv; hide Positions; hide OrderOk; hide Alike; hide SameVerdicts; hide MarksHarmless; hide Same;
    hide AgreeTo; hide AllHarmless;
    AlikeFacts(r, q);
    SameOrder(r, q);
    BusinessOfInv(r, s);
    RecordedAgree(r, q, s, s', n);
    MarksExactly(r.d, s.marked, q.d, s'.marked, Positions(r), r.order, n);
  }

  lemma LedgersExactly(r: Run, q: Run, s: Pipeline.State, s': Pipeline.State)
    requires Alike(r, q) && Inv(r, s) && Inv(q, s') && s.handled == s'.handled
    ensures s.ledger == s'.ledger <==> SameVerdicts(r.order, s.verdicts, s'.verdicts, s.handled)
  {
    hide RunOk; hide Inv; hide Positions; hide OrderOk; hide Alike; hide SameVerdicts; hide MarksHarmless; hide Same;
    hide AgreeTo; hide AllHarmless; hide BusinessOk; hide VerdictIs;
    AlikeFacts(r, q);
    SameOrder(r, q);
    BusinessOfInv(r, s);
    BusinessOfInv(q, s');
    BusinessFacts(r, s);
    BusinessFacts(q, s');
    var n, at := s.handled, Positions(r);
    RecordedAgree(r, q, s, s', n);
    AgreeIsSameLedger(r.d, s.marked, q.d, s'.marked, at, r.order, n);
    assert s.ledger == Replay(r.d, s.marked, at, r.order[..n]);
    assert s'.ledger == Replay(q.d, s'.marked, at, r.order[..n]);
  }

  lemma BallsExactly(r: Run, q: Run, s: Pipeline.State, s': Pipeline.State, n: nat)
    requires Alike(r, q) && n <= s.finalised && n <= s'.finalised
    requires BallsOk(r, s.verdicts, s.balls, s.finalised) && BallsOk(q, s'.verdicts, s'.balls, s'.finalised)
    ensures SameBalls(r.order, s.balls, s'.balls, n) <==> SameVerdicts(r.order, s.verdicts, s'.verdicts, n)
  {
    hide RunOk; hide Positions; hide OrderOk; hide Alike; hide SameVerdicts; hide SameBalls; hide Same; hide BallsOk;
    AlikeFacts(r, q);
    SameOrder(r, q);
    ShorterBalls(r, s.verdicts, s.balls, s.finalised, n);
    ShorterBalls(q, s'.verdicts, s'.balls, s'.finalised, n);
    BallsOkAgrees(r, q, s'.verdicts, s'.balls, n);
    SameBallsExactly(r, s.verdicts, s.balls, s'.verdicts, s'.balls, n);
  }

  /**
   * In every reachable state the first `n` recorded verdicts are those of sequential replay
   * without marks if and only if that replay rejects every unit among them marked at admission.
   */
  lemma ReplayExactly(r: Run, steps: seq<Step>, states: seq<Pipeline.State>, k: nat, n: nat)
    requires RunOk(r) && Reaches(r, steps, states) && k < |states| && n <= states[k].handled
    ensures OrderOk(r.d, Positions(r), r.order) && n <= |r.order|
    ensures var s, at := states[k], Positions(r);
      (forall i :: 0 <= i < n ==> VerdictIs(r, {}, s.verdicts, i)) <==>
      (forall i :: 0 <= i < n && r.order[i] in s.marked ==> !Verdict(r.d, {}, at, r.order, i))
  {
    hide RunOk; hide Reaches; hide Inv; hide Positions; hide Verdict; hide OrderOk; hide BusinessOk;
    var s, at := states[k], Positions(r);
    RunOrder(r);
    ReachableInv(r, steps, states, k);
    BusinessOfInv(r, s);
    forall i | 0 <= i < n
      ensures VerdictIs(r, {}, s.verdicts, i) <==>
        (Verdict(r.d, s.marked, at, r.order, i) <==> Verdict(r.d, {}, at, r.order, i))
    {
      Recorded(r, s, i);
    }
    UnmarkedExactly(r.d, s.marked, at, r.order, n);
    hide VerdictIs;
  }
}
