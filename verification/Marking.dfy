/**
 * The main chain worker: writing the index in place, one stable unit at a time
 * (src/main_chain.rs).
 */
module Marking {
  import opened Dag
  import opened StaticProps
  import opened MainChain

  // ---------------------------------------------------------------- sorting a batch

  function Insert(st: Statics, x: Hash, s: seq<Hash>): (r: seq<Hash>)
    requires x in st && x !in s && StrictlySorted(st, s)
    ensures StrictlySorted(st, r)
    ensures forall y :: y in r <==> y == x || y in s
  {
    if s == [] then [x]
    else if KeyLess(st, x, s[0]) then [x] + s
    else
      var t := Insert(st, x, s[1..]);
      assert forall y :: y in t ==> KeyLess(st, s[0], y);
      [s[0]] + t
  }

  /** What `sort_by` on (level, hash) leaves of a list without repetition. */
  function Sorted(st: Statics, s: seq<Hash>): (r: seq<Hash>)
    requires (forall x :: x in s ==> x in st) && (forall i, j :: 0 <= i < j < |s| ==> s[i] != s[j])
    ensures StrictlySorted(st, r)
    ensures forall y :: y in r <==> y in s
  {
    if s == [] then []
    else Insert(st, s[0], Sorted(st, s[1..]))
  }

  // ---------------------------------------------------------------- collecting a batch

  /** Every parent of a found unit is found, queued or already marked. */
  ghost predicate ParentsSeen(d: Dag, found: seq<Hash>, queue: seq<Hash>, marked: set<Hash>)
  {
    forall u, p :: u in found && u in d.units && p in d.units[u].parents ==> p in found || p in queue || p in marked
  }

  lemma ParentsSeenStep(d: Dag, found: seq<Hash>, queue: seq<Hash>, marked: set<Hash>, joint: Hash)
    requires joint in d.units && ParentsSeen(d, found, [joint] + queue, marked)
    ensures ParentsSeen(d, found + [joint], queue + d.units[joint].parents, marked)
    ensures joint in found || joint in marked ==> ParentsSeen(d, found, queue, marked)
  {
    forall u, p | u in found && u in d.units && p in d.units[u].parents
      ensures p in found || p == joint || p in queue || p in marked
    {
      assert p in found || p in [joint] + queue || p in marked;
    }
  }

  lemma FoundAll(d: Dag, found: seq<Hash>, marked: set<Hash>, main: Hash)
    requires WellFormed(d) && main in found && ParentsSeen(d, found, [], marked)
    requires forall u, p :: u in marked && u in d.units && p in d.units[u].parents ==> p in marked
    ensures forall u :: Le(d, u, main) && u !in marked ==> u in found
  {
    var closed := marked + set u | u in found;
    forall u, p | u in closed && u in d.units && p in d.units[u].parents ensures p in closed {
      if u in found { assert p in found || p in marked; }
    }
    forall u | Le(d, u, main) && u !in marked ensures u in found {
      ClosedHoldsAncestors(d, closed, u, main);
    }
  }

  lemma ParentsBelow(d: Dag, u: Hash, main: Hash)
    requires WellFormed(d) && Le(d, u, main)
    ensures u in d.units && forall p :: p in d.units[u].parents ==> Le(d, p, main)
  {
    LeKnown(d, u, main);
    forall p | p in d.units[u].parents ensures Le(d, p, main) {
      assert Le(d, p, p) && Le(d, p, u);
      LeTransitive(d, p, u, main);
    }
  }

  /** Breadth-first search over unmarked ancestors; a unit may be queued several times. */
  method CollectUnmarked(d: Dag, marked: set<Hash>, main: Hash) returns (found: seq<Hash>)
    requires WellFormed(d) && main in d.units && main !in marked
    requires forall u, p :: u in marked && u in d.units && p in d.units[u].parents ==> p in marked
    ensures forall u :: u in found <==> Le(d, u, main) && u !in marked
    ensures forall i, j :: 0 <= i < j < |found| ==> found[i] != found[j]
  {
    hide WellFormed; hide Le; hide Frontier;
    var queue := [main];
    found := [];
    ghost var rest := d.units.Keys;
    FrontierStart(d, marked, main);
    while queue != []
      invariant Frontier(d, marked, main, found, queue)
      invariant forall u :: u in rest <==> u in d.units && u !in found
      decreases |rest|, |queue|
    {
      var joint := queue[0];
      assert queue == [joint] + queue[1..];
      queue := queue[1..];
      FrontierStep(d, marked, main, found, joint, queue);
      if joint !in found && joint !in marked {
        queue := queue + d.units[joint].parents;
        found := found + [joint];
        rest := rest - {joint};
      }
    }
    FrontierEnd(d, marked, main, found);
  }

  /** What has been found and what is still queued: all below `main`, each found once, no parent forgotten. */
  ghost predicate Frontier(d: Dag, marked: set<Hash>, main: Hash, found: seq<Hash>, queue: seq<Hash>)
    requires WellFormed(d)
  {
    && (forall q :: q in queue ==> Le(d, q, main))
    && (forall u :: u in found ==> Le(d, u, main) && u !in marked)
    && (forall i, j :: 0 <= i < j < |found| ==> found[i] != found[j])
    && (main in found || main in queue)
    && ParentsSeen(d, found, queue, marked)
  }

  lemma FrontierStart(d: Dag, marked: set<Hash>, main: Hash)
    requires WellFormed(d) && main in d.units
    ensures Frontier(d, marked, main, [], [main])
  {
    assert Le(d, main, main);
  }

  lemma FrontierStep(d: Dag, marked: set<Hash>, main: Hash, found: seq<Hash>, joint: Hash, queue: seq<Hash>)
    requires WellFormed(d) && main !in marked && Frontier(d, marked, main, found, [joint] + queue)
    ensures joint in d.units
    ensures joint in found || joint in marked ==> Frontier(d, marked, main, found, queue)
    ensures joint !in found && joint !in marked ==>
      Frontier(d, marked, main, found + [joint], queue + d.units[joint].parents)
  {
    hide WellFormed; hide Le; hide ParentsSeen;
    assert joint in [joint] + queue;
    ParentsBelow(d, joint, main);
    ParentsSeenStep(d, found, queue, marked, joint);
    assert forall q :: q in queue ==> q in [joint] + queue;
  }

  lemma FrontierEnd(d: Dag, marked: set<Hash>, main: Hash, found: seq<Hash>)
    requires WellFormed(d) && Frontier(d, marked, main, found, [])
    requires forall u, p :: u in marked && u in d.units && p in d.units[u].parents ==> p in marked
    ensures forall u :: u in found <==> Le(d, u, main) && u !in marked
    ensures forall i, j :: 0 <= i < j < |found| ==> found[i] != found[j]
  {
    hide WellFormed; hide Le;
    FoundAll(d, found, marked, main);
  }

  ghost predicate IsMaxOf(s: seq<Hash>, numbers: map<Hash, nat>, k: nat)
  {
    && (forall p :: p in s ==> p in numbers && numbers[p] <= k)
    && (s != [] ==> exists p :: p in s && numbers[p] == k)
  }

  /** The largest valid limci among the parents, from zero. */
  method MaxParentLimci(parents: seq<Hash>, limci: map<Hash, nat>) returns (k: nat)
    requires forall p :: p in parents ==> p in limci
    ensures IsMaxOf(parents, limci, k)
  {
    k := 0;
    for i := 0 to |parents|
      invariant forall p :: p in parents[..i] ==> limci[p] <= k
      invariant i == 0 ==> k == 0
      invariant i > 0 ==> exists p :: p in parents[..i] && limci[p] == k
    {
      assert parents[..i + 1] == parents[..i] + [parents[i]];
      if limci[parents[i]] > k {
        k := limci[parents[i]];
      }
      if i == 0 { assert parents[0] in parents[..1] && limci[parents[0]] == k; }
    }
    assert parents[..|parents|] == parents;
  }

  /** The batch of `main`: its unmarked ancestors, sorted. */
  method BuildBatch(d: Dag, st: Statics, marked: set<Hash>, main: Hash) returns (batch: seq<Hash>)
    requires Full(d, st) && main in d.units && main !in marked
    requires forall u, p :: u in marked && u in d.units && p in d.units[u].parents ==> p in marked
    ensures IsBatch(d, st, marked, main, batch)
  {
    var found := CollectUnmarked(d, marked, main);
    forall u | u in found ensures u in st { LeKnown(d, u, main); }
    batch := Sorted(st, found);
  }

  /** The order in which units reach the business worker: by mci, then by level and hash. */
  ghost predicate ChannelOk(st: Statics, mci: map<Hash, nat>, channel: seq<Hash>)
  {
    && (forall u :: u in channel <==> u in mci)
    && (forall u :: u in channel ==> u in st)
    && (forall i, j :: 0 <= i < j < |channel| ==>
         || mci[channel[i]] < mci[channel[j]]
         || (mci[channel[i]] == mci[channel[j]] && KeyLess(st, channel[i], channel[j])))
  }

  // ---------------------------------------------------------------- one marking

  /** The first `i` units of a batch with index `n` have been written on top of `m`. */
  ghost predicate Written(m: Marks, main: Hash, batch: seq<Hash>, i: nat, now: Marks)
    requires i <= |batch|
  {
    && (forall u :: u in now.mci <==> u in m.mci || u in batch[..i])
    && now.sub.Keys == now.mci.Keys && now.limci.Keys == now.mci.Keys + {main}
    && Earlier(m, now) && now.chain == m.chain
    && (forall j :: 0 <= j < i ==> batch[j] in now.mci && now.mci[batch[j]] == |m.chain| && now.sub[batch[j]] == j)
  }

  ghost predicate LimciOk(d: Dag, chain: seq<Hash>, limci: map<Hash, nat>)
    requires WellFormed(d)
  {
    forall u {:trigger IsLimci(d, chain, u, limci[u])} :: u in limci ==> IsLimci(d, chain, u, limci[u])
  }

  lemma MarkedClosed(d: Dag, st: Statics, m: Marks)
    requires Indexed(d, st, m)
    ensures forall u, p :: u in m.mci && u in d.units && p in d.units[u].parents ==> p in m.mci
  {
    forall u, p | u in m.mci && u in d.units && p in d.units[u].parents ensures p in m.mci {
      assert Le(d, p, p) && Le(d, p, u);
      IndexMonotone(d, st, m, p, u);
    }
  }

  lemma FullOfIndexed(d: Dag, st: Statics, m: Marks)
    requires Indexed(d, st, m)
    ensures Full(d, st) && WellFormed(d) && ChainOk(d, st, m.chain)
  {
  }

  lemma NextIsUnmarked(d: Dag, st: Statics, m: Marks, main: Hash)
    requires Indexed(d, st, m) && ChainOk(d, st, m.chain + [main])
    ensures main in d.units && main !in m.mci
    ensures Full(d, st) && m.mci.Keys == m.limci.Keys == m.sub.Keys
  {
    var longer := m.chain + [main];
    assert longer[|m.chain|] == main;
    if main in m.mci {
      assert IsMci(d, m.chain, main, m.mci[main]);
      assert longer[m.mci[main]] == m.chain[m.mci[main]];
      ChainLe(d, st, longer, m.mci[main], |m.chain|);
      LevelIncreases(d, st, main, m.chain[m.mci[main]]);
    }
  }

  lemma LimciStays(d: Dag, st: Statics, m: Marks, main: Hash, u: Hash)
    requires Indexed(d, st, m) && ChainOk(d, st, m.chain + [main]) && u in m.limci
    ensures IsLimci(d, m.chain + [main], u, m.limci[u])
  {
    assert IsLimci(d, m.chain, u, m.limci[u]) && IsMci(d, m.chain, u, m.mci[u]);
    LimciSurvives(d, st, m.chain, main, u, m.limci[u], m.mci[u]);
  }

  /** Writing limci of the main-chain unit first keeps every limci right for the longer chain. */
  lemma FirstWrite(d: Dag, st: Statics, m: Marks, main: Hash, now: Marks)
    requires Indexed(d, st, m) && ChainOk(d, st, m.chain + [main]) && main !in m.mci
    requires now == m.(limci := m.limci[main := |m.chain|])
    ensures LimciOk(d, m.chain + [main], now.limci) && Earlier(m, now)
  {
    var limci := now.limci;
    var longer := m.chain + [main];
    forall u | u in limci ensures IsLimci(d, longer, u, limci[u]) {
      if u != main {
        LimciStays(d, st, m, main, u);
      } else {
        assert longer[|m.chain|] == main && Le(d, main, main);
      }
    }
  }

  lemma SortedPosition(st: Statics, batch: seq<Hash>, i: nat, p: Hash)
    requires StrictlySorted(st, batch) && i < |batch|
    ensures batch[i] !in batch[..i]
    ensures p in batch && KeyLess(st, p, batch[i]) ==> p in batch[..i]
  {
    forall j | 0 <= j < i ensures batch[j] != batch[i] { assert KeyLess(st, batch[j], batch[i]); }
    if p in batch && KeyLess(st, p, batch[i]) {
      var j :| 0 <= j < |batch| && batch[j] == p;
      assert j < i;
      assert batch[..i][j] == p;
    }
  }

  /** When a unit's turn comes it is not written yet, but its parents are. */
  lemma TurnOf(d: Dag, st: Statics, m: Marks, main: Hash, batch: seq<Hash>, i: nat, now: Marks)
    requires Full(d, st) && IsBatch(d, st, m.mci.Keys, main, batch)
    requires i < |batch| && Written(m, main, batch, i, now)
    ensures batch[i] !in now.mci && batch[i] !in now.sub && batch[i] in d.units
    ensures forall p :: p in d.units[batch[i]].parents ==> p in now.mci && p in now.limci
  {
    hide Le;
    var u := batch[i];
    assert u in batch;
    SortedPosition(st, batch, i, u);
    ParentsBelow(d, u, main);
    ParentsLower(d, st, u);
    hide StaticOk;
    forall p | p in d.units[u].parents ensures p in now.mci {
      SortedPosition(st, batch, i, p);
    }
  }

  /** Of the units still to be written only `main` is on the longer chain. */
  lemma OffChain(d: Dag, st: Statics, m: Marks, main: Hash, u: Hash)
    requires Indexed(d, st, m) && ChainOk(d, st, m.chain + [main]) && u in d.units && u !in m.mci && u != main
    ensures u !in m.chain + [main] && d.units[u].parents != []
  {
    forall k | 0 <= k < |m.chain| ensures m.chain[k] != u {
      assert Le(d, m.chain[k], m.chain[k]);
      assert m.chain[k] in m.mci;
    }
    assert IsGenesis(d, (m.chain + [main])[0]);
    assert d.units[u].parents == [] ==> IsGenesis(d, u);
  }

  /** A limci taken from the parents is right. */
  lemma LimciWritten(d: Dag, st: Statics, m: Marks, main: Hash, batch: seq<Hash>, i: nat, now: Marks,
      limci: map<Hash, nat>)
    requires Indexed(d, st, m) && ChainOk(d, st, m.chain + [main]) && IsBatch(d, st, m.mci.Keys, main, batch)
    requires i < |batch| && Written(m, main, batch, i, now) && LimciOk(d, m.chain + [main], now.limci)
    requires batch[i] !in now.mci && batch[i] in d.units
    requires forall p :: p in d.units[batch[i]].parents ==> p in now.mci
    requires batch[i] in now.limci ==> limci == now.limci
    requires batch[i] !in now.limci ==>
      && batch[i] in limci && limci == now.limci[batch[i] := limci[batch[i]]]
      && IsMaxOf(d.units[batch[i]].parents, now.limci, limci[batch[i]])
    ensures LimciOk(d, m.chain + [main], limci)
  {
    var u := batch[i];
    if u !in now.limci {
      OffChain(d, st, m, main, u);
      hide Indexed;
      hide Le;
      forall p | p in d.units[u].parents ensures p in now.limci && IsLimci(d, m.chain + [main], p, now.limci[p]) {
      }
      LimciFromParents(d, m.chain + [main], now.limci, u, limci[u]);
      forall v | v in limci ensures IsLimci(d, m.chain + [main], v, limci[v]) {
        if v != u { assert IsLimci(d, m.chain + [main], v, now.limci[v]); }
      }
    }
  }

  lemma WriteNone(m: Marks, main: Hash, batch: seq<Hash>, now: Marks)
    requires main !in m.mci && m.mci.Keys == m.sub.Keys == m.limci.Keys
    requires now == m.(limci := m.limci[main := |m.chain|])
    ensures Written(m, main, batch, 0, now)
  {
  }

  lemma WriteOne(m: Marks, main: Hash, batch: seq<Hash>, i: nat, now: Marks, l: nat)
    requires i < |batch| && Written(m, main, batch, i, now) && batch[i] !in now.mci
    requires batch[i] in now.limci ==> now.limci[batch[i]] == l
    ensures Written(m, main, batch, i + 1,
              Marks(now.mci[batch[i] := |m.chain|], now.limci[batch[i] := l], now.sub[batch[i] := i], now.chain))
  {
    assert batch[..i + 1] == batch[..i] + [batch[i]];
    assert forall j :: 0 <= j < i ==> batch[j] in now.mci;
  }

  lemma MciExtends(d: Dag, chain: seq<Hash>, main: Hash, u: Hash, k: nat)
    requires WellFormed(d) && IsMci(d, chain, u, k)
    ensures IsMci(d, chain + [main], u, k)
  {
  }

  lemma MciOfNew(d: Dag, chain: seq<Hash>, main: Hash, u: Hash)
    requires WellFormed(d) && Le(d, u, main) && forall k :: 0 <= k < |chain| ==> !Le(d, u, chain[k])
    ensures u in d.units && IsMci(d, chain + [main], u, |chain|)
  {
    LeKnown(d, u, main);
    hide Le;
    assert (chain + [main])[|chain|] == main;
    forall k | 0 <= k < |chain| ensures !Le(d, u, (chain + [main])[k]) { assert (chain + [main])[k] == chain[k]; }
  }

  lemma UnmarkedIsNew(d: Dag, st: Statics, m: Marks, u: Hash)
    requires Indexed(d, st, m)
    ensures u !in m.mci ==> forall k :: 0 <= k < |m.chain| ==> !Le(d, u, m.chain[k])
    ensures u in m.mci ==> u in st && IsMci(d, m.chain, u, m.mci[u])
  {
  }

  lemma BatchMci(d: Dag, st: Statics, m: Marks, main: Hash, batch: seq<Hash>, now: Marks, u: Hash)
    requires Indexed(d, st, m) && IsBatch(d, st, m.mci.Keys, main, batch)
    requires Written(m, main, batch, |batch|, now) && u in now.mci
    ensures u in st && IsMci(d, m.chain + [main], u, now.mci[u])
  {
    hide Indexed; hide Le; hide IsMci; hide StrictlySorted;
    FullOfIndexed(d, st, m);
    hide WellFormed; hide StaticOk; hide ChainOk;
    assert batch[..|batch|] == batch;
    UnmarkedIsNew(d, st, m, u);
    if u in m.mci {
      MciExtends(d, m.chain, main, u, m.mci[u]);
    } else {
      var j :| 0 <= j < |batch| && batch[j] == u;
      MciOfNew(d, m.chain, main, u);
    }
  }

  lemma OldPredecessors(st: Statics, m: Marks, main: Hash, batch: seq<Hash>, now: Marks, u: Hash)
    requires Written(m, main, batch, |batch|, now) && u in m.mci && now.mci.Keys <= st.Keys
    requires m.mci[u] < |m.chain|
    ensures m.mci.Keys <= st.Keys && Predecessors(st, now.mci, u) == Predecessors(st, m.mci, u)
  {
    assert batch[..|batch|] == batch;
    assert forall v :: v in Predecessors(st, now.mci, u) ==> v in m.mci;
  }

  lemma NewPredecessors(st: Statics, m: Marks, main: Hash, batch: seq<Hash>, now: Marks, j: nat)
    requires Written(m, main, batch, |batch|, now) && j < |batch| && now.mci.Keys <= st.Keys
    requires StrictlySorted(st, batch) && forall v :: v in m.mci ==> m.mci[v] < |m.chain|
    ensures |Predecessors(st, now.mci, batch[j])| == j
  {
    assert batch[..|batch|] == batch;
    var before := Predecessors(st, now.mci, batch[j]);
    forall v ensures v in before <==> v in batch[..j] {
      if v in before {
        assert v !in m.mci && v in batch;
        var i :| 0 <= i < |batch| && batch[i] == v;
        assert !(j < i && KeyLess(st, batch[j], v));
        assert i < j && batch[..j][i] == v;
      }
      if v in batch[..j] {
        var i :| 0 <= i < j && batch[i] == v;
        assert KeyLess(st, batch[i], batch[j]);
      }
    }
    PrefixCardinality(batch, before, j);
  }

  lemma BatchSub(d: Dag, st: Statics, m: Marks, main: Hash, batch: seq<Hash>, now: Marks, u: Hash)
    requires Indexed(d, st, m) && IsBatch(d, st, m.mci.Keys, main, batch)
    requires Written(m, main, batch, |batch|, now) && u in now.mci && now.mci.Keys <= st.Keys
    ensures now.sub[u] == |Predecessors(st, now.mci, u)|
  {
    forall v | v in m.mci ensures m.mci[v] < |m.chain| { assert IsMci(d, m.chain, v, m.mci[v]); }
    if u in m.mci {
      OldPredecessors(st, m, main, batch, now, u);
      assert m.sub[u] == |Predecessors(st, m.mci, u)|;
    } else {
      assert u in batch[..|batch|];
      var j :| 0 <= j < |batch| && batch[j] == u;
      NewPredecessors(st, m, main, batch, now, j);
    }
  }

  lemma BatchCovers(d: Dag, st: Statics, m: Marks, main: Hash, batch: seq<Hash>, now: Marks, u: Hash, k: nat)
    requires Indexed(d, st, m) && IsBatch(d, st, m.mci.Keys, main, batch) && Written(m, main, batch, |batch|, now)
    requires k < |m.chain + [main]| && Le(d, u, (m.chain + [main])[k])
    ensures u in now.mci
  {
    assert batch[..|batch|] == batch;
    if k < |m.chain| {
      assert Le(d, u, m.chain[k]);
    }
  }

  lemma BatchIndices(d: Dag, st: Statics, m: Marks, main: Hash, batch: seq<Hash>, now: Marks)
    requires Indexed(d, st, m) && main in st && IsBatch(d, st, m.mci.Keys, main, batch)
    requires Written(m, main, batch, |batch|, now)
    ensures main in now.mci && now.mci.Keys <= st.Keys
    ensures forall u {:trigger IsMci(d, m.chain + [main], u, now.mci[u])} :: u in now.mci ==>
      IsMci(d, m.chain + [main], u, now.mci[u])
    ensures forall u {:trigger Predecessors(st, now.mci, u)} :: u in now.mci ==>
      now.sub[u] == |Predecessors(st, now.mci, u)|
  {
    assert Le(d, main, main) && (m.chain + [main])[|m.chain|] == main;
    BatchCovers(d, st, m, main, batch, now, main, |m.chain|);
    forall u | u in now.mci ensures u in st && IsMci(d, m.chain + [main], u, now.mci[u]) {
      BatchMci(d, st, m, main, batch, now, u);
    }
    forall u | u in now.mci ensures now.sub[u] == |Predecessors(st, now.mci, u)| {
      BatchSub(d, st, m, main, batch, now, u);
    }
  }

  lemma AllCovered(d: Dag, st: Statics, m: Marks, main: Hash, batch: seq<Hash>, now: Marks)
    requires Indexed(d, st, m) && IsBatch(d, st, m.mci.Keys, main, batch)
    requires Written(m, main, batch, |batch|, now)
    ensures forall u, k :: 0 <= k < |m.chain + [main]| && Le(d, u, (m.chain + [main])[k]) ==> u in now.mci
  {
    forall u, k | 0 <= k < |m.chain + [main]| && Le(d, u, (m.chain + [main])[k]) ensures u in now.mci {
      BatchCovers(d, st, m, main, batch, now, u, k);
    }
  }

  /** Writing the whole batch gives the right index for the longer chain. */
  lemma LastWrite(d: Dag, st: Statics, m: Marks, main: Hash, batch: seq<Hash>, now: Marks, n: Marks)
    requires Indexed(d, st, m) && ChainOk(d, st, m.chain + [main]) && IsBatch(d, st, m.mci.Keys, main, batch)
    requires main in d.units
    requires Written(m, main, batch, |batch|, now) && LimciOk(d, m.chain + [main], now.limci)
    requires n == Marks(now.mci, now.limci, now.sub, m.chain + [main])
    ensures Indexed(d, st, n) && Earlier(now, n) && Earlier(m, n)
  {
    hide StaticOk; hide IsBatch; hide IsMci; hide IsLimci; hide Predecessors; hide Le; hide WellFormed;
    BatchIndices(d, st, m, main, batch, now);
    AllCovered(d, st, m, main, batch, now);
  }

  lemma ChannelGrows(d: Dag, st: Statics, m: Marks, main: Hash, batch: seq<Hash>, now: Marks, channel: seq<Hash>)
    requires Indexed(d, st, m) && IsBatch(d, st, m.mci.Keys, main, batch) && ChannelOk(st, m.mci, channel)
    requires Written(m, main, batch, |batch|, now)
    ensures ChannelOk(st, now.mci, channel + batch)
  {
    hide Indexed; hide Le;
    IndexShape(d, st, m);
    assert batch[..|batch|] == batch;
    var all := channel + batch;
    forall i, j | 0 <= i < j < |all|
      ensures now.mci[all[i]] < now.mci[all[j]] || (now.mci[all[i]] == now.mci[all[j]] && KeyLess(st, all[i], all[j]))
    {
      if j < |channel| {
        assert all[i] == channel[i] && all[j] == channel[j];
      } else if i < |channel| {
        assert all[i] in m.mci && all[j] == batch[j - |channel|];
      } else {
        assert all[i] == batch[i - |channel|] && all[j] == batch[j - |channel|];
      }
    }
  }

  /** mc_units holds the chain: index by index. */
  ghost predicate RecordedOk(mcUnits: map<nat, Hash>, chain: seq<Hash>)
  {
    && (forall k :: k in mcUnits <==> 0 <= k < |chain|)
    && (forall k :: 0 <= k < |chain| ==> mcUnits[k] == chain[k])
  }

  lemma RecordOne(mcUnits: map<nat, Hash>, chain: seq<Hash>, main: Hash)
    requires RecordedOk(mcUnits, chain)
    ensures RecordedOk(mcUnits[|chain| := main], chain + [main])
  {
  }

  ghost predicate AllEarlier(d: Dag, moments: seq<Marks>, now: Marks)
  {
    Settled(d, now) && forall m :: m in moments ==> Earlier(m, now) && Settled(d, m)
  }

  lemma EarlierSelf(a: Marks)
    ensures Earlier(a, a)
  {
  }

  lemma EarlierTransitive(a: Marks, b: Marks, c: Marks)
    requires Earlier(a, b) && Earlier(b, c)
    ensures Earlier(a, c)
  {
  }

  lemma StillSettled(d: Dag, moments: seq<Marks>, a: Marks, b: Marks)
    requires AllEarlier(d, moments, a) && b.mci == a.mci && b.limci == a.limci && a.sub.Keys <= b.sub.Keys
    ensures Settled(d, b)
  {
  }

  lemma MoreSettled(d: Dag, moments: seq<Marks>, a: Marks, b: Marks)
    requires AllEarlier(d, moments, a) && b.mci == a.mci && a.limci.Keys <= b.limci.Keys && b.sub == a.sub
    ensures Settled(d, b)
  {
  }

  lemma MarkedSettled(d: Dag, moments: seq<Marks>, a: Marks, b: Marks, u: Hash)
    requires AllEarlier(d, moments, a) && b.mci.Keys == a.mci.Keys + {u} && b.limci == a.limci && u in a.limci
    requires b.sub == a.sub && u in a.sub
    requires u in d.units && forall p :: p in d.units[u].parents ==> p in a.mci
    ensures Settled(d, b)
  {
  }

  lemma EarlierStep(d: Dag, moments: seq<Marks>, a: Marks, b: Marks)
    requires AllEarlier(d, moments, a) && Earlier(a, b) && Settled(d, b)
    ensures AllEarlier(d, moments + [b], b)
  {
  }

  // ---------------------------------------------------------------- one update of the main chain

  ghost function Top(chain: seq<Hash>): Option<Hash>
  {
    if chain == [] then None else Some(chain[|chain| - 1])
  }

  lemma ChainExtends(d: Dag, st: Statics, chain: seq<Hash>, u: Hash)
    requires Full(d, st) && ChainOk(d, st, chain) && u in st && st[u].bp == Top(chain)
    ensures ChainOk(d, st, chain + [u])
  {
    var longer := chain + [u];
    forall i, j | 0 <= i && j == i + 1 && j < |longer| ensures st[longer[j]].bp == Some(longer[i]) {
      if j < |chain| { assert st[chain[j]].bp == Some(chain[i]); }
    }
  }

  /** `list` goes down best parents from `joint`, stopping right above `stop`. */
  ghost predicate DownTo(st: Statics, joint: Hash, list: seq<Hash>, stop: Option<Hash>)
  {
    && (forall i :: 0 <= i < |list| ==> list[i] in st)
    && (forall i, j :: 0 <= i && j == i + 1 && j < |list| ==> st[list[i]].bp == Some(list[j]))
    && if list == [] then stop == Some(joint) else list[0] == joint && st[list[|list| - 1]].bp == stop
  }

  lemma DownToNone(st: Statics, joint: Hash)
    ensures DownTo(st, joint, [], Some(joint))
  {
  }

  lemma DownToEnd(st: Statics, joint: Hash, list: seq<Hash>, stop: Option<Hash>)
    requires DownTo(st, joint, list, stop) && list == []
    ensures stop == Some(joint)
  {
  }

  lemma DownToStep(st: Statics, joint: Hash, list: seq<Hash>, u: Hash)
    requires DownTo(st, joint, list, Some(u)) && u in st
    ensures DownTo(st, joint, list + [u], st[u].bp)
  {
  }

  lemma DownToBack(st: Statics, joint: Hash, list: seq<Hash>, stop: Option<Hash>)
    requires DownTo(st, joint, list, stop) && list != []
    ensures var u := list[|list| - 1]; u in st && st[u].bp == stop && DownTo(st, joint, list[..|list| - 1], Some(u))
  {
  }

  lemma BpKnown(d: Dag, st: Statics, m: Marks, u: Hash)
    requires Indexed(d, st, m) && u in st
    ensures WellFormed(d) && BpOk(d, st)
    ensures st[u].bp.Some? ==> st[u].bp.value in st && Rank(d, st[u].bp.value) < Rank(d, u)
    ensures m.chain == [] ==> u !in m.mci
  {
    if u in m.mci { assert IsMci(d, m.chain, u, m.mci[u]); }
  }

  /** Going down best parents to the stable point, the first unit on the main chain is that point. */
  lemma FirstHitIsTop(d: Dag, st: Statics, m: Marks, u: Hash)
    requires Indexed(d, st, m) && m.chain != [] && BpLe(d, st, m.chain[|m.chain| - 1], u)
    ensures u in m.mci && u in m.limci && m.mci[u] == m.limci[u] ==>
      u == m.chain[|m.chain| - 1] && m.mci[u] == |m.chain| - 1
    ensures !(u in m.mci && u in m.limci && m.mci[u] == m.limci[u]) ==>
      u in st && st[u].bp.Some? && BpLe(d, st, m.chain[|m.chain| - 1], st[u].bp.value)
  {
    var n := |m.chain| - 1;
    var top := m.chain[n];
    BpLeKnown(d, st, top, u);
    if u in m.mci && m.mci[u] == m.limci[u] {
      OnMainChainIsRecorded(d, st, m, u);
      ChainLe(d, st, m.chain, m.mci[u], n);
      LeAntisymmetric(d, top, u);
    } else if u == top {
      assert Le(d, top, top) && top in m.mci;
      OnMainChainIsRecorded(d, st, m, top);
    }
  }

  class Worker {
    const d: Dag
    const st: Statics
    var mci: map<Hash, nat>
    var limci: map<Hash, nat>
    var subMci: map<Hash, nat>
    var mcUnits: map<nat, Hash>
    var channel: seq<Hash>
    ghost var chain: seq<Hash>
    /** Every state another thread could have read so far. */
    ghost var moments: seq<Marks>

    ghost function Now(): Marks
      reads this
    {
      Marks(mci, limci, subMci, chain)
    }

    /** The index between two markings. */
    ghost predicate Valid()
      reads this
    {
      && Indexed(d, st, Now())
      && RecordedOk(mcUnits, chain)
      && ChannelOk(st, mci, channel)
      && AllEarlier(d, moments, Now())
    }

    constructor (d: Dag, st: Statics)
      requires Full(d, st)
      ensures Valid() && this.d == d && this.st == st && chain == [] && channel == []
    {
      this.d, this.st := d, st;
      mci, limci, subMci, mcUnits, channel := map[], map[], map[], map[], [];
      chain, moments := [], [];
    }

    /** Write the numbers of one unit: sub_mci, then limci unless already set, then mci. */
    method WriteUnit(u: Hash, n: nat, sub: nat)
      requires u in d.units && u !in mci && u !in subMci
      requires forall p :: p in d.units[u].parents ==> p in mci && p in limci
      requires AllEarlier(d, moments, Now())
      modifies `mci, `limci, `subMci, `moments
      ensures mci == old(mci)[u := n] && subMci == old(subMci)[u := sub]
      ensures u in old(limci) ==> limci == old(limci)
      ensures u !in old(limci) ==>
        u in limci && limci == old(limci)[u := limci[u]] && IsMaxOf(d.units[u].parents, old(limci), limci[u])
      ensures AllEarlier(d, moments, Now())
      ensures old(moments) <= moments
    {
      hide AllEarlier; hide Settled; hide IsMaxOf;
      SetSubMci(u, sub);
      if u !in limci {
        var k := MaxParentLimci(d.units[u].parents, limci);
        SetLimci(u, k);
      }
      SetMci(u, n);
    }

    method SetSubMci(u: Hash, sub: nat)
      requires u !in subMci && AllEarlier(d, moments, Now())
      modifies `subMci, `moments
      ensures subMci == old(subMci)[u := sub] && AllEarlier(d, moments, Now()) && old(moments) <= moments
    {
      hide AllEarlier; hide Settled;
      ghost var before := Now();
      subMci := subMci[u := sub];
      StillSettled(d, moments, before, Now());
      Remember(before);
    }

    method SetLimci(u: Hash, k: nat)
      requires u !in limci && AllEarlier(d, moments, Now())
      modifies `limci, `moments
      ensures limci == old(limci)[u := k] && AllEarlier(d, moments, Now()) && old(moments) <= moments
    {
      hide AllEarlier; hide Settled;
      ghost var before := Now();
      limci := limci[u := k];
      MoreSettled(d, moments, before, Now());
      Remember(before);
    }

    method SetMci(u: Hash, n: nat)
      requires u in d.units && u !in mci && u in limci && u in subMci && AllEarlier(d, moments, Now())
      requires forall p :: p in d.units[u].parents ==> p in mci
      modifies `mci, `moments
      ensures mci == old(mci)[u := n] && AllEarlier(d, moments, Now()) && old(moments) <= moments
    {
      hide AllEarlier; hide Settled;
      ghost var before := Now();
      mci := mci[u := n];
      MarkedSettled(d, moments, before, Now(), u);
      Remember(before);
    }

    /** The present state may be read by another thread. */
    ghost method Remember(before: Marks)
      requires AllEarlier(d, moments, before) && Earlier(before, Now()) && Settled(d, Now())
      modifies `moments
      ensures AllEarlier(d, moments, Now()) && moments == old(moments) + [Now()]
    {
      EarlierStep(d, moments, before, Now());
      moments := moments + [Now()];
    }

    /** Write and push the next unit of the batch. */
    method WriteNext(ghost m: Marks, main: Hash, n: nat, batch: seq<Hash>, i: nat)
      requires Indexed(d, st, m) && ChainOk(d, st, m.chain + [main]) && IsBatch(d, st, m.mci.Keys, main, batch)
      requires i < |batch| && Written(m, main, batch, i, Now()) && LimciOk(d, m.chain + [main], limci)
      requires n == |m.chain| && AllEarlier(d, moments, Now())
      modifies `mci, `limci, `subMci, `moments, `channel
      ensures Written(m, main, batch, i + 1, Now()) && LimciOk(d, m.chain + [main], limci)
      ensures channel == old(channel) + [batch[i]]
      ensures AllEarlier(d, moments, Now()) && old(moments) <= moments
    {
      hide Indexed; hide Written; hide LimciOk; hide IsBatch; hide IsMaxOf; hide ChainOk; hide AllEarlier;
      var u := batch[i];
      ghost var now := Now();
      FullOfIndexed(d, st, m);
      TurnOf(d, st, m, main, batch, i, now);
      WriteUnit(u, n, i);
      LimciWritten(d, st, m, main, batch, i, now, limci);
      WriteOne(m, main, batch, i, now, limci[u]);
      assert Now() == Marks(now.mci[u := |m.chain|], now.limci[u := limci[u]], now.sub[u := i], now.chain);
      channel := channel + [u];
    }

    /** Number the sorted batch and push it, one unit after the other. */
    method WriteBatch(ghost m: Marks, main: Hash, n: nat, batch: seq<Hash>)
      requires Indexed(d, st, m) && ChainOk(d, st, m.chain + [main]) && IsBatch(d, st, m.mci.Keys, main, batch)
      requires Written(m, main, batch, 0, Now()) && LimciOk(d, m.chain + [main], limci)
      requires n == |m.chain| && AllEarlier(d, moments, Now())
      modifies `mci, `limci, `subMci, `moments, `channel
      ensures Written(m, main, batch, |batch|, Now()) && LimciOk(d, m.chain + [main], limci)
      ensures channel == old(channel) + batch
      ensures AllEarlier(d, moments, Now()) && old(moments) <= moments
    {
      hide Indexed; hide Full; hide Written; hide LimciOk; hide IsBatch; hide ChainOk; hide AllEarlier;
      FullOfIndexed(d, st, m);
      for i := 0 to |batch|
        invariant WellFormed(d) && Written(m, main, batch, i, Now()) && LimciOk(d, m.chain + [main], limci)
        invariant channel == old(channel) + batch[..i]
        invariant AllEarlier(d, moments, Now()) && old(moments) <= moments
      {
        WriteNext(m, main, n, batch, i);
        assert batch[..i + 1] == batch[..i] + [batch[i]];
      }
      assert batch[..|batch|] == batch;
    }

    /**
     * Stabilise `main` as the main-chain unit with index `n`: order and number all its
     * ancestors that have no number yet, pushing each to the business worker.
     */
    method MarkStable(main: Hash, n: nat)
      requires Valid() && n == |chain| && ChainOk(d, st, chain + [main])
      modifies this
      ensures Valid() && chain == old(chain) + [main]
      ensures exists batch :: IsBatch(d, st, old(mci.Keys), main, batch) && channel == old(channel) + batch
      ensures old(channel) <= channel
      ensures Earlier(old(Now()), Now()) && old(moments) <= moments
    {
      hide Indexed; hide Full; hide ChainOk; hide IsBatch; hide Written; hide LimciOk;
      hide ChannelOk; hide RecordedOk; hide AllEarlier; hide Earlier;
      ghost var m := Now();
      NextIsUnmarked(d, st, m, main);
      MarkedClosed(d, st, m);
      limci := limci[main := n];
      FirstWrite(d, st, m, main, Now());
      Remember(m);
      var batch := BuildBatch(d, st, mci.Keys, main);
      WriteNone(m, main, batch, Now());
      WriteBatch(m, main, n, batch);

      ghost var now := Now();
      mcUnits := mcUnits[n := main];
      RecordOne(old(mcUnits), chain, main);
      chain := chain + [main];
      LastWrite(d, st, m, main, batch, now, Now());
      StillSettled(d, moments, now, Now());
      Remember(now);
      ChannelGrows(d, st, m, main, batch, now, old(channel));
    }

    /** The units from `joint` down to, and without, the stable point; none is the fake parent of genesis. */
    method BuildUnstableMainChain(joint: Hash) returns (list: seq<Hash>, stable: Option<Hash>)
      requires Valid() && joint in st
      requires chain != [] ==> BpLe(d, st, chain[|chain| - 1], joint)
      ensures stable == Top(chain) && (stable.Some? ==> stable.value in mci && mci[stable.value] == |chain| - 1)
      ensures DownTo(st, joint, list, stable)
    {
      hide Indexed; hide DownTo; hide AllEarlier; hide ChannelOk; hide RecordedOk; hide BpOk; hide Rank; hide BpLe;
      BpKnown(d, st, Now(), joint);
      stable, list := Some(joint), [];
      assert DownTo(st, joint, [], Some(joint)) by { DownToNone(st, joint); }
      while stable.Some? && !OnMainChain(mci, limci, stable.value)
        invariant stable.Some? ==> stable.value in st
        invariant chain != [] ==> stable.Some? && BpLe(d, st, chain[|chain| - 1], stable.value)
        invariant DownTo(st, joint, list, stable)
        decreases stable.Some?, if stable.Some? then Rank(d, stable.value) else 0
      {
        if chain != [] { FirstHitIsTop(d, st, Now(), stable.value); }
        BpKnown(d, st, Now(), stable.value);
        DownToStep(st, joint, list, stable.value);
        list := list + [stable.value];
        stable := st[stable.value].bp;
      }
      if chain != [] {
        FirstHitIsTop(d, st, Now(), stable.value);
      } else if stable.Some? {
        BpKnown(d, st, Now(), stable.value);
      }
    }

    /**
     * Move the stable point to `joint`. The consensus hypothesis: the previous stable
     * point lies on the best-parent chain of `joint`.
     */
    method UpdateMainChain(joint: Hash) returns (level: int)
      requires Valid() && joint in st
      requires chain != [] ==> BpLe(d, st, chain[|chain| - 1], joint)
      modifies this
      ensures Valid() && Top(chain) == Some(joint) && level == st[joint].level
      ensures old(chain) <= chain && old(channel) <= channel
      ensures Earlier(old(Now()), Now()) && old(moments) <= moments
    {
      hide Indexed; hide Full; hide ChainOk; hide DownTo; hide AllEarlier; hide Earlier; hide ChannelOk;
      hide RecordedOk; hide BpLe;
      EarlierSelf(Now());
      var list, stable := BuildUnstableMainChain(joint);
      var stableLevel := if stable.Some? then mci[stable.value] else -1;
      while list != []
        invariant Valid() && stableLevel == |chain| - 1
        invariant DownTo(st, joint, list, Top(chain))
        invariant old(chain) <= chain && old(channel) <= channel
        invariant Earlier(old(Now()), Now()) && old(moments) <= moments
        decreases |list|
      {
        DownToBack(st, joint, list, Top(chain));
        var u := list[|list| - 1];
        list := list[..|list| - 1];
        stableLevel := stableLevel + 1;
        FullOfIndexed(d, st, Now());
        ChainExtends(d, st, chain, u);
        ghost var before := Now();
        MarkStable(u, stableLevel);
        EarlierTransitive(old(Now()), before, Now());
      }
      DownToEnd(st, joint, list, Top(chain));
      level := st[joint].level;
    }
  }
}
