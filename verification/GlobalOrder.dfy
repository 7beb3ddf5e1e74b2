/**
 * Reading the global order back: the units of one index (src/cache/mod.rs) and the hash
 * tree of a range of indices (src/catchup.rs).
 */
module GlobalOrder {
  import opened Collections
  import opened Dag
  import opened StaticProps
  import opened MainChain
  import opened Marking

  /** `s` lists marked units in strictly increasing (mci, sub_mci). */
  ghost predicate InOrder(m: Marks, s: seq<Hash>)
  {
    && (forall i :: 0 <= i < |s| ==> s[i] in m.mci && s[i] in m.sub)
    && (forall i, j :: 0 <= i < j < |s| ==> PairLess(m, s[i], s[j]))
  }

  /** A set of marked units has only one listing in the global order. */
  lemma {:induction false} OrderUnique(m: Marks, s: seq<Hash>, t: seq<Hash>)
    requires InOrder(m, s) && InOrder(m, t) && forall u :: u in s <==> u in t
    ensures s == t
    decreases |s|
  {
    if t != [] {
      assert t[0] in s;
    }
    if s != [] {
      assert s[0] in t && t[0] in s;
      var i :| 0 <= i < |t| && t[i] == s[0];
      var j :| 0 <= j < |s| && s[j] == t[0];
      assert s[0] == t[0];
      forall u ensures u in s[1..] <==> u in t[1..] {
        if u in s[1..] { var k :| 1 <= k < |s| && s[k] == u; assert PairLess(m, s[0], s[k]) && u in t; }
        if u in t[1..] { var k :| 1 <= k < |t| && t[k] == u; assert PairLess(m, t[0], t[k]) && u in s; }
      }
      OrderUnique(m, s[1..], t[1..]);
    }
  }

  /** In a listing of all units of some indices, every parent among them comes first. */
  lemma ParentsComeFirst(d: Dag, st: Statics, m: Marks, s: seq<Hash>, i: nat, j: nat)
    requires Indexed(d, st, m) && InOrder(m, s) && i < |s| && j < |s| && Lt(d, s[i], s[j])
    ensures i < j
  {
    hide Indexed; hide Le;
    GlobalOrder(d, st, m, s[i], s[j]);
  }

  /** The business worker receives units in the global order. */
  lemma ChannelInOrder(d: Dag, st: Statics, m: Marks, channel: seq<Hash>)
    requires Indexed(d, st, m) && ChannelOk(st, m.mci, channel)
    ensures InOrder(m, channel)
  {
    forall i, j | 0 <= i < j < |channel| ensures PairLess(m, channel[i], channel[j]) {
      assert channel[i] in channel && channel[j] in channel;
      if m.mci[channel[i]] == m.mci[channel[j]] {
        SubMciOrders(d, st, m, channel[i], channel[j]);
      }
    }
  }

  // ---------------------------------------------------------------- the units of one index

  ghost predicate SortedBySub(sub: map<Hash, nat>, s: seq<Hash>)
  {
    && (forall i :: 0 <= i < |s| ==> s[i] in sub)
    && (forall i, j :: 0 <= i < j < |s| ==> sub[s[i]] < sub[s[j]])
  }

  function InsertBySub(sub: map<Hash, nat>, x: Hash, s: seq<Hash>): (r: seq<Hash>)
    requires x in sub && SortedBySub(sub, s) && forall y :: y in s ==> sub[y] != sub[x]
    ensures SortedBySub(sub, r) && forall y :: y in r <==> y == x || y in s
  {
    if s == [] then [x]
    else if sub[x] < sub[s[0]] then [x] + s
    else
      assert s[0] in s;
      var t := InsertBySub(sub, x, s[1..]);
      assert forall y :: y in t ==> sub[s[0]] < sub[y];
      [s[0]] + t
  }

  function SortBySub(sub: map<Hash, nat>, s: seq<Hash>): (r: seq<Hash>)
    requires (forall x :: x in s ==> x in sub) && (forall i, j :: 0 <= i < j < |s| ==> sub[s[i]] != sub[s[j]])
    ensures SortedBySub(sub, r) && forall y :: y in r <==> y in s
  {
    if s == [] then []
    else InsertBySub(sub, s[0], SortBySub(sub, s[1..]))
  }

  /** The parents of a found unit have all been queued at some time. */
  ghost predicate Closed(d: Dag, found: seq<Hash>, visited: set<Hash>)
  {
    forall u, p :: u in found && u in d.units && p in d.units[u].parents ==> p in visited
  }

  /** Cutting the search at other indices loses nothing: indices are constant along the way down. */
  lemma {:induction false} ReachedWithin(d: Dag, st: Statics, m: Marks, k: nat, found: seq<Hash>, visited: set<Hash>,
      v: Hash, u: Hash)
    requires Indexed(d, st, m) && Closed(d, found, visited)
    requires forall x :: x in visited && x in m.mci && m.mci[x] == k ==> x in found
    requires v in found && v in m.mci && m.mci[v] == k && u in m.mci && m.mci[u] == k && Le(d, u, v)
    ensures u in found
    decreases Rank(d, v)
  {
    assert WellFormed(d);
    hide Indexed; hide Le; hide Rank; hide WellFormed;
    if u != v {
      var p := StepDown(d, u, v);
      IndexMonotone(d, st, m, p, v);
      IndexMonotone(d, st, m, u, p);
      ReachedWithin(d, st, m, k, found, visited, p, u);
    }
  }

  lemma FoundAllOf(d: Dag, st: Statics, m: Marks, k: nat, found: seq<Hash>, visited: set<Hash>)
    requires Indexed(d, st, m) && k < |m.chain| && Closed(d, found, visited) && m.chain[k] in visited
    requires forall x :: x in visited && x in m.mci && m.mci[x] == k ==> x in found
    ensures forall u :: u in m.mci && m.mci[u] == k ==> u in found
  {
    TopOfIndex(d, st, m, k);
    forall u | u in m.mci && m.mci[u] == k ensures u in found {
      assert IsMci(d, m.chain, u, m.mci[u]);
      ReachedWithin(d, st, m, k, found, visited, m.chain[k], u);
    }
  }

  lemma TopOfIndex(d: Dag, st: Statics, m: Marks, k: nat)
    requires Indexed(d, st, m) && k < |m.chain|
    ensures m.chain[k] in m.mci && m.mci[m.chain[k]] == k
  {
    var u := m.chain[k];
    assert Le(d, u, u);
    assert u in m.mci && IsMci(d, m.chain, u, m.mci[u]);
    if m.mci[u] < k {
      ChainLe(d, st, m.chain, m.mci[u], k);
      LevelIncreases(d, st, u, m.chain[m.mci[u]]);
    }
  }

  lemma DistinctSubs(d: Dag, st: Statics, m: Marks, k: nat, found: seq<Hash>)
    requires Indexed(d, st, m) && (forall u :: u in found ==> u in m.mci && m.mci[u] == k)
    requires forall i, j :: 0 <= i < j < |found| ==> found[i] != found[j]
    ensures forall i, j :: 0 <= i < j < |found| ==>
      found[i] in m.sub && found[j] in m.sub && m.sub[found[i]] != m.sub[found[j]]
  {
    forall i, j | 0 <= i < j < |found|
      ensures found[i] in m.sub && found[j] in m.sub && m.sub[found[i]] != m.sub[found[j]]
    {
      assert found[i] in found && found[j] in found;
      GlobalOrder(d, st, m, found[i], found[j]);
    }
  }

  /** The mci and sub_mci of `u` as read at some moment of the run at which `top` has its number. */
  ghost predicate ReadOf(d: Dag, fin: Marks, top: Hash, mci: map<Hash, nat>, sub: map<Hash, nat>, u: Hash)
  {
    exists m :: Earlier(m, fin) && Settled(d, m) && top in m.mci && Shows(m.mci, mci, u) && Shows(m.sub, sub, u)
  }

  predicate Shows(numbers: map<Hash, nat>, read: map<Hash, nat>, u: Hash)
  {
    (u in read <==> u in numbers) && (u in read ==> read[u] == numbers[u])
  }

  /** Each unit may be read at a moment of its own. */
  ghost predicate AllReads(d: Dag, fin: Marks, top: Hash, mci: map<Hash, nat>, sub: map<Hash, nat>)
  {
    forall u :: u in d.units ==> ReadOf(d, fin, top, mci, sub, u)
  }

  /** Everything the search looks at is read with its final numbers. */
  lemma ReadsAreFinal(d: Dag, fin: Marks, top: Hash, mci: map<Hash, nat>, sub: map<Hash, nat>, u: Hash)
    requires WellFormed(d) && AllReads(d, fin, top, mci, sub) && Le(d, u, top)
    ensures u in mci && u in sub && u in fin.mci && u in fin.sub && mci[u] == fin.mci[u] && sub[u] == fin.sub[u]
  {
    LeKnown(d, u, top);
    assert ReadOf(d, fin, top, mci, sub, u);
    var m :| Earlier(m, fin) && Settled(d, m) && top in m.mci && Shows(m.mci, mci, u) && Shows(m.sub, sub, u);
    SettledBelow(d, m, u, top);
  }

  lemma SortFound(d: Dag, st: Statics, fin: Marks, k: nat, sub: map<Hash, nat>, found: seq<Hash>)
    requires Indexed(d, st, fin) && (forall u :: u in found ==> u in fin.mci && fin.mci[u] == k)
    requires forall i, j :: 0 <= i < j < |found| ==> found[i] != found[j]
    requires forall u :: u in found ==> u in sub && u in fin.sub && sub[u] == fin.sub[u]
    ensures forall x :: x in found ==> x in sub
    ensures forall i, j :: 0 <= i < j < |found| ==>
      found[i] in sub && found[j] in sub && sub[found[i]] != sub[found[j]]
    ensures InOrder(fin, SortBySub(sub, found))
  {
    DistinctSubs(d, st, fin, k, found);
    IndexShape(d, st, fin);
    hide Indexed;
    assert forall i :: 0 <= i < |found| ==> found[i] in found;
    var s := SortBySub(sub, found);
    assert forall i :: 0 <= i < |s| ==> s[i] in s;
    SubOrderIsOrder(fin, k, s);
  }

  /**
   * All units with index `k`, in sub_mci order; none when no main-chain unit is found recorded
   * there. Markings of later units may go on meanwhile.
   */
  method JointsByMci(d: Dag, st: Statics, ghost fin: Marks, k: nat, recorded: Option<Hash>, mci: map<Hash, nat>,
      sub: map<Hash, nat>)
    returns (s: seq<Hash>)
    requires Indexed(d, st, fin)
    requires recorded.Some? ==>
      k < |fin.chain| && recorded.value == fin.chain[k] && AllReads(d, fin, fin.chain[k], mci, sub)
    ensures recorded.None? ==> s == []
    ensures recorded.Some? ==> InOrder(fin, s) && s != [] && forall u :: u in s <==> u in fin.mci && fin.mci[u] == k
  {
    hide *;
    if recorded.None? {
      return [];
    }
    var top := recorded.value;
    SearchFrom(d, st, fin, k);
    var queue, visited, found := [top], {top}, [];
    ClosedNone(d, visited);
    while queue != []
      invariant top in visited && forall q :: q in queue ==> q in visited
      invariant forall u :: u in visited ==> u in d.units && Le(d, u, top)
      invariant forall i, j :: 0 <= i < j < |queue| ==> queue[i] != queue[j]
      invariant forall u :: u in found ==> u in fin.mci && fin.mci[u] == k && u in visited && u !in queue
      invariant forall u :: u in found ==> u in sub && u in fin.sub && sub[u] == fin.sub[u]
      invariant forall i, j :: 0 <= i < j < |found| ==> found[i] != found[j]
      invariant Closed(d, found, visited)
      invariant forall u :: u in visited && u in fin.mci && fin.mci[u] == k ==> u in found || u in queue
      decreases d.units.Keys - visited, |queue|
    {
      var joint := queue[0];
      assert queue == [joint] + queue[1..];
      queue := queue[1..];
      ReadsAreFinal(d, fin, top, mci, sub, joint);
      if mci[joint] != k {
        continue;
      }
      found := found + [joint];
      ghost var before := visited;
      var parents := d.units[joint].parents;
      ParentsIn(d, st, fin, top, joint);
      visited, queue := PushUnvisited(parents, visited, queue);
      ClosedOne(d, found, joint, before, visited);
    }
    FoundAllOf(d, st, fin, k, found, visited);
    SortFound(d, st, fin, k, sub, found);
    s := SortBySub(sub, found);
  }

  lemma SearchFrom(d: Dag, st: Statics, m: Marks, k: nat)
    requires Indexed(d, st, m) && k < |m.chain|
    ensures WellFormed(d) && m.chain[k] in d.units && Le(d, m.chain[k], m.chain[k])
    ensures m.chain[k] in m.mci && m.mci[m.chain[k]] == k
  {
    TopOfIndex(d, st, m, k);
  }

  lemma ParentsIn(d: Dag, st: Statics, m: Marks, top: Hash, u: Hash)
    requires Indexed(d, st, m) && WellFormed(d) && u in d.units && Le(d, u, top)
    ensures forall p :: p in d.units[u].parents ==> p in d.units && Le(d, p, top)
  {
    ParentsBelow(d, u, top);
    forall p | p in d.units[u].parents ensures p in d.units { LeKnown(d, p, top); }
  }

  lemma ClosedNone(d: Dag, visited: set<Hash>)
    ensures Closed(d, [], visited)
  {
  }

  lemma ClosedOne(d: Dag, found: seq<Hash>, joint: Hash, before: set<Hash>, visited: set<Hash>)
    requires found != [] && found[|found| - 1] == joint && joint in d.units && Closed(d, found[..|found| - 1], before)
    requires before <= visited && forall p :: p in d.units[joint].parents ==> p in visited
    ensures Closed(d, found, visited)
  {
    assert found == found[..|found| - 1] + [joint];
  }

  lemma SubOrderIsOrder(m: Marks, k: nat, s: seq<Hash>)
    requires m.mci.Keys == m.sub.Keys && SortedBySub(m.sub, s) && forall u :: u in s ==> u in m.mci && m.mci[u] == k
    ensures InOrder(m, s)
  {
    forall i, j | 0 <= i < j < |s| ensures s[i] in m.mci && s[j] in m.mci && PairLess(m, s[i], s[j]) {
      assert s[i] in s && s[j] in s;
    }
    forall i | 0 <= i < |s| ensures s[i] in m.mci { assert s[i] in s; }
  }

  // ---------------------------------------------------------------- a range of indices

  lemma InOrderConcat(m: Marks, s: seq<Hash>, t: seq<Hash>)
    requires InOrder(m, s) && InOrder(m, t)
    requires forall u, v :: u in s && v in t ==> u in m.mci && v in m.mci && m.mci[u] < m.mci[v]
    ensures InOrder(m, s + t)
  {
    var all := s + t;
    forall i, j | 0 <= i < j < |all| ensures all[i] in m.mci && all[j] in m.mci && PairLess(m, all[i], all[j]) {
      if j < |s| {
        assert PairLess(m, s[i], s[j]);
      } else if i >= |s| {
        assert PairLess(m, t[i - |s|], t[j - |s|]);
      } else {
        assert s[i] in s && t[j - |s|] in t;
      }
    }
  }

  /** The units of all indices from `first` up to and without `end`. */
  method JointsOfRange(d: Dag, st: Statics, m: Marks, first: nat, end: nat) returns (s: seq<Hash>)
    requires Indexed(d, st, m) && first <= end
    ensures InOrder(m, s)
    ensures forall u :: u in s <==> u in m.mci && first <= m.mci[u] < end
  {
    hide *;
    s := [];
    InOrderNone(m);
    for k := first to end
      invariant InOrder(m, s)
      invariant forall u :: u in s <==> u in m.mci && first <= m.mci[u] < k
    {
      ReadAtOnce(d, st, m, k);
      var joints := JointsByMci(d, st, m, k, if k < |m.chain| then Some(m.chain[k]) else None, m.mci, m.sub);
      if k < |m.chain| { InOrderConcat(m, s, joints); } else { assert s + joints == s; }
      s := s + joints;
    }
  }

  /** Reading everything at one moment between two markings. */
  lemma ReadAtOnce(d: Dag, st: Statics, m: Marks, k: nat)
    requires Indexed(d, st, m)
    ensures k < |m.chain| ==> AllReads(d, m, m.chain[k], m.mci, m.sub)
    ensures k >= |m.chain| ==> forall u :: u in m.mci ==> m.mci[u] != k
  {
    IndexShape(d, st, m);
    MarkedClosed(d, st, m);
    if k < |m.chain| {
      TopOfIndex(d, st, m, k);
      hide Indexed;
      assert Settled(d, m) && Earlier(m, m);
      hide Settled; hide Earlier;
      forall u | u in d.units ensures ReadOf(d, m, m.chain[k], m.mci, m.sub, u) {
        assert Shows(m.mci, m.mci, u) && Shows(m.sub, m.sub, u);
      }
    }
  }

  lemma InOrderNone(m: Marks)
    ensures InOrder(m, [])
  {
  }

  /**
   * The batch of a hash tree request between two main-chain units: an error unless the
   * first comes before the second, else every unit after the first up to the second,
   * once and with its parents first.
   */
  method PrepareHashTree(d: Dag, st: Statics, m: Marks, fromUnit: Hash, toUnit: Hash) returns (r: Option<seq<Hash>>)
    requires Indexed(d, st, m) && fromUnit in m.mci && toUnit in m.mci
    ensures r.None? <==> m.mci[fromUnit] >= m.mci[toUnit]
    ensures r.Some? ==> InOrder(m, r.value)
    ensures r.Some? ==> forall u :: u in r.value <==> u in m.mci && m.mci[fromUnit] < m.mci[u] <= m.mci[toUnit]
  {
    if m.mci[fromUnit] >= m.mci[toUnit] {
      return None;
    }
    var balls := JointsOfRange(d, st, m, m.mci[fromUnit] + 1, m.mci[toUnit] + 1);
    r := Some(balls);
  }

  /** Replaying all recorded indices visits exactly the units pushed to the business worker, in the same order. */
  method ReplayOrder(d: Dag, st: Statics, m: Marks, ghost channel: seq<Hash>) returns (s: seq<Hash>)
    requires Indexed(d, st, m) && ChannelOk(st, m.mci, channel)
    ensures s == channel
  {
    s := JointsOfRange(d, st, m, 0, |m.chain|);
    IndexShape(d, st, m);
    ChannelInOrder(d, st, m, channel);
    hide *;
    SameMembers(st, m, s, channel);
    OrderUnique(m, s, channel);
  }

  lemma SameMembers(st: Statics, m: Marks, s: seq<Hash>, channel: seq<Hash>)
    requires ChannelOk(st, m.mci, channel) && (forall u :: u in m.mci ==> m.mci[u] < |m.chain|)
    requires forall u :: u in s <==> u in m.mci && 0 <= m.mci[u] < |m.chain|
    ensures forall u :: u in s <==> u in channel
  {
  }
}
