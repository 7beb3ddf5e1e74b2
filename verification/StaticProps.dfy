/**
 * The properties a unit gets once, when its parents are ready: level, best parent,
 * witnessed level and min witnessed level (src/cache/joint_data.rs).
 */
module StaticProps {
  import opened Collections
  import opened Dag

  datatype Static = Static(
    level: int,
    bp: Option<Hash>,
    wl: int,
    minWl: int,
    wlIncreased: bool,
    minWlIncreased: bool)

  type Statics = map<Hash, Static>

  /** What reading the best parent of genesis yields: a copy of genesis with these levels. */
  const FAKE_PARENT: Static := Static(-1, None, 0, -1, false, false)

  /** Best parents are parents, and only genesis has none. */
  ghost predicate BpOk(d: Dag, st: Statics)
  {
    && st.Keys <= d.units.Keys
    && forall u {:trigger st[u].bp} :: u in st ==>
         && (st[u].bp.None? <==> d.units[u].parents == [])
         && (st[u].bp.Some? ==> st[u].bp.value in d.units[u].parents && st[u].bp.value in st)
  }

  /** `a` is `u` or lies on the best-parent chain below `u`. */
  ghost predicate BpLe(d: Dag, st: Statics, a: Hash, u: Hash)
    requires WellFormed(d) && BpOk(d, st)
    decreases Rank(d, u)
  {
    u in st && (a == u || (st[u].bp.Some? && BpLe(d, st, a, st[u].bp.value)))
  }

  /** Whether `a` is preferred over `b` as a best parent. */
  predicate Precedes(d: Dag, st: Statics, a: Hash, b: Hash)
    requires a in st && b in st && a in d.units && b in d.units
  {
    if st[a].wl != st[b].wl then st[a].wl > st[b].wl
    else if ByWitness(d, a) != ByWitness(d, b) then ByWitness(d, a)
    else if st[a].level != st[b].level then st[a].level < st[b].level
    else a < b
  }

  ghost predicate Known(d: Dag, st: Statics, s: seq<Hash>)
  {
    forall p :: p in s ==> p in st && p in d.units
  }

  /** `b` is a member of `s` preferred over every other member. */
  ghost predicate IsBest(d: Dag, st: Statics, s: seq<Hash>, b: Hash)
    requires Known(d, st, s)
  {
    b in s && forall p :: p in s ==> p == b || Precedes(d, st, b, p)
  }

  /** `l` is one above the highest level in `s`, and 0 when `s` is empty. */
  ghost predicate IsLevelAbove(st: Statics, s: seq<Hash>, l: int)
  {
    && (forall p :: p in s ==> p in st && st[p].level < l)
    && (if s == [] then l == 0 else exists p :: p in s && p in st && st[p].level + 1 == l)
  }

  /**
   * The first unit down the best-parent chain from `v` at which a majority of the
   * witnesses has signed, `acc` being those met above `v`.
   */
  ghost function RelativeStable(d: Dag, st: Statics, v: Hash, acc: set<Address>): (r: Hash)
    requires WellFormed(d) && BpOk(d, st) && v in st
    ensures r in st && BpLe(d, st, r, v)
    decreases Rank(d, v)
  {
    var met := acc + Signers(d, v);
    if |met| >= MAJORITY_OF_WITNESSES then v
    else
      (GenesisStops(d, v, acc);
       RelativeStable(d, st, st[v].bp.value, met))
  }

  lemma GenesisStops(d: Dag, v: Hash, acc: set<Address>)
    requires WellFormed(d) && v in d.units && |acc + Signers(d, v)| < MAJORITY_OF_WITNESSES
    ensures d.units[v].parents != []
  {
    if d.units[v].parents == [] {
      assert IsGenesis(d, v);
      SubsetSize(Signers(d, v), acc + Signers(d, v));
    }
  }

  /** `e` is what the properties of the parents of `u` determine for `u`. */
  ghost predicate EntryFor(d: Dag, st: Statics, u: Hash, e: Static)
    requires WellFormed(d) && BpOk(d, st) && u in d.units
  {
    var ps := d.units[u].parents;
    && Known(d, st, ps)
    && IsLevelAbove(st, ps, e.level)
    && if ps == [] then e == Static(0, None, -1, 0, false, true)
       else
         && e.bp.Some? && IsBest(d, st, ps, e.bp.value)
         && var b := e.bp.value;
            var r := RelativeStable(d, st, b, {});
            && e.wl == st[r].level
            && e.minWl == st[r].wl
            && e.wlIncreased == (e.wl > st[b].wl)
            && e.minWlIncreased == (e.minWl > st[b].minWl)
  }

  ghost predicate EntryOk(d: Dag, st: Statics, u: Hash)
    requires WellFormed(d) && BpOk(d, st) && u in st
  {
    EntryFor(d, st, u, st[u])
  }

  /** Every unit in `st` carries the properties its parents determine. */
  ghost predicate StaticOk(d: Dag, st: Statics)
  {
    WellFormed(d) && BpOk(d, st) && forall u {:trigger EntryOk(d, st, u)} :: u in st ==> EntryOk(d, st, u)
  }

  // ---------------------------------------------------------------- computation

  method CalcLevel(st: Statics, parents: seq<Hash>) returns (level: int)
    requires forall p :: p in parents ==> p in st && st[p].level >= 0
    ensures IsLevelAbove(st, parents, level)
  {
    var max := -1;
    for i := 0 to |parents|
      invariant max >= -1
      invariant forall p :: p in parents[..i] ==> st[p].level <= max
      invariant if i == 0 then max == -1 else exists p :: p in parents[..i] && st[p].level == max
    {
      if max < st[parents[i]].level {
        max := st[parents[i]].level;
      }
      assert parents[..i + 1] == parents[..i] + [parents[i]];
      if i == 0 { assert parents[0] in parents[..1] && st[parents[0]].level == max; }
    }
    assert parents[..|parents|] == parents;
    level := max + 1;
  }

  method FindBestJoint(d: Dag, st: Statics, s: seq<Hash>) returns (best: Option<Hash>)
    requires Known(d, st, s)
    ensures if s == [] then best == None else best.Some? && IsBest(d, st, s, best.value)
    ensures best.Some? ==> MaxWlWitnessLowest(d, st, s, best.value)
  {
    if s == [] {
      return None;
    }
    var b := s[0];
    for i := 1 to |s|
      invariant IsBest(d, st, s[..i], b)
    {
      assert s[..i + 1] == s[..i] + [s[i]];
      if Precedes(d, st, s[i], b) {
        b := s[i];
      }
    }
    assert s[..|s|] == s;
    BestMeans(d, st, s, b);
    best := Some(b);
  }

  /**
   * `b` is the member of `s` chosen by witnessed level, then by having a witness among the
   * authors, then by the lower level, then by the smaller hash.
   */
  ghost predicate MaxWlWitnessLowest(d: Dag, st: Statics, s: seq<Hash>, b: Hash)
    requires Known(d, st, s)
  {
    b in s && forall p :: p in s ==>
      && st[p].wl <= st[b].wl
      && (st[p].wl == st[b].wl ==>
           var theirs, ours := exists a :: a in d.units[p].authors && a in d.witnesses,
                               exists a :: a in d.units[b].authors && a in d.witnesses;
           && (theirs ==> ours)
           && (theirs == ours ==> st[b].level < st[p].level || (st[b].level == st[p].level && b <= p)))
  }

  /** The preference order, in terms of levels, authors and hashes. */
  lemma BestMeans(d: Dag, st: Statics, s: seq<Hash>, b: Hash)
    requires Known(d, st, s)
    ensures IsBest(d, st, s, b) <==> MaxWlWitnessLowest(d, st, s, b)
  {
  }

  /** Genesis stops the walk at its fake best parent, so only a real best parent is followed. */
  method FindRelativeStableJoint(d: Dag, st: Statics, start: Hash) returns (r: Hash)
    requires StaticOk(d, st) && start in st
    ensures r == RelativeStable(d, st, start, {})
  {
    var met := {};
    r := start;
    while true
      invariant r in st
      invariant RelativeStable(d, st, start, {}) == RelativeStable(d, st, r, met)
      decreases Rank(d, r)
    {
      var here := met;
      met := met + Signers(d, r);
      if |met| >= MAJORITY_OF_WITNESSES {
        return;
      }
      GenesisStops(d, r, here);
      r := st[r].bp.value;
    }
  }

  /** Compute the entry of a unit whose parents are all ready; the extended table stays consistent. */
  method CalcStaticProps(d: Dag, st: Statics, u: Hash) returns (e: Static)
    requires StaticOk(d, st) && u in d.units && u !in st
    requires forall p :: p in d.units[u].parents ==> p in st
    ensures StaticOk(d, st[u := e])
  {
    var ps := d.units[u].parents;
    forall p | p in ps ensures st[p].level >= 0 { LevelNonNegative(d, st, p); }
    var level := CalcLevel(st, ps);
    var best := FindBestJoint(d, st, ps);
    if best.None? {
      // the fake best parent carries the authors of genesis, so the walk returns it at once
      var wl, minWl := FAKE_PARENT.level, FAKE_PARENT.wl;
      e := Static(level, None, wl, minWl, wl > FAKE_PARENT.wl, minWl > FAKE_PARENT.minWl);
    } else {
      var b := best.value;
      var r := FindRelativeStableJoint(d, st, b);
      var wl, minWl := st[r].level, st[r].wl;
      e := Static(level, best, wl, minWl, wl > st[b].wl, minWl > st[b].minWl);
    }
    ExtendOk(d, st, u, e);
  }

  lemma LevelNonNegative(d: Dag, st: Statics, u: Hash)
    requires StaticOk(d, st) && u in st
    ensures st[u].level >= 0
    decreases Rank(d, u)
  {
    assert EntryOk(d, st, u);
    if d.units[u].parents != [] {
      LevelNonNegative(d, st, d.units[u].parents[0]);
    }
  }

  lemma ParentsLower(d: Dag, st: Statics, u: Hash)
    requires StaticOk(d, st) && u in st
    ensures forall p :: p in d.units[u].parents ==> p in st && st[p].level < st[u].level
  {
    assert EntryOk(d, st, u);
  }

  lemma {:induction false} RelativeStableFrame(d: Dag, st: Statics, st': Statics, v: Hash, acc: set<Address>)
    requires WellFormed(d) && BpOk(d, st) && BpOk(d, st') && v in st && v in st'
    requires forall x :: x in st ==> x in st' && st'[x] == st[x]
    ensures RelativeStable(d, st', v, acc) == RelativeStable(d, st, v, acc)
    decreases Rank(d, v)
  {
    var met := acc + Signers(d, v);
    if |met| < MAJORITY_OF_WITNESSES {
      GenesisStops(d, v, acc);
      RelativeStableFrame(d, st, st', st[v].bp.value, met);
    }
  }

  lemma EntryFrame(d: Dag, st: Statics, st': Statics, v: Hash, e: Static)
    requires WellFormed(d) && BpOk(d, st) && BpOk(d, st') && v in d.units && EntryFor(d, st, v, e)
    requires forall x :: x in st ==> x in st' && st'[x] == st[x]
    ensures EntryFor(d, st', v, e)
  {
    if e.bp.Some? { RelativeStableFrame(d, st, st', e.bp.value, {}); }
  }

  lemma ExtendOk(d: Dag, st: Statics, u: Hash, e: Static)
    requires StaticOk(d, st) && u in d.units && u !in st && EntryFor(d, st, u, e)
    ensures StaticOk(d, st[u := e])
  {
    var st' := st[u := e];
    assert BpOk(d, st');
    EntryFrame(d, st, st', u, e);
    forall v | v in st' ensures EntryOk(d, st', v) {
      if v != u {
        assert EntryOk(d, st, v);
        EntryFrame(d, st, st', v, st[v]);
      }
    }
  }

  // ---------------------------------------------------------------- monotonicity

  lemma {:induction false} BpLeKnown(d: Dag, st: Statics, a: Hash, u: Hash)
    requires WellFormed(d) && BpOk(d, st) && BpLe(d, st, a, u)
    ensures a in st && Le(d, a, u)
    decreases Rank(d, u)
  {
    if a != u { BpLeKnown(d, st, a, st[u].bp.value); }
  }

  lemma {:induction false} BpLeTransitive(d: Dag, st: Statics, a: Hash, b: Hash, c: Hash)
    requires WellFormed(d) && BpOk(d, st) && BpLe(d, st, a, b) && BpLe(d, st, b, c)
    ensures BpLe(d, st, a, c)
    decreases Rank(d, c)
  {
    if b != c { BpLeTransitive(d, st, a, b, st[c].bp.value); }
  }

  /** A best-parent chain is linear: two units on one chain lie below one another. */
  lemma {:induction false} BpLinear(d: Dag, st: Statics, a: Hash, b: Hash, u: Hash)
    requires WellFormed(d) && BpOk(d, st) && BpLe(d, st, a, u) && BpLe(d, st, b, u)
    ensures BpLe(d, st, a, b) || BpLe(d, st, b, a)
    decreases Rank(d, u)
  {
    if a != u && b != u { BpLinear(d, st, a, b, st[u].bp.value); }
  }

  /** Levels strictly increase from an ancestor to a descendant. */
  lemma {:induction false} LevelIncreases(d: Dag, st: Statics, a: Hash, u: Hash)
    requires StaticOk(d, st) && u in st && Le(d, a, u)
    ensures a in st && (a == u || st[a].level < st[u].level)
    decreases Rank(d, u)
  {
    assert EntryOk(d, st, u);
    if a != u {
      var p :| p in d.units[u].parents && Le(d, a, p);
      LevelIncreases(d, st, a, p);
    }
  }

  /** Having met more witnesses stops the walk at the same unit or above it. */
  lemma {:induction false} WalkStopsEarlier(d: Dag, st: Statics, v: Hash, few: set<Address>, many: set<Address>)
    requires WellFormed(d) && BpOk(d, st) && v in st && few <= many
    ensures BpLe(d, st, RelativeStable(d, st, v, few), RelativeStable(d, st, v, many))
    decreases Rank(d, v)
  {
    if |many + Signers(d, v)| < MAJORITY_OF_WITNESSES {
      SubsetSize(few + Signers(d, v), many + Signers(d, v));
      GenesisStops(d, v, many);
      WalkStopsEarlier(d, st, st[v].bp.value, few + Signers(d, v), many + Signers(d, v));
    }
  }

  /** The relative stable unit never moves down from a best parent to its child. */
  lemma RelativeStableRises(d: Dag, st: Statics, u: Hash)
    requires StaticOk(d, st) && u in st && st[u].bp.Some? && st[st[u].bp.value].bp.Some?
    ensures var b := st[u].bp.value;
            BpLe(d, st, RelativeStable(d, st, st[b].bp.value, {}), RelativeStable(d, st, b, {}))
  {
    var b := st[u].bp.value;
    if |{} + Signers(d, b)| < MAJORITY_OF_WITNESSES {
      WalkStopsEarlier(d, st, st[b].bp.value, {}, {} + Signers(d, b));
    }
  }

  /** The witnessed level of a unit is below its level and never below that of a parent. */
  lemma WitnessedLevelMonotone(d: Dag, st: Statics, u: Hash)
    requires StaticOk(d, st) && u in st
    ensures -1 <= st[u].wl < st[u].level
    ensures forall p :: p in d.units[u].parents ==> p in st && st[p].wl <= st[u].wl
  {
    assert EntryOk(d, st, u);
    if st[u].bp.Some? {
      var b := st[u].bp.value;
      assert EntryOk(d, st, b);
      BestHighest(d, st, u);
      hide IsBest; hide Precedes;
      var r := RelativeStable(d, st, b, {});
      BpLeKnown(d, st, r, b);
      LevelIncreases(d, st, r, b);
      LevelNonNegative(d, st, r);
      if st[b].bp.Some? {
        RelativeStableRises(d, st, u);
        var s := RelativeStable(d, st, st[b].bp.value, {});
        BpLeKnown(d, st, s, r);
        LevelIncreases(d, st, s, r);
      }
    }
  }

  lemma BestHighest(d: Dag, st: Statics, u: Hash)
    requires StaticOk(d, st) && u in st && st[u].bp.Some?
    ensures forall p :: p in d.units[u].parents ==> p in st && st[p].wl <= st[st[u].bp.value].wl
  {
    assert EntryOk(d, st, u);
  }

  lemma {:induction false} WitnessedLevelOfAncestor(d: Dag, st: Statics, a: Hash, u: Hash)
    requires StaticOk(d, st) && u in st && Le(d, a, u)
    ensures a in st && st[a].wl <= st[u].wl
    decreases Rank(d, u)
  {
    if a != u {
      assert EntryOk(d, st, u);
      var p :| p in d.units[u].parents && Le(d, a, p);
      WitnessedLevelMonotone(d, st, u);
      WitnessedLevelOfAncestor(d, st, a, p);
    }
  }

  /**
   * The min witnessed level never falls from a best parent to its child exactly when
   * that best parent is not genesis, whose fake parent lifts it to 0.
   */
  lemma MinWitnessedLevelMonotone(d: Dag, st: Statics, u: Hash)
    requires StaticOk(d, st) && u in st && st[u].bp.Some?
    ensures st[st[u].bp.value].minWl <= st[u].minWl <==> !IsGenesis(d, st[u].bp.value)
    ensures st[u].minWl < st[u].wl
  {
    assert EntryOk(d, st, u);
    var b := st[u].bp.value;
    assert EntryOk(d, st, b);
    var r := RelativeStable(d, st, b, {});
    BpLeKnown(d, st, r, b);
    WitnessedLevelMonotone(d, st, r);
    if st[b].bp.Some? {
      RelativeStableRises(d, st, u);
      var s := RelativeStable(d, st, st[b].bp.value, {});
      BpLeKnown(d, st, s, r);
      WitnessedLevelOfAncestor(d, st, s, r);
    } else {
      assert r == b;
    }
  }

  /** `e` is the nearest unit down the best-parent chain of `joint` at which the min witnessed level rose. */
  ghost predicate IsEffective(d: Dag, st: Statics, joint: Hash, e: Hash)
    requires StaticOk(d, st)
  {
    && BpLe(d, st, e, joint) && e in st && st[e].minWlIncreased
    && forall v :: BpLe(d, st, v, joint) && BpLe(d, st, e, v) && v != e ==> v in st && !st[v].minWlIncreased
  }

  /** The last unit down the best-parent chain at which the min witnessed level rose. */
  method LatestEffectiveUnit(d: Dag, st: Statics, joint: Hash) returns (e: Hash)
    requires StaticOk(d, st) && joint in st
    ensures IsEffective(d, st, joint, e)
    ensures IsGenesis(d, e) || st[e].minWl == st[joint].minWl
  {
    e := joint;
    forall v | BpLe(d, st, v, joint) && BpLe(d, st, joint, v) ensures v == joint {
      BpLeKnown(d, st, v, joint);
      BpLeKnown(d, st, joint, v);
      LeAntisymmetric(d, v, joint);
    }
    while !st[e].minWlIncreased
      invariant e in st && BpLe(d, st, e, joint)
      invariant forall v :: BpLe(d, st, v, joint) && BpLe(d, st, e, v) && v != e ==> v in st && !st[v].minWlIncreased
      invariant IsGenesis(d, e) || st[e].minWl == st[joint].minWl
      decreases Rank(d, e)
    {
      assert EntryOk(d, st, e);
      var b := st[e].bp.value;
      MinWitnessedLevelMonotone(d, st, e);
      BpLeTransitive(d, st, b, e, joint);
      forall v | BpLe(d, st, v, joint) && BpLe(d, st, b, v) && v != b
        ensures v in st && !st[v].minWlIncreased
      {
        BpLeKnown(d, st, v, joint);
        BpLinear(d, st, v, e, joint);
        if BpLe(d, st, v, e) && v != e {
          BpLeKnown(d, st, v, b);
          BpLeKnown(d, st, b, v);
          LeAntisymmetric(d, v, b);
          assert false;
        }
      }
      e := b;
    }
  }

  // ---------------------------------------------------------------- what the relative stable unit means

  /** The witnesses that signed a unit from `top` down the best parents to `low`. */
  ghost function Met(d: Dag, st: Statics, top: Hash, low: Hash): set<Address>
    requires WellFormed(d) && BpOk(d, st)
  {
    set a | a in d.witnesses &&
      exists x :: BpLe(d, st, x, top) && BpLe(d, st, low, x) && x in d.units && a in d.units[x].authors
  }

  lemma MetStep(d: Dag, st: Statics, v: Hash, low: Hash)
    requires StaticOk(d, st) && v in st && BpLe(d, st, low, v)
    ensures low == v ==> Met(d, st, v, low) == Signers(d, v)
    ensures low != v ==> st[v].bp.Some? && Met(d, st, v, low) == Signers(d, v) + Met(d, st, st[v].bp.value, low)
  {
    assert BpLe(d, st, v, v);
    forall x | BpLe(d, st, x, v) && BpLe(d, st, v, x) ensures x == v {
      BpLeKnown(d, st, x, v);
      BpLeKnown(d, st, v, x);
      LeAntisymmetric(d, x, v);
    }
    if low != v {
      var b := st[v].bp.value;
      assert forall x :: BpLe(d, st, x, v) <==> x == v || BpLe(d, st, x, b);
    }
  }

  /** From `v` down to `x`, and in `acc`, a majority of the witnesses has signed. */
  ghost predicate Majority(d: Dag, st: Statics, v: Hash, acc: set<Address>, x: Hash)
    requires WellFormed(d) && BpOk(d, st)
  {
    |acc + Met(d, st, v, x)| >= MAJORITY_OF_WITNESSES
  }

  lemma MajorityStep(d: Dag, st: Statics, v: Hash, acc: set<Address>, x: Hash)
    requires StaticOk(d, st) && v in st && BpLe(d, st, x, v)
    ensures x == v ==> (Majority(d, st, v, acc, x) <==> |acc + Signers(d, v)| >= MAJORITY_OF_WITNESSES)
    ensures x != v ==>
      && st[v].bp.Some? && BpLe(d, st, x, st[v].bp.value)
      && (Majority(d, st, v, acc, x) <==> Majority(d, st, st[v].bp.value, acc + Signers(d, v), x))
  {
    MetStep(d, st, v, x);
    if x != v {
      var b := st[v].bp.value;
      hide Met;
      assert acc + Signers(d, v) + Met(d, st, b, x) == acc + Met(d, st, v, x);
    }
  }

  /** The walk stops where a majority has signed, and at no unit above that had it. */
  lemma {:induction false} RelativeStableMeans(d: Dag, st: Statics, v: Hash, acc: set<Address>)
    requires StaticOk(d, st) && v in st
    ensures var r := RelativeStable(d, st, v, acc);
      && BpLe(d, st, r, v) && Majority(d, st, v, acc, r)
      && forall x :: BpLe(d, st, x, v) && BpLe(d, st, r, x) && x != r ==> !Majority(d, st, v, acc, x)
    decreases Rank(d, v)
  {
    assert WellFormed(d) && BpOk(d, st) && BpLe(d, st, v, v);
    var r, met := RelativeStable(d, st, v, acc), acc + Signers(d, v);
    hide Majority; hide StaticOk; hide WellFormed;
    MajorityStep(d, st, v, acc, v);
    if |met| >= MAJORITY_OF_WITNESSES {
      forall x | BpLe(d, st, x, v) && BpLe(d, st, v, x) ensures x == v {
        BpLeKnown(d, st, x, v);
        BpLeKnown(d, st, v, x);
        LeAntisymmetric(d, x, v);
      }
    } else {
      GenesisStops(d, v, acc);
      var b := st[v].bp.value;
      RelativeStableMeans(d, st, b, met);
      RelativeIsBelow(d, st, v, r);
      hide BpOk; hide RelativeStable;
      MajorityStep(d, st, v, acc, r);
      forall x | BpLe(d, st, x, v) && BpLe(d, st, r, x) && x != r ensures !Majority(d, st, v, acc, x) {
        MajorityStep(d, st, v, acc, x);
      }
    }
  }

  lemma RelativeIsBelow(d: Dag, st: Statics, v: Hash, r: Hash)
    requires StaticOk(d, st) && v in st && st[v].bp.Some? && BpLe(d, st, r, st[v].bp.value)
    ensures r != v
  {
    BpLeKnown(d, st, r, st[v].bp.value);
    LevelIncreases(d, st, r, st[v].bp.value);
    ParentsLower(d, st, v);
  }

  /**
   * Where the witnessed levels come from: `r` is the first unit down the best parents of `u` at
   * which a majority has signed; its level is the witnessed level, its witnessed level the
   * min witnessed level, and the flags say whether these exceed those of the best parent.
   */
  lemma WitnessedMeans(d: Dag, st: Statics, u: Hash) returns (r: Hash)
    requires StaticOk(d, st) && u in st && d.units[u].parents != []
    ensures st[u].bp.Some? && var b := st[u].bp.value;
      && b in st && b in d.units[u].parents && BpLe(d, st, r, b) && r in st
      && |Met(d, st, b, r)| >= MAJORITY_OF_WITNESSES
      && (forall x :: BpLe(d, st, x, b) && BpLe(d, st, r, x) && x != r ==> |Met(d, st, b, x)| < MAJORITY_OF_WITNESSES)
      && st[u].wl == st[r].level && st[u].minWl == st[r].wl
      && (st[u].wlIncreased <==> st[u].wl > st[b].wl)
      && (st[u].minWlIncreased <==> st[u].minWl > st[b].minWl)
  {
    assert EntryOk(d, st, u);
    var b := st[u].bp.value;
    r := RelativeStable(d, st, b, {});
    RelativeStableMeans(d, st, b, {});
    forall x ensures {} + Met(d, st, b, x) == Met(d, st, b, x) {}
    hide Met;
    forall x | BpLe(d, st, x, b) && BpLe(d, st, r, x) && x != r ensures |Met(d, st, b, x)| < MAJORITY_OF_WITNESSES {
      assert !Majority(d, st, b, {}, x);
    }
  }

  /** The min witnessed level rises at `v`: above that of its best parent, or at genesis. */
  ghost predicate Raises(d: Dag, st: Statics, v: Hash)
    requires v in st
  {
    st[v].bp.None? || (st[v].bp.value in st && st[v].minWl > st[st[v].bp.value].minWl)
  }

  /** The latest effective unit in terms of levels. */
  lemma EffectiveByLevels(d: Dag, st: Statics, joint: Hash, e: Hash)
    requires StaticOk(d, st)
    ensures IsEffective(d, st, joint, e) <==>
      && BpLe(d, st, e, joint) && e in st && Raises(d, st, e)
      && forall v :: BpLe(d, st, v, joint) && BpLe(d, st, e, v) && v != e ==> v in st && !Raises(d, st, v)
  {
    forall v | v in st ensures st[v].minWlIncreased <==> Raises(d, st, v) { FlagMeans(d, st, v); }
    hide StaticOk; hide BpOk; hide Raises; hide BpLe;
  }

  lemma FlagMeans(d: Dag, st: Statics, v: Hash)
    requires StaticOk(d, st) && v in st
    ensures st[v].minWlIncreased <==> Raises(d, st, v)
  {
    assert EntryOk(d, st, v);
    if d.units[v].parents != [] { var r := WitnessedMeans(d, st, v); }
  }

  /** Any two majorities of the witnesses share one, and no smaller number guarantees that. */
  lemma MajoritiesMeet(witnesses: set<Address>, a: set<Address>, b: set<Address>)
    requires |witnesses| <= COUNT_WITNESSES && a <= witnesses && b <= witnesses
    requires |a| >= MAJORITY_OF_WITNESSES && |b| >= MAJORITY_OF_WITNESSES
    ensures a * b != {}
    ensures 2 * (MAJORITY_OF_WITNESSES - 1) <= COUNT_WITNESSES
  {
    SubsetSize(a + b, witnesses);
    assert |a + b| == |a| + |b| - |a * b|;
  }

  /** So the signatures that fix the witnessed levels of any two units have a witness in common. */
  lemma WitnessInCommon(d: Dag, st: Statics, u: Hash, v: Hash) returns (a: Address)
    requires StaticOk(d, st) && u in st && v in st && |d.witnesses| <= COUNT_WITNESSES
    ensures a in Met(d, st, u, RelativeStable(d, st, u, {})) && a in Met(d, st, v, RelativeStable(d, st, v, {}))
  {
    hide *;
    MetIsMajority(d, st, u);
    MetIsMajority(d, st, v);
    var one, two := Met(d, st, u, RelativeStable(d, st, u, {})), Met(d, st, v, RelativeStable(d, st, v, {}));
    MajoritiesMeet(d.witnesses, one, two);
    a :| a in one * two;
  }

  lemma MetIsMajority(d: Dag, st: Statics, u: Hash)
    requires StaticOk(d, st) && u in st
    ensures WellFormed(d) && BpOk(d, st)
    ensures var met := Met(d, st, u, RelativeStable(d, st, u, {}));
      met <= d.witnesses && |met| >= MAJORITY_OF_WITNESSES
  {
    assert WellFormed(d) && BpOk(d, st);
    hide RelativeStable; hide StaticOk; hide WellFormed; hide BpOk; hide BpLe;
    RelativeStableMeans(d, st, u, {});
    var met := Met(d, st, u, RelativeStable(d, st, u, {}));
    assert {} + met == met;
  }

  // ---------------------------------------------------------------- agreement of two nodes

  /** The same units, except that the parents of a unit may have arrived in another order. */
  ghost predicate SameUnits(d: Dag, e: Dag)
  {
    && d.witnesses == e.witnesses
    && d.units.Keys == e.units.Keys
    && forall u :: u in d.units ==>
         && d.units[u].authors == e.units[u].authors
         && (forall p :: p in d.units[u].parents <==> p in e.units[u].parents)
  }

  lemma {:induction false} LeAgrees(d: Dag, e: Dag, a: Hash, u: Hash)
    requires WellFormed(d) && WellFormed(e) && SameUnits(d, e) && Le(d, a, u)
    ensures Le(e, a, u)
    decreases Rank(d, u)
  {
    if a != u {
      var p :| p in d.units[u].parents && Le(d, a, p);
      LeAgrees(d, e, a, p);
    }
  }

  ghost predicate AgreeOn(st: Statics, st': Statics, s: seq<Hash>)
  {
    forall p :: p in s ==> p in st && p in st' && st[p] == st'[p]
  }

  lemma LevelAboveUnique(st: Statics, st': Statics, s: seq<Hash>, s': seq<Hash>, l: int, l': int)
    requires AgreeOn(st, st', s) && forall p :: p in s <==> p in s'
    requires IsLevelAbove(st, s, l) && IsLevelAbove(st', s', l')
    ensures l == l' && (s == [] <==> s' == [])
  {
    if s != [] { assert s[0] in s'; }
    if s' != [] { assert s'[0] in s; }
  }

  lemma BestUnique(d: Dag, e: Dag, st: Statics, st': Statics, s: seq<Hash>, s': seq<Hash>, b: Hash, b': Hash)
    requires SameUnits(d, e) && AgreeOn(st, st', s) && forall p :: p in s <==> p in s'
    requires Known(d, st, s) && Known(e, st', s') && IsBest(d, st, s, b) && IsBest(e, st', s', b')
    ensures b == b'
  {
    assert ByWitness(d, b) == ByWitness(e, b) && ByWitness(d, b') == ByWitness(e, b');
    assert b' in s && b in s';
  }

  /** Two nodes holding the same units agree on every static property of every unit. */
  lemma {:induction false} StaticPropsAgree(d: Dag, e: Dag, st: Statics, st': Statics, u: Hash)
    requires StaticOk(d, st) && StaticOk(e, st') && SameUnits(d, e) && u in st && u in st'
    ensures st[u] == st'[u]
    decreases Rank(d, u), 0
  {
    assert EntryOk(d, st, u) && EntryOk(e, st', u);
    var ps, ps' := d.units[u].parents, e.units[u].parents;
    forall p | p in ps ensures p in st && p in st' && st[p] == st'[p] {
      assert p in ps';
      StaticPropsAgree(d, e, st, st', p);
    }
    LevelAboveUnique(st, st', ps, ps', st[u].level, st'[u].level);
    if ps != [] {
      BestUnique(d, e, st, st', ps, ps', st[u].bp.value, st'[u].bp.value);
      RelativeStableAgrees(d, e, st, st', st[u].bp.value, {});
    }
  }

  lemma {:induction false} RelativeStableAgrees(d: Dag, e: Dag, st: Statics, st': Statics, v: Hash, acc: set<Address>)
    requires StaticOk(d, st) && StaticOk(e, st') && SameUnits(d, e) && v in st && v in st'
    ensures RelativeStable(d, st, v, acc) == RelativeStable(e, st', v, acc)
    ensures var r := RelativeStable(d, st, v, acc); r in st && r in st' && st[r] == st'[r]
    decreases Rank(d, v), 1
  {
    StaticPropsAgree(d, e, st, st', v);
    var met := acc + Signers(d, v);
    assert Signers(d, v) == Signers(e, v);
    if |met| < MAJORITY_OF_WITNESSES {
      GenesisStops(d, v, acc);
      RelativeStableAgrees(d, e, st, st', st[v].bp.value, met);
    }
  }
}
