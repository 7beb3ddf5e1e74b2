/**
 * The highest unit of a joint's own best-parent chain that is stable in its view
 * (src/main_chain.rs): the chain is cut where the chains of alternative witnesses meet it.
 */
module MaxStable {
  import opened Collections
  import opened Dag
  import opened StaticProps
  import opened BestChain

  // ---------------------------------------------------------------- what is computed

  /**
   * How far down the alternative `a` pushes the cut: the level at which its best-parent
   * chain meets the chain of `joint`, or the last level above 0 if they only meet at genesis.
   */
  ghost function Floor(d: Dag, st: Statics, joint: Hash, a: Hash): int
    requires StaticOk(d, st) && a in st
    decreases Rank(d, a)
  {
    if BpLe(d, st, a, joint) || st[a].bp.None? || st[st[a].bp.value].level <= 0 then st[a].level
    else
      (BpStep(d, st, a);
       Floor(d, st, joint, st[a].bp.value))
  }

  ghost predicate Under(d: Dag, st: Statics, joint: Hash, alts: set<Hash>, x: Hash)
    requires StaticOk(d, st)
  {
    x in st && forall a :: a in alts && a in st ==> st[x].level <= Floor(d, st, joint, a)
  }

  /** `r` is the highest unit on the chain of `joint` that no alternative pushes down further. */
  ghost predicate IsMaxStable(d: Dag, st: Statics, joint: Hash, alts: set<Hash>, r: Hash)
    requires StaticOk(d, st)
  {
    && BpLe(d, st, r, joint) && Under(d, st, joint, alts, r)
    && forall x :: BpLe(d, st, x, joint) && Under(d, st, joint, alts, x) ==> BpLe(d, st, x, r)
  }

  /** The result is determined by the set of alternatives: their order does not matter. */
  lemma MaxStableUnique(d: Dag, st: Statics, joint: Hash, alts: set<Hash>, r: Hash, r': Hash)
    requires StaticOk(d, st) && IsMaxStable(d, st, joint, alts, r) && IsMaxStable(d, st, joint, alts, r')
    ensures r == r'
  {
    BpAntisymmetric(d, st, r, r');
  }

  /** `m` is where the best-parent chains of `a` and `joint` meet. */
  ghost predicate IsMeeting(d: Dag, st: Statics, joint: Hash, a: Hash, m: Hash)
    requires StaticOk(d, st)
  {
    && BpLe(d, st, m, a) && BpLe(d, st, m, joint)
    && forall x :: BpLe(d, st, x, a) && BpLe(d, st, x, joint) ==> BpLe(d, st, x, m)
  }

  /** Above genesis the floor is the meeting's level; otherwise it is the least positive level of `a`'s chain. */
  lemma {:induction false} FloorIsMeeting(d: Dag, st: Statics, joint: Hash, a: Hash, m: Hash)
    requires StaticOk(d, st) && a in st && IsMeeting(d, st, joint, a, m)
    ensures m in st && (st[m].level > 0 ==> Floor(d, st, joint, a) == st[m].level)
    ensures st[m].level <= 0 < st[a].level ==>
      && Floor(d, st, joint, a) > 0
      && forall x :: BpLe(d, st, x, a) && x in st && st[x].level > 0 ==> Floor(d, st, joint, a) <= st[x].level
    decreases Rank(d, a)
  {
    BpLevel(d, st, m, a);
    BpStep(d, st, a);
    if BpLe(d, st, a, joint) {
      assert BpLe(d, st, a, a);
      BpAntisymmetric(d, st, a, m);
    } else {
      var b := st[a].bp.value;
      assert BpLe(d, st, m, b);
      BpLevel(d, st, m, b);
      assert IsMeeting(d, st, joint, b, m);
      FloorIsMeeting(d, st, joint, b, m);
      forall x | BpLe(d, st, x, a) && x in st ensures x == a || BpLe(d, st, x, b) {}
      BpStep(d, st, b);
      forall x | BpLe(d, st, x, b) ensures x in st && st[x].level <= st[b].level { BpLevel(d, st, x, b); }
    }
  }

  /** The result is at or below the point where each alternative's chain meets the joint's, above level 0. */
  lemma BelowMeetings(d: Dag, st: Statics, joint: Hash, alts: set<Hash>, r: Hash, a: Hash, m: Hash)
    requires StaticOk(d, st) && IsMaxStable(d, st, joint, alts, r) && a in alts && a in st
    requires IsMeeting(d, st, joint, a, m) && st[m].level > 0
    ensures BpLe(d, st, r, m) && BpLe(d, st, r, a)
  {
    FloorIsMeeting(d, st, joint, a, m);
    BpByLevel(d, st, r, m, joint);
    BpLeTransitive(d, st, r, m, a);
  }

  /** Fewer alternatives never give a lower unit. */
  lemma MoreAlternativesLower(d: Dag, st: Statics, joint: Hash, few: set<Hash>, many: set<Hash>, r: Hash, r': Hash)
    requires StaticOk(d, st) && few <= many && IsMaxStable(d, st, joint, few, r) && IsMaxStable(d, st, joint, many, r')
    ensures BpLe(d, st, r', r)
  {
  }

  // ---------------------------------------------------------------- the alternatives

  /** The first witness unit off `mc` down the best-parent chain from `v`, above level 0 and not below `until`. */
  ghost function FirstAlt(d: Dag, st: Statics, mc: seq<Hash>, until: int, v: Option<Hash>): Option<Hash>
    requires StaticOk(d, st) && (v.Some? ==> v.value in st)
    decreases v.Some?, if v.Some? then Rank(d, v.value) else 0
  {
    if v.None? || st[v.value].level <= 0 || st[v.value].level < until then None
    else if ByWitness(d, v.value) && v.value !in mc then v
    else
      (BpStep(d, st, v.value);
       FirstAlt(d, st, mc, until, st[v.value].bp))
  }

  /** The witness unit `w` contributes the alternative `b`. */
  ghost predicate Gives(d: Dag, st: Statics, mc: seq<Hash>, until: int, w: Hash, b: Hash)
    requires StaticOk(d, st)
  {
    w in st && st[w].level > until && ByWitness(d, w) && w !in mc && FirstAlt(d, st, mc, until, st[w].bp) == Some(b)
  }

  /** `b` is an alternative given by some unit the joint includes. */
  ghost predicate IsAlt(d: Dag, st: Statics, joint: Hash, mc: seq<Hash>, until: int, b: Hash)
    requires StaticOk(d, st)
  {
    exists w :: Le(d, w, joint) && Gives(d, st, mc, until, w, b)
  }

  /** What the walk for an alternative accepts. */
  ghost predicate Qualifies(d: Dag, st: Statics, mc: seq<Hash>, until: int, x: Hash)
  {
    x in st && x in d.units && st[x].level > 0 && st[x].level >= until && ByWitness(d, x) && x !in mc
  }

  /** The walk finds the highest unit of the chain that qualifies, and none only if there is none. */
  lemma {:induction false} FirstAltMeans(d: Dag, st: Statics, mc: seq<Hash>, until: int, v: Hash)
    requires StaticOk(d, st) && v in st
    ensures var r := FirstAlt(d, st, mc, until, Some(v));
      && (r.None? ==> forall x :: BpLe(d, st, x, v) ==> !Qualifies(d, st, mc, until, x))
      && (r.Some? ==>
           && BpLe(d, st, r.value, v) && Qualifies(d, st, mc, until, r.value)
           && forall x :: BpLe(d, st, x, v) && Qualifies(d, st, mc, until, x) ==> BpLe(d, st, x, r.value))
    decreases Rank(d, v)
  {
    BpStep(d, st, v);
    forall x | BpLe(d, st, x, v) ensures x in st && st[x].level <= st[v].level { BpLevel(d, st, x, v); }
    if st[v].level > 0 && st[v].level >= until && !(ByWitness(d, v) && v !in mc) {
      var b := st[v].bp.value;
      FirstAltMeans(d, st, mc, until, b);
      assert forall x :: BpLe(d, st, x, v) ==> x == v || BpLe(d, st, x, b);
      var r := FirstAlt(d, st, mc, until, Some(b));
      assert FirstAlt(d, st, mc, until, Some(v)) == r;
    }
  }

  /** Below `w` on its best-parent chain, by a witness, off `mc`, above level 0 and not below `until`. */
  ghost predicate Candidate(d: Dag, st: Statics, mc: seq<Hash>, until: int, w: Hash, b: Hash)
    requires StaticOk(d, st)
  {
    && BpLe(d, st, b, w) && b != w && b in st && b in d.units
    && (exists a :: a in d.units[b].authors && a in d.witnesses)
    && b !in mc && st[b].level > 0 && st[b].level >= until
  }

  /**
   * `b` is the highest such unit below some unit `w` by a witness that the joint includes, off
   * `mc` and above `until`.
   */
  ghost predicate IsAlternative(d: Dag, st: Statics, joint: Hash, mc: seq<Hash>, until: int, b: Hash)
    requires StaticOk(d, st)
  {
    exists w :: Contributes(d, st, joint, mc, until, w) && Candidate(d, st, mc, until, w, b) &&
      forall x :: Candidate(d, st, mc, until, w, x) ==> BpLe(d, st, x, b)
  }

  ghost predicate Contributes(d: Dag, st: Statics, joint: Hash, mc: seq<Hash>, until: int, w: Hash)
    requires StaticOk(d, st)
  {
    && Le(d, w, joint) && w in st && w in d.units && (exists a :: a in d.units[w].authors && a in d.witnesses)
    && w !in mc && st[w].level > until
  }

  lemma CandidateIs(d: Dag, st: Statics, mc: seq<Hash>, until: int, w: Hash, x: Hash)
    requires StaticOk(d, st) && w in st
    ensures Candidate(d, st, mc, until, w, x) <==>
      st[w].bp.Some? && BpLe(d, st, x, st[w].bp.value) && Qualifies(d, st, mc, until, x)
  {
    BpStep(d, st, w);
    if st[w].bp.Some? && BpLe(d, st, x, st[w].bp.value) { BpLevel(d, st, x, st[w].bp.value); }
  }

  lemma GivesMeans(d: Dag, st: Statics, joint: Hash, mc: seq<Hash>, until: int, w: Hash, b: Hash)
    requires StaticOk(d, st) && Le(d, w, joint)
    ensures Gives(d, st, mc, until, w, b) <==>
      && Contributes(d, st, joint, mc, until, w) && Candidate(d, st, mc, until, w, b)
      && forall x :: Candidate(d, st, mc, until, w, x) ==> BpLe(d, st, x, b)
  {
    if w in st {
      forall x ensures Candidate(d, st, mc, until, w, x) <==>
        st[w].bp.Some? && BpLe(d, st, x, st[w].bp.value) && Qualifies(d, st, mc, until, x)
      {
        CandidateIs(d, st, mc, until, w, x);
      }
      BpStep(d, st, w);
      if st[w].bp.Some? {
        var v := st[w].bp.value;
        FirstAltMeans(d, st, mc, until, v);
        hide Candidate; hide Qualifies; hide FirstAlt;
        var r := FirstAlt(d, st, mc, until, Some(v));
        if
          && r.Some? && Candidate(d, st, mc, until, w, b)
          && forall x :: Candidate(d, st, mc, until, w, x) ==> BpLe(d, st, x, b)
        {
          BpAntisymmetric(d, st, b, r.value);
        }
      }
    }
  }

  /** The alternatives, in terms of inclusion, best-parent chains, levels and authors. */
  lemma AlternativeMeans(d: Dag, st: Statics, joint: Hash, mc: seq<Hash>, until: int, b: Hash)
    requires StaticOk(d, st)
    ensures IsAlt(d, st, joint, mc, until, b) <==> IsAlternative(d, st, joint, mc, until, b)
  {
    assert WellFormed(d) && BpOk(d, st);
    hide StaticOk; hide Gives; hide Contributes; hide Candidate; hide BpLe; hide WellFormed; hide BpOk;
    if IsAlt(d, st, joint, mc, until, b) {
      var w :| Le(d, w, joint) && Gives(d, st, mc, until, w, b);
      GivesMeans(d, st, joint, mc, until, w, b);
    }
    if IsAlternative(d, st, joint, mc, until, b) {
      var w :| Contributes(d, st, joint, mc, until, w) && Candidate(d, st, mc, until, w, b) &&
        forall x :: Candidate(d, st, mc, until, w, x) ==> BpLe(d, st, x, b);
      assert Le(d, w, joint) by { ContributesIncluded(d, st, joint, mc, until, w); }
      GivesMeans(d, st, joint, mc, until, w, b);
    }
  }

  lemma ContributesIncluded(d: Dag, st: Statics, joint: Hash, mc: seq<Hash>, until: int, w: Hash)
    requires StaticOk(d, st) && Contributes(d, st, joint, mc, until, w)
    ensures Le(d, w, joint)
  {
  }

  /** The inner walk of get_all_alt_witness_units. */
  method FindAlt(d: Dag, st: Statics, mc: seq<Hash>, until: int, w: Hash) returns (b: Option<Hash>)
    requires StaticOk(d, st) && w in st
    ensures b == FirstAlt(d, st, mc, until, st[w].bp)
  {
    BpStep(d, st, w);
    b := st[w].bp;
    while b.Some? && st[b.value].level > 0
      invariant b.Some? ==> b.value in st
      invariant FirstAlt(d, st, mc, until, b) == FirstAlt(d, st, mc, until, st[w].bp)
      decreases b.Some?, if b.Some? then Rank(d, b.value) else 0
    {
      if st[b.value].level < until { return None; }
      if ByWitness(d, b.value) && b.value !in mc { return; }
      BpStep(d, st, b.value);
      b := st[b.value].bp;
    }
    return None;
  }

  /** Every unit above `until` that the joint includes is reached by the search. */
  lemma {:induction false} SearchReaches(d: Dag, st: Statics, done: set<Hash>, until: int, w: Hash, u: Hash)
    requires StaticOk(d, st) && u in st && u in done && Le(d, w, u) && w in st && st[w].level > until
    requires forall v, p :: v in done && v in st && st[v].level > until && p in d.units[v].parents ==> p in done
    ensures w in done
    decreases Rank(d, u)
  {
    if w != u {
      var p := StepDown(d, w, u);
      LevelIncreases(d, st, w, u);
      ParentsLower(d, st, u);
      SearchReaches(d, st, done, until, w, p);
    }
  }

  /** `ret` are the alternatives given by the units searched so far. */
  ghost predicate Collected(d: Dag, st: Statics, mc: seq<Hash>, until: int, done: set<Hash>, ret: seq<Hash>)
    requires StaticOk(d, st)
  {
    forall b :: b in ret <==> exists w :: w in done && Gives(d, st, mc, until, w, b)
  }

  lemma CollectedStep(d: Dag, st: Statics, mc: seq<Hash>, until: int, done: set<Hash>, ret: seq<Hash>, u: Hash,
      more: seq<Hash>)
    requires StaticOk(d, st) && Collected(d, st, mc, until, done, ret)
    requires forall b :: b in more <==> b in ret || Gives(d, st, mc, until, u, b)
    ensures Collected(d, st, mc, until, done + {u}, more)
  {
    hide StaticOk; hide Gives;
  }

  /** The units searched and still to search: all below the joint, and nothing is forgotten. */
  ghost predicate SearchOk(d: Dag, st: Statics, joint: Hash, until: int, queue: seq<Hash>, visited: set<Hash>,
      done: set<Hash>)
    requires StaticOk(d, st)
  {
    && (forall x :: x in queue || x in done ==> x in st && Le(d, x, joint))
    && (forall x :: x in visited || x == joint ==> x in queue || x in done)
    && (forall v, p :: v in done && v in st && st[v].level > until && p in d.units[v].parents ==> p in visited)
  }

  lemma SearchStep(d: Dag, st: Statics, joint: Hash, until: int, queue: seq<Hash>, visited: set<Hash>,
      done: set<Hash>, q: seq<Hash>, v: set<Hash>)
    requires StaticOk(d, st) && queue != [] && SearchOk(d, st, joint, until, queue, visited, done)
    requires queue[0] in st
    requires if st[queue[0]].level <= until then q == queue[1..] && v == visited
      else
        && (forall x :: x in v <==> x in visited || x in d.units[queue[0]].parents)
        && (forall x :: x in q <==> x in queue[1..] || (x in d.units[queue[0]].parents && x !in visited))
    ensures SearchOk(d, st, joint, until, q, v, done + {queue[0]})
  {
    var u := queue[0];
    assert WellFormed(d) && u in d.units;
    hide StaticOk; hide Le; hide WellFormed;
    HeadOrTail(queue);
    forall x | x in q ensures x in st && Le(d, x, joint) {
      if x !in queue[1..] { ParentIncluded(d, st, joint, u, x); }
    }
    forall x | x in v || x == joint ensures x in q || x in done + {u} {}
  }

  lemma HeadOrTail(queue: seq<Hash>)
    requires queue != []
    ensures forall x :: x in queue <==> x == queue[0] || x in queue[1..]
  {
    assert queue == [queue[0]] + queue[1..];
  }

  lemma ParentIncluded(d: Dag, st: Statics, joint: Hash, u: Hash, x: Hash)
    requires StaticOk(d, st) && u in st && Le(d, u, joint) && u in d.units && x in d.units[u].parents
    ensures x in st && Le(d, x, joint)
  {
    ParentsLower(d, st, u);
    assert Le(d, x, x);
    assert Le(d, x, u);
    LeTransitive(d, x, u, joint);
  }

  lemma SearchEnd(d: Dag, st: Statics, joint: Hash, mc: seq<Hash>, until: int, visited: set<Hash>, done: set<Hash>,
      ret: seq<Hash>)
    requires StaticOk(d, st) && joint in st && SearchOk(d, st, joint, until, [], visited, done)
    requires Collected(d, st, mc, until, done, ret)
    ensures forall b :: b in ret <==> IsAlt(d, st, joint, mc, until, b)
  {
    forall w, b | Le(d, w, joint) && Gives(d, st, mc, until, w, b) ensures w in done {
      SearchReaches(d, st, done, until, w, joint);
    }
    hide StaticOk; hide Gives;
  }

  lemma LowGivesNone(d: Dag, st: Statics, mc: seq<Hash>, until: int, u: Hash)
    requires StaticOk(d, st) && u in st && st[u].level <= until
    ensures forall b :: !Gives(d, st, mc, until, u, b)
  {
  }

  /** The alternative of one unit, unless it is listed already. */
  method AddAlt(d: Dag, st: Statics, mc: seq<Hash>, until: int, u: Hash, ret: seq<Hash>) returns (more: seq<Hash>)
    requires StaticOk(d, st) && u in st && st[u].level > until
    requires forall i, j :: 0 <= i < j < |ret| ==> ret[i] != ret[j]
    ensures forall b :: b in more <==> b in ret || Gives(d, st, mc, until, u, b)
    ensures forall i, j :: 0 <= i < j < |more| ==> more[i] != more[j]
  {
    more := ret;
    if ByWitness(d, u) && u !in mc {
      var b := FindAlt(d, st, mc, until, u);
      if b.Some? && b.value !in ret { more := ret + [b.value]; }
    }
  }

  /** get_all_alt_witness_units: a breadth-first search from the joint, cut at level `until`. */
  method GetAllAltWitnessUnits(d: Dag, st: Statics, joint: Hash, mc: seq<Hash>, until: int) returns (ret: seq<Hash>)
    requires StaticOk(d, st) && joint in st
    ensures forall b :: b in ret <==> IsAlternative(d, st, joint, mc, until, b)
    ensures forall i, j :: 0 <= i < j < |ret| ==> ret[i] != ret[j]
  {
    hide *;
    ret := [];
    var queue, visited := [joint], {};
    ghost var done: set<Hash> := {};
    SearchStart(d, st, joint, mc, until);
    while queue != []
      invariant SearchOk(d, st, joint, until, queue, visited, done) && Collected(d, st, mc, until, done, ret)
      invariant forall i, j :: 0 <= i < j < |ret| ==> ret[i] != ret[j]
      decreases st.Keys - visited, |queue|
    {
      HeadKnown(d, st, joint, until, queue, visited, done);
      var u := queue[0];
      ghost var q, v, r := queue, visited, ret;
      queue := queue[1..];
      if st[u].level > until {
        visited, queue := PushUnvisited(d.units[u].parents, visited, queue);
        ret := AddAlt(d, st, mc, until, u, ret);
      } else {
        LowGivesNone(d, st, mc, until, u);
      }
      SearchStep(d, st, joint, until, q, v, done, queue, visited);
      CollectedStep(d, st, mc, until, done, r, u, ret);
      done := done + {u};
    }
    SearchEnd(d, st, joint, mc, until, visited, done, ret);
    forall b ensures b in ret <==> IsAlternative(d, st, joint, mc, until, b) {
      AlternativeMeans(d, st, joint, mc, until, b);
    }
  }

  lemma SearchStart(d: Dag, st: Statics, joint: Hash, mc: seq<Hash>, until: int)
    requires StaticOk(d, st) && joint in st
    ensures SearchOk(d, st, joint, until, [joint], {}, {}) && Collected(d, st, mc, until, {}, [])
  {
    assert Le(d, joint, joint);
  }

  lemma HeadKnown(d: Dag, st: Statics, joint: Hash, until: int, queue: seq<Hash>, visited: set<Hash>, done: set<Hash>)
    requires StaticOk(d, st) && queue != [] && SearchOk(d, st, joint, until, queue, visited, done)
    ensures queue[0] in st && queue[0] in d.units
    ensures forall i :: 0 <= i < |d.units[queue[0]].parents| ==> d.units[queue[0]].parents[i] in st.Keys
  {
    assert queue[0] in queue;
    ParentsLower(d, st, queue[0]);
  }

  // ---------------------------------------------------------------- cutting the joint's chain

  /** `mc` is the part of the best-parent chain of `joint` from `joint` down to its last unit. */
  ghost predicate Segment(d: Dag, st: Statics, joint: Hash, mc: seq<Hash>)
    requires StaticOk(d, st)
  {
    && mc != []
    && forall x :: x in mc <==> BpLe(d, st, x, joint) && BpLe(d, st, mc[|mc| - 1], x)
  }

  lemma SegmentLast(d: Dag, st: Statics, joint: Hash, mc: seq<Hash>)
    requires StaticOk(d, st) && Segment(d, st, joint, mc)
    ensures mc != [] && mc[|mc| - 1] in st && BpLe(d, st, mc[|mc| - 1], joint) && joint in st
  {
    assert mc[|mc| - 1] in mc;
    BpLeKnown(d, st, mc[|mc| - 1], joint);
  }

  lemma SegmentGrows(d: Dag, st: Statics, joint: Hash, mc: seq<Hash>, b: Hash)
    requires StaticOk(d, st) && Segment(d, st, joint, mc) && mc[|mc| - 1] in st && st[mc[|mc| - 1]].bp == Some(b)
    ensures Segment(d, st, joint, mc + [b])
  {
    var last := mc[|mc| - 1];
    var longer := mc + [b];
    SegmentLast(d, st, joint, mc);
    BpStep(d, st, last);
    BpLeTransitive(d, st, b, last, joint);
    assert longer[|longer| - 1] == b && BpLe(d, st, b, b);
    forall x ensures x in longer <==> BpLe(d, st, x, joint) && BpLe(d, st, b, x) {
      if x in mc {
        BpLeTransitive(d, st, b, last, x);
      } else if x != b && BpLe(d, st, x, joint) && BpLe(d, st, b, x) {
        BpLinear(d, st, x, last, joint);
        BpLevel(d, st, b, x);
        assert BpLe(d, st, x, b);
        BpLevel(d, st, x, b);
      }
    }
  }

  /** Once the segment reaches down to the level of `a`, it holds `a` exactly when `a` is on the joint's chain. */
  lemma SegmentHolds(d: Dag, st: Statics, joint: Hash, mc: seq<Hash>, a: Hash)
    requires StaticOk(d, st) && Segment(d, st, joint, mc) && a in st
    requires mc[|mc| - 1] in st && st[mc[|mc| - 1]].level <= st[a].level
    ensures a in mc <==> BpLe(d, st, a, joint)
  {
    SegmentLast(d, st, joint, mc);
    if BpLe(d, st, a, joint) { BpByLevel(d, st, mc[|mc| - 1], a, joint); }
  }

  lemma FloorStep(d: Dag, st: Statics, joint: Hash, a: Hash)
    requires StaticOk(d, st) && a in st
    ensures 0 <= Floor(d, st, joint, a) <= st[a].level && (st[a].level > 0 ==> Floor(d, st, joint, a) > 0)
    ensures BpLe(d, st, a, joint) ==> Floor(d, st, joint, a) == st[a].level
    ensures st[a].bp.Some? && st[a].bp.value in st && !BpLe(d, st, a, joint) ==>
      Floor(d, st, joint, a) ==
        if st[st[a].bp.value].level <= 0 then st[a].level else Floor(d, st, joint, st[a].bp.value)
    decreases Rank(d, a)
  {
    BpStep(d, st, a);
    if !(BpLe(d, st, a, joint) || st[a].bp.None? || st[st[a].bp.value].level <= 0) {
      FloorStep(d, st, joint, st[a].bp.value);
    }
  }

  /** Extending the segment down to level `l`. */
  method Extend(d: Dag, st: Statics, joint: Hash, mc: seq<Hash>, l: int) returns (longer: seq<Hash>)
    requires StaticOk(d, st) && Segment(d, st, joint, mc) && l >= 0
    ensures longer != [] && Segment(d, st, joint, longer) && IsCut(d, st, mc[|mc| - 1], l, longer[|longer| - 1])
  {
    assert WellFormed(d) && BpOk(d, st) && mc != [];
    hide StaticOk; hide Segment; hide WellFormed; hide BpOk;
    SegmentLast(d, st, joint, mc);
    longer := mc;
    var last := mc[|mc| - 1];
    BpSelf(d, st, last);
    while st[last].level > l
      invariant last in st && Segment(d, st, joint, longer) && longer != [] && last == longer[|longer| - 1]
      invariant BpLe(d, st, last, mc[|mc| - 1])
      invariant forall x :: BpLe(d, st, x, mc[|mc| - 1]) && x in st && st[x].level <= l ==> BpLe(d, st, x, last)
      decreases Rank(d, last)
    {
      BpStep(d, st, last);
      BpLeTransitive(d, st, st[last].bp.value, last, mc[|mc| - 1]);
      SegmentGrows(d, st, joint, longer, st[last].bp.value);
      last := st[last].bp.value;
      longer := longer + [last];
    }
  }

  lemma BpSelf(d: Dag, st: Statics, u: Hash)
    requires StaticOk(d, st) && u in st
    ensures BpLe(d, st, u, u)
  {
  }

  /**
   * update_mc_to_intersect: `alt` walks down its chain until it is on the joint's, which is
   * extended as far as needed.
   */
  method UpdateMcToIntersect(d: Dag, st: Statics, joint: Hash, mc: seq<Hash>, visited: set<Hash>, alt: Hash)
    returns (longer: seq<Hash>, seen: set<Hash>)
    requires StaticOk(d, st) && Segment(d, st, joint, mc) && alt in st && st[alt].level > 0
    ensures CutDown(d, st, joint, mc, visited, alt, longer, seen)
  {
    hide *;
    longer, seen := mc, visited;
    var a := alt;
    ghost var floor := Floor(d, st, joint, alt);
    ghost var l := WayStart(d, st, joint, mc, visited, alt);
    while st[a].level > 0
      invariant a in st && longer != [] && mc != [] && visited <= seen && WellFormed(d)
      invariant OnTheWay(d, st, joint, mc[|mc| - 1], l, floor, a, longer) && (st[a].level <= 0 ==> l == floor)
      invariant SameFloor(d, st, joint, seen - visited, floor)
      decreases Rank(d, a)
    {
      ghost var before := longer;
      WaySegment(d, st, joint, mc[|mc| - 1], l, floor, a, longer);
      var met: bool;
      longer, met := ExtendTo(d, st, joint, longer, a);
      l := WayNext(d, st, joint, mc[|mc| - 1], l, floor, a, before, longer, met);
      if met { break; }
      a := st[a].bp.value;
      SeenMore(d, st, joint, seen, visited, a, floor);
      seen := seen + {a};
    }
    WaySegment(d, st, joint, mc[|mc| - 1], l, floor, a, longer);
    CutIsDown(d, st, joint, mc, visited, alt, longer, seen);
  }

  /** The walk is at `a`: the segment has been cut at `l`, at or above the floor, which it has reached at level 0. */
  ghost predicate OnTheWay(d: Dag, st: Statics, joint: Hash, last: Hash, l: int, floor: int, a: Hash, longer: seq<Hash>)
    requires StaticOk(d, st)
  {
    && a in st && longer != [] && Segment(d, st, joint, longer)
    && floor <= l && IsCut(d, st, last, l, longer[|longer| - 1])
    && (st[a].level > 0 ==> Floor(d, st, joint, a) == floor)
    && (st[a].level <= 0 ==> l == floor)
  }

  lemma WayStart(d: Dag, st: Statics, joint: Hash, mc: seq<Hash>, visited: set<Hash>, alt: Hash) returns (l: int)
    requires StaticOk(d, st) && Segment(d, st, joint, mc) && alt in st && st[alt].level > 0
    ensures WellFormed(d) && mc != []
    ensures OnTheWay(d, st, joint, mc[|mc| - 1], l, Floor(d, st, joint, alt), alt, mc)
    ensures SameFloor(d, st, joint, visited - visited, Floor(d, st, joint, alt))
  {
    SegmentLast(d, st, joint, mc);
    var last := mc[|mc| - 1];
    FloorStep(d, st, joint, alt);
    l := if st[last].level > st[alt].level then st[last].level else st[alt].level;
    CutHere(d, st, last, l);
  }

  lemma WaySegment(d: Dag, st: Statics, joint: Hash, last: Hash, l: int, floor: int, a: Hash, longer: seq<Hash>)
    requires StaticOk(d, st) && OnTheWay(d, st, joint, last, l, floor, a, longer)
    ensures longer != [] && Segment(d, st, joint, longer) && a in st
    ensures st[a].level > 0 ==> Floor(d, st, joint, a) == floor
    ensures st[a].level <= 0 ==> l == floor
    ensures IsCut(d, st, last, l, longer[|longer| - 1])
  {
    hide StaticOk; hide Segment; hide IsCut; hide Floor;
  }

  lemma WayNext(d: Dag, st: Statics, joint: Hash, last: Hash, l: int, floor: int, a: Hash, longer: seq<Hash>,
      next: seq<Hash>, met: bool) returns (l': int)
    requires StaticOk(d, st) && OnTheWay(d, st, joint, last, l, floor, a, longer) && a in st && st[a].level > 0
    requires longer != [] && next != [] && Segment(d, st, joint, next)
    requires IsCut(d, st, longer[|longer| - 1], st[a].level, next[|next| - 1]) && (met <==> BpLe(d, st, a, joint))
    requires Floor(d, st, joint, a) == floor
    ensures met ==> OnTheWay(d, st, joint, last, l', floor, a, next) && l' == floor
    ensures !met ==> st[a].bp.Some? && var b := st[a].bp.value;
      && b in st && Rank(d, b) < Rank(d, a) && OnTheWay(d, st, joint, last, l', floor, b, next)
      && (st[b].level > 0 ==> Floor(d, st, joint, b) == floor) && (st[b].level <= 0 ==> l' == floor)
  {
    FloorNext(d, st, joint, a);
    hide StaticOk; hide Segment; hide Floor; hide BpLe;
    NextCut(d, st, last, l, longer[|longer| - 1], st[a].level, next[|next| - 1]);
    hide IsCut;
    l' := if st[a].level < l then st[a].level else l;
  }

  /**
   * The segment has been cut at the floor of `alt`, and every unit visited on the way has
   * that floor.
   */
  ghost predicate CutDown(d: Dag, st: Statics, joint: Hash, mc: seq<Hash>, visited: set<Hash>, alt: Hash,
      longer: seq<Hash>, seen: set<Hash>)
    requires StaticOk(d, st) && alt in st
  {
    && mc != [] && longer != [] && Segment(d, st, joint, longer)
    && IsCut(d, st, mc[|mc| - 1], Floor(d, st, joint, alt), longer[|longer| - 1])
    && visited <= seen
    && forall b :: b in seen && b !in visited && b in st && st[b].level > 0 ==>
         Floor(d, st, joint, b) == Floor(d, st, joint, alt)
  }

  lemma CutIsDown(d: Dag, st: Statics, joint: Hash, mc: seq<Hash>, visited: set<Hash>, alt: Hash, longer: seq<Hash>,
      seen: set<Hash>)
    requires StaticOk(d, st) && alt in st && mc != [] && longer != [] && Segment(d, st, joint, longer)
    requires IsCut(d, st, mc[|mc| - 1], Floor(d, st, joint, alt), longer[|longer| - 1]) && visited <= seen
    requires SameFloor(d, st, joint, seen - visited, Floor(d, st, joint, alt))
    ensures CutDown(d, st, joint, mc, visited, alt, longer, seen)
  {
    hide StaticOk; hide Floor; hide Segment; hide IsCut;
  }

  lemma CutDownFacts(d: Dag, st: Statics, joint: Hash, mc: seq<Hash>, visited: set<Hash>, alt: Hash, longer: seq<Hash>,
      seen: set<Hash>)
    requires StaticOk(d, st) && alt in st && CutDown(d, st, joint, mc, visited, alt, longer, seen)
    ensures mc != [] && longer != [] && Segment(d, st, joint, longer)
    ensures IsCut(d, st, mc[|mc| - 1], Floor(d, st, joint, alt), longer[|longer| - 1])
    ensures forall b :: b in seen && b !in visited && b in st && st[b].level > 0 ==>
      Floor(d, st, joint, b) == Floor(d, st, joint, alt)
  {
    hide StaticOk; hide Floor; hide Segment; hide IsCut;
  }

  /** The units of `s` above level 0 all have this floor. */
  ghost predicate SameFloor(d: Dag, st: Statics, joint: Hash, s: set<Hash>, floor: int)
    requires StaticOk(d, st)
  {
    forall b :: b in s && b in st && st[b].level > 0 ==> Floor(d, st, joint, b) == floor
  }

  lemma SeenMore(d: Dag, st: Statics, joint: Hash, seen: set<Hash>, visited: set<Hash>, a: Hash, floor: int)
    requires StaticOk(d, st) && SameFloor(d, st, joint, seen - visited, floor) && a in st
    requires st[a].level > 0 ==> Floor(d, st, joint, a) == floor
    ensures SameFloor(d, st, joint, seen + {a} - visited, floor)
  {
    hide StaticOk; hide Floor;
  }

  /** The floor of a unit off the joint's chain is that of its best parent, as long as that is above level 0. */
  lemma FloorNext(d: Dag, st: Statics, joint: Hash, a: Hash)
    requires StaticOk(d, st) && a in st && st[a].level > 0
    ensures WellFormed(d) && Floor(d, st, joint, a) <= st[a].level
    ensures BpLe(d, st, a, joint) ==> Floor(d, st, joint, a) == st[a].level
    ensures st[a].bp.Some? && st[a].bp.value in st && Rank(d, st[a].bp.value) < Rank(d, a)
    ensures !BpLe(d, st, a, joint) ==>
      Floor(d, st, joint, a) ==
        if st[st[a].bp.value].level <= 0 then st[a].level else Floor(d, st, joint, st[a].bp.value)
  {
    BpStep(d, st, a);
    FloorStep(d, st, joint, a);
  }

  /** Extending the segment to the level of `a`, and looking whether it holds `a`. */
  method ExtendTo(d: Dag, st: Statics, joint: Hash, mc: seq<Hash>, a: Hash) returns (longer: seq<Hash>, met: bool)
    requires StaticOk(d, st) && mc != [] && Segment(d, st, joint, mc) && a in st && st[a].level > 0
    ensures longer != [] && Segment(d, st, joint, longer)
    ensures IsCut(d, st, mc[|mc| - 1], st[a].level, longer[|longer| - 1])
    ensures met <==> BpLe(d, st, a, joint)
  {
    longer := Extend(d, st, joint, mc, st[a].level);
    hide StaticOk; hide Segment; hide BpLe;
    CutLevels(d, st, mc[|mc| - 1], st[a].level, longer[|longer| - 1]);
    hide IsCut;
    SegmentHolds(d, st, joint, longer, a);
    met := a in longer;
  }

  lemma NextCut(d: Dag, st: Statics, u: Hash, l: int, r: Hash, k: int, q: Hash)
    requires StaticOk(d, st) && IsCut(d, st, u, l, r) && IsCut(d, st, r, k, q)
    ensures IsCut(d, st, u, if k < l then k else l, q) && q in st && st[q].level <= k
  {
    if k <= l {
      CutAgain(d, st, u, l, r, k, q);
    } else {
      CutHere(d, st, r, k);
      CutUnique(d, st, r, k, r, q);
    }
  }

  // ---------------------------------------------------------------- calc_max_stable_unit

  lemma MaxStart(d: Dag, st: Statics, joint: Hash)
    requires StaticOk(d, st) && joint in st
    ensures Segment(d, st, joint, [joint]) && IsMaxStable(d, st, joint, {}, joint)
  {
    forall x ensures x in [joint] <==> BpLe(d, st, x, joint) && BpLe(d, st, joint, x) {
      if BpLe(d, st, x, joint) && BpLe(d, st, joint, x) { BpAntisymmetric(d, st, x, joint); }
    }
  }

  /** One more alternative: the unit moves down to its floor. */
  lemma MaxStep(d: Dag, st: Statics, joint: Hash, alts: set<Hash>, r: Hash, a: Hash, q: Hash)
    requires StaticOk(d, st) && a in st && IsMaxStable(d, st, joint, alts, r)
    requires IsCut(d, st, r, Floor(d, st, joint, a), q)
    ensures IsMaxStable(d, st, joint, alts + {a}, q)
  {
    BpLeTransitive(d, st, q, r, joint);
    BpLevel(d, st, q, r);
  }

  /** An alternative met on the way of an earlier one may be skipped. */
  lemma MaxSkip(d: Dag, st: Statics, joint: Hash, alts: set<Hash>, r: Hash, a: Hash)
    requires StaticOk(d, st) && a in st && IsMaxStable(d, st, joint, alts, r) && st[r].level <= Floor(d, st, joint, a)
    ensures IsMaxStable(d, st, joint, alts + {a}, r)
  {
  }

  /** The guard of the walk to the min witnessed level is never met at the joint itself. */
  lemma MinWlBelowLevel(d: Dag, st: Statics, u: Hash)
    requires StaticOk(d, st) && u in st
    ensures st[u].minWl <= st[u].level
  {
    WitnessedLevelMonotone(d, st, u);
    if st[u].bp.Some? {
      MinWitnessedLevelMonotone(d, st, u);
    } else {
      assert EntryOk(d, st, u);
    }
  }

  /** build_unstable_main_chain_from_joint_to_min_wl, with its guard as it stands. */
  method BuildToMinWl(d: Dag, st: Statics, joint: Hash, minWl: int) returns (mc: seq<Hash>)
    requires StaticOk(d, st) && joint in st
    ensures Segment(d, st, joint, mc)
    ensures minWl <= st[joint].level ==> mc == [joint]
  {
    mc := [];
    var at := joint;
    MaxStart(d, st, joint);
    hide Segment;
    while st[at].level < minWl && st[at].bp.Some?
      invariant at in st && Segment(d, st, joint, mc + [at])
      invariant minWl <= st[joint].level ==> mc == [] && at == joint
      decreases Rank(d, at)
    {
      BpStep(d, st, at);
      SegmentGrows(d, st, joint, mc + [at], st[at].bp.value);
      mc := mc + [at];
      at := st[at].bp.value;
    }
    mc := mc + [at];
  }

  /** The alternatives of a joint. */
  ghost predicate AltOf(d: Dag, st: Statics, joint: Hash, b: Hash)
    requires StaticOk(d, st) && joint in st
  {
    IsAlternative(d, st, joint, [joint], st[joint].minWl, b)
  }

  ghost function Alternatives(d: Dag, st: Statics, joint: Hash): set<Hash>
    requires StaticOk(d, st) && joint in st
  {
    set b | b in st && AltOf(d, st, joint, b)
  }

  lemma AltLevel(d: Dag, st: Statics, joint: Hash, b: Hash)
    requires StaticOk(d, st) && joint in st && AltOf(d, st, joint, b)
    ensures b in st && st[b].level > 0
  {
    var w :| Contributes(d, st, joint, [joint], st[joint].minWl, w) && Candidate(d, st, [joint], st[joint].minWl, w, b);
  }

  lemma AlternativesAre(d: Dag, st: Statics, joint: Hash, alts: seq<Hash>)
    requires StaticOk(d, st) && joint in st && forall b :: b in alts <==> AltOf(d, st, joint, b)
    ensures (set b | b in alts) == Alternatives(d, st, joint)
    ensures forall i :: 0 <= i < |alts| ==> alts[i] in st && st[alts[i]].level > 0
  {
    forall b | AltOf(d, st, joint, b) ensures b in st && st[b].level > 0 { AltLevel(d, st, joint, b); }
    hide AltOf;
    assert forall i :: 0 <= i < |alts| ==> alts[i] in alts;
  }

  /** The visited units would not move `r` any further. */
  ghost predicate VisitedOk(d: Dag, st: Statics, joint: Hash, visited: set<Hash>, r: Hash)
    requires StaticOk(d, st)
  {
    r in st && forall b :: b in visited && b in st && st[b].level > 0 ==> st[r].level <= Floor(d, st, joint, b)
  }

  lemma CutLevels(d: Dag, st: Statics, u: Hash, l: int, r: Hash)
    requires StaticOk(d, st) && IsCut(d, st, u, l, r)
    ensures r in st && u in st && st[r].level <= l && st[r].level <= st[u].level
  {
    BpLevel(d, st, r, u);
  }

  lemma VisitedStep(d: Dag, st: Statics, joint: Hash, visited: set<Hash>, r: Hash, a: Hash, q: Hash, seen: set<Hash>)
    requires StaticOk(d, st) && VisitedOk(d, st, joint, visited, r) && a in st
    requires IsCut(d, st, r, Floor(d, st, joint, a), q)
    requires forall b :: b in seen && b !in visited + {a} && b in st && st[b].level > 0 ==>
      Floor(d, st, joint, b) == Floor(d, st, joint, a)
    ensures VisitedOk(d, st, joint, seen, q)
  {
    hide StaticOk; hide Floor; hide IsCut; hide BpLe; hide BpOk;
    CutLevels(d, st, r, Floor(d, st, joint, a), q);
  }

  /**
   * calc_max_stable_unit: the highest unit of the joint's own best-parent chain that no
   * alternative witness pushes down further, in whatever order they come and although those
   * met on the way of earlier ones are skipped.
   */
  method CalcMaxStableUnit(d: Dag, st: Statics, joint: Hash) returns (r: Hash)
    requires StaticOk(d, st) && joint in st
    ensures IsMaxStable(d, st, joint, Alternatives(d, st, joint), r)
  {
    hide *;
    MinWlBelowLevel(d, st, joint);
    var mc := BuildToMinWl(d, st, joint, st[joint].minWl);
    MaxStart(d, st, joint);
    var alts := GetAllAltWitnessUnits(d, st, joint, mc, st[joint].minWl);
    AltsFound(d, st, joint, alts);
    var visited: set<Hash> := {};
    StartVisited(d, st, joint);
    for i := 0 to |alts|
      invariant mc != [] && Segment(d, st, joint, mc)
      invariant IsMaxStable(d, st, joint, Elements(alts[..i]), mc[|mc| - 1])
      invariant VisitedOk(d, st, joint, visited, mc[|mc| - 1])
    {
      ghost var last := mc[|mc| - 1];
      ElementsStep(alts, i);
      if alts[i] !in visited {
        ghost var was := visited;
        ghost var before := mc;
        mc, visited := UpdateMcToIntersect(d, st, joint, mc, visited + {alts[i]}, alts[i]);
        CutDownFacts(d, st, joint, before, was + {alts[i]}, alts[i], mc, visited);
        MaxStep(d, st, joint, Elements(alts[..i]), last, alts[i], mc[|mc| - 1]);
        VisitedStep(d, st, joint, was, last, alts[i], mc[|mc| - 1], visited);
      } else {
        SkipVisited(d, st, joint, Elements(alts[..i]), visited, last, alts[i]);
      }
    }
    assert alts[..|alts|] == alts;
    r := mc[|mc| - 1];
  }

  lemma ElementsStep(s: seq<Hash>, i: nat)
    requires i < |s|
    ensures Elements(s[..i + 1]) == Elements(s[..i]) + {s[i]}
  {
  }

  lemma AltsFound(d: Dag, st: Statics, joint: Hash, alts: seq<Hash>)
    requires StaticOk(d, st) && joint in st
    requires forall b :: b in alts <==> IsAlternative(d, st, joint, [joint], st[joint].minWl, b)
    ensures Elements(alts) == Alternatives(d, st, joint) && Elements(alts[..0]) == {}
    ensures forall i :: 0 <= i < |alts| ==> alts[i] in st && st[alts[i]].level > 0
  {
    hide IsAlternative;
    assert forall b :: b in alts <==> AltOf(d, st, joint, b);
    AlternativesAre(d, st, joint, alts);
  }

  lemma StartVisited(d: Dag, st: Statics, joint: Hash)
    requires StaticOk(d, st) && joint in st
    ensures VisitedOk(d, st, joint, {}, joint)
  {
  }

  lemma SkipVisited(d: Dag, st: Statics, joint: Hash, alts: set<Hash>, visited: set<Hash>, r: Hash, a: Hash)
    requires StaticOk(d, st) && a in visited && a in st && st[a].level > 0
    requires IsMaxStable(d, st, joint, alts, r) && VisitedOk(d, st, joint, visited, r)
    ensures IsMaxStable(d, st, joint, alts + {a}, r)
  {
    MaxSkip(d, st, joint, alts, r, a);
  }

  /** A joint that includes no contributing unit with a candidate below it is its own max stable unit. */
  lemma AloneIsMaxStable(d: Dag, st: Statics, joint: Hash, r: Hash)
    requires StaticOk(d, st) && joint in st && IsMaxStable(d, st, joint, Alternatives(d, st, joint), r)
    requires forall w, b :: Contributes(d, st, joint, [joint], st[joint].minWl, w) ==>
      !Candidate(d, st, [joint], st[joint].minWl, w, b)
    ensures r == joint
  {
    MaxStart(d, st, joint);
    assert Alternatives(d, st, joint) == {};
    MaxStableUnique(d, st, joint, {}, r, joint);
  }
}
