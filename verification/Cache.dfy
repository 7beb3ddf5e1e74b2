/**
 * The joint cache as a state machine: new joints wait for missing parents, become normal
 * when validated, or are purged as bad (src/cache/cache_impl.rs, src/cache/mod.rs).
 */
module Cache {
  import opened Collections
  import opened Dag

  /**
   * `resolved`, `count`, `refs` and `children` are the parents, valid_parent_num,
   * unhandled_refs and children of a joint's data. Three fields only record the past: `fired`
   * counts how often a joint's present data has been triggered for validation, `orphans` are
   * the joints that were written to the cache although a parent was known bad by then, and
   * `late` are the joints told of a parent when they were known bad themselves.
   */
  datatype State = State(
    normal: set<Hash>,
    free: set<Hash>,
    unhandled: set<Hash>,
    bad: set<Hash>,
    missing: map<Hash, seq<Hash>>,
    resolved: map<Hash, seq<Hash>>,
    count: map<Hash, nat>,
    refs: map<Hash, nat>,
    children: map<Hash, set<Hash>>,
    fired: map<Hash, nat>,
    orphans: set<Hash>,
    late: set<(Hash, Hash)>)

  const EMPTY: State := State({}, {}, {}, {}, map[], map[], map[], map[], map[], map[], {}, {})

  /** Parent lists are closed, acyclic and without repetition. */
  ghost predicate UnitsOk(d: Dag)
  {
    && WellFormed(d)
    && forall u, i, j :: u in d.units && 0 <= i < j < |d.units[u].parents| ==>
         d.units[u].parents[i] != d.units[u].parents[j]
  }

  function Waiting(s: State, p: Hash): seq<Hash>
  {
    if p in s.missing then s.missing[p] else []
  }

  /** The unhandled joints holding `p` as a resolved parent. */
  ghost function Holders(s: State, p: Hash): set<Hash>
  {
    set c | c in s.unhandled && c in s.resolved && p in s.resolved[c]
  }

  /** The bad joints that were told of `p` when they were bad already. */
  ghost function Late(s: State, p: Hash): set<Hash>
  {
    set c | c in s.bad && (c, p) in s.late
  }

  // ---------------------------------------------------------------- the invariant

  ghost predicate Disjoint(s: State)
  {
    s.normal !! s.unhandled && s.normal !! s.bad && s.unhandled !! s.bad
  }

  /** Every joint waiting somewhere and every cached joint has its data. */
  ghost predicate HasData(d: Dag, s: State, c: Hash)
  {
    c in d.units && c in s.resolved && c in s.count && c in s.refs && c in s.children && c in s.fired
  }

  ghost predicate DataOk(d: Dag, s: State)
  {
    && (forall c :: c in s.normal || c in s.unhandled ==> HasData(d, s, c))
    && (forall p, c :: c in Waiting(s, p) ==> HasData(d, s, c))
  }

  /** A resolved parent is a parent, listed once, and normal while the joint is cached. */
  ghost predicate ResolvedOk(d: Dag, s: State)
  {
    && (forall c, i, j :: c in s.resolved && 0 <= i < j < |s.resolved[c]| ==> s.resolved[c][i] != s.resolved[c][j])
    && (forall c, p {:trigger p in s.resolved[c]} :: c in s.resolved && p in s.resolved[c] ==>
         && c in d.units && p in d.units[c].parents
         && (c in s.unhandled || c in s.normal ==> p in s.normal))
    && (forall c, p {:trigger Lacks(d, s, c, p)} :: c in s.normal ==> !Lacks(d, s, c, p))
  }

  /** `p` is a parent of `c` that has not been resolved. */
  ghost predicate Lacks(d: Dag, s: State, c: Hash, p: Hash)
  {
    c in d.units && c in s.resolved && p in d.units[c].parents && p !in s.resolved[c]
  }

  /** An unhandled joint waits under each parent it lacks, except for pairs being worked on. */
  ghost predicate Enlisted(d: Dag, s: State, exempt: iset<(Hash, Hash)>)
  {
    forall c: Hash, p: Hash {:trigger Lacks(d, s, c, p)} ::
      c in s.unhandled && Lacks(d, s, c, p) && (c, p) !in exempt ==> c in Waiting(s, p)
  }

  /** Whoever waits for `p` lacks it, and `p` is not normal. */
  ghost predicate WaitersOk(d: Dag, s: State)
  {
    forall p, c {:trigger c in Waiting(s, p)} :: c in Waiting(s, p) ==>
      p !in s.normal && (c in s.unhandled || c in s.bad) && Lacks(d, s, c, p)
  }

  ghost predicate ListedOnce(s: State)
  {
    forall p, i, j :: p in s.missing && 0 <= i < j < |s.missing[p]| ==> s.missing[p][i] != s.missing[p][j]
  }

  ghost predicate WaitsOk(d: Dag, s: State, exempt: iset<(Hash, Hash)>)
  {
    Enlisted(d, s, exempt) && WaitersOk(d, s) && ListedOnce(s)
  }

  /** A joint all of whose parents are resolved, or one that lacks a parent known to be bad. */
  ghost predicate Complete(d: Dag, s: State, c: Hash)
  {
    c in d.units && c in s.resolved && forall p :: p in d.units[c].parents ==> p in s.resolved[c]
  }

  ghost predicate Doomed(d: Dag, s: State, c: Hash)
  {
    exists p :: p in s.bad && Lacks(d, s, c, p)
  }

  predicate BadParent(d: Dag, s: State, c: Hash)
  {
    c in d.units && exists p :: p in d.units[c].parents && p in s.bad
  }

  /**
   * Leaving aside those being purged, an unhandled joint has a known-bad parent exactly when
   * it was written under one; a bad joint still waiting is doomed.
   */
  ghost predicate BadOk(d: Dag, s: State, purging: set<Hash>)
  {
    && (forall c {:trigger BadParent(d, s, c)} :: c in s.unhandled && c !in purging ==>
         (BadParent(d, s, c) <==> c in s.orphans))
    && (forall p, c :: c in Waiting(s, p) && c in s.bad ==> Doomed(d, s, c))
  }

  /** Child lists mirror parent lists, and free joints are the normal joints without children. */
  ghost predicate ChildrenOk(d: Dag, s: State)
  {
    && (forall p, c :: p in s.normal && p in s.children ==>
         (c in s.children[p] <==> c in s.normal && c in d.units && p in d.units[c].parents))
    && (forall p :: p in s.free <==> p in s.normal && p in s.children && s.children[p] == {})
    && (forall c :: c in s.unhandled && c in s.children ==> s.children[c] == {})
  }

  /**
   * A parent's unhandled references are the unhandled joints holding it, and the bad joints
   * that were told of it too late.
   */
  ghost predicate RefsOk(s: State)
  {
    && (forall p :: p in s.normal && p in s.refs ==> s.refs[p] == |Holders(s, p)| + |Late(s, p)|)
    && (forall p :: p in s.unhandled && p in s.refs ==> s.refs[p] == 0)
    && LateOk(s)
  }

  ghost predicate LateOk(s: State)
  {
    forall c: Hash, p: Hash {:trigger (c, p) in s.late} :: (c, p) in s.late ==>
      p in s.normal && c in s.bad && c in s.resolved && p in s.resolved[c]
  }

  /**
   * A joint with parents is triggered at most once, when all its parents are resolved; it
   * is complete and not yet triggered only while whoever added it has still to look.
   */
  ghost predicate FiredOk(d: Dag, s: State, unpolled: set<Hash>)
  {
    && (forall c :: c in s.fired && c in s.count && c in s.resolved && c in d.units && d.units[c].parents != [] ==>
         || (s.fired[c] == 0 && s.count[c] == |s.resolved[c]|)
         || (s.fired[c] == 1 && s.count[c] == 0 && |s.resolved[c]| == |d.units[c].parents|))
    && (forall c :: c in s.unhandled && c in s.fired && c in d.units && d.units[c].parents != [] &&
                    Complete(d, s, c) && c !in unpolled ==>
         s.fired[c] == 1)
    && (forall c :: c in s.fired && s.fired[c] > 0 && (c in s.unhandled || c in s.normal) ==> Complete(d, s, c))
  }

  ghost predicate InvWhile(d: Dag, s: State, exempt: iset<(Hash, Hash)>, purging: set<Hash>, unpolled: set<Hash>)
  {
    && UnitsOk(d)
    && Disjoint(s) && DataOk(d, s) && ResolvedOk(d, s) && WaitsOk(d, s, exempt) && BadOk(d, s, purging)
    && ChildrenOk(d, s) && RefsOk(s) && FiredOk(d, s, unpolled)
  }

  /** What holds between steps; `unpolled` are the joints whose adder has still to look whether they are ready. */
  ghost predicate Inv(d: Dag, s: State, unpolled: set<Hash>)
  {
    InvWhile(d, s, iset{}, {}, unpolled)
  }

  // ---------------------------------------------------------------- steps

  function Keep(s: seq<Hash>, keep: set<Hash>): (r: seq<Hash>)
    ensures forall x :: x in r <==> x in s && x in keep
    ensures (forall i, j :: 0 <= i < j < |s| ==> s[i] != s[j]) ==> forall i, j :: 0 <= i < j < |r| ==> r[i] != r[j]
    ensures |r| <= |s|
  {
    if s == [] then []
    else
      var r := Keep(s[..|s| - 1], keep);
      if s[|s| - 1] in keep then r + [s[|s| - 1]] else r
  }

  /** `refs` after one more reference to each of `ps`. */
  function Raised(refs: map<Hash, nat>, ps: seq<Hash>): map<Hash, nat>
  {
    map p | p in refs :: refs[p] + if p in ps then 1 else 0
  }

  /** The write section of add_new_joint, for a joint not cached as unhandled. */
  function Insert(d: Dag, s: State, u: Hash): State
    requires u in d.units
  {
    var ps := d.units[u].parents;
    var valid := Keep(ps, s.normal);
    s.(unhandled := s.unhandled + {u},
       resolved := s.resolved[u := valid],
       count := s.count[u := |valid|],
       refs := Raised(s.refs, valid)[u := 0],
       children := s.children[u := {}],
       fired := s.fired[u := 0],
       orphans := if BadParent(d, s, u) then s.orphans + {u} else s.orphans - {u},
       missing := map p | p in s.missing.Keys + (set q | q in ps && q !in s.normal) ::
         Waiting(s, p) + if p in ps && p !in s.normal then [u] else [])
  }

  /** is_ready: true once, when the number of valid parents reaches the number of parents. */
  function Poll(d: Dag, s: State, u: Hash): State
    requires u in d.units && u in s.count && u in s.fired
  {
    if s.count[u] == |d.units[u].parents| then
      s.(count := s.count[u := 0], fired := s.fired[u := s.fired[u] + 1])
    else s
  }

  /** add_parent: the waiting joint `c` gets its parent `u`, before it looks whether it is ready. */
  function Tell(s: State, u: Hash, c: Hash): State
    requires c in s.resolved && c in s.count && u in s.refs
  {
    s.(refs := s.refs[u := s.refs[u] + 1],
       resolved := s.resolved[c := s.resolved[c] + [u]],
       count := s.count[c := s.count[c] + 1],
       late := if c in s.bad then s.late + {(c, u)} else s.late)
  }

  /** Resolving parent `u` for the waiting joint `c`, and triggering `c` if that was the last one. */
  function Resolve(d: Dag, s: State, u: Hash, c: Hash): State
    requires c in d.units && c in s.resolved && c in s.count && c in s.fired && u in s.refs
  {
    Poll(d, Tell(s, u, c), c)
  }

  /** Moving `u` to the normal joints: its missing-parent entry goes, and it becomes its parents' child. */
  function Promote(d: Dag, s: State, u: Hash): State
    requires u in s.resolved
  {
    var ps := s.resolved[u];
    s.(unhandled := s.unhandled - {u},
       normal := s.normal + {u},
       missing := s.missing - {u},
       free := s.free - (set p | p in ps) + {u},
       children := map p | p in s.children :: if p in ps then s.children[p] + {u} else s.children[p],
       refs := map p | p in s.refs :: if p in ps && s.refs[p] > 0 then s.refs[p] - 1 else s.refs[p])
  }

  /** An unhandled joint that goes gives back its references. */
  function Released(s: State, u: Hash): map<Hash, nat>
  {
    if u in s.unhandled && u in s.resolved then
      map p | p in s.refs :: if p in s.resolved[u] && s.refs[p] > 0 then s.refs[p] - 1 else s.refs[p]
    else s.refs
  }

  /** One round of purge_bad_joint. */
  function PurgeOne(s: State, u: Hash): State
  {
    s.(unhandled := s.unhandled - {u}, bad := s.bad + {u}, missing := s.missing - {u}, refs := Released(s, u))
  }

  /** purge_free_joint. */
  function PurgeFree(s: State, v: Hash): State
    requires v in s.resolved
  {
    var ps := s.resolved[v];
    var children := map p | p in s.children :: if p in ps then s.children[p] - {v} else s.children[p];
    s.(normal := s.normal - {v},
       free := s.free - {v} + (set p | p in ps && p in children && children[p] == {}),
       children := children)
  }

  // ---------------------------------------------------------------- counting

  /** A list without repetition of members of another is complete exactly when it is as long. */
  lemma CompleteBySize(r: seq<Hash>, ps: seq<Hash>)
    requires forall i, j :: 0 <= i < j < |r| ==> r[i] != r[j]
    requires forall i, j :: 0 <= i < j < |ps| ==> ps[i] != ps[j]
    requires forall x :: x in r ==> x in ps
    ensures |r| <= |ps| && (|r| == |ps| <==> forall x :: x in ps ==> x in r)
  {
    DistinctSize(r);
    DistinctSize(ps);
    SubsetSize(Elements(r), Elements(ps));
    if forall x :: x in ps ==> x in r { assert Elements(r) == Elements(ps); }
    if |r| == |ps| { forall x | x in ps ensures x in r { assert x in Elements(ps); } }
  }

  lemma ResolvedSize(d: Dag, s: State, c: Hash)
    requires UnitsOk(d) && ResolvedOk(d, s) && c in d.units && c in s.resolved
    ensures |s.resolved[c]| <= |d.units[c].parents|
    ensures |s.resolved[c]| == |d.units[c].parents| <==> Complete(d, s, c)
  {
    assert forall p :: p in s.resolved[c] ==> p in d.units[c].parents;
    CompleteBySize(s.resolved[c], d.units[c].parents);
  }

  // ---------------------------------------------------------------- adding a joint

  ghost predicate IsNew(d: Dag, s: State, u: Hash)
  {
    u in d.units && u !in s.normal && u !in s.unhandled && u !in s.bad
  }

  lemma InsertShape(d: Dag, s: State, u: Hash)
    requires u in d.units
    ensures var s' := Insert(d, s, u);
      && s'.normal == s.normal && s'.free == s.free && s'.bad == s.bad && s'.unhandled == s.unhandled + {u}
      && s'.children == s.children[u := {}] && s'.fired == s.fired[u := 0] && s'.refs.Keys == s.refs.Keys + {u}
      && u in s'.resolved && s'.count == s.count[u := |s'.resolved[u]|]
      && s'.resolved.Keys == s.resolved.Keys + {u}
      && s'.orphans == (if BadParent(d, s, u) then s.orphans + {u} else s.orphans - {u}) && s'.late == s.late
      && (forall c {:trigger BadParent(d, s', c)} :: BadParent(d, s', c) == BadParent(d, s, c))
    ensures var s' := Insert(d, s, u);
      (forall i, j :: 0 <= i < j < |d.units[u].parents| ==> d.units[u].parents[i] != d.units[u].parents[j]) ==>
        (forall i, j :: 0 <= i < j < |s'.resolved[u]| ==> s'.resolved[u][i] != s'.resolved[u][j])
    ensures var s' := Insert(d, s, u);
      && (forall p {:trigger Waiting(s', p)} ::
           Waiting(s', p) == Waiting(s, p) + if p in d.units[u].parents && p !in s.normal then [u] else [])
      && (forall c {:trigger c in s'.resolved} :: c != u ==>
           (c in s'.resolved <==> c in s.resolved) && (c in s.resolved ==> s'.resolved[c] == s.resolved[c]))
      && u in s'.resolved && (forall p :: p in s'.resolved[u] <==> p in d.units[u].parents && p in s.normal)
      && (forall c, p {:trigger Lacks(d, s', c, p)} :: c != u ==> (Lacks(d, s', c, p) <==> Lacks(d, s, c, p)))
      && (forall p {:trigger Lacks(d, s', u, p)} :: Lacks(d, s', u, p) <==> p in d.units[u].parents && p !in s.normal)
  {
  }

  lemma InsertWaiting(d: Dag, s: State, u: Hash, p: Hash, c: Hash)
    requires Disjoint(s) && WaitsOk(d, s, iset{}) && BadOk(d, s, {}) && DataOk(d, s) && IsNew(d, s, u)
    requires c in Waiting(Insert(d, s, u), p)
    ensures var s' := Insert(d, s, u);
      && p !in s'.normal && (c in s'.unhandled || c in s'.bad) && Lacks(d, s', c, p) && HasData(d, s', c)
      && (c in s'.bad ==> Doomed(d, s', c))
  {
    var s' := Insert(d, s, u);
    InsertShape(d, s, u);
    if c in Waiting(s, p) {
      assert c != u && Lacks(d, s, c, p) && HasData(d, s, c);
      if c in s.bad {
        assert Doomed(d, s, c);
        var q :| q in s.bad && Lacks(d, s, c, q);
        assert Lacks(d, s', c, q);
      }
    }
  }

  lemma InsertEnlists(d: Dag, s: State, u: Hash)
    requires Enlisted(d, s, iset{}) && IsNew(d, s, u)
    ensures Enlisted(d, Insert(d, s, u), iset{})
  {
    hide Insert; hide Lacks; hide Waiting;
    var s' := Insert(d, s, u);
    InsertShape(d, s, u);
    forall c: Hash, p: Hash | c in s'.unhandled && Lacks(d, s', c, p) ensures c in Waiting(s', p) {
      if c != u { assert Lacks(d, s, c, p); }
    }
  }

  lemma InsertWaits(d: Dag, s: State, u: Hash)
    requires Disjoint(s) && WaitsOk(d, s, iset{}) && BadOk(d, s, {}) && DataOk(d, s) && IsNew(d, s, u)
    ensures WaitsOk(d, Insert(d, s, u), iset{})
  {
    assert u in d.units;
    hide Insert; hide Doomed; hide Lacks; hide HasData; hide BadOk; hide DataOk; hide IsNew; hide Disjoint;
    hide Enlisted; hide Waiting;
    var s' := Insert(d, s, u);
    InsertEnlists(d, s, u);
    forall p, c | c in Waiting(s', p)
      ensures p !in s'.normal && (c in s'.unhandled || c in s'.bad) && Lacks(d, s', c, p)
    {
      InsertWaiting(d, s, u, p, c);
    }
    forall p, i, j | p in s'.missing && 0 <= i < j < |s'.missing[p]| ensures s'.missing[p][i] != s'.missing[p][j] {
      InsertDistinct(d, s, u, p, i, j);
    }
  }

  lemma InsertDistinct(d: Dag, s: State, u: Hash, p: Hash, i: nat, j: nat)
    requires WaitsOk(d, s, iset{}) && IsNew(d, s, u)
    requires p in Insert(d, s, u).missing && i < j < |Insert(d, s, u).missing[p]|
    ensures Insert(d, s, u).missing[p][i] != Insert(d, s, u).missing[p][j]
  {
    assert forall c :: c in Waiting(s, p) ==> c != u;
    var s' := Insert(d, s, u);
    InsertShape(d, s, u);
    hide Insert; hide Lacks;
    assert s'.missing[p] == Waiting(s', p);
    assert u !in Waiting(s, p);
    if j < |Waiting(s, p)| { assert s.missing[p][i] != s.missing[p][j]; }
  }

  lemma InsertBad(d: Dag, s: State, u: Hash)
    requires Disjoint(s) && WaitsOk(d, s, iset{}) && BadOk(d, s, {}) && DataOk(d, s) && IsNew(d, s, u)
    ensures BadOk(d, Insert(d, s, u), {}) && DataOk(d, Insert(d, s, u)) && Disjoint(Insert(d, s, u))
  {
    assert u in d.units;
    hide Insert; hide Doomed; hide WaitsOk; hide Waiting; hide BadParent; hide HasData;
    var s' := Insert(d, s, u);
    InsertData(d, s, u);
    forall p, c | c in Waiting(s', p) ensures HasData(d, s', c) && (c in s'.bad ==> Doomed(d, s', c)) {
      InsertWaiting(d, s, u, p, c);
    }
  }

  lemma InsertData(d: Dag, s: State, u: Hash)
    requires Disjoint(s) && BadOk(d, s, {}) && DataOk(d, s) && IsNew(d, s, u)
    ensures var s' := Insert(d, s, u);
      && Disjoint(s')
      && (forall c :: c in s'.normal || c in s'.unhandled ==> HasData(d, s', c))
      && (forall c {:trigger BadParent(d, s', c)} :: c in s'.unhandled ==> (BadParent(d, s', c) <==> c in s'.orphans))
  {
    hide Insert; hide Doomed; hide BadParent; hide HasData;
    InsertSets(d, s, u);
    InsertHasData(d, s, u);
  }

  lemma InsertSets(d: Dag, s: State, u: Hash)
    requires u in d.units
    ensures var s' := Insert(d, s, u);
      && s'.normal == s.normal && s'.bad == s.bad && s'.unhandled == s.unhandled + {u}
      && s'.orphans == (if BadParent(d, s, u) then s.orphans + {u} else s.orphans - {u})
      && (forall c {:trigger BadParent(d, s', c)} :: BadParent(d, s', c) == BadParent(d, s, c))
  {
    hide Waiting; hide Keep;
  }

  lemma InsertHasData(d: Dag, s: State, u: Hash)
    requires u in d.units
    ensures forall c {:trigger HasData(d, Insert(d, s, u), c)} ::
      HasData(d, s, c) || c == u ==> HasData(d, Insert(d, s, u), c)
  {
    hide Waiting; hide Keep; hide BadParent;
  }

  lemma InsertResolved(d: Dag, s: State, u: Hash)
    requires UnitsOk(d) && ResolvedOk(d, s) && IsNew(d, s, u)
    ensures ResolvedOk(d, Insert(d, s, u))
  {
    hide Insert; hide Lacks;
    var s' := Insert(d, s, u);
    InsertShape(d, s, u);
  }

  lemma InsertChildren(d: Dag, s: State, u: Hash)
    requires ChildrenOk(d, s) && IsNew(d, s, u)
    ensures ChildrenOk(d, Insert(d, s, u))
  {
    hide Insert; hide Lacks;
    InsertShape(d, s, u);
  }

  lemma InsertFired(d: Dag, s: State, u: Hash, unpolled: set<Hash>)
    requires u in d.units && u !in s.normal && u !in s.unhandled && FiredOk(d, s, unpolled)
    ensures FiredOk(d, Insert(d, s, u), unpolled + {u})
  {
    hide Insert; hide Lacks;
    var s' := Insert(d, s, u);
    InsertShape(d, s, u);
    assert forall c :: c != u ==> (Complete(d, s', c) <==> Complete(d, s, c));
  }

  lemma InsertHolders(d: Dag, s: State, u: Hash, p: Hash)
    requires u in d.units && u !in s.unhandled
    ensures |Holders(Insert(d, s, u), p)| == |Holders(s, p)| + if p in Keep(d.units[u].parents, s.normal) then 1 else 0
  {
    hide Keep; hide Waiting; hide BadParent; hide Raised;
    var s' := Insert(d, s, u);
    if p in s'.resolved[u] {
      assert Holders(s', p) == Holders(s, p) + {u};
    } else {
      assert Holders(s', p) == Holders(s, p);
    }
  }

  lemma InsertCounts(d: Dag, s: State, u: Hash, p: Hash)
    requires u in d.units && u !in s.unhandled && p in s.refs && p != u
    ensures var s' := Insert(d, s, u);
      && Late(s', p) == Late(s, p) && p in s'.refs
      && s'.refs[p] + |Holders(s, p)| == s.refs[p] + |Holders(s', p)|
      && (p !in s.normal ==> s'.refs[p] == s.refs[p])
  {
    hide Keep; hide Late; hide Waiting; hide BadParent; hide Holders;
    InsertHolders(d, s, u, p);
    LateFrame(s, Insert(d, s, u));
  }

  lemma LateFrame(s: State, s': State)
    requires s'.bad == s.bad && s'.late == s.late
    ensures forall p :: Late(s', p) == Late(s, p)
  {
  }

  lemma InsertLate(d: Dag, s: State, u: Hash)
    requires LateOk(s) && u in d.units && u !in s.bad
    ensures LateOk(Insert(d, s, u))
  {
    hide Waiting; hide BadParent; hide Keep; hide Raised;
  }

  lemma InsertFields(d: Dag, s: State, u: Hash)
    requires u in d.units
    ensures var s' := Insert(d, s, u);
      && s'.normal == s.normal && s'.unhandled == s.unhandled + {u}
      && s'.refs.Keys == s.refs.Keys + {u} && s'.refs[u] == 0
  {
    hide BadParent; hide Waiting; hide Keep;
  }

  lemma InsertKeepsRefs(d: Dag, s: State, u: Hash)
    requires Disjoint(s) && RefsOk(s) && IsNew(d, s, u)
    ensures RefsOk(Insert(d, s, u))
  {
    hide Insert; hide Late; hide Holders; hide LateOk; hide BadParent; hide Waiting; hide Keep;
    var s' := Insert(d, s, u);
    InsertFields(d, s, u);
    InsertLate(d, s, u);
    forall p | p in s.refs && p != u
      ensures p in s'.refs && Late(s', p) == Late(s, p)
      ensures s'.refs[p] + |Holders(s, p)| == s.refs[p] + |Holders(s', p)|
      ensures p !in s.normal ==> s'.refs[p] == s.refs[p]
    {
      InsertCounts(d, s, u, p);
    }
  }

  /** Writing a joint that is new keeps the cache consistent, whether or not a parent has become bad. */
  lemma InsertKeeps(d: Dag, s: State, u: Hash, unpolled: set<Hash>)
    requires Inv(d, s, unpolled) && IsNew(d, s, u)
    ensures Inv(d, Insert(d, s, u), unpolled + {u})
  {
    InvParts(d, s, unpolled);
    hide InvWhile; hide Inv; hide Insert; hide UnitsOk; hide Disjoint; hide DataOk; hide ResolvedOk; hide WaitsOk;
    hide BadOk;
    hide ChildrenOk; hide RefsOk; hide FiredOk;
    InsertWaits(d, s, u);
    InsertBad(d, s, u);
    InsertResolved(d, s, u);
    InsertChildren(d, s, u);
    InsertFired(d, s, u, unpolled);
    InsertKeepsRefs(d, s, u);
    InvFrom(d, Insert(d, s, u), unpolled + {u});
  }

  lemma InvParts(d: Dag, s: State, unpolled: set<Hash>)
    requires Inv(d, s, unpolled)
    ensures UnitsOk(d) && Disjoint(s) && DataOk(d, s) && ResolvedOk(d, s) && WaitsOk(d, s, iset{}) && BadOk(d, s, {})
    ensures ChildrenOk(d, s) && RefsOk(s) && FiredOk(d, s, unpolled)
  {
  }

  lemma InvFrom(d: Dag, s: State, unpolled: set<Hash>)
    requires UnitsOk(d) && Disjoint(s) && DataOk(d, s) && ResolvedOk(d, s) && WaitsOk(d, s, iset{}) && BadOk(d, s, {})
    requires ChildrenOk(d, s) && RefsOk(s) && FiredOk(d, s, unpolled)
    ensures Inv(d, s, unpolled)
  {
  }

  // ---------------------------------------------------------------- looking whether a joint is ready

  /** Only the trigger counters differ. */
  ghost predicate OnlyCounters(s: State, s': State)
  {
    && s'.normal == s.normal && s'.free == s.free && s'.unhandled == s.unhandled && s'.bad == s.bad
    && s'.missing == s.missing && s'.resolved == s.resolved && s'.refs == s.refs && s'.children == s.children
    && s'.orphans == s.orphans && s'.late == s.late
    && (forall c :: c in s'.count <==> c in s.count) && (forall c :: c in s'.fired <==> c in s.fired)
  }

  lemma CountersFrame(d: Dag, s: State, s': State, exempt: iset<(Hash, Hash)>, purging: set<Hash>,
      unpolled: set<Hash>, unpolled': set<Hash>)
    requires InvWhile(d, s, exempt, purging, unpolled) && OnlyCounters(s, s') && FiredOk(d, s', unpolled')
    ensures InvWhile(d, s', exempt, purging, unpolled')
  {
    hide UnitsOk; hide FiredOk; hide Disjoint; hide DataOk; hide ResolvedOk; hide WaitsOk; hide BadOk; hide ChildrenOk;
    hide RefsOk;
    CountersLists(d, s, s', exempt, purging);
    CountersRest(d, s, s');
  }

  lemma CountersLists(d: Dag, s: State, s': State, exempt: iset<(Hash, Hash)>, purging: set<Hash>)
    requires OnlyCounters(s, s') && DataOk(d, s) && WaitsOk(d, s, exempt) && BadOk(d, s, purging)
    ensures DataOk(d, s') && WaitsOk(d, s', exempt) && BadOk(d, s', purging)
  {
    assert forall p :: Waiting(s', p) == Waiting(s, p);
    assert forall c, p :: Lacks(d, s', c, p) == Lacks(d, s, c, p);
    assert forall c {:trigger HasData(d, s', c)} :: HasData(d, s', c) == HasData(d, s, c);
    DoomedFrame(d, s, s');
    assert forall c :: BadParent(d, s', c) == BadParent(d, s, c);
    hide Lacks; hide Waiting; hide Doomed; hide HasData; hide BadParent;
  }

  lemma CountersRest(d: Dag, s: State, s': State)
    requires OnlyCounters(s, s') && Disjoint(s) && ResolvedOk(d, s) && ChildrenOk(d, s) && RefsOk(s)
    ensures Disjoint(s') && ResolvedOk(d, s') && ChildrenOk(d, s') && RefsOk(s')
  {
    assert forall c, p :: Lacks(d, s', c, p) == Lacks(d, s, c, p);
    assert forall p :: Holders(s', p) == Holders(s, p) && Late(s', p) == Late(s, p);
    hide Lacks; hide Holders; hide Late;
  }

  lemma DoomedFrame(d: Dag, s: State, s': State)
    requires s'.resolved == s.resolved && s.bad <= s'.bad
    ensures forall c :: Doomed(d, s, c) ==> Doomed(d, s', c)
  {
    forall c | Doomed(d, s, c) ensures Doomed(d, s', c) {
      var q :| q in s.bad && Lacks(d, s, c, q);
      assert Lacks(d, s', c, q);
    }
  }

  /** Looking triggers a joint exactly when it is complete and has not been triggered. */
  lemma PollFired(d: Dag, s: State, u: Hash, unpolled: set<Hash>)
    requires UnitsOk(d) && ResolvedOk(d, s) && FiredOk(d, s, unpolled) && HasData(d, s, u)
    ensures FiredOk(d, Poll(d, s, u), unpolled - {u})
    ensures d.units[u].parents != [] ==>
      (Poll(d, s, u).fired[u] == s.fired[u] + 1 <==> Complete(d, s, u) && s.fired[u] == 0)
  {
    var s' := Poll(d, s, u);
    ResolvedSize(d, s, u);
    assert forall c :: Complete(d, s', c) <==> Complete(d, s, c);
  }

  lemma PollKeeps(d: Dag, s: State, u: Hash, exempt: iset<(Hash, Hash)>, purging: set<Hash>, unpolled: set<Hash>)
    requires InvWhile(d, s, exempt, purging, unpolled) && HasData(d, s, u)
    ensures InvWhile(d, Poll(d, s, u), exempt, purging, unpolled - {u})
  {
    PollCounters(d, s, u);
    hide Poll; hide OnlyCounters; hide Disjoint; hide DataOk; hide WaitsOk; hide BadOk; hide ChildrenOk; hide RefsOk;
    hide UnitsOk; hide ResolvedOk; hide FiredOk;
    PollFired(d, s, u, unpolled);
    CountersFrame(d, s, Poll(d, s, u), exempt, purging, unpolled, unpolled - {u});
  }

  lemma PollCounters(d: Dag, s: State, u: Hash)
    requires HasData(d, s, u)
    ensures OnlyCounters(s, Poll(d, s, u))
  {
  }

  // ---------------------------------------------------------------- a joint becomes normal

  lemma PromoteShape(d: Dag, s: State, u: Hash)
    requires u in s.resolved
    ensures var s' := Promote(d, s, u);
      && s'.unhandled == s.unhandled - {u} && s'.normal == s.normal + {u} && s'.bad == s.bad
      && s'.resolved == s.resolved && s'.count == s.count && s'.fired == s.fired
      && s'.children.Keys == s.children.Keys && s'.refs.Keys == s.refs.Keys
      && s'.free == s.free - Elements(s.resolved[u]) + {u} && s'.orphans == s.orphans && s'.late == s.late
      && (forall c {:trigger BadParent(d, s', c)} :: BadParent(d, s', c) == BadParent(d, s, c))
      && (forall p {:trigger Waiting(s', p)} :: Waiting(s', p) == if p == u then [] else Waiting(s, p))
      && (forall p {:trigger s'.missing[p]} :: p in s'.missing ==> p in s.missing && s'.missing[p] == s.missing[p])
      && (forall c, p {:trigger Lacks(d, s', c, p)} :: Lacks(d, s', c, p) == Lacks(d, s, c, p))
      && (forall c {:trigger Doomed(d, s', c)} :: Doomed(d, s', c) == Doomed(d, s, c))
      && (forall c {:trigger HasData(d, s', c)} :: HasData(d, s', c) == HasData(d, s, c))
      && (forall c {:trigger Complete(d, s', c)} :: Complete(d, s', c) == Complete(d, s, c))
      && (forall p {:trigger s'.children[p]} :: p in s.children ==>
           s'.children[p] == if p in s.resolved[u] then s.children[p] + {u} else s.children[p])
      && (forall p {:trigger s'.refs[p]} :: p in s.refs ==>
           s'.refs[p] == if p in s.resolved[u] && s.refs[p] > 0 then s.refs[p] - 1 else s.refs[p])
  {
    var s' := Promote(d, s, u);
    forall c ensures Doomed(d, s', c) == Doomed(d, s, c) {
      if Doomed(d, s, c) { var q :| q in s.bad && Lacks(d, s, c, q); assert Lacks(d, s', c, q); }
      if Doomed(d, s', c) { var q :| q in s'.bad && Lacks(d, s', c, q); assert Lacks(d, s, c, q); }
    }
  }

  /** The joints waiting for `u`, still to be told. */
  ghost function Telling(u: Hash, kids: seq<Hash>): iset<(Hash, Hash)>
  {
    iset c | c in kids :: (c, u)
  }

  ghost predicate CanPromote(d: Dag, s: State, u: Hash)
  {
    u in s.unhandled && HasData(d, s, u) && Complete(d, s, u)
  }

  lemma PromoteWaits(d: Dag, s: State, u: Hash)
    requires Disjoint(s) && WaitsOk(d, s, iset{}) && BadOk(d, s, {}) && DataOk(d, s) && CanPromote(d, s, u)
    ensures var s' := Promote(d, s, u);
      WaitsOk(d, s', Telling(u, Waiting(s, u))) && BadOk(d, s', {}) && DataOk(d, s') && Disjoint(s')
  {
    assert u in s.resolved && forall p :: !Lacks(d, s, u, p);
    hide Promote; hide Lacks; hide Doomed; hide HasData; hide Complete; hide Waiting;
    PromoteShape(d, s, u);
  }

  lemma PromoteChildren(d: Dag, s: State, u: Hash)
    requires UnitsOk(d) && Disjoint(s) && ResolvedOk(d, s) && ChildrenOk(d, s) && DataOk(d, s) && CanPromote(d, s, u)
    ensures var s' := Promote(d, s, u); ResolvedOk(d, s') && ChildrenOk(d, s')
  {
    var s' := Promote(d, s, u);
    PromoteResolved(d, s, u);
    assert u in s.resolved;
    assert u !in s.resolved[u];
    hide Promote; hide Doomed; hide Complete; hide Waiting; hide Lacks; hide HasData; hide ResolvedOk; hide BadParent;
    hide UnitsOk;
    PromoteShape(d, s, u);
    PromoteFree(d, s, u);
    forall p, c | p in s'.normal && p in s'.children
      ensures c in s'.children[p] <==> c in s'.normal && c in d.units && p in d.units[c].parents
    {
      PromoteChildOf(d, s, u, p, c);
    }
  }

  lemma PromoteFree(d: Dag, s: State, u: Hash)
    requires Disjoint(s) && ResolvedOk(d, s) && ChildrenOk(d, s) && CanPromote(d, s, u) && u in s.resolved
    requires u !in s.resolved[u]
    ensures var s' := Promote(d, s, u);
      && (forall p :: p in s'.free <==> p in s'.normal && p in s'.children && s'.children[p] == {})
      && (forall c :: c in s'.unhandled && c in s'.children ==> s'.children[c] == {})
  {
    hide Lacks; hide Doomed; hide Complete; hide Waiting; hide BadParent;
    var s' := Promote(d, s, u);
    PromoteShape(d, s, u);
    hide Promote;
    assert forall p :: p in s.resolved[u] ==> p in s.normal;
    assert s.children[u] == {};
  }

  lemma PromoteResolved(d: Dag, s: State, u: Hash)
    requires ResolvedOk(d, s) && CanPromote(d, s, u)
    ensures ResolvedOk(d, Promote(d, s, u))
  {
    assert forall p :: !Lacks(d, s, u, p);
    hide Promote; hide Doomed; hide Complete; hide Waiting; hide Lacks;
    PromoteShape(d, s, u);
  }

  lemma PromoteChildOf(d: Dag, s: State, u: Hash, p: Hash, c: Hash)
    requires UnitsOk(d) && Disjoint(s) && ResolvedOk(d, s) && ChildrenOk(d, s) && DataOk(d, s) && CanPromote(d, s, u)
    requires p in s.normal + {u} && p in s.children
    ensures var s' := Promote(d, s, u);
      c in s'.children[p] <==> c in s.normal + {u} && c in d.units && p in d.units[c].parents
  {
    if p == u {
      assert s.children[u] == {};
      assert !Lacks(d, s, u, u);
      assert c in s.normal ==> HasData(d, s, c) && !Lacks(d, s, c, u);
    } else {
      assert p in s.resolved[u] <==> p in d.units[u].parents;
    }
  }

  lemma PromoteCounts(d: Dag, s: State, u: Hash, p: Hash)
    requires Disjoint(s) && ResolvedOk(d, s) && RefsOk(s) && u in s.unhandled && u in s.resolved
    requires p in s.refs && (p in s.normal || p == u)
    ensures var s' := Promote(d, s, u); p in s'.refs && s'.refs[p] == |Holders(s', p)| + |Late(s', p)|
  {
    var s' := Promote(d, s, u);
    assert Holders(s', p) == Holders(s, p) - {u};
    LateFrame(s, s');
    hide Promote; hide Lacks;
    if p == u {
      assert forall c :: c in s.unhandled && c in s.resolved ==> u !in s.resolved[c];
      assert Holders(s, u) == {} && Late(s, u) == {};
    } else if p in s.resolved[u] {
      assert u in Holders(s, p);
    }
  }

  lemma PromoteRefs(d: Dag, s: State, u: Hash)
    requires Disjoint(s) && ResolvedOk(d, s) && RefsOk(s) && CanPromote(d, s, u)
    ensures RefsOk(Promote(d, s, u))
  {
    assert u in s.resolved;
    var s' := Promote(d, s, u);
    assert LateOk(s') by { hide Holders; hide Late; hide ResolvedOk; }
    assert s'.normal == s.normal + {u} && s'.unhandled == s.unhandled - {u} && s'.refs.Keys == s.refs.Keys;
    assert forall p :: p in s.resolved[u] ==> p in s.normal;
    assert forall p :: p in s'.unhandled && p in s'.refs ==> s'.refs[p] == s.refs[p];
    hide Promote; hide Doomed; hide Complete; hide Waiting; hide Lacks; hide Holders; hide Late; hide LateOk;
    hide ResolvedOk; hide CanPromote;
    forall p | p in s'.normal && p in s'.refs ensures s'.refs[p] == |Holders(s', p)| + |Late(s', p)| {
      PromoteCounts(d, s, u, p);
    }
  }

  lemma PromoteFired(d: Dag, s: State, u: Hash, unpolled: set<Hash>)
    requires FiredOk(d, s, unpolled) && CanPromote(d, s, u)
    ensures FiredOk(d, Promote(d, s, u), unpolled)
  {
    hide Promote; hide Doomed; hide Complete; hide Waiting; hide Lacks;
    PromoteShape(d, s, u);
  }

  lemma PromoteKeeps(d: Dag, s: State, u: Hash, unpolled: set<Hash>)
    requires Inv(d, s, unpolled) && CanPromote(d, s, u)
    ensures InvWhile(d, Promote(d, s, u), Telling(u, Waiting(s, u)), {}, unpolled)
  {
    InvParts(d, s, unpolled);
    hide Inv; hide Promote; hide UnitsOk; hide Disjoint; hide DataOk; hide ResolvedOk; hide WaitsOk; hide BadOk;
    hide ChildrenOk; hide RefsOk; hide FiredOk; hide CanPromote;
    PromoteWaits(d, s, u);
    PromoteChildren(d, s, u);
    PromoteRefs(d, s, u);
    PromoteFired(d, s, u, unpolled);
  }

  // ---------------------------------------------------------------- telling a waiting joint

  ghost predicate CanTell(d: Dag, s: State, u: Hash, c: Hash)
  {
    && u in s.normal && HasData(d, s, u) && HasData(d, s, c) && Lacks(d, s, c, u)
    && (c in s.unhandled || (c in s.bad && Doomed(d, s, c)))
  }

  lemma TellShape(d: Dag, s: State, u: Hash, c: Hash)
    requires CanTell(d, s, u, c) && Disjoint(s)
    ensures var s' := Tell(s, u, c);
      && (forall p {:trigger Waiting(s', p)} :: Waiting(s', p) == Waiting(s, p))
      && (forall b: Hash, p: Hash {:trigger Lacks(d, s', b, p)} :: Lacks(d, s', b, p) <==>
           Lacks(d, s, b, p) && !(b == c && p == u))
      && (forall b {:trigger Doomed(d, s', b)} :: Doomed(d, s, b) ==> Doomed(d, s', b))
      && (forall b {:trigger HasData(d, s', b)} :: HasData(d, s', b) == HasData(d, s, b))
      && (forall b {:trigger BadParent(d, s', b)} :: BadParent(d, s', b) == BadParent(d, s, b))
  {
    var s' := Tell(s, u, c);
    forall b | Doomed(d, s, b) ensures Doomed(d, s', b) {
      var q :| q in s.bad && Lacks(d, s, b, q);
      assert q != u;
      assert Lacks(d, s', b, q);
    }
  }

  lemma TellWaits(d: Dag, s: State, u: Hash, c: Hash, exempt: iset<(Hash, Hash)>)
    requires Disjoint(s) && WaitsOk(d, s, exempt) && BadOk(d, s, {}) && DataOk(d, s) && CanTell(d, s, u, c)
    ensures var s' := Tell(s, u, c); WaitsOk(d, s', exempt - iset{(c, u)}) && Disjoint(s')
  {
    var s' := Tell(s, u, c);
    TellShape(d, s, u, c);
    hide Lacks; hide Doomed; hide HasData; hide Waiting; hide BadOk; hide DataOk;
    forall b: Hash, p: Hash | b in s'.unhandled && Lacks(d, s', b, p) && (b, p) !in exempt - iset{(c, u)}
      ensures b in Waiting(s', p)
    {
      assert Lacks(d, s, b, p);
    }
    forall p, b | b in Waiting(s', p)
      ensures p !in s'.normal && (b in s'.unhandled || b in s'.bad) && Lacks(d, s', b, p)
    {
      assert b in Waiting(s, p);
    }
    assert ListedOnce(s');
    hide Tell; hide ListedOnce;
  }

  lemma TellBad(d: Dag, s: State, u: Hash, c: Hash)
    requires Disjoint(s) && BadOk(d, s, {}) && DataOk(d, s) && CanTell(d, s, u, c)
    ensures var s' := Tell(s, u, c); BadOk(d, s', {}) && DataOk(d, s')
  {
    TellShape(d, s, u, c);
    hide Lacks; hide Doomed; hide HasData; hide Waiting;
  }

  lemma TellResolved(d: Dag, s: State, u: Hash, c: Hash)
    requires Disjoint(s) && ResolvedOk(d, s) && ChildrenOk(d, s) && CanTell(d, s, u, c)
    ensures var s' := Tell(s, u, c); ResolvedOk(d, s') && ChildrenOk(d, s')
  {
    TellShape(d, s, u, c);
    hide Doomed;
  }

  lemma TellHolders(s: State, u: Hash, c: Hash, p: Hash)
    requires c in s.resolved && c in s.count && u in s.refs && u !in s.resolved[c]
    ensures |Holders(Tell(s, u, c), p)| == |Holders(s, p)| + if p == u && c in s.unhandled then 1 else 0
  {
    var s' := Tell(s, u, c);
    assert Holders(s', p) == if p == u && c in s.unhandled then Holders(s, p) + {c} else Holders(s, p);
  }

  lemma TellLate(s: State, u: Hash, c: Hash, p: Hash)
    requires c in s.resolved && c in s.count && u in s.refs && (c, u) !in s.late
    ensures |Late(Tell(s, u, c), p)| == |Late(s, p)| + if p == u && c in s.bad then 1 else 0
  {
    var s' := Tell(s, u, c);
    assert Late(s', p) == if p == u && c in s.bad then Late(s, p) + {c} else Late(s, p);
  }

  lemma TellLateOk(s: State, u: Hash, c: Hash)
    requires LateOk(s) && c in s.resolved && c in s.count && u in s.refs && u in s.normal
    ensures LateOk(Tell(s, u, c))
  {
  }

  lemma TellRefs(d: Dag, s: State, u: Hash, c: Hash)
    requires Disjoint(s) && RefsOk(s) && CanTell(d, s, u, c)
    ensures RefsOk(Tell(s, u, c))
  {
    assert c in s.resolved && c in s.count && u in s.refs && (c, u) !in s.late;
    hide Holders; hide Late; hide HasData; hide Doomed; hide Lacks; hide LateOk;
    var s' := Tell(s, u, c);
    TellLateOk(s, u, c);
    forall p | p in s'.normal && p in s'.refs ensures s'.refs[p] == |Holders(s', p)| + |Late(s', p)| {
      TellHolders(s, u, c, p);
      TellLate(s, u, c, p);
    }
  }

  lemma TellFired(d: Dag, s: State, u: Hash, c: Hash, unpolled: set<Hash>)
    requires UnitsOk(d) && ResolvedOk(d, s) && FiredOk(d, s, unpolled) && CanTell(d, s, u, c)
    ensures FiredOk(d, Tell(s, u, c), unpolled + {c})
  {
    var s' := Tell(s, u, c);
    ResolvedSize(d, s, c);
    assert forall b :: b != c ==> (Complete(d, s', b) <==> Complete(d, s, b));
  }

  /** Telling the next waiting joint that `u` is normal. */
  lemma ResolveKeeps(d: Dag, s: State, u: Hash, c: Hash, exempt: iset<(Hash, Hash)>, unpolled: set<Hash>)
    requires InvWhile(d, s, exempt, {}, unpolled) && CanTell(d, s, u, c)
    ensures InvWhile(d, Resolve(d, s, u, c), exempt - iset{(c, u)}, {}, unpolled)
  {
    var s' := Tell(s, u, c);
    TellWaits(d, s, u, c, exempt);
    TellBad(d, s, u, c);
    TellResolved(d, s, u, c);
    TellRefs(d, s, u, c);
    TellFired(d, s, u, c, unpolled);
    assert HasData(d, s', c);
    hide UnitsOk; hide Disjoint; hide DataOk; hide ResolvedOk; hide WaitsOk; hide BadOk; hide ChildrenOk;
    hide RefsOk; hide FiredOk;
    PollKeeps(d, s', c, exempt - iset{(c, u)}, {}, unpolled + {c});
    MorePolls(d, Resolve(d, s, u, c), exempt - iset{(c, u)}, (unpolled + {c}) - {c}, unpolled);
  }

  lemma MorePolls(d: Dag, s: State, exempt: iset<(Hash, Hash)>, few: set<Hash>, many: set<Hash>)
    requires InvWhile(d, s, exempt, {}, few) && few <= many
    ensures InvWhile(d, s, exempt, {}, many)
  {
    hide UnitsOk; hide Disjoint; hide DataOk; hide ResolvedOk; hide WaitsOk; hide BadOk; hide ChildrenOk; hide RefsOk;
  }

  // ---------------------------------------------------------------- purging bad joints

  ghost function AllOf(stack: set<Hash>): iset<(Hash, Hash)>
  {
    iset c: Hash, p: Hash | c in stack :: (c, p)
  }

  /** What may be purged: joints that are not normal and, if cached, triggered or doomed. */
  ghost predicate Purgeable(d: Dag, s: State, c: Hash)
  {
    c !in s.normal && (c in s.unhandled ==> Triggered(d, s, c) || Doomed(d, s, c))
  }

  /** A joint handed to validation. */
  ghost predicate Triggered(d: Dag, s: State, c: Hash)
  {
    Complete(d, s, c) && c in s.fired && s.fired[c] > 0
  }

  lemma PurgeShape(d: Dag, s: State, u: Hash)
    requires DataOk(d, s)
    ensures var s' := PurgeOne(s, u);
      && s'.normal == s.normal && s'.free == s.free && s'.unhandled == s.unhandled - {u} && s'.bad == s.bad + {u}
      && s'.resolved == s.resolved && s'.count == s.count && s'.fired == s.fired && s'.children == s.children
      && (forall p {:trigger Waiting(s', p)} :: Waiting(s', p) == if p == u then [] else Waiting(s, p))
      && (forall p {:trigger s'.missing[p]} :: p in s'.missing ==> p in s.missing && s'.missing[p] == s.missing[p])
      && (forall c, p {:trigger Lacks(d, s', c, p)} :: Lacks(d, s', c, p) == Lacks(d, s, c, p))
      && (forall c {:trigger Doomed(d, s', c)} :: Doomed(d, s, c) || Lacks(d, s, c, u) ==> Doomed(d, s', c))
      && s'.orphans == s.orphans && s'.late == s.late
      && (forall c {:trigger BadParent(d, s', c)} ::
           BadParent(d, s', c) <==> BadParent(d, s, c) || (c in d.units && u in d.units[c].parents))
      && (forall c {:trigger HasData(d, s', c)} :: HasData(d, s', c) == HasData(d, s, c))
      && (forall c {:trigger Complete(d, s', c)} :: Complete(d, s', c) == Complete(d, s, c))
  {
    var s' := PurgeOne(s, u);
    assert u in s.unhandled ==> HasData(d, s, u);
    forall c | Doomed(d, s, c) || Lacks(d, s, c, u) ensures Doomed(d, s', c) {
      if Lacks(d, s, c, u) {
        assert Lacks(d, s', c, u);
      } else {
        var q :| q in s.bad && Lacks(d, s, c, q);
        assert Lacks(d, s', c, q);
      }
    }
  }

  /** The joints to purge after `u`: what was waiting for it is doomed now. */
  ghost function Rest(s: State, u: Hash, stack: set<Hash>): set<Hash>
  {
    stack + Elements(Waiting(s, u))
  }

  lemma PurgeWaits(d: Dag, s: State, u: Hash, stack: set<Hash>)
    requires Disjoint(s) && DataOk(d, s) && ResolvedOk(d, s) && WaitsOk(d, s, AllOf(stack + {u}))
    requires BadOk(d, s, stack + {u})
    requires Purgeable(d, s, u)
    ensures var s' := PurgeOne(s, u);
      && Disjoint(s') && DataOk(d, s') && WaitsOk(d, s', AllOf(Rest(s, u, stack))) && BadOk(d, s', Rest(s, u, stack))
  {
    var s' := PurgeOne(s, u);
    var rest := Rest(s, u, stack);
    PurgeShape(d, s, u);
    assert Complete(d, s, u) ==> forall p :: !Lacks(d, s, u, p);
    forall c | c in s'.unhandled && c !in rest ensures BadParent(d, s', c) <==> c in s'.orphans {
      assert HasData(d, s, c);
      assert u in d.units[c].parents ==> Lacks(d, s, c, u);
      assert (c, u) !in AllOf(stack + {u});
    }
    hide PurgeOne; hide Lacks; hide Doomed; hide Complete; hide HasData; hide ResolvedOk;
    forall c: Hash, p: Hash | c in s'.unhandled && Lacks(d, s', c, p) && (c, p) !in AllOf(rest)
      ensures c in Waiting(s', p)
    {
      assert c !in rest && (c, p) !in AllOf(stack + {u});
      assert c in Waiting(s, p);
    }
  }

  lemma PurgeRest(d: Dag, s: State, u: Hash, unpolled: set<Hash>)
    requires DataOk(d, s) && ResolvedOk(d, s) && ChildrenOk(d, s) && FiredOk(d, s, unpolled)
    ensures var s' := PurgeOne(s, u); ResolvedOk(d, s') && ChildrenOk(d, s') && FiredOk(d, s', unpolled)
  {
    PurgeShape(d, s, u);
    hide PurgeOne; hide Lacks; hide Doomed; hide Complete; hide HasData; hide Waiting;
  }

  lemma PurgeRefs(d: Dag, s: State, u: Hash)
    requires Disjoint(s) && DataOk(d, s) && RefsOk(s)
    ensures RefsOk(PurgeOne(s, u))
  {
    var s' := PurgeOne(s, u);
    assert u in s.unhandled ==> HasData(d, s, u);
    forall p | p in s'.normal && p in s'.refs ensures s'.refs[p] == |Holders(s', p)| + |Late(s', p)| {
      assert Holders(s', p) == Holders(s, p) - {u} && Late(s', p) == Late(s, p);
      if u in s.unhandled && p in s.resolved[u] { assert u in Holders(s, p); }
    }
  }

  lemma PurgeKeeps(d: Dag, s: State, u: Hash, stack: set<Hash>, unpolled: set<Hash>)
    requires InvWhile(d, s, AllOf(stack + {u}), stack + {u}, unpolled)
    requires Purgeable(d, s, u) && forall c :: c in stack ==> Purgeable(d, s, c)
    ensures InvWhile(d, PurgeOne(s, u), AllOf(Rest(s, u, stack)), Rest(s, u, stack), unpolled)
    ensures forall c :: c in Rest(s, u, stack) ==> Purgeable(d, PurgeOne(s, u), c)
  {
    PurgeShape(d, s, u);
    forall c | c in Rest(s, u, stack) ensures Purgeable(d, PurgeOne(s, u), c) {
      if c in Waiting(s, u) { WaiterDoomed(d, s, u, c, AllOf(stack + {u})); }
    }
    hide UnitsOk; hide Disjoint; hide DataOk; hide ResolvedOk; hide WaitsOk; hide BadOk; hide ChildrenOk;
    hide RefsOk; hide FiredOk;
    hide PurgeOne; hide Purgeable;
    PurgeWaits(d, s, u, stack);
    PurgeRest(d, s, u, unpolled);
    PurgeRefs(d, s, u);
  }

  lemma WaiterDoomed(d: Dag, s: State, u: Hash, c: Hash, exempt: iset<(Hash, Hash)>)
    requires WaitsOk(d, s, exempt) && DataOk(d, s) && Disjoint(s) && c in Waiting(s, u)
    ensures Lacks(d, s, c, u) && c !in s.normal
  {
  }

  // ---------------------------------------------------------------- purging a free joint

  ghost predicate CanPurgeFree(s: State, v: Hash)
  {
    v in s.free && v in s.refs && s.refs[v] == 0
  }

  lemma PurgeFreeNotHeld(d: Dag, s: State, v: Hash, c: Hash)
    requires ResolvedOk(d, s) && ChildrenOk(d, s) && RefsOk(s) && DataOk(d, s) && CanPurgeFree(s, v)
    requires (c in s.unhandled || c in s.normal) && c in s.resolved
    ensures v !in s.resolved[c]
  {
    assert v in s.normal && HasData(d, s, v);
    assert |Holders(s, v)| == 0 && |Late(s, v)| == 0;
    assert c in s.unhandled && v in s.resolved[c] ==> c in Holders(s, v);
    var kids := s.children[v];
    assert c in s.normal && v in s.resolved[c] ==> c in kids;
  }

  lemma PurgeFreeShape(d: Dag, s: State, v: Hash)
    requires v in s.resolved
    ensures var s' := PurgeFree(s, v);
      && s'.normal == s.normal - {v} && s'.unhandled == s.unhandled && s'.bad == s.bad
      && s'.resolved == s.resolved && s'.count == s.count && s'.fired == s.fired && s'.refs == s.refs
      && s'.missing == s.missing
      && s'.children.Keys == s.children.Keys && s'.orphans == s.orphans && s'.late == s.late
      && (forall c {:trigger BadParent(d, s', c)} :: BadParent(d, s', c) == BadParent(d, s, c))
      && (forall p {:trigger s'.children[p]} :: p in s.children ==>
           s'.children[p] == if p in s.resolved[v] then s.children[p] - {v} else s.children[p])
      && (forall p {:trigger p in s'.free} :: p in s'.free <==>
           (p in s.free && p != v) || (p in s.resolved[v] && p in s.children && s.children[p] - {v} == {}))
      && (forall p {:trigger Waiting(s', p)} :: Waiting(s', p) == Waiting(s, p))
      && (forall c, p {:trigger Lacks(d, s', c, p)} :: Lacks(d, s', c, p) == Lacks(d, s, c, p))
      && (forall c {:trigger HasData(d, s', c)} :: HasData(d, s', c) == HasData(d, s, c))
      && (forall c {:trigger Complete(d, s', c)} :: Complete(d, s', c) == Complete(d, s, c))
      && (forall p {:trigger Holders(s', p)} :: Holders(s', p) == Holders(s, p))
      && (forall p {:trigger Late(s', p)} :: Late(s', p) == Late(s, p))
  {
  }

  lemma PurgeFreeWaits(d: Dag, s: State, v: Hash)
    requires Disjoint(s) && DataOk(d, s) && WaitsOk(d, s, iset{}) && BadOk(d, s, {}) && v in s.resolved
    ensures var s' := PurgeFree(s, v); Disjoint(s') && DataOk(d, s') && WaitsOk(d, s', iset{}) && BadOk(d, s', {})
  {
    var s' := PurgeFree(s, v);
    PurgeFreeShape(d, s, v);
    DoomedFrame(d, s, s');
    hide PurgeFree; hide Lacks; hide HasData; hide Waiting; hide Doomed;
    forall p, c | c in Waiting(s', p)
      ensures p !in s'.normal && (c in s'.unhandled || c in s'.bad) && Lacks(d, s', c, p) && HasData(d, s', c)
      ensures (c in s'.bad ==> Doomed(d, s', c))
    {
      assert c in Waiting(s, p) && Lacks(d, s, c, p) && HasData(d, s, c);
      if c in s.bad { assert Doomed(d, s, c); }
    }
    forall c: Hash, p: Hash | c in s'.unhandled && Lacks(d, s', c, p) ensures c in Waiting(s', p) {
      assert Lacks(d, s, c, p);
    }
  }

  lemma PurgeFreeRefs(d: Dag, s: State, v: Hash)
    requires ChildrenOk(d, s) && RefsOk(s) && CanPurgeFree(s, v) && v in s.resolved
    ensures RefsOk(PurgeFree(s, v))
  {
    var s' := PurgeFree(s, v);
    NobodyLate(d, s, v);
    PurgeFreeShape(d, s, v);
    hide PurgeFree; hide Lacks; hide HasData; hide Waiting; hide Complete; hide Holders; hide ChildrenOk; hide Late;
  }

  lemma PurgeFreeResolved(d: Dag, s: State, v: Hash, unpolled: set<Hash>)
    requires DataOk(d, s) && ResolvedOk(d, s) && ChildrenOk(d, s) && RefsOk(s) && FiredOk(d, s, unpolled)
    requires CanPurgeFree(s, v) && v in s.resolved
    ensures var s' := PurgeFree(s, v); ResolvedOk(d, s') && RefsOk(s') && FiredOk(d, s', unpolled)
  {
    PurgeFreeRefs(d, s, v);
    PurgeFreeShape(d, s, v);
    var s' := PurgeFree(s, v);
    hide PurgeFree; hide Lacks; hide HasData; hide Waiting; hide Complete; hide Holders; hide ChildrenOk; hide Late;
    hide RefsOk; hide DataOk; hide CanPurgeFree;
    forall c, p | c in s'.resolved && p in s'.resolved[c] && (c in s'.unhandled || c in s'.normal)
      ensures p in s'.normal
    {
      PurgeFreeNotHeld(d, s, v, c);
    }
  }

  lemma NobodyLate(d: Dag, s: State, v: Hash)
    requires ChildrenOk(d, s) && RefsOk(s) && CanPurgeFree(s, v)
    ensures forall c: Hash :: (c, v) !in s.late
  {
    assert v in s.normal && |Late(s, v)| == 0;
    assert forall c: Hash :: (c, v) in s.late ==> c in Late(s, v);
  }

  lemma NotOwnParent(d: Dag, v: Hash)
    requires WellFormed(d) && v in d.units
    ensures v !in d.units[v].parents
  {
    assert RankOk(d, Ranking(d));
  }

  lemma PurgeFreeChildren(d: Dag, s: State, v: Hash)
    requires UnitsOk(d) && DataOk(d, s) && ResolvedOk(d, s) && ChildrenOk(d, s) && v in s.free && v in s.resolved
    ensures ChildrenOk(d, PurgeFree(s, v))
  {
    PurgeFreeShape(d, s, v);
    var s' := PurgeFree(s, v);
    assert HasData(d, s, v);
    forall p ensures p in s.resolved[v] <==> p in d.units[v].parents { assert !Lacks(d, s, v, p); }
    NotOwnParent(d, v);
    hide PurgeFree; hide Lacks; hide Waiting; hide Complete; hide Holders;
  }

  /** Purging a free joint nobody refers to keeps the cache consistent. */
  lemma PurgeFreeKeeps(d: Dag, s: State, v: Hash, unpolled: set<Hash>)
    requires Inv(d, s, unpolled) && CanPurgeFree(s, v)
    ensures v in s.resolved && Inv(d, PurgeFree(s, v), unpolled)
  {
    assert v in s.normal && HasData(d, s, v);
    InvParts(d, s, unpolled);
    hide Inv; hide PurgeFree; hide UnitsOk; hide Disjoint; hide DataOk; hide ResolvedOk; hide WaitsOk; hide BadOk;
    hide RefsOk; hide FiredOk; hide ChildrenOk; hide InvWhile;
    PurgeFreeWaits(d, s, v);
    PurgeFreeResolved(d, s, v, unpolled);
    PurgeFreeChildren(d, s, v);
    InvFrom(d, PurgeFree(s, v), unpolled);
  }
}
