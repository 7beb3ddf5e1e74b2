/**
 * The pruned ancestor test and joint comparison (src/cache/joint_data.rs), reading the
 * index of the main chain while it is being filled in.
 */
module Ancestor {
  import opened Collections
  import opened Dag
  import opened StaticProps
  import opened MainChain

  /** A level; INVALID is neither equal to, below nor above anything (src/joint.rs). */
  datatype Level = Level(value: int)
  {
    predicate Eq(o: Level) { this != INVALID && o != INVALID && value == o.value }
    predicate Lt(o: Level) { this != INVALID && o != INVALID && value < o.value }
    predicate Le(o: Level) { this != INVALID && o != INVALID && value <= o.value }
  }
  const INVALID: Level := Level(-2)

  datatype UnitProps = UnitProps(key: Hash, level: Level, mci: Level, limci: Level, wl: Level)

  datatype Ordering = Less | Equal | Greater

  function Number(m: map<Hash, nat>, u: Hash): Level
  {
    if u in m then Level(m[u]) else INVALID
  }

  /** get_props of unit `u` at a moment when the index is `m`. */
  function ReadProps(st: Statics, m: Marks, u: Hash): UnitProps
    requires u in st
  {
    UnitProps(u, Level(st[u].level), Number(m.mci, u), Number(m.limci, u), Level(st[u].wl))
  }

  predicate NotIncluded(a: UnitProps, b: UnitProps)
  {
    a.level.Le(b.level) || a.wl.Lt(b.wl) || a.mci.Lt(b.mci) || a.limci.Lt(b.limci)
  }

  function PartialCmp(a: UnitProps, b: UnitProps): Option<Ordering>
  {
    if a.key == b.key then Some(Equal)
    else if a.mci.Le(b.limci) then Some(Less)
    else if b.mci.Le(a.limci) then Some(Greater)
    else None
  }

  /** Props of `p.key` as read at some moment of a run that ends with index `fin`. */
  ghost predicate Snapshot(st: Statics, fin: Marks, p: UnitProps)
  {
    && p.key in st
    && exists m :: Earlier(m, fin) && p == ReadProps(st, m, p.key)
  }

  lemma NumbersAreFinal(st: Statics, fin: Marks, p: UnitProps)
    requires Snapshot(st, fin, p)
    ensures p.level == Level(st[p.key].level) && p.wl == Level(st[p.key].wl)
    ensures p.mci == INVALID || (p.key in fin.mci && p.mci == Level(fin.mci[p.key]))
    ensures p.limci == INVALID || (p.key in fin.limci && p.limci == Level(fin.limci[p.key]))
  {
    var m :| Earlier(m, fin) && p == ReadProps(st, m, p.key);
  }

  /** Whatever moments two units are read at, a verdict of the props is right about reachability. */
  lemma PartialCmpSound(d: Dag, st: Statics, fin: Marks, a: UnitProps, b: UnitProps)
    requires Indexed(d, st, fin) && Snapshot(st, fin, a) && Snapshot(st, fin, b)
    ensures PartialCmp(a, b) == Some(Equal) <==> a.key == b.key
    ensures PartialCmp(a, b) == Some(Less) ==> Lt(d, a.key, b.key) && !Le(d, b.key, a.key)
    ensures PartialCmp(a, b) == Some(Greater) ==> Lt(d, b.key, a.key) && !Le(d, a.key, b.key)
  {
    hide Indexed; hide Le; hide Snapshot;
    IndexedIsFull(d, st, fin);
    NumbersAreFinal(st, fin, a);
    NumbersAreFinal(st, fin, b);
    if PartialCmp(a, b) == Some(Less) {
      IndexImpliesInclusion(d, st, fin, a.key, b.key);
      if Le(d, b.key, a.key) { LeAntisymmetric(d, a.key, b.key); }
    } else if PartialCmp(a, b) == Some(Greater) {
      IndexImpliesInclusion(d, st, fin, b.key, a.key);
      if Le(d, a.key, b.key) { LeAntisymmetric(d, a.key, b.key); }
    }
  }

  /** Pruning never cuts off a proper ancestor. */
  lemma NotIncludedSound(d: Dag, st: Statics, fin: Marks, a: UnitProps, b: UnitProps)
    requires Indexed(d, st, fin) && Snapshot(st, fin, a) && Snapshot(st, fin, b)
    requires NotIncluded(a, b) && a.key != b.key
    ensures !Le(d, b.key, a.key)
  {
    NumbersAreFinal(st, fin, a);
    NumbersAreFinal(st, fin, b);
    hide Indexed; hide Snapshot; hide Le;
    if Le(d, b.key, a.key) {
      IndexedIsFull(d, st, fin);
      LevelIncreases(d, st, b.key, a.key);
      WitnessedLevelOfAncestor(d, st, b.key, a.key);
      if a.key in fin.mci || a.key in fin.limci {
        IndexMonotone(d, st, fin, b.key, a.key);
      }
    }
  }

  lemma IndexedIsFull(d: Dag, st: Statics, fin: Marks)
    requires Indexed(d, st, fin)
    ensures Full(d, st) && WellFormed(d) && StaticOk(d, st) && st.Keys == d.units.Keys
    ensures fin.mci.Keys == fin.limci.Keys
  {
  }

  /** `a` is included in, or is, one of `later`. */
  ghost predicate Under(d: Dag, later: seq<Hash>, a: Hash)
    requires WellFormed(d)
  {
    exists j :: j in later && Le(d, a, j)
  }

  lemma SelfIsSelf(d: Dag, a: Hash)
    requires WellFormed(d) && a in d.units
    ensures Le(d, a, a)
  {
  }

  lemma UnderTransitive(d: Dag, later: seq<Hash>, a: Hash, v: Hash)
    requires WellFormed(d) && Under(d, later, v) && Le(d, a, v)
    ensures Under(d, later, a)
  {
    var j :| j in later && Le(d, v, j);
    LeTransitive(d, a, v, j);
  }

  lemma NoneFound(d: Dag, a: Hash, later: seq<Hash>, visited: set<Hash>)
    requires WellFormed(d) && Explained(d, a, visited, []) && forall u :: u in later ==> u in visited
    ensures !Under(d, later, a)
  {
    forall j | j in later ensures !Le(d, a, j) { NothingExplained(d, a, visited, j); }
  }

  /** Each unit visited and already popped leads, if it includes `a`, to a visited parent that does. */
  ghost predicate Explained(d: Dag, a: Hash, visited: set<Hash>, stack: seq<Hash>)
    requires WellFormed(d)
  {
    forall v :: v in visited && v !in stack && Le(d, a, v) ==>
      v != a && v in d.units && exists p :: p in d.units[v].parents && p in visited && Le(d, a, p)
  }

  lemma {:induction false} NothingExplained(d: Dag, a: Hash, visited: set<Hash>, v: Hash)
    requires WellFormed(d) && Explained(d, a, visited, []) && v in visited
    ensures !Le(d, a, v)
    decreases Rank(d, v)
  {
    if Le(d, a, v) {
      var p :| p in d.units[v].parents && p in visited && Le(d, a, p);
      NothingExplained(d, a, visited, p);
    }
  }

  /** Popping `v`: it does not include `a`, or its parents are pushed unless already visited. */
  lemma ExplainedStep(d: Dag, a: Hash, visited: set<Hash>, stack: seq<Hash>, v: Hash, more: set<Hash>, rest: seq<Hash>)
    requires WellFormed(d) && v in d.units && v != a
    requires Explained(d, a, visited, stack + [v]) && v in visited
    requires forall x :: x in stack ==> x in rest
    requires Le(d, a, v) ==> forall p :: p in d.units[v].parents ==> p in more
    requires visited <= more && forall x :: x in more ==> x in visited || x in rest
    ensures Explained(d, a, more, rest)
  {
    forall w | w in more && w !in rest && Le(d, a, w)
      ensures w != a && w in d.units && exists p :: p in d.units[w].parents && p in more && Le(d, a, p)
    {
      if w == v {
        var p :| p in d.units[v].parents && Le(d, a, p);
        assert p in more;
      } else {
        assert w !in stack + [v];
        var p :| p in d.units[w].parents && p in visited && Le(d, a, p);
        assert p in more;
      }
    }
  }

  /** What the props of a popped unit allow the search to conclude. */
  lemma Pop(d: Dag, st: Statics, fin: Marks, self: UnitProps, later: seq<Hash>, visited: set<Hash>, stack: seq<Hash>,
      props: UnitProps)
    requires Indexed(d, st, fin) && Snapshot(st, fin, self) && Snapshot(st, fin, props) && WellFormed(d)
    requires props.key in visited && Under(d, later, props.key) && Explained(d, self.key, visited, stack + [props.key])
    ensures var cmp := PartialCmp(props, self);
      if cmp == Some(Equal) || cmp == Some(Greater) then Under(d, later, self.key)
      else
        && props.key != self.key
        && (cmp == Some(Less) || NotIncluded(props, self) ==> Explained(d, self.key, visited, stack))
  {
    assert self.key in st && props.key in st;
    hide Indexed; hide Snapshot; hide Explained; hide Under; hide NotIncluded; hide Le;
    IndexedIsFull(d, st, fin);
    PartialCmpSound(d, st, fin, props, self);
    SelfIsSelf(d, self.key);
    var cmp := PartialCmp(props, self);
    if cmp == Some(Equal) || cmp == Some(Greater) {
      UnderTransitive(d, later, self.key, props.key);
    } else if cmp == Some(Less) || NotIncluded(props, self) {
      if cmp == None { NotIncludedSound(d, st, fin, props, self); }
      ExplainedStep(d, self.key, visited, stack, props.key, visited, stack);
    }
  }

  /**
   * Whether the unit of `self` is included in, or is, one of `later`. Every joint is read
   * at a moment of its own, as is `self`; the answer is plain reachability all the same.
   */
  method IsAncestor(d: Dag, st: Statics, ghost fin: Marks, self: UnitProps, later: seq<Hash>,
      read: map<Hash, UnitProps>)
    returns (r: bool)
    requires Indexed(d, st, fin) && Snapshot(st, fin, self)
    requires forall u :: u in later ==> u in d.units
    requires forall u :: u in d.units ==> u in read && read[u].key == u && Snapshot(st, fin, read[u])
    ensures r <==> Under(d, later, self.key)
  {
    hide *;
    IndexedIsFull(d, st, fin);
    var a := self.key;
    var visited, stack := PushUnvisited(later, {}, []);
    Start(d, a, later, visited, stack);
    while stack != []
      invariant forall u :: u in stack ==> u in visited
      invariant forall u :: u in later ==> u in visited
      invariant forall u :: u in visited ==> u in d.units && Under(d, later, u)
      invariant Explained(d, a, visited, stack)
      decreases d.units.Keys - visited, |stack|
    {
      var v := stack[|stack| - 1];
      var props := read[v];
      assert v in visited && stack == stack[..|stack| - 1] + [v];
      stack := stack[..|stack| - 1];
      Pop(d, st, fin, self, later, visited, stack, props);
      var cmp := PartialCmp(props, self);
      if cmp == Some(Equal) || cmp == Some(Greater) {
        return true;
      }
      if cmp == Some(Less) {
        continue;
      }
      if NotIncluded(props, self) {
        continue;
      }
      ghost var before, held := visited, stack;
      visited, stack := PushUnvisited(d.units[v].parents, visited, stack);
      ExplainedStep(d, a, before, held, v, visited, stack);
      ParentsIncluded(d, v, later);
    }
    NoneFound(d, a, later, visited);
    return false;
  }

  lemma Start(d: Dag, a: Hash, later: seq<Hash>, visited: set<Hash>, stack: seq<Hash>)
    requires WellFormed(d) && (forall u :: u in visited ==> u in stack) && (forall u :: u in later ==> u in d.units)
    ensures Explained(d, a, visited, stack)
    ensures forall u :: u in later ==> Under(d, later, u)
  {
    forall u | u in later ensures Under(d, later, u) { assert Le(d, u, u); }
  }

  lemma ParentsIncluded(d: Dag, v: Hash, later: seq<Hash>)
    requires WellFormed(d) && v in d.units && Under(d, later, v)
    ensures forall p :: p in d.units[v].parents ==> p in d.units && Under(d, later, p)
  {
    var j :| j in later && Le(d, v, j);
    forall p | p in d.units[v].parents ensures p in d.units && Le(d, p, j) {
      assert Le(d, p, p) && Le(d, p, v);
      LeTransitive(d, p, v, j);
    }
  }

  // ---------------------------------------------------------------- joint comparison

  /** The units normalised so far: a set holding the parents of its members. */
  ghost predicate KnownClosed(d: Dag, known: set<Hash>)
  {
    known <= d.units.Keys && forall u, p :: u in known && p in d.units[u].parents ==> p in known
  }

  /** `free` are the known units no known unit has as a parent: child lists mirror parent lists. */
  ghost predicate FreeOk(d: Dag, known: set<Hash>, free: set<Hash>)
    requires KnownClosed(d, known)
  {
    forall u :: u in known ==> (u in free <==> forall c :: c in known ==> u !in d.units[c].parents)
  }

  /** A proper ancestor of a known unit has a known child. */
  lemma {:induction false} AncestorHasChild(d: Dag, known: set<Hash>, a: Hash, u: Hash) returns (c: Hash)
    requires WellFormed(d) && KnownClosed(d, known) && u in known && Lt(d, a, u)
    ensures c in known && a in d.units[c].parents
    decreases Rank(d, u)
  {
    var p :| p in d.units[u].parents && Le(d, a, p);
    if a == p {
      c := u;
    } else {
      c := AncestorHasChild(d, known, a, p);
    }
  }

  lemma FreeAreUnrelated(d: Dag, known: set<Hash>, free: set<Hash>, a: Hash, b: Hash)
    requires WellFormed(d) && KnownClosed(d, known) && FreeOk(d, known, free) && a in known && b in known && a in free
    ensures !Lt(d, a, b)
  {
    if Lt(d, a, b) { var c := AncestorHasChild(d, known, a, b); }
  }

  /** Inclusion in one of the parents is proper inclusion in the unit. */
  lemma UnderParents(d: Dag, a: Hash, u: Hash)
    requires WellFormed(d) && u in d.units
    ensures Under(d, d.units[u].parents, a) <==> Lt(d, a, u)
  {
    if Under(d, d.units[u].parents, a) {
      var p :| p in d.units[u].parents && Le(d, a, p);
      LeRank(d, a, p);
    }
  }

  /** What equal keys, the fast path, levels and pruning decide before any search. */
  lemma FastPath(d: Dag, st: Statics, fin: Marks, a: UnitProps, b: UnitProps)
    requires Indexed(d, st, fin) && Snapshot(st, fin, a) && Snapshot(st, fin, b) && a.key != b.key && WellFormed(d)
    ensures a.level != INVALID && b.level != INVALID && PartialCmp(a, b) != Some(Equal)
    ensures PartialCmp(a, b) == Some(Less) ==> Lt(d, a.key, b.key) && !Lt(d, b.key, a.key)
    ensures PartialCmp(a, b) == Some(Greater) ==> Lt(d, b.key, a.key) && !Lt(d, a.key, b.key)
    ensures a.level.Le(b.level) ==> !Lt(d, b.key, a.key)
    ensures b.level.Le(a.level) ==> !Lt(d, a.key, b.key)
    ensures NotIncluded(a, b) ==> !Lt(d, b.key, a.key)
    ensures NotIncluded(b, a) ==> !Lt(d, a.key, b.key)
  {
    hide Indexed; hide Le; hide Snapshot;
    PartialCmpSound(d, st, fin, a, b);
    if NotIncluded(a, b) { NotIncludedSound(d, st, fin, a, b); }
    if NotIncluded(b, a) { NotIncludedSound(d, st, fin, b, a); }
    NumbersAreFinal(st, fin, a);
    NumbersAreFinal(st, fin, b);
    IndexedIsFull(d, st, fin);
    SnapshotLevel(d, st, fin, a);
    SnapshotLevel(d, st, fin, b);
  }

  lemma SnapshotLevel(d: Dag, st: Statics, fin: Marks, a: UnitProps)
    requires Indexed(d, st, fin) && Snapshot(st, fin, a)
    ensures a.level.value >= 0
  {
    NumbersAreFinal(st, fin, a);
    LevelNonNegative(d, st, a.key);
  }

  /** Compare two normalised joints: the answer is plain reachability, in both directions. */
  method CompareJoints(d: Dag, st: Statics, ghost fin: Marks, ghost known: set<Hash>, free: set<Hash>,
                       a: Hash, b: Hash, read: map<Hash, UnitProps>)
    returns (r: Option<Ordering>)
    requires Indexed(d, st, fin) && KnownClosed(d, known) && FreeOk(d, known, free) && a in known && b in known
    requires forall u :: u in d.units ==> u in read && read[u].key == u && Snapshot(st, fin, read[u])
    ensures r == Some(Equal) <==> a == b
    ensures r == Some(Less) <==> Lt(d, a, b)
    ensures r == Some(Greater) <==> Lt(d, b, a)
  {
    if a == b {
      return Some(Equal);
    }
    assert a in d.units && b in d.units;
    hide *;
    IndexedIsFull(d, st, fin);
    OneWay(d, a, b);
    if a in free && b in free {
      FreeAreUnrelated(d, known, free, a, b);
      FreeAreUnrelated(d, known, free, b, a);
      return None;
    }
    var pa, pb := read[a], read[b];
    FastPath(d, st, fin, pa, pb);
    var cmp := PartialCmp(pa, pb);
    if cmp == Some(Less) || cmp == Some(Greater) {
      return cmp;
    }
    UnderParents(d, a, b);
    UnderParents(d, b, a);
    ParentsKnown(d, a);
    ParentsKnown(d, b);
    if pa.level.Eq(pb.level) {
      r := None;
    } else if pb.level.Lt(pa.level) {
      if NotIncluded(pa, pb) {
        return None;
      }
      var included := IsAncestor(d, st, fin, pb, d.units[a].parents, read);
      r := if included then Some(Greater) else None;
    } else {
      if NotIncluded(pb, pa) {
        return None;
      }
      var included := IsAncestor(d, st, fin, pa, d.units[b].parents, read);
      r := if included then Some(Less) else None;
    }
  }

  lemma OneWay(d: Dag, a: Hash, b: Hash)
    requires WellFormed(d)
    ensures !(Lt(d, a, b) && Lt(d, b, a))
  {
    if Lt(d, a, b) && Lt(d, b, a) { LeAntisymmetric(d, a, b); }
  }

  lemma ParentsKnown(d: Dag, u: Hash)
    requires WellFormed(d) && u in d.units
    ensures forall p :: p in d.units[u].parents ==> p in d.units
  {
  }
}
