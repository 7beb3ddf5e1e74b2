/** No parent of a unit may include another one (src/validation.rs). */
module Validation {
  import opened Collections
  import opened Dag
  import opened StaticProps
  import opened MainChain
  import opened Ancestor

  ghost predicate Descending(st: Statics, s: seq<Hash>)
  {
    && (forall i :: 0 <= i < |s| ==> s[i] in st)
    && forall i, j :: 0 <= i < j < |s| ==> st[s[i]].level >= st[s[j]].level
  }

  /** Insertion behind every unit of the same or a higher level. */
  function InsertByLevel(st: Statics, x: Hash, s: seq<Hash>): (r: seq<Hash>)
    requires x in st && Descending(st, s)
    ensures Descending(st, r) && multiset(r) == multiset(s) + multiset{x}
    ensures forall y :: y in r <==> y == x || y in s
  {
    if s == [] then [x]
    else if st[x].level > st[s[0]].level then [x] + s
    else
      var t := InsertByLevel(st, x, s[1..]);
      assert s == [s[0]] + s[1..];
      PrependKeeps(st, s[0], t);
      [s[0]] + t
  }

  lemma PrependKeeps(st: Statics, x: Hash, t: seq<Hash>)
    requires x in st && Descending(st, t) && forall y :: y in t ==> y in st && st[y].level <= st[x].level
    ensures Descending(st, [x] + t)
  {
  }

  function SortByLevel(st: Statics, s: seq<Hash>): (r: seq<Hash>)
    requires forall i :: 0 <= i < |s| ==> s[i] in st
    ensures Descending(st, r) && multiset(r) == multiset(s)
  {
    if s == [] then []
    else
      var n := |s| - 1;
      assert s == s[..n] + [s[n]];
      InsertByLevel(st, s[n], SortByLevel(st, s[..n]))
  }

  lemma {:induction false} DistinctByCount(s: seq<Hash>)
    ensures Distinct(s) <==> forall x :: multiset(s)[x] <= 1
  {
    if s != [] {
      var n := |s| - 1;
      DistinctByCount(s[..n]);
      assert s == s[..n] + [s[n]];
      assert s[n] in s[..n] <==> multiset(s[..n])[s[n]] >= 1;
      if Distinct(s) {
        assert s[n] !in s[..n];
      } else if Distinct(s[..n]) {
        assert multiset(s)[s[n]] >= 2;
      } else {
        var x :| multiset(s[..n])[x] > 1;
        assert multiset(s)[x] > 1;
      }
    }
  }

  /** The units of `s` are different and none includes another. */
  ghost predicate Unrelated(d: Dag, s: seq<Hash>)
    requires WellFormed(d)
  {
    Distinct(s) && forall a, b :: a in s && b in s && a != b ==> !Le(d, a, b)
  }

  lemma UnrelatedPermuted(d: Dag, s: seq<Hash>, t: seq<Hash>)
    requires WellFormed(d) && multiset(s) == multiset(t)
    ensures Unrelated(d, s) <==> Unrelated(d, t)
  {
    DistinctByCount(s);
    DistinctByCount(t);
    assert forall x :: x in s <==> x in multiset(s);
    assert forall x :: x in t <==> x in multiset(t);
  }

  /** From position `n` on, no unit is included in one before it. */
  ghost predicate ClearFrom(d: Dag, s: seq<Hash>, n: nat)
    requires WellFormed(d)
  {
    forall j :: n <= j < |s| ==> !Under(d, s[..j], s[j])
  }

  /** In descending order it suffices to look at the units before. */
  lemma ClearIsUnrelated(d: Dag, st: Statics, s: seq<Hash>)
    requires Full(d, st) && Descending(st, s)
    ensures ClearFrom(d, s, 0) <==> Unrelated(d, s)
  {
    if ClearFrom(d, s, 0) {
      forall i, j | 0 <= i < j < |s| ensures s[i] != s[j] && !Le(d, s[j], s[i]) {
        assert s[i] in s[..j];
        assert Le(d, s[i], s[i]);
        assert !Under(d, s[..j], s[j]);
      }
      forall a, b | a in s && b in s && a != b ensures !Le(d, a, b) {
        var i :| 0 <= i < |s| && s[i] == a;
        var j :| 0 <= j < |s| && s[j] == b;
        if i < j && Le(d, a, b) { LevelIncreases(d, st, a, b); }
      }
    }
    if Unrelated(d, s) {
      forall j | 0 <= j < |s| ensures !Under(d, s[..j], s[j]) {
        assert forall x :: x in s[..j] ==> x in s && x != s[j];
      }
    }
  }

  /**
   * The loop of validate_parents: by descending level, the lowest parent is popped and must
   * not be included in the rest. Each parent's own numbers may be read at a moment of their own.
   */
  method ParentsUnrelated(d: Dag, st: Statics, ghost fin: Marks, parents: seq<Hash>, own: map<Hash, UnitProps>,
      read: map<Hash, UnitProps>)
    returns (ok: bool)
    requires Indexed(d, st, fin) && WellFormed(d) && forall i :: 0 <= i < |parents| ==> parents[i] in st
    requires forall u :: u in d.units ==> u in own && own[u].key == u && Snapshot(st, fin, own[u])
    requires forall u :: u in d.units ==> u in read && read[u].key == u && Snapshot(st, fin, read[u])
    ensures ok <==> Unrelated(d, parents)
  {
    hide *;
    var s := SortByLevel(st, parents);
    SortedParents(d, st, fin, parents);
    var n := |s|;
    ClearEnd(d, s);
    while n > 0
      invariant 0 <= n <= |s| && ClearFrom(d, s, n)
    {
      n := n - 1;
      ClearStep(d, s, n);
      var included := IsAncestor(d, st, fin, own[s[n]], s[..n], read);
      if included {
        return false;
      }
    }
    return true;
  }

  lemma SortedParents(d: Dag, st: Statics, fin: Marks, parents: seq<Hash>)
    requires Indexed(d, st, fin) && WellFormed(d) && forall i :: 0 <= i < |parents| ==> parents[i] in st
    ensures var s := SortByLevel(st, parents);
      (ClearFrom(d, s, 0) <==> Unrelated(d, parents)) && forall u :: u in s ==> u in d.units
  {
    IndexedIsFull(d, st, fin);
    hide Indexed; hide Unrelated; hide ClearFrom;
    var s := SortByLevel(st, parents);
    UnrelatedPermuted(d, parents, s);
    ClearIsUnrelated(d, st, s);
  }

  lemma ClearEnd(d: Dag, s: seq<Hash>)
    requires WellFormed(d)
    ensures ClearFrom(d, s, |s|)
  {
  }

  lemma ClearStep(d: Dag, s: seq<Hash>, n: nat)
    requires WellFormed(d) && n < |s| && ClearFrom(d, s, n + 1)
    ensures ClearFrom(d, s, n) <==> !Under(d, s[..n], s[n])
    ensures ClearFrom(d, s, 0) ==> ClearFrom(d, s, n)
  {
  }
}
