/**
 * Whole runs of the joint cache: adding, looking, normalising, purging bad joints and
 * collecting old free ones, in any order.
 */
module CacheRun {
  import opened Collections
  import opened Dag
  import opened Cache

  // ---------------------------------------------------------------- normalising

  predicate HasKeys(d: Dag, s: State, c: Hash)
  {
    c in d.units && c in s.resolved && c in s.count && c in s.fired
  }

  predicate AllKeys(d: Dag, s: State, kids: seq<Hash>)
  {
    forall i :: 0 <= i < |kids| ==> HasKeys(d, s, kids[i])
  }

  /** Telling the waiting joints `kids`, first to last, that `u` is normal. */
  function TellAll(d: Dag, s: State, u: Hash, kids: seq<Hash>): (r: State)
    requires u in s.refs && AllKeys(d, s, kids)
    ensures r.refs.Keys == s.refs.Keys && r.resolved.Keys == s.resolved.Keys
    ensures r.count.Keys == s.count.Keys && r.fired.Keys == s.fired.Keys
    ensures forall c :: c in s.fired && c !in kids ==> r.fired[c] == s.fired[c]
    ensures r.normal == s.normal && r.unhandled == s.unhandled && r.bad == s.bad && r.missing == s.missing
    ensures r.orphans == s.orphans
  {
    if kids == [] then s
    else
      var c := kids[|kids| - 1];
      assert HasKeys(d, s, c);
      var t := TellAll(d, s, u, kids[..|kids| - 1]);
      ResolveFields(d, t, u, c);
      hide Resolve;
      Resolve(d, t, u, c)
  }

  lemma ResolveFields(d: Dag, s: State, u: Hash, c: Hash)
    requires u in s.refs && HasKeys(d, s, c)
    ensures var r := Resolve(d, s, u, c);
      && r.refs.Keys == s.refs.Keys && r.resolved.Keys == s.resolved.Keys
      && r.count.Keys == s.count.Keys && r.fired.Keys == s.fired.Keys
      && (forall b :: b in s.fired && b != c ==> r.fired[b] == s.fired[b])
      && r.normal == s.normal && r.unhandled == s.unhandled && r.bad == s.bad && r.missing == s.missing
      && r.orphans == s.orphans
  {
  }

  predicate Waited(d: Dag, s: State, u: Hash)
  {
    u in s.refs && u in s.resolved && AllKeys(d, s, Waiting(s, u))
  }

  /** normalize_joint. */
  function Normalize(d: Dag, s: State, u: Hash): State
    requires Waited(d, s, u)
  {
    TellAll(d, Promote(d, s, u), u, Waiting(s, u))
  }

  lemma CanTellAfter(d: Dag, s: State, u: Hash, c: Hash, b: Hash)
    requires Disjoint(s) && CanTell(d, s, u, c) && CanTell(d, s, u, b) && b != c
    ensures CanTell(d, Resolve(d, s, u, c), u, b)
  {
    var t := Tell(s, u, c);
    TellShape(d, s, u, c);
    var r := Resolve(d, s, u, c);
    assert Lacks(d, t, b, u);
    if Doomed(d, s, b) { DoomedAfter(d, s, u, c, b); }
  }

  lemma DoomedAfter(d: Dag, s: State, u: Hash, c: Hash, b: Hash)
    requires Disjoint(s) && CanTell(d, s, u, c) && Doomed(d, s, b)
    ensures Doomed(d, Resolve(d, s, u, c), b)
  {
    var t := Tell(s, u, c);
    TellShape(d, s, u, c);
    assert Doomed(d, t, b);
    DoomedFrame(d, t, Poll(d, t, c));
  }

  /** After the first `n` waiting joints have been told. */
  lemma {:induction false} TellAllKeeps(d: Dag, s: State, u: Hash, kids: seq<Hash>, n: nat, unpolled: set<Hash>)
    requires InvWhile(d, s, Telling(u, kids), {}, unpolled) && n <= |kids| && u in s.refs
    requires forall i, j :: 0 <= i < j < |kids| ==> kids[i] != kids[j]
    requires AllKeys(d, s, kids) && forall i :: 0 <= i < |kids| ==> CanTell(d, s, u, kids[i])
    ensures InvWhile(d, TellAll(d, s, u, kids[..n]), Telling(u, kids[n..]), {}, unpolled)
    ensures forall i :: n <= i < |kids| ==> CanTell(d, TellAll(d, s, u, kids[..n]), u, kids[i])
    ensures forall b :: Doomed(d, s, b) ==> Doomed(d, TellAll(d, s, u, kids[..n]), b)
  {
    hide InvWhile; hide CanTell; hide Resolve; hide Doomed; hide Telling;
    if n == 0 {
      assert kids[n..] == kids && kids[..n] == [];
    } else {
      var m := n - 1;
      TellAllKeeps(d, s, u, kids, m, unpolled);
      assert kids[..n][..|kids[..n]| - 1] == kids[..m] && kids[..n][|kids[..n]| - 1] == kids[m];
      assert HasKeys(d, s, kids[m]);
      TellNext(d, TellAll(d, s, u, kids[..m]), u, kids, m, unpolled);
    }
  }

  lemma TellNext(d: Dag, t: State, u: Hash, kids: seq<Hash>, m: nat, unpolled: set<Hash>)
    requires m < |kids| && HasKeys(d, t, kids[m]) && u in t.refs
    requires forall i, j :: 0 <= i < j < |kids| ==> kids[i] != kids[j]
    requires InvWhile(d, t, Telling(u, kids[m..]), {}, unpolled)
    requires forall i :: m <= i < |kids| ==> CanTell(d, t, u, kids[i])
    ensures InvWhile(d, Resolve(d, t, u, kids[m]), Telling(u, kids[m + 1..]), {}, unpolled)
    ensures forall i :: m + 1 <= i < |kids| ==> CanTell(d, Resolve(d, t, u, kids[m]), u, kids[i])
    ensures forall b :: Doomed(d, t, b) ==> Doomed(d, Resolve(d, t, u, kids[m]), b)
  {
    hide InvWhile; hide CanTell; hide Resolve; hide Doomed; hide Disjoint;
    var c := kids[m];
    ResolveKeeps(d, t, u, c, Telling(u, kids[m..]), unpolled);
    assert Telling(u, kids[m..]) - iset{(c, u)} == Telling(u, kids[m + 1..]);
    hide Telling;
    InvDisjoint(d, t, Telling(u, kids[m..]), unpolled);
    forall i | m + 1 <= i < |kids|
      ensures CanTell(d, Resolve(d, t, u, c), u, kids[i])
    {
      CanTellAfter(d, t, u, c, kids[i]);
    }
    forall b | Doomed(d, t, b) ensures Doomed(d, Resolve(d, t, u, c), b) { DoomedAfter(d, t, u, c, b); }
  }

  lemma InvDisjoint(d: Dag, s: State, exempt: iset<(Hash, Hash)>, unpolled: set<Hash>)
    requires InvWhile(d, s, exempt, {}, unpolled)
    ensures Disjoint(s)
  {
    hide Disjoint;
  }

  lemma WaitersCanBeTold(d: Dag, s: State, u: Hash, unpolled: set<Hash>)
    requires Inv(d, s, unpolled) && CanPromote(d, s, u)
    ensures Waited(d, s, u) && AllKeys(d, Promote(d, s, u), Waiting(s, u)) && u in Promote(d, s, u).refs
    ensures forall i :: 0 <= i < |Waiting(s, u)| ==> CanTell(d, Promote(d, s, u), u, Waiting(s, u)[i])
    ensures forall i, j :: 0 <= i < j < |Waiting(s, u)| ==> Waiting(s, u)[i] != Waiting(s, u)[j]
  {
    InvParts(d, s, unpolled);
    PromoteShape(d, s, u);
    var s' := Promote(d, s, u);
    var kids := Waiting(s, u);
    hide Inv; hide UnitsOk; hide ResolvedOk; hide ChildrenOk; hide RefsOk; hide FiredOk; hide Doomed; hide Lacks;
    hide Complete; hide Promote;
    forall i | 0 <= i < |kids| ensures HasKeys(d, s, kids[i]) && CanTell(d, s', u, kids[i]) && HasKeys(d, s', kids[i]) {
      assert kids[i] in Waiting(s, u);
      assert Lacks(d, s', kids[i], u);
      assert HasData(d, s', kids[i]);
    }
  }

  /** Normalising a complete joint keeps the cache consistent, and triggers who is complete now. */
  lemma NormalizeKeeps(d: Dag, s: State, u: Hash, unpolled: set<Hash>)
    requires Inv(d, s, unpolled) && CanPromote(d, s, u)
    ensures Waited(d, s, u) && Inv(d, Normalize(d, s, u), unpolled)
    ensures forall b :: Doomed(d, s, b) ==> Doomed(d, Normalize(d, s, u), b)
  {
    WaitersCanBeTold(d, s, u, unpolled);
    PromoteKeeps(d, s, u, unpolled);
    PromoteShape(d, s, u);
    var kids := Waiting(s, u);
    hide CanPromote; hide InvWhile; hide Promote; hide TellAll; hide CanTell; hide Doomed; hide Waiting;
    TellAllKeeps(d, Promote(d, s, u), u, kids, |kids|, unpolled);
    assert kids[..|kids|] == kids && Telling(u, kids[|kids|..]) == iset{};
    assert forall b {:trigger Doomed(d, s, b)} :: Doomed(d, s, b) ==> Doomed(d, Promote(d, s, u), b);
  }

  // ---------------------------------------------------------------- purging bad joints

  /** Pushing the joints that are not on the stack yet. */
  function Push(stack: seq<Hash>, kids: seq<Hash>): (r: seq<Hash>)
    ensures Elements(r) == Elements(stack) + Elements(kids)
  {
    if kids == [] then stack
    else
      var n := |kids| - 1;
      var r := Push(stack, kids[..n]);
      LastElement(kids);
      LastElement(r + [kids[n]]);
      assert (r + [kids[n]])[..|r|] == r;
      if kids[n] in r then r else r + [kids[n]]
  }

  lemma Fewer(m: map<Hash, seq<Hash>>, u: Hash)
    ensures u in m ==> |m - {u}| < |m|
    ensures u !in m ==> m - {u} == m
  {
    assert (m - {u}).Keys == m.Keys - {u};
  }

  /** The joints still to purge once the last one of the stack is gone: whoever waits for it is pushed. */
  function After(s: State, stack: seq<Hash>): (r: seq<Hash>)
    requires stack != []
    ensures Elements(r) == Elements(stack[..|stack| - 1]) + Elements(Waiting(s, stack[|stack| - 1]))
    ensures Waiting(s, stack[|stack| - 1]) == [] ==> |r| < |stack|
  {
    Push(stack[..|stack| - 1], Waiting(s, stack[|stack| - 1]))
  }

  lemma PurgeOneFields(s: State, u: Hash)
    ensures var r := PurgeOne(s, u);
      && r.missing == s.missing - {u} && r.bad == s.bad + {u} && r.unhandled <= s.unhandled
      && r.normal == s.normal && r.free == s.free && r.children == s.children
      && r.resolved == s.resolved && r.count == s.count && r.fired == s.fired && r.refs.Keys == s.refs.Keys
      && r.orphans == s.orphans && r.late == s.late
  {
    assert Released(s, u).Keys == s.refs.Keys;
    hide Waiting; hide Released;
  }

  lemma PurgeOneFrame(s: State, u: Hash)
    ensures var r := PurgeOne(s, u);
      && r.missing == s.missing - {u} && r.bad == s.bad + {u} && r.unhandled <= s.unhandled
      && r.normal == s.normal && r.free == s.free && r.children == s.children
      && r.resolved == s.resolved && r.count == s.count && r.fired == s.fired && r.refs.Keys == s.refs.Keys
      && r.orphans == s.orphans && r.late == s.late
    ensures |PurgeOne(s, u).missing| < |s.missing| || (PurgeOne(s, u).missing == s.missing && Waiting(s, u) == [])
  {
    hide PurgeOne;
    PurgeOneFields(s, u);
    Fewer(s.missing, u);
  }

  /** purge_bad_joint: the last joint of the stack goes first. */
  function PurgeAll(s: State, stack: seq<Hash>): State
    decreases |s.missing|, |stack|
  {
    if stack == [] then s
    else
      PurgeOneFrame(s, stack[|stack| - 1]);
      PurgeAll(PurgeOne(s, stack[|stack| - 1]), After(s, stack))
  }

  lemma {:induction false} PurgeAllFrame(s: State, stack: seq<Hash>)
    ensures var r := PurgeAll(s, stack);
      && r.normal == s.normal && r.free == s.free && r.children == s.children
      && r.resolved == s.resolved && r.count == s.count && r.fired == s.fired && r.refs.Keys == s.refs.Keys
      && r.orphans == s.orphans && r.late == s.late
      && s.bad + Elements(stack) <= r.bad && r.unhandled <= s.unhandled
    decreases |s.missing|, |stack|
  {
    hide PurgeOne; hide After; hide Elements;
    if stack == [] {
      assert Elements(stack) == {} by { NoElements(stack); }
    } else {
      LastElement(stack);
      PurgeOneFrame(s, stack[|stack| - 1]);
      PurgeAllFrame(PurgeOne(s, stack[|stack| - 1]), After(s, stack));
    }
  }

  lemma NoElements(stack: seq<Hash>)
    requires stack == []
    ensures Elements(stack) == {}
  {
  }

  lemma LastElement(stack: seq<Hash>)
    requires stack != []
    ensures Elements(stack) == Elements(stack[..|stack| - 1]) + {stack[|stack| - 1]}
  {
  }

  lemma {:induction false} PurgeAllKeeps(d: Dag, s: State, stack: seq<Hash>, unpolled: set<Hash>)
    requires InvWhile(d, s, AllOf(Elements(stack)), Elements(stack), unpolled)
    requires forall c :: c in Elements(stack) ==> Purgeable(d, s, c)
    ensures Inv(d, PurgeAll(s, stack), unpolled)
    decreases |s.missing|, |stack|
  {
    hide InvWhile; hide Purgeable; hide PurgeOne; hide Elements; hide After; hide AllOf;
    if stack == [] {
      NoElements(stack);
      assert AllOf({}) == iset{} by { NoPairs(); }
    } else {
      LastElement(stack);
      var u := stack[|stack| - 1];
      PurgeKeeps(d, s, u, Elements(stack[..|stack| - 1]), unpolled);
      PurgeOneFrame(s, u);
      PurgeAllKeeps(d, PurgeOne(s, u), After(s, stack), unpolled);
    }
  }

  lemma NoPairs()
    ensures AllOf({}) == iset{}
  {
  }

  lemma StartPurge(d: Dag, s: State, u: Hash, unpolled: set<Hash>)
    requires Inv(d, s, unpolled)
    ensures InvWhile(d, s, AllOf(Elements([u])), Elements([u]), unpolled)
  {
    hide UnitsOk; hide Disjoint; hide DataOk; hide ResolvedOk; hide ChildrenOk; hide RefsOk; hide FiredOk;
    hide Lacks; hide Waiting;
    hide WaitersOk; hide ListedOnce; hide Doomed;
  }

  /** `path` leads from `u` to a joint, each waiting for the one before. */
  ghost predicate WaitPath(s: State, u: Hash, path: seq<Hash>)
  {
    && path != []
    && var n := |path| - 1;
       if n == 0 then path[n] == u else path[n] in Waiting(s, path[n - 1]) && WaitPath(s, u, path[..n])
  }

  /** `c` is `u` or waits, directly or through others, for `u`. */
  ghost predicate Hangs(s: State, u: Hash, c: Hash)
  {
    exists path :: WaitPath(s, u, path) && path[|path| - 1] == c
  }

  lemma HangsSelf(s: State, u: Hash)
    ensures Hangs(s, u, u)
  {
    assert WaitPath(s, u, [u]);
  }

  lemma HangsStep(s: State, u: Hash, c: Hash, k: Hash)
    requires Hangs(s, u, c) && k in Waiting(s, c)
    ensures Hangs(s, u, k)
  {
    var path :| WaitPath(s, u, path) && path[|path| - 1] == c;
    var longer := path + [k];
    assert longer[..|longer| - 1] == path;
    assert WaitPath(s, u, longer) && longer[|longer| - 1] == k;
  }

  /** `s` is what is left of `s0` while purging `u`: only joints hanging on `u` have become bad. */
  ghost predicate Left(s0: State, s: State, u: Hash)
  {
    && (forall p {:trigger Waiting(s, p)} :: Waiting(s, p) == [] || Waiting(s, p) == Waiting(s0, p))
    && (forall c {:trigger c in s.bad} :: c in s.bad ==> c in s0.bad || Hangs(s0, u, c))
    && s.unhandled == s0.unhandled - s.bad
  }

  lemma LeftStep(s0: State, s: State, u: Hash, x: Hash)
    requires Left(s0, s, u) && Hangs(s0, u, x)
    ensures Left(s0, PurgeOne(s, x), u)
    ensures forall k :: k in Waiting(s, x) ==> Hangs(s0, u, k)
  {
    forall k | k in Waiting(s, x) ensures Hangs(s0, u, k) { HangsStep(s0, u, x, k); }
    PurgeOneFields(s, x);
    var s' := PurgeOne(s, x);
    assert forall p :: Waiting(s', p) == if p == x then [] else Waiting(s, p);
    hide Hangs; hide PurgeOne; hide Waiting;
    assert s'.unhandled == s0.unhandled - s'.bad;
  }

  lemma {:induction false} PurgeAllOnlyHanging(s0: State, s: State, u: Hash, stack: seq<Hash>)
    requires Left(s0, s, u) && forall x :: x in Elements(stack) ==> Hangs(s0, u, x)
    ensures Left(s0, PurgeAll(s, stack), u)
    decreases |s.missing|, |stack|
  {
    hide Left; hide Hangs; hide PurgeOne; hide Elements; hide After;
    if stack != [] {
      LastElement(stack);
      var x := stack[|stack| - 1];
      LeftStep(s0, s, u, x);
      WaitersAreElements(s, x);
      PurgeOneFrame(s, x);
      PurgeAllOnlyHanging(s0, PurgeOne(s, x), u, After(s, stack));
    }
  }

  lemma WaitersAreElements(s: State, x: Hash)
    ensures forall k :: k in Elements(Waiting(s, x)) <==> k in Waiting(s, x)
  {
  }

  /** Of the joints `done`, everyone waiting for them is done or on the stack; the other lists are as they were. */
  ghost predicate Covered(s0: State, s: State, done: set<Hash>, todo: set<Hash>)
  {
    && done <= s.bad
    && (forall x, k {:trigger x in done, k in Waiting(s0, x)} :: x in done && k in Waiting(s0, x) ==>
         k in done || k in todo)
    && (forall p {:trigger Waiting(s, p)} :: p !in done ==> Waiting(s, p) == Waiting(s0, p))
  }

  lemma CoveredStep(s0: State, s: State, done: set<Hash>, stack: seq<Hash>)
    requires stack != [] && Covered(s0, s, done, Elements(stack))
    ensures Covered(s0, PurgeOne(s, stack[|stack| - 1]), done + {stack[|stack| - 1]}, Elements(After(s, stack)))
  {
    var x := stack[|stack| - 1];
    var s' := PurgeOne(s, x);
    LastElement(stack);
    WaitersAreElements(s, x);
    PurgeOneFields(s, x);
    assert forall p :: p != x ==> Waiting(s', p) == Waiting(s, p);
    hide PurgeOne; hide After; hide Elements; hide Waiting;
  }

  lemma {:induction false} HangsCovered(s0: State, done: set<Hash>, u: Hash, path: seq<Hash>)
    requires u in done && WaitPath(s0, u, path)
    requires forall x, k {:trigger x in done, k in Waiting(s0, x)} :: x in done && k in Waiting(s0, x) ==> k in done
    ensures path[|path| - 1] in done
  {
    var n := |path| - 1;
    if n > 0 {
      HangsCovered(s0, done, u, path[..n]);
      assert path[..n][|path[..n]| - 1] == path[n - 1];
    }
  }

  /** Whatever hangs on a joint of the stack is purged. */
  lemma {:induction false} PurgeAllReaches(s0: State, s: State, done: set<Hash>, stack: seq<Hash>, u: Hash, c: Hash)
    requires Covered(s0, s, done, Elements(stack)) && (u in done || u in Elements(stack)) && Hangs(s0, u, c)
    ensures c in PurgeAll(s, stack).bad
    decreases |s.missing|, |stack|
  {
    hide PurgeOne; hide Elements; hide After; hide Covered; hide Hangs;
    if stack == [] {
      NoElements(stack);
      CoveredEnd(s0, s, done, u, c);
    } else {
      LastElement(stack);
      var x := stack[|stack| - 1];
      CoveredStep(s0, s, done, stack);
      PurgeOneFrame(s, x);
      PurgeAllReaches(s0, PurgeOne(s, x), done + {x}, After(s, stack), u, c);
    }
  }

  lemma CoveredEnd(s0: State, s: State, done: set<Hash>, u: Hash, c: Hash)
    requires Covered(s0, s, done, {}) && u in done && Hangs(s0, u, c)
    ensures c in s.bad
  {
    var path :| WaitPath(s0, u, path) && path[|path| - 1] == c;
    HangsCovered(s0, done, u, path);
  }

  /** The waiting lists of joints that are not purged stay. */
  lemma {:induction false} PurgeAllWaiting(s: State, stack: seq<Hash>, p: Hash)
    requires p !in PurgeAll(s, stack).bad
    ensures Waiting(PurgeAll(s, stack), p) == Waiting(s, p)
    decreases |s.missing|, |stack|
  {
    hide PurgeOne; hide After; hide Elements;
    if stack != [] {
      var x := stack[|stack| - 1];
      PurgeOneFrame(s, x);
      PurgeAllFrame(PurgeOne(s, x), After(s, stack));
      PurgeAllWaiting(PurgeOne(s, x), After(s, stack), p);
    }
  }

  /**
   * Purging a bad joint removes it and exactly the joints that wait for it, directly or
   * through others, and touches no normal or free joint.
   */
  lemma PurgeBadExact(d: Dag, s: State, u: Hash, unpolled: set<Hash>)
    requires Inv(d, s, unpolled) && Purgeable(d, s, u)
    ensures var r := PurgeAll(s, [u]);
      && Inv(d, r, unpolled)
      && (forall c :: c in r.bad <==> c in s.bad || Hangs(s, u, c))
      && r.unhandled == s.unhandled - r.bad
      && r.normal == s.normal && r.free == s.free
      && (forall p :: p !in r.bad ==> Waiting(r, p) == Waiting(s, p))
  {
    var r := PurgeAll(s, [u]);
    forall p | p !in r.bad ensures Waiting(r, p) == Waiting(s, p) { PurgeAllWaiting(s, [u], p); }
    hide Waiting;
    PurgeAllFrame(s, [u]);
    StartPurge(d, s, u, unpolled);
    hide Purgeable; hide PurgeOne;
    assert forall c :: c in Elements([u]) <==> c == u;
    PurgeAllKeeps(d, s, [u], unpolled);
    HangsSelf(s, u);
    assert Disjoint(s) by { InvParts(d, s, unpolled); }
    hide Inv; hide Hangs;
    assert Left(s, s, u) && Covered(s, s, {}, Elements([u]));
    hide Covered;
    PurgeAllOnlyHanging(s, s, u, [u]);
    forall c | Hangs(s, u, c) ensures c in r.bad { PurgeAllReaches(s, s, {}, [u], u, c); }
  }

  // ---------------------------------------------------------------- who hangs on whom

  /** `path` leads from `u` to a joint through unhandled joints, each a child of the one before. */
  ghost predicate Downward(d: Dag, s: State, u: Hash, path: seq<Hash>)
  {
    && path != []
    && var n := |path| - 1;
       if n == 0 then path[n] == u
       else
         && path[n] in s.unhandled && path[n] in d.units && path[n - 1] in d.units[path[n]].parents
         && Downward(d, s, u, path[..n])
  }

  /** `c` is `u` or a descendant of `u` through unhandled joints. */
  ghost predicate Below(d: Dag, s: State, u: Hash, c: Hash)
  {
    exists path :: Downward(d, s, u, path) && path[|path| - 1] == c
  }

  lemma BelowSelf(d: Dag, s: State, u: Hash)
    ensures Below(d, s, u, u)
  {
    assert Downward(d, s, u, [u]);
  }

  lemma BelowStep(d: Dag, s: State, u: Hash, c: Hash, k: Hash)
    requires Below(d, s, u, c) && k in s.unhandled && k in d.units && c in d.units[k].parents
    ensures Below(d, s, u, k)
  {
    var path :| Downward(d, s, u, path) && path[|path| - 1] == c;
    var longer := path + [k];
    assert longer[..|longer| - 1] == path;
    assert Downward(d, s, u, longer) && longer[|longer| - 1] == k;
  }

  lemma {:induction false} PathHangs(d: Dag, s: State, u: Hash, path: seq<Hash>, unpolled: set<Hash>)
    requires Inv(d, s, unpolled) && u !in s.normal && Downward(d, s, u, path)
    ensures Hangs(s, u, path[|path| - 1]) && path[|path| - 1] !in s.normal
  {
    hide Inv; hide Hangs;
    var n := |path| - 1;
    if n == 0 {
      HangsSelf(s, u);
    } else {
      PathHangs(d, s, u, path[..n], unpolled);
      assert path[..n][|path[..n]| - 1] == path[n - 1];
      WaitsForParent(d, s, path[n], path[n - 1], unpolled);
      HangsStep(s, u, path[n - 1], path[n]);
    }
  }

  /** An unhandled joint waits for every parent that is not normal. */
  lemma WaitsForParent(d: Dag, s: State, c: Hash, p: Hash, unpolled: set<Hash>)
    requires Inv(d, s, unpolled) && c in s.unhandled && c in d.units && p in d.units[c].parents && p !in s.normal
    ensures c in Waiting(s, p) && c !in s.normal
  {
    InvParts(d, s, unpolled);
    ResolvedIffNormal(d, s, c, p, unpolled);
    assert Lacks(d, s, c, p);
  }

  /** Whoever hangs on `u` is bad already, or is below `u` or below an orphan. */
  lemma {:induction false} HangsBelow(d: Dag, s: State, u: Hash, path: seq<Hash>, unpolled: set<Hash>)
    requires Inv(d, s, unpolled) && WaitPath(s, u, path)
    ensures var c := path[|path| - 1];
      c in s.bad || Below(d, s, u, c) || exists o :: o in s.orphans && o in s.unhandled && Below(d, s, o, c)
  {
    var n := |path| - 1;
    BelowSelf(d, s, u);
    if n > 0 {
      HangsBelow(d, s, u, path[..n], unpolled);
      var x, c := path[n - 1], path[n];
      assert path[..n][|path[..n]| - 1] == x;
      WaiterFacts(d, s, x, c, unpolled);
      BelowSelf(d, s, c);
      hide Below; hide Inv;
      if c !in s.bad {
        if Below(d, s, u, x) {
          BelowStep(d, s, u, x, c);
        } else if x !in s.bad {
          var o :| o in s.orphans && o in s.unhandled && Below(d, s, o, x);
          BelowStep(d, s, o, x, c);
        }
      }
    }
  }

  lemma WaiterFacts(d: Dag, s: State, x: Hash, c: Hash, unpolled: set<Hash>)
    requires Inv(d, s, unpolled) && c in Waiting(s, x)
    ensures c in d.units && x in d.units[c].parents && (c in s.unhandled || c in s.bad)
    ensures c in s.unhandled && x in s.bad ==> c in s.orphans
    ensures Lacks(d, s, c, x)
  {
    InvParts(d, s, unpolled);
    assert Lacks(d, s, c, x);
    assert x in s.bad ==> BadParent(d, s, c);
  }

  /**
   * In terms of parents: purging `u` takes every unhandled descendant of `u`, and besides
   * only orphans and what is below them.
   */
  lemma PurgeTakesDescendants(d: Dag, s: State, u: Hash, c: Hash, unpolled: set<Hash>)
    requires Inv(d, s, unpolled) && Purgeable(d, s, u)
    ensures Below(d, s, u, c) ==> c in PurgeAll(s, [u]).bad
    ensures c in PurgeAll(s, [u]).bad ==>
      c in s.bad || Below(d, s, u, c) || exists o :: o in s.orphans && o in s.unhandled && Below(d, s, o, c)
  {
    PurgeBadExact(d, s, u, unpolled);
    hide Inv;
    if Below(d, s, u, c) {
      var path :| Downward(d, s, u, path) && path[|path| - 1] == c;
      PathHangs(d, s, u, path, unpolled);
    }
    if Hangs(s, u, c) {
      var path :| WaitPath(s, u, path) && path[|path| - 1] == c;
      HangsBelow(d, s, u, path, unpolled);
    }
  }

  // ---------------------------------------------------------------- whole runs

  /** Where the adder of a joint is: past the first check, and then past the second with or without an objection. */
  datatype Phase = Checked | Passing | Failing

  /**
   * The cache, the adders at work, and the joints whose adder has still to look whether they
   * are ready. An adder holds the lock on its unit, so there is one for each joint.
   */
  datatype System = System(cache: State, adding: map<Hash, Phase>, unpolled: set<Hash>)

  /** The critical sections of the node, in the order one joint goes through them. */
  datatype Step =
    | Check(u: Hash)
    | Screen(u: Hash, wellFormed: bool)
    | Commit(u: Hash)
    | Discard(u: Hash)
    | Look(u: Hash)
    | Accept(u: Hash)
    | Reject(u: Hash)
    | Collect(u: Hash)

  const START: System := System(EMPTY, map[], {})

  predicate Known(s: State, u: Hash)
  {
    u in s.normal || u in s.unhandled || u in s.bad
  }

  predicate In(sys: System, u: Hash, phase: Phase)
  {
    u in sys.adding && sys.adding[u] == phase
  }

  /**
   * Anyone may start to add a joint nobody is adding; its adder takes its sections one after
   * the other and looks once; validation ends for a joint that was triggered; a free joint
   * nobody refers to may be collected.
   */
  predicate Enabled(d: Dag, sys: System, step: Step)
  {
    var s := sys.cache;
    match step
    case Check(u) => u !in sys.adding
    case Screen(u, wellFormed) => In(sys, u, Checked) && (wellFormed ==> u in d.units)
    case Commit(u) => In(sys, u, Passing) && u in d.units
    case Discard(u) => In(sys, u, Failing)
    case Look(u) => u in sys.unpolled && HasKeys(d, s, u)
    case Accept(u) => u in s.unhandled && u in s.fired && s.fired[u] > 0 && Waited(d, s, u)
    case Reject(u) => u in s.unhandled && u in s.fired && s.fired[u] > 0
    case Collect(u) => u in s.free && u in s.refs && s.refs[u] == 0 && u in s.resolved
  }

  function Next(d: Dag, sys: System, step: Step): System
    requires Enabled(d, sys, step)
  {
    var s := sys.cache;
    match step
    case Check(u) => if Known(s, u) then sys else sys.(adding := sys.adding[u := Checked])
    case Screen(u, wellFormed) =>
      sys.(adding := sys.adding[u := if !wellFormed || BadParent(d, s, u) then Failing else Passing])
    case Commit(u) => System(Insert(d, s, u), sys.adding - {u}, sys.unpolled + {u})
    case Discard(u) => sys.(cache := PurgeAll(s, [u]), adding := sys.adding - {u})
    case Look(u) => sys.(cache := Poll(d, s, u), unpolled := sys.unpolled - {u})
    case Accept(u) => sys.(cache := Normalize(d, s, u))
    case Reject(u) => sys.(cache := PurgeAll(s, [u]))
    case Collect(u) => sys.(cache := PurgeFree(s, u))
  }

  /** A joint whose adder has still to look waits for validation, was triggered, or never will be. */
  ghost predicate Pending(d: Dag, s: State, u: Hash)
  {
    HasData(d, s, u) && (u in s.unhandled || s.fired[u] > 0 || Doomed(d, s, u))
  }

  /** A joint being added is in no set of the cache, and passes only as a proper unit. */
  ghost predicate AddingOk(d: Dag, sys: System)
  {
    forall u {:trigger sys.adding[u]} :: u in sys.adding ==>
      !Known(sys.cache, u) && (sys.adding[u] == Passing ==> u in d.units)
  }

  ghost predicate SystemOk(d: Dag, sys: System)
  {
    && Inv(d, sys.cache, sys.unpolled) && AddingOk(d, sys)
    && forall u :: u in sys.unpolled ==> Pending(d, sys.cache, u)
  }

  lemma StartOk(d: Dag)
    requires UnitsOk(d)
    ensures SystemOk(d, START)
  {
    assert forall p :: Waiting(EMPTY, p) == [];
  }

  /** A joint whose trigger fired has all its parents resolved, and none of them is bad. */
  lemma FiredComplete(d: Dag, s: State, c: Hash, unpolled: set<Hash>)
    requires Inv(d, s, unpolled) && HasData(d, s, c) && d.units[c].parents != [] && s.fired[c] > 0
    ensures s.fired[c] == 1 && Complete(d, s, c) && !Doomed(d, s, c)
  {
    InvParts(d, s, unpolled);
    ResolvedSize(d, s, c);
  }

  /** For an unhandled joint a parent is resolved exactly when it is normal. */
  lemma ResolvedIffNormal(d: Dag, s: State, c: Hash, p: Hash, unpolled: set<Hash>)
    requires Inv(d, s, unpolled) && c in s.unhandled && c in d.units && p in d.units[c].parents
    ensures c in s.resolved && (p in s.resolved[c] <==> p in s.normal)
  {
    InvParts(d, s, unpolled);
    assert HasData(d, s, c);
    if p !in s.resolved[c] { assert Lacks(d, s, c, p); }
  }

  // ---------------------------------------------------------------- every step keeps it

  lemma InsertPending(d: Dag, s: State, u: Hash, c: Hash)
    requires Disjoint(s) && IsNew(d, s, u) && (c == u || Pending(d, s, c))
    ensures Pending(d, Insert(d, s, u), c)
  {
    var s' := Insert(d, s, u);
    InsertShape(d, s, u);
    hide Insert;
    if c != u && Doomed(d, s, c) {
      var q :| q in s.bad && Lacks(d, s, c, q);
      assert Lacks(d, s', c, q);
    }
  }

  lemma PromotedFired(d: Dag, s: State, u: Hash, c: Hash, unpolled: set<Hash>)
    requires Inv(d, s, unpolled) && CanPromote(d, s, u) && Waited(d, s, u) && c in s.fired
    ensures c in Normalize(d, s, u).fired && s.fired[c] <= Normalize(d, s, u).fired[c]
    ensures HasData(d, s, c) ==> HasData(d, Normalize(d, s, u), c)
    ensures var r := Normalize(d, s, u);
      r.unhandled == s.unhandled - {u} && r.normal == s.normal + {u} && r.bad == s.bad && r.orphans == s.orphans
  {
    PromoteShape(d, s, u);
    hide Promote;
    TellAllGrows(d, Promote(d, s, u), u, Waiting(s, u), c);
  }

  lemma {:induction false} TellAllGrows(d: Dag, s: State, u: Hash, kids: seq<Hash>, c: Hash)
    requires u in s.refs && AllKeys(d, s, kids) && c in s.fired
    ensures s.fired[c] <= TellAll(d, s, u, kids).fired[c]
    ensures TellAll(d, s, u, kids).children == s.children
  {
    if kids != [] {
      TellAllGrows(d, s, u, kids[..|kids| - 1], c);
      assert HasKeys(d, s, kids[|kids| - 1]);
    }
  }

  lemma AcceptKeeps(d: Dag, sys: System, u: Hash)
    requires SystemOk(d, sys) && Enabled(d, sys, Accept(u))
    ensures SystemOk(d, Next(d, sys, Accept(u)))
  {
    var s := sys.cache;
    hide Inv; hide Normalize; hide Pending; hide Waited; hide CanPromote; hide Purgeable; hide AddingOk; hide Doomed;
    TriggeredUnhandled(d, s, u, sys.unpolled);
    NormalizeKeeps(d, s, u, sys.unpolled);
    PromotedFired(d, s, u, u, sys.unpolled);
    SameKnown(d, sys, Normalize(d, s, u));
    forall c | c in sys.unpolled ensures Pending(d, Normalize(d, s, u), c) {
      NormalizePending(d, s, u, c, sys.unpolled);
    }
  }

  /** A step that makes no joint known leaves those being added unknown. */
  lemma SameKnown(d: Dag, sys: System, s': State)
    requires AddingOk(d, sys)
    requires s'.normal + s'.unhandled + s'.bad <= sys.cache.normal + sys.cache.unhandled + sys.cache.bad
    ensures AddingOk(d, sys.(cache := s'))
  {
    forall u | u in sys.adding ensures !Known(s', u) {
      assert sys.adding[u] == sys.adding[u];
      assert u !in sys.cache.normal + sys.cache.unhandled + sys.cache.bad;
    }
  }

  lemma NormalizePending(d: Dag, s: State, u: Hash, c: Hash, unpolled: set<Hash>)
    requires Inv(d, s, unpolled) && u in s.unhandled && u in s.fired && s.fired[u] > 0 && Waited(d, s, u)
    requires Pending(d, s, c)
    ensures Pending(d, Normalize(d, s, u), c)
  {
    TriggeredUnhandled(d, s, u, unpolled);
    hide Inv; hide Normalize; hide Doomed; hide HasData; hide Waited;
    NormalizeKeeps(d, s, u, unpolled);
    assert c in s.fired by { PendingFired(d, s, c); }
    PromotedFired(d, s, u, c, unpolled);
  }

  lemma PendingFired(d: Dag, s: State, c: Hash)
    requires Pending(d, s, c)
    ensures c in s.fired
  {
  }

  lemma TriggeredUnhandled(d: Dag, s: State, u: Hash, unpolled: set<Hash>)
    requires Inv(d, s, unpolled) && u in s.unhandled && u in s.fired && s.fired[u] > 0
    ensures CanPromote(d, s, u) && Purgeable(d, s, u)
  {
    InvParts(d, s, unpolled);
    assert HasData(d, s, u);
  }

  lemma PurgePending(d: Dag, s: State, u: Hash, c: Hash, unpolled: set<Hash>)
    requires Inv(d, s, unpolled) && Purgeable(d, s, u) && (u in s.unhandled ==> Triggered(d, s, u)) && Pending(d, s, c)
    ensures Pending(d, PurgeAll(s, [u]), c)
  {
    var r := PurgeAll(s, [u]);
    PurgeAllFrame(s, [u]);
    PurgeBadExact(d, s, u, unpolled);
    DoomedFrame(d, s, r);
    if c in s.unhandled && c in r.bad && s.fired[c] == 0 {
      assert Disjoint(s);
      PurgedDoomed(d, s, r, u, c, unpolled);
    }
  }

  /** A joint purged because of one above it lacks a bad parent. */
  lemma PurgedDoomed(d: Dag, s: State, r: State, u: Hash, c: Hash, unpolled: set<Hash>)
    requires Inv(d, s, unpolled) && u != c && Hangs(s, u, c) && r.resolved == s.resolved
    requires forall b :: b in r.bad <==> b in s.bad || Hangs(s, u, b)
    ensures Doomed(d, r, c)
  {
    hide Inv;
    var path :| WaitPath(s, u, path) && path[|path| - 1] == c;
    var n := |path| - 1;
    var p := path[n - 1];
    assert path[..n][|path[..n]| - 1] == p;
    assert Hangs(s, u, p);
    WaiterFacts(d, s, p, c, unpolled);
    hide Hangs;
    assert Lacks(d, r, c, p);
  }

  /** Nobody being added is purged, unless it is the joint purged itself: the others were all waiting. */
  lemma PurgeAdding(d: Dag, sys: System, u: Hash, c: Hash)
    requires SystemOk(d, sys) && Purgeable(d, sys.cache, u) && c in sys.adding && c != u
    ensures !Known(PurgeAll(sys.cache, [u]), c)
  {
    var s := sys.cache;
    PurgeBadExact(d, s, u, sys.unpolled);
    assert !Known(s, c);
    if Hangs(s, u, c) {
      var path :| WaitPath(s, u, path) && path[|path| - 1] == c;
      WaiterFacts(d, s, path[|path| - 2], c, sys.unpolled);
    }
  }

  lemma PurgeStepKeeps(d: Dag, sys: System, u: Hash)
    requires SystemOk(d, sys) && Purgeable(d, sys.cache, u)
    requires u in sys.cache.unhandled ==> Triggered(d, sys.cache, u)
    ensures SystemOk(d, sys.(cache := PurgeAll(sys.cache, [u]), adding := sys.adding - {u}))
  {
    PurgeBadExact(d, sys.cache, u, sys.unpolled);
    hide Inv; hide Purgeable; hide Triggered; hide Pending; hide PurgeAll;
    forall c | c in sys.unpolled ensures Pending(d, PurgeAll(sys.cache, [u]), c) {
      PurgePending(d, sys.cache, u, c, sys.unpolled);
    }
    forall c | c in sys.adding && c != u ensures !Known(PurgeAll(sys.cache, [u]), c) { PurgeAdding(d, sys, u, c); }
  }

  /** Checking and screening write nothing to the cache. */
  lemma CheckKeeps(d: Dag, sys: System, step: Step)
    requires SystemOk(d, sys) && (step.Check? || step.Screen?) && Enabled(d, sys, step)
    ensures SystemOk(d, Next(d, sys, step)) && Next(d, sys, step).cache == sys.cache
  {
    hide Inv; hide Pending; hide BadParent;
  }

  lemma CommitKeeps(d: Dag, sys: System, u: Hash)
    requires SystemOk(d, sys) && Enabled(d, sys, Commit(u))
    ensures IsNew(d, sys.cache, u) && SystemOk(d, Next(d, sys, Commit(u)))
  {
    var s := sys.cache;
    hide Inv; hide Insert; hide Pending;
    assert sys.adding[u] == Passing && !Known(s, u);
    InsertKeeps(d, s, u, sys.unpolled);
    InsertKnown(d, s, u);
    InvParts(d, s, sys.unpolled);
    hide Disjoint; hide DataOk; hide ResolvedOk; hide WaitsOk; hide BadOk; hide ChildrenOk; hide RefsOk;
    hide FiredOk; hide UnitsOk;
    forall c | c in sys.unpolled + {u} ensures Pending(d, Insert(d, s, u), c) { InsertPending(d, s, u, c); }
  }

  lemma InsertKnown(d: Dag, s: State, u: Hash)
    requires u in d.units
    ensures forall c {:trigger Known(Insert(d, s, u), c)} :: Known(Insert(d, s, u), c) <==> Known(s, c) || c == u
  {
  }

  lemma DiscardKeeps(d: Dag, sys: System, u: Hash)
    requires SystemOk(d, sys) && Enabled(d, sys, Discard(u))
    ensures SystemOk(d, Next(d, sys, Discard(u)))
  {
    assert sys.adding[u] == Failing && !Known(sys.cache, u);
    hide Inv;
    PurgeStepKeeps(d, sys, u);
  }

  lemma LookKeeps(d: Dag, sys: System, u: Hash)
    requires SystemOk(d, sys) && Enabled(d, sys, Look(u))
    ensures SystemOk(d, Next(d, sys, Look(u)))
  {
    hide Inv; hide Pending; hide InvWhile; hide AddingOk;
    var s := sys.cache;
    assert Pending(d, s, u);
    assert HasData(d, s, u) by { PendingData(d, s, u); }
    InvAgain(d, s, sys.unpolled);
    PollKeeps(d, s, u, iset{}, {}, sys.unpolled);
    InvAgain(d, Poll(d, s, u), sys.unpolled - {u});
    SameKnown(d, sys, Poll(d, s, u));
    hide Poll; hide HasData;
    forall c | c in sys.unpolled ensures Pending(d, Poll(d, s, u), c) { PollPending(d, s, u, c); }
    AddingFrame(d, sys.(cache := Poll(d, s, u)), sys.unpolled - {u});
  }

  lemma AddingFrame(d: Dag, sys: System, unpolled: set<Hash>)
    requires AddingOk(d, sys)
    ensures AddingOk(d, sys.(unpolled := unpolled))
  {
    forall u | u in sys.adding ensures !Known(sys.cache, u) && (sys.adding[u] == Passing ==> u in d.units) {}
  }

  lemma PendingData(d: Dag, s: State, c: Hash)
    requires Pending(d, s, c)
    ensures HasData(d, s, c)
  {
  }

  lemma PollPending(d: Dag, s: State, u: Hash, c: Hash)
    requires HasData(d, s, u) && Pending(d, s, c)
    ensures Pending(d, Poll(d, s, u), c)
  {
    DoomedFrame(d, s, Poll(d, s, u));
  }

  lemma InvAgain(d: Dag, s: State, unpolled: set<Hash>)
    ensures InvWhile(d, s, iset{}, {}, unpolled) <==> Inv(d, s, unpolled)
  {
    hide InvWhile;
  }

  lemma CollectKeeps(d: Dag, sys: System, u: Hash)
    requires SystemOk(d, sys) && Enabled(d, sys, Collect(u))
    ensures SystemOk(d, Next(d, sys, Collect(u)))
  {
    hide Inv; hide Doomed; hide PurgeFree; hide HasData; hide Lacks; hide Holders; hide Late; hide Complete;
    hide BadParent; hide Waiting;
    var s := sys.cache;
    PurgeFreeKeeps(d, s, u, sys.unpolled);
    PurgeFreeShape(d, s, u);
    var s' := PurgeFree(s, u);
    DoomedFrame(d, s, s');
    forall c | c in sys.unpolled ensures Pending(d, s', c) { assert Pending(d, s, c); }
  }

  /** Every step keeps the cache consistent. */
  lemma NextKeeps(d: Dag, sys: System, step: Step)
    requires SystemOk(d, sys) && Enabled(d, sys, step)
    ensures SystemOk(d, Next(d, sys, step))
  {
    match step
    case Check(u) => CheckKeeps(d, sys, step);
    case Screen(u, wellFormed) => CheckKeeps(d, sys, step);
    case Commit(u) => CommitKeeps(d, sys, u);
    case Discard(u) => DiscardKeeps(d, sys, u);
    case Look(u) => LookKeeps(d, sys, u);
    case Accept(u) => AcceptKeeps(d, sys, u);
    case Reject(u) => RejectKeeps(d, sys, u);
    case Collect(u) => CollectKeeps(d, sys, u);
  }

  lemma NotBeingAdded(d: Dag, sys: System, u: Hash)
    requires AddingOk(d, sys) && Known(sys.cache, u)
    ensures u !in sys.adding
  {
  }

  lemma RejectKeeps(d: Dag, sys: System, u: Hash)
    requires SystemOk(d, sys) && Enabled(d, sys, Reject(u))
    ensures SystemOk(d, Next(d, sys, Reject(u)))
  {
    TriggeredUnhandled(d, sys.cache, u, sys.unpolled);
    NotBeingAdded(d, sys, u);
    assert sys.adding - {u} == sys.adding;
    hide Inv;
    PurgeStepKeeps(d, sys, u);
  }

  /** `run` is a run: each state follows from the one before by an enabled step. */
  ghost predicate IsRun(d: Dag, run: seq<System>, steps: seq<Step>)
  {
    && |run| == |steps| + 1 && run[0] == START
    && forall i {:trigger steps[i]} :: 0 <= i < |steps| ==>
         Enabled(d, run[i], steps[i]) && run[i + 1] == Next(d, run[i], steps[i])
  }

  lemma {:induction false} RunOk(d: Dag, run: seq<System>, steps: seq<Step>, n: nat)
    requires UnitsOk(d) && IsRun(d, run, steps) && n < |run|
    ensures SystemOk(d, run[n])
  {
    if n == 0 {
      StartOk(d);
    } else {
      var m := n - 1;
      RunOk(d, run, steps, m);
      hide SystemOk;
      assert Enabled(d, run[m], steps[m]);
      NextKeeps(d, run[m], steps[m]);
    }
  }

  /** What a reader of the cache may rely on, in plain terms. */
  lemma CacheSafety(d: Dag, run: seq<System>, steps: seq<Step>, n: nat)
    requires UnitsOk(d) && IsRun(d, run, steps) && n < |run|
    ensures var s := run[n].cache;
      && s.normal !! s.unhandled && s.normal !! s.bad && s.unhandled !! s.bad
      && (forall c :: c in s.unhandled ==> (BadParent(d, s, c) <==> c in s.orphans))
      && (forall p :: p in s.free <==>
           p in s.normal && !exists c :: c in s.normal && c in d.units && p in d.units[c].parents)
      && (forall c, p :: c in s.normal && c in d.units && p in d.units[c].parents ==> p in s.normal)
      && (forall c, p :: (c in s.normal || c in s.unhandled) && c in s.resolved && p in s.resolved[c] ==> p in s.normal)
      && (forall p :: p in s.normal ==> p in s.refs && s.refs[p] == |Holders(s, p)| + |Late(s, p)|)
  {
    RunOk(d, run, steps, n);
    var s := run[n].cache;
    InvParts(d, s, run[n].unpolled);
    hide SystemOk; hide Inv; hide FiredOk; hide WaitsOk; hide Holders; hide IsRun; hide Lacks;
    forall c, p | c in s.normal && c in d.units && p in d.units[c].parents ensures p in s.normal {
      NormalParents(d, s, c, p);
    }
    forall p
      ensures p in s.free <==> p in s.normal && !exists c :: c in s.normal && c in d.units && p in d.units[c].parents
    {
      FreeExact(d, s, p);
    }
  }

  lemma NormalParents(d: Dag, s: State, c: Hash, p: Hash)
    requires DataOk(d, s) && ResolvedOk(d, s) && c in s.normal && c in d.units && p in d.units[c].parents
    ensures p in s.normal
  {
    assert HasData(d, s, c) && !Lacks(d, s, c, p);
  }

  lemma FreeExact(d: Dag, s: State, p: Hash)
    requires DataOk(d, s) && ChildrenOk(d, s)
    ensures p in s.free <==> p in s.normal && !exists c :: c in s.normal && c in d.units && p in d.units[c].parents
  {
    if p in s.normal {
      assert HasData(d, s, p);
      assert forall c :: c in s.normal && c in d.units && p in d.units[c].parents ==> c in s.children[p];
      if s.children[p] != {} {
        var c :| c in s.children[p];
        assert c in s.normal && c in d.units && p in d.units[c].parents;
      }
    }
  }

  /**
   * An unhandled joint with parents has been triggered at most once, and only with all its
   * parents normal; once its adder has looked, it has been triggered if and only if they are.
   */
  lemma TriggeredExactly(d: Dag, run: seq<System>, steps: seq<Step>, n: nat, c: Hash)
    requires UnitsOk(d) && IsRun(d, run, steps) && n < |run| && c in run[n].cache.unhandled
    ensures c in d.units && c in run[n].cache.fired
    ensures d.units[c].parents != [] ==>
      var s, ready := run[n].cache, forall p :: p in d.units[c].parents ==> p in run[n].cache.normal;
      && s.fired[c] <= 1
      && (s.fired[c] == 1 ==> ready)
      && (c !in run[n].unpolled ==> (s.fired[c] == 1 <==> ready))
  {
    RunOk(d, run, steps, n);
    var s := run[n].cache;
    InvParts(d, s, run[n].unpolled);
    assert HasData(d, s, c);
    hide SystemOk; hide IsRun;
    forall p | p in d.units[c].parents ensures p in s.resolved[c] <==> p in s.normal {
      ResolvedIffNormal(d, s, c, p, run[n].unpolled);
    }
    if d.units[c].parents != [] && s.fired[c] > 0 { FiredComplete(d, s, c, run[n].unpolled); }
  }

  /** Whenever a step triggers a joint with parents, it is the first time, and all its parents are normal then. */
  lemma TriggerStep(d: Dag, sys: System, step: Step, c: Hash)
    requires SystemOk(d, sys) && Enabled(d, sys, step) && step != Commit(c)
    requires c in d.units && d.units[c].parents != [] && c in sys.cache.fired
    ensures var s, s' := sys.cache, Next(d, sys, step).cache;
      && c in s'.fired && s.fired[c] <= s'.fired[c]
      && (s.fired[c] < s'.fired[c] ==>
           && s.fired[c] == 0 && s'.fired[c] == 1 && c in s'.unhandled
           && forall p :: p in d.units[c].parents ==> p in s'.normal)
  {
    var s, s' := sys.cache, Next(d, sys, step).cache;
    NextKeeps(d, sys, step);
    match step {
      case Check(u) =>
      case Screen(u, wellFormed) =>
      case Commit(u) =>
      case Discard(u) => PurgeAllFrame(s, [u]);
      case Look(u) => LookFires(d, sys, u, c);
      case Accept(u) => AcceptFires(d, sys, u, c);
      case Reject(u) => PurgeAllFrame(s, [u]);
      case Collect(u) => PurgeFreeShape(d, s, u);
    }
  }

  lemma FiredNow(d: Dag, s: State, unpolled: set<Hash>, c: Hash)
    requires Inv(d, s, unpolled) && HasData(d, s, c) && d.units[c].parents != [] && s.fired[c] > 0
    requires c in s.unhandled || Doomed(d, s, c)
    ensures s.fired[c] == 1 && c in s.unhandled && forall p :: p in d.units[c].parents ==> p in s.normal
  {
    FiredComplete(d, s, c, unpolled);
    forall p | p in d.units[c].parents ensures p in s.normal { ResolvedIffNormal(d, s, c, p, unpolled); }
  }

  lemma LookFires(d: Dag, sys: System, u: Hash, c: Hash)
    requires SystemOk(d, sys) && Enabled(d, sys, Look(u))
    requires c in d.units && d.units[c].parents != [] && c in sys.cache.fired
    ensures var s, s' := sys.cache, Next(d, sys, Look(u)).cache;
      && c in s'.fired && s.fired[c] <= s'.fired[c]
      && (s.fired[c] < s'.fired[c] ==>
           && s.fired[c] == 0 && s'.fired[c] == 1 && c in s'.unhandled
           && forall p :: p in d.units[c].parents ==> p in s'.normal)
  {
    assert Inv(d, sys.cache, sys.unpolled) && Pending(d, sys.cache, u);
    hide Inv; hide Pending; hide SystemOk;
    if c == u && sys.cache.fired[c] < Next(d, sys, Look(u)).cache.fired[c] {
      PollFires(d, sys.cache, u, sys.unpolled);
    }
  }

  lemma PollFires(d: Dag, s: State, u: Hash, unpolled: set<Hash>)
    requires Inv(d, s, unpolled) && Pending(d, s, u) && d.units[u].parents != []
    requires s.fired[u] < Poll(d, s, u).fired[u]
    ensures var s' := Poll(d, s, u);
      s.fired[u] == 0 && s'.fired[u] == 1 && u in s'.unhandled && forall p :: p in d.units[u].parents ==> p in s'.normal
  {
    hide Inv; hide InvWhile; hide Doomed; hide UnitsOk; hide ResolvedOk; hide FiredOk; hide Complete;
    var s' := Poll(d, s, u);
    InvAgain(d, s, unpolled);
    PollKeeps(d, s, u, iset{}, {}, unpolled);
    InvAgain(d, s', unpolled - {u});
    InvParts(d, s, unpolled);
    PollFired(d, s, u, unpolled);
    DoomedFrame(d, s, s');
    FiredNow(d, s', unpolled - {u}, u);
  }

  lemma AcceptFires(d: Dag, sys: System, u: Hash, c: Hash)
    requires SystemOk(d, sys) && Enabled(d, sys, Accept(u))
    requires c in d.units && d.units[c].parents != [] && c in sys.cache.fired
    ensures var s, s' := sys.cache, Next(d, sys, Accept(u)).cache;
      && c in s'.fired && s.fired[c] <= s'.fired[c]
      && (s.fired[c] < s'.fired[c] ==>
           && s.fired[c] == 0 && s'.fired[c] == 1 && c in s'.unhandled
           && forall p :: p in d.units[c].parents ==> p in s'.normal)
  {
    var s, s' := sys.cache, Next(d, sys, Accept(u)).cache;
    AcceptKeeps(d, sys, u);
    TriggeredUnhandled(d, s, u, sys.unpolled);
    NormalizeKeeps(d, s, u, sys.unpolled);
    PromotedFired(d, s, u, c, sys.unpolled);
    if s.fired[c] < s'.fired[c] {
      assert c in Waiting(s, u);
      WaiterState(d, s, u, c, sys.unpolled);
      hide Inv; hide Doomed; hide Normalize; hide HasData;
      FiredNow(d, s', sys.unpolled, c);
    }
  }

  lemma WaiterState(d: Dag, s: State, u: Hash, c: Hash, unpolled: set<Hash>)
    requires Inv(d, s, unpolled) && c in Waiting(s, u) && u in s.unhandled && Complete(d, s, u)
    ensures HasData(d, s, c) && c != u && (c in s.unhandled || Doomed(d, s, c))
  {
    InvParts(d, s, unpolled);
    assert Lacks(d, s, c, u);
  }

  // ---------------------------------------------------------------- checks and write are separate sections

  /** No unhandled joint has a known-bad parent. */
  ghost predicate NoBadParents(d: Dag, s: State)
  {
    forall c :: c in s.unhandled ==> !BadParent(d, s, c)
  }

  /**
   * The write section of add_new_joint, run on a consistent cache that does not hold the
   * joint as unhandled, leaves it consistent if and only if the joint is still unknown, and
   * leaves no unhandled joint with a bad parent if and only if there was none and the joint
   * has none.
   */
  lemma CommitExact(d: Dag, s: State, u: Hash, unpolled: set<Hash>)
    requires Inv(d, s, unpolled) && u in d.units && u !in s.unhandled
    ensures Inv(d, Insert(d, s, u), unpolled + {u}) <==> u !in s.normal && u !in s.bad
    ensures NoBadParents(d, Insert(d, s, u)) <==> NoBadParents(d, s) && !BadParent(d, s, u)
  {
    var s' := Insert(d, s, u);
    InsertShape(d, s, u);
    if IsNew(d, s, u) { InsertKeeps(d, s, u, unpolled); }
    assert u in s'.unhandled;
    if Inv(d, s', unpolled + {u}) {
      InvParts(d, s', unpolled + {u});
      hide Inv; hide Insert;
      assert IsNew(d, s, u);
    }
    hide Insert; hide Inv; hide BadParent;
  }

  /**
   * The clause "no unhandled joint has a bad parent" fails whenever a parent is rejected
   * between the screening of a joint and its write section.
   */
  lemma RejectedInBetween(d: Dag, sys: System, p: Hash, u: Hash)
    requires SystemOk(d, sys) && Enabled(d, sys, Reject(p)) && In(sys, u, Passing)
    requires u in d.units && p in d.units[u].parents
    ensures var mid := Next(d, sys, Reject(p));
      && Enabled(d, mid, Commit(u))
      && var end := Next(d, mid, Commit(u)).cache;
         u in end.unhandled && p in end.bad && BadParent(d, end, u) && u in end.orphans && !NoBadParents(d, end)
  {
    hide SystemOk; hide PurgeAll; hide Insert;
    PurgeAllFrame(sys.cache, [p]);
    var mid := Next(d, sys, Reject(p));
    assert p in Elements([p]);
    InsertShape(d, mid.cache, u);
    assert BadParent(d, mid.cache, u);
  }

  lemma StepFrame(d: Dag, sys: System, step: Step, c: Hash)
    requires SystemOk(d, sys) && Enabled(d, sys, step) && step != Commit(c)
    ensures var s, s' := sys.cache, Next(d, sys, step).cache;
      (c in s'.unhandled ==> c in s.unhandled) && (c in s'.orphans <==> c in s.orphans)
  {
    match step {
      case Check(u) =>
      case Screen(u, wellFormed) =>
      case Commit(u) => InsertShape(d, sys.cache, u);
      case Discard(u) => PurgeAllFrame(sys.cache, [u]);
      case Look(u) =>
      case Accept(u) =>
        TriggeredUnhandled(d, sys.cache, u, sys.unpolled);
        PromotedFired(d, sys.cache, u, u, sys.unpolled);
      case Reject(u) => PurgeAllFrame(sys.cache, [u]);
      case Collect(u) => PurgeFreeShape(d, sys.cache, u);
    }
  }

  /**
   * Over every run an unhandled joint has a known-bad parent exactly when it had one at the
   * moment it was written, `m` being that moment.
   */
  lemma {:induction false} BadParentExactly(d: Dag, run: seq<System>, steps: seq<Step>, n: nat, c: Hash)
    returns (m: nat)
    requires UnitsOk(d) && IsRun(d, run, steps) && n < |run| && c in run[n].cache.unhandled
    ensures m < n && steps[m] == Commit(c) && forall i :: m < i <= n ==> c in run[i].cache.unhandled
    ensures BadParent(d, run[n].cache, c) <==> BadParent(d, run[m].cache, c)
  {
    hide SystemOk; hide Next; hide Enabled; hide BadParent; hide UnitsOk;
    var k := n - 1;
    RunOk(d, run, steps, n);
    assert n > 0 by { StartEmpty(c); }
    RunOk(d, run, steps, k);
    assert Enabled(d, run[k], steps[k]) && run[k + 1] == Next(d, run[k], steps[k]);
    if steps[k] == Commit(c) {
      m := k;
      CommitFrame(d, run[k], c);
    } else {
      StepFrame(d, run[k], steps[k], c);
      m := BadParentExactly(d, run, steps, k, c);
      OrphanIff(d, run[n], c);
      OrphanIff(d, run[k], c);
    }
  }

  lemma StartEmpty(c: Hash)
    ensures c !in START.cache.unhandled
  {
  }

  lemma CommitFrame(d: Dag, sys: System, c: Hash)
    requires Enabled(d, sys, Commit(c))
    ensures BadParent(d, Next(d, sys, Commit(c)).cache, c) == BadParent(d, sys.cache, c)
  {
    InsertShape(d, sys.cache, c);
  }

  lemma OrphanIff(d: Dag, sys: System, c: Hash)
    requires SystemOk(d, sys) && c in sys.cache.unhandled
    ensures BadParent(d, sys.cache, c) <==> c in sys.cache.orphans
  {
    InvParts(d, sys.cache, sys.unpolled);
  }

  /** An orphan is never triggered. */
  lemma OrphanNeverTriggered(d: Dag, sys: System, c: Hash)
    requires SystemOk(d, sys) && c in sys.cache.unhandled && c in sys.cache.orphans
    ensures c in sys.cache.fired && sys.cache.fired[c] == 0
  {
    var s := sys.cache;
    InvParts(d, s, sys.unpolled);
    OrphanIff(d, sys, c);
    assert HasData(d, s, c);
    var p :| p in d.units[c].parents && p in s.bad;
    ResolvedIffNormal(d, s, c, p, sys.unpolled);
    if s.fired[c] > 0 { FiredComplete(d, s, c, sys.unpolled); }
  }

  // ---------------------------------------------------------------- references that are never given back

  /** The joints told of `u`, being bad by then. */
  ghost function ToldLate(s: State, u: Hash, kids: seq<Hash>): set<(Hash, Hash)>
  {
    set c | c in kids && c in s.bad :: (c, u)
  }

  lemma ToldStep(s: State, u: Hash, kids: seq<Hash>)
    requires kids != []
    ensures var n := |kids| - 1;
      ToldLate(s, u, kids) == ToldLate(s, u, kids[..n]) + if kids[n] in s.bad then {(kids[n], u)} else {}
  {
    var n := |kids| - 1;
    assert forall c :: c in kids <==> c in kids[..n] || c == kids[n];
  }

  lemma ResolveLate(d: Dag, s: State, u: Hash, c: Hash)
    requires u in s.refs && HasKeys(d, s, c)
    ensures Resolve(d, s, u, c).late == s.late + if c in s.bad then {(c, u)} else {}
  {
  }

  lemma {:induction false} TellAllLate(d: Dag, s: State, u: Hash, kids: seq<Hash>)
    requires u in s.refs && AllKeys(d, s, kids)
    ensures TellAll(d, s, u, kids).late == s.late + ToldLate(s, u, kids)
  {
    if kids != [] {
      hide ToldLate; hide Resolve;
      var n := |kids| - 1;
      TellAllLate(d, s, u, kids[..n]);
      assert HasKeys(d, s, kids[n]);
      ToldStep(s, u, kids);
      ResolveLate(d, TellAll(d, s, u, kids[..n]), u, kids[n]);
    }
  }

  /** A step makes a joint late for `p` only by normalising `p` while that joint waits for it and is bad. */
  lemma LateStep(d: Dag, sys: System, step: Step, c: Hash, p: Hash)
    requires SystemOk(d, sys) && Enabled(d, sys, step)
    ensures var s, s' := sys.cache, Next(d, sys, step).cache;
      (c, p) in s'.late <==> (c, p) in s.late || (step == Accept(p) && c in Waiting(s, p) && c in s.bad)
  {
    var s := sys.cache;
    match step {
      case Check(u) =>
      case Screen(u, wellFormed) =>
      case Commit(u) => InsertShape(d, s, u);
      case Discard(u) => PurgeAllFrame(s, [u]);
      case Look(u) =>
      case Accept(u) => AcceptLate(d, s, u, sys.unpolled);
      case Reject(u) => PurgeAllFrame(s, [u]);
      case Collect(u) => PurgeFreeShape(d, s, u);
    }
  }

  lemma AcceptLate(d: Dag, s: State, u: Hash, unpolled: set<Hash>)
    requires Inv(d, s, unpolled) && u in s.unhandled && u in s.fired && s.fired[u] > 0
    ensures Waited(d, s, u) && Normalize(d, s, u).late == s.late + ToldLate(s, u, Waiting(s, u))
  {
    TriggeredUnhandled(d, s, u, unpolled);
    WaitersCanBeTold(d, s, u, unpolled);
    PromoteShape(d, s, u);
    hide Promote; hide Inv;
    TellAllLate(d, Promote(d, s, u), u, Waiting(s, u));
  }

  /** Over every run a joint is late for `p` exactly when `p` was normalised while it waited for `p`, bad already. */
  lemma {:induction false} LateExactly(d: Dag, run: seq<System>, steps: seq<Step>, n: nat, c: Hash, p: Hash)
    requires UnitsOk(d) && IsRun(d, run, steps) && n < |run|
    ensures (c, p) in run[n].cache.late <==>
      exists m :: 0 <= m < n && steps[m] == Accept(p) && c in Waiting(run[m].cache, p) && c in run[m].cache.bad
  {
    hide SystemOk; hide Enabled; hide Next; hide Waiting;
    if n > 0 {
      var k := n - 1;
      LateExactly(d, run, steps, k, c, p);
      RunOk(d, run, steps, k);
      assert Enabled(d, run[k], steps[k]) && run[k + 1] == Next(d, run[k], steps[k]);
      LateStep(d, run[k], steps[k], c, p);
    }
  }

  /**
   * Over every run a free joint may be collected exactly when no unhandled joint holds it and
   * none was told of it too late.
   */
  lemma CollectableExactly(d: Dag, run: seq<System>, steps: seq<Step>, n: nat, p: Hash)
    requires UnitsOk(d) && IsRun(d, run, steps) && n < |run|
    ensures var s := run[n].cache;
      CanPurgeFree(s, p) <==>
        && p in s.free
        && (forall c :: c in s.unhandled && c in s.resolved ==> p !in s.resolved[c])
        && (forall c: Hash :: (c, p) !in s.late)
  {
    RunOk(d, run, steps, n);
    var s := run[n].cache;
    InvParts(d, s, run[n].unpolled);
    hide SystemOk; hide Inv; hide IsRun; hide UnitsOk; hide ResolvedOk; hide WaitsOk; hide BadOk; hide FiredOk;
    if p in s.free {
      assert p in s.normal && HasData(d, s, p);
      CollectableNow(s, p);
    }
  }

  lemma CollectableNow(s: State, p: Hash)
    requires RefsOk(s) && p in s.free && p in s.normal && p in s.refs
    ensures CanPurgeFree(s, p) <==>
      && (forall c :: c in s.unhandled && c in s.resolved ==> p !in s.resolved[c])
      && (forall c: Hash :: (c, p) !in s.late)
  {
    assert CanPurgeFree(s, p) <==> Holders(s, p) == {} && Late(s, p) == {};
    assert Holders(s, p) == {} <==> forall c :: c in s.unhandled && c in s.resolved ==> p !in s.resolved[c] by {
      assert forall c :: c in Holders(s, p) <==> c in s.unhandled && c in s.resolved && p in s.resolved[c];
    }
    assert Late(s, p) == {} <==> forall c: Hash :: (c, p) !in s.late by {
      assert forall c :: c in Late(s, p) <==> (c, p) in s.late;
    }
  }

  /** Over every run, a joint someone was late for is never collected again. */
  lemma {:induction false} LateForever(d: Dag, run: seq<System>, steps: seq<Step>, m: nat, n: nat, c: Hash, p: Hash)
    requires UnitsOk(d) && IsRun(d, run, steps) && m <= n < |run| && (c, p) in run[m].cache.late
    ensures (c, p) in run[n].cache.late && p in run[n].cache.normal && !CanPurgeFree(run[n].cache, p)
    ensures n < |steps| ==> steps[n] != Collect(p)
  {
    hide SystemOk; hide Next; hide Waiting;
    if m < n {
      var k := n - 1;
      LateForever(d, run, steps, m, k, c, p);
      RunOk(d, run, steps, k);
      assert Enabled(d, run[k], steps[k]) && run[k + 1] == Next(d, run[k], steps[k]);
      LateStep(d, run[k], steps[k], c, p);
    }
    CollectableExactly(d, run, steps, n, p);
    LateIsNormal(d, run, steps, n, c, p);
    if n < |steps| { assert Enabled(d, run[n], steps[n]); }
  }

  lemma LateIsNormal(d: Dag, run: seq<System>, steps: seq<Step>, n: nat, c: Hash, p: Hash)
    requires UnitsOk(d) && IsRun(d, run, steps) && n < |run| && (c, p) in run[n].cache.late
    ensures p in run[n].cache.normal && c in run[n].cache.bad
  {
    RunOk(d, run, steps, n);
    hide IsRun;
    InvParts(d, run[n].cache, run[n].unpolled);
  }

  /** A triggered joint waits for nobody, so it hangs on no other joint. */
  lemma TriggeredHangsAlone(d: Dag, s: State, p: Hash, u: Hash, unpolled: set<Hash>)
    requires Inv(d, s, unpolled) && u in s.unhandled && u in s.fired && s.fired[u] > 0 && u != p
    ensures !Hangs(s, p, u)
  {
    TriggeredUnhandled(d, s, u, unpolled);
    forall path | WaitPath(s, p, path) ensures path[|path| - 1] != u {
      if path[|path| - 1] == u { WaiterFacts(d, s, path[|path| - 2], u, unpolled); }
    }
  }

  /**
   * A reference is lost whenever a joint `c` waits for two joints handed to validation, and
   * one of them is rejected before the other one is accepted.
   */
  lemma RejectedWhileWaiting(d: Dag, sys: System, p: Hash, u: Hash, c: Hash)
    requires SystemOk(d, sys) && Enabled(d, sys, Reject(p)) && Enabled(d, sys, Accept(u)) && p != u
    requires c in sys.cache.unhandled && c in d.units && p in d.units[c].parents && u in d.units[c].parents
    ensures var mid := Next(d, sys, Reject(p));
      && c in mid.cache.bad && Enabled(d, mid, Accept(u))
      && var end := Next(d, mid, Accept(u)).cache;
         (c, u) in end.late && u in end.normal && u in end.refs && end.refs[u] > 0
  {
    var s := sys.cache;
    InvParts(d, s, sys.unpolled);
    TriggeredUnhandled(d, s, p, sys.unpolled);
    TriggeredHangsAlone(d, s, p, u, sys.unpolled);
    WaitsForParent(d, s, c, p, sys.unpolled);
    WaitsForParent(d, s, c, u, sys.unpolled);
    HangsSelf(s, p);
    HangsStep(s, p, p, c);
    RejectKeeps(d, sys, p);
    PurgeBadExact(d, s, p, sys.unpolled);
    PurgeAllFrame(s, [p]);
    var mid := Next(d, sys, Reject(p));
    hide PurgeAll; hide Hangs; hide Waiting; hide Inv;
    AcceptLoses(d, mid, u, c);
  }

  lemma AcceptLoses(d: Dag, sys: System, u: Hash, c: Hash)
    requires SystemOk(d, sys) && u in sys.cache.unhandled && u in sys.cache.fired && sys.cache.fired[u] > 0
    requires c in Waiting(sys.cache, u) && c in sys.cache.bad
    ensures Enabled(d, sys, Accept(u))
    ensures var end := Next(d, sys, Accept(u)).cache;
      (c, u) in end.late && u in end.normal && u in end.refs && end.refs[u] > 0
  {
    hide Normalize; hide Waited; hide Waiting; hide Inv; hide Pending; hide AddingOk;
    AcceptLate(d, sys.cache, u, sys.unpolled);
    AcceptKeeps(d, sys, u);
    hide SystemOk;
    LateCounts(d, Next(d, sys, Accept(u)), c, u);
  }

  lemma LateCounts(d: Dag, sys: System, c: Hash, u: Hash)
    requires SystemOk(d, sys) && (c, u) in sys.cache.late
    ensures u in sys.cache.normal && u in sys.cache.refs && sys.cache.refs[u] > 0
  {
    var s := sys.cache;
    InvParts(d, s, sys.unpolled);
    assert HasData(d, s, u);
    assert c in Late(s, u);
  }
}
