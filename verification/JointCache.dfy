/**
 * The joint cache as the node runs it: maps changed in place under the cache's write lock,
 * with loops over parents, waiting children and the purge stack. Every method is one step
 * of the state machine of CacheRun.
 */
module JointCache {
  import opened Collections
  import opened Dag
  import opened Cache
  import opened CacheRun

  /** The parents not among `normal`, in order. */
  function Absent(ps: seq<Hash>, normal: set<Hash>): (r: seq<Hash>)
    ensures forall x :: x in r <==> x in ps && x !in normal
    ensures (forall i, j :: 0 <= i < j < |ps| ==> ps[i] != ps[j]) ==> forall i, j :: 0 <= i < j < |r| ==> r[i] != r[j]
    ensures |r| <= |ps|
  {
    if ps == [] then []
    else
      var r := Absent(ps[..|ps| - 1], normal);
      if ps[|ps| - 1] in normal then r else r + [ps[|ps| - 1]]
  }

  /** `refs` after one reference less to each of `ps`. */
  function Lowered(refs: map<Hash, nat>, ps: seq<Hash>): map<Hash, nat>
  {
    map p | p in refs :: if p in ps && refs[p] > 0 then refs[p] - 1 else refs[p]
  }

  /** `missing` after `u` has been listed under each of `ps`. */
  function Enrolled(missing: map<Hash, seq<Hash>>, u: Hash, ps: seq<Hash>): map<Hash, seq<Hash>>
  {
    if ps == [] then missing
    else
      var m := Enrolled(missing, u, ps[..|ps| - 1]);
      var p := ps[|ps| - 1];
      m[p := if p in m then m[p] + [u] else [u]]
  }

  function Adopted(children: map<Hash, set<Hash>>, u: Hash, ps: seq<Hash>): map<Hash, set<Hash>>
  {
    map p | p in children :: if p in ps then children[p] + {u} else children[p]
  }

  function Orphaned(children: map<Hash, set<Hash>>, v: Hash, ps: seq<Hash>): map<Hash, set<Hash>>
  {
    map p | p in children :: if p in ps then children[p] - {v} else children[p]
  }

  lemma {:induction false} EnrolledAt(missing: map<Hash, seq<Hash>>, u: Hash, ps: seq<Hash>, p: Hash)
    requires forall i, j :: 0 <= i < j < |ps| ==> ps[i] != ps[j]
    ensures p in Enrolled(missing, u, ps) <==> p in missing || p in ps
    ensures p in missing || p in ps ==>
      Enrolled(missing, u, ps)[p] == (if p in missing then missing[p] else []) + if p in ps then [u] else []
  {
    if ps != [] {
      var n := |ps| - 1;
      EnrolledAt(missing, u, ps[..n], p);
      LastMember(ps, p);
      hide Enrolled;
      EnrolledLast(missing, u, ps);
    }
  }

  lemma EnrolledLast(missing: map<Hash, seq<Hash>>, u: Hash, ps: seq<Hash>)
    requires ps != []
    ensures var n, m := |ps| - 1, Enrolled(missing, u, ps[..|ps| - 1]);
      Enrolled(missing, u, ps) == m[ps[n] := if ps[n] in m then m[ps[n]] + [u] else [u]]
  {
  }

  lemma LastMember(ps: seq<Hash>, p: Hash)
    requires ps != [] && forall i, j :: 0 <= i < j < |ps| ==> ps[i] != ps[j]
    ensures p in ps <==> p in ps[..|ps| - 1] || p == ps[|ps| - 1]
    ensures ps[|ps| - 1] !in ps[..|ps| - 1]
  {
    assert ps == ps[..|ps| - 1] + [ps[|ps| - 1]];
  }

  lemma EnrolledNone(missing: map<Hash, seq<Hash>>, u: Hash, ps: seq<Hash>)
    requires ps == []
    ensures Enrolled(missing, u, ps) == missing
  {
  }

  lemma EnrolledNext(missing: map<Hash, seq<Hash>>, u: Hash, ps: seq<Hash>, i: nat)
    requires i < |ps| && (forall i, j :: 0 <= i < j < |ps| ==> ps[i] != ps[j])
    requires forall p :: p in missing ==> u !in missing[p]
    ensures var m, p := Enrolled(missing, u, ps[..i]), ps[i];
      && (p in m ==> u !in m[p])
      && Enrolled(missing, u, ps[..i + 1]) == m[p := (if p in m then m[p] else []) + [u]]
  {
    assert ps[..i + 1][..i] == ps[..i] && ps[i] !in ps[..i] && [] + [u] == [u];
    EnrolledAt(missing, u, ps[..i], ps[i]);
  }

  lemma LoweredStep(refs: map<Hash, nat>, ps: seq<Hash>, p: Hash)
    requires p !in ps && p in refs && refs[p] > 0
    ensures Lowered(refs, ps)[p] == refs[p] && Lowered(refs, ps + [p]) == Lowered(refs, ps)[p := refs[p] - 1]
  {
  }

  /** Each of `ps` occurs once, has references and nobody waiting for it. */
  predicate Held(s: State, ps: seq<Hash>)
  {
    && (forall i, j :: 0 <= i < j < |ps| ==> ps[i] != ps[j])
    && forall i :: 0 <= i < |ps| ==> ps[i] in s.refs && s.refs[ps[i]] > 0 && Waiting(s, ps[i]) == []
  }

  predicate CanUnregister(s: State, key: Hash)
  {
    key in s.unhandled ==> key in s.resolved && Held(s, s.resolved[key])
  }

  /** `ready` are the joints whose trigger has fired between the two counts. */
  ghost predicate Rose(before: map<Hash, nat>, after: map<Hash, nat>, ready: seq<Hash>)
  {
    forall c :: c in ready <==> c in before && c in after && after[c] == before[c] + 1
  }

  lemma RoseNone(fired: map<Hash, nat>)
    ensures Rose(fired, fired, [])
  {
  }

  lemma RoseStep(start: map<Hash, nat>, before: map<Hash, nat>, after: map<Hash, nat>, ready: seq<Hash>, c: Hash)
    requires Rose(start, before, ready) && c in start && c in before && before[c] == start[c]
    requires after.Keys == before.Keys && forall b :: b in after && b != c ==> after[b] == before[b]
    ensures after[c] == before[c] ==> Rose(start, after, ready)
    ensures after[c] == before[c] + 1 ==> Rose(start, after, ready + [c])
  {
  }

  /** The normal joints `gone` have gone; what remains of the cache follows from its consistency. */
  ghost predicate Gone(sys: System, sys': System, gone: set<Hash>)
  {
    var s, s' := sys.cache, sys'.cache;
    && s'.normal == s.normal - gone && s'.unhandled == s.unhandled && s'.bad == s.bad && s'.missing == s.missing
    && s'.resolved == s.resolved && s'.refs == s.refs && s'.count == s.count && s'.fired == s.fired
    && s'.orphans == s.orphans && s'.late == s.late
    && sys'.adding == sys.adding && sys'.unpolled == sys.unpolled
  }

  lemma NoneGone(sys: System)
    ensures Gone(sys, sys, {})
  {
  }

  class SDagCache {
    const d: Dag
    var normal: set<Hash>
    var free: set<Hash>
    var unhandled: set<Hash>
    var bad: set<Hash>
    var missing: map<Hash, seq<Hash>>
    var resolved: map<Hash, seq<Hash>>
    var count: map<Hash, nat>
    var refs: map<Hash, nat>
    var children: map<Hash, set<Hash>>
    ghost var fired: map<Hash, nat>
    ghost var orphans: set<Hash>
    ghost var late: set<(Hash, Hash)>
    ghost var adding: map<Hash, Phase>
    ghost var unpolled: set<Hash>

    ghost function View(): State
      reads this
    {
      State(normal, free, unhandled, bad, missing, resolved, count, refs, children, fired, orphans, late)
    }

    ghost function Sys(): System
      reads this
    {
      System(View(), adding, unpolled)
    }

    ghost predicate Valid()
      reads this
    {
      SystemOk(d, Sys())
    }

    constructor (d: Dag)
      requires UnitsOk(d)
      ensures Valid() && Sys() == START && this.d == d
    {
      this.d := d;
      normal, free, unhandled, bad := {}, {}, {}, {};
      missing, resolved, count, refs, children := map[], map[], map[], map[], map[];
      fired, orphans, late, adding, unpolled := map[], {}, {}, map[], {};
      new;
      StartOk(d);
    }

    /** add_missing_parent: the child is listed once more only if it is not listed yet. */
    method AddMissingParent(p: Hash, u: Hash)
      modifies this`missing
      ensures p in missing && multiset(missing[p]) == multiset(Waiting(old(View()), p)) + (
        if u in Waiting(old(View()), p) then multiset{} else multiset{u})
      ensures Waiting(old(View()), p) <= missing[p]
      ensures forall q :: q != p ==>
        (q in missing <==> q in old(missing)) && (q in missing ==> missing[q] == old(missing)[q])
    {
      if p in missing {
        if u !in missing[p] { missing := missing[p := missing[p] + [u]]; }
      } else {
        missing := missing[p := [u]];
      }
    }

    /** The valid parents of a new joint get one more reference each. */
    method RaiseRefs(ps: seq<Hash>)
      requires forall i, j :: 0 <= i < j < |ps| ==> ps[i] != ps[j]
      requires forall i :: 0 <= i < |ps| ==> ps[i] in refs
      modifies this`refs
      ensures refs == Raised(old(refs), ps)
    {
      assert refs == Raised(refs, ps[..0]);
      for i := 0 to |ps|
        invariant refs == Raised(old(refs), ps[..i])
      {
        assert ps[i] !in ps[..i] && ps[..i + 1] == ps[..i] + [ps[i]];
        refs := refs[ps[i] := refs[ps[i]] + 1];
        assert refs == Raised(old(refs), ps[..i + 1]);
      }
      assert ps[..|ps|] == ps;
    }

    /** A new joint waits under each parent it lacks. */
    method Enroll(u: Hash, ps: seq<Hash>)
      requires forall i, j :: 0 <= i < j < |ps| ==> ps[i] != ps[j]
      requires forall p :: p in missing ==> u !in missing[p]
      modifies this`missing
      ensures missing == Enrolled(old(missing), u, ps)
    {
      hide Enrolled;
      EnrolledNone(missing, u, ps[..0]);
      for i := 0 to |ps|
        invariant missing == Enrolled(old(missing), u, ps[..i])
      {
        EnrolledNext(old(missing), u, ps, i);
        ghost var list := Waiting(View(), ps[i]);
        AddMissingParent(ps[i], u);
        OneAppended(list, missing[ps[i]], u);
      }
      assert ps[..|ps|] == ps;
    }

    /** The parents of a new joint: those that are normal, and those that are missing. */
    method SortParents(ps: seq<Hash>) returns (valid: seq<Hash>, lacking: seq<Hash>)
      ensures valid == Keep(ps, normal) && lacking == Absent(ps, normal)
    {
      valid, lacking := [], [];
      for i := 0 to |ps|
        invariant valid == Keep(ps[..i], normal) && lacking == Absent(ps[..i], normal)
      {
        assert ps[..i + 1][..i] == ps[..i];
        if ps[i] in normal { valid := valid + [ps[i]]; } else { lacking := lacking + [ps[i]]; }
      }
      assert ps[..|ps|] == ps;
    }

    /** add_unhandled_joint, with the data of the new joint. */
    method AddUnhandledJoint(u: Hash, valid: seq<Hash>)
      modifies this`unhandled, this`resolved, this`count, this`refs, this`children, this`fired, this`orphans
      ensures unhandled == old(unhandled) + {u} && resolved == old(resolved)[u := valid]
      ensures count == old(count)[u := |valid|] && refs == old(refs)[u := 0]
      ensures children == old(children)[u := {}] && fired == old(fired)[u := 0]
      ensures orphans == if BadParent(d, old(View()), u) then old(orphans) + {u} else old(orphans) - {u}
    {
      orphans := if BadParent(d, View(), u) then orphans + {u} else orphans - {u};
      resolved := resolved[u := valid];
      count := count[u := |valid|];
      refs := refs[u := 0];
      children := children[u := {}];
      fired := fired[u := 0];
      unhandled := unhandled + {u};
    }

    /** The write section of add_new_joint. */
    method Commit(u: Hash)
      requires Valid() && IsNew(d, View(), u)
      modifies this`unhandled, this`resolved, this`count, this`refs, this`children, this`fired, this`orphans,
        this`missing
      ensures View() == Insert(d, old(View()), u)
    {
      hide SystemOk; hide IsNew; hide Insert; hide Keep; hide Absent; hide Raised; hide Enrolled; hide Waiting;
      hide BadParent;
      ghost var s := View();
      CommitFacts(d, Sys(), u);
      var valid, lacking := SortParents(d.units[u].parents);
      RaiseRefs(valid);
      ghost var raised := View();
      AddUnhandledJoint(u, valid);
      Enroll(u, lacking);
      BadParentFrame(d, s, raised, u);
      InsertIs(d, s, View(), u);
    }

    /** check_new_joint, under the read lock. */
    method CheckNewJoint(u: Hash) returns (known: bool)
      requires Valid() && u !in adding
      modifies this`adding
      ensures Valid() && Sys() == Next(d, old(Sys()), Check(u))
      ensures known <==> u in normal || u in unhandled || u in bad
    {
      CheckKeeps(d, Sys(), Check(u));
      known := u in normal || u in unhandled || u in bad;
      if !known { adding := adding[u := Checked]; }
    }

    /** The format check and, under the read lock again, the search for a bad parent. */
    method ScreenJoint(u: Hash, wellFormed: bool) returns (ok: bool)
      requires Valid() && In(Sys(), u, Checked) && (wellFormed ==> u in d.units)
      modifies this`adding
      ensures Valid() && Sys() == Next(d, old(Sys()), Screen(u, wellFormed))
      ensures ok <==> In(Sys(), u, Passing)
    {
      ghost var sys := Sys();
      CheckKeeps(d, sys, Screen(u, wellFormed));
      hide SystemOk;
      ok := wellFormed;
      if wellFormed {
        var ps := d.units[u].parents;
        for i := 0 to |ps|
          invariant ok <==> forall j :: 0 <= j < i ==> ps[j] !in bad
          invariant Sys() == sys
        {
          if ps[i] in bad { ok := false; }
        }
        assert ok <==> !BadParent(d, View(), u);
      }
      adding := adding[u := if ok then Passing else Failing];
    }

    /** The write section, for a joint that passed. */
    method CommitJoint(u: Hash)
      requires Valid() && In(Sys(), u, Passing) && u in d.units
      modifies this
      ensures Valid() && Sys() == Next(d, old(Sys()), CacheRun.Step.Commit(u))
    {
      hide SystemOk; hide Insert; hide IsNew;
      CommitKeeps(d, Sys(), u);
      Commit(u);
      adding := adding - {u};
      unpolled := unpolled + {u};
    }

    /** A joint that did not pass is recorded as bad. */
    method DiscardJoint(u: Hash)
      requires Valid() && In(Sys(), u, Failing)
      modifies this
      ensures Valid() && Sys() == Next(d, old(Sys()), Discard(u))
    {
      DiscardKeeps(d, Sys(), u);
      NotKnownPurgeable(d, Sys(), u);
      hide SystemOk; hide PurgeAll; hide Purgeable;
      PurgeBadJoint(u);
      adding := adding - {u};
    }

    /** is_ready: a compare-and-swap of the valid parent number with zero. */
    method IsReady(c: Hash) returns (ready: bool)
      requires HasKeys(d, View(), c)
      modifies this`count, this`fired
      ensures View() == Poll(d, old(View()), c)
      ensures ready == (fired[c] == old(fired[c]) + 1)
    {
      ready := count[c] == |d.units[c].parents|;
      if ready {
        count := count[c := 0];
        fired := fired[c := fired[c] + 1];
      }
    }

    /** The look of whoever added the joint. */
    method LookReady(u: Hash) returns (ready: bool)
      requires Valid() && u in unpolled
      modifies this
      ensures Valid() && Enabled(d, old(Sys()), Look(u)) && Sys() == Next(d, old(Sys()), Look(u))
      ensures ready == (fired[u] == old(fired[u]) + 1)
    {
      assert Pending(d, View(), u);
      LookKeeps(d, Sys(), u);
      ready := IsReady(u);
      unpolled := unpolled - {u};
    }

    /** purge_bad_joint. */
    method PurgeBadJoint(u: Hash)
      requires Valid() && Purgeable(d, View(), u)
      modifies this
      ensures View() == PurgeAll(old(View()), [u]) && adding == old(adding) && unpolled == old(unpolled)
    {
      ghost var s := View();
      var stack := [u];
      StartPurge(d, s, u, unpolled);
      assert forall c :: c in Elements(stack) ==> c == u;
      hide SystemOk; hide Purgeable; hide InvWhile; hide PurgeOne; hide Elements; hide AllOf; hide Push; hide Inv;
      hide CanUnregister;
      while stack != []
        invariant PurgeAll(View(), stack) == PurgeAll(s, [u]) && adding == old(adding) && unpolled == old(unpolled)
        invariant InvWhile(d, View(), AllOf(Elements(stack)), Elements(stack), unpolled)
        invariant forall c :: c in Elements(stack) ==> Purgeable(d, View(), c)
        decreases |missing|, |stack|
      {
        PurgeTopFacts(d, View(), stack, unpolled);
        var kids := PurgeTop(stack[|stack| - 1]);
        stack := PushAll(stack[..|stack| - 1], kids);
      }
    }

    /** One round: the joint leaves the unhandled ones and becomes bad; whoever waits for it comes next. */
    method PurgeTop(key: Hash) returns (kids: seq<Hash>)
      requires CanUnregister(View(), key)
      modifies this
      ensures View() == PurgeOne(old(View()), key) && kids == Waiting(old(View()), key)
      ensures adding == old(adding) && unpolled == old(unpolled)
    {
      ghost var s := View();
      LoweredIs(s, key);
      hide Released; hide Lowered; hide PurgeOne;
      if key in unhandled {
        unhandled := unhandled - {key};
        Unregister(key);
      }
      kids := if key in missing then missing[key] else [];
      missing := missing - {key};
      bad := bad + {key};
      assert refs == Released(s, key);
      PurgeOneIs(s, View(), key);
    }

    /** A purged joint gives back its references and is unregistered under its resolved parents. */
    method Unregister(key: Hash)
      requires key in resolved && Held(View(), resolved[key])
      modifies this`refs, this`missing
      ensures refs == Lowered(old(refs), resolved[key]) && missing == old(missing)
    {
      var ps := resolved[key];
      assert refs == Lowered(refs, ps[..0]);
      hide Lowered; hide Keep; hide Elements; hide Held; hide Waiting;
      for i := 0 to |ps|
        invariant refs == Lowered(old(refs), ps[..i]) && missing == old(missing)
      {
        HeldStep(old(View()), ps, i, key);
        refs := refs[ps[i] := refs[ps[i]] - 1];
        if ps[i] in missing {
          missing := missing[ps[i] := Keep(missing[ps[i]], Elements(missing[ps[i]]) - {key})];
        }
      }
      assert ps[..|ps|] == ps;
    }

    /** normalize_joint: transfer_joint_to_normal, then update_parent_and_child; `ready` are the joints it triggers. */
    method NormalizeJoint(u: Hash) returns (ready: seq<Hash>)
      requires Valid() && u in unhandled && u in fired && fired[u] > 0
      modifies this
      ensures Valid() && Enabled(d, old(Sys()), Accept(u)) && Sys() == Next(d, old(Sys()), Accept(u))
      ensures Rose(old(fired), fired, ready)
    {
      ghost var s := View();
      hide SystemOk; hide Waited; hide Enabled; hide HasKeys; hide AllKeys; hide Next; hide TellAll; hide Joined;
      hide Link; hide Rose; hide Transfer; hide Waiting;
      NormalizeFacts(d, Sys(), u);
      var kids := TransferJoint(u);
      ready := TellKids(u, kids);
      LinkParents(u);
    }

    /** transfer_joint_to_normal, and taking the missing-parent entry. */
    method TransferJoint(u: Hash) returns (kids: seq<Hash>)
      modifies this`unhandled, this`normal, this`missing
      ensures View() == Transfer(old(View()), u) && kids == Waiting(old(View()), u)
    {
      unhandled := unhandled - {u};
      normal := normal + {u};
      kids := if u in missing then missing[u] else [];
      missing := missing - {u};
    }

    /** The joints waiting for `u` get their parent, and are triggered if it was the last one. */
    method TellKids(u: Hash, kids: seq<Hash>) returns (ready: seq<Hash>)
      requires u in refs && AllKeys(d, View(), kids) && forall i, j :: 0 <= i < j < |kids| ==> kids[i] != kids[j]
      modifies this`refs, this`resolved, this`count, this`fired, this`late
      ensures View() == TellAll(d, old(View()), u, kids)
      ensures Rose(old(fired), fired, ready)
    {
      ready := [];
      ghost var s := View();
      hide HasKeys; hide Resolve; hide Rose; hide TellAll; hide AllKeys;
      RoseNone(fired);
      TellNone(d, s, u, kids[..0]);
      for i := 0 to |kids|
        invariant AllKeys(d, s, kids[..i]) && View() == TellAll(d, s, u, kids[..i])
        invariant Rose(s.fired, fired, ready)
      {
        TellOneMore(d, s, u, kids, i);
        ghost var before := fired;
        var now := TellKid(u, kids[i]);
        RoseStep(s.fired, before, fired, ready, kids[i]);
        if now { ready := ready + [kids[i]]; }
      }
      assert kids[..|kids|] == kids;
    }

    /** add_parent for one waiting joint, then its look whether it is ready. */
    method TellKid(u: Hash, c: Hash) returns (now: bool)
      requires u in refs && HasKeys(d, View(), c)
      modifies this`refs, this`resolved, this`count, this`fired, this`late
      ensures View() == Resolve(d, old(View()), u, c)
      ensures fired.Keys == old(fired).Keys && (forall b :: b in fired && b != c ==> fired[b] == old(fired)[b])
      ensures now == (fired[c] == old(fired)[c] + 1) && (!now ==> fired[c] == old(fired)[c])
    {
      ResolveFired(d, View(), u, c);
      ghost var told := Tell(View(), u, c);
      late := if c in bad then late + {(c, u)} else late;
      refs := refs[u := refs[u] + 1];
      resolved := resolved[c := resolved[c] + [u]];
      count := count[c := count[c] + 1];
      assert View() == told;
      hide Poll; hide Tell; hide HasKeys;
      now := IsReady(c);
    }

    /** The new normal joint becomes a child of its parents, which are free no longer. */
    method LinkParents(u: Hash)
      requires u in resolved && Joined(View(), resolved[u])
      modifies this`free, this`children, this`refs
      ensures View() == Link(old(View()), u)
    {
      var ps := resolved[u];
      ghost var s := View();
      LinkNone(s, u, ps[..0]);
      hide Adopted; hide Lowered; hide Elements; hide Joined;
      for i := 0 to |ps|
        invariant free == s.free - Elements(ps[..i]) && children == Adopted(s.children, u, ps[..i])
        invariant refs == Lowered(s.refs, ps[..i])
      {
        LinkStep(s, u, ps, i);
        free := free - {ps[i]};
        children := children[ps[i] := children[ps[i]] + {u}];
        refs := refs[ps[i] := refs[ps[i]] - 1];
      }
      assert ps[..|ps|] == ps;
      free := free + {u};
    }

    /** A rejected joint, and everything waiting below it. */
    method RejectJoint(u: Hash)
      requires Valid() && u in unhandled && u in fired && fired[u] > 0
      modifies this
      ensures Valid() && Sys() == Next(d, old(Sys()), Reject(u))
    {
      TriggeredUnhandled(d, View(), u, unpolled);
      RejectKeeps(d, Sys(), u);
      PurgeBadJoint(u);
    }

    /** purge_free_joint. */
    method PurgeFreeJoint(v: Hash)
      requires Valid() && CanPurgeFree(View(), v)
      modifies this
      ensures Valid() && Enabled(d, old(Sys()), Collect(v)) && Sys() == Next(d, old(Sys()), Collect(v))
    {
      ghost var s := View();
      hide SystemOk; hide CanPurgeFree; hide Orphaned; hide PurgeFree; hide FreeAgain;
      CollectFacts(d, Sys(), v);
      free := free - {v};
      normal := normal - {v};
      var ps := resolved[v];
      OrphanedNone(s, v, ps[..0]);
      for i := 0 to |ps|
        invariant children == Orphaned(s.children, v, ps[..i]) && free == FreeAgain(s, v, ps[..i])
        invariant View() == s.(normal := s.normal - {v}, free := free, children := children)
        invariant adding == old(adding) && unpolled == old(unpolled)
      {
        OrphanedStep(s, v, ps, i);
        children := children[ps[i] := children[ps[i]] - {v}];
        if children[ps[i]] == {} { free := free + {ps[i]}; }
      }
      assert ps[..|ps|] == ps;
      assert View() == PurgeFree(s, v) by { PurgeFreeIs(s, View(), v); }
    }

    /** purge_old_temp_bad_free_joints; `tempBad` are the temp-bad joints past the timeout that no witness wrote. */
    method PurgeOldTempBadFreeJoints(tempBad: set<Hash>)
      requires Valid()
      modifies this
      ensures Valid()
      ensures Gone(old(Sys()), Sys(), set v | v in old(free) && v in tempBad && v in old(refs) && old(refs)[v] == 0)
    {
      ghost var start := Sys();
      hide SystemOk;
      NoneGone(start);
      var all := set v | v in free && v in tempBad && v in refs && refs[v] == 0;
      var todo := all;
      assert forall v :: v in todo ==> CanPurgeFree(View(), v);
      assert all - todo == {};
      hide CanPurgeFree; hide Enabled; hide Next; hide Gone; hide View;
      while todo != {}
        invariant Valid() && todo <= all && Gone(start, Sys(), all - todo)
        invariant forall v :: v in todo ==> CanPurgeFree(View(), v)
        decreases |todo|
      {
        var v :| v in todo;
        ghost var before := Sys();
        PurgeFreeJoint(v);
        CollectEffect(d, start, before, all - todo, v);
        assert all - (todo - {v}) == (all - todo) + {v};
        todo := todo - {v};
      }
    }
  }

  lemma BadParentFrame(d: Dag, s: State, t: State, u: Hash)
    requires s.bad == t.bad
    ensures BadParent(d, s, u) == BadParent(d, t, u)
  {
  }

  lemma InsertIs(d: Dag, s: State, r: State, u: Hash)
    requires u in d.units
    requires forall i, j :: 0 <= i < j < |Absent(d.units[u].parents, s.normal)| ==>
      Absent(d.units[u].parents, s.normal)[i] != Absent(d.units[u].parents, s.normal)[j]
    requires r.normal == s.normal && r.free == s.free && r.bad == s.bad && r.unhandled == s.unhandled + {u}
    requires r.resolved == s.resolved[u := Keep(d.units[u].parents, s.normal)]
    requires r.count == s.count[u := |Keep(d.units[u].parents, s.normal)|]
    requires r.refs == Raised(s.refs, Keep(d.units[u].parents, s.normal))[u := 0]
    requires r.children == s.children[u := {}] && r.fired == s.fired[u := 0]
    requires r.late == s.late && r.orphans == if BadParent(d, s, u) then s.orphans + {u} else s.orphans - {u}
    requires r.missing == Enrolled(s.missing, u, Absent(d.units[u].parents, s.normal))
    ensures r == Insert(d, s, u)
  {
    var ps := d.units[u].parents;
    EnrolledIs(s, u, ps, Absent(ps, s.normal));
    hide Enrolled; hide Waiting; hide Absent; hide Keep; hide Raised; hide BadParent;
  }

  lemma EnrolledIs(s: State, u: Hash, ps: seq<Hash>, lacking: seq<Hash>)
    requires forall x :: x in lacking <==> x in ps && x !in s.normal
    requires forall i, j :: 0 <= i < j < |lacking| ==> lacking[i] != lacking[j]
    ensures Enrolled(s.missing, u, lacking) ==
      map p | p in s.missing.Keys + (set q | q in ps && q !in s.normal) ::
        Waiting(s, p) + if p in ps && p !in s.normal then [u] else []
  {
    hide Enrolled;
    var m := Enrolled(s.missing, u, lacking);
    forall p ensures
      && (p in m <==> p in s.missing || p in lacking)
      && (p in m ==> m[p] == Waiting(s, p) + if p in lacking then [u] else [])
    {
      EnrolledAt(s.missing, u, lacking, p);
    }
    hide Waiting;
    var t := map p | p in s.missing.Keys + (set q | q in ps && q !in s.normal) ::
      Waiting(s, p) + if p in ps && p !in s.normal then [u] else [];
    assert forall p :: p in t <==> p in m;
    assert forall p :: p in m ==> t[p] == m[p];
  }

  /** Pushing each child that is not on the stack yet. */
  method PushAll(stack: seq<Hash>, kids: seq<Hash>) returns (r: seq<Hash>)
    ensures r == Push(stack, kids)
  {
    r := stack;
    for i := 0 to |kids|
      invariant r == Push(stack, kids[..i])
    {
      assert kids[..i + 1][..i] == kids[..i];
      if kids[i] !in r { r := r + [kids[i]]; }
    }
    assert kids[..|kids|] == kids;
  }

  /** One parent of a purged joint: a reference goes back, and nobody is listed under it. */
  lemma HeldStep(s: State, ps: seq<Hash>, i: nat, key: Hash)
    requires Held(s, ps) && i < |ps|
    ensures var p, m := ps[i], Lowered(s.refs, ps[..i]);
      && p in m && m[p] > 0 && Lowered(s.refs, ps[..i + 1]) == m[p := m[p] - 1]
      && (p in s.missing ==> s.missing[p := Keep(s.missing[p], Elements(s.missing[p]) - {key})] == s.missing)
  {
    assert ps[i] !in ps[..i] && ps[..i + 1] == ps[..i] + [ps[i]];
    LoweredStep(s.refs, ps[..i], ps[i]);
    hide Lowered;
    assert Waiting(s, ps[i]) == [];
    assert Keep([], {}) == [];
  }

  lemma OneAppended(s: seq<Hash>, t: seq<Hash>, u: Hash)
    requires s <= t && multiset(t) == multiset(s) + multiset{u}
    ensures t == s + [u]
  {
    assert t == s + t[|s|..];
    assert multiset(t) == multiset(s) + multiset(t[|s|..]);
    assert multiset(t[|s|..]) == multiset(t) - multiset(s) == multiset{u};
    assert |multiset(t[|s|..])| == 1;
    assert t[|s|] in multiset(t[|s|..]);
  }

  lemma NotKnownPurgeable(d: Dag, sys: System, u: Hash)
    requires SystemOk(d, sys) && In(sys, u, Failing)
    ensures Purgeable(d, sys.cache, u)
  {
    assert sys.adding[u] == Failing && !Known(sys.cache, u);
  }

  lemma CommitFacts(d: Dag, sys: System, u: Hash)
    requires SystemOk(d, sys) && IsNew(d, sys.cache, u)
    ensures u in d.units
    ensures var valid := Keep(d.units[u].parents, sys.cache.normal);
      && (forall i, j :: 0 <= i < j < |valid| ==> valid[i] != valid[j])
      && (forall i :: 0 <= i < |valid| ==> valid[i] in sys.cache.refs)
    ensures var lacking := Absent(d.units[u].parents, sys.cache.normal);
      forall i, j :: 0 <= i < j < |lacking| ==> lacking[i] != lacking[j]
    ensures forall p :: p in sys.cache.missing ==> u !in sys.cache.missing[p]
  {
    var s := sys.cache;
    InvParts(d, s, sys.unpolled);
    assert forall p :: p in s.normal ==> HasData(d, s, p);
    forall p | p in s.missing ensures u !in s.missing[p] { assert s.missing[p] == Waiting(s, p); }
    var valid := Keep(d.units[u].parents, s.normal);
    assert forall i :: 0 <= i < |valid| ==> valid[i] in valid;
  }

  lemma TopHeld(d: Dag, s: State, key: Hash, p: Hash, exempt: iset<(Hash, Hash)>)
    requires DataOk(d, s) && ResolvedOk(d, s) && WaitsOk(d, s, exempt) && RefsOk(s)
    requires key in s.unhandled && key in s.resolved && p in s.resolved[key]
    ensures p in s.normal && p in s.refs && s.refs[p] > 0 && Waiting(s, p) == []
  {
    assert p in s.normal;
    assert HasData(d, s, p);
    assert key in Holders(s, p);
    assert forall c :: c !in Waiting(s, p);
    NoMembers(Waiting(s, p));
  }

  lemma TopParts(d: Dag, s: State, exempt: iset<(Hash, Hash)>, purging: set<Hash>, unpolled: set<Hash>)
    requires InvWhile(d, s, exempt, purging, unpolled)
    ensures DataOk(d, s) && ResolvedOk(d, s) && WaitsOk(d, s, exempt) && RefsOk(s)
  {
    hide DataOk; hide ResolvedOk; hide WaitsOk; hide RefsOk;
  }

  lemma TopUnhandled(d: Dag, s: State, key: Hash, exempt: iset<(Hash, Hash)>, purging: set<Hash>, unpolled: set<Hash>)
    requires InvWhile(d, s, exempt, purging, unpolled) && key in s.unhandled
    ensures key in s.resolved && Held(s, s.resolved[key])
  {
    TopParts(d, s, exempt, purging, unpolled);
    hide InvWhile;
    assert HasData(d, s, key);
    forall i | 0 <= i < |s.resolved[key]|
      ensures var p := s.resolved[key][i]; p in s.refs && s.refs[p] > 0 && Waiting(s, p) == []
    {
      TopHeld(d, s, key, s.resolved[key][i], exempt);
    }
  }

  /** What the top of the purge stack satisfies, and what purging it leaves. */
  lemma PurgeTopFacts(d: Dag, s: State, stack: seq<Hash>, unpolled: set<Hash>)
    requires stack != [] && InvWhile(d, s, AllOf(Elements(stack)), Elements(stack), unpolled)
    requires forall c :: c in Elements(stack) ==> Purgeable(d, s, c)
    ensures var key := stack[|stack| - 1];
      && InvWhile(d, PurgeOne(s, key), AllOf(Elements(After(s, stack))), Elements(After(s, stack)), unpolled)
      && (forall c :: c in Elements(After(s, stack)) ==> Purgeable(d, PurgeOne(s, key), c))
      && (|PurgeOne(s, key).missing| < |s.missing|
           || (PurgeOne(s, key).missing == s.missing && |After(s, stack)| < |stack|))
      && CanUnregister(s, key)
  {
    hide InvWhile; hide Purgeable; hide PurgeOne; hide Elements; hide After; hide AllOf; hide Waiting;
    var key := stack[|stack| - 1];
    LastElement(stack);
    PurgeKeeps(d, s, key, Elements(stack[..|stack| - 1]), unpolled);
    PurgeOneFrame(s, key);
    if key in s.unhandled { TopUnhandled(d, s, key, AllOf(Elements(stack)), Elements(stack), unpolled); }
    hide Held;
  }

  lemma PurgeOneIs(s: State, r: State, key: Hash)
    requires r.unhandled == s.unhandled - {key} && r.bad == s.bad + {key} && r.missing == s.missing - {key}
    requires r.refs == Released(s, key)
    requires r.normal == s.normal && r.free == s.free && r.resolved == s.resolved && r.count == s.count
    requires r.children == s.children && r.fired == s.fired && r.orphans == s.orphans && r.late == s.late
    ensures r == PurgeOne(s, key)
  {
  }

  lemma LoweredIs(s: State, key: Hash)
    ensures key in s.unhandled && key in s.resolved ==> Released(s, key) == Lowered(s.refs, s.resolved[key])
    ensures key !in s.unhandled ==> Released(s, key) == s.refs && s.unhandled - {key} == s.unhandled
  {
  }

  lemma AdoptedStep(children: map<Hash, set<Hash>>, u: Hash, ps: seq<Hash>, p: Hash)
    requires p !in ps && p in children
    ensures p in Adopted(children, u, ps) && Adopted(children, u, ps)[p] == children[p]
    ensures Adopted(children, u, ps + [p]) == Adopted(children, u, ps)[p := children[p] + {u}]
  {
  }

  /** Each of `ps` occurs once, has references and a list of children. */
  predicate Joined(s: State, ps: seq<Hash>)
  {
    && (forall i, j :: 0 <= i < j < |ps| ==> ps[i] != ps[j])
    && forall i :: 0 <= i < |ps| ==> ps[i] in s.refs && s.refs[ps[i]] > 0 && ps[i] in s.children
  }

  /** transfer_joint_to_normal, and taking the missing-parent entry. */
  function Transfer(s: State, u: Hash): State
  {
    s.(unhandled := s.unhandled - {u}, normal := s.normal + {u}, missing := s.missing - {u})
  }

  /** The second half of update_parent_and_child. */
  function Link(s: State, u: Hash): State
    requires u in s.resolved
  {
    s.(free := s.free - Elements(s.resolved[u]) + {u},
       children := Adopted(s.children, u, s.resolved[u]),
       refs := Lowered(s.refs, s.resolved[u]))
  }

  lemma LinkNone(s: State, u: Hash, ps: seq<Hash>)
    requires ps == []
    ensures s.free == s.free - Elements(ps) && s.children == Adopted(s.children, u, ps) && s.refs == Lowered(s.refs, ps)
  {
  }

  lemma LinkStep(s: State, u: Hash, ps: seq<Hash>, i: nat)
    requires Joined(s, ps) && i < |ps|
    ensures var p, done, more := ps[i], ps[..i], ps[..i + 1];
      && p in Lowered(s.refs, done) && Lowered(s.refs, done)[p] > 0
      && Lowered(s.refs, more) == Lowered(s.refs, done)[p := Lowered(s.refs, done)[p] - 1]
      && p in Adopted(s.children, u, done)
      && Adopted(s.children, u, more) == Adopted(s.children, u, done)[p := Adopted(s.children, u, done)[p] + {u}]
      && s.free - Elements(more) == s.free - Elements(done) - {p}
  {
    var p, done, more := ps[i], ps[..i], ps[..i + 1];
    assert p !in done && more == done + [p] && more[..i] == done;
    LastElement(more);
    hide Elements;
    LoweredStep(s.refs, done, p);
    AdoptedStep(s.children, u, done, p);
    hide Lowered; hide Adopted;
  }

  lemma PromoteIs(d: Dag, s: State, u: Hash)
    requires u in s.resolved
    ensures Promote(d, s, u) == Link(Transfer(s, u), u)
  {
    assert (set p | p in s.resolved[u]) == Elements(s.resolved[u]);
  }

  /** Telling a waiting joint and linking the parents touch different things. */
  lemma LinkCommutes(d: Dag, s: State, u: Hash, c: Hash)
    requires u in s.resolved && u !in s.resolved[u] && u in s.refs && HasKeys(d, s, c) && c != u
    ensures u in Resolve(d, s, u, c).resolved && Resolve(d, s, u, c).resolved[u] == s.resolved[u]
    ensures Resolve(d, Link(s, u), u, c) == Link(Resolve(d, s, u, c), u)
  {
    var ps := s.resolved[u];
    assert Lowered(s.refs[u := s.refs[u] + 1], ps) == Lowered(s.refs, ps)[u := Lowered(s.refs, ps)[u] + 1];
    hide Lowered; hide Adopted;
  }

  lemma LinkKeys(d: Dag, s: State, u: Hash, kids: seq<Hash>)
    requires u in s.resolved && u in s.refs && AllKeys(d, s, kids)
    ensures AllKeys(d, Link(s, u), kids) && u in Link(s, u).refs
  {
    forall i | 0 <= i < |kids| ensures HasKeys(d, Link(s, u), kids[i]) { assert HasKeys(d, s, kids[i]); }
  }

  lemma ResolveFired(d: Dag, s: State, u: Hash, c: Hash)
    requires u in s.refs && HasKeys(d, s, c)
    ensures var r := Resolve(d, s, u, c).fired;
      && r.Keys == s.fired.Keys && (forall b :: b in r && b != c ==> r[b] == s.fired[b])
      && (r[c] == s.fired[c] || r[c] == s.fired[c] + 1)
    ensures Resolve(d, s, u, c) == Poll(d, Tell(s, u, c), c) && HasKeys(d, Tell(s, u, c), c)
  {
  }

  lemma ResolveFrame(d: Dag, s: State, u: Hash, c: Hash)
    requires u in s.refs && HasKeys(d, s, c)
    ensures Resolve(d, s, u, c).children == s.children
    ensures forall p :: p in s.refs && p != u ==> Resolve(d, s, u, c).refs[p] == s.refs[p]
  {
  }

  lemma {:induction false} TellLink(d: Dag, s: State, u: Hash, kids: seq<Hash>)
    requires u in s.resolved && u !in s.resolved[u] && u in s.refs && AllKeys(d, s, kids) && u !in kids
    ensures TellAll(d, s, u, kids).resolved[u] == s.resolved[u]
    ensures AllKeys(d, Link(s, u), kids) && u in Link(s, u).refs
    ensures TellAll(d, Link(s, u), u, kids) == Link(TellAll(d, s, u, kids), u)
    ensures TellAll(d, s, u, kids).children == s.children
    ensures forall p :: p in s.refs && p != u ==> TellAll(d, s, u, kids).refs[p] == s.refs[p]
  {
    if kids != [] {
      var n := |kids| - 1;
      TellLink(d, s, u, kids[..n]);
      assert HasKeys(d, s, kids[n]);
      hide Link; hide Resolve;
      LinkCommutes(d, TellAll(d, s, u, kids[..n]), u, kids[n]);
      LinkKeys(d, s, u, kids);
      ResolveFrame(d, TellAll(d, s, u, kids[..n]), u, kids[n]);
    }
  }

  /** What normalising needs, and what it comes to. */
  lemma NormalizeFacts(d: Dag, sys: System, u: Hash)
    requires SystemOk(d, sys) && u in sys.cache.unhandled && u in sys.cache.fired && sys.cache.fired[u] > 0
    ensures Enabled(d, sys, Accept(u)) && SystemOk(d, Next(d, sys, Accept(u)))
    ensures var s := Transfer(sys.cache, u); var kids := Waiting(sys.cache, u);
      && u in s.refs && u in s.resolved && AllKeys(d, s, kids)
      && (forall i, j :: 0 <= i < j < |kids| ==> kids[i] != kids[j])
      && var t := TellAll(d, s, u, kids);
      && u in t.resolved && Joined(t, t.resolved[u])
      && Next(d, sys, Accept(u)) == System(Link(t, u), sys.adding, sys.unpolled)
      && Link(t, u).fired == t.fired
  {
    var s := sys.cache;
    TriggeredUnhandled(d, s, u, sys.unpolled);
    hide CanPromote; hide Purgeable; hide CanTell; hide Inv; hide Joined; hide AllKeys; hide Pending;
    WaitersCanBeTold(d, s, u, sys.unpolled);
    AcceptKeeps(d, sys, u);
    NormalizeJoined(d, s, u, sys.unpolled);
    hide SystemOk;
    NormalizeSplit(d, s, u);
    hide Waiting; hide TellAll; hide Normalize; hide Promote;
  }

  lemma NormalizeSplit(d: Dag, s: State, u: Hash)
    requires Waited(d, s, u) && AllKeys(d, Promote(d, s, u), Waiting(s, u)) && u in Promote(d, s, u).refs
    requires Joined(s, s.resolved[u]) && u !in s.resolved[u] && u !in Waiting(s, u)
    ensures AllKeys(d, Transfer(s, u), Waiting(s, u))
    ensures var t := TellAll(d, Transfer(s, u), u, Waiting(s, u));
      u in t.resolved && Joined(t, t.resolved[u]) && Normalize(d, s, u) == Link(t, u)
  {
    PromoteIs(d, s, u);
    var t, kids := Transfer(s, u), Waiting(s, u);
    TransferKeys(d, s, u, kids);
    hide Promote; hide TellAll; hide Waiting; hide Link; hide Transfer; hide AllKeys; hide Joined;
    TellLink(d, t, u, kids);
    JoinedSame(s, TellAll(d, t, u, kids), s.resolved[u], u);
  }

  lemma TransferKeys(d: Dag, s: State, u: Hash, kids: seq<Hash>)
    requires AllKeys(d, s, kids)
    ensures var t := Transfer(s, u);
      AllKeys(d, t, kids) && t.refs == s.refs && t.resolved == s.resolved && t.children == s.children
  {
    var t := Transfer(s, u);
    forall i | 0 <= i < |kids| ensures HasKeys(d, t, kids[i]) { assert HasKeys(d, s, kids[i]); }
  }

  lemma JoinedSame(s: State, t: State, ps: seq<Hash>, u: Hash)
    requires Joined(s, ps) && u !in ps && t.children == s.children && t.refs.Keys == s.refs.Keys
    requires forall p :: p in s.refs && p != u ==> t.refs[p] == s.refs[p]
    ensures Joined(t, ps)
  {
  }

  lemma NormalizeJoined(d: Dag, s: State, u: Hash, unpolled: set<Hash>)
    requires Inv(d, s, unpolled) && CanPromote(d, s, u)
    ensures u in s.resolved && Joined(s, s.resolved[u]) && u !in s.resolved[u] && u !in Waiting(s, u)
  {
    InvParts(d, s, unpolled);
    hide Inv;
    var ps := s.resolved[u];
    NotOwnParent(d, u);
    forall i | 0 <= i < |ps| ensures ps[i] in s.refs && s.refs[ps[i]] > 0 && ps[i] in s.children {
      TopHeld(d, s, u, ps[i], iset{});
      assert HasData(d, s, ps[i]);
    }
    assert u in Waiting(s, u) ==> Lacks(d, s, u, u);
  }

  lemma TellNone(d: Dag, s: State, u: Hash, kids: seq<Hash>)
    requires u in s.refs && kids == []
    ensures AllKeys(d, s, kids) && TellAll(d, s, u, kids) == s
  {
  }

  lemma TellOneMore(d: Dag, s: State, u: Hash, kids: seq<Hash>, i: nat)
    requires u in s.refs && AllKeys(d, s, kids) && i < |kids|
    requires forall i, j :: 0 <= i < j < |kids| ==> kids[i] != kids[j]
    ensures AllKeys(d, s, kids[..i]) && AllKeys(d, s, kids[..i + 1])
    ensures var t := TellAll(d, s, u, kids[..i]);
      && HasKeys(d, t, kids[i]) && u in t.refs && kids[i] in s.fired && t.fired[kids[i]] == s.fired[kids[i]]
      && TellAll(d, s, u, kids[..i + 1]) == Resolve(d, t, u, kids[i])
  {
    assert kids[..i + 1][..i] == kids[..i] && kids[i] !in kids[..i];
    assert HasKeys(d, s, kids[i]);
  }

  /** The free joints once `v` and its entries under `ps` are gone. */
  function FreeAgain(s: State, v: Hash, ps: seq<Hash>): set<Hash>
  {
    s.free - {v} + set p | p in ps && p in s.children && s.children[p] - {v} == {}
  }

  lemma OrphanedNone(s: State, v: Hash, ps: seq<Hash>)
    requires ps == []
    ensures Orphaned(s.children, v, ps) == s.children && FreeAgain(s, v, ps) == s.free - {v}
  {
  }

  lemma OrphanedStep(s: State, v: Hash, ps: seq<Hash>, i: nat)
    requires i < |ps| && ps[i] in s.children && forall i, j :: 0 <= i < j < |ps| ==> ps[i] != ps[j]
    ensures var p, done, more := ps[i], ps[..i], ps[..i + 1];
      && p in Orphaned(s.children, v, done)
      && Orphaned(s.children, v, more) == Orphaned(s.children, v, done)[p := Orphaned(s.children, v, done)[p] - {v}]
      && FreeAgain(s, v, more) ==
           if Orphaned(s.children, v, done)[p] - {v} == {} then FreeAgain(s, v, done) + {p} else FreeAgain(s, v, done)
  {
    var p, done, more := ps[i], ps[..i], ps[..i + 1];
    assert p !in done && more == done + [p];
    var before, after := Orphaned(s.children, v, done), Orphaned(s.children, v, more);
    assert before[p] == s.children[p];
    assert after == before[p := before[p] - {v}];
    var gone := s.children[p] - {v} == {};
    assert forall q :: q in FreeAgain(s, v, more) <==> q in FreeAgain(s, v, done) || (q == p && gone);
  }

  lemma PurgeFreeIs(s: State, r: State, v: Hash)
    requires v in s.resolved
    requires r == s.(normal := s.normal - {v}, free := FreeAgain(s, v, s.resolved[v]),
      children := Orphaned(s.children, v, s.resolved[v]))
    ensures r == PurgeFree(s, v)
  {
  }

  lemma CollectFacts(d: Dag, sys: System, v: Hash)
    requires SystemOk(d, sys) && CanPurgeFree(sys.cache, v)
    ensures Enabled(d, sys, Collect(v)) && SystemOk(d, Next(d, sys, Collect(v)))
    ensures Next(d, sys, Collect(v)) == System(PurgeFree(sys.cache, v), sys.adding, sys.unpolled)
    ensures var ps := sys.cache.resolved[v];
      && (forall i, j :: 0 <= i < j < |ps| ==> ps[i] != ps[j])
      && forall i :: 0 <= i < |ps| ==> ps[i] in sys.cache.children
  {
    var s := sys.cache;
    InvParts(d, s, sys.unpolled);
    assert v in s.normal && HasData(d, s, v);
    CollectKeeps(d, sys, v);
    hide SystemOk; hide Inv; hide PurgeFree;
    var ps := s.resolved[v];
    forall i | 0 <= i < |ps| ensures ps[i] in s.children {
      assert ps[i] in s.resolved[v];
      assert HasData(d, s, ps[i]);
    }
  }

  /** Purging one free joint leaves the other free joints alone. */
  lemma CollectEffect(d: Dag, start: System, sys: System, gone: set<Hash>, v: Hash)
    requires SystemOk(d, sys) && Enabled(d, sys, Collect(v)) && Gone(start, sys, gone)
    ensures Gone(start, Next(d, sys, Collect(v)), gone + {v})
    ensures forall w :: w != v && CanPurgeFree(sys.cache, w) ==> CanPurgeFree(Next(d, sys, Collect(v)).cache, w)
  {
    hide SystemOk;
    PurgeFreeShape(d, sys.cache, v);
    hide PurgeFree;
  }
}
