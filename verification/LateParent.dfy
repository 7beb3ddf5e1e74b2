/**
 * Two runs of the joint cache with an unwanted end. In one the parent of a joint is rejected
 * between the screening of the joint and its write section: the joint stays unhandled under
 * a known-bad parent. In the other a joint waits for two parents, one is rejected and the
 * other one accepted: the accepted one counts a reference that nobody holds.
 */
module LateParent {
  import opened Collections
  import opened Dag
  import opened Cache
  import opened CacheRun

  const WITNESSES: seq<Address> := [0, 1, 2, 3, 4, 5, 6]

  function Bare(parents: seq<Hash>, authors: seq<Address>): Unit
  {
    Unit(parents, authors, None, false, 0, 0, 0, [], [])
  }

  /** Genesis 0, its child 1 and the child 2 of 1. */
  const CHAIN: Dag :=
    Dag(map[0 := Bare([], WITNESSES), 1 := Bare([0], [7]), 2 := Bare([1], [7])], set a | a in WITNESSES, {})

  /** Genesis 0, its children 1 and 2, and their child 3. */
  const DIAMOND: Dag :=
    Dag(map[0 := Bare([], WITNESSES), 1 := Bare([0], [7]), 2 := Bare([0], [8]), 3 := Bare([1, 2], [7])],
        set a | a in WITNESSES, {})

  lemma ChainOk()
    ensures UnitsOk(CHAIN)
  {
    assert RankOk(CHAIN, map[0 := 0, 1 := 1, 2 := 2]);
    hide RankOk;
    assert Signers(CHAIN, 0) == Elements(WITNESSES);
    DistinctSize(WITNESSES);
    assert forall u :: IsGenesis(CHAIN, u) ==> u == 0;
  }

  lemma DiamondOk()
    ensures UnitsOk(DIAMOND)
  {
    assert RankOk(DIAMOND, map[0 := 0, 1 := 1, 2 := 1, 3 := 2]);
    hide RankOk;
    assert Signers(DIAMOND, 0) == Elements(WITNESSES);
    DistinctSize(WITNESSES);
    assert forall u :: IsGenesis(DIAMOND, u) ==> u == 0;
  }

  // ---------------------------------------------------------------- the steps of a run

  lemma Extend(d: Dag, run: seq<System>, steps: seq<Step>, step: Step)
    returns (run': seq<System>, steps': seq<Step>)
    requires UnitsOk(d) && IsRun(d, run, steps) && Enabled(d, run[|run| - 1], step)
    ensures IsRun(d, run', steps') && steps' == steps + [step] && |run'| == |run| + 1
    ensures run'[|run'| - 1] == Next(d, run[|run| - 1], step)
    ensures SystemOk(d, run'[|run'| - 1])
  {
    ExtendRun(d, run, steps, step);
    run', steps' := run + [Next(d, run[|run| - 1], step)], steps + [step];
    hide Next; hide Enabled; hide SystemOk; hide UnitsOk; hide IsRun;
    RunOk(d, run', steps', |run|);
  }

  lemma ExtendRun(d: Dag, run: seq<System>, steps: seq<Step>, step: Step)
    requires IsRun(d, run, steps) && Enabled(d, run[|run| - 1], step)
    ensures IsRun(d, run + [Next(d, run[|run| - 1], step)], steps + [step])
  {
    hide Next; hide Enabled;
    var run', steps' := run + [Next(d, run[|run| - 1], step)], steps + [step];
    forall i | 0 <= i < |steps'|
      ensures Enabled(d, run'[i], steps'[i]) && run'[i + 1] == Next(d, run'[i], steps'[i])
    {
      if i < |steps| { assert steps'[i] == steps[i] && run'[i] == run[i] && run'[i + 1] == run[i + 1]; }
    }
  }

  lemma RunNonEmpty(d: Dag, run: seq<System>, steps: seq<Step>)
    requires IsRun(d, run, steps)
    ensures |run| == |steps| + 1
  {
  }

  /** Adding `u` up to its write section. */
  lemma AddUnit(d: Dag, run: seq<System>, steps: seq<Step>, u: Hash) returns (run': seq<System>, steps': seq<Step>)
    requires UnitsOk(d) && IsRun(d, run, steps) && u in d.units
    requires var sys := run[|run| - 1]; u !in sys.adding && !Known(sys.cache, u) && !BadParent(d, sys.cache, u)
    ensures IsRun(d, run', steps') && |run'| > 0
    ensures var sys, end := run[|run| - 1], run'[|run'| - 1];
      end == sys.(adding := sys.adding[u := Passing])
  {
    hide IsRun; hide SystemOk; hide UnitsOk;
    assert |run| > 0 by { RunNonEmpty(d, run, steps); }
    run', steps' := Extend(d, run, steps, Check(u));
    run', steps' := Extend(d, run', steps', Screen(u, true));
    var a: map<Hash, Phase> := run[|run| - 1].adding;
    var b: map<Hash, Phase> := a[u := Checked];
    assert b[u := Passing] == a[u := Passing];
  }

  /** Adding `u` and its write section, nobody else being at work. */
  lemma Written(d: Dag, run: seq<System>, steps: seq<Step>, u: Hash) returns (run': seq<System>, steps': seq<Step>)
    requires UnitsOk(d) && IsRun(d, run, steps) && u in d.units
    requires var sys := run[|run| - 1]; sys.adding == map[] && !Known(sys.cache, u) && !BadParent(d, sys.cache, u)
    ensures IsRun(d, run', steps') && |run'| > 0 && SystemOk(d, run'[|run'| - 1])
    ensures var sys, end := run[|run| - 1], run'[|run'| - 1];
      && end.cache.normal == sys.cache.normal && end.cache.unhandled == sys.cache.unhandled + {u}
      && end.cache.bad == sys.cache.bad && end.adding == map[] && end.unpolled == sys.unpolled + {u}
      && end.cache.fired == sys.cache.fired[u := 0] && HasKeys(d, end.cache, u)
      && end.cache.count[u] == |end.cache.resolved[u]|
      && forall p :: p in end.cache.resolved[u] ==> p in d.units[u].parents
  {
    hide IsRun; hide SystemOk; hide UnitsOk; hide Insert;
    run', steps' := AddUnit(d, run, steps, u);
    var before := run'[|run'| - 1].cache;
    run', steps' := Extend(d, run', steps', CacheRun.Step.Commit(u));
    InsertShape(d, before, u);
  }

  /** Looking at `u`, all of whose parents are normal: it is triggered. */
  lemma Looked(d: Dag, run: seq<System>, steps: seq<Step>, u: Hash) returns (run': seq<System>, steps': seq<Step>)
    requires UnitsOk(d) && IsRun(d, run, steps) && u in d.units && d.units[u].parents != []
    requires var sys := run[|run| - 1];
      && sys.unpolled == {u} && HasKeys(d, sys.cache, u) && u in sys.cache.unhandled
      && forall p :: p in d.units[u].parents ==> p in sys.cache.normal
    ensures IsRun(d, run', steps') && |run'| > 0 && SystemOk(d, run'[|run'| - 1])
    ensures var sys, end := run[|run| - 1], run'[|run'| - 1];
      && end.cache.normal == sys.cache.normal && end.cache.unhandled == sys.cache.unhandled
      && end.cache.bad == sys.cache.bad && end.adding == sys.adding && end.unpolled == {}
      && end.cache.fired == sys.cache.fired[u := 1]
  {
    hide IsRun; hide SystemOk; hide UnitsOk;
    run', steps' := Extend(d, run, steps, CacheRun.Step.Look(u));
    RunNonEmpty(d, run', steps');
    TriggeredExactly(d, run', steps', |run'| - 1, u);
  }

  lemma StartRun(d: Dag) returns (run: seq<System>, steps: seq<Step>)
    ensures IsRun(d, run, steps) && run == [START] && steps == []
  {
    run, steps := [START], [];
  }

  /** Genesis is added, looked at and accepted. */
  lemma GenesisNormal(d: Dag) returns (run: seq<System>, steps: seq<Step>)
    requires UnitsOk(d) && 0 in d.units && d.units[0].parents == []
    ensures IsRun(d, run, steps) && |run| > 0
    ensures var sys := run[|run| - 1];
      && sys.cache.normal == {0} && sys.cache.unhandled == {} && sys.cache.bad == {} && sys.adding == map[]
      && sys.unpolled == {}
  {
    run, steps := StartRun(d);
    hide IsRun; hide SystemOk; hide UnitsOk; hide Normalize; hide Waited;
    run, steps := Written(d, run, steps, 0);
    NoMembers(run[|run| - 1].cache.resolved[0]);
    run, steps := Extend(d, run, steps, CacheRun.Step.Look(0));
    var looked := run[|run| - 1];
    TriggeredReady(d, looked, 0);
    hide CanPromote; hide Inv;
    PromotedFired(d, looked.cache, 0, 0, looked.unpolled);
    run, steps := Extend(d, run, steps, CacheRun.Step.Accept(0));
  }

  lemma TriggeredReady(d: Dag, sys: System, u: Hash)
    requires SystemOk(d, sys) && u in sys.cache.unhandled && u in sys.cache.fired && sys.cache.fired[u] > 0
    ensures Inv(d, sys.cache, sys.unpolled) && CanPromote(d, sys.cache, u) && Waited(d, sys.cache, u)
  {
    TriggeredUnhandled(d, sys.cache, u, sys.unpolled);
    WaitersCanBeTold(d, sys.cache, u, sys.unpolled);
  }

  // ---------------------------------------------------------------- a parent rejected too late

  /** The child of genesis is triggered, while its own child has passed the screening. */
  lemma ChildTriggered() returns (run: seq<System>, steps: seq<Step>)
    requires UnitsOk(CHAIN)
    ensures IsRun(CHAIN, run, steps) && |run| > 0
    ensures var sys := run[|run| - 1];
      SystemOk(CHAIN, sys) && In(sys, 2, Passing) && Enabled(CHAIN, sys, CacheRun.Step.Reject(1))
  {
    hide IsRun; hide SystemOk; hide UnitsOk;
    run, steps := GenesisNormal(CHAIN);
    run, steps := Written(CHAIN, run, steps, 1);
    run, steps := Looked(CHAIN, run, steps, 1);
    run, steps := AddUnit(CHAIN, run, steps, 2);
    RunNonEmpty(CHAIN, run, steps);
    RunOk(CHAIN, run, steps, |run| - 1);
  }

  /** The parent 1 is rejected after 2 was screened: 2 is unhandled under a known-bad parent. */
  lemma FailingRun() returns (run: seq<System>, steps: seq<Step>)
    ensures UnitsOk(CHAIN) && IsRun(CHAIN, run, steps) && |run| > 0
    ensures var s := run[|run| - 1].cache; 2 in s.unhandled && 1 in s.bad && 1 in CHAIN.units[2].parents
  {
    ChainOk();
    hide IsRun; hide SystemOk; hide UnitsOk;
    run, steps := ChildTriggered();
    RejectedInBetween(CHAIN, run[|run| - 1], 1, 2);
    run, steps := Extend(CHAIN, run, steps, CacheRun.Step.Reject(1));
    run, steps := Extend(CHAIN, run, steps, CacheRun.Step.Commit(2));
  }

  // ---------------------------------------------------------------- a child told too late

  /** Both children of genesis are triggered, and their common child waits for them. */
  lemma BothTriggered() returns (run: seq<System>, steps: seq<Step>)
    requires UnitsOk(DIAMOND)
    ensures IsRun(DIAMOND, run, steps) && |run| > 0 && SystemOk(DIAMOND, run[|run| - 1])
    ensures var s := run[|run| - 1].cache;
      && s.normal == {0} && s.unhandled == {1, 2, 3} && s.bad == {}
      && 1 in s.fired && s.fired[1] == 1 && 2 in s.fired && s.fired[2] == 1
  {
    hide IsRun; hide SystemOk; hide UnitsOk;
    run, steps := GenesisNormal(DIAMOND);
    run, steps := Written(DIAMOND, run, steps, 1);
    run, steps := Looked(DIAMOND, run, steps, 1);
    run, steps := Written(DIAMOND, run, steps, 2);
    run, steps := Looked(DIAMOND, run, steps, 2);
    run, steps := Written(DIAMOND, run, steps, 3);
  }

  lemma AfterReject(sys: System)
    requires SystemOk(DIAMOND, sys) && Enabled(DIAMOND, sys, CacheRun.Step.Reject(1))
    requires sys.cache.normal == {0} && sys.cache.unhandled == {1, 2, 3}
    requires Enabled(DIAMOND, Next(DIAMOND, sys, CacheRun.Step.Reject(1)), CacheRun.Step.Accept(2))
    requires 3 in Next(DIAMOND, sys, CacheRun.Step.Reject(1)).cache.bad
    ensures var end := Next(DIAMOND, Next(DIAMOND, sys, CacheRun.Step.Reject(1)), CacheRun.Step.Accept(2)).cache;
      end.normal == {0, 2} && end.unhandled == {}
  {
    hide Inv; hide PurgeAll; hide Normalize;
    TriggeredUnhandled(DIAMOND, sys.cache, 1, sys.unpolled);
    PurgeBadExact(DIAMOND, sys.cache, 1, sys.unpolled);
    HangsSelf(sys.cache, 1);
    RejectKeeps(DIAMOND, sys, 1);
    var mid := Next(DIAMOND, sys, CacheRun.Step.Reject(1));
    TriggeredReady(DIAMOND, mid, 2);
    PromotedFired(DIAMOND, mid.cache, 2, 2, mid.unpolled);
  }

  /** The end of the run: 2 is free, nobody is unhandled, and yet 2 counts a reference and cannot be collected. */
  lemma LosingRun() returns (run: seq<System>, steps: seq<Step>)
    ensures UnitsOk(DIAMOND) && IsRun(DIAMOND, run, steps) && |run| > 0
    ensures var s := run[|run| - 1].cache;
      2 in s.free && s.unhandled == {} && 2 in s.refs && s.refs[2] > 0 && !CanPurgeFree(s, 2)
  {
    DiamondOk();
    hide IsRun; hide SystemOk; hide UnitsOk; hide Normalize; hide PurgeAll;
    run, steps := BothTriggered();
    var sys := run[|run| - 1];
    TriggeredReady(DIAMOND, sys, 2);
    hide Waited; hide Inv; hide CanPromote;
    RejectedWhileWaiting(DIAMOND, sys, 1, 2, 3);
    AfterReject(sys);
    run, steps := Extend(DIAMOND, run, steps, CacheRun.Step.Reject(1));
    run, steps := Extend(DIAMOND, run, steps, CacheRun.Step.Accept(2));
    RunNonEmpty(DIAMOND, run, steps);
    CacheSafety(DIAMOND, run, steps, |run| - 1);
  }
}
