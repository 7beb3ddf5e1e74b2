/** When a last ball counts as stable in the view of a joint (src/main_chain.rs). */
module StableView {
  import opened Dag
  import opened StaticProps
  import opened MainChain
  import opened Ancestor
  import opened BestChain
  import opened MaxStable

  /**
   * `lastBall` is genesis, or not above the min witnessed level of `joint` and on the
   * best-parent chain of the unit that was stable when that level last rose, on one chain
   * with the stable point.
   */
  ghost predicate StableTo(d: Dag, st: Statics, stablePoint: Hash, lastBall: Hash, joint: Hash)
    requires StaticOk(d, st) && lastBall in st && joint in st
  {
    IsGenesis(d, lastBall) ||
    (&& st[lastBall].level <= st[joint].minWl
     && OneChain(d, st, lastBall, stablePoint)
     && exists e, m :: IsEffective(d, st, joint, e) && e in st && MaxStableOf(d, st, e, m) && BpLe(d, st, lastBall, m))
  }

  ghost predicate MaxStableOf(d: Dag, st: Statics, e: Hash, m: Hash)
    requires StaticOk(d, st) && e in st
  {
    IsMaxStable(d, st, e, Alternatives(d, st, e), m)
  }

  lemma EffectiveUnique(d: Dag, st: Statics, joint: Hash, e: Hash, e': Hash)
    requires StaticOk(d, st) && IsEffective(d, st, joint, e) && IsEffective(d, st, joint, e')
    ensures e == e'
  {
    BpLinear(d, st, e, e', joint);
  }

  lemma StableToMeans(d: Dag, st: Statics, sp: Hash, lastBall: Hash, joint: Hash, e: Hash, m: Hash)
    requires StaticOk(d, st) && lastBall in st && joint in st && !IsGenesis(d, lastBall)
    requires IsEffective(d, st, joint, e) && e in st && MaxStableOf(d, st, e, m)
    requires st[lastBall].level <= st[joint].minWl
    ensures StableTo(d, st, sp, lastBall, joint) <==> BpLe(d, st, lastBall, m) && OneChain(d, st, lastBall, sp)
  {
    hide IsEffective; hide IsMaxStable; hide Alternatives; hide OneChain; hide BpLe;
    if StableTo(d, st, sp, lastBall, joint) {
      var e', m' :| IsEffective(d, st, joint, e') && e' in st && MaxStableOf(d, st, e', m') &&
        BpLe(d, st, lastBall, m');
      EffectiveUnique(d, st, joint, e, e');
      MaxStableUnique(d, st, e, Alternatives(d, st, e), m, m');
    }
  }

  /** What is stable in the view of a joint lies below it, and everything below it on its best-parent chain is too. */
  lemma StableDownward(d: Dag, st: Statics, sp: Hash, lastBall: Hash, joint: Hash, x: Hash)
    requires StaticOk(d, st) && lastBall in st && joint in st && StableTo(d, st, sp, lastBall, joint)
    requires !IsGenesis(d, lastBall) && BpLe(d, st, x, lastBall)
    ensures BpLe(d, st, lastBall, joint) && x in st && StableTo(d, st, sp, x, joint)
  {
    hide *;
    StaticShape(d, st);
    var e, m := StableParts(d, st, sp, lastBall, joint);
    BpLeTransitive(d, st, lastBall, m, e);
    BpLeTransitive(d, st, lastBall, e, joint);
    BpLeTransitive(d, st, x, lastBall, m);
    BpLevel(d, st, x, lastBall);
    ChainDown(d, st, x, lastBall, sp);
    StableFrom(d, st, sp, x, joint, e, m);
  }

  lemma ChainDown(d: Dag, st: Statics, x: Hash, a: Hash, b: Hash)
    requires StaticOk(d, st) && OneChain(d, st, a, b) && BpLe(d, st, x, a)
    ensures OneChain(d, st, x, b)
  {
    hide StaticOk; hide BpLe;
    StaticShape(d, st);
    if BpLe(d, st, a, b) { BpLeTransitive(d, st, x, a, b); } else { BpLinear(d, st, x, b, a); }
  }

  lemma StableParts(d: Dag, st: Statics, sp: Hash, lastBall: Hash, joint: Hash) returns (e: Hash, m: Hash)
    requires StaticOk(d, st) && lastBall in st && joint in st && StableTo(d, st, sp, lastBall, joint)
    requires !IsGenesis(d, lastBall)
    ensures IsEffective(d, st, joint, e) && e in st && MaxStableOf(d, st, e, m) && BpLe(d, st, lastBall, m)
    ensures BpLe(d, st, m, e) && BpLe(d, st, e, joint)
    ensures st[lastBall].level <= st[joint].minWl && OneChain(d, st, lastBall, sp)
  {
    hide MaxStableOf; hide IsEffective; hide BpLe; hide StaticOk;
    StaticShape(d, st);
    e, m :| IsEffective(d, st, joint, e) && e in st && MaxStableOf(d, st, e, m) && BpLe(d, st, lastBall, m);
    MaxStableBelow(d, st, joint, e, m);
  }

  lemma StableFrom(d: Dag, st: Statics, sp: Hash, x: Hash, joint: Hash, e: Hash, m: Hash)
    requires StaticOk(d, st) && x in st && joint in st && st[x].level <= st[joint].minWl && OneChain(d, st, x, sp)
    requires IsEffective(d, st, joint, e) && e in st && MaxStableOf(d, st, e, m) && BpLe(d, st, x, m)
    ensures StableTo(d, st, sp, x, joint)
  {
    hide MaxStableOf; hide IsEffective; hide BpLe; hide StaticOk; hide OneChain;
  }

  lemma StaticShape(d: Dag, st: Statics)
    requires StaticOk(d, st)
    ensures WellFormed(d) && BpOk(d, st)
  {
  }

  lemma MaxStableBelow(d: Dag, st: Statics, joint: Hash, e: Hash, m: Hash)
    requires StaticOk(d, st) && e in st && MaxStableOf(d, st, e, m) && IsEffective(d, st, joint, e)
    ensures BpLe(d, st, m, e) && BpLe(d, st, e, joint)
  {
  }

  /** is_stable_to_joint. */
  method IsStableToJoint(d: Dag, st: Statics, ghost fin: Marks, ghost k: nat, stablePoint: Hash, ball: UnitProps,
      joint: Hash, read: map<Hash, UnitProps>)
    returns (yes: bool)
    requires Indexed(d, st, fin) && k < |fin.chain| && stablePoint == fin.chain[k] && joint in st
    requires ReadAfter(d, st, fin, stablePoint, ball) && AllReadAfter(d, st, fin, stablePoint, read)
    ensures yes <==> StableTo(d, st, stablePoint, ball.key, joint)
  {
    hide Indexed; hide ReadAfter; hide AllReadAfter; hide IsMaxStable; hide Alternatives; hide OneChain;
    FullIndex(d, st, fin);
    BallKnown(d, st, fin, stablePoint, ball);
    if d.units[ball.key].parents == [] {
      return true;
    }
    if st[joint].minWl < st[ball.key].level {
      return false;
    }
    var e := LatestEffectiveUnit(d, st, joint);
    var m := CalcMaxStableUnit(d, st, e);
    MaxStableKnown(d, st, e, m);
    StableToMeans(d, st, stablePoint, ball.key, joint, e, m);
    hide *;
    yes := IsBestAncestor(d, st, fin, k, stablePoint, ball, m, read);
  }

  lemma MaxStableKnown(d: Dag, st: Statics, e: Hash, m: Hash)
    requires StaticOk(d, st) && e in st && IsMaxStable(d, st, e, Alternatives(d, st, e), m)
    ensures m in st && MaxStableOf(d, st, e, m)
  {
  }
}
