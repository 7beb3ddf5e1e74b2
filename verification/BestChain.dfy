/**
 * Walking down best-parent chains by level, and the test whether a last ball leads to the
 * stable point (src/main_chain.rs).
 */
module BestChain {
  import opened Dag
  import opened StaticProps
  import opened MainChain
  import opened Ancestor

  /** One step down a best-parent chain; only genesis is at level 0 and has none. */
  lemma BpStep(d: Dag, st: Statics, u: Hash)
    requires StaticOk(d, st) && u in st
    ensures st[u].level >= 0 && (st[u].level == 0 <==> st[u].bp.None?)
    ensures st[u].bp.Some? ==> var b := st[u].bp.value;
      b in st && st[b].level < st[u].level && Rank(d, b) < Rank(d, u) && BpLe(d, st, b, u)
  {
    LevelNonNegative(d, st, u);
    ParentsLower(d, st, u);
    assert EntryOk(d, st, u);
    if st[u].bp.Some? {
      var b := st[u].bp.value;
      LevelNonNegative(d, st, b);
      assert BpLe(d, st, b, b);
    }
  }

  lemma BpLevel(d: Dag, st: Statics, a: Hash, u: Hash)
    requires StaticOk(d, st) && BpLe(d, st, a, u)
    ensures a in st && u in st && (a == u || st[a].level < st[u].level)
  {
    BpLeKnown(d, st, a, u);
    LevelIncreases(d, st, a, u);
  }

  lemma BpAntisymmetric(d: Dag, st: Statics, a: Hash, u: Hash)
    requires StaticOk(d, st) && BpLe(d, st, a, u) && BpLe(d, st, u, a)
    ensures a == u
  {
    BpLevel(d, st, a, u);
    BpLevel(d, st, u, a);
  }

  /** On one best-parent chain the level decides who is below whom. */
  lemma BpByLevel(d: Dag, st: Statics, a: Hash, b: Hash, u: Hash)
    requires StaticOk(d, st) && BpLe(d, st, a, u) && BpLe(d, st, b, u)
    ensures a in st && b in st && (st[a].level <= st[b].level <==> BpLe(d, st, a, b))
  {
    BpLevel(d, st, a, u);
    BpLevel(d, st, b, u);
    BpLinear(d, st, a, b, u);
    if BpLe(d, st, a, b) { BpLevel(d, st, a, b); }
    if BpLe(d, st, b, a) { BpLevel(d, st, b, a); }
  }

  /** `r` is the highest unit on the best-parent chain of `u` at level `l` or below. */
  ghost predicate IsCut(d: Dag, st: Statics, u: Hash, l: int, r: Hash)
    requires StaticOk(d, st)
  {
    && BpLe(d, st, r, u) && r in st && st[r].level <= l
    && forall x :: BpLe(d, st, x, u) && x in st && st[x].level <= l ==> BpLe(d, st, x, r)
  }

  lemma CutHere(d: Dag, st: Statics, u: Hash, l: int)
    requires StaticOk(d, st) && u in st && st[u].level <= l
    ensures IsCut(d, st, u, l, u)
  {
  }

  lemma CutUnique(d: Dag, st: Statics, u: Hash, l: int, r: Hash, r': Hash)
    requires StaticOk(d, st) && IsCut(d, st, u, l, r) && IsCut(d, st, u, l, r')
    ensures r == r'
  {
    BpAntisymmetric(d, st, r, r');
  }

  /** Cutting a cut. */
  lemma CutAgain(d: Dag, st: Statics, u: Hash, l: int, r: Hash, k: int, q: Hash)
    requires StaticOk(d, st) && IsCut(d, st, u, l, r) && IsCut(d, st, r, k, q) && k <= l
    ensures IsCut(d, st, u, k, q)
  {
    BpLeTransitive(d, st, q, r, u);
  }

  /** The walk `while level > l`. */
  method WalkDown(d: Dag, st: Statics, u: Hash, l: int) returns (r: Hash)
    requires StaticOk(d, st) && u in st && l >= 0
    ensures IsCut(d, st, u, l, r)
  {
    r := u;
    BpStep(d, st, u);
    while st[r].level > l
      invariant r in st && BpLe(d, st, r, u)
      invariant forall x :: BpLe(d, st, x, u) && x in st && st[x].level <= l ==> BpLe(d, st, x, r)
      decreases Rank(d, r)
    {
      BpStep(d, st, r);
      BpLeTransitive(d, st, st[r].bp.value, r, u);
      r := st[r].bp.value;
    }
  }

  // ---------------------------------------------------------------- is_best_ancestor

  /** The chain of a stable point is its whole best-parent chain. */
  lemma {:induction false} ChainIsWhole(d: Dag, st: Statics, chain: seq<Hash>, a: Hash)
    requires Full(d, st) && ChainOk(d, st, chain) && chain != []
    ensures a in chain <==> BpLe(d, st, a, chain[|chain| - 1])
  {
    var n := |chain| - 1;
    if n == 0 {
      assert IsGenesis(d, chain[0]);
    } else {
      var shorter := chain[..n];
      ChainIsWhole(d, st, shorter, a);
      assert chain == shorter + [chain[n]];
      assert st[chain[n]].bp == Some(chain[n - 1]);
    }
  }

  /** is_on_main_chain on what was read: INVALID equals nothing, not even itself. */
  predicate ReadOnMainChain(p: UnitProps)
  {
    p.mci.Eq(p.limci)
  }

  /** `p` is read at some moment of the run at which the unit `sp` has its number. */
  ghost predicate ReadAfter(d: Dag, st: Statics, fin: Marks, sp: Hash, p: UnitProps)
  {
    && p.key in st
    && exists m :: Earlier(m, fin) && Settled(d, m) && sp in m.mci && p == ReadProps(st, m, p.key)
  }

  ghost predicate AllReadAfter(d: Dag, st: Statics, fin: Marks, sp: Hash, read: map<Hash, UnitProps>)
  {
    && st.Keys <= read.Keys
    && forall u {:trigger read[u]} :: u in st ==> read[u].key == u && ReadAfter(d, st, fin, sp, read[u])
  }

  lemma FullIndex(d: Dag, st: Statics, m: Marks)
    requires Indexed(d, st, m)
    ensures Full(d, st) && StaticOk(d, st) && ChainOk(d, st, m.chain)
    ensures forall k :: 0 <= k < |m.chain| ==> m.chain[k] in st && st[m.chain[k]].level >= 0
  {
    forall k | 0 <= k < |m.chain| ensures m.chain[k] in st && st[m.chain[k]].level >= 0 {
      LevelNonNegative(d, st, m.chain[k]);
    }
  }

  lemma OnChain(d: Dag, st: Statics, m: Marks, u: Hash)
    requires Indexed(d, st, m) && u in st
    ensures m.mci.Keys == m.limci.Keys && (u in m.mci && m.mci[u] == m.limci[u] <==> u in m.chain)
  {
    assert u in m.chain ==> exists k :: 0 <= k < |m.chain| && m.chain[k] == u && Le(d, u, m.chain[k]);
    if u in m.mci { OnMainChainIsRecorded(d, st, m, u); }
  }

  /**
   * What a reader takes for a main-chain unit is one; a main-chain unit at or below the
   * stable point is taken for one.
   */
  lemma ReadsRight(d: Dag, st: Statics, fin: Marks, sp: Hash, p: UnitProps)
    requires Indexed(d, st, fin) && sp in st && ReadAfter(d, st, fin, sp, p)
    ensures ReadOnMainChain(p) ==> p.key in fin.chain
    ensures p.key in fin.chain && BpLe(d, st, p.key, sp) ==> ReadOnMainChain(p)
  {
    hide Indexed;
    OnChain(d, st, fin, p.key);
    FullIndex(d, st, fin);
    var m :| Earlier(m, fin) && Settled(d, m) && sp in m.mci && p == ReadProps(st, m, p.key);
    if BpLe(d, st, p.key, sp) {
      BpLeKnown(d, st, p.key, sp);
      SettledBelow(d, m, p.key, sp);
    }
  }

  /** The walk of the first case: some unit read as main-chain unit at level `l` or above on the chain of `joint`. */
  method HitsMainChain(d: Dag, st: Statics, read: map<Hash, UnitProps>, joint: Hash, l: int) returns (hit: bool)
    requires StaticOk(d, st) && joint in st && l >= 0 && forall u :: u in st ==> u in read
    ensures hit <==> exists h :: BpLe(d, st, h, joint) && h in st && st[h].level >= l && ReadOnMainChain(read[h])
  {
    var at := Some(joint);
    hit := false;
    while at.Some? && st[at.value].level >= l
      invariant at.Some? ==> at.value in st && BpLe(d, st, at.value, joint)
      invariant forall h {:trigger ReadOnMainChain(read[h])} ::
        BpLe(d, st, h, joint) && h in st && st[h].level >= l && ReadOnMainChain(read[h]) ==>
          at.Some? && BpLe(d, st, h, at.value)
      decreases at.Some?, if at.Some? then Rank(d, at.value) else 0
    {
      if ReadOnMainChain(read[at.value]) {
        hit := true;
        return;
      }
      BpStep(d, st, at.value);
      if st[at.value].bp.Some? { BpLeTransitive(d, st, st[at.value].bp.value, at.value, joint); }
      at := st[at.value].bp;
    }
    forall h | BpLe(d, st, h, joint) && h in st && st[h].level >= l && ReadOnMainChain(read[h]) ensures false {
      BpLevel(d, st, h, at.value);
    }
  }

  /** `a` and `b` lie on one best-parent chain. */
  ghost predicate OneChain(d: Dag, st: Statics, a: Hash, b: Hash)
    requires StaticOk(d, st)
  {
    BpLe(d, st, a, b) || BpLe(d, st, b, a)
  }

  lemma ChainByLevel(d: Dag, st: Statics, chain: seq<Hash>, a: Hash, b: Hash)
    requires Full(d, st) && ChainOk(d, st, chain) && a in chain && b in chain
    ensures a in st && b in st && (st[a].level <= st[b].level <==> BpLe(d, st, a, b))
  {
    var top := chain[|chain| - 1];
    ChainIsWhole(d, st, chain, a);
    ChainIsWhole(d, st, chain, b);
    BpByLevel(d, st, a, b, top);
  }

  /** A unit at or below a recorded unit on its best-parent chain is recorded. */
  lemma BelowIsRecorded(d: Dag, st: Statics, chain: seq<Hash>, k: nat, a: Hash)
    requires Full(d, st) && ChainOk(d, st, chain) && k < |chain| && BpLe(d, st, a, chain[k])
    ensures a in chain
  {
    ChainLe(d, st, chain, k, |chain| - 1);
    BpLeTransitive(d, st, a, chain[k], chain[|chain| - 1]);
    ChainIsWhole(d, st, chain, a);
  }

  /**
   * In the first case any hit of the main chain at or above the last ball's level will do:
   * the last ball is on the main chain itself, so it lies below the hit. Main-chain units
   * above the stable point may or may not be read as such.
   */
  lemma AnyHitWillDo(d: Dag, st: Statics, fin: Marks, k: nat, lastBall: Hash, joint: Hash, read: map<Hash, UnitProps>)
    requires Indexed(d, st, fin) && k < |fin.chain| && joint in st && lastBall in st
    requires AllReadAfter(d, st, fin, fin.chain[k], read)
    requires BpLe(d, st, lastBall, fin.chain[k])
    ensures forall u :: u in st ==> u in read
    ensures BpLe(d, st, lastBall, joint) <==>
      exists h :: BpLe(d, st, h, joint) && h in st && st[h].level >= st[lastBall].level && ReadOnMainChain(read[h])
  {
    hide Indexed; hide AllReadAfter; hide ReadAfter; hide StaticOk; hide BpLe;
    FullIndex(d, st, fin);
    forall u | u in st ensures u in read { ReadOf(d, st, fin, fin.chain[k], read, u); }
    BallIsHit(d, st, fin, k, lastBall, read);
    if h :| BpLe(d, st, h, joint) && h in st && st[h].level >= st[lastBall].level && ReadOnMainChain(read[h]) {
      ReadOf(d, st, fin, fin.chain[k], read, h);
      HitIsAbove(d, st, fin, k, lastBall, read[h]);
      BpLeTransitive(d, st, lastBall, h, joint);
    }
  }

  lemma BallIsHit(d: Dag, st: Statics, fin: Marks, k: nat, lastBall: Hash, read: map<Hash, UnitProps>)
    requires Indexed(d, st, fin) && StaticOk(d, st) && k < |fin.chain| && lastBall in st
    requires AllReadAfter(d, st, fin, fin.chain[k], read) && BpLe(d, st, lastBall, fin.chain[k])
    ensures lastBall in fin.chain && lastBall in read && ReadOnMainChain(read[lastBall])
  {
    hide Indexed; hide AllReadAfter; hide ReadAfter;
    FullIndex(d, st, fin);
    hide StaticOk; hide BpLe;
    BelowIsRecorded(d, st, fin.chain, k, lastBall);
    ReadOf(d, st, fin, fin.chain[k], read, lastBall);
    ReadsRight(d, st, fin, fin.chain[k], read[lastBall]);
  }

  lemma ReadOf(d: Dag, st: Statics, fin: Marks, sp: Hash, read: map<Hash, UnitProps>, u: Hash)
    requires AllReadAfter(d, st, fin, sp, read) && u in st
    ensures u in read && read[u].key == u && ReadAfter(d, st, fin, sp, read[u])
  {
  }

  lemma HitIsAbove(d: Dag, st: Statics, fin: Marks, k: nat, lastBall: Hash, p: UnitProps)
    requires Indexed(d, st, fin) && k < |fin.chain| && lastBall in fin.chain && lastBall in st && p.key in st
    requires ReadAfter(d, st, fin, fin.chain[k], p) && ReadOnMainChain(p) && st[p.key].level >= st[lastBall].level
    ensures BpLe(d, st, lastBall, p.key)
  {
    FullIndex(d, st, fin);
    hide Indexed; hide ReadAfter;
    ReadsRight(d, st, fin, fin.chain[k], p);
    ChainByLevel(d, st, fin.chain, lastBall, p.key);
  }

  /** A last ball not above the stable point is read as main-chain unit exactly when it is below it on its chain. */
  lemma BallIsRead(d: Dag, st: Statics, fin: Marks, k: nat, ball: UnitProps)
    requires Indexed(d, st, fin) && k < |fin.chain| && ReadAfter(d, st, fin, fin.chain[k], ball)
    requires fin.chain[k] in st && st[ball.key].level <= st[fin.chain[k]].level
    ensures ReadOnMainChain(ball) <==> BpLe(d, st, ball.key, fin.chain[k])
    ensures BpLe(d, st, ball.key, fin.chain[k]) <==> OneChain(d, st, ball.key, fin.chain[k])
  {
    var sp := fin.chain[k];
    FullIndex(d, st, fin);
    ReadsRight(d, st, fin, sp, ball);
    hide Indexed;
    if BpLe(d, st, ball.key, sp) { BelowIsRecorded(d, st, fin.chain, k, ball.key); }
    if ball.key in fin.chain { ChainByLevel(d, st, fin.chain, ball.key, sp); }
    if BpLe(d, st, sp, ball.key) { BpLevel(d, st, sp, ball.key); }
  }

  /** Walking down from `u` to the level of `a` ends at `a` exactly when `a` is on the chain of `u`. */
  lemma CutReaches(d: Dag, st: Statics, u: Hash, a: Hash, r: Hash)
    requires StaticOk(d, st) && a in st && IsCut(d, st, u, st[a].level, r)
    ensures r == a <==> BpLe(d, st, a, u)
  {
    if BpLe(d, st, a, u) { BpLevel(d, st, a, r); }
  }

  /**
   * is_best_ancestor. The stable point is any recorded main-chain unit, since finalization
   * lags behind marking, and every other unit may be read at a moment of its own.
   */
  method IsBestAncestor(d: Dag, st: Statics, ghost fin: Marks, ghost k: nat, stablePoint: Hash, ball: UnitProps,
      joint: Hash, read: map<Hash, UnitProps>)
    returns (yes: bool)
    requires Indexed(d, st, fin) && k < |fin.chain| && stablePoint == fin.chain[k] && joint in st
    requires ReadAfter(d, st, fin, stablePoint, ball) && AllReadAfter(d, st, fin, stablePoint, read)
    ensures yes <==> BpLe(d, st, ball.key, joint) && OneChain(d, st, ball.key, stablePoint)
  {
    hide Indexed; hide ReadAfter; hide AllReadAfter; hide OneChain; hide BpLe;
    FullIndex(d, st, fin);
    BallKnown(d, st, fin, stablePoint, ball);
    BpStep(d, st, ball.key);
    if st[ball.key].level <= st[stablePoint].level {
      yes := BallBelow(d, st, fin, k, stablePoint, ball, joint, read);
    } else {
      yes := BallAbove(d, st, stablePoint, ball.key, joint);
    }
  }

  /** The last ball is not above the stable point. */
  method BallBelow(d: Dag, st: Statics, ghost fin: Marks, ghost k: nat, stablePoint: Hash, ball: UnitProps, joint: Hash,
      read: map<Hash, UnitProps>)
    returns (yes: bool)
    requires Indexed(d, st, fin) && StaticOk(d, st) && k < |fin.chain| && stablePoint == fin.chain[k] && joint in st
    requires ReadAfter(d, st, fin, stablePoint, ball) && AllReadAfter(d, st, fin, stablePoint, read)
    requires ball.key in st && stablePoint in st && 0 <= st[ball.key].level <= st[stablePoint].level
    ensures yes <==> BpLe(d, st, ball.key, joint) && OneChain(d, st, ball.key, stablePoint)
  {
    hide Indexed; hide ReadAfter; hide AllReadAfter; hide OneChain; hide StaticOk; hide BpLe;
    BallIsRead(d, st, fin, k, ball);
    if !ReadOnMainChain(ball) {
      return false;
    }
    AnyHitWillDo(d, st, fin, k, ball.key, joint, read);
    yes := HitsMainChain(d, st, read, joint, st[ball.key].level);
  }

  /** The last ball is above the stable point: two walks down. */
  method BallAbove(d: Dag, st: Statics, stablePoint: Hash, lastBall: Hash, joint: Hash) returns (yes: bool)
    requires StaticOk(d, st) && stablePoint in st && lastBall in st && joint in st
    requires 0 <= st[stablePoint].level < st[lastBall].level
    ensures yes <==> BpLe(d, st, lastBall, joint) && OneChain(d, st, lastBall, stablePoint)
  {
    var down := WalkDown(d, st, lastBall, st[stablePoint].level);
    CutReaches(d, st, lastBall, stablePoint, down);
    hide IsCut;
    if BpLe(d, st, lastBall, stablePoint) { BpLevel(d, st, lastBall, stablePoint); }
    if stablePoint != down {
      return false;
    }
    down := WalkDown(d, st, joint, st[lastBall].level);
    CutReaches(d, st, joint, lastBall, down);
    yes := lastBall == down;
  }

  lemma BallKnown(d: Dag, st: Statics, fin: Marks, sp: Hash, p: UnitProps)
    requires ReadAfter(d, st, fin, sp, p)
    ensures p.key in st
  {
  }
}
