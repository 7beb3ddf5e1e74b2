/**
 * Stabilising main-chain units: the marking step, the index it writes (mci, limci,
 * sub_mci) and what that index says about plain reachability (src/main_chain.rs).
 */
module MainChain {
  import opened Collections
  import opened Dag
  import opened StaticProps

  /** The index as it stands at one moment; a unit outside a map still has an invalid number. */
  datatype Marks = Marks(mci: map<Hash, nat>, limci: map<Hash, nat>, sub: map<Hash, nat>, chain: seq<Hash>)

  ghost predicate Full(d: Dag, st: Statics)
  {
    StaticOk(d, st) && st.Keys == d.units.Keys
  }

  /** Consecutive best parents, starting at genesis. */
  ghost predicate ChainOk(d: Dag, st: Statics, chain: seq<Hash>)
  {
    && (forall i :: 0 <= i < |chain| ==> chain[i] in st)
    && (|chain| > 0 ==> IsGenesis(d, chain[0]))
    && (forall i, j :: 0 <= i && j == i + 1 && j < |chain| ==> st[chain[j]].bp == Some(chain[i]))
  }

  /** `k` is the least index whose main-chain unit includes `u`. */
  ghost predicate IsMci(d: Dag, chain: seq<Hash>, u: Hash, k: nat)
    requires WellFormed(d)
  {
    && k < |chain| && Le(d, u, chain[k])
    && forall j :: 0 <= j < k ==> !Le(d, u, chain[j])
  }

  /** `k` is the largest index whose main-chain unit is included in `u`. */
  ghost predicate IsLimci(d: Dag, chain: seq<Hash>, u: Hash, k: nat)
    requires WellFormed(d)
  {
    && k < |chain| && Le(d, chain[k], u)
    && forall j :: k < j < |chain| ==> !Le(d, chain[j], u)
  }

  /** The order inside one batch: by level, then by hash. */
  predicate KeyLess(st: Statics, a: Hash, b: Hash)
    requires a in st && b in st
  {
    st[a].level < st[b].level || (st[a].level == st[b].level && a < b)
  }

  ghost predicate StrictlySorted(st: Statics, s: seq<Hash>)
  {
    && (forall i :: 0 <= i < |s| ==> s[i] in st)
    && (forall i, j :: 0 <= i < j < |s| ==> KeyLess(st, s[i], s[j]))
  }

  /** The units of a batch that come before `u`. */
  ghost function Predecessors(st: Statics, mci: map<Hash, nat>, u: Hash): set<Hash>
    requires u in mci && mci.Keys <= st.Keys
  {
    set v | v in mci && mci[v] == mci[u] && KeyLess(st, v, u)
  }

  /** The whole index is right about reachability in `d` for the recorded chain. */
  ghost predicate Indexed(d: Dag, st: Statics, m: Marks)
  {
    && Full(d, st) && ChainOk(d, st, m.chain)
    && m.mci.Keys == m.limci.Keys == m.sub.Keys && m.mci.Keys <= st.Keys
    && (forall u {:trigger IsMci(d, m.chain, u, m.mci[u])} :: u in m.mci ==> IsMci(d, m.chain, u, m.mci[u]))
    && (forall u {:trigger IsLimci(d, m.chain, u, m.limci[u])} :: u in m.limci ==> IsLimci(d, m.chain, u, m.limci[u]))
    && (forall u {:trigger Predecessors(st, m.mci, u)} :: u in m.sub ==> m.sub[u] == |Predecessors(st, m.mci, u)|)
    && (forall u, k :: 0 <= k < |m.chain| && Le(d, u, m.chain[k]) ==> u in m.mci)
  }

  /** is_on_main_chain: invalid numbers equal nothing, not even each other. */
  predicate OnMainChain(mci: map<Hash, nat>, limci: map<Hash, nat>, u: Hash)
  {
    u in mci && u in limci && mci[u] == limci[u]
  }

  predicate SubMap(a: map<Hash, nat>, b: map<Hash, nat>)
  {
    forall k :: k in a ==> k in b && a[k] == b[k]
  }

  /** Numbers are written once: what an earlier moment holds is what a later one holds. */
  ghost predicate Earlier(a: Marks, b: Marks)
  {
    SubMap(a.mci, b.mci) && SubMap(a.limci, b.limci) && SubMap(a.sub, b.sub) && a.chain <= b.chain
  }

  /** Whatever has an mci has its other numbers, and its parents have an mci: numbers are written bottom up. */
  ghost predicate Settled(d: Dag, m: Marks)
  {
    forall u {:trigger u in m.mci} :: u in m.mci ==>
      u in m.limci && u in m.sub && (u in d.units ==> forall p :: p in d.units[u].parents ==> p in m.mci)
  }

  /** The units a marking of `main` orders: its unmarked ancestors, sorted. */
  ghost predicate IsBatch(d: Dag, st: Statics, marked: set<Hash>, main: Hash, s: seq<Hash>)
    requires WellFormed(d)
  {
    StrictlySorted(st, s) && forall u :: u in s <==> Le(d, u, main) && u !in marked
  }

  /** Below a unit that has its number, all have theirs. */
  lemma SettledBelow(d: Dag, m: Marks, a: Hash, u: Hash)
    requires WellFormed(d) && Settled(d, m) && u in m.mci && Le(d, a, u)
    ensures a in m.mci && a in m.limci && a in m.sub
  {
    ClosedHoldsAncestors(d, m.mci.Keys, a, u);
  }

  // ---------------------------------------------------------------- facts about chains

  lemma {:induction false} ChainLe(d: Dag, st: Statics, chain: seq<Hash>, i: nat, j: nat)
    requires Full(d, st) && ChainOk(d, st, chain) && i <= j < |chain|
    ensures BpLe(d, st, chain[i], chain[j]) && Le(d, chain[i], chain[j])
    ensures i < j ==> st[chain[i]].level < st[chain[j]].level
    decreases j
  {
    if i < j {
      ChainLe(d, st, chain, i, j - 1);
      assert st[chain[j]].bp == Some(chain[j - 1]);
      assert EntryOk(d, st, chain[j]);
    }
    BpLeKnown(d, st, chain[i], chain[j]);
  }

  lemma LimciSurvives(d: Dag, st: Statics, chain: seq<Hash>, main: Hash, u: Hash, k: nat, n: nat)
    requires Full(d, st) && ChainOk(d, st, chain + [main])
    requires IsLimci(d, chain, u, k) && n < |chain| && Le(d, u, chain[n])
    ensures IsLimci(d, chain + [main], u, k)
  {
    var longer := chain + [main];
    if Le(d, main, u) {
      LeTransitive(d, main, u, chain[n]);
      assert longer[n] == chain[n] && longer[|chain|] == main;
      ChainLe(d, st, longer, n, |chain|);
      LevelIncreases(d, st, main, chain[n]);
    }
  }

  /** The largest limci among the parents is the limci of a unit off the main chain. */
  lemma LimciFromParents(d: Dag, chain: seq<Hash>, limci: map<Hash, nat>, u: Hash, k: nat)
    requires WellFormed(d) && u in d.units && u !in chain
    requires forall p :: p in d.units[u].parents ==> p in limci && IsLimci(d, chain, p, limci[p]) && limci[p] <= k
    requires exists p :: p in d.units[u].parents && limci[p] == k
    ensures IsLimci(d, chain, u, k)
  {
    var p :| p in d.units[u].parents && limci[p] == k;
    assert IsLimci(d, chain, p, k);
    assert Le(d, chain[k], u);
  }

  lemma {:induction false} PrefixCardinality(s: seq<Hash>, t: set<Hash>, i: nat)
    requires i <= |s| && (forall a, b :: 0 <= a < b < |s| ==> s[a] != s[b])
    requires forall x :: x in t <==> x in s[..i]
    ensures |t| == i
    decreases i
  {
    if i == 0 {
      assert t == {};
    } else {
      assert s[..i] == s[..i - 1] + [s[i - 1]];
      assert s[i - 1] !in s[..i - 1];
      PrefixCardinality(s, t - {s[i - 1]}, i - 1);
    }
  }

  // ---------------------------------------------------------------- what the index means

  lemma IndexShape(d: Dag, st: Statics, m: Marks)
    requires Indexed(d, st, m)
    ensures m.mci.Keys == m.sub.Keys && m.mci.Keys <= d.units.Keys
    ensures forall u :: u in m.mci ==> m.mci[u] < |m.chain|
  {
    forall u | u in m.mci ensures m.mci[u] < |m.chain| { assert IsMci(d, m.chain, u, m.mci[u]); }
  }

  /** After a marking run the marked units are the ancestors-or-self of the last main-chain unit. */
  lemma MarkedAreAncestors(d: Dag, st: Statics, m: Marks, u: Hash)
    requires Indexed(d, st, m) && m.chain != []
    ensures u in m.mci <==> Le(d, u, m.chain[|m.chain| - 1])
  {
    hide Le; hide Predecessors;
    if u in m.mci {
      assert IsMci(d, m.chain, u, m.mci[u]);
      hide Indexed;
      ChainLe(d, st, m.chain, m.mci[u], |m.chain| - 1);
      LeTransitive(d, u, m.chain[m.mci[u]], m.chain[|m.chain| - 1]);
    }
  }

  /** mci(a) <= limci(u) says exactly that some main-chain unit lies between `a` and `u`. */
  lemma IndexImpliesInclusion(d: Dag, st: Statics, m: Marks, a: Hash, u: Hash)
    requires Indexed(d, st, m) && a in m.mci && u in m.limci && m.mci[a] <= m.limci[u]
    ensures Le(d, a, u)
  {
    assert IsMci(d, m.chain, a, m.mci[a]) && IsLimci(d, m.chain, u, m.limci[u]);
    ChainLe(d, st, m.chain, m.mci[a], m.limci[u]);
    LeTransitive(d, a, m.chain[m.mci[a]], m.chain[m.limci[u]]);
    LeTransitive(d, a, m.chain[m.limci[u]], u);
  }

  /** Both indices never decrease from an ancestor to a descendant. */
  lemma IndexMonotone(d: Dag, st: Statics, m: Marks, a: Hash, u: Hash)
    requires Indexed(d, st, m) && u in m.mci && Le(d, a, u)
    ensures a in m.mci && m.mci[a] <= m.mci[u] && m.limci[a] <= m.limci[u]
  {
    assert IsMci(d, m.chain, u, m.mci[u]);
    LeTransitive(d, a, u, m.chain[m.mci[u]]);
    assert a in m.mci && IsMci(d, m.chain, a, m.mci[a]);
    assert IsLimci(d, m.chain, a, m.limci[a]) && IsLimci(d, m.chain, u, m.limci[u]);
    LeTransitive(d, m.chain[m.limci[a]], a, u);
  }

  /** mci = limci holds exactly for the unit recorded as main-chain unit at that index. */
  lemma OnMainChainIsRecorded(d: Dag, st: Statics, m: Marks, u: Hash)
    requires Indexed(d, st, m) && u in m.mci
    ensures m.limci[u] <= m.mci[u] < |m.chain|
    ensures m.mci[u] == m.limci[u] <==> m.chain[m.mci[u]] == u
    ensures u in m.chain <==> m.chain[m.mci[u]] == u
  {
    var c, k, l := m.chain, m.mci[u], m.limci[u];
    assert IsMci(d, c, u, k) && IsLimci(d, c, u, l);
    if k < l {
      ChainLe(d, st, c, k, l);
      LeTransitive(d, c[l], u, c[k]);
      LevelIncreases(d, st, c[l], c[k]);
    }
    if k == l { LeAntisymmetric(d, u, c[k]); }
  }

  /** Inside one mci the lower level comes first, and of one level the smaller hash. */
  lemma SubMciOrders(d: Dag, st: Statics, m: Marks, a: Hash, b: Hash)
    requires Indexed(d, st, m) && a in m.mci && b in m.mci && m.mci[a] == m.mci[b]
    requires st[a].level < st[b].level || (st[a].level == st[b].level && a < b)
    ensures m.sub[a] < m.sub[b]
  {
    var pa, pb := Predecessors(st, m.mci, a), Predecessors(st, m.mci, b);
    assert a in pb && a !in pa && pa <= pb - {a};
    SubsetSize(pa, pb - {a});
  }

  predicate PairLess(m: Marks, a: Hash, b: Hash)
    requires a in m.mci && b in m.mci && a in m.sub && b in m.sub
  {
    m.mci[a] < m.mci[b] || (m.mci[a] == m.mci[b] && m.sub[a] < m.sub[b])
  }

  /** (mci, sub_mci) is a strict total order on marked units and puts every ancestor first. */
  lemma GlobalOrder(d: Dag, st: Statics, m: Marks, a: Hash, b: Hash)
    requires Indexed(d, st, m) && a in m.mci && b in m.mci && a != b
    ensures PairLess(m, a, b) <==> !PairLess(m, b, a)
    ensures Lt(d, a, b) ==> PairLess(m, a, b)
  {
    if m.mci[a] == m.mci[b] {
      if KeyLess(st, a, b) { SubMciOrders(d, st, m, a, b); } else { SubMciOrders(d, st, m, b, a); }
    }
    if Lt(d, a, b) {
      IndexMonotone(d, st, m, a, b);
      LevelIncreases(d, st, a, b);
      if m.mci[a] == m.mci[b] { SubMciOrders(d, st, m, a, b); }
    }
  }

  lemma {:induction false} ChainUnique(d: Dag, st: Statics, c: seq<Hash>, c': seq<Hash>)
    requires Full(d, st) && ChainOk(d, st, c) && ChainOk(d, st, c')
    requires c != [] && c' != [] && c[|c| - 1] == c'[|c'| - 1]
    ensures c == c'
    decreases |c|
  {
    var u := c[|c| - 1];
    if |c| > 1 { assert st[c[|c| - 1]].bp == Some(c[|c| - 2]); }
    if |c'| > 1 { assert st[c'[|c'| - 1]].bp == Some(c'[|c'| - 2]); }
    if |c| > 1 && |c'| > 1 {
      ChainUnique(d, st, c[..|c| - 1], c'[..|c'| - 1]);
    }
    assert c == c[..|c| - 1] + [u] && c' == c'[..|c'| - 1] + [u];
  }

  lemma IndicesUnique(d: Dag, chain: seq<Hash>, u: Hash, k: nat, k': nat, l: nat, l': nat)
    requires WellFormed(d)
    requires IsMci(d, chain, u, k) && IsMci(d, chain, u, k')
    requires IsLimci(d, chain, u, l) && IsLimci(d, chain, u, l')
    ensures k == k' && l == l'
  {
  }

  lemma MarksAgreeAt(d: Dag, st: Statics, m: Marks, m': Marks, u: Hash)
    requires Indexed(d, st, m) && Indexed(d, st, m') && m.chain == m'.chain && u in m.mci
    ensures u in m'.mci && m.mci[u] == m'.mci[u] && m.limci[u] == m'.limci[u]
  {
    assert IsMci(d, m.chain, u, m.mci[u]);
    assert Le(d, u, m'.chain[m.mci[u]]);
    assert IsMci(d, m'.chain, u, m'.mci[u]) && IsLimci(d, m'.chain, u, m'.limci[u]);
    assert IsLimci(d, m.chain, u, m.limci[u]);
    IndicesUnique(d, m.chain, u, m.mci[u], m'.mci[u], m.limci[u], m'.limci[u]);
  }

  lemma SubAgreesAt(d: Dag, st: Statics, m: Marks, m': Marks, u: Hash)
    requires Indexed(d, st, m) && Indexed(d, st, m') && m.mci == m'.mci && u in m.sub
    ensures u in m'.sub && m.sub[u] == m'.sub[u]
  {
    assert m.sub[u] == |Predecessors(st, m.mci, u)|;
    assert m'.sub[u] == |Predecessors(st, m'.mci, u)|;
  }

  /** The chain alone determines the whole index. */
  lemma MarksUnique(d: Dag, st: Statics, m: Marks, m': Marks)
    requires Indexed(d, st, m) && Indexed(d, st, m') && m.chain == m'.chain
    ensures m == m'
  {
    hide Indexed;
    SameKeys(d, st, m);
    SameKeys(d, st, m');
    forall u | u in m.mci ensures u in m'.mci && m.mci[u] == m'.mci[u] && m.limci[u] == m'.limci[u] {
      MarksAgreeAt(d, st, m, m', u);
    }
    forall u | u in m'.mci ensures u in m.mci {
      MarksAgreeAt(d, st, m', m, u);
    }
    assert m.mci == m'.mci;
    assert m.limci == m'.limci;
    forall u | u in m.sub ensures m.sub[u] == m'.sub[u] {
      SubAgreesAt(d, st, m, m', u);
    }
    assert m.sub == m'.sub;
  }

  lemma SameKeys(d: Dag, st: Statics, m: Marks)
    requires Indexed(d, st, m)
    ensures m.mci.Keys == m.limci.Keys == m.sub.Keys
  {
  }

  lemma IndicesTransfer(d: Dag, e: Dag, chain: seq<Hash>, u: Hash, k: nat, l: nat)
    requires WellFormed(d) && WellFormed(e) && SameUnits(d, e)
    requires IsMci(e, chain, u, k) && IsLimci(e, chain, u, l)
    ensures IsMci(d, chain, u, k) && IsLimci(d, chain, u, l)
  {
    LeAgrees(e, d, u, chain[k]);
    LeAgrees(e, d, chain[l], u);
    forall j | 0 <= j < k ensures !Le(d, u, chain[j]) {
      if Le(d, u, chain[j]) { LeAgrees(d, e, u, chain[j]); }
    }
    forall j | l < j < |chain| ensures !Le(d, chain[j], u) {
      if Le(d, chain[j], u) { LeAgrees(d, e, chain[j], u); }
    }
  }

  lemma IndexTransfers(d: Dag, e: Dag, st: Statics, m: Marks)
    requires Full(d, st) && Indexed(e, st, m) && SameUnits(d, e)
    ensures Indexed(d, st, m)
  {
    forall u | u in m.mci ensures IsMci(d, m.chain, u, m.mci[u]) && IsLimci(d, m.chain, u, m.limci[u]) {
      IndicesTransfer(d, e, m.chain, u, m.mci[u], m.limci[u]);
    }
    forall u, k | 0 <= k < |m.chain| && Le(d, u, m.chain[k]) ensures u in m.mci {
      LeAgrees(d, e, u, m.chain[k]);
    }
    if m.chain != [] {
      assert st[m.chain[0]].bp.None?;
    }
  }

  /**
   * Two nodes holding the same units that have stabilised the same main-chain unit carry
   * the same static properties and the same index, whatever order parents arrived in and
   * whatever stable points each went through.
   */
  lemma NodesAgree(d: Dag, e: Dag, st: Statics, st': Statics, m: Marks, m': Marks)
    requires Indexed(d, st, m) && Indexed(e, st', m') && SameUnits(d, e)
    requires m.chain != [] && m'.chain != [] && m.chain[|m.chain| - 1] == m'.chain[|m'.chain| - 1]
    ensures st == st' && m == m'
  {
    forall u | u in st ensures st[u] == st'[u] { StaticPropsAgree(d, e, st, st', u); }
    assert st == st';
    IndexTransfers(d, e, st, m');
    ChainUnique(d, st, m.chain, m'.chain);
    MarksUnique(d, st, m, m');
  }
}
