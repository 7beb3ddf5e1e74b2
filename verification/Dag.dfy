/**
 * Units, parent edges and plain reachability.
 *
 * A `Dag` is the finite universe of units a run of a node ever normalises. Hashes and
 * addresses are only ever compared for equality and by a total order, so numbers stand
 * in for the strings of the source.
 */
module Dag {

  type Hash = nat
  type Address = nat

  datatype Option<+T> = None | Some(value: T)

  datatype Output = Output(address: Address, amount: nat)

  /** The optional fields of a payment input; `kind` absent means "transfer". */
  datatype Input = Input(
    kind: Option<string>,
    unit: Option<Hash>,
    messageIndex: Option<nat>,
    outputIndex: Option<nat>,
    address: Option<Address>,
    amount: Option<nat>,
    serialNumber: Option<nat>,
    fromMci: Option<nat>,
    toMci: Option<nat>)

  /**
   * One unit. `parents` is the list of resolved parents in the order they arrived.
   * The only payment message sits at `payIndex`; any other message is text.
   * `contentHash` marks a unit received as already final bad, without messages.
   */
  datatype Unit = Unit(
    parents: seq<Hash>,
    authors: seq<Address>,
    lastBall: Option<Hash>,
    contentHash: bool,
    headersCommission: nat,
    payloadCommission: nat,
    payIndex: nat,
    inputs: seq<Input>,
    outputs: seq<Output>)

  /** `addresses` are those whose checksum is valid. */
  datatype Dag = Dag(units: map<Hash, Unit>, witnesses: set<Address>, addresses: set<Address>)

  const COUNT_WITNESSES: nat := 12
  const MAJORITY_OF_WITNESSES: nat := COUNT_WITNESSES / 2 + 1

  /** A parent's rank is below its child's: the shape a hash over the parents enforces. */
  ghost predicate RankOk(d: Dag, rank: map<Hash, nat>)
  {
    forall u :: u in d.units ==>
      u in rank && forall p :: p in d.units[u].parents ==> p in d.units && p in rank && rank[p] < rank[u]
  }

  predicate IsGenesis(d: Dag, u: Hash)
  {
    u in d.units && d.units[u].parents == []
  }

  /** The witnesses among the authors of a unit. */
  function Signers(d: Dag, u: Hash): set<Address>
    requires u in d.units
  {
    set a | a in d.units[u].authors && a in d.witnesses
  }

  predicate ByWitness(d: Dag, u: Hash)
    requires u in d.units
  {
    exists a :: a in d.units[u].authors && a in d.witnesses
  }

  /** Closed and acyclic parent edges, and one genesis whose authors cover a majority of the witnesses. */
  ghost predicate WellFormed(d: Dag)
  {
    && (exists rank :: RankOk(d, rank))
    && (forall u, v :: IsGenesis(d, u) && IsGenesis(d, v) ==> u == v)
    && (forall u :: IsGenesis(d, u) ==> |Signers(d, u)| >= MAJORITY_OF_WITNESSES)
  }

  ghost function Ranking(d: Dag): (rank: map<Hash, nat>)
    requires WellFormed(d)
    ensures RankOk(d, rank)
  {
    var rank :| RankOk(d, rank); rank
  }

  ghost function Rank(d: Dag, u: Hash): nat
    requires WellFormed(d)
  {
    var r := Ranking(d); if u in r then r[u] else 0
  }

  /** Plain parent reachability: `a` is `u` or an ancestor of `u`. */
  ghost predicate Le(d: Dag, a: Hash, u: Hash)
    requires WellFormed(d)
    decreases Rank(d, u)
  {
    u in d.units && (a == u || exists p :: p in d.units[u].parents && Le(d, a, p))
  }

  /** `a` is a proper ancestor of `u`. */
  ghost predicate Lt(d: Dag, a: Hash, u: Hash)
    requires WellFormed(d)
  {
    a != u && Le(d, a, u)
  }

  lemma {:induction false} LeKnown(d: Dag, a: Hash, u: Hash)
    requires WellFormed(d) && Le(d, a, u)
    ensures a in d.units
    decreases Rank(d, u)
  {
    if a != u {
      var p :| p in d.units[u].parents && Le(d, a, p);
      LeKnown(d, a, p);
    }
  }

  lemma {:induction false} LeTransitive(d: Dag, a: Hash, b: Hash, c: Hash)
    requires WellFormed(d) && Le(d, a, b) && Le(d, b, c)
    ensures Le(d, a, c)
    decreases Rank(d, c)
  {
    if b != c {
      var p :| p in d.units[c].parents && Le(d, b, p);
      LeTransitive(d, a, b, p);
    }
  }

  lemma {:induction false} LeRank(d: Dag, a: Hash, u: Hash)
    requires WellFormed(d) && Le(d, a, u)
    ensures a == u || Rank(d, a) < Rank(d, u)
    decreases Rank(d, u)
  {
    if a != u {
      var p :| p in d.units[u].parents && Le(d, a, p);
      LeRank(d, a, p);
    }
  }

  lemma LeAntisymmetric(d: Dag, a: Hash, b: Hash)
    requires WellFormed(d) && Le(d, a, b) && Le(d, b, a)
    ensures a == b
  {
    LeRank(d, a, b);
    LeRank(d, b, a);
  }

  /** A parent through which a proper ancestor is reached. */
  lemma StepDown(d: Dag, a: Hash, u: Hash) returns (p: Hash)
    requires WellFormed(d) && Lt(d, a, u)
    ensures u in d.units && p in d.units[u].parents && Le(d, a, p) && Le(d, p, u)
    ensures Rank(d, p) < Rank(d, u)
  {
    p :| p in d.units[u].parents && Le(d, a, p);
    assert Le(d, p, p);
  }

  /** Genesis is below every unit. */
  lemma {:induction false} GenesisBelow(d: Dag, u: Hash) returns (g: Hash)
    requires WellFormed(d) && u in d.units
    ensures IsGenesis(d, g) && Le(d, g, u)
    decreases Rank(d, u)
  {
    if d.units[u].parents == [] {
      g := u;
    } else {
      var p := d.units[u].parents[0];
      g := GenesisBelow(d, p);
    }
  }

  /** A set of units holding the parents of each of its members holds all their ancestors. */
  lemma {:induction false} ClosedHoldsAncestors(d: Dag, s: set<Hash>, a: Hash, u: Hash)
    requires WellFormed(d) && Le(d, a, u) && u in s
    requires forall v, p :: v in s && v in d.units && p in d.units[v].parents ==> p in s
    ensures a in s
    decreases Rank(d, u)
  {
    if a != u {
      var p :| p in d.units[u].parents && Le(d, a, p);
      ClosedHoldsAncestors(d, s, a, p);
    }
  }
}
