/** The business worker's state: unspent outputs, the per-address index and the verdicts (src/business/mod.rs). */
module Business {
  import opened Collections
  import opened Dag
  import opened StaticProps
  import opened MainChain
  import opened Ancestor
  import opened Ledger
  import opened LedgerRun
  import opened Utxo

  lemma {:induction false} PaidToSplit(outputs: seq<Output>, n: nat, a: Address)
    requires n <= |outputs|
    ensures PaidToOthers(outputs[..n], a) <= PaidToOthers(outputs, a)
    decreases |outputs| - n
  {
    if n < |outputs| {
      assert outputs[..n + 1][..n] == outputs[..n];
      PaidToSplit(outputs, n + 1, a);
    } else {
      assert outputs[..n] == outputs;
    }
  }

  /** What validation guarantees about applying `u`. */
  lemma ReadyToApply(d: Dag, l: Ledger, stable: set<Hash>, u: Hash, data: UtxoData)
    requires LedgerOk(d, l) && InTurn(d, l, u) && PaymentOk(d, l.live, GoodSet(l), stable, u)
    ensures u in d.units && CanApply(d, l, u) && LedgerOk(d, Apply(d, l, u, data))
    ensures forall k :: k in l.live ==> k.unit != u
    ensures Spend(d, l.live, d.units[u].inputs).Some? && Apply(d, l, u, data).good == l.good + [u]
    ensures Apply(d, l, u, data).live ==
      Create(d, Spend(d, l.live, d.units[u].inputs).value, u, |d.units[u].outputs|, data)
  {
    hide *;
    LedgerFacts(d, l, 0);
    UnitFacts(d, l, stable, u);
    ApplyKeeps(d, l, stable, u, data);
    SpentUnits(d, l, u, l.live);
    AppliedIndex(d, l, u, data);
  }

  class BusinessCache {
    const d: Dag
    const utxo: UtxoCache
    var lastSelf: map<Address, Hash>
    var related: map<Address, seq<Hash>>
    var balance: map<Hash, nat>
    var prevSelf: map<Hash, Hash>
    var relatedUnits: map<Hash, seq<Hash>>
    /** The final sequence of each handled unit: good or final bad. */
    var sequence: map<Hash, bool>
    ghost var ledger: Ledger

    /** The unspent outputs and the index are those of a consistent ledger. */
    ghost predicate Applied()
      reads this, utxo
    {
      && utxo.Valid() && utxo.live == ledger.live
      && IndexIs(ledger)
      && LedgerOk(d, ledger)
    }

    ghost predicate Valid()
      reads this, utxo
    {
      && Applied()
      && (forall u :: u in sequence && sequence[u] <==> u in ledger.good)
    }

    ghost predicate IndexIs(l: Ledger)
      reads this
    {
      && lastSelf == l.lastSelf && related == l.related && balance == l.balance
      && prevSelf == l.prevSelf && relatedUnits == l.relatedUnits
    }

    constructor (d: Dag)
      requires AuthorsOk(d)
      ensures Valid() && this.d == d && ledger == EMPTY && sequence == map[] && fresh(utxo)
    {
      this.d := d;
      utxo := new UtxoCache();
      lastSelf, related, balance, prevSelf, relatedUnits, sequence := map[], map[], map[], map[], map[], map[];
      ledger := EMPTY;
      EmptyOk(d);
    }

    method GetStableBalance(a: Address) returns (total: nat)
      requires RefsOk(d, ledger) && IndexIs(ledger)
      ensures total == StableBalance(d, ledger, a)
    {
      total := if a in lastSelf then balance[lastSelf[a]] else 0;
      ghost var start := total;
      var units := if a in related then related[a] else [];
      assert units == Listed(ledger.related, a) && forall u :: u in units ==> u in d.units;
      for i := 0 to |units|
        invariant total == start + PaidBy(d, units[..i], a)
      {
        assert units[..i + 1][..i] == units[..i];
        var outputs := d.units[units[i]].outputs;
        ghost var here := total;
        for j := 0 to |outputs|
          invariant total == here + PaidTo(outputs[..j], a)
        {
          assert outputs[..j + 1][..j] == outputs[..j];
          if outputs[j].address == a {
            total := total + outputs[j].amount;
          }
        }
        assert outputs[..|outputs|] == outputs;
      }
      assert units[..|units|] == units;
    }

    /** Record previous own unit, related units and balance on `u`; no subtraction underflows. */
    method UpdateJointBalanceProps(u: Hash)
      requires RefsOk(d, ledger) && IndexIs(ledger) && CanApply(d, ledger, u)
      modifies `balance, `prevSelf, `relatedUnits
      ensures var a := d.units[u].authors[0];
        && balance == ledger.balance[u := StableBalance(d, ledger, a) - Charge(d, u)]
        && prevSelf == (if a in ledger.lastSelf then ledger.prevSelf[u := ledger.lastSelf[a]] else ledger.prevSelf)
        && relatedUnits == ledger.relatedUnits[u := Listed(ledger.related, a)]
    {
      hide StableBalance; hide Charge; hide Spend;
      var a := d.units[u].authors[0];
      var full := GetStableBalance(a);
      var rest := Discount(u, a, full);
      if a in lastSelf {
        prevSelf := prevSelf[u := lastSelf[a]];
      }
      relatedUnits := relatedUnits[u := if a in related then related[a] else []];
      balance := balance[u := rest];
    }

    /** What is left of a balance after the payments to others and the commissions of `u`, without underflow. */
    method Discount(u: Hash, a: Address, full: nat) returns (rest: nat)
      requires u in d.units && d.units[u].authors != [] && a == d.units[u].authors[0] && Charge(d, u) <= full
      ensures rest == full - Charge(d, u)
    {
      rest := full;
      if !IsGenesis(d, u) {
        var outputs := d.units[u].outputs;
        for i := 0 to |outputs|
          invariant rest == full - PaidToOthers(outputs[..i], a)
        {
          assert outputs[..i + 1][..i] == outputs[..i];
          PaidToSplit(outputs, i + 1, a);
          if a != outputs[i].address {
            rest := rest - outputs[i].amount;
          }
        }
        assert outputs[..|outputs|] == outputs;
        rest := rest - d.units[u].headersCommission;
        rest := rest - d.units[u].payloadCommission;
      }
    }

    /** Make `u` its author's last own unit and list it for the addresses it pays. */
    method UpdateGlobalState(u: Hash)
      requires u in d.units && d.units[u].authors != []
      modifies `lastSelf, `related
      ensures var a := d.units[u].authors[0];
        && lastSelf == (if Payer(d, u).Some? then old(lastSelf)[a := u] else old(lastSelf))
        && related == Relate(d, old(related) - {a}, u, |d.units[u].outputs|)
    {
      var a := d.units[u].authors[0];
      if |d.units[u].authors| == 1 {
        lastSelf := lastSelf[a := u];
      }
      related := related - {a};
      var outputs := d.units[u].outputs;
      ghost var cleared := related;
      for i := 0 to |outputs|
        invariant related == Relate(d, cleared, u, i)
        invariant lastSelf == if Payer(d, u).Some? then old(lastSelf)[a := u] else old(lastSelf)
      {
        var b := outputs[i].address;
        if |d.units[u].authors| != 1 || b != a {
          if b !in related {
            related := related[b := [u]];
          } else if u !in related[b] {
            related := related[b := related[b] + [u]];
          }
        }
      }
    }

    /** Everything but the unspent outputs. */
    method UpdateIndex(u: Hash, ghost data: UtxoData)
      requires IndexIs(ledger) && CanApply(d, ledger, u)
      modifies `lastSelf, `related, `balance, `prevSelf, `relatedUnits
      ensures IndexIs(Apply(d, ledger, u, data))
    {
      hide Apply; hide Relate; hide Spend; hide Create; hide StableBalance; hide Charge; hide RefsOk; hide Payer;
      AppliedIndex(d, ledger, u, data);
      UpdateJointBalanceProps(u);
      UpdateGlobalState(u);
    }

    /** Apply a unit whose payment has just been validated: it never fails. */
    method ApplyStableJoint(u: Hash, data: UtxoData, ghost stable: set<Hash>) returns (ok: bool)
      requires Applied() && InTurn(d, ledger, u) && PaymentOk(d, ledger.live, GoodSet(ledger), stable, u)
      modifies this, utxo
      ensures ok && CanApply(d, old(ledger), u)
      ensures ledger == Apply(d, old(ledger), u, data) && ledger.good == old(ledger).good + [u]
      ensures Applied() && sequence == old(sequence)
    {
      hide LedgerOk; hide PaymentOk; hide InTurn; hide RefsOk; hide AuthorsOk; hide LiveOk; hide NestedOk;
      hide Distinct;
      hide StableBalance; hide Charge; hide Spend; hide Create; hide Relate; hide Apply; hide CanApply; hide InputsOk;
      hide Worth; hide Commissions; hide Issued; hide Listed; hide IsGenesis; hide Payer;
      ghost var l := ledger;
      ReadyToApply(d, l, stable, u, data);
      UpdateIndex(u, data);
      ok := utxo.ApplyPayment(d, u, data);
      ledger := Apply(d, l, u, data);
    }

    /** Whether every author's last own unit is properly included in `u`. */
    method IncludesLastSelfJoint(u: Hash, st: Statics, ghost fin: Marks, ghost known: set<Hash>, free: set<Hash>,
        read: map<Hash, UnitProps>)
      returns (ok: bool)
      requires IndexIs(ledger) && Indexed(d, st, fin) && KnownClosed(d, known) && FreeOk(d, known, free) && u in known
      requires forall v :: v in d.units ==> v in read && read[v].key == v && Snapshot(st, fin, read[v])
      requires forall a :: a in ledger.lastSelf ==> ledger.lastSelf[a] in known
      ensures ok <==> IncludesLastSelf(d, ledger, u)
    {
      hide Indexed; hide Le; hide Full; hide StaticOk; hide Snapshot; hide FreeOk; hide WellFormed;
      IndexedIsFull(d, st, fin);
      var authors := d.units[u].authors;
      for i := 0 to |authors|
        invariant forall a :: a in authors[..i] && a in lastSelf ==> Lt(d, lastSelf[a], u)
      {
        assert authors[..i + 1] == authors[..i] + [authors[i]];
        if authors[i] in lastSelf {
          var cmp := CompareJoints(d, st, fin, known, free, u, lastSelf[authors[i]], read);
          if cmp != Some(Greater) {
            assert authors[i] in d.units[u].authors;
            return false;
          }
        }
      }
      assert authors[..|authors|] == authors;
      ok := true;
    }

    /** The business worker on one unit: validate, apply if valid, and fix its sequence. */
    method HandleStableJoint(u: Hash, data: UtxoData, marked: set<Hash>, stable: set<Hash>, st: Statics,
                             ghost fin: Marks, ghost known: set<Hash>, free: set<Hash>, read: map<Hash, UnitProps>)
      returns (good: bool)
      requires Valid() && InTurn(d, ledger, u) && u !in sequence
      requires Indexed(d, st, fin) && KnownClosed(d, known) && FreeOk(d, known, free) && u in known
      requires forall v :: v in d.units ==> v in read && read[v].key == v && Snapshot(st, fin, read[v])
      requires forall a :: a in ledger.lastSelf ==> ledger.lastSelf[a] in known
      modifies this, utxo
      ensures Valid() && WellFormed(d)
      ensures good <==> Accepts(d, marked, old(ledger), stable, u)
      ensures sequence == old(sequence)[u := good]
      ensures good ==> CanApply(d, old(ledger), u) && ledger == Apply(d, old(ledger), u, data)
      ensures !good ==> ledger == old(ledger)
    {
      hide Indexed; hide Le; hide Full; hide StaticOk; hide Snapshot; hide FreeOk; hide WellFormed;
      hide LedgerOk; hide PaymentOk; hide IncludesLastSelf; hide NestedOk; hide Apply; hide CanApply;
      IndexedIsFull(d, st, fin);
      good := u !in marked && !d.units[u].contentHash;
      if good {
        good := IncludesLastSelfJoint(u, st, fin, known, free, read);
      }
      if good {
        var goodUnits := set v | v in sequence && sequence[v];
        assert goodUnits == GoodSet(ledger);
        good := utxo.ValidatePayment(d, goodUnits, stable, u);
      }
      if good {
        var applied := ApplyStableJoint(u, data, stable);
      }
      sequence := sequence[u := good];
    }
  }
}
