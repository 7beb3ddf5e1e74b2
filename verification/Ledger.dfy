/**
 * The stable ledger as a function of the units applied: unspent outputs, the per-address
 * index, and the verdict on each unit (src/business/mod.rs, src/business/utxo.rs).
 */
module Ledger {
  import opened Collections
  import opened Dag

  const TOTAL_WHITEBYTES: nat := 500_000_000_000_000

  datatype UtxoKey = UtxoKey(unit: Hash, outputIndex: nat, messageIndex: nat, amount: nat)
  datatype UtxoData = UtxoData(mci: nat, subMci: nat)
  datatype Entry = Entry(owner: Address, data: UtxoData)

  /** Unspent outputs by key, each with its owner. */
  type Live = map<UtxoKey, Entry>

  // ---------------------------------------------------------------- outputs and inputs

  function Key(d: Dag, u: Hash, i: nat): UtxoKey
    requires u in d.units && i < |d.units[u].outputs|
  {
    UtxoKey(u, i, d.units[u].payIndex, d.units[u].outputs[i].amount)
  }

  /** The output a transfer input refers to, if the unit, the message and the output exist. */
  function OutputAt(d: Dag, unit: Hash, outputIndex: nat, messageIndex: nat): Option<Output>
  {
    if unit in d.units && messageIndex == d.units[unit].payIndex && outputIndex < |d.units[unit].outputs|
    then Some(d.units[unit].outputs[outputIndex])
    else None
  }

  predicate IsIssue(i: Input) { i.kind == Some("issue") }
  predicate IsTransfer(i: Input) { i.kind == None || i.kind == Some("transfer") }

  /** The key and owner of the output an input refers to. */
  function Source(d: Dag, i: Input): Option<(UtxoKey, Address)>
  {
    if i.unit.Some? && i.outputIndex.Some? && i.messageIndex.Some? then
      match OutputAt(d, i.unit.value, i.outputIndex.value, i.messageIndex.value)
      case Some(o) => Some((UtxoKey(i.unit.value, i.outputIndex.value, i.messageIndex.value, o.amount), o.address))
      case None => None
    else None
  }

  /** get_output_by_input: the source of `i` when it is unspent. */
  function Unspent(d: Dag, live: Live, i: Input): Option<(UtxoKey, Address)>
  {
    match Source(d, i)
    case Some((k, a)) => if k in live && live[k].owner == a then Some((k, a)) else None
    case None => None
  }

  function SpendOne(d: Dag, live: Live, i: Input): Option<Live>
  {
    if IsIssue(i) then Some(live)
    else match Unspent(d, live, i)
      case Some((k, _)) => Some(live - {k})
      case None => None
  }

  /** decrease_output: remove the sources of the inputs one after the other. */
  function Spend(d: Dag, live: Live, inputs: seq<Input>): Option<Live>
  {
    if inputs == [] then Some(live)
    else match Spend(d, live, inputs[..|inputs| - 1])
      case Some(l) => SpendOne(d, l, inputs[|inputs| - 1])
      case None => None
  }

  /** increase_output: insert the first `n` outputs of `u`. */
  function Create(d: Dag, live: Live, u: Hash, n: nat, data: UtxoData): Live
    requires u in d.units && n <= |d.units[u].outputs|
  {
    if n == 0 then live
    else Create(d, live, u, n - 1, data)[Key(d, u, n - 1) := Entry(d.units[u].outputs[n - 1].address, data)]
  }

  function SumOutputs(outputs: seq<Output>): nat
  {
    if outputs == [] then 0 else SumOutputs(outputs[..|outputs| - 1]) + outputs[|outputs| - 1].amount
  }

  /** What outputs pay to `a`. */
  function PaidTo(outputs: seq<Output>, a: Address): nat
  {
    if outputs == [] then 0
    else
      var o := outputs[|outputs| - 1];
      PaidTo(outputs[..|outputs| - 1], a) + if o.address == a then o.amount else 0
  }

  function PaidToOthers(outputs: seq<Output>, a: Address): nat
  {
    if outputs == [] then 0
    else
      var o := outputs[|outputs| - 1];
      PaidToOthers(outputs[..|outputs| - 1], a) + if o.address != a then o.amount else 0
  }

  function InputAmount(d: Dag, i: Input): nat
  {
    if IsIssue(i) then (if i.amount.Some? then i.amount.value else 0)
    else match Source(d, i) case Some((k, _)) => k.amount case None => 0
  }

  function SumInputs(d: Dag, inputs: seq<Input>): nat
  {
    if inputs == [] then 0 else SumInputs(d, inputs[..|inputs| - 1]) + InputAmount(d, inputs[|inputs| - 1])
  }

  // ---------------------------------------------------------------- validation

  /** verify_output: positive amounts to valid addresses, sorted by address and amount. */
  ghost predicate OutputsOk(d: Dag, outputs: seq<Output>)
  {
    && (forall i :: 0 <= i < |outputs| ==> outputs[i].amount > 0 && outputs[i].address in d.addresses)
    && (forall i, j :: 0 <= i && j == i + 1 && j < |outputs| ==>
         || outputs[i].address < outputs[j].address
         || (outputs[i].address == outputs[j].address && outputs[i].amount <= outputs[j].amount))
  }

  /** verify_transfer_of_input, without the check for repeated inputs. */
  predicate TransferOk(d: Dag, live: Live, good: set<Hash>, stable: set<Hash>, u: Hash, i: Input)
    requires u in d.units
  {
    && i.address.None? && i.amount.None? && i.fromMci.None? && i.serialNumber.None? && i.toMci.None?
    && i.unit.Some? && i.messageIndex.Some? && i.outputIndex.Some?
    && Unspent(d, live, i).Some?
    && i.unit.value in good
    && i.unit.value in stable
    && Unspent(d, live, i).value.1 in d.units[u].authors
  }

  /** verify_issue_of_input. */
  predicate IssueOk(d: Dag, u: Hash, index: nat, i: Input)
    requires u in d.units
  {
    && index == 0 && IsGenesis(d, u)
    && i.unit.None? && i.messageIndex.None? && i.outputIndex.None? && i.fromMci.None? && i.toMci.None?
    && i.serialNumber == Some(1)
    && (if |d.units[u].authors| == 1 then i.address.None?
        else i.address.Some? && i.address.value in d.units[u].authors)
    && i.amount == Some(TOTAL_WHITEBYTES)
  }

  predicate InputOk(d: Dag, live: Live, good: set<Hash>, stable: set<Hash>, u: Hash, index: nat, i: Input)
    requires u in d.units
  {
    if IsTransfer(i) then TransferOk(d, live, good, stable, u, i)
    else IsIssue(i) && IssueOk(d, u, index, i)
  }

  /** verify_input: every input is fine and no two refer to the same output. */
  ghost predicate InputsOk(d: Dag, live: Live, good: set<Hash>, stable: set<Hash>, u: Hash, inputs: seq<Input>)
    requires u in d.units
  {
    && (forall i :: 0 <= i < |inputs| ==> InputOk(d, live, good, stable, u, i, inputs[i]))
    && (forall i, j :: 0 <= i < j < |inputs| && IsTransfer(inputs[i]) && IsTransfer(inputs[j]) ==>
         !SameSource(inputs[i], inputs[j]))
  }

  predicate SameSource(i: Input, j: Input)
  {
    i.unit == j.unit && i.messageIndex == j.messageIndex && i.outputIndex == j.outputIndex
  }

  function Commission(d: Dag, u: Hash): nat
    requires u in d.units
  {
    d.units[u].headersCommission + d.units[u].payloadCommission
  }

  /** validate_payment_inputs_and_outputs. */
  ghost predicate PaymentOk(d: Dag, live: Live, good: set<Hash>, stable: set<Hash>, u: Hash)
    requires u in d.units
  {
    && OutputsOk(d, d.units[u].outputs)
    && InputsOk(d, live, good, stable, u, d.units[u].inputs)
    && SumInputs(d, d.units[u].inputs) == SumOutputs(d.units[u].outputs) + Commission(d, u)
  }

  // ---------------------------------------------------------------- sums over unspent outputs

  ghost function Sum(s: set<UtxoKey>): nat
  {
    if s == {} then 0 else var k :| k in s; k.amount + Sum(s - {k})
  }

  lemma {:induction false} SumRemove(s: set<UtxoKey>, k: UtxoKey)
    requires k in s
    ensures Sum(s) == k.amount + Sum(s - {k})
    decreases |s|
  {
    var x :| x in s && Sum(s) == x.amount + Sum(s - {x});
    if x != k {
      SumRemove(s - {x}, k);
      SumRemove(s - {k}, x);
      assert s - {x} - {k} == s - {k} - {x};
    }
  }

  /** The unspent outputs of one address, or all of them. */
  ghost function Holdings(live: Live, who: Option<Address>): set<UtxoKey>
  {
    set k | k in live && (who.None? || live[k].owner == who.value)
  }

  ghost function Worth(live: Live, who: Option<Address>): nat
  {
    Sum(Holdings(live, who))
  }

  ghost predicate Counts(who: Option<Address>, a: Address)
  {
    who.None? || who.value == a
  }

  lemma WorthRemove(live: Live, k: UtxoKey, who: Option<Address>)
    requires k in live
    ensures Worth(live, who) == Worth(live - {k}, who) + if Counts(who, live[k].owner) then k.amount else 0
  {
    var h := Holdings(live, who);
    assert Holdings(live - {k}, who) == h - {k};
    if k in h { SumRemove(h, k); } else { assert h - {k} == h; }
  }

  lemma WorthAdd(live: Live, k: UtxoKey, e: Entry, who: Option<Address>)
    requires k !in live
    ensures Worth(live[k := e], who) == Worth(live, who) + if Counts(who, e.owner) then k.amount else 0
  {
    WorthRemove(live[k := e], k, who);
    assert live[k := e] - {k} == live;
  }

  // ---------------------------------------------------------------- what spending and creating do

  /** The part of a payment's outputs that counts for `who`. */
  ghost function Received(outputs: seq<Output>, who: Option<Address>): nat
  {
    if who.None? then SumOutputs(outputs) else PaidTo(outputs, who.value)
  }

  lemma {:induction false} CreateHolds(d: Dag, live: Live, u: Hash, n: nat, data: UtxoData)
    requires u in d.units && n <= |d.units[u].outputs|
    ensures forall k :: k in Create(d, live, u, n, data) <==> k in live || exists i :: 0 <= i < n && k == Key(d, u, i)
    ensures forall k :: k in live && k.unit != u ==> Create(d, live, u, n, data)[k] == live[k]
    ensures forall i :: 0 <= i < n ==>
      Create(d, live, u, n, data)[Key(d, u, i)] == Entry(d.units[u].outputs[i].address, data)
  {
    if n > 0 { CreateHolds(d, live, u, n - 1, data); }
  }

  lemma {:induction false} CreateAdds(d: Dag, live: Live, u: Hash, n: nat, data: UtxoData, who: Option<Address>)
    requires u in d.units && n <= |d.units[u].outputs| && forall k :: k in live ==> k.unit != u
    ensures Worth(Create(d, live, u, n, data), who) == Worth(live, who) + Received(d.units[u].outputs[..n], who)
  {
    if n > 0 {
      hide Worth;
      CreateAdds(d, live, u, n - 1, data, who);
      CreateHolds(d, live, u, n - 1, data);
      var before := Create(d, live, u, n - 1, data);
      var o := d.units[u].outputs[n - 1];
      WorthAdd(before, Key(d, u, n - 1), Entry(o.address, data), who);
      assert d.units[u].outputs[..n][..n - 1] == d.units[u].outputs[..n - 1];
    }
  }

  lemma {:induction false} OutputsSplit(outputs: seq<Output>, a: Address)
    ensures SumOutputs(outputs) == PaidTo(outputs, a) + PaidToOthers(outputs, a)
  {
    if outputs != [] { OutputsSplit(outputs[..|outputs| - 1], a); }
  }

  /** The transfers among inputs drawn from `who`. */
  ghost function Drawn(d: Dag, inputs: seq<Input>, who: Option<Address>): nat
  {
    if inputs == [] then 0
    else
      var i := inputs[|inputs| - 1];
      Drawn(d, inputs[..|inputs| - 1], who) +
        match Source(d, i)
        case Some((k, a)) => if !IsIssue(i) && Counts(who, a) then k.amount else 0
        case None => 0
  }

  ghost predicate SpentBy(d: Dag, inputs: seq<Input>, k: UtxoKey)
  {
    exists i :: 0 <= i < |inputs| && !IsIssue(inputs[i]) && Source(d, inputs[i]).Some? &&
      Source(d, inputs[i]).value.0 == k
  }

  lemma NotSpentBefore(d: Dag, live: Live, good: set<Hash>, stable: set<Hash>, u: Hash, inputs: seq<Input>)
    requires u in d.units && InputsOk(d, live, good, stable, u, inputs) && inputs != []
    requires !IsIssue(inputs[|inputs| - 1])
    ensures var n := |inputs| - 1;
      Source(d, inputs[n]).Some? && !SpentBy(d, inputs[..n], Source(d, inputs[n]).value.0)
  {
    var n := |inputs| - 1;
    assert InputOk(d, live, good, stable, u, n, inputs[n]);
    forall i | 0 <= i < n && !IsIssue(inputs[i]) && Source(d, inputs[i]).Some?
      ensures Source(d, inputs[i]).value.0 != Source(d, inputs[n]).value.0
    {
      assert InputOk(d, live, good, stable, u, i, inputs[i]);
      assert !SameSource(inputs[i], inputs[n]);
    }
  }

  /** Inputs that passed validation are spent without error, each removing its own output and nothing else. */
  lemma {:induction false} SpendSucceeds(d: Dag, live: Live, good: set<Hash>, stable: set<Hash>, u: Hash,
      inputs: seq<Input>, who: Option<Address>)
    requires u in d.units && InputsOk(d, live, good, stable, u, inputs)
    ensures Spend(d, live, inputs).Some?
    ensures forall k :: k in Spend(d, live, inputs).value <==> k in live && !SpentBy(d, inputs, k)
    ensures forall k :: k in Spend(d, live, inputs).value ==> Spend(d, live, inputs).value[k] == live[k]
    ensures Worth(live, who) == Worth(Spend(d, live, inputs).value, who) + Drawn(d, inputs, who)
  {
    if inputs != [] {
      var n := |inputs| - 1;
      var front, last := inputs[..n], inputs[n];
      assert InputsOk(d, live, good, stable, u, front);
      SpendSucceeds(d, live, good, stable, u, front, who);
      var l := Spend(d, live, front).value;
      if IsIssue(last) {
        forall k ensures SpentBy(d, inputs, k) <==> SpentBy(d, front, k) { SpentByStep(d, inputs, k); }
      } else {
        assert TransferOk(d, live, good, stable, u, last);
        var (key, a) := Source(d, last).value;
        NotSpentBefore(d, live, good, stable, u, inputs);
        assert Unspent(d, l, last) == Some((key, a));
        WorthRemove(l, key, who);
        forall k ensures SpentBy(d, inputs, k) <==> SpentBy(d, front, k) || k == key { SpentByStep(d, inputs, k); }
      }
    }
  }

  lemma SpentByStep(d: Dag, inputs: seq<Input>, k: UtxoKey)
    requires inputs != []
    ensures var n := |inputs| - 1;
      SpentBy(d, inputs, k) <==>
        || SpentBy(d, inputs[..n], k)
        || (!IsIssue(inputs[n]) && Source(d, inputs[n]).Some? && Source(d, inputs[n]).value.0 == k)
  {
    var n := |inputs| - 1;
    if SpentBy(d, inputs[..n], k) {
      var i :| 0 <= i < n && !IsIssue(inputs[..n][i]) && Source(d, inputs[..n][i]).Some? &&
        Source(d, inputs[..n][i]).value.0 == k;
      assert inputs[i] == inputs[..n][i];
    }
    if SpentBy(d, inputs, k) {
      var i :| 0 <= i < |inputs| && !IsIssue(inputs[i]) && Source(d, inputs[i]).Some? &&
        Source(d, inputs[i]).value.0 == k;
      if i < n { assert inputs[..n][i] == inputs[i]; }
    }
  }

  // ---------------------------------------------------------------- the ledger

  datatype Ledger = Ledger(
    live: Live,
    lastSelf: map<Address, Hash>,
    related: map<Address, seq<Hash>>,
    balance: map<Hash, nat>,
    prevSelf: map<Hash, Hash>,
    relatedUnits: map<Hash, seq<Hash>>,
    good: seq<Hash>)

  const EMPTY: Ledger := Ledger(map[], map[], map[], map[], map[], map[], [])

  /** One author per unit but genesis, which has several. */
  ghost predicate AuthorsOk(d: Dag)
  {
    forall u :: u in d.units ==>
      && d.units[u].authors != []
      && (IsGenesis(d, u) <==> |d.units[u].authors| > 1)
  }

  ghost function GoodSet(l: Ledger): set<Hash>
  {
    set u | u in l.good
  }

  /** The units listed for `a`. */
  function Listed(related: map<Address, seq<Hash>>, a: Address): seq<Hash>
  {
    if a in related then related[a] else []
  }

  /** What the listed units pay to `a`. */
  function PaidBy(d: Dag, units: seq<Hash>, a: Address): nat
    requires forall u :: u in units ==> u in d.units
  {
    if units == [] then 0
    else PaidBy(d, units[..|units| - 1], a) + PaidTo(d.units[units[|units| - 1]].outputs, a)
  }

  /** The references of the index lead to applied units. */
  ghost predicate RefsOk(d: Dag, l: Ledger)
  {
    && (forall u :: u in l.good ==> u in d.units)
    && (forall u :: u in l.good <==> u in l.balance)
    && (forall u :: u in l.good <==> u in l.relatedUnits)
    && (forall a :: a in l.lastSelf ==> l.lastSelf[a] in l.good)
    && (forall a, u :: a in l.related && u in l.related[a] ==> u in l.good)
    && (forall v, u :: v in l.relatedUnits && u in l.relatedUnits[v] ==> u in l.good)
    && (forall v :: v in l.prevSelf ==> v in l.good && l.prevSelf[v] in l.good)
  }

  /** get_stable_balance: the balance at the last own unit plus what related units paid since. */
  function StableBalance(d: Dag, l: Ledger, a: Address): nat
    requires RefsOk(d, l)
  {
    (if a in l.lastSelf then l.balance[l.lastSelf[a]] else 0) + PaidBy(d, Listed(l.related, a), a)
  }

  /** What a unit takes from its author: payments to others and commissions; genesis takes nothing. */
  function Charge(d: Dag, u: Hash): nat
    requires u in d.units && d.units[u].authors != []
  {
    if IsGenesis(d, u) then 0
    else PaidToOthers(d.units[u].outputs, d.units[u].authors[0]) + Commission(d, u)
  }

  /** The address a unit belongs to; a unit with several authors belongs to none. */
  function Payer(d: Dag, u: Hash): Option<Address>
    requires u in d.units && d.units[u].authors != []
  {
    if |d.units[u].authors| == 1 then Some(d.units[u].authors[0]) else None
  }

  /** update_related_joints over the first `n` outputs. */
  function Relate(d: Dag, related: map<Address, seq<Hash>>, u: Hash, n: nat): map<Address, seq<Hash>>
    requires u in d.units && d.units[u].authors != [] && n <= |d.units[u].outputs|
  {
    if n == 0 then related
    else
      var r := Relate(d, related, u, n - 1);
      var a := d.units[u].outputs[n - 1].address;
      if Payer(d, u) == Some(a) then r
      else if a !in r then r[a := [u]]
      else if u in r[a] then r
      else r[a := r[a] + [u]]
  }

  /** Applying `u` meets no error and no underflow. */
  ghost predicate CanApply(d: Dag, l: Ledger, u: Hash)
  {
    && RefsOk(d, l) && u in d.units && d.units[u].authors != []
    && Charge(d, u) <= StableBalance(d, l, d.units[u].authors[0])
    && Spend(d, l.live, d.units[u].inputs).Some?
  }

  /** apply_stable_joint for a unit whose payment spends without error. */
  function Apply(d: Dag, l: Ledger, u: Hash, data: UtxoData): Ledger
    requires CanApply(d, l, u)
  {
    var a := d.units[u].authors[0];
    Ledger(
      Create(d, Spend(d, l.live, d.units[u].inputs).value, u, |d.units[u].outputs|, data),
      if Payer(d, u).Some? then l.lastSelf[a := u] else l.lastSelf,
      Relate(d, l.related - {a}, u, |d.units[u].outputs|),
      l.balance[u := StableBalance(d, l, a) - Charge(d, u)],
      if a in l.lastSelf then l.prevSelf[u := l.lastSelf[a]] else l.prevSelf,
      l.relatedUnits[u := Listed(l.related, a)],
      l.good + [u])
  }

  /** Every author's last own unit is properly included in `u`. */
  ghost predicate IncludesLastSelf(d: Dag, l: Ledger, u: Hash)
    requires WellFormed(d) && u in d.units
  {
    forall a :: a in d.units[u].authors && a in l.lastSelf ==> Lt(d, l.lastSelf[a], u)
  }

  /**
   * validate_stable_joint, `stable` being the units finalised when it runs. A unit is final
   * bad from the start if it came with a content hash or was `marked` when it was admitted.
   */
  ghost predicate Accepts(d: Dag, marked: set<Hash>, l: Ledger, stable: set<Hash>, u: Hash)
    requires WellFormed(d) && u in d.units
  {
    && u !in marked && !d.units[u].contentHash
    && IncludesLastSelf(d, l, u)
    && PaymentOk(d, l.live, GoodSet(l), stable, u)
  }

  // ---------------------------------------------------------------- the invariant

  /** Every unspent output is an output of an applied unit, held by its owner. */
  ghost predicate LiveOk(d: Dag, l: Ledger)
  {
    forall k :: k in l.live ==>
      && k.unit in l.good && k.unit in d.units
      && OutputAt(d, k.unit, k.outputIndex, k.messageIndex) == Some(Output(l.live[k].owner, k.amount))
  }

  ghost function Commissions(d: Dag, units: seq<Hash>): nat
    requires forall u :: u in units ==> u in d.units
  {
    if units == [] then 0 else Commissions(d, units[..|units| - 1]) + Commission(d, units[|units| - 1])
  }

  /** What a unit issues: the cap for an issue by genesis. */
  ghost function Issue(d: Dag, u: Hash): nat
    requires u in d.units
  {
    if d.units[u].inputs != [] && IsIssue(d.units[u].inputs[0]) then TOTAL_WHITEBYTES else 0
  }

  ghost function Issued(d: Dag, units: seq<Hash>): nat
    requires forall u :: u in units ==> u in d.units
  {
    if units == [] then 0 else Issued(d, units[..|units| - 1]) + Issue(d, units[|units| - 1])
  }

  ghost predicate Balanced(d: Dag, l: Ledger)
    requires RefsOk(d, l)
  {
    forall a {:trigger StableBalance(d, l, a)} :: StableBalance(d, l, a) == Worth(l.live, Some(a))
  }

  /** What every run of validated and applied units keeps. */
  ghost predicate LedgerOk(d: Dag, l: Ledger)
  {
    && AuthorsOk(d) && RefsOk(d, l) && LiveOk(d, l) && Distinct(l.good)
    && Worth(l.live, None) + Commissions(d, l.good) == Issued(d, l.good)
    && Balanced(d, l)
  }
}
