/**
 * What a good verdict means, in terms of the units judged good before: which outputs they
 * have left, whom they belong to, and in which order one author's units may follow each
 * other (src/business/mod.rs, src/business/utxo.rs).
 */
module Verdicts {
  import opened Collections
  import opened Dag
  import opened Ledger
  import opened LedgerRun

  // ---------------------------------------------------------------- unspent outputs

  /** `k` names an output that exists. */
  ghost predicate Exists(d: Dag, k: UtxoKey)
  {
    && k.unit in d.units && k.messageIndex == d.units[k.unit].payIndex
    && k.outputIndex < |d.units[k.unit].outputs| && d.units[k.unit].outputs[k.outputIndex].amount == k.amount
  }

  /** Some input of `u` other than an issue names `k`. */
  ghost predicate Consumes(d: Dag, u: Hash, k: UtxoKey)
  {
    u in d.units && exists i :: 0 <= i < |d.units[u].inputs| && Names(d.units[u].inputs[i], k)
  }

  predicate Names(i: Input, k: UtxoKey)
  {
    && i.kind != Some("issue")
    && i.unit == Some(k.unit) && i.messageIndex == Some(k.messageIndex) && i.outputIndex == Some(k.outputIndex)
  }

  ghost predicate Consumed(d: Dag, good: seq<Hash>, k: UtxoKey)
  {
    exists g :: g in good && Consumes(d, g, k)
  }

  /** The unspent outputs are the outputs of good units that no good unit consumes, held by those they pay. */
  ghost predicate LiveMeans(d: Dag, l: Ledger)
  {
    && (forall k {:trigger k in l.live} :: k in l.live <==> k.unit in l.good && Exists(d, k) && !Consumed(d, l.good, k))
    && (forall k {:trigger l.live[k]} :: k in l.live && Exists(d, k) ==>
         l.live[k].owner == d.units[k.unit].outputs[k.outputIndex].address)
  }

  /** Good units only consume outputs of good units. */
  ghost predicate SourcesGood(d: Dag, l: Ledger)
  {
    forall g, k {:trigger Consumes(d, g, k)} :: g in l.good && Consumes(d, g, k) ==> k.unit in l.good
  }

  lemma ConsumedByPayment(d: Dag, l: Ledger, stable: set<Hash>, u: Hash, k: UtxoKey)
    requires u in d.units && InputsOk(d, l.live, GoodSet(l), stable, u, d.units[u].inputs)
    ensures Consumes(d, u, k) ==> k.unit in l.good
    ensures Exists(d, k) ==> (Consumes(d, u, k) <==> SpentBy(d, d.units[u].inputs, k))
  {
    var inputs := d.units[u].inputs;
    forall i | 0 <= i < |inputs| && Names(inputs[i], k) ensures k.unit in l.good {
      assert InputOk(d, l.live, GoodSet(l), stable, u, i, inputs[i]);
    }
    if Exists(d, k) {
      forall i | 0 <= i < |inputs|
        ensures Names(inputs[i], k) <==>
          !IsIssue(inputs[i]) && Source(d, inputs[i]).Some? && Source(d, inputs[i]).value.0 == k
      {
      }
    }
  }

  /** What applying a validated payment does to the unspent outputs. */
  lemma AppliedParts(d: Dag, l: Ledger, stable: set<Hash>, u: Hash, data: UtxoData) returns (spent: Live)
    requires LedgerOk(d, l) && InTurn(d, l, u) && PaymentOk(d, l.live, GoodSet(l), stable, u)
    ensures CanApply(d, l, u) && u in d.units && u !in l.good
    ensures InputsOk(d, l.live, GoodSet(l), stable, u, d.units[u].inputs)
    ensures forall k :: k in spent <==> k in l.live && !SpentBy(d, d.units[u].inputs, k)
    ensures forall k :: k in spent ==> spent[k] == l.live[k]
    ensures var l' := Apply(d, l, u, data);
      && l'.good == l.good + [u]
      && (forall k :: k in l'.live <==> k in spent || exists i :: 0 <= i < |d.units[u].outputs| && k == Key(d, u, i))
      && (forall k :: k in spent && k.unit != u ==> l'.live[k] == spent[k])
      && (forall i :: 0 <= i < |d.units[u].outputs| ==>
           Key(d, u, i) in l'.live && l'.live[Key(d, u, i)] == Entry(d.units[u].outputs[i].address, data))
  {
    hide Apply; hide PaymentOk; hide LedgerOk; hide CanApply; hide InTurn;
    ApplyKeeps(d, l, stable, u, data);
    LedgerFacts(d, l, 0);
    UnitFacts(d, l, stable, u);
    AppliedIndex(d, l, u, data);
    hide AuthorsOk; hide RefsOk; hide LiveOk; hide InputsOk; hide SpentBy; hide Relate; hide StableBalance; hide Charge;
    var inputs := d.units[u].inputs;
    SpendSucceeds(d, l.live, GoodSet(l), stable, u, inputs, None);
    spent := Spend(d, l.live, inputs).value;
    CreateHolds(d, spent, u, |d.units[u].outputs|, data);
    hide Create; hide Spend;
  }

  /** Applying a validated payment keeps it so. */
  lemma LiveMeansKept(d: Dag, l: Ledger, stable: set<Hash>, u: Hash, data: UtxoData)
    requires LedgerOk(d, l) && InTurn(d, l, u) && PaymentOk(d, l.live, GoodSet(l), stable, u)
    requires LiveMeans(d, l) && SourcesGood(d, l)
    ensures CanApply(d, l, u) && LiveMeans(d, Apply(d, l, u, data)) && SourcesGood(d, Apply(d, l, u, data))
  {
    hide Apply; hide LedgerOk; hide PaymentOk; hide CanApply; hide InTurn; hide InputsOk; hide SpentBy;
    var spent := AppliedParts(d, l, stable, u, data);
    var l' := Apply(d, l, u, data);
    hide Consumes; hide Consumed; hide Exists;
    forall g, k | g in l'.good && Consumes(d, g, k) ensures k.unit in l'.good {
      if g == u { ConsumedByPayment(d, l, stable, u, k); }
    }
    forall k ensures k in l'.live <==> k.unit in l'.good && Exists(d, k) && !Consumed(d, l'.good, k) {
      LiveMeansAt(d, l, l', stable, u, spent, k);
    }
    OwnersKept(d, l, l', u, spent, data);
  }

  lemma LiveMeansAt(d: Dag, l: Ledger, l': Ledger, stable: set<Hash>, u: Hash, spent: Live, k: UtxoKey)
    requires u in d.units && u !in l.good && InputsOk(d, l.live, GoodSet(l), stable, u, d.units[u].inputs)
    requires LiveMeans(d, l) && SourcesGood(d, l) && l'.good == l.good + [u]
    requires forall k :: k in spent <==> k in l.live && !SpentBy(d, d.units[u].inputs, k)
    requires k in l'.live <==> k in spent || exists i :: 0 <= i < |d.units[u].outputs| && k == Key(d, u, i)
    ensures k in l'.live <==> k.unit in l'.good && Exists(d, k) && !Consumed(d, l'.good, k)
  {
    hide InputsOk; hide SpentBy; hide Consumes;
    ConsumedByPayment(d, l, stable, u, k);
    assert forall g :: g in l'.good <==> g in l.good || g == u;
    assert Consumed(d, l'.good, k) <==> Consumed(d, l.good, k) || Consumes(d, u, k);
    if k.unit == u {
      assert Exists(d, k) ==> k == Key(d, u, k.outputIndex);
      assert !Consumed(d, l.good, k);
    }
  }

  lemma OwnersKept(d: Dag, l: Ledger, l': Ledger, u: Hash, spent: Live, data: UtxoData)
    requires LiveMeans(d, l) && u in d.units && u !in l.good
    requires forall k :: k in spent ==> k in l.live && spent[k] == l.live[k]
    requires forall k :: k in l'.live <==> k in spent || exists i :: 0 <= i < |d.units[u].outputs| && k == Key(d, u, i)
    requires forall k :: k in spent && k.unit != u ==> l'.live[k] == spent[k]
    requires forall i :: 0 <= i < |d.units[u].outputs| ==>
      Key(d, u, i) in l'.live && l'.live[Key(d, u, i)] == Entry(d.units[u].outputs[i].address, data)
    ensures forall k {:trigger l'.live[k]} :: k in l'.live && Exists(d, k) ==>
      l'.live[k].owner == d.units[k.unit].outputs[k.outputIndex].address
  {
    forall k | k in l'.live && Exists(d, k)
      ensures l'.live[k].owner == d.units[k.unit].outputs[k.outputIndex].address
    {
      if k.unit == u {
        assert k == Key(d, u, k.outputIndex);
      } else {
        assert k in spent;
      }
    }
  }

  // ---------------------------------------------------------------- the order of one author's units

  /** Only `a` wrote `u`. */
  ghost predicate By(d: Dag, u: Hash, a: Address)
  {
    u in d.units && d.units[u].authors == [a]
  }

  /** The last own unit of an author includes all its good units, and each of these the ones before. */
  ghost predicate SerialOk(d: Dag, l: Ledger)
    requires WellFormed(d)
  {
    && (forall a {:trigger l.lastSelf[a]} :: a in l.lastSelf ==> l.lastSelf[a] in l.good && By(d, l.lastSelf[a], a))
    && (forall u, a {:trigger By(d, u, a)} :: u in l.good && By(d, u, a) ==> a in l.lastSelf && Le(d, u, l.lastSelf[a]))
    && (forall i, j, a {:trigger By(d, l.good[i], a), By(d, l.good[j], a)} ::
         0 <= i < j < |l.good| && By(d, l.good[i], a) && By(d, l.good[j], a) ==> Lt(d, l.good[i], l.good[j]))
  }

  /** `u` includes every good unit of each of its authors. */
  ghost predicate IncludesOwn(d: Dag, good: seq<Hash>, u: Hash)
    requires WellFormed(d) && u in d.units
  {
    forall g, a {:trigger By(d, g, a)} :: g in good && a in d.units[u].authors && By(d, g, a) ==> Lt(d, g, u)
  }

  lemma IncludesOwnMeans(d: Dag, l: Ledger, u: Hash)
    requires WellFormed(d) && u in d.units && SerialOk(d, l)
    ensures IncludesLastSelf(d, l, u) <==> IncludesOwn(d, l.good, u)
  {
    hide Le;
    if IncludesLastSelf(d, l, u) {
      forall g, a | g in l.good && a in d.units[u].authors && By(d, g, a) ensures Lt(d, g, u) {
        var last := l.lastSelf[a];
        LeTransitive(d, g, last, u);
        LeRank(d, g, last);
        LeRank(d, last, u);
      }
    }
    if IncludesOwn(d, l.good, u) {
      forall a | a in d.units[u].authors && a in l.lastSelf ensures Lt(d, l.lastSelf[a], u) {
        assert By(d, l.lastSelf[a], a);
      }
    }
  }

  lemma SerialKept(d: Dag, l: Ledger, u: Hash, data: UtxoData)
    requires WellFormed(d) && CanApply(d, l, u) && u !in l.good && SerialOk(d, l) && IncludesLastSelf(d, l, u)
    ensures SerialOk(d, Apply(d, l, u, data))
  {
    hide Apply; hide CanApply; hide IncludesLastSelf; hide SerialOk; hide WellFormed;
    AppliedKnown(d, l, u);
    AppliedIndex(d, l, u, data);
    IncludesOwnMeans(d, l, u);
    SerialGrows(d, l, Apply(d, l, u, data), u);
  }

  lemma AppliedKnown(d: Dag, l: Ledger, u: Hash)
    requires CanApply(d, l, u)
    ensures u in d.units && d.units[u].authors != []
  {
  }

  lemma SerialGrows(d: Dag, l: Ledger, l': Ledger, u: Hash)
    requires WellFormed(d) && u in d.units && d.units[u].authors != [] && SerialOk(d, l) && IncludesOwn(d, l.good, u)
    requires l'.good == l.good + [u]
    requires l'.lastSelf == if Payer(d, u).Some? then l.lastSelf[d.units[u].authors[0] := u] else l.lastSelf
    ensures SerialOk(d, l')
  {
    SelfIncluded(d, u);
    hide Le; hide WellFormed;
    forall g, a | g in l'.good && By(d, g, a) ensures a in l'.lastSelf && Le(d, g, l'.lastSelf[a]) {
      if g != u {
        assert g in l.good && By(d, g, a);
        if By(d, u, a) { assert Lt(d, g, u); }
      }
    }
    forall i, j, a | 0 <= i < j < |l'.good| && By(d, l'.good[i], a) && By(d, l'.good[j], a)
      ensures Lt(d, l'.good[i], l'.good[j])
    {
      assert l'.good[i] == l.good[i];
      if j < |l.good| { assert l'.good[j] == l.good[j]; }
    }
    forall a | a in l'.lastSelf ensures l'.lastSelf[a] in l'.good && By(d, l'.lastSelf[a], a) {
      if a in l.lastSelf { assert By(d, l.lastSelf[a], a); }
    }
  }

  lemma SelfIncluded(d: Dag, u: Hash)
    requires WellFormed(d) && u in d.units
    ensures Le(d, u, u)
  {
  }

  // ---------------------------------------------------------------- over every replay

  /** What every replay makes of the ledger, in terms of its good units. */
  ghost predicate Explained(d: Dag, l: Ledger)
    requires WellFormed(d)
  {
    LiveMeans(d, l) && SourcesGood(d, l) && SerialOk(d, l)
  }

  lemma {:induction false} ReplayExplained(d: Dag, marked: set<Hash>, at: map<Hash, UtxoData>, order: seq<Hash>)
    requires OrderOk(d, at, order)
    ensures WellFormed(d) && Explained(d, Replay(d, marked, at, order))
    decreases |order|
  {
    hide LedgerOk; hide Accepts; hide OrderOk; hide Explained; hide WellFormed;
    OrderFacts(d, at, order);
    if order == [] {
      EmptyExplained(d);
    } else {
      var n := |order| - 1;
      ReplayStep(d, marked, at, order);
      ReplayExplained(d, marked, at, order[..n]);
      hide Replay;
      ProcessExplained(d, marked, Replay(d, marked, at, order[..n]), order[n], at[order[n]]);
    }
  }

  lemma EmptyExplained(d: Dag)
    requires WellFormed(d)
    ensures Explained(d, EMPTY)
  {
  }

  lemma ProcessExplained(d: Dag, marked: set<Hash>, l: Ledger, u: Hash, data: UtxoData)
    requires WellFormed(d) && LedgerOk(d, l) && InTurn(d, l, u) && Explained(d, l)
    ensures Explained(d, Process(d, marked, l, u, data))
  {
    hide LedgerOk; hide PaymentOk; hide IncludesLastSelf; hide Apply; hide LiveMeans; hide SourcesGood; hide SerialOk;
    hide WellFormed; hide CanApply;
    if Accepts(d, marked, l, d.units.Keys, u) {
      AcceptedCanApply(d, marked, l, u, data);
      LiveMeansKept(d, l, d.units.Keys, u, data);
      SerialKept(d, l, u, data);
    }
  }

  /** Over every replay, any two good units of one author are in inclusion order. */
  lemma GoodUnitsAreSerial(d: Dag, marked: set<Hash>, at: map<Hash, UtxoData>, order: seq<Hash>, i: nat, j: nat,
      a: Address)
    requires OrderOk(d, at, order) && i < j < |Replay(d, marked, at, order).good|
    requires var good := Replay(d, marked, at, order).good;
      good[i] in d.units && good[j] in d.units && d.units[good[i]].authors == [a] && d.units[good[j]].authors == [a]
    ensures WellFormed(d) && Lt(d, Replay(d, marked, at, order).good[i], Replay(d, marked, at, order).good[j])
  {
    hide OrderOk; hide LedgerOk; hide Lt; hide WellFormed;
    ReplayExplained(d, marked, at, order);
    var good := Replay(d, marked, at, order).good;
    hide Replay;
    assert By(d, good[i], a) && By(d, good[j], a);
  }

  /** A unit is good exactly when its verdict was. */
  lemma {:induction false} GoodIsVerdict(d: Dag, marked: set<Hash>, at: map<Hash, UtxoData>, order: seq<Hash>, j: nat,
      n: nat)
    requires OrderOk(d, at, order) && j < n <= |order|
    ensures OrderOk(d, at, order[..n])
    ensures order[j] in Replay(d, marked, at, order[..n]).good <==> Verdict(d, marked, at, order, j)
  {
    hide LedgerOk; hide Accepts; hide OrderOk; hide Replay; hide Verdict; hide Process;
    PrefixOrderOk(d, at, order, n);
    ReplayOneMore(d, marked, at, order, n - 1);
    if j == n - 1 {
      assert order[j] !in order[..j];
    } else {
      GoodIsVerdict(d, marked, at, order, j, n - 1);
      OnceOnly(d, at, order, j, n - 1);
    }
  }

  lemma OnceOnly(d: Dag, at: map<Hash, UtxoData>, order: seq<Hash>, i: nat, j: nat)
    requires OrderOk(d, at, order) && i < |order| && j < |order| && i != j
    ensures order[i] != order[j]
  {
  }

  // ---------------------------------------------------------------- the verdict in plain terms

  /** Positive amounts to valid addresses, sorted by address and then by amount. */
  ghost predicate GoodOutputs(d: Dag, outputs: seq<Output>)
  {
    && (forall i :: 0 <= i < |outputs| ==> outputs[i].amount > 0 && outputs[i].address in d.addresses)
    && (forall i, j :: 0 <= i < j < |outputs| ==>
         || outputs[i].address < outputs[j].address
         || (outputs[i].address == outputs[j].address && outputs[i].amount <= outputs[j].amount))
  }

  /** A transfer of an output of a good unit that belongs to an author and that no good unit has consumed. */
  ghost predicate GoodTransfer(d: Dag, good: seq<Hash>, u: Hash, i: Input)
    requires u in d.units
  {
    && (i.kind == None || i.kind == Some("transfer"))
    && i.address == None && i.amount == None && i.serialNumber == None && i.fromMci == None && i.toMci == None
    && i.unit.Some? && i.messageIndex.Some? && i.outputIndex.Some?
    && i.unit.value in good && i.unit.value in d.units
    && var source := d.units[i.unit.value];
       && i.messageIndex.value == source.payIndex && i.outputIndex.value < |source.outputs|
       && var output := source.outputs[i.outputIndex.value];
          && output.address in d.units[u].authors
          && !Consumed(d, good, UtxoKey(i.unit.value, i.outputIndex.value, i.messageIndex.value, output.amount))
  }

  /** The issue of the whole cap by genesis. */
  ghost predicate GoodIssue(d: Dag, u: Hash, index: nat, i: Input)
    requires u in d.units
  {
    && i.kind == Some("issue") && index == 0 && d.units[u].parents == []
    && i.amount == Some(TOTAL_WHITEBYTES) && i.serialNumber == Some(1)
    && (|d.units[u].authors| == 1 ==> i.address == None)
    && (|d.units[u].authors| != 1 ==> i.address.Some? && i.address.value in d.units[u].authors)
    && i.unit == None && i.messageIndex == None && i.outputIndex == None && i.fromMci == None && i.toMci == None
  }

  /** What an input brings in. */
  function Brings(d: Dag, i: Input): nat
  {
    if i.kind == Some("issue") then (if i.amount.Some? then i.amount.value else 0)
    else if i.unit.Some? && i.messageIndex.Some? && i.outputIndex.Some? && i.unit.value in d.units &&
            i.messageIndex.value == d.units[i.unit.value].payIndex &&
            i.outputIndex.value < |d.units[i.unit.value].outputs|
    then d.units[i.unit.value].outputs[i.outputIndex.value].amount
    else 0
  }

  function BringsAll(d: Dag, inputs: seq<Input>): nat
  {
    if inputs == [] then 0 else BringsAll(d, inputs[..|inputs| - 1]) + Brings(d, inputs[|inputs| - 1])
  }

  function PaysAll(outputs: seq<Output>): nat
  {
    if outputs == [] then 0 else PaysAll(outputs[..|outputs| - 1]) + outputs[|outputs| - 1].amount
  }

  /** What a unit must satisfy to be good after the units `good`. */
  ghost predicate MayFollow(d: Dag, good: seq<Hash>, u: Hash)
    requires WellFormed(d) && u in d.units
  {
    var inputs, outputs := d.units[u].inputs, d.units[u].outputs;
    && IncludesOwn(d, good, u)
    && GoodOutputs(d, outputs)
    && (forall i :: 0 <= i < |inputs| ==> GoodTransfer(d, good, u, inputs[i]) || GoodIssue(d, u, i, inputs[i]))
    && (forall i, j :: 0 <= i < j < |inputs| && inputs[i].kind != Some("issue") && inputs[j].kind != Some("issue") ==>
         inputs[i].unit != inputs[j].unit || inputs[i].messageIndex != inputs[j].messageIndex ||
         inputs[i].outputIndex != inputs[j].outputIndex)
    && BringsAll(d, inputs) == PaysAll(outputs) + d.units[u].headersCommission + d.units[u].payloadCommission
  }

  lemma {:induction false} TotalsMean(d: Dag, inputs: seq<Input>, outputs: seq<Output>)
    ensures BringsAll(d, inputs) == SumInputs(d, inputs) && PaysAll(outputs) == SumOutputs(outputs)
    decreases |inputs| + |outputs|
  {
    if inputs != [] {
      TotalsMean(d, inputs[..|inputs| - 1], outputs);
    } else if outputs != [] {
      TotalsMean(d, inputs, outputs[..|outputs| - 1]);
    }
  }

  lemma {:induction false} SortedFar(outputs: seq<Output>, i: nat, j: nat)
    requires i < j < |outputs|
    requires forall i, j :: 0 <= i && j == i + 1 && j < |outputs| ==>
      || outputs[i].address < outputs[j].address
      || (outputs[i].address == outputs[j].address && outputs[i].amount <= outputs[j].amount)
    ensures outputs[i].address < outputs[j].address ||
      (outputs[i].address == outputs[j].address && outputs[i].amount <= outputs[j].amount)
  {
    var k := j - 1;
    var before, here := outputs[k], outputs[j];
    if i < k { SortedFar(outputs, i, k); }
  }

  lemma OutputsMean(d: Dag, outputs: seq<Output>)
    ensures OutputsOk(d, outputs) <==> GoodOutputs(d, outputs)
  {
    if OutputsOk(d, outputs) {
      forall i, j | 0 <= i < j < |outputs|
        ensures outputs[i].address < outputs[j].address ||
          (outputs[i].address == outputs[j].address && outputs[i].amount <= outputs[j].amount)
      {
        SortedFar(outputs, i, j);
      }
    }
  }

  lemma InputMeans(d: Dag, l: Ledger, u: Hash, index: nat, i: Input)
    requires u in d.units && LiveMeans(d, l) && forall g :: g in l.good ==> g in d.units
    ensures InputOk(d, l.live, GoodSet(l), d.units.Keys, u, index, i) <==>
      GoodTransfer(d, l.good, u, i) || GoodIssue(d, u, index, i)
  {
    if i.unit.Some? && i.messageIndex.Some? && i.outputIndex.Some? && Source(d, i).Some? {
      var k := Source(d, i).value.0;
      assert Exists(d, k);
      assert k in l.live <==> k.unit in l.good && !Consumed(d, l.good, k);
      hide Consumed;
    }
  }

  /** The inputs of a unit, each on its own. */
  lemma InputsMean(d: Dag, l: Ledger, u: Hash)
    requires WellFormed(d) && u in d.units && LiveMeans(d, l) && forall g :: g in l.good ==> g in d.units
    requires IncludesOwn(d, l.good, u)
    ensures var inputs := d.units[u].inputs;
      (forall i :: 0 <= i < |inputs| ==> InputOk(d, l.live, GoodSet(l), d.units.Keys, u, i, inputs[i])) <==>
      (forall i :: 0 <= i < |inputs| ==> GoodTransfer(d, l.good, u, inputs[i]) || GoodIssue(d, u, i, inputs[i]))
    ensures var inputs := d.units[u].inputs;
      forall i :: 0 <= i < |inputs| && InputOk(d, l.live, GoodSet(l), d.units.Keys, u, i, inputs[i]) ==>
        (IsTransfer(inputs[i]) <==> inputs[i].kind != Some("issue"))
  {
    var inputs := d.units[u].inputs;
    forall i | 0 <= i < |inputs|
      ensures InputOk(d, l.live, GoodSet(l), d.units.Keys, u, i, inputs[i]) <==>
        GoodTransfer(d, l.good, u, inputs[i]) || GoodIssue(d, u, i, inputs[i])
      ensures GoodTransfer(d, l.good, u, inputs[i]) ==> IsTransfer(inputs[i])
      ensures GoodIssue(d, u, i, inputs[i]) ==> inputs[i].kind == Some("issue")
    {
      InputMeans(d, l, u, i, inputs[i]);
    }
    hide InputOk; hide GoodTransfer; hide GoodIssue; hide IncludesOwn; hide LiveMeans; hide WellFormed;
  }

  lemma PaymentMeans(d: Dag, l: Ledger, u: Hash)
    requires WellFormed(d) && u in d.units && LiveMeans(d, l) && forall g :: g in l.good ==> g in d.units
    requires IncludesOwn(d, l.good, u)
    ensures PaymentOk(d, l.live, GoodSet(l), d.units.Keys, u) <==> MayFollow(d, l.good, u)
  {
    hide GoodOutputs; hide OutputsOk; hide BringsAll; hide PaysAll; hide SumInputs; hide SumOutputs; hide InputOk;
    hide GoodTransfer; hide GoodIssue; hide IncludesOwn; hide LiveMeans; hide WellFormed; hide IsTransfer;
    OutputsMean(d, d.units[u].outputs);
    TotalsMean(d, d.units[u].inputs, d.units[u].outputs);
    InputsMean(d, l, u);
  }

  /**
   * The verdict of a replay in plain terms: a unit is good if and only if it is not final bad
   * from the start and may follow the good units before it.
   */
  lemma VerdictMeans(d: Dag, marked: set<Hash>, at: map<Hash, UtxoData>, order: seq<Hash>, j: nat)
    requires OrderOk(d, at, order) && j < |order|
    ensures WellFormed(d) && OrderOk(d, at, order[..j]) && order[j] in d.units
    ensures Verdict(d, marked, at, order, j) <==>
      && order[j] !in marked && !d.units[order[j]].contentHash
      && MayFollow(d, Replay(d, marked, at, order[..j]).good, order[j])
  {
    hide OrderOk; hide LedgerOk; hide MayFollow; hide PaymentOk; hide WellFormed; hide Verdict; hide Process;
    ReplayOneMore(d, marked, at, order, j);
    ReplayExplained(d, marked, at, order[..j]);
    var l, u := Replay(d, marked, at, order[..j]), order[j];
    hide Replay;
    LedgerFacts(d, l, 0);
    GoodKnown(d, l);
    hide LiveMeans; hide SourcesGood; hide SerialOk; hide RefsOk; hide LiveOk; hide AuthorsOk;
    IncludesOwnMeans(d, l, u);
    hide IncludesLastSelf;
    if IncludesOwn(d, l.good, u) {
      PaymentMeans(d, l, u);
    } else {
      NotSerial(d, l.good, u);
    }
  }

  lemma GoodKnown(d: Dag, l: Ledger)
    requires RefsOk(d, l)
    ensures forall g :: g in l.good ==> g in d.units
  {
  }

  lemma NotSerial(d: Dag, good: seq<Hash>, u: Hash)
    requires WellFormed(d) && u in d.units && !IncludesOwn(d, good, u)
    ensures !MayFollow(d, good, u)
  {
  }

  /** A unit that does not include an earlier good unit of one of its authors is not good. */
  lemma NonserialIsRejected(d: Dag, marked: set<Hash>, at: map<Hash, UtxoData>, order: seq<Hash>, i: nat, j: nat,
      a: Address)
    requires OrderOk(d, at, order) && i < j < |order| && WellFormed(d) && OrderOk(d, at, order[..j])
    requires order[i] in Replay(d, marked, at, order[..j]).good && order[i] in d.units && order[j] in d.units
    requires d.units[order[i]].authors == [a] && a in d.units[order[j]].authors && !Lt(d, order[i], order[j])
    ensures order[j] !in Replay(d, marked, at, order).good
  {
    hide OrderOk; hide Replay; hide Verdict; hide Lt; hide WellFormed;
    VerdictMeans(d, marked, at, order, j);
    assert By(d, order[i], a);
    GoodIsVerdict(d, marked, at, order, j, |order|);
    assert order[..|order|] == order;
  }
}
