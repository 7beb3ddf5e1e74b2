/** The two-level map of unspent outputs and its validate-then-apply operations (src/business/utxo.rs). */
module Utxo {
  import opened Dag
  import opened Ledger

  type Nested = map<Address, map<UtxoKey, UtxoData>>

  /** The nested map holds exactly the entries of `live`, under their owners, and no empty inner map. */
  ghost predicate NestedOk(output: Nested, live: Live)
  {
    && (forall a, k :: a in output && k in output[a] ==> k in live && live[k] == Entry(a, output[a][k]))
    && (forall k :: k in live ==> live[k].owner in output && k in output[live[k].owner])
    && (forall a :: a in output ==> output[a] != map[])
  }

  lemma RemoveNested(output: Nested, live: Live, a: Address, k: UtxoKey, output': Nested)
    requires NestedOk(output, live) && a in output && k in output[a]
    requires output' == if output[a] - {k} == map[] then output - {a} else output[a := output[a] - {k}]
    ensures NestedOk(output', live - {k})
  {
    assert live[k].owner == a;
    forall a', k' | a' in output' && k' in output'[a']
      ensures k' in live - {k} && live[k'] == Entry(a', output'[a'][k'])
    {
      assert a' in output && k' in output[a'];
    }
    forall k' | k' in live - {k} ensures live[k'].owner in output' && k' in output'[live[k'].owner] {
      assert k' in output[live[k'].owner];
      if live[k'].owner == a { assert k' in output[a] - {k}; }
    }
  }

  lemma InsertNested(output: Nested, live: Live, a: Address, k: UtxoKey, data: UtxoData, output': Nested)
    requires NestedOk(output, live) && (k in live ==> live[k].owner == a)
    requires output' == output[a := (if a in output then output[a] else map[])[k := data]]
    ensures NestedOk(output', live[k := Entry(a, data)])
  {
    assert k in output'[a];
  }

  class UtxoCache {
    var output: Nested
    ghost var live: Live

    ghost predicate Valid()
      reads this
    {
      NestedOk(output, live)
    }

    constructor ()
      ensures Valid() && live == map[]
    {
      output, live := map[], map[];
    }

    method RemoveOutput(a: Address, k: UtxoKey) returns (ok: bool)
      requires Valid()
      modifies this
      ensures Valid()
      ensures ok <==> k in old(live) && old(live)[k].owner == a
      ensures live == if ok then old(live) - {k} else old(live)
    {
      if a !in output || k !in output[a] {
        return false;
      }
      ok := true;
      var rest := output[a] - {k};
      ghost var before := output;
      if rest == map[] {
        output := output - {a};
      } else {
        output := output[a := rest];
      }
      RemoveNested(before, live, a, k, output);
      live := live - {k};
    }

    method InsertOutput(a: Address, k: UtxoKey, data: UtxoData)
      requires Valid() && (k in live ==> live[k].owner == a)
      modifies this
      ensures Valid() && live == old(live)[k := Entry(a, data)]
    {
      ghost var before := output;
      if a in output {
        output := output[a := output[a][k := data]];
      } else {
        output := output[a := map[k := data]];
      }
      InsertNested(before, live, a, k, data, output);
      live := live[k := Entry(a, data)];
    }

    method GetOutputByInput(d: Dag, i: Input) returns (r: Option<(UtxoKey, Address)>)
      requires Valid()
      ensures r == Unspent(d, live, i)
    {
      r := Source(d, i);
      if r.Some? {
        var (k, a) := r.value;
        if a !in output || k !in output[a] {
          r := None;
        }
      }
    }

    /** Fails at the first input whose output is not there. */
    method DecreaseOutput(d: Dag, inputs: seq<Input>) returns (ok: bool)
      requires Valid()
      modifies this
      ensures Valid()
      ensures if ok then Spend(d, old(live), inputs) == Some(live) else Spend(d, old(live), inputs) == None
    {
      for n := 0 to |inputs|
        invariant Valid() && Spend(d, old(live), inputs[..n]) == Some(live)
      {
        var i := inputs[n];
        assert inputs[..n + 1][..n] == inputs[..n];
        if IsIssue(i) {
          continue;
        }
        var source := GetOutputByInput(d, i);
        if source.None? {
          SpendFails(d, old(live), inputs, n + 1);
          return false;
        }
        var removed := RemoveOutput(source.value.1, source.value.0);
        assert removed;
      }
      assert inputs[..|inputs|] == inputs;
      ok := true;
    }

    method IncreaseOutput(d: Dag, u: Hash, data: UtxoData)
      requires Valid() && u in d.units && forall k :: k in live ==> k.unit != u
      modifies this
      ensures Valid() && live == Create(d, old(live), u, |d.units[u].outputs|, data)
    {
      hide NestedOk;
      var outputs := d.units[u].outputs;
      for n := 0 to |outputs|
        invariant Valid() && live == Create(d, old(live), u, n, data)
      {
        NextKeyIsNew(d, old(live), u, n, data);
        InsertOutput(outputs[n].address, Key(d, u, n), data);
      }
    }

    /** What the payment of `u` does: spend its inputs, then add its outputs. */
    method ApplyPayment(d: Dag, u: Hash, data: UtxoData) returns (ok: bool)
      requires Valid() && u in d.units && forall k :: k in live ==> k.unit != u
      modifies this
      ensures Valid()
      ensures match Spend(d, old(live), d.units[u].inputs)
        case Some(spent) => ok && live == Create(d, spent, u, |d.units[u].outputs|, data)
        case None => !ok
    {
      ok := DecreaseOutput(d, d.units[u].inputs);
      if ok {
        SpendShrinks(d, old(live), d.units[u].inputs);
        IncreaseOutput(d, u, data);
      }
    }

    /** The total of the outputs, if they are positive, valid and sorted. */
    method VerifyOutput(d: Dag, outputs: seq<Output>) returns (total: Option<nat>)
      ensures if OutputsOk(d, outputs) then total == Some(SumOutputs(outputs)) else total == None
    {
      var sum: nat, prevAddress: Address, prevAmount: nat := 0, 0, 0;
      for n := 0 to |outputs|
        invariant OutputsOk(d, outputs[..n]) && sum == SumOutputs(outputs[..n])
        invariant
          if n == 0 then prevAddress == 0 && prevAmount == 0 else Output(prevAddress, prevAmount) == outputs[n - 1]
      {
        var o := outputs[n];
        OutputsOkStep(d, outputs, n);
        if o.amount == 0 || o.address !in d.addresses {
          return None;
        }
        if prevAddress > o.address || (prevAddress == o.address && prevAmount > o.amount) {
          return None;
        }
        prevAddress, prevAmount := o.address, o.amount;
        sum := sum + o.amount;
      }
      assert outputs[..|outputs|] == outputs;
      total := Some(sum);
    }

    method VerifyTransfer(d: Dag, good: set<Hash>, stable: set<Hash>, u: Hash, i: Input) returns (amount: Option<nat>)
      requires Valid() && u in d.units
      ensures if TransferOk(d, live, good, stable, u, i) && !IsIssue(i) then amount == Some(InputAmount(d, i))
              else !IsIssue(i) ==> amount == None
    {
      if i.address.Some? || i.amount.Some? || i.fromMci.Some? || i.serialNumber.Some? || i.toMci.Some? {
        return None;
      }
      if i.unit.None? || i.messageIndex.None? || i.outputIndex.None? {
        return None;
      }
      var source := GetOutputByInput(d, i);
      if source.None? {
        return None;
      }
      var (k, a) := source.value;
      if i.unit.value !in good || i.unit.value !in stable || a !in d.units[u].authors {
        return None;
      }
      amount := Some(k.amount);
    }

    method VerifyIssue(d: Dag, u: Hash, index: nat, i: Input) returns (amount: Option<nat>)
      requires u in d.units && IsIssue(i)
      ensures if IssueOk(d, u, index, i) then amount == Some(InputAmount(d, i)) else amount == None
    {
      if index != 0 || !IsGenesis(d, u) {
        return None;
      }
      if i.unit.Some? || i.messageIndex.Some? || i.outputIndex.Some? || i.fromMci.Some? || i.toMci.Some? {
        return None;
      }
      if i.amount.None? || i.amount.value == 0 || i.serialNumber != Some(1) {
        return None;
      }
      if |d.units[u].authors| == 1 {
        if i.address.Some? { return None; }
      } else {
        if i.address.None? || i.address.value !in d.units[u].authors { return None; }
      }
      if i.amount.value != TOTAL_WHITEBYTES {
        return None;
      }
      amount := i.amount;
    }

    /** The total of the inputs, if each is fine and none is used twice. */
    method VerifyInput(d: Dag, good: set<Hash>, stable: set<Hash>, u: Hash, inputs: seq<Input>)
      returns (total: Option<nat>)
      requires Valid() && u in d.units
      ensures if InputsOk(d, live, good, stable, u, inputs) then total == Some(SumInputs(d, inputs)) else total == None
    {
      var sum: nat := 0;
      var used: set<(Option<Hash>, Option<nat>, Option<nat>)> := {};
      for n := 0 to |inputs|
        invariant InputsOk(d, live, good, stable, u, inputs[..n]) && sum == SumInputs(d, inputs[..n])
        invariant forall x :: x in used <==> UsedIn(inputs, n, x)
      {
        var i := inputs[n];
        InputsOkStep(d, live, good, stable, u, inputs, n);
        assert inputs[..n + 1][..n] == inputs[..n];
        var amount: Option<nat>;
        if IsTransfer(i) {
          var key := (i.unit, i.messageIndex, i.outputIndex);
          if key in used {
            return None;
          }
          used := used + {key};
          amount := VerifyTransfer(d, good, stable, u, i);
        } else if IsIssue(i) {
          amount := VerifyIssue(d, u, n, i);
        } else {
          return None;
        }
        if amount.None? {
          return None;
        }
        sum := sum + amount.value;
      }
      assert inputs[..|inputs|] == inputs;
      total := Some(sum);
    }

    /** Whether the payment of `u` may be applied now. */
    method ValidatePayment(d: Dag, good: set<Hash>, stable: set<Hash>, u: Hash) returns (ok: bool)
      requires Valid() && u in d.units
      ensures ok <==> PaymentOk(d, live, good, stable, u)
    {
      var outs := VerifyOutput(d, d.units[u].outputs);
      if outs.None? {
        return false;
      }
      var ins := VerifyInput(d, good, stable, u, d.units[u].inputs);
      if ins.None? {
        return false;
      }
      ok := ins.value == outs.value + d.units[u].headersCommission + d.units[u].payloadCommission;
    }
  }

  ghost predicate UsedIn(inputs: seq<Input>, n: nat, x: (Option<Hash>, Option<nat>, Option<nat>))
    requires n <= |inputs|
  {
    exists j :: 0 <= j < n && IsTransfer(inputs[j]) &&
      x == (inputs[j].unit, inputs[j].messageIndex, inputs[j].outputIndex)
  }

  lemma NextKeyIsNew(d: Dag, live: Live, u: Hash, n: nat, data: UtxoData)
    requires u in d.units && n < |d.units[u].outputs| && forall k :: k in live ==> k.unit != u
    ensures Key(d, u, n) !in Create(d, live, u, n, data)
  {
    CreateHolds(d, live, u, n, data);
  }

  lemma OutputsOkStep(d: Dag, outputs: seq<Output>, n: nat)
    requires n < |outputs| && OutputsOk(d, outputs[..n])
    ensures OutputsOk(d, outputs[..n + 1]) <==>
      && outputs[n].amount > 0 && outputs[n].address in d.addresses
      && (n > 0 ==> var p := outputs[n - 1];
           p.address < outputs[n].address || (p.address == outputs[n].address && p.amount <= outputs[n].amount))
    ensures OutputsOk(d, outputs) ==> OutputsOk(d, outputs[..n + 1])
    ensures SumOutputs(outputs[..n + 1]) == SumOutputs(outputs[..n]) + outputs[n].amount
  {
    var front := outputs[..n + 1];
    assert front[..n] == outputs[..n];
    assert forall i :: 0 <= i < n ==> front[i] == outputs[..n][i] == outputs[i];
    if OutputsOk(d, front) && n > 0 { assert front[n - 1] == outputs[n - 1] && front[n] == outputs[n]; }
  }

  /** A prefix of good inputs stays good with one more exactly when that one is good and new. */
  lemma InputsOkStep(d: Dag, live: Live, good: set<Hash>, stable: set<Hash>, u: Hash, inputs: seq<Input>, n: nat)
    requires u in d.units && n < |inputs| && InputsOk(d, live, good, stable, u, inputs[..n])
    ensures InputsOk(d, live, good, stable, u, inputs[..n + 1]) <==>
      && InputOk(d, live, good, stable, u, n, inputs[n])
      && !(IsTransfer(inputs[n]) && UsedIn(inputs, n, (inputs[n].unit, inputs[n].messageIndex, inputs[n].outputIndex)))
    ensures InputsOk(d, live, good, stable, u, inputs) ==> InputsOk(d, live, good, stable, u, inputs[..n + 1])
  {
    var front := inputs[..n + 1];
    assert forall i :: 0 <= i < n ==> inputs[..n][i] == inputs[i];
    assert forall i :: 0 <= i < n + 1 ==> front[i] == inputs[i];
    if InputsOk(d, live, good, stable, u, front) {
      assert InputOk(d, live, good, stable, u, n, front[n]);
      if IsTransfer(inputs[n]) && UsedIn(inputs, n, (inputs[n].unit, inputs[n].messageIndex, inputs[n].outputIndex)) {
        var j :| 0 <= j < n && IsTransfer(inputs[j]) && SameSource(inputs[j], inputs[n]);
      }
    }
    if InputOk(d, live, good, stable, u, n, inputs[n])
      && !(IsTransfer(inputs[n]) && UsedIn(inputs, n, (inputs[n].unit, inputs[n].messageIndex, inputs[n].outputIndex)))
    {
      forall i | 0 <= i < n + 1 ensures InputOk(d, live, good, stable, u, i, front[i]) {
        if i < n { assert InputOk(d, live, good, stable, u, i, inputs[..n][i]); }
      }
      forall i, j | 0 <= i < j < n + 1 && IsTransfer(front[i]) && IsTransfer(front[j])
        ensures !SameSource(front[i], front[j])
      {
        if j < n { assert !SameSource(inputs[..n][i], inputs[..n][j]); }
      }
    }
  }

  lemma {:induction false} SpendFails(d: Dag, live: Live, inputs: seq<Input>, n: nat)
    requires n <= |inputs| && Spend(d, live, inputs[..n]) == None
    ensures Spend(d, live, inputs) == None
    decreases |inputs| - n
  {
    if n < |inputs| {
      assert inputs[..n + 1][..n] == inputs[..n];
      SpendFails(d, live, inputs, n + 1);
    } else {
      assert inputs[..n] == inputs;
    }
  }

  lemma {:induction false} SpendShrinks(d: Dag, live: Live, inputs: seq<Input>)
    requires Spend(d, live, inputs).Some?
    ensures forall k :: k in Spend(d, live, inputs).value ==> k in live
  {
    if inputs != [] { SpendShrinks(d, live, inputs[..|inputs| - 1]); }
  }
}
