/** Runs of the stable ledger: conservation, the balance index, and verdicts in global order. */
module LedgerRun {
  import opened Collections
  import opened Dag
  import opened Ledger

  // ---------------------------------------------------------------- one accepted unit

  /** Issues and transfers make up the inputs; an issue can only come first and is the cap. */
  lemma {:induction false} InputsSplit(d: Dag, live: Live, good: set<Hash>, stable: set<Hash>, u: Hash,
      inputs: seq<Input>)
    requires u in d.units && InputsOk(d, live, good, stable, u, inputs)
    ensures SumInputs(d, inputs) ==
      Drawn(d, inputs, None) + if inputs != [] && IsIssue(inputs[0]) then TOTAL_WHITEBYTES else 0
    ensures (exists i :: 0 <= i < |inputs| && IsIssue(inputs[i])) ==> IsGenesis(d, u) && IsIssue(inputs[0])
  {
    if inputs != [] {
      var n := |inputs| - 1;
      assert InputOk(d, live, good, stable, u, n, inputs[n]);
      assert InputsOk(d, live, good, stable, u, inputs[..n]);
      InputsSplit(d, live, good, stable, u, inputs[..n]);
      if exists i :: 0 <= i < |inputs| && IsIssue(inputs[i]) {
        var i :| 0 <= i < |inputs| && IsIssue(inputs[i]);
        assert InputOk(d, live, good, stable, u, i, inputs[i]);
      }
    }
  }

  /** A single author pays for everything a payment draws. */
  lemma {:induction false} DrawnFromAuthor(d: Dag, live: Live, good: set<Hash>, stable: set<Hash>, u: Hash,
      inputs: seq<Input>, a: Address, b: Address)
    requires u in d.units && d.units[u].authors == [a] && InputsOk(d, live, good, stable, u, inputs)
    ensures Drawn(d, inputs, Some(b)) == if a == b then Drawn(d, inputs, None) else 0
  {
    if inputs != [] {
      var n := |inputs| - 1;
      assert InputOk(d, live, good, stable, u, n, inputs[n]);
      assert InputsOk(d, live, good, stable, u, inputs[..n]);
      DrawnFromAuthor(d, live, good, stable, u, inputs[..n], a, b);
    }
  }

  ghost predicate Pays(outputs: seq<Output>, a: Address)
  {
    exists i :: 0 <= i < |outputs| && outputs[i].address == a
  }

  lemma {:induction false} PaysNothing(outputs: seq<Output>, a: Address)
    requires !Pays(outputs, a)
    ensures PaidTo(outputs, a) == 0
  {
    if outputs != [] {
      var n := |outputs| - 1;
      assert forall i :: 0 <= i < n ==> outputs[..n][i] == outputs[i];
      assert outputs[n].address != a;
      PaysNothing(outputs[..n], a);
    }
  }

  /** Only addresses paid by `u`, other than its payer, get `u` appended, and once. */
  lemma {:induction false} RelateAppends(d: Dag, related: map<Address, seq<Hash>>, u: Hash, n: nat, b: Address)
    requires u in d.units && d.units[u].authors != [] && n <= |d.units[u].outputs| && u !in Listed(related, b)
    ensures Listed(Relate(d, related, u, n), b) ==
      Listed(related, b) + if Payer(d, u) != Some(b) && Pays(d.units[u].outputs[..n], b) then [u] else []
  {
    var outputs := d.units[u].outputs;
    if n > 0 {
      hide Pays;
      RelateAppends(d, related, u, n - 1, b);
      PaysMore(outputs, n, b);
    } else {
      assert !Pays(outputs[..n], b);
    }
  }

  lemma PaysMore(outputs: seq<Output>, n: nat, b: Address)
    requires 0 < n <= |outputs|
    ensures Pays(outputs[..n], b) <==> Pays(outputs[..n - 1], b) || outputs[n - 1].address == b
  {
    if Pays(outputs[..n], b) {
      var i :| 0 <= i < n && outputs[..n][i].address == b;
      if i < n - 1 { assert outputs[..n - 1][i].address == b; }
    }
    if Pays(outputs[..n - 1], b) {
      var i :| 0 <= i < n - 1 && outputs[..n - 1][i].address == b;
      assert outputs[..n][i].address == b;
    }
    if outputs[n - 1].address == b { assert outputs[..n][n - 1].address == b; }
  }

  lemma {:induction false} PaidByConcat(d: Dag, s: seq<Hash>, u: Hash, a: Address)
    requires (forall v :: v in s ==> v in d.units) && u in d.units
    ensures forall v :: v in s + [u] ==> v in d.units
    ensures PaidBy(d, s + [u], a) == PaidBy(d, s, a) + PaidTo(d.units[u].outputs, a)
  {
    assert (s + [u])[..|s|] == s;
  }

  /** Genesis meets an empty ledger: every other unit includes it. */
  ghost predicate InTurn(d: Dag, l: Ledger, u: Hash)
  {
    u in d.units && u !in l.good && (IsGenesis(d, u) ==> l.good == [])
  }

  /** How the worth of the unspent outputs moves when `u` is applied. */
  lemma WorthMoves(d: Dag, l: Ledger, stable: set<Hash>, u: Hash, data: UtxoData, who: Option<Address>)
    requires LiveOk(d, l) && u in d.units && u !in l.good && PaymentOk(d, l.live, GoodSet(l), stable, u)
    ensures Spend(d, l.live, d.units[u].inputs).Some?
    ensures var spent := Spend(d, l.live, d.units[u].inputs).value;
      Worth(Create(d, spent, u, |d.units[u].outputs|, data), who) + Drawn(d, d.units[u].inputs, who)
        == Worth(l.live, who) + Received(d.units[u].outputs, who)
  {
    var outputs := d.units[u].outputs;
    SpendSucceeds(d, l.live, GoodSet(l), stable, u, d.units[u].inputs, who);
    var spent := Spend(d, l.live, d.units[u].inputs).value;
    CreateAdds(d, spent, u, |outputs|, data, who);
    assert outputs[..|outputs|] == outputs;
  }

  /** Validation makes every later subtraction from the author's balance safe. */
  lemma ChargeCovered(d: Dag, l: Ledger, stable: set<Hash>, u: Hash)
    requires LedgerOk(d, l) && InTurn(d, l, u) && PaymentOk(d, l.live, GoodSet(l), stable, u)
    ensures d.units[u].authors != [] && Charge(d, u) <= StableBalance(d, l, d.units[u].authors[0])
  {
    var a := d.units[u].authors[0];
    if !IsGenesis(d, u) {
      var inputs, outputs := d.units[u].inputs, d.units[u].outputs;
      assert d.units[u].authors == [a];
      InputsSplit(d, l.live, GoodSet(l), stable, u, inputs);
      assert inputs != [] ==> !IsIssue(inputs[0]);
      DrawnFromAuthor(d, l.live, GoodSet(l), stable, u, inputs, a, a);
      SpendSucceeds(d, l.live, GoodSet(l), stable, u, inputs, Some(a));
      OutputsSplit(outputs, a);
    }
  }

  lemma GenesisStartsEmpty(d: Dag, l: Ledger)
    requires RefsOk(d, l) && LiveOk(d, l) && l.good == []
    ensures l.live == map[] && l.lastSelf == map[] && forall a :: Listed(l.related, a) == []
  {
    assert forall k :: k in l.live ==> k.unit in l.good;
    forall a ensures Listed(l.related, a) == [] {
      FirstIsMember(Listed(l.related, a));
      assert forall x :: x in Listed(l.related, a) ==> x in l.good;
    }
  }

  lemma RefsKept(d: Dag, l: Ledger, u: Hash, data: UtxoData)
    requires AuthorsOk(d) && CanApply(d, l, u) && u !in l.good
    ensures RefsOk(d, Apply(d, l, u, data))
  {
    assert RefsOk(d, l) && u in d.units && d.units[u].authors != [];
    hide Apply; hide Relate; hide Create; hide Spend; hide StableBalance; hide Charge; hide Payer; hide AuthorsOk;
    hide RefsOk; hide CanApply;
    var l' := Apply(d, l, u, data);
    AppliedIndex(d, l, u, data);
    forall b, v | b in l'.related && v in l'.related[b] ensures v in l'.good { RelatedKept(d, l, u, b, v); }
    RefsGrow(d, l, l', u, d.units[u].authors[0]);
  }

  lemma RefsGrow(d: Dag, l: Ledger, l': Ledger, u: Hash, a: Address)
    requires RefsOk(d, l) && u in d.units && l'.good == l.good + [u] && l'.balance.Keys == l.balance.Keys + {u}
    requires l'.relatedUnits == l.relatedUnits[u := Listed(l.related, a)]
    requires l'.lastSelf == l.lastSelf || l'.lastSelf == l.lastSelf[a := u]
    requires l'.prevSelf == if a in l.lastSelf then l.prevSelf[u := l.lastSelf[a]] else l.prevSelf
    requires forall b, v :: b in l'.related && v in l'.related[b] ==> v in l'.good
    ensures RefsOk(d, l')
  {
    assert forall v :: v in l'.good <==> v in l.good || v == u;
    assert forall v :: v in Listed(l.related, a) ==> v in l.good;
  }

  lemma RelatedKept(d: Dag, l: Ledger, u: Hash, b: Address, v: Hash)
    requires RefsOk(d, l) && u in d.units && d.units[u].authors != [] && u !in l.good
    requires v in Listed(Relate(d, l.related - {d.units[u].authors[0]}, u, |d.units[u].outputs|), b)
    ensures v in l.good || v == u
  {
    var a, outputs := d.units[u].authors[0], d.units[u].outputs;
    assert Listed(l.related - {a}, b) == if b == a then [] else Listed(l.related, b);
    hide Relate; hide Pays;
    RelateAppends(d, l.related - {a}, u, |outputs|, b);
  }

  lemma LiveKept(d: Dag, l: Ledger, stable: set<Hash>, u: Hash, data: UtxoData)
    requires LiveOk(d, l) && RefsOk(d, l) && AuthorsOk(d) && u in d.units && u !in l.good
    requires PaymentOk(d, l.live, GoodSet(l), stable, u)
    requires Charge(d, u) <= StableBalance(d, l, d.units[u].authors[0]) && Spend(d, l.live, d.units[u].inputs).Some?
    ensures LiveOk(d, Apply(d, l, u, data))
  {
    var spent := Spend(d, l.live, d.units[u].inputs).value;
    SpendSucceeds(d, l.live, GoodSet(l), stable, u, d.units[u].inputs, None);
    CreateHolds(d, spent, u, |d.units[u].outputs|, data);
  }

  lemma RelatedOfOther(d: Dag, l: Ledger, u: Hash, b: Address)
    requires RefsOk(d, l) && u in d.units && d.units[u].authors != [] && u !in l.good && Payer(d, u) != Some(b)
    requires d.units[u].authors[0] == b ==> Listed(l.related, b) == []
    ensures Listed(Relate(d, l.related - {d.units[u].authors[0]}, u, |d.units[u].outputs|), b) ==
      Listed(l.related, b) + if Pays(d.units[u].outputs, b) then [u] else []
  {
    var outputs := d.units[u].outputs;
    assert outputs[..|outputs|] == outputs;
    assert Listed(l.related - {d.units[u].authors[0]}, b) == Listed(l.related, b);
    RelateAppends(d, l.related - {d.units[u].authors[0]}, u, |outputs|, b);
  }

  lemma PaidByMore(d: Dag, s: seq<Hash>, t: seq<Hash>, u: Hash, b: Address)
    requires (forall v :: v in s ==> v in d.units) && u in d.units
    requires t == s + if Pays(d.units[u].outputs, b) then [u] else []
    ensures forall v :: v in t ==> v in d.units
    ensures PaidBy(d, t, b) == PaidBy(d, s, b) + PaidTo(d.units[u].outputs, b)
  {
    if Pays(d.units[u].outputs, b) {
      PaidByConcat(d, s, u, b);
    } else {
      assert t == s;
      PaysNothing(d.units[u].outputs, b);
    }
  }

  /** The index of `b` before and after `u`, when `u` does not belong to `b`. */
  lemma BalanceOfOther(d: Dag, l: Ledger, l': Ledger, u: Hash, data: UtxoData, b: Address)
    requires RefsOk(d, l) && u in d.units && d.units[u].authors != [] && u !in l.good
    requires Charge(d, u) <= StableBalance(d, l, d.units[u].authors[0]) && Spend(d, l.live, d.units[u].inputs).Some?
    requires l' == Apply(d, l, u, data) && RefsOk(d, l') && Payer(d, u) != Some(b)
    requires d.units[u].authors[0] == b ==> Listed(l.related, b) == []
    ensures StableBalance(d, l', b) == StableBalance(d, l, b) + PaidTo(d.units[u].outputs, b)
  {
    RelatedOfOther(d, l, u, b);
    hide Spend; hide Create; hide Relate; hide PaidTo; hide PaidToOthers; hide PaidBy; hide Pays;
    assert Listed(l'.related, b) == Listed(l'.related, b);
    PaidByMore(d, Listed(l.related, b), Listed(l'.related, b), u, b);
    assert b in l.lastSelf ==> l.lastSelf[b] != u;
  }

  lemma BalanceOfPayer(d: Dag, l: Ledger, l': Ledger, u: Hash, data: UtxoData, a: Address)
    requires AuthorsOk(d) && CanApply(d, l, u) && u !in l.good
    requires l' == Apply(d, l, u, data) && RefsOk(d, l') && Payer(d, u) == Some(a)
    ensures StableBalance(d, l', a) == StableBalance(d, l, a) - Charge(d, u)
  {
    var outputs := d.units[u].outputs;
    RelateAppends(d, l.related - {a}, u, |outputs|, a);
    assert Listed(l'.related, a) == Listed(l'.related, a);
  }

  lemma LedgerFacts(d: Dag, l: Ledger, b: Address)
    requires LedgerOk(d, l)
    ensures AuthorsOk(d) && RefsOk(d, l) && LiveOk(d, l) && StableBalance(d, l, b) == Worth(l.live, Some(b))
    ensures Distinct(l.good) && Worth(l.live, None) + Commissions(d, l.good) == Issued(d, l.good)
  {
    assert Balanced(d, l);
  }

  lemma UnitFacts(d: Dag, l: Ledger, stable: set<Hash>, u: Hash)
    requires AuthorsOk(d) && InTurn(d, l, u) && PaymentOk(d, l.live, GoodSet(l), stable, u)
    ensures u in d.units && u !in l.good && d.units[u].authors != []
    ensures InputsOk(d, l.live, GoodSet(l), stable, u, d.units[u].inputs)
    ensures SumInputs(d, d.units[u].inputs) == SumOutputs(d.units[u].outputs) + Commission(d, u)
    ensures SumInputs(d, d.units[u].inputs) == Drawn(d, d.units[u].inputs, None) + Issue(d, u)
    ensures if IsGenesis(d, u) then Payer(d, u) == None && l.good == []
            else && d.units[u].authors == [d.units[u].authors[0]] && Payer(d, u) == Some(d.units[u].authors[0])
                 && Issue(d, u) == 0
                 && Charge(d, u) == PaidToOthers(d.units[u].outputs, d.units[u].authors[0]) + Commission(d, u)
  {
    var inputs := d.units[u].inputs;
    InputsSplit(d, l.live, GoodSet(l), stable, u, inputs);
    assert inputs != [] && IsIssue(inputs[0]) ==> IsGenesis(d, u);
  }

  lemma AppliedLive(d: Dag, l: Ledger, u: Hash, data: UtxoData)
    requires RefsOk(d, l) && u in d.units && d.units[u].authors != []
    requires Charge(d, u) <= StableBalance(d, l, d.units[u].authors[0]) && Spend(d, l.live, d.units[u].inputs).Some?
    ensures CanApply(d, l, u) && Apply(d, l, u, data).good == l.good + [u]
    ensures Apply(d, l, u, data).live ==
      Create(d, Spend(d, l.live, d.units[u].inputs).value, u, |d.units[u].outputs|, data)
  {
  }

  lemma AppliedIndex(d: Dag, l: Ledger, u: Hash, data: UtxoData)
    requires CanApply(d, l, u)
    ensures Spend(d, l.live, d.units[u].inputs).Some?
    ensures var a := d.units[u].authors[0]; var l' := Apply(d, l, u, data);
      && l'.live == Create(d, Spend(d, l.live, d.units[u].inputs).value, u, |d.units[u].outputs|, data)
      && l'.lastSelf == (if Payer(d, u).Some? then l.lastSelf[a := u] else l.lastSelf)
      && l'.related == Relate(d, l.related - {a}, u, |d.units[u].outputs|)
      && l'.balance == l.balance[u := StableBalance(d, l, a) - Charge(d, u)]
      && l'.prevSelf == (if a in l.lastSelf then l.prevSelf[u := l.lastSelf[a]] else l.prevSelf)
      && l'.relatedUnits == l.relatedUnits[u := Listed(l.related, a)]
      && l'.good == l.good + [u]
  {
  }

  lemma ReceivedBy(outputs: seq<Output>, b: Address)
    ensures Received(outputs, Some(b)) == PaidTo(outputs, b) && Received(outputs, None) == SumOutputs(outputs)
  {
  }

  /** The balance index agrees with the unspent outputs after `u` as before. */
  lemma BalancedKept(d: Dag, l: Ledger, l': Ledger, stable: set<Hash>, u: Hash, data: UtxoData, b: Address)
    requires LedgerOk(d, l) && InTurn(d, l, u) && PaymentOk(d, l.live, GoodSet(l), stable, u)
    requires Charge(d, u) <= StableBalance(d, l, d.units[u].authors[0]) && Spend(d, l.live, d.units[u].inputs).Some?
    requires l' == Apply(d, l, u, data) && RefsOk(d, l')
    ensures StableBalance(d, l', b) == Worth(l'.live, Some(b))
  {
    hide *;
    LedgerFacts(d, l, b);
    UnitFacts(d, l, stable, u);
    var inputs, outputs := d.units[u].inputs, d.units[u].outputs;
    var a := d.units[u].authors[0];
    ReceivedBy(outputs, b);
    assert l'.live == Create(d, Spend(d, l.live, inputs).value, u, |outputs|, data) by { AppliedLive(d, l, u, data); }
    WorthMoves(d, l, stable, u, data, Some(b));
    InputsSplit(d, l.live, GoodSet(l), stable, u, inputs);
    if IsGenesis(d, u) {
      GenesisStartsEmpty(d, l);
      NoDrawing(d, l.live, GoodSet(l), stable, u, inputs, Some(b));
      BalanceOfOther(d, l, l', u, data, b);
    } else {
      DrawnFromAuthor(d, l.live, GoodSet(l), stable, u, inputs, a, b);
      if a == b {
        BalanceOfPayer(d, l, l', u, data, a);
        OutputsSplit(outputs, a);
      } else {
        BalanceOfOther(d, l, l', u, data, b);
      }
    }
  }

  lemma {:induction false} NoDrawing(d: Dag, live: Live, good: set<Hash>, stable: set<Hash>, u: Hash,
      inputs: seq<Input>, who: Option<Address>)
    requires u in d.units && live == map[] && InputsOk(d, live, good, stable, u, inputs)
    ensures Drawn(d, inputs, who) == 0
  {
    if inputs != [] {
      var n := |inputs| - 1;
      assert InputOk(d, live, good, stable, u, n, inputs[n]);
      assert InputsOk(d, live, good, stable, u, inputs[..n]);
      NoDrawing(d, live, good, stable, u, inputs[..n], who);
    }
  }

  /**
   * A unit that passes validation applies without error and without underflow, and keeps
   * the ledger consistent: nothing is created or lost, and the index agrees with the map.
   */
  lemma ApplyKeeps(d: Dag, l: Ledger, stable: set<Hash>, u: Hash, data: UtxoData)
    requires LedgerOk(d, l) && InTurn(d, l, u) && PaymentOk(d, l.live, GoodSet(l), stable, u)
    ensures CanApply(d, l, u)
    ensures LedgerOk(d, Apply(d, l, u, data))
  {
    hide *;
    LedgerFacts(d, l, 0);
    UnitFacts(d, l, stable, u);
    ChargeCovered(d, l, stable, u);
    WorthMoves(d, l, stable, u, data, None);
    ReceivedBy(d.units[u].outputs, 0);
    AppliedLive(d, l, u, data);
    var l' := Apply(d, l, u, data);
    RefsKept(d, l, u, data);
    LiveKept(d, l, stable, u, data);
    AppliedSums(d, l, u);
    forall b ensures StableBalance(d, l', b) == Worth(l'.live, Some(b)) {
      BalancedKept(d, l, l', stable, u, data, b);
    }
    LedgerFromFacts(d, l');
  }

  lemma LedgerFromFacts(d: Dag, l: Ledger)
    requires AuthorsOk(d) && RefsOk(d, l) && LiveOk(d, l) && Distinct(l.good)
    requires Worth(l.live, None) + Commissions(d, l.good) == Issued(d, l.good)
    requires forall b :: StableBalance(d, l, b) == Worth(l.live, Some(b))
    ensures LedgerOk(d, l)
  {
  }

  lemma AppliedSums(d: Dag, l: Ledger, u: Hash)
    requires RefsOk(d, l) && Distinct(l.good) && u in d.units && u !in l.good
    ensures Distinct(l.good + [u]) && forall v :: v in l.good + [u] ==> v in d.units
    ensures Commissions(d, l.good + [u]) == Commissions(d, l.good) + Commission(d, u)
    ensures Issued(d, l.good + [u]) == Issued(d, l.good) + Issue(d, u)
  {
    assert (l.good + [u])[..|l.good|] == l.good;
  }

  // ---------------------------------------------------------------- runs

  /** An order units can be applied in: no repetition, and genesis nowhere but first. */
  ghost predicate OrderOk(d: Dag, at: map<Hash, UtxoData>, order: seq<Hash>)
  {
    && WellFormed(d) && AuthorsOk(d) && Distinct(order)
    && (forall u :: u in order ==> u in d.units && u in at)
    && (forall i :: 0 < i < |order| ==> !IsGenesis(d, order[i]))
  }

  /** Validate `u` with all earlier units taken as stable, and apply it if it passes. */
  ghost function Process(d: Dag, marked: set<Hash>, l: Ledger, u: Hash, data: UtxoData): (l': Ledger)
    requires WellFormed(d) && LedgerOk(d, l) && InTurn(d, l, u)
    ensures LedgerOk(d, l')
    ensures if Accepts(d, marked, l, d.units.Keys, u) then l'.good == l.good + [u] else l' == l
  {
    hide LedgerOk; hide PaymentOk; hide Apply;
    if Accepts(d, marked, l, d.units.Keys, u) then
      ApplyKeeps(d, l, d.units.Keys, u, data);
      LedgerFacts(d, l, 0);
      hide AuthorsOk; hide RefsOk; hide Charge; hide Spend; hide StableBalance;
      AppliedLive(d, l, u, data);
      Apply(d, l, u, data)
    else l
  }

  /** Validate and apply units in order; a unit that fails validation changes nothing. */
  ghost function Replay(d: Dag, marked: set<Hash>, at: map<Hash, UtxoData>, order: seq<Hash>): (l: Ledger)
    requires OrderOk(d, at, order)
    ensures LedgerOk(d, l) && forall u :: u in l.good ==> u in order
  {
    hide LedgerOk; hide Accepts; hide Process;
    if order == [] then EmptyOk(d); EMPTY
    else
      var n := |order| - 1;
      PrefixOrderOk(d, at, order, n);
      var l := Replay(d, marked, at, order[..n]);
      ComesInTurn(d, at, order, l);
      Process(d, marked, l, order[n], at[order[n]])
  }

  lemma ComesInTurn(d: Dag, at: map<Hash, UtxoData>, order: seq<Hash>, l: Ledger)
    requires OrderOk(d, at, order) && order != [] && forall u :: u in l.good ==> u in order[..|order| - 1]
    ensures InTurn(d, l, order[|order| - 1])
  {
    var n := |order| - 1;
    assert order[n] in order && order[n] !in order[..n];
    assert forall u :: u in order[..n] ==> u in order;
    if n == 0 { assert order[..n] == []; FirstIsMember(l.good); }
  }

  lemma EmptyOk(d: Dag)
    requires AuthorsOk(d)
    ensures LedgerOk(d, EMPTY)
  {
    forall a ensures StableBalance(d, EMPTY, a) == Worth(EMPTY.live, Some(a)) {
      assert Holdings(EMPTY.live, Some(a)) == {};
    }
    assert Holdings(EMPTY.live, None) == {};
  }

  /** The last unit of a replay. */
  lemma ReplayStep(d: Dag, marked: set<Hash>, at: map<Hash, UtxoData>, order: seq<Hash>)
    requires OrderOk(d, at, order) && order != []
    ensures OrderOk(d, at, order[..|order| - 1])
    ensures var n := |order| - 1; var l := Replay(d, marked, at, order[..n]);
      && LedgerOk(d, l) && InTurn(d, l, order[n]) && order[n] in at
      && Replay(d, marked, at, order) == Process(d, marked, l, order[n], at[order[n]])
  {
    hide LedgerOk; hide Process;
    var n := |order| - 1;
    PrefixOrderOk(d, at, order, n);
    ComesInTurn(d, at, order, Replay(d, marked, at, order[..n]));
  }

  /** The verdict of sequential replay on the unit at position `i`. */
  ghost predicate Verdict(d: Dag, marked: set<Hash>, at: map<Hash, UtxoData>, order: seq<Hash>, i: nat)
    requires OrderOk(d, at, order) && i < |order|
  {
    PrefixOrderOk(d, at, order, i);
    Accepts(d, marked, Replay(d, marked, at, order[..i]), d.units.Keys, order[i])
  }

  /** A replay reads the marks of its own units and no others. */
  lemma {:induction false} ReplayFrame(d: Dag, m: set<Hash>, m': set<Hash>, at: map<Hash, UtxoData>, order: seq<Hash>)
    requires OrderOk(d, at, order) && forall u :: u in order ==> (u in m <==> u in m')
    ensures Replay(d, m, at, order) == Replay(d, m', at, order)
    decreases |order|
  {
    hide LedgerOk; hide PaymentOk; hide IncludesLastSelf; hide OrderOk;
    OrderFacts(d, at, order);
    if order != [] {
      var n := |order| - 1;
      ReplayStep(d, m, at, order);
      ReplayStep(d, m', at, order);
      assert forall u :: u in order[..n] ==> u in order;
      ReplayFrame(d, m, m', at, order[..n]);
      hide Replay;
      ProcessFrame(d, m, m', Replay(d, m, at, order[..n]), order[n], at[order[n]]);
    }
  }

  lemma ProcessFrame(d: Dag, m: set<Hash>, m': set<Hash>, l: Ledger, u: Hash, data: UtxoData)
    requires WellFormed(d) && LedgerOk(d, l) && InTurn(d, l, u) && (u in m <==> u in m')
    ensures Process(d, m, l, u, data) == Process(d, m', l, u, data)
    ensures Accepts(d, m, l, d.units.Keys, u) == Accepts(d, m', l, d.units.Keys, u)
  {
    hide LedgerOk; hide PaymentOk; hide IncludesLastSelf; hide Apply;
    if Accepts(d, m, l, d.units.Keys, u) {
      AcceptedCanApply(d, m, l, u, data);
      AcceptedCanApply(d, m', l, u, data);
    }
  }

  lemma VerdictFrame(d: Dag, m: set<Hash>, m': set<Hash>, at: map<Hash, UtxoData>, order: seq<Hash>, i: nat)
    requires OrderOk(d, at, order) && i < |order| && forall u :: u in order[..i + 1] ==> (u in m <==> u in m')
    ensures Verdict(d, m, at, order, i) == Verdict(d, m', at, order, i)
  {
    hide Replay; hide PaymentOk; hide IncludesLastSelf;
    PrefixOrderOk(d, at, order, i);
    assert order[i] == order[..i + 1][i];
    assert forall u :: u in order[..i] ==> u in order[..i + 1];
    ReplayFrame(d, m, m', at, order[..i]);
  }

  lemma PrefixOrderOk(d: Dag, at: map<Hash, UtxoData>, order: seq<Hash>, i: nat)
    requires OrderOk(d, at, order) && i <= |order|
    ensures OrderOk(d, at, order[..i])
    ensures i < |order| ==> order[i] in d.units && order[i] in at
  {
    assert forall u :: u in order[..i] ==> u in order;
    if i < |order| { assert order[i] in order; }
  }

  /** What the replay of one unit more does with the verdict on it. */
  lemma ReplayOneMore(d: Dag, m: set<Hash>, at: map<Hash, UtxoData>, order: seq<Hash>, n: nat)
    requires OrderOk(d, at, order) && n < |order|
    ensures WellFormed(d) && OrderOk(d, at, order[..n]) && OrderOk(d, at, order[..n + 1]) && order[n] in at
    ensures order[n] in d.units && order[n] !in order[..n]
    ensures var l := Replay(d, m, at, order[..n]);
      && LedgerOk(d, l) && InTurn(d, l, order[n])
      && (Verdict(d, m, at, order, n) <==> Accepts(d, m, l, d.units.Keys, order[n]))
      && Replay(d, m, at, order[..n + 1]) == Process(d, m, l, order[n], at[order[n]])
      && Replay(d, m, at, order[..n + 1]).good == l.good + (if Verdict(d, m, at, order, n) then [order[n]] else [])
      && forall u :: u in l.good ==> u in order[..n]
  {
    hide LedgerOk; hide Accepts;
    PrefixOrderOk(d, at, order, n);
    PrefixOrderOk(d, at, order, n + 1);
    assert order[..n + 1][..n] == order[..n];
    ReplayStep(d, m, at, order[..n + 1]);
    hide Replay;
  }

  lemma SpentStaysSpent(d: Dag, marked: set<Hash>, l: Ledger, u: Hash, data: UtxoData, k: UtxoKey)
    requires WellFormed(d) && LedgerOk(d, l) && InTurn(d, l, u) && k.unit in l.good && k !in l.live
    ensures k.unit in Process(d, marked, l, u, data).good && k !in Process(d, marked, l, u, data).live
  {
    if Accepts(d, marked, l, d.units.Keys, u) {
      hide LedgerOk; hide PaymentOk; hide Worth;
      ApplyKeeps(d, l, d.units.Keys, u, data);
      LedgerFacts(d, l, 0);
      UnitFacts(d, l, d.units.Keys, u);
      hide RefsOk; hide InputsOk; hide StableBalance; hide AuthorsOk; hide Spend;
      AppliedLive(d, l, u, data);
      SpendSucceeds(d, l.live, GoodSet(l), d.units.Keys, u, d.units[u].inputs, None);
      var spent := Spend(d, l.live, d.units[u].inputs).value;
      SpentUnits(d, l, u, spent);
      CreateHolds(d, spent, u, |d.units[u].outputs|, data);
    }
  }

  lemma SpentUnits(d: Dag, l: Ledger, u: Hash, spent: Live)
    requires LiveOk(d, l) && u !in l.good && forall k :: k in spent ==> k in l.live
    ensures forall k :: k in spent ==> k.unit != u
  {
  }

  /** A key is never live again once the unit creating it is applied and the output is spent. */
  lemma {:induction false} SpentForever(d: Dag, marked: set<Hash>, at: map<Hash, UtxoData>, order: seq<Hash>, i: nat,
      k: UtxoKey)
    requires OrderOk(d, at, order) && i <= |order| && OrderOk(d, at, order[..i])
    requires k.unit in Replay(d, marked, at, order[..i]).good && k !in Replay(d, marked, at, order[..i]).live
    ensures k.unit in Replay(d, marked, at, order).good && k !in Replay(d, marked, at, order).live
    decreases |order|
  {
    hide *;
    if i < |order| {
      var n := |order| - 1;
      ReplayStep(d, marked, at, order);
      assert order[..n][..i] == order[..i];
      SpentForever(d, marked, at, order[..n], i, k);
      OrderFacts(d, at, order);
      SpentStaysSpent(d, marked, Replay(d, marked, at, order[..n]), order[n], at[order[n]], k);
    } else {
      assert order[..i] == order;
    }
  }

  lemma OrderFacts(d: Dag, at: map<Hash, UtxoData>, order: seq<Hash>)
    requires OrderOk(d, at, order)
    ensures WellFormed(d) && AuthorsOk(d)
  {
  }

  /** Only genesis issues. */
  lemma {:induction false} OnlyGenesisIssues(d: Dag, marked: set<Hash>, at: map<Hash, UtxoData>, order: seq<Hash>,
      u: Hash)
    requires OrderOk(d, at, order) && u in Replay(d, marked, at, order).good && !IsGenesis(d, u)
    ensures u in d.units && Issue(d, u) == 0
    decreases |order|
  {
    hide LedgerOk; hide PaymentOk; hide Apply;
    var n := |order| - 1;
    ReplayStep(d, marked, at, order);
    var l := Replay(d, marked, at, order[..n]);
    if u in l.good {
      OnlyGenesisIssues(d, marked, at, order[..n], u);
    } else {
      hide Replay;
      UnitFacts(d, l, d.units.Keys, u);
    }
  }

  lemma {:induction false} IssuedOnce(d: Dag, units: seq<Hash>)
    requires WellFormed(d) && Distinct(units)
    requires forall u :: u in units ==> u in d.units && (!IsGenesis(d, u) ==> Issue(d, u) == 0)
    ensures Issued(d, units) ==
      if exists u :: u in units && IsGenesis(d, u) && Issue(d, u) > 0 then TOTAL_WHITEBYTES else 0
  {
    if units != [] {
      var n := |units| - 1;
      var u := units[n];
      assert u in units && forall v :: v in units[..n] ==> v in units;
      assert u !in units[..n];
      IssuedOnce(d, units[..n]);
      assert forall v :: v in units ==> v in units[..n] || v == u;
    }
  }

  /**
   * Over every run, unspent outputs plus commissions paid make up what was issued: the
   * cap if genesis has been applied with its issue, and nothing otherwise.
   */
  lemma Conservation(d: Dag, marked: set<Hash>, at: map<Hash, UtxoData>, order: seq<Hash>)
    requires OrderOk(d, at, order)
    ensures var l := Replay(d, marked, at, order);
      && (forall u :: u in l.good ==> u in d.units)
      && Worth(l.live, None) + Commissions(d, l.good)
           == if exists u :: u in l.good && IsGenesis(d, u) && Issue(d, u) > 0 then TOTAL_WHITEBYTES else 0
  {
    var l := Replay(d, marked, at, order);
    LedgerFacts(d, l, 0);
    forall u | u in l.good && !IsGenesis(d, u) ensures Issue(d, u) == 0 { OnlyGenesisIssues(d, marked, at, order, u); }
    IssuedOnce(d, l.good);
  }

  /** Over every run the incremental balance of every address is the sum of its unspent outputs. */
  lemma BalanceIsWorth(d: Dag, marked: set<Hash>, at: map<Hash, UtxoData>, order: seq<Hash>, a: Address)
    requires OrderOk(d, at, order)
    ensures RefsOk(d, Replay(d, marked, at, order))
    ensures StableBalance(d, Replay(d, marked, at, order), a) == Worth(Replay(d, marked, at, order).live, Some(a))
  {
    LedgerFacts(d, Replay(d, marked, at, order), a);
  }

  lemma AcceptedCanApply(d: Dag, marked: set<Hash>, l: Ledger, u: Hash, data: UtxoData)
    requires WellFormed(d) && LedgerOk(d, l) && InTurn(d, l, u) && Accepts(d, marked, l, d.units.Keys, u)
    ensures CanApply(d, l, u) && Process(d, marked, l, u, data) == Apply(d, l, u, data)
    ensures Apply(d, l, u, data).good == l.good + [u]
  {
    hide LedgerOk; hide PaymentOk;
    ApplyKeeps(d, l, d.units.Keys, u, data);
    LedgerFacts(d, l, 0);
    hide RefsOk; hide StableBalance; hide Spend; hide Charge; hide Create; hide Relate;
    UnitFacts(d, l, d.units.Keys, u);
  }

  /** `l` results from applying `units` in order, without validating them. */
  ghost predicate Rebuilt(d: Dag, at: map<Hash, UtxoData>, units: seq<Hash>, l: Ledger)
  {
    if units == [] then l == EMPTY
    else
      var n := |units| - 1;
      var u := units[n];
      exists l0 ::
        && Rebuilt(d, at, units[..n], l0)
        && u in at && CanApply(d, l0, u)
        && l == Apply(d, l0, u, at[u])
  }

  /** Applying just the good units again, unvalidated, rebuilds the same state. */
  lemma {:induction false} RebuildIsReplay(d: Dag, marked: set<Hash>, at: map<Hash, UtxoData>, order: seq<Hash>)
    requires OrderOk(d, at, order)
    ensures Rebuilt(d, at, Replay(d, marked, at, order).good, Replay(d, marked, at, order))
    decreases |order|
  {
    hide LedgerOk; hide PaymentOk; hide Process;
    if order != [] {
      var n := |order| - 1;
      ReplayStep(d, marked, at, order);
      RebuildIsReplay(d, marked, at, order[..n]);
      hide Replay;
      var l, u := Replay(d, marked, at, order[..n]), order[n];
      if Accepts(d, marked, l, d.units.Keys, u) {
        hide OrderOk;
        RebuildOneMore(d, marked, at, l, u);
      }
    }
  }

  lemma RebuildOneMore(d: Dag, marked: set<Hash>, at: map<Hash, UtxoData>, l: Ledger, u: Hash)
    requires WellFormed(d) && LedgerOk(d, l) && InTurn(d, l, u) && u in at && Accepts(d, marked, l, d.units.Keys, u)
    requires Rebuilt(d, at, l.good, l)
    ensures Rebuilt(d, at, Process(d, marked, l, u, at[u]).good, Process(d, marked, l, u, at[u]))
  {
    AcceptedCanApply(d, marked, l, u, at[u]);
    hide LedgerOk; hide Accepts; hide CanApply; hide Process; hide Apply; hide InTurn;
    var units := l.good + [u];
    assert units[..|l.good|] == l.good && units[|l.good|] == u;
    assert Rebuilt(d, at, units[..|units| - 1], l) && CanApply(d, l, u);
  }
}
