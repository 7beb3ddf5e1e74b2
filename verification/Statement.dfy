/** What the history of an address lists, said by the outputs of the applied units, and what it adds up to. */
module Statement {
  import opened Collections
  import opened Dag
  import opened Ledger
  import opened LedgerRun
  import opened History

  // ---------------------------------------------------------------- one entry per output

  /** The positions `o` has among the outputs. */
  ghost function Positions(outputs: seq<Output>, o: Output): set<nat>
  {
    set i: nat | i < |outputs| && outputs[i] == o
  }

  lemma PositionsStep(outputs: seq<Output>, o: Output)
    requires outputs != []
    ensures var n := |outputs| - 1;
      |Positions(outputs, o)| == |Positions(outputs[..n], o)| + if outputs[n] == o then 1 else 0
  {
    var n := |outputs| - 1;
    var before := Positions(outputs[..n], o);
    if outputs[n] == o {
      assert Positions(outputs, o) == before + {n};
    } else {
      assert Positions(outputs, o) == before;
    }
  }

  lemma {:induction false} ReceivedCount(d: Dag, u: Hash, outputs: seq<Output>, a: Address, t: Transaction)
    requires u in d.units && d.units[u].authors != []
    ensures multiset(ReceivedIn(d, u, outputs, a))[t] ==
      if t.unit == u && t.from == d.units[u].authors[0] && t.to == a
      then |Positions(outputs, Output(a, t.amount))| else 0
  {
    if outputs == [] {
      assert Positions(outputs, Output(a, t.amount)) == {};
    } else {
      hide Positions;
      ReceivedCount(d, u, outputs[..|outputs| - 1], a, t);
      PositionsStep(outputs, Output(a, t.amount));
    }
  }

  lemma {:induction false} SentCount(u: Hash, outputs: seq<Output>, a: Address, t: Transaction)
    ensures multiset(SentIn(u, outputs, a))[t] ==
      if t.unit == u && t.from == a && t.to != a then |Positions(outputs, Output(t.to, t.amount))| else 0
  {
    if outputs == [] {
      assert Positions(outputs, Output(t.to, t.amount)) == {};
    } else {
      hide Positions;
      SentCount(u, outputs[..|outputs| - 1], a, t);
      PositionsStep(outputs, Output(t.to, t.amount));
    }
  }

  /**
   * How often the history of `a` owes `t`: once per equal output of an applied unit, to others in
   * the units of `a` and to `a` in the units of others.
   */
  ghost function Owed(d: Dag, units: seq<Hash>, a: Address, t: Transaction): nat
    requires forall u :: u in units ==> u in d.units && d.units[u].authors != []
  {
    if t.unit !in units then 0
    else if d.units[t.unit].authors == [a] then
      if t.from == a && t.to != a then |Positions(d.units[t.unit].outputs, Output(t.to, t.amount))| else 0
    else if t.from == d.units[t.unit].authors[0] && t.to == a then
      |Positions(d.units[t.unit].outputs, Output(a, t.amount))|
    else 0
  }

  lemma ContributionCount(d: Dag, u: Hash, a: Address, t: Transaction)
    requires u in d.units && d.units[u].authors != []
    ensures multiset(Contribution(d, u, a))[t] == if t.unit == u then Owed(d, [u], a, t) else 0
  {
    hide Positions; hide SentIn; hide ReceivedIn;
    assert d.units[u].authors == [a] <==> Payer(d, u) == Some(a);
    ReceivedCount(d, u, d.units[u].outputs, a, t);
    SentCount(u, d.units[u].outputs, a, t);
  }

  lemma {:induction false} AllCount(d: Dag, units: seq<Hash>, a: Address, t: Transaction)
    requires Distinct(units) && forall u :: u in units ==> u in d.units && d.units[u].authors != []
    ensures AllTransactions(d, units, a)[t] == Owed(d, units, a, t)
  {
    hide Positions; hide Contribution;
    if units != [] {
      var n := |units| - 1;
      assert units[n] in units && units[n] !in units[..n];
      assert forall u :: u in units <==> u in units[..n] || u == units[n];
      AllCount(d, units[..n], a, t);
      ContributionCount(d, units[n], a, t);
    }
  }

  /**
   * Over every run, and for every transaction `t`: the history of `a` holds `t` once for each output
   * of the applied unit that pays `t.amount` to `t.to`, for payments of `a` to others and of others
   * to `a`, and holds nothing else.
   */
  lemma HistoryByOutputs(d: Dag, marked: set<Hash>, at: map<Hash, UtxoData>, order: seq<Hash>, a: Address,
      t: Transaction)
    requires OrderOk(d, at, order)
    ensures var l := Replay(d, marked, at, order);
      && WalkOk(d, l)
      && var times := multiset(FullHistory(d, l, a))[t];
         && (t.unit in l.good ==> t.unit in d.units && d.units[t.unit].authors != [])
         && (times > 0 ==> t.unit in l.good)
         && (t.unit in l.good && d.units[t.unit].authors == [a] ==>
               && (times > 0 ==> t.from == a && t.to != a)
               && (t.from == a && t.to != a ==> times == |Positions(d.units[t.unit].outputs, Output(t.to, t.amount))|))
         && (t.unit in l.good && d.units[t.unit].authors != [a] ==>
               && (times > 0 ==> t.from == d.units[t.unit].authors[0] && t.to == a)
               && (t.from == d.units[t.unit].authors[0] && t.to == a ==>
                     times == |Positions(d.units[t.unit].outputs, Output(a, t.amount))|))
  {
    hide Positions; hide Replay; hide FullHistory; hide AllTransactions;
    HistoryComplete(d, marked, at, order, a);
    AllCount(d, Replay(d, marked, at, order).good, a, t);
  }

  // ---------------------------------------------------------------- what the entries add up to

  /** Received less sent. */
  ghost function Net(txs: seq<Transaction>, a: Address): int
  {
    if txs == [] then 0
    else
      var n := |txs| - 1;
      Net(txs[..n], a) + if txs[n].to == a then txs[n].amount else 0 - txs[n].amount
  }

  lemma {:induction false} NetConcat(s: seq<Transaction>, t: seq<Transaction>, a: Address)
    ensures Net(s + t, a) == Net(s, a) + Net(t, a)
  {
    if t == [] {
      assert s + t == s;
    } else {
      NetConcat(s, t[..|t| - 1], a);
      assert (s + t)[..|s + t| - 1] == s + t[..|t| - 1];
    }
  }

  lemma {:induction false} NetReceived(d: Dag, u: Hash, outputs: seq<Output>, a: Address)
    requires u in d.units && d.units[u].authors != []
    ensures Net(ReceivedIn(d, u, outputs, a), a) == PaidTo(outputs, a)
  {
    if outputs != [] {
      var n := |outputs| - 1;
      NetReceived(d, u, outputs[..n], a);
      if outputs[n].address == a {
        var t := [Transaction(u, d.units[u].authors[0], a, outputs[n].amount)];
        NetConcat(ReceivedIn(d, u, outputs[..n], a), t, a);
        assert t[..0] == [];
      } else {
        assert ReceivedIn(d, u, outputs, a) == ReceivedIn(d, u, outputs[..n], a);
      }
    }
  }

  lemma {:induction false} NetSent(u: Hash, outputs: seq<Output>, a: Address)
    ensures Net(SentIn(u, outputs, a), a) == 0 - PaidToOthers(outputs, a)
  {
    if outputs != [] {
      var n := |outputs| - 1;
      NetSent(u, outputs[..n], a);
      if outputs[n].address != a {
        var t := [Transaction(u, a, outputs[n].address, outputs[n].amount)];
        NetConcat(SentIn(u, outputs[..n], a), t, a);
        assert t[..0] == [];
      } else {
        assert SentIn(u, outputs, a) == SentIn(u, outputs[..n], a);
      }
    }
  }

  lemma {:induction false} NetReceivedFrom(d: Dag, units: seq<Hash>, a: Address)
    requires forall u :: u in units ==> u in d.units && d.units[u].authors != []
    ensures Net(ReceivedFrom(d, units, a), a) == PaidBy(d, units, a)
  {
    hide ReceivedIn; hide PaidTo;
    if units != [] {
      var n := |units| - 1;
      assert units[n] in units;
      NetReceivedFrom(d, units[..n], a);
      NetReceived(d, units[n], d.units[units[n]].outputs, a);
      NetConcat(ReceivedFrom(d, units[..n], a), ReceivedIn(d, units[n], d.units[units[n]].outputs, a), a);
    }
  }

  /** The commissions `a` paid with its own units. */
  ghost function OwnCommissions(d: Dag, units: seq<Hash>, a: Address): nat
    requires forall u :: u in units ==> u in d.units
  {
    if units == [] then 0
    else
      var u := d.units[units[|units| - 1]];
      OwnCommissions(d, units[..|units| - 1], a) +
        if u.authors == [a] then u.headersCommission + u.payloadCommission else 0
  }

  /** What the own units of `a` list, less their commissions, is the balance recorded with the last of them. */
  ghost predicate Settled(d: Dag, l: Ledger, a: Address)
    requires WalkOk(d, l)
  {
    Net(OwnPart(d, l, a), a) - OwnCommissions(d, l.good, a) ==
      if a in l.lastSelf then l.balance[l.lastSelf[a]] else 0
  }

  lemma CommissionsMore(d: Dag, l: Ledger, u: Hash, a: Address)
    requires RefsOk(d, l) && u in d.units && d.units[u].authors != []
    ensures forall v :: v in l.good + [u] ==> v in d.units
    ensures OwnCommissions(d, l.good + [u], a) ==
      OwnCommissions(d, l.good, a) + if Payer(d, u) == Some(a) then Commission(d, u) else 0
  {
    assert (l.good + [u])[..|l.good|] == l.good;
    assert d.units[u].authors == [a] <==> Payer(d, u) == Some(a);
  }

  lemma SettledByOwn(d: Dag, l: Ledger, l': Ledger, u: Hash, data: UtxoData, a: Address)
    requires CanApply(d, l, u) && u !in l.good && l' == Apply(d, l, u, data) && AuthorsOk(d)
    requires WalkOk(d, l) && WalkOk(d, l') && Settled(d, l, a) && Payer(d, u) == Some(a)
    ensures Settled(d, l', a)
  {
    hide Net; hide OwnPart; hide SentIn; hide ReceivedFrom; hide PaidToOthers; hide PaidBy; hide Relate; hide Create;
    hide OwnCommissions; hide Listed; hide Spend;
    ApplyFollows(d, l, u, data);
    OwnGrows(d, l, l', u, a);
    var sent, received := SentIn(u, d.units[u].outputs, a), ReceivedFrom(d, Listed(l.related, a), a);
    NetConcat(sent + received, OwnPart(d, l, a), a);
    NetConcat(sent, received, a);
    NetSent(u, d.units[u].outputs, a);
    NetReceivedFrom(d, Listed(l.related, a), a);
    CommissionsMore(d, l, u, a);
  }

  /** A unit of someone else leaves the own units of `a` alone. */
  lemma OthersKeep(d: Dag, l: Ledger, l': Ledger, u: Hash, a: Address)
    requires WalkOk(d, l) && WalkOk(d, l') && Follows(d, l, l', u) && Payer(d, u) != Some(a)
    requires a in l.lastSelf ==> l.lastSelf[a] in l.good && Payer(d, l.lastSelf[a]) == Some(a)
    ensures OwnPart(d, l', a) == OwnPart(d, l, a) && (a in l'.lastSelf <==> a in l.lastSelf)
    ensures a in l.lastSelf ==> l'.lastSelf[a] == l.lastSelf[a] && l.lastSelf[a] != u
  {
    hide WalkOk; hide HistoryFrom; hide Relate;
    if a in l.lastSelf { HistoryFrame(d, l, l', u, a, l.lastSelf[a]); }
  }

  lemma SettledByOther(d: Dag, l: Ledger, l': Ledger, u: Hash, data: UtxoData, a: Address)
    requires CanApply(d, l, u) && u !in l.good && l' == Apply(d, l, u, data)
    requires WalkOk(d, l) && WalkOk(d, l') && Settled(d, l, a) && Payer(d, u) != Some(a)
    ensures Settled(d, l', a)
  {
    hide WalkOk; hide CanApply; hide OwnPart; hide OwnCommissions; hide Net; hide Apply;
    WalkFacts(d, l);
    hide RefsOk;
    ApplyFollows(d, l, u, data);
    OthersKeep(d, l, l', u, a);
    CommissionsMore(d, l, u, a);
    AppliedIndex(d, l, u, data);
  }

  lemma SettledStep(d: Dag, marked: set<Hash>, l: Ledger, u: Hash, data: UtxoData, a: Address)
    requires WellFormed(d) && LedgerOk(d, l) && InTurn(d, l, u) && WalkOk(d, l) && Settled(d, l, a)
    ensures var l' := Process(d, marked, l, u, data); WalkOk(d, l') ==> Settled(d, l', a)
  {
    LedgerFacts(d, l, a);
    var l' := Process(d, marked, l, u, data);
    if Accepts(d, marked, l, d.units.Keys, u) && WalkOk(d, l') {
      AcceptedCanApply(d, marked, l, u, data);
      hide *;
      if Payer(d, u) == Some(a) {
        SettledByOwn(d, l, l', u, data, a);
      } else {
        SettledByOther(d, l, l', u, data, a);
      }
    }
  }

  lemma {:induction false} ReplaySettled(d: Dag, marked: set<Hash>, at: map<Hash, UtxoData>, order: seq<Hash>,
      a: Address)
    requires OrderOk(d, at, order)
    ensures var l := Replay(d, marked, at, order); WalkOk(d, l) && Settled(d, l, a)
    decreases |order|
  {
    hide LedgerOk; hide WalkOk; hide Settled;
    HistoryComplete(d, marked, at, order, a);
    OrderFacts(d, at, order);
    if order == [] {
      NothingSettled(d, a);
    } else {
      var n := |order| - 1;
      ReplayStep(d, marked, at, order);
      ReplaySettled(d, marked, at, order[..n], a);
      hide Replay;
      SettledStep(d, marked, Replay(d, marked, at, order[..n]), order[n], at[order[n]], a);
    }
  }

  lemma NothingSettled(d: Dag, a: Address)
    requires WalkOk(d, EMPTY)
    ensures Settled(d, EMPTY, a)
  {
  }

  /**
   * Over every run the history adds up: what `a` received, less what it sent and the commissions of
   * its own units, is the worth of its unspent outputs.
   */
  lemma HistoryAddsUp(d: Dag, marked: set<Hash>, at: map<Hash, UtxoData>, order: seq<Hash>, a: Address)
    requires OrderOk(d, at, order)
    ensures var l := Replay(d, marked, at, order);
      && WalkOk(d, l) && (forall u :: u in l.good ==> u in d.units)
      && Net(FullHistory(d, l, a), a) - OwnCommissions(d, l.good, a) == Worth(l.live, Some(a))
  {
    var l := Replay(d, marked, at, order);
    ReplaySettled(d, marked, at, order, a);
    BalanceIsWorth(d, marked, at, order, a);
    hide Replay; hide WalkOk; hide Worth; hide Net; hide OwnPart; hide OwnCommissions; hide PaidBy; hide ReceivedFrom;
    hide Listed; hide FullHistory;
    WalkFacts(d, l);
    FullParts(d, l, a);
    NetConcat(ReceivedFrom(d, Listed(l.related, a), a), OwnPart(d, l, a), a);
    NetReceivedFrom(d, Listed(l.related, a), a);
  }
}
