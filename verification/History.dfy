/** The history of an address, walked along its own units (src/light.rs). */
module History {
  import opened Collections
  import opened Dag
  import opened Ledger
  import opened LedgerRun

  datatype Transaction = Transaction(unit: Hash, from: Address, to: Address, amount: nat)

  // ---------------------------------------------------------------- what a unit does to an address

  /** The payments of `u` to `a`, as get_receive_tx lists them. */
  function ReceivedIn(d: Dag, u: Hash, outputs: seq<Output>, a: Address): seq<Transaction>
    requires u in d.units && d.units[u].authors != []
  {
    if outputs == [] then []
    else
      var o := outputs[|outputs| - 1];
      ReceivedIn(d, u, outputs[..|outputs| - 1], a) +
        if o.address == a then [Transaction(u, d.units[u].authors[0], a, o.amount)] else []
  }

  /** The payments of `u` to others than `a`. */
  function SentIn(u: Hash, outputs: seq<Output>, a: Address): seq<Transaction>
  {
    if outputs == [] then []
    else
      var o := outputs[|outputs| - 1];
      SentIn(u, outputs[..|outputs| - 1], a) + if o.address == a then [] else [Transaction(u, a, o.address, o.amount)]
  }

  /** Reference: what unit `u` contributes to the history of `a`. */
  function Contribution(d: Dag, u: Hash, a: Address): seq<Transaction>
    requires u in d.units && d.units[u].authors != []
  {
    if Payer(d, u) == Some(a) then SentIn(u, d.units[u].outputs, a) else ReceivedIn(d, u, d.units[u].outputs, a)
  }

  /** Reference: everything the applied units contribute, each transaction once per output. */
  ghost function AllTransactions(d: Dag, units: seq<Hash>, a: Address): multiset<Transaction>
    requires forall u :: u in units ==> u in d.units && d.units[u].authors != []
  {
    if units == [] then multiset{}
    else
      assert units[|units| - 1] in units;
      AllTransactions(d, units[..|units| - 1], a) + multiset(Contribution(d, units[|units| - 1], a))
  }

  // ---------------------------------------------------------------- the walk

  /** Own units lead to earlier own units of the same address. */
  ghost predicate WalkOk(d: Dag, l: Ledger)
  {
    && RefsOk(d, l) && AuthorsOk(d) && Distinct(l.good)
    && (forall a :: a in l.lastSelf ==> Payer(d, l.lastSelf[a]) == Some(a))
    && (forall u :: u in l.prevSelf && Payer(d, u).Some? ==>
         Payer(d, l.prevSelf[u]) == Payer(d, u) && Position(l.good, l.prevSelf[u]) < Position(l.good, u))
  }

  ghost function Position(s: seq<Hash>, u: Hash): nat
  {
    if s == [] || s[|s| - 1] == u then |s| else Position(s[..|s| - 1], u)
  }

  function ReceivedFrom(d: Dag, units: seq<Hash>, a: Address): seq<Transaction>
    requires forall u :: u in units ==> u in d.units && d.units[u].authors != []
  {
    if units == [] then []
    else
      assert units[|units| - 1] in units;
      ReceivedFrom(d, units[..|units| - 1], a) +
        ReceivedIn(d, units[|units| - 1], d.units[units[|units| - 1]].outputs, a)
  }

  /** The history from own unit `u` backwards. */
  ghost function HistoryFrom(d: Dag, l: Ledger, a: Address, u: Hash): seq<Transaction>
    requires WalkOk(d, l) && u in l.good && Payer(d, u) == Some(a)
    decreases Position(l.good, u)
  {
    SentIn(u, d.units[u].outputs, a) + ReceivedFrom(d, l.relatedUnits[u], a) +
      if u in l.prevSelf then HistoryFrom(d, l, a, l.prevSelf[u]) else []
  }

  /** The whole history of `a`, newest own unit first. */
  ghost function FullHistory(d: Dag, l: Ledger, a: Address): seq<Transaction>
    requires WalkOk(d, l)
  {
    ReceivedFrom(d, Listed(l.related, a), a) + if a in l.lastSelf then HistoryFrom(d, l, a, l.lastSelf[a]) else []
  }

  // ---------------------------------------------------------------- the walk lists everything once

  lemma {:induction false} PositionKept(s: seq<Hash>, u: Hash, v: Hash)
    requires v in s && u !in s
    ensures Position(s + [u], v) == Position(s, v) <= |s| && Position(s + [u], u) == |s| + 1
  {
    assert (s + [u])[..|s|] == s;
    if s[|s| - 1] != v {
      assert v in s[..|s| - 1];
      PositionBound(s, v);
    }
  }

  lemma {:induction false} PositionBound(s: seq<Hash>, v: Hash)
    ensures Position(s, v) <= |s|
  {
    if s != [] && s[|s| - 1] != v { PositionBound(s[..|s| - 1], v); }
  }

  /** The index of `l'` is that of `l` with `u` applied. */
  ghost predicate Follows(d: Dag, l: Ledger, l': Ledger, u: Hash)
  {
    && u in d.units && d.units[u].authors != [] && u !in l.good
    && var b := d.units[u].authors[0];
       && l'.lastSelf == (if Payer(d, u).Some? then l.lastSelf[b := u] else l.lastSelf)
       && l'.related == Relate(d, l.related - {b}, u, |d.units[u].outputs|)
       && l'.prevSelf == (if b in l.lastSelf then l.prevSelf[u := l.lastSelf[b]] else l.prevSelf)
       && l'.relatedUnits == l.relatedUnits[u := Listed(l.related, b)]
       && l'.good == l.good + [u]
  }

  lemma ApplyFollows(d: Dag, l: Ledger, u: Hash, data: UtxoData)
    requires CanApply(d, l, u) && u !in l.good
    ensures Follows(d, l, Apply(d, l, u, data), u)
  {
    AppliedIndex(d, l, u, data);
  }

  lemma PrevKept(d: Dag, l: Ledger, l': Ledger, u: Hash, v: Hash)
    requires WalkOk(d, l) && Follows(d, l, l', u) && v in l'.prevSelf && v in d.units && d.units[v].authors != []
    requires Payer(d, v).Some?
    ensures l'.prevSelf[v] in d.units && d.units[l'.prevSelf[v]].authors != []
    ensures Payer(d, l'.prevSelf[v]) == Payer(d, v) && Position(l'.good, l'.prevSelf[v]) < Position(l'.good, v)
  {
    hide RefsOk; hide Relate; hide Position; hide Listed; hide Distinct;
    WalkRefs(d, l);
    PositionKept(l.good, u, l'.prevSelf[v]);
    if v != u { PositionKept(l.good, u, v); }
  }

  lemma WalkKept(d: Dag, l: Ledger, l': Ledger, u: Hash)
    requires WalkOk(d, l) && Follows(d, l, l', u) && RefsOk(d, l')
    ensures WalkOk(d, l')
  {
    hide RefsOk; hide Relate; hide Position; hide Listed; hide Distinct;
    Appended(l.good, u);
    WalkRefs(d, l');
    forall v | v in l'.prevSelf && Payer(d, v).Some?
      ensures Payer(d, l'.prevSelf[v]) == Payer(d, v) && Position(l'.good, l'.prevSelf[v]) < Position(l'.good, v)
    {
      PrevKept(d, l, l', u, v);
    }
  }

  lemma Appended(s: seq<Hash>, u: Hash)
    requires Distinct(s) && u !in s
    ensures Distinct(s + [u])
  {
  }

  lemma WalkRefs(d: Dag, l: Ledger)
    requires RefsOk(d, l)
    ensures forall v :: v in l.prevSelf ==> v in l.good && l.prevSelf[v] in l.good
    ensures forall a :: a in l.lastSelf ==> l.lastSelf[a] in l.good
    ensures forall v :: v in l.good ==> v in d.units && v in l.relatedUnits
  {
  }

  /** Applying another unit leaves the walk from an earlier own unit as it was. */
  lemma {:induction false} HistoryFrame(d: Dag, l: Ledger, l': Ledger, u: Hash, a: Address, v: Hash)
    requires WalkOk(d, l) && WalkOk(d, l') && Follows(d, l, l', u) && v in l.good && Payer(d, v) == Some(a)
    ensures v in l'.good && HistoryFrom(d, l', a, v) == HistoryFrom(d, l, a, v)
    decreases Position(l.good, v)
  {
    hide Relate; hide SentIn; hide ReceivedFrom; hide Distinct; hide AuthorsOk;
    WalkRefs(d, l);
    if v in l.prevSelf { HistoryFrame(d, l, l', u, a, l.prevSelf[v]); }
  }

  lemma {:induction false} ReceivedNothing(d: Dag, u: Hash, outputs: seq<Output>, a: Address)
    requires u in d.units && d.units[u].authors != [] && !Pays(outputs, a)
    ensures ReceivedIn(d, u, outputs, a) == []
  {
    if outputs != [] {
      var n := |outputs| - 1;
      assert forall i :: 0 <= i < n ==> outputs[..n][i] == outputs[i];
      assert outputs[n].address != a;
      ReceivedNothing(d, u, outputs[..n], a);
    }
  }

  lemma NothingRelated(d: Dag, l: Ledger, a: Address)
    requires RefsOk(d, l) && l.good == []
    ensures Listed(l.related, a) == []
  {
    FirstIsMember(Listed(l.related, a));
    assert forall x :: x in Listed(l.related, a) ==> x in l.good;
  }

  /** Walking from the newest own unit `u`: its payments, then the former history. */
  lemma GrowsByOwn(d: Dag, l: Ledger, l': Ledger, u: Hash, a: Address)
    requires WalkOk(d, l) && WalkOk(d, l') && Follows(d, l, l', u) && Payer(d, u) == Some(a)
    ensures FullHistory(d, l', a) == SentIn(u, d.units[u].outputs, a) + FullHistory(d, l, a)
  {
    OwnPayerKnown(d, l, l', u, a);
    hide *;
    OwnRelated(d, l, l', u, a);
    FullParts(d, l, a);
    FullParts(d, l', a);
    NoneReceived(d, a);
    OwnGrows(d, l, l', u, a);
    var sent, received := SentIn(u, d.units[u].outputs, a), ReceivedFrom(d, Listed(l.related, a), a);
    ConcatAssociative(sent, received, OwnPart(d, l, a));
    assert [] + OwnPart(d, l', a) == OwnPart(d, l', a);
  }

  lemma OwnGrows(d: Dag, l: Ledger, l': Ledger, u: Hash, a: Address)
    requires WalkOk(d, l) && WalkOk(d, l') && Follows(d, l, l', u) && Payer(d, u) == Some(a)
    ensures forall v :: v in Listed(l.related, a) ==> v in d.units && d.units[v].authors != []
    ensures OwnPart(d, l', a) ==
      SentIn(u, d.units[u].outputs, a) + ReceivedFrom(d, Listed(l.related, a), a) + OwnPart(d, l, a)
  {
    hide WalkOk; hide Relate; hide SentIn; hide RefsOk; hide Position; hide HistoryFrom; hide ReceivedFrom; hide Listed;
    WalkFacts(d, l);
    WalkFacts(d, l');
    Unroll(d, l', a, u);
    if a in l.lastSelf { HistoryFrame(d, l, l', u, a, l.lastSelf[a]); }
  }

  lemma ConcatAssociative<T>(a: seq<T>, b: seq<T>, c: seq<T>)
    ensures a + b + c == a + (b + c)
  {
  }

  lemma NoneReceived(d: Dag, a: Address)
    ensures ReceivedFrom(d, [], a) == []
  {
  }

  lemma Unroll(d: Dag, l: Ledger, a: Address, u: Hash)
    requires WalkOk(d, l) && u in l.good && Payer(d, u) == Some(a)
    ensures u in l.relatedUnits && forall v :: v in l.relatedUnits[u] ==> v in d.units && d.units[v].authors != []
    ensures u in l.prevSelf ==> l.prevSelf[u] in l.good && Payer(d, l.prevSelf[u]) == Some(a)
    ensures HistoryFrom(d, l, a, u) ==
      SentIn(u, d.units[u].outputs, a) + ReceivedFrom(d, l.relatedUnits[u], a) +
      if u in l.prevSelf then HistoryFrom(d, l, a, l.prevSelf[u]) else []
  {
  }

  lemma WalkFacts(d: Dag, l: Ledger)
    requires WalkOk(d, l)
    ensures forall a, v :: v in Listed(l.related, a) ==> v in d.units && d.units[v].authors != []
    ensures forall a :: a in l.lastSelf ==> l.lastSelf[a] in l.good
    ensures forall v :: v in l.good ==> v in d.units && d.units[v].authors != [] && v in l.relatedUnits
    ensures forall a :: a in l.lastSelf ==> Payer(d, l.lastSelf[a]) == Some(a)
    ensures forall v :: v in l.prevSelf ==> v in l.good
    ensures RefsOk(d, l)
  {
  }

  lemma OwnRelated(d: Dag, l: Ledger, l': Ledger, u: Hash, a: Address)
    requires Follows(d, l, l', u) && Payer(d, u) == Some(a)
    ensures Listed(l'.related, a) == []
  {
    RelateAppends(d, l.related - {a}, u, |d.units[u].outputs|, a);
  }

  lemma ReceivedFromMore(d: Dag, s: seq<Hash>, t: seq<Hash>, u: Hash, a: Address)
    requires (forall v :: v in s ==> v in d.units && d.units[v].authors != []) && u in d.units
    requires d.units[u].authors != []
    requires t == s + if Pays(d.units[u].outputs, a) then [u] else []
    ensures forall v :: v in t ==> v in d.units && d.units[v].authors != []
    ensures ReceivedFrom(d, t, a) == ReceivedFrom(d, s, a) + ReceivedIn(d, u, d.units[u].outputs, a)
  {
    if Pays(d.units[u].outputs, a) {
      assert t[..|s|] == s;
    } else {
      assert t == s;
      ReceivedNothing(d, u, d.units[u].outputs, a);
    }
  }

  lemma GrowsByOther(d: Dag, l: Ledger, l': Ledger, u: Hash, a: Address)
    requires WalkOk(d, l) && WalkOk(d, l') && Follows(d, l, l', u) && Payer(d, u) != Some(a)
    requires d.units[u].authors[0] == a ==> Listed(l.related, a) == []
    ensures multiset(FullHistory(d, l', a)) ==
      multiset(FullHistory(d, l, a)) + multiset(ReceivedIn(d, u, d.units[u].outputs, a))
  {
    hide WalkOk; hide RefsOk; hide Relate; hide ReceivedIn; hide Position; hide HistoryFrom; hide Pays;
    hide ReceivedFrom;
    hide FullHistory;
    WalkFacts(d, l);
    WalkFacts(d, l');
    RelatedOfOther(d, l, u, a);
    var next := if a in l.lastSelf then Some(l.lastSelf[a]) else None;
    HistoryStart(d, l, a, next);
    HistoryStart(d, l', a, next);
    if a in l.lastSelf { HistoryFrame(d, l, l', u, a, l.lastSelf[a]); }
    ReceivedFromMore(d, Listed(l.related, a), Listed(l'.related, a), u, a);
    var before, received := ReceivedFrom(d, Listed(l.related, a), a), ReceivedIn(d, u, d.units[u].outputs, a);
    MultisetOfMiddle(before, received, Remaining(d, l, a, next));
  }

  lemma MultisetOfMiddle<T>(a: seq<T>, b: seq<T>, c: seq<T>)
    ensures multiset(a + b + c) == multiset(a + c) + multiset(b)
  {
  }

  /** How one applied unit changes the history of `a`. */
  lemma HistoryGrows(d: Dag, l: Ledger, l': Ledger, u: Hash, a: Address)
    requires WalkOk(d, l) && WalkOk(d, l') && Follows(d, l, l', u) && RefsOk(d, l)
    requires Payer(d, u).None? ==> l.good == []
    ensures multiset(FullHistory(d, l', a)) == multiset(FullHistory(d, l, a)) + multiset(Contribution(d, u, a))
  {
    hide WalkOk; hide RefsOk; hide FullHistory; hide SentIn; hide ReceivedIn;
    if Payer(d, u) == Some(a) {
      GrowsByOwn(d, l, l', u, a);
    } else {
      if d.units[u].authors[0] == a { NothingRelated(d, l, a); }
      GrowsByOther(d, l, l', u, a);
    }
  }

  // ---------------------------------------------------------------- over runs

  /**
   * Over every run the history walk lists each output an address paid to others, and each
   * output it received from others, exactly once.
   */
  lemma {:induction false} HistoryComplete(d: Dag, marked: set<Hash>, at: map<Hash, UtxoData>, order: seq<Hash>,
      a: Address)
    requires OrderOk(d, at, order)
    ensures var l := Replay(d, marked, at, order);
      && WalkOk(d, l)
      && (forall u :: u in l.good ==> u in d.units && d.units[u].authors != [])
      && multiset(FullHistory(d, l, a)) == AllTransactions(d, l.good, a)
    decreases |order|
  {
    hide LedgerOk; hide Accepts; hide OrderOk; hide WalkOk; hide FullHistory; hide AllTransactions;
    OrderFacts(d, at, order);
    if order == [] {
      EmptyHistory(d, a);
    } else {
      var n := |order| - 1;
      ReplayStep(d, marked, at, order);
      HistoryComplete(d, marked, at, order[..n], a);
      hide Replay;
      HistoryStep(d, marked, Replay(d, marked, at, order[..n]), order[n], at[order[n]], a);
    }
  }

  lemma EmptyHistory(d: Dag, a: Address)
    requires AuthorsOk(d)
    ensures WalkOk(d, EMPTY) && multiset(FullHistory(d, EMPTY, a)) == AllTransactions(d, EMPTY.good, a)
  {
  }

  lemma HistoryStep(d: Dag, marked: set<Hash>, l: Ledger, u: Hash, data: UtxoData, a: Address)
    requires WellFormed(d) && LedgerOk(d, l) && InTurn(d, l, u) && WalkOk(d, l)
    requires forall v :: v in l.good ==> v in d.units && d.units[v].authors != []
    requires multiset(FullHistory(d, l, a)) == AllTransactions(d, l.good, a)
    ensures var l' := Process(d, marked, l, u, data);
      && WalkOk(d, l')
      && (forall v :: v in l'.good ==> v in d.units && d.units[v].authors != [])
      && multiset(FullHistory(d, l', a)) == AllTransactions(d, l'.good, a)
  {
    if Accepts(d, marked, l, d.units.Keys, u) {
      var l' := Process(d, marked, l, u, data);
      AcceptedCanApply(d, marked, l, u, data);
      LedgerFacts(d, l', 0);
      LedgerFacts(d, l, 0);
      UnitFacts(d, l, d.units.Keys, u);
      hide *;
      ApplyFollows(d, l, u, data);
      WalkKept(d, l, l', u);
      HistoryGrows(d, l, l', u, a);
      AllGrow(d, l.good, u, a);
    }
  }

  lemma AllGrow(d: Dag, units: seq<Hash>, u: Hash, a: Address)
    requires u in d.units && d.units[u].authors != []
    requires forall v :: v in units ==> v in d.units && d.units[v].authors != []
    ensures forall v :: v in units + [u] ==> v in d.units && d.units[v].authors != []
    ensures AllTransactions(d, units + [u], a) == AllTransactions(d, units, a) + multiset(Contribution(d, u, a))
  {
    assert (units + [u])[..|units|] == units;
  }

  // ---------------------------------------------------------------- the walk with a limit

  function Take<T>(s: seq<T>, n: nat): seq<T>
  {
    if n < |s| then s[..n] else s
  }

  /** Append the payments of `unit` to `a`; stop as soon as the limit is reached. */
  method GetReceiveTx(d: Dag, unit: Hash, a: Address, limit: nat, txs: seq<Transaction>)
    returns (full: bool, out: seq<Transaction>)
    requires unit in d.units && d.units[unit].authors != [] && |txs| < Bound(limit)
    ensures full <==> |txs + ReceivedIn(d, unit, d.units[unit].outputs, a)| >= Bound(limit)
    ensures out == Take(txs + ReceivedIn(d, unit, d.units[unit].outputs, a), Bound(limit))
  {
    var outputs := d.units[unit].outputs;
    out := txs;
    for i := 0 to |outputs|
      invariant out == txs + ReceivedIn(d, unit, outputs[..i], a) && |out| < Bound(limit)
    {
      assert outputs[..i + 1][..i] == outputs[..i];
      if outputs[i].address == a {
        out := out + [Transaction(unit, d.units[unit].authors[0], a, outputs[i].amount)];
        if |out| >= limit {
          ReceivedPrefix(d, unit, outputs, i + 1, a);
          return true, out;
        }
      }
    }
    assert outputs[..|outputs|] == outputs;
    full := false;
  }

  /** A limit of zero stops after the first transaction, like a limit of one. */
  function Bound(limit: nat): nat { if limit == 0 then 1 else limit }

  lemma {:induction false} ReceivedPrefix(d: Dag, u: Hash, outputs: seq<Output>, n: nat, a: Address)
    requires u in d.units && d.units[u].authors != [] && n <= |outputs|
    ensures ReceivedIn(d, u, outputs[..n], a) <= ReceivedIn(d, u, outputs, a)
    decreases |outputs| - n
  {
    if n < |outputs| {
      assert outputs[..n + 1][..n] == outputs[..n];
      ReceivedPrefix(d, u, outputs, n + 1, a);
    } else {
      assert outputs[..n] == outputs;
    }
  }

  lemma {:induction false} SentPrefix(u: Hash, outputs: seq<Output>, n: nat, a: Address)
    requires n <= |outputs|
    ensures SentIn(u, outputs[..n], a) <= SentIn(u, outputs, a)
    decreases |outputs| - n
  {
    if n < |outputs| {
      assert outputs[..n + 1][..n] == outputs[..n];
      SentPrefix(u, outputs, n + 1, a);
    } else {
      assert outputs[..n] == outputs;
    }
  }

  method GetSentTx(d: Dag, unit: Hash, a: Address, limit: nat, txs: seq<Transaction>)
    returns (full: bool, out: seq<Transaction>)
    requires unit in d.units && |txs| < Bound(limit)
    ensures full <==> |txs + SentIn(unit, d.units[unit].outputs, a)| >= Bound(limit)
    ensures out == Take(txs + SentIn(unit, d.units[unit].outputs, a), Bound(limit))
  {
    var outputs := d.units[unit].outputs;
    out := txs;
    for i := 0 to |outputs|
      invariant out == txs + SentIn(unit, outputs[..i], a) && |out| < Bound(limit)
    {
      assert outputs[..i + 1][..i] == outputs[..i];
      if outputs[i].address == a {
        continue;
      }
      out := out + [Transaction(unit, a, outputs[i].address, outputs[i].amount)];
      if |out| >= limit {
        SentPrefix(unit, outputs, i + 1, a);
        return true, out;
      }
    }
    assert outputs[..|outputs|] == outputs;
    full := false;
  }

  /** Append the payments to `a` of all `units`. */
  method GetReceivedFrom(d: Dag, units: seq<Hash>, a: Address, limit: nat, txs: seq<Transaction>)
    returns (full: bool, out: seq<Transaction>)
    requires (forall u :: u in units ==> u in d.units && d.units[u].authors != []) && |txs| < Bound(limit)
    ensures full <==> |txs + ReceivedFrom(d, units, a)| >= Bound(limit)
    ensures out == Take(txs + ReceivedFrom(d, units, a), Bound(limit))
  {
    hide ReceivedFrom; hide ReceivedIn; hide Take;
    out := txs;
    ReceivedFromNone(d, units, txs, a);
    for i := 0 to |units|
      invariant forall u :: u in units[..i] ==> u in units
      invariant out == txs + ReceivedFrom(d, units[..i], a) && |out| < Bound(limit)
    {
      ReceivedFromStep(d, units, i, txs, a);
      full, out := GetReceiveTx(d, units[i], a, limit, out);
      ReceivedFromPrefix(d, units, i + 1, a);
      TakeWhole(txs, ReceivedFrom(d, units[..i + 1], a), ReceivedFrom(d, units, a), Bound(limit));
      if full {
        return;
      }
    }
    assert units[..|units|] == units;
    TakeFirst(out, [], Bound(limit));
    full := false;
  }

  lemma ReceivedFromNone(d: Dag, units: seq<Hash>, txs: seq<Transaction>, a: Address)
    ensures forall u :: u in units[..0] ==> u in units
    ensures txs == txs + ReceivedFrom(d, units[..0], a)
  {
  }

  lemma ReceivedFromStep(d: Dag, units: seq<Hash>, i: nat, txs: seq<Transaction>, a: Address)
    requires (forall u :: u in units ==> u in d.units && d.units[u].authors != []) && i < |units|
    ensures units[i] in d.units && d.units[units[i]].authors != []
    ensures forall u :: u in units[..i] || u in units[..i + 1] ==> u in units
    ensures txs + ReceivedFrom(d, units[..i], a) + ReceivedIn(d, units[i], d.units[units[i]].outputs, a) ==
      txs + ReceivedFrom(d, units[..i + 1], a)
  {
    assert units[..i + 1][..i] == units[..i] && units[i] in units;
    var before, more := ReceivedFrom(d, units[..i], a), ReceivedIn(d, units[i], d.units[units[i]].outputs, a);
    assert ReceivedFrom(d, units[..i + 1], a) == before + more;
    assert txs + before + more == txs + (before + more);
  }

  /** Enough entries of a prefix are the first entries of the whole. */
  lemma TakeWhole<T>(s: seq<T>, t: seq<T>, whole: seq<T>, n: nat)
    requires t <= whole
    ensures |s + t| >= n ==> Take(s + t, n) == Take(s + whole, n) && |s + whole| >= n
    ensures |s + t| < n ==> Take(s + t, n) == s + t
  {
    assert whole == t + whole[|t|..];
  }

  lemma {:induction false} ReceivedFromPrefix(d: Dag, units: seq<Hash>, n: nat, a: Address)
    requires (forall u :: u in units ==> u in d.units && d.units[u].authors != []) && n <= |units|
    ensures forall u :: u in units[..n] ==> u in units
    ensures ReceivedFrom(d, units[..n], a) <= ReceivedFrom(d, units, a)
    decreases |units| - n
  {
    if n < |units| {
      assert units[..n + 1][..n] == units[..n];
      ReceivedFromPrefix(d, units, n + 1, a);
    } else {
      assert units[..n] == units;
    }
  }

  /** What is left to list from own unit `next` on. */
  ghost function Remaining(d: Dag, l: Ledger, a: Address, next: Option<Hash>): seq<Transaction>
    requires WalkOk(d, l) && (next.Some? ==> next.value in l.good && Payer(d, next.value) == Some(a))
  {
    if next.Some? then HistoryFrom(d, l, a, next.value) else []
  }

  lemma TakeFirst<T>(s: seq<T>, t: seq<T>, n: nat)
    ensures |s| >= n ==> Take(s + t, n) == Take(s, n)
    ensures |s| < n ==> Take(s, n) == s
  {
  }

  /** List own unit `u` and what it was related to, on top of what has been listed. */
  method ListOwnUnit(d: Dag, l: Ledger, a: Address, u: Hash, limit: nat, txs: seq<Transaction>)
    returns (full: bool, out: seq<Transaction>)
    requires WalkOk(d, l) && u in l.good && Payer(d, u) == Some(a) && |txs| < Bound(limit)
    requires u in d.units && u in l.relatedUnits
    requires forall v :: v in l.relatedUnits[u] ==> v in d.units && d.units[v].authors != []
    ensures var added := SentIn(u, d.units[u].outputs, a) + ReceivedFrom(d, l.relatedUnits[u], a);
      (full <==> |txs + added| >= Bound(limit)) && out == Take(txs + added, Bound(limit))
  {
    hide WalkOk; hide ReceivedFrom; hide SentIn; hide Take;
    ghost var sent, received := SentIn(u, d.units[u].outputs, a), ReceivedFrom(d, l.relatedUnits[u], a);
    assert txs + (sent + received) == (txs + sent) + received;
    full, out := GetSentTx(d, u, a, limit, txs);
    TakeFirst(txs + sent, received, Bound(limit));
    if !full {
      full, out := GetReceivedFrom(d, l.relatedUnits[u], a, limit, out);
    }
  }

  /** What the own units of `a` contribute to its history. */
  ghost function OwnPart(d: Dag, l: Ledger, a: Address): seq<Transaction>
    requires WalkOk(d, l)
  {
    if a in l.lastSelf then HistoryFrom(d, l, a, l.lastSelf[a]) else []
  }

  /** The related units read from the index as it was at `first`, the rest from the index at `later`. */
  ghost function Mixed(d: Dag, first: Ledger, later: Ledger, a: Address): seq<Transaction>
    requires WalkOk(d, first) && WalkOk(d, later)
  {
    ReceivedFrom(d, Listed(first.related, a), a) + OwnPart(d, later, a)
  }

  /**
   * get_stable_history. The related units and the last own unit are read under separate locks,
   * so units may be applied between the two reads.
   */
  method GetStableHistory(d: Dag, first: Ledger, l: Ledger, a: Address, limit: nat) returns (txs: seq<Transaction>)
    requires WalkOk(d, first) && WalkOk(d, l)
    ensures txs == Take(Mixed(d, first, l, a), Bound(limit))
  {
    hide WalkOk; hide FullHistory; hide HistoryFrom; hide ReceivedFrom; hide SentIn; hide RefsOk; hide Position;
    hide Take; hide Listed; hide Mixed;
    WalkFacts(d, first);
    WalkFacts(d, l);
    ghost var all := Mixed(d, first, l, a);
    MixedParts(d, first, l, a);
    var full;
    full, txs := GetReceivedFrom(d, Listed(first.related, a), a, limit, []);
    var next := if a in l.lastSelf then Some(l.lastSelf[a]) else None;
    HistoryStart(d, l, a, next);
    ghost var received := ReceivedFrom(d, Listed(first.related, a), a);
    assert [] + received == received;
    TakeFirst(received, Remaining(d, l, a, next), Bound(limit));
    if full {
      return;
    }
    while next.Some?
      invariant next.Some? ==> next.value in l.good && Payer(d, next.value) == Some(a)
      invariant all == txs + Remaining(d, l, a, next) && |txs| < Bound(limit)
      decreases next.Some?, if next.Some? then Position(l.good, next.value) else 0
    {
      var u := next.value;
      Unroll(d, l, a, u);
      WalkDown(d, l, a, u);
      ghost var before := txs;
      ghost var added := SentIn(u, d.units[u].outputs, a) + ReceivedFrom(d, l.relatedUnits[u], a);
      full, txs := ListOwnUnit(d, l, a, u, limit, txs);
      next := if u in l.prevSelf then Some(l.prevSelf[u]) else None;
      assert (before + added) + Remaining(d, l, a, next) == before + (added + Remaining(d, l, a, next));
      TakeFirst(before + added, Remaining(d, l, a, next), Bound(limit));
      if full {
        return;
      }
    }
    TakeFirst(txs, [], Bound(limit));
    assert txs + [] == txs;
  }

  /**
   * Read at one moment the list is the full history; otherwise it is that of the later moment
   * exactly when the related units account for the same transactions in both.
   */
  lemma MixedExactly(d: Dag, first: Ledger, l: Ledger, a: Address)
    requires WalkOk(d, first) && WalkOk(d, l)
    ensures forall v :: v in Listed(l.related, a) ==> v in d.units && d.units[v].authors != []
    ensures Mixed(d, first, l, a) == FullHistory(d, l, a) <==>
      ReceivedFrom(d, Listed(first.related, a), a) == ReceivedFrom(d, Listed(l.related, a), a)
    ensures first == l ==> Mixed(d, first, l, a) == FullHistory(d, l, a)
  {
    WalkFacts(d, l);
    hide WalkOk; hide HistoryFrom; hide ReceivedFrom;
    var before, now := ReceivedFrom(d, Listed(first.related, a), a), ReceivedFrom(d, Listed(l.related, a), a);
    SameSuffix(before, now, OwnPart(d, l, a));
  }

  lemma SameSuffix<T>(a: seq<T>, b: seq<T>, c: seq<T>)
    ensures a + c == b + c <==> a == b
  {
    if a + c == b + c {
      assert |a| == |b|;
      assert a == (a + c)[..|a|] && b == (b + c)[..|b|];
    }
  }

  /** Units of others applied between the reads do not show: the list is the history at the first read. */
  lemma MixedByOthers(d: Dag, first: Ledger, l: Ledger, l': Ledger, u: Hash, a: Address)
    requires WalkOk(d, first) && WalkOk(d, l) && WalkOk(d, l') && Follows(d, l, l', u) && Payer(d, u) != Some(a)
    ensures Mixed(d, first, l', a) == Mixed(d, first, l, a)
  {
    WalkFacts(d, l);
    hide WalkOk; hide HistoryFrom; hide ReceivedFrom; hide Relate;
    if a in l.lastSelf { HistoryFrame(d, l, l', u, a, l.lastSelf[a]); }
  }

  /** An own unit applied right between the reads makes the related units appear twice. */
  lemma MixedByOwn(d: Dag, l: Ledger, l': Ledger, u: Hash, a: Address)
    requires WalkOk(d, l) && WalkOk(d, l') && Follows(d, l, l', u) && Payer(d, u) == Some(a)
    ensures forall v :: v in Listed(l.related, a) ==> v in d.units && d.units[v].authors != []
    ensures var received := ReceivedFrom(d, Listed(l.related, a), a);
      Mixed(d, l, l', a) == received + (SentIn(u, d.units[u].outputs, a) + (received + OwnPart(d, l, a)))
  {
    hide *;
    OwnPayerKnown(d, l, l', u, a);
    FullParts(d, l, a);
    FullParts(d, l', a);
    GrowsByOwn(d, l, l', u, a);
    OwnRelated(d, l, l', u, a);
    NoneReceived(d, a);
    MixedParts(d, l, l', a);
    assert [] + OwnPart(d, l', a) == OwnPart(d, l', a);
  }

  lemma OwnPayerKnown(d: Dag, l: Ledger, l': Ledger, u: Hash, a: Address)
    requires Follows(d, l, l', u)
    ensures u in d.units && d.units[u].authors != []
  {
  }

  lemma FullParts(d: Dag, l: Ledger, a: Address)
    requires WalkOk(d, l)
    ensures forall v :: v in Listed(l.related, a) ==> v in d.units && d.units[v].authors != []
    ensures FullHistory(d, l, a) == ReceivedFrom(d, Listed(l.related, a), a) + OwnPart(d, l, a)
  {
    hide Listed; hide HistoryFrom; hide ReceivedFrom;
    WalkFacts(d, l);
  }

  lemma MixedParts(d: Dag, first: Ledger, l: Ledger, a: Address)
    requires WalkOk(d, first) && WalkOk(d, l)
    ensures forall v :: v in Listed(first.related, a) ==> v in d.units && d.units[v].authors != []
    ensures Mixed(d, first, l, a) == ReceivedFrom(d, Listed(first.related, a), a) + OwnPart(d, l, a)
  {
    hide Listed; hide OwnPart; hide ReceivedFrom;
    WalkFacts(d, first);
  }

  lemma HistoryStart(d: Dag, l: Ledger, a: Address, next: Option<Hash>)
    requires WalkOk(d, l) && next == (if a in l.lastSelf then Some(l.lastSelf[a]) else None)
    ensures forall v :: v in Listed(l.related, a) ==> v in d.units && d.units[v].authors != []
    ensures next.Some? ==> next.value in l.good && Payer(d, next.value) == Some(a)
    ensures FullHistory(d, l, a) == ReceivedFrom(d, Listed(l.related, a), a) + Remaining(d, l, a, next)
  {
  }

  lemma WalkDown(d: Dag, l: Ledger, a: Address, u: Hash)
    requires WalkOk(d, l) && u in l.good && Payer(d, u) == Some(a)
    ensures u in l.prevSelf ==> Position(l.good, l.prevSelf[u]) < Position(l.good, u)
  {
  }
}
