/**
 * Two nodes with the same stable units that give different verdicts. A payment posted to the
 * first node fails and leaves the record of its author behind, so the author's next payment
 * is marked final bad there; the second node has never seen the failed one.
 */
module LocalMark {
  import opened Collections
  import opened Dag
  import opened Ledger
  import opened LedgerRun
  import opened Pipeline
  import opened Nodes
  import A = Admission

  const WITNESSES: seq<Address> := [0, 1, 2, 3, 4, 5, 6]
  const ALICE: Address := 7
  const BOB: Address := 8

  const NO_INPUT: Input := Input(None, None, None, None, None, None, None, None, None)
  const ISSUE: Input :=
    NO_INPUT.(kind := Some("issue"), address := Some(0), amount := Some(TOTAL_WHITEBYTES), serialNumber := Some(1))
  const SPEND: Input := NO_INPUT.(unit := Some(0), messageIndex := Some(0), outputIndex := Some(0))

  function Payment(parents: seq<Hash>, authors: seq<Address>, inputs: seq<Input>, outputs: seq<Output>): Unit
  {
    Unit(parents, authors, if parents == [] then None else Some(0), false, 0, 0, 0, inputs, outputs)
  }

  /** Genesis 0 pays everything to ALICE; 1 is her failing payment, 2 her next one, to BOB. */
  const UNITS: Dag := Dag(
    map[0 := Payment([], WITNESSES, [ISSUE], [Output(ALICE, TOTAL_WHITEBYTES)]),
        1 := Payment([0], [ALICE], [], [Output(BOB, 1)]),
        2 := Payment([0], [ALICE], [SPEND], [Output(BOB, TOTAL_WHITEBYTES)])],
    set a | a in WITNESSES, {ALICE, BOB})

  const ORDER: seq<Hash> := [0, 2]
  const AT: map<Hash, UtxoData> := map[0 := UtxoData(0, 0), 2 := UtxoData(1, 0)]

  lemma UnitsWellFormed()
    ensures WellFormed(UNITS)
  {
    assert RankOk(UNITS, map[0 := 0, 1 := 1, 2 := 1]);
    assert Signers(UNITS, 0) == Elements(WITNESSES);
    DistinctSize(WITNESSES);
    assert forall u :: IsGenesis(UNITS, u) ==> u == 0;
  }

  lemma UnitsFine()
    ensures WellFormed(UNITS) && AuthorsOk(UNITS) && OrderOk(UNITS, AT, ORDER) && A.UnitsOk(UNITS)
  {
    UnitsWellFormed();
    hide WellFormed;
  }

  lemma Shape()
    ensures |ORDER| == 2 && ORDER[0] == 0 && ORDER[1] == 2 && 0 in AT && 2 in AT
    ensures 0 in UNITS.units && 2 in UNITS.units && UNITS.units[0].authors != []
    ensures EMPTY.live == map[] && EMPTY.lastSelf == map[] && EMPTY.good == []
    ensures Payer(UNITS, 0) == None
  {
  }

  // ---------------------------------------------------------------- replay without marks accepts both

  lemma GenesisAccepted()
    ensures OrderOk(UNITS, AT, ORDER) && Verdict(UNITS, {}, AT, ORDER, 0)
  {
    UnitsFine();
    assert ORDER[..0] == [];
    var outputs, inputs := UNITS.units[0].outputs, UNITS.units[0].inputs;
    assert InputOk(UNITS, map[], {}, UNITS.units.Keys, 0, 0, inputs[0]);
    assert inputs[..0] == [] && outputs[..0] == [];
    assert SumInputs(UNITS, inputs) == TOTAL_WHITEBYTES && SumOutputs(outputs) == TOTAL_WHITEBYTES;
    assert PaymentOk(UNITS, EMPTY.live, GoodSet(EMPTY), UNITS.units.Keys, 0);
  }

  lemma AfterGenesis()
    ensures OrderOk(UNITS, AT, ORDER[..1])
    ensures var l := Replay(UNITS, {}, AT, ORDER[..1]);
      && l.good == [0] && l.lastSelf == map[]
      && UtxoKey(0, 0, 0, TOTAL_WHITEBYTES) in l.live && l.live[UtxoKey(0, 0, 0, TOTAL_WHITEBYTES)].owner == ALICE
  {
    hide *;
    Shape();
    UnitsFine();
    GenesisAccepted();
    ReplayOneMore(UNITS, {}, AT, ORDER, 0);
    EmptyReplay(UNITS, {}, AT, ORDER[..0]);
    AcceptedCanApply(UNITS, {}, EMPTY, 0, AT[0]);
    AppliedIndex(UNITS, EMPTY, 0, AT[0]);
    GenesisCreates(AT[0]);
  }

  lemma GenesisCreates(data: UtxoData)
    ensures var inputs := UNITS.units[0].inputs;
      && Spend(UNITS, map[], inputs) == Some(map[])
      && Create(UNITS, map[], 0, |UNITS.units[0].outputs|, data) ==
           map[UtxoKey(0, 0, 0, TOTAL_WHITEBYTES) := Entry(ALICE, data)]
  {
    var inputs := UNITS.units[0].inputs;
    assert inputs[..0] == [];
    assert Key(UNITS, 0, 0) == UtxoKey(0, 0, 0, TOTAL_WHITEBYTES);
    assert Create(UNITS, map[], 0, 0, data) == map[];
  }

  lemma PaymentAccepted()
    ensures OrderOk(UNITS, AT, ORDER) && Verdict(UNITS, {}, AT, ORDER, 1)
  {
    hide *;
    Shape();
    UnitsFine();
    AfterGenesis();
    PrefixOrderOk(UNITS, AT, ORDER, 1);
    VerdictFacts(UNITS, {}, AT, ORDER, 1);
    PaymentIsAccepted(Replay(UNITS, {}, AT, ORDER[..1]));
  }

  lemma PaymentIsAccepted(l: Ledger)
    requires WellFormed(UNITS) && l.good == [0] && l.lastSelf == map[]
    requires UtxoKey(0, 0, 0, TOTAL_WHITEBYTES) in l.live && l.live[UtxoKey(0, 0, 0, TOTAL_WHITEBYTES)].owner == ALICE
    ensures Accepts(UNITS, {}, l, UNITS.units.Keys, 2)
  {
    hide WellFormed; hide PaymentOk; hide Lt;
    assert GoodSet(l) == {0};
    PaymentFine(l.live);
    assert !UNITS.units[2].contentHash && IncludesLastSelf(UNITS, l, 2);
  }

  lemma PaymentFine(live: Live)
    requires UtxoKey(0, 0, 0, TOTAL_WHITEBYTES) in live && live[UtxoKey(0, 0, 0, TOTAL_WHITEBYTES)].owner == ALICE
    ensures PaymentOk(UNITS, live, {0}, UNITS.units.Keys, 2)
  {
    var outputs, inputs := UNITS.units[2].outputs, UNITS.units[2].inputs;
    assert Source(UNITS, SPEND) == Some((UtxoKey(0, 0, 0, TOTAL_WHITEBYTES), ALICE));
    assert InputOk(UNITS, live, {0}, UNITS.units.Keys, 2, 0, inputs[0]);
    assert inputs[..0] == [] && outputs[..0] == [];
    assert SumInputs(UNITS, inputs) == TOTAL_WHITEBYTES && SumOutputs(outputs) == TOTAL_WHITEBYTES;
  }

  // ---------------------------------------------------------------- the two nodes

  const FRESH: A.Node := A.Node({0}, {}, {}, map[], map[0 := A.Good])

  /** The first node: 1 is posted and fails; then 2 comes by broadcast. */
  const FIRST: seq<A.Step> :=
    [A.Arrive(1), A.Judge(1, A.Fails), A.Finish(1, true), A.Arrive(2), A.Judge(2, A.Passes), A.Finish(2, false)]

  /** The second node only ever sees 2. */
  const SECOND: seq<A.Step> := [A.Arrive(2), A.Judge(2, A.Passes), A.Finish(2, false)]

  ghost function End(n: A.Node, steps: seq<A.Step>): Option<A.Node>
    requires A.UnitsOk(UNITS)
    decreases |steps|
  {
    if steps == [] then Some(n)
    else if A.Enabled(UNITS, n, steps[0]) then End(A.Next(UNITS, n, steps[0]), steps[1..])
    else None
  }

  lemma EndStep(n: A.Node, steps: seq<A.Step>)
    requires A.UnitsOk(UNITS) && steps != [] && A.Enabled(UNITS, n, steps[0])
    ensures End(n, steps) == End(A.Next(UNITS, n, steps[0]), steps[1..])
  {
  }

  lemma EndConcat(n: A.Node, steps: seq<A.Step>, more: seq<A.Step>)
    requires A.UnitsOk(UNITS) && End(n, steps).Some?
    ensures End(n, steps + more) == End(End(n, steps).value, more)
    decreases |steps|
  {
    if steps == [] {
      assert steps + more == more;
    } else {
      assert (steps + more)[1..] == steps[1..] + more;
      EndConcat(A.Next(UNITS, n, steps[0]), steps[1..], more);
    }
  }

  /** What the failed payment leaves behind. */
  const STALE: A.Node := A.Node({0}, {}, {1}, map[ALICE := 1], map[0 := A.Good, 1 := A.TempBad])

  lemma FirstRejects()
    ensures A.UnitsOk(UNITS) && End(FRESH, FIRST[..3]) == Some(STALE)
  {
    UnitsFine();
    hide A.UnitsOk;
    var s := FIRST[..3];
    var n1 := A.Next(UNITS, FRESH, s[0]);
    EndStep(FRESH, s);
    var n2 := A.Next(UNITS, n1, s[1]);
    EndStep(n1, s[1..]);
    EndStep(n2, s[1..][1..]);
    assert A.Next(UNITS, n2, s[2]) == STALE;
    assert s[1..][1..][1..] == [];
  }

  lemma FirstMarks()
    ensures A.UnitsOk(UNITS) && End(FRESH, FIRST).Some?
    ensures var n := End(FRESH, FIRST).value; 2 in n.normal && 2 in n.sequence && n.sequence[2] == A.FinalBad
  {
    FirstRejects();
    hide A.UnitsOk;
    var s := FIRST[3..];
    assert FIRST == FIRST[..3] + s;
    EndConcat(FRESH, FIRST[..3], s);
    var n1 := A.Next(UNITS, STALE, s[0]);
    EndStep(STALE, s);
    var n2 := A.Next(UNITS, n1, s[1]);
    EndStep(n1, s[1..]);
    EndStep(n2, s[1..][1..]);
    assert s[1..][1..][1..] == [];
  }

  lemma SecondDoesNot()
    ensures A.UnitsOk(UNITS) && End(FRESH, SECOND).Some?
    ensures var n := End(FRESH, SECOND).value; 2 in n.normal && 2 in n.sequence && n.sequence[2] == A.Good
  {
    UnitsFine();
    var n1 := A.Next(UNITS, FRESH, SECOND[0]);
    var n2 := A.Next(UNITS, n1, SECOND[1]);
    var n3 := A.Next(UNITS, n2, SECOND[2]);
    assert SECOND[2..][1..] == [] && SECOND[1..][1..] == SECOND[2..];
    assert End(n2, SECOND[2..]) == Some(n3);
    assert End(n1, SECOND[1..]) == Some(n3);
  }

  /**
   * Both nodes hold 2 as a normal unit, the first one marked final bad and the second one
   * good. Their replays of the same order with these marks part at 2.
   */
  lemma NodesPart()
    ensures A.UnitsOk(UNITS) && End(FRESH, FIRST).Some? && End(FRESH, SECOND).Some?
    ensures var one, two := End(FRESH, FIRST).value, End(FRESH, SECOND).value;
      && 2 in one.normal && 2 in two.normal && 2 in one.sequence && 2 in two.sequence
      && one.sequence[2] == A.FinalBad && two.sequence[2] == A.Good
    ensures OrderOk(UNITS, AT, ORDER)
    ensures !Verdict(UNITS, {2}, AT, ORDER, 1) && Verdict(UNITS, {}, AT, ORDER, 1)
    ensures !AgreeTo(UNITS, {2}, UNITS, {}, AT, ORDER, 2)
  {
    FirstMarks();
    SecondDoesNot();
    PaymentAccepted();
    MarkedIsRejected(UNITS, {2}, AT, ORDER, 1);
    hide Verdict; hide OrderOk; hide End;
  }
}
