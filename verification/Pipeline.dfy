/**
 * The main chain, business and finalization workers, joined by FIFO channels, and the
 * admission of new units: every interleaving of their steps.
 */
module Pipeline {
  import opened Dag
  import opened StaticProps
  import opened MainChain
  import opened Marking
  import opened GO = GlobalOrder
  import opened Ledger
  import opened LedgerRun
  import opened Finalization

  /**
   * What is fixed over one run: the units, the index at its end, and the order in which
   * that index has been written. Numbers are written once, so a worker that reads the
   * number of a unit already pushed reads the one of `fin`.
   */
  datatype Run = Run(d: Dag, st: Statics, fin: Marks, order: seq<Hash>)

  ghost predicate RunOk(r: Run)
  {
    Indexed(r.d, r.st, r.fin) && ChannelOk(r.st, r.fin.mci, r.order) && AuthorsOk(r.d)
  }

  /** `marked` are the units whose sequence was set to final bad when they were admitted. */
  datatype State = State(
    admitted: set<Hash>,
    marked: set<Hash>,
    pushed: nat,
    recorded: nat,
    handled: nat,
    ledger: Ledger,
    verdicts: map<Hash, bool>,
    finalised: nat,
    stable: set<Hash>,
    balls: map<Hash, Ball>,
    lastStable: Option<Hash>)

  const START: State := State({}, {}, 0, 0, 0, EMPTY, map[], 0, {}, map[], None)

  ghost function Positions(r: Run): map<Hash, UtxoData>
    requires RunOk(r)
  {
    map u | u in r.fin.mci :: UtxoData(r.fin.mci[u], r.fin.sub[u])
  }

  // ---------------------------------------------------------------- steps

  /** Transfer inputs of a unit that carries messages. */
  ghost predicate Spends(d: Dag, u: Hash, v: Hash)
    requires u in d.units
  {
    !d.units[u].contentHash &&
    exists i :: 0 <= i < |d.units[u].inputs| && IsTransfer(d.units[u].inputs[i]) && d.units[u].inputs[i].unit == Some(v)
  }

  /**
   * Admission of `u` to the normal units: its parents are there, its last ball has been
   * waited for until stable, and everything it spends lies under that last ball. Whether it
   * is marked final bad depends on the unstable units the node has seen.
   */
  ghost predicate Admit(r: Run, s: State, s': State, u: Hash, finalBad: bool)
    requires RunOk(r)
  {
    && u in r.d.units && u !in s.admitted && (forall p :: p in r.d.units[u].parents ==> p in s.admitted)
    && (!IsGenesis(r.d, u) ==>
         && r.d.units[u].lastBall.Some? && r.d.units[u].lastBall.value in s.stable
         && forall v :: Spends(r.d, u, v) ==> Le(r.d, v, r.d.units[u].lastBall.value))
    && s' == s.(admitted := s.admitted + {u}, marked := if finalBad then s.marked + {u} else s.marked)
  }

  /** The main chain worker numbers and pushes the next unit of the batch it is working on. */
  ghost predicate Push(r: Run, s: State, s': State)
  {
    && s.pushed < |r.order| && r.order[s.pushed] in s.admitted
    && r.order[s.pushed] in r.fin.mci && r.fin.mci[r.order[s.pushed]] == s.recorded
    && s' == s.(pushed := s.pushed + 1)
  }

  /** After the last push of a batch the main-chain unit is recorded under its index. */
  ghost predicate Record(r: Run, s: State, s': State)
  {
    && s.recorded < |r.fin.chain|
    && (s.pushed < |r.order| ==> r.order[s.pushed] in r.fin.mci && r.fin.mci[r.order[s.pushed]] != s.recorded)
    && (exists i :: 0 <= i < s.pushed && i < |r.order| && r.order[i] == r.fin.chain[s.recorded])
    && s' == s.(recorded := s.recorded + 1)
  }

  /** The business worker validates the next unit against the present stable flags and applies it. */
  ghost predicate Handle(r: Run, s: State, s': State)
    requires RunOk(r)
  {
    && s.handled < s.pushed <= |r.order|
    && var u := r.order[s.handled];
       && u in r.d.units && u in Positions(r)
       && var good := Accepts(r.d, s.marked, s.ledger, s.stable, u);
          && (good ==> CanApply(r.d, s.ledger, u))
          && s' == s.(handled := s.handled + 1, verdicts := s.verdicts[u := good],
                      ledger := if good then Apply(r.d, s.ledger, u, Positions(r)[u]) else s.ledger)
  }

  /** The skip list targets of `u`: main-chain units only. */
  ghost predicate Skips(r: Run, u: Hash, targets: seq<nat>)
  {
    if OnMainChain(r.fin.mci, r.fin.limci, u) then IsSimilar(r.fin.mci[u], targets) else targets == []
  }

  ghost function BallsOf(balls: map<Hash, Ball>, units: seq<Hash>): multiset<Ball>
    requires forall u :: u in units ==> u in balls
  {
    if units == [] then multiset{} else BallsOf(balls, units[..|units| - 1]) + multiset{balls[units[|units| - 1]]}
  }

  ghost function Lookup(chain: seq<Hash>, targets: seq<nat>): seq<Hash>
    requires forall i :: 0 <= i < |targets| ==> targets[i] < |chain|
  {
    seq(|targets|, i requires 0 <= i < |targets| => chain[targets[i]])
  }

  /** Everything finalize_joint looks up is there: recorded main-chain units and balls. */
  ghost predicate CanFinalize(r: Run, s: State, u: Hash, targets: seq<nat>)
    requires u in r.d.units
  {
    && s.recorded <= |r.fin.chain|
    && (forall i :: 0 <= i < |targets| ==> targets[i] < s.recorded)
    && (forall p :: p in r.d.units[u].parents ==> p in s.balls)
    && (forall i :: 0 <= i < |targets| ==> r.fin.chain[targets[i]] in s.balls)
  }

  /** The finalization worker: compute the ball and fire the stable flag; on an error the unit is skipped. */
  ghost predicate Finalize(r: Run, s: State, s': State, targets: seq<nat>)
  {
    && s.finalised < s.handled <= |r.order|
    && var u := r.order[s.finalised];
       && u in r.d.units && u in s.verdicts && Skips(r, u, targets)
       && if CanFinalize(r, s, u, targets) then
            var skiplist := Lookup(r.fin.chain, targets);
            assert forall x :: x in skiplist ==> x in s.balls;
            var ball := Ball(u, BallsOf(s.balls, r.d.units[u].parents), BallsOf(s.balls, skiplist), !s.verdicts[u]);
            s' == s.(finalised := s.finalised + 1, balls := s.balls[u := ball], stable := s.stable + {u},
                     lastStable := if OnMainChain(r.fin.mci, r.fin.limci, u) then Some(u) else s.lastStable)
          else
            s' == s.(finalised := s.finalised + 1)
  }

  datatype Step = DoAdmit(u: Hash, finalBad: bool) | DoPush | DoRecord | DoHandle | DoFinalize(targets: seq<nat>)

  ghost predicate Next(r: Run, s: State, s': State, step: Step)
    requires RunOk(r)
  {
    match step
    case DoAdmit(u, finalBad) => Admit(r, s, s', u, finalBad)
    case DoPush => Push(r, s, s')
    case DoRecord => Record(r, s, s')
    case DoHandle => Handle(r, s, s')
    case DoFinalize(targets) => Finalize(r, s, s', targets)
  }

  /** A run of the workers: any sequence of steps from the start. */
  ghost predicate Reaches(r: Run, steps: seq<Step>, states: seq<State>)
    requires RunOk(r)
  {
    && |states| == |steps| + 1 && states[0] == START
    && forall i, j :: 0 <= i && j == i + 1 && j < |states| ==> Next(r, states[i], states[j], steps[i])
  }

  // ---------------------------------------------------------------- the order

  lemma RunOrder(r: Run)
    requires RunOk(r)
    ensures OrderOk(r.d, Positions(r), r.order)
    ensures InOrder(r.fin, r.order)
    ensures forall u :: u in r.order <==> u in r.fin.mci
  {
    ChannelInOrder(r.d, r.st, r.fin, r.order);
    IndexShape(r.d, r.st, r.fin);
    forall i, j | 0 <= i < j < |r.order| ensures r.order[i] != r.order[j] {
      assert PairLess(r.fin, r.order[i], r.order[j]);
    }
    forall i | 0 < i < |r.order| ensures !IsGenesis(r.d, r.order[i]) {
      GenesisFirst(r, i);
    }
  }

  lemma GenesisFirst(r: Run, i: nat)
    requires RunOk(r) && InOrder(r.fin, r.order) && 0 < i < |r.order|
    ensures !IsGenesis(r.d, r.order[i])
  {
    IndexShape(r.d, r.st, r.fin);
    var first := r.order[0];
    assert first in r.fin.mci && PairLess(r.fin, r.order[0], r.order[i]);
    var g := GenesisBelow(r.d, first);
    if IsGenesis(r.d, r.order[i]) {
      assert g == r.order[i];
      ParentsComeFirst(r.d, r.st, r.fin, r.order, i, 0);
    }
  }

  /** Every ancestor of the unit at position `j` comes before it. */
  lemma AncestorsFirst(r: Run, j: nat, a: Hash)
    requires RunOk(r) && j < |r.order| && Lt(r.d, a, r.order[j])
    ensures a in r.order[..j]
  {
    RunOrder(r);
    assert r.order[j] in r.order;
    IndexMonotone(r.d, r.st, r.fin, a, r.order[j]);
    var i :| 0 <= i < |r.order| && r.order[i] == a;
    ParentsComeFirst(r.d, r.st, r.fin, r.order, i, j);
    assert r.order[..j][i] == a;
  }

  // ---------------------------------------------------------------- the invariant

  ghost predicate CountsOk(r: Run, s: State)
  {
    && s.finalised <= s.handled <= s.pushed <= |r.order| && s.recorded <= |r.fin.chain|
    && (forall i :: 0 <= i < s.pushed ==> r.order[i] in s.admitted)
    && (forall i :: 0 <= i < |r.order| ==> r.order[i] in r.fin.mci)
    && (forall i :: 0 <= i < s.pushed ==> r.fin.mci[r.order[i]] <= s.recorded)
    && (forall i :: s.pushed <= i < |r.order| ==> r.fin.mci[r.order[i]] >= s.recorded)
  }

  /** Everything an admitted unit spends is stable already. */
  ghost predicate AdmittedOk(r: Run, s: State)
  {
    && s.admitted <= r.d.units.Keys && s.marked <= s.admitted
    && (forall u, p :: u in s.admitted && p in r.d.units[u].parents ==> p in s.admitted)
    && (forall u, v :: u in s.admitted && !IsGenesis(r.d, u) && Spends(r.d, u, v) ==> v in s.stable)
  }

  /** The recorded verdict on the unit at position `i` is the one of sequential replay. */
  ghost predicate VerdictIs(r: Run, marked: set<Hash>, verdicts: map<Hash, bool>, i: nat)
    requires RunOk(r) && OrderOk(r.d, Positions(r), r.order) && i < |r.order|
  {
    r.order[i] in verdicts && (verdicts[r.order[i]] <==> Verdict(r.d, marked, Positions(r), r.order, i))
  }

  /** The business state is that of sequential replay of what has been handled. */
  ghost predicate BusinessOk(r: Run, s: State)
    requires RunOk(r)
  {
    && OrderOk(r.d, Positions(r), r.order) && s.handled <= |r.order|
    && OrderOk(r.d, Positions(r), r.order[..s.handled])
    && s.ledger == Replay(r.d, s.marked, Positions(r), r.order[..s.handled])
    && (forall u :: u in s.verdicts <==> u in r.order[..s.handled])
    && (forall i :: 0 <= i < s.handled ==> VerdictIs(r, s.marked, s.verdicts, i))
  }

  /** Units are finalised in order, each with a ball; the last stable joint is one of them. */
  ghost predicate FinalOk(r: Run, s: State)
  {
    && s.finalised <= |r.order|
    && (forall u :: u in s.stable <==> u in r.order[..s.finalised])
    && s.balls.Keys == s.stable
    && (s.lastStable.Some? ==>
         s.lastStable.value in s.stable && OnMainChain(r.fin.mci, r.fin.limci, s.lastStable.value))
  }

  ghost predicate Inv(r: Run, s: State)
    requires RunOk(r)
  {
    CountsOk(r, s) && AdmittedOk(r, s) && BusinessOk(r, s) && FinalOk(r, s)
  }

  lemma StartOk(r: Run)
    requires RunOk(r)
    ensures Inv(r, START)
  {
    hide RunOk; hide OrderOk; hide Positions; hide InOrder; hide Replay; hide VerdictIs;
    RunOrder(r);
    assert r.order[..0] == [];
    StartReplay(r);
    assert forall i :: 0 <= i < |r.order| ==> r.order[i] in r.order;
  }

  lemma StartReplay(r: Run)
    requires RunOk(r) && OrderOk(r.d, Positions(r), r.order)
    ensures OrderOk(r.d, Positions(r), r.order[..0]) && Replay(r.d, {}, Positions(r), r.order[..0]) == EMPTY
  {
    PrefixOrderOk(r.d, Positions(r), r.order, 0);
    EmptyReplay(r.d, {}, Positions(r), r.order[..0]);
  }

  /** The stable units hold all their ancestors. */
  lemma StableClosed(r: Run, s: State, a: Hash, u: Hash)
    requires RunOk(r) && FinalOk(r, s) && u in s.stable && Le(r.d, a, u)
    ensures a in s.stable
  {
    hide Indexed; hide Le; hide ChannelOk;
    assert u in r.order[..s.finalised];
    var j :| 0 <= j < s.finalised && r.order[j] == u;
    if a != u {
      AncestorsFirst(r, j, a);
      assert r.order[..j] <= r.order[..s.finalised];
    }
  }

  lemma AdmitKeeps(r: Run, s: State, s': State, u: Hash, finalBad: bool)
    requires RunOk(r) && Inv(r, s) && Admit(r, s, s', u, finalBad)
    ensures Inv(r, s')
  {
    hide RunOk; hide BusinessOk;
    assert u !in r.order[..s.handled];
    BusinessFrame(r, s, s');
    forall v | !IsGenesis(r.d, u) && Spends(r.d, u, v) ensures v in s.stable {
      StableClosed(r, s, v, r.d.units[u].lastBall.value);
    }
    hide Le; hide Spends;
  }

  lemma BusinessFrame(r: Run, s: State, s': State)
    requires RunOk(r) && BusinessOk(r, s)
    requires s'.handled == s.handled && s'.ledger == s.ledger && s'.verdicts == s.verdicts
    requires forall u :: u in r.order[..s.handled] ==> (u in s.marked <==> u in s'.marked)
    ensures BusinessOk(r, s')
  {
    hide RunOk; hide Replay; hide Verdict; hide OrderOk; hide Positions;
    ReplayFrame(r.d, s.marked, s'.marked, Positions(r), r.order[..s.handled]);
    forall i | 0 <= i < s.handled ensures VerdictIs(r, s'.marked, s.verdicts, i) {
      assert VerdictIs(r, s.marked, s.verdicts, i);
      assert forall u :: u in r.order[..i + 1] ==> u in r.order[..s.handled];
      VerdictFrame(r.d, s.marked, s'.marked, Positions(r), r.order, i);
    }
  }

  lemma PushKeeps(r: Run, s: State, s': State)
    requires RunOk(r) && Inv(r, s) && Push(r, s, s')
    ensures Inv(r, s')
  {
    hide RunOk; hide BusinessOk; hide Spends; hide IsGenesis;
    BusinessFrame(r, s, s');
  }

  lemma MciNondecreasing(r: Run, i: nat, j: nat)
    requires RunOk(r) && i < j < |r.order|
    ensures r.order[i] in r.fin.mci && r.order[j] in r.fin.mci && r.fin.mci[r.order[i]] <= r.fin.mci[r.order[j]]
  {
    RunOrder(r);
    hide RunOk;
    assert PairLess(r.fin, r.order[i], r.order[j]);
  }

  lemma RecordKeeps(r: Run, s: State, s': State)
    requires RunOk(r) && Inv(r, s) && Record(r, s, s')
    ensures Inv(r, s')
  {
    hide RunOk; hide BusinessOk; hide Spends; hide IsGenesis;
    BusinessFrame(r, s, s');
    forall i | s.pushed <= i < |r.order| ensures r.fin.mci[r.order[i]] >= s'.recorded {
      if s.pushed < i { MciNondecreasing(r, s.pushed, i); }
    }
  }

  /**
   * Whether an input's unit is stable never depends on how far finalization has come:
   * what an admitted unit spends is stable already.
   */
  lemma LagDoesNotMatter(d: Dag, marked: set<Hash>, l: Ledger, stable: set<Hash>, u: Hash)
    requires WellFormed(d) && u in d.units && LiveOk(d, l)
    requires stable <= d.units.Keys
    requires l.live == map[] || forall v :: Spends(d, u, v) ==> v in stable
    ensures Accepts(d, marked, l, stable, u) <==> Accepts(d, marked, l, d.units.Keys, u)
  {
    if !d.units[u].contentHash {
      var inputs := d.units[u].inputs;
      forall i | 0 <= i < |inputs|
        ensures InputOk(d, l.live, GoodSet(l), stable, u, i, inputs[i]) <==>
          InputOk(d, l.live, GoodSet(l), d.units.Keys, u, i, inputs[i])
      {
        if IsTransfer(inputs[i]) && inputs[i].unit.Some? && l.live != map[] {
          assert Spends(d, u, inputs[i].unit.value);
        }
      }
    }
  }

  /** When a unit's turn with the business worker comes, flags and sequential replay give one verdict. */
  lemma SameVerdict(r: Run, s: State)
    requires RunOk(r) && Inv(r, s) && s.handled < s.pushed
    ensures WellFormed(r.d) && r.order[s.handled] in r.d.units
    ensures Accepts(r.d, s.marked, s.ledger, s.stable, r.order[s.handled]) <==>
      Verdict(r.d, s.marked, Positions(r), r.order, s.handled)
  {
    var u := r.order[s.handled];
    hide Replay; hide Spends; hide Accepts; hide LedgerOk;
    LedgerFacts(r.d, s.ledger, 0);
    OrderFacts(r.d, Positions(r), r.order);
    PrefixOrderOk(r.d, Positions(r), r.order, s.handled);
    StableKnown(r, s);
    if IsGenesis(r.d, u) {
      GenesisIsFirst(r, s.handled);
      EmptyReplay(r.d, s.marked, Positions(r), r.order[..s.handled]);
    }
    LagDoesNotMatter(r.d, s.marked, s.ledger, s.stable, u);
  }

  lemma EmptyReplay(d: Dag, marked: set<Hash>, at: map<Hash, UtxoData>, order: seq<Hash>)
    requires OrderOk(d, at, order) && order == []
    ensures Replay(d, marked, at, order) == EMPTY
  {
  }

  lemma GenesisIsFirst(r: Run, i: nat)
    requires RunOk(r) && i < |r.order| && IsGenesis(r.d, r.order[i])
    ensures i == 0 && r.order[..i] == []
  {
    RunOrder(r);
    if i > 0 { GenesisFirst(r, i); }
  }

  lemma StableKnown(r: Run, s: State)
    requires RunOk(r) && FinalOk(r, s)
    ensures s.stable <= r.d.units.Keys
  {
    RunOrder(r);
    hide RunOk;
    assert forall u :: u in s.stable ==> u in r.order;
  }

  /** A unit the business worker accepts can be applied: the step never gets stuck on it. */
  lemma AcceptedNeverFails(r: Run, s: State)
    requires RunOk(r) && Inv(r, s) && s.handled < s.pushed
    requires WellFormed(r.d) && r.order[s.handled] in r.d.units
    requires Accepts(r.d, s.marked, s.ledger, s.stable, r.order[s.handled])
    ensures CanApply(r.d, s.ledger, r.order[s.handled])
    ensures r.order[s.handled] in Positions(r)
    ensures Apply(r.d, s.ledger, r.order[s.handled], Positions(r)[r.order[s.handled]])
      == Process(r.d, s.marked, s.ledger, r.order[s.handled], Positions(r)[r.order[s.handled]])
  {
    var at, n := Positions(r), s.handled;
    SameVerdict(r, s);
    NextPrefix(r, s);
    hide Replay; hide Accepts; hide LedgerOk; hide RunOk; hide Spends;
    assert r.order[n] in r.order;
    AcceptedCanApply(r.d, s.marked, s.ledger, r.order[n], at[r.order[n]]);
  }

  /** Sequential replay of one unit more. */
  lemma NextPrefix(r: Run, s: State)
    requires RunOk(r) && BusinessOk(r, s) && s.handled < |r.order|
    ensures var n := s.handled; var at := Positions(r);
      && WellFormed(r.d) && r.order[n] in r.d.units && r.order[n] in at
      && OrderOk(r.d, at, r.order[..n + 1])
      && LedgerOk(r.d, s.ledger) && InTurn(r.d, s.ledger, r.order[n])
      && Replay(r.d, s.marked, at, r.order[..n + 1]) == Process(r.d, s.marked, s.ledger, r.order[n], at[r.order[n]])
      && (Verdict(r.d, s.marked, at, r.order, n) <==> Accepts(r.d, s.marked, s.ledger, r.d.units.Keys, r.order[n]))
  {
    hide *;
    BusinessFacts(r, s);
    var n, at := s.handled, Positions(r);
    PrefixOrderOk(r.d, at, r.order, n + 1);
    PrefixOrderOk(r.d, at, r.order, n);
    OrderFacts(r.d, at, r.order);
    assert r.order[..n + 1][..n] == r.order[..n];
    ReplayStep(r.d, s.marked, at, r.order[..n + 1]);
    VerdictFacts(r.d, s.marked, at, r.order, n);
  }

  lemma BusinessFacts(r: Run, s: State)
    requires RunOk(r) && BusinessOk(r, s)
    ensures OrderOk(r.d, Positions(r), r.order) && s.handled <= |r.order|
    ensures OrderOk(r.d, Positions(r), r.order[..s.handled])
    ensures s.ledger == Replay(r.d, s.marked, Positions(r), r.order[..s.handled])
    ensures forall u :: u in s.verdicts <==> u in r.order[..s.handled]
    ensures forall i :: 0 <= i < s.handled ==> VerdictIs(r, s.marked, s.verdicts, i)
  {
    hide RunOk; hide OrderOk; hide Replay; hide VerdictIs;
  }

  lemma VerdictFacts(d: Dag, marked: set<Hash>, at: map<Hash, UtxoData>, order: seq<Hash>, i: nat)
    requires OrderOk(d, at, order) && i < |order| && OrderOk(d, at, order[..i]) && WellFormed(d) && order[i] in d.units
    ensures Verdict(d, marked, at, order, i) <==>
      Accepts(d, marked, Replay(d, marked, at, order[..i]), d.units.Keys, order[i])
  {
    hide OrderOk; hide Replay; hide Accepts;
  }

  lemma HandleBusiness(r: Run, s: State, s': State)
    requires RunOk(r) && Inv(r, s) && Handle(r, s, s')
    ensures BusinessOk(r, s')
  {
    hide RunOk; hide Inv; hide Replay; hide Accepts; hide OrderOk; hide Apply; hide CanApply; hide VerdictIs;
    hide Positions;
    var n := s.handled;
    BusinessOfInv(r, s);
    HandleFacts(r, s, s');
    NotHandledYet(r, s);
    BusinessFacts(r, s);
    assert r.order[..n + 1] == r.order[..n] + [r.order[n]];
    forall i | 0 <= i < s'.handled ensures VerdictIs(r, s.marked, s'.verdicts, i) {
      if i < n { VerdictStays(r, s.marked, s.verdicts, s'.verdicts, i, n); }
    }
  }

  lemma BusinessOfInv(r: Run, s: State)
    requires RunOk(r) && Inv(r, s)
    ensures BusinessOk(r, s) && s.handled <= s.pushed <= |r.order|
  {
    hide RunOk; hide BusinessOk; hide AdmittedOk; hide FinalOk;
  }

  lemma VerdictStays(r: Run, marked: set<Hash>, v: map<Hash, bool>, v': map<Hash, bool>, i: nat, n: nat)
    requires RunOk(r) && OrderOk(r.d, Positions(r), r.order) && i < |r.order| && n < |r.order|
    requires VerdictIs(r, marked, v, i) && r.order[i] != r.order[n] && r.order[n] in v'
    requires v' == v[r.order[n] := v'[r.order[n]]]
    ensures VerdictIs(r, marked, v', i)
  {
    hide RunOk; hide OrderOk; hide Verdict;
  }

  /** What the business worker's step leaves behind. */
  lemma HandleFacts(r: Run, s: State, s': State)
    requires RunOk(r) && Inv(r, s) && Handle(r, s, s')
    ensures OrderOk(r.d, Positions(r), r.order) && OrderOk(r.d, Positions(r), r.order[..s.handled + 1])
    ensures s'.ledger == Replay(r.d, s.marked, Positions(r), r.order[..s.handled + 1])
    ensures VerdictIs(r, s.marked, s'.verdicts, s.handled)
  {
    hide RunOk; hide Inv; hide BusinessOk; hide Replay; hide Accepts; hide LedgerOk; hide OrderOk; hide Process;
    hide Apply; hide CanApply;
    hide Verdict; hide InTurn;
    BusinessOfInv(r, s);
    BusinessFacts(r, s);
    SameVerdict(r, s);
    NextPrefix(r, s);
    if Accepts(r.d, s.marked, s.ledger, s.stable, r.order[s.handled]) { AcceptedNeverFails(r, s); }
    ProcessRejects(r, s);
  }

  lemma HandleKeeps(r: Run, s: State, s': State)
    requires RunOk(r) && Inv(r, s) && Handle(r, s, s')
    ensures Inv(r, s')
  {
    hide RunOk; hide BusinessOk; hide Accepts; hide Spends; hide Apply; hide CanApply; hide IsGenesis; hide Positions;
    HandleBusiness(r, s, s');
  }

  lemma NotHandledYet(r: Run, s: State)
    requires RunOk(r) && s.handled < |r.order|
    ensures forall i :: 0 <= i < s.handled ==> r.order[i] != r.order[s.handled]
  {
    RunOrder(r);
  }

  lemma ProcessRejects(r: Run, s: State)
    requires RunOk(r) && BusinessOk(r, s) && s.handled < |r.order|
    requires WellFormed(r.d) && r.order[s.handled] in r.d.units && r.order[s.handled] in Positions(r)
    requires LedgerOk(r.d, s.ledger) && InTurn(r.d, s.ledger, r.order[s.handled])
    ensures !Accepts(r.d, s.marked, s.ledger, r.d.units.Keys, r.order[s.handled]) ==>
      Process(r.d, s.marked, s.ledger, r.order[s.handled], Positions(r)[r.order[s.handled]]) == s.ledger
  {
    hide RunOk; hide BusinessOk;
  }

  /** All that finalising the next unit looks up is there. */
  lemma FinalizeNeverFails(r: Run, s: State, targets: seq<nat>)
    requires RunOk(r) && Inv(r, s) && s.finalised < s.handled
    requires Skips(r, r.order[s.finalised], targets)
    ensures r.order[s.finalised] in r.d.units && CanFinalize(r, s, r.order[s.finalised], targets)
  {
    hide RunOk; hide BusinessOk; hide AdmittedOk; hide IsSimilar; hide OnMainChain;
    var n := s.finalised;
    var u := r.order[n];
    UnitKnown(r, n);
    forall p | p in r.d.units[u].parents ensures p in s.balls {
      ParentIsAncestor(r.d, p, u);
      AncestorsFirst(r, n, p);
    }
    forall i | 0 <= i < |targets|
      ensures targets[i] < s.recorded && targets[i] < |r.fin.chain| && r.fin.chain[targets[i]] in s.balls
    {
      SkipTarget(r, s, u, targets, i);
    }
  }

  lemma UnitKnown(r: Run, n: nat)
    requires RunOk(r) && n < |r.order|
    ensures WellFormed(r.d) && r.order[n] in r.d.units && r.order[n] in r.fin.mci
  {
    RunOrder(r);
    assert r.order[n] in r.order;
  }

  lemma SkipTarget(r: Run, s: State, u: Hash, targets: seq<nat>, i: nat)
    requires RunOk(r) && CountsOk(r, s) && FinalOk(r, s) && s.finalised < s.handled && u == r.order[s.finalised]
    requires Skips(r, u, targets) && i < |targets|
    ensures targets[i] < s.recorded && targets[i] < |r.fin.chain| && r.fin.chain[targets[i]] in s.balls
  {
    hide RunOk;
    assert IsTarget(r.fin.mci[u], i, targets[i]);
    SkipTargetBelow(r, u, targets[i]);
    hide Lt; hide IsTarget; hide IsSimilar;
    UnitKnown(r, s.finalised);
    AncestorsFirst(r, s.finalised, r.fin.chain[targets[i]]);
  }

  lemma ParentIsAncestor(d: Dag, p: Hash, u: Hash)
    requires WellFormed(d) && u in d.units && p in d.units[u].parents
    ensures Lt(d, p, u)
  {
    assert Le(d, p, p);
    LeRank(d, p, p);
  }

  lemma SkipTargetBelow(r: Run, u: Hash, t: nat)
    requires RunOk(r) && OnMainChain(r.fin.mci, r.fin.limci, u) && t < r.fin.mci[u]
    ensures t < |r.fin.chain| && Lt(r.d, r.fin.chain[t], u)
  {
    hide ChannelOk;
    OnMainChainIsRecorded(r.d, r.st, r.fin, u);
    ChainLe(r.d, r.st, r.fin.chain, t, r.fin.mci[u]);
  }

  lemma FinalizeKeeps(r: Run, s: State, s': State, targets: seq<nat>)
    requires RunOk(r) && Inv(r, s) && Finalize(r, s, s', targets)
    ensures Inv(r, s')
  {
    hide RunOk; hide BusinessOk; hide Spends; hide CanFinalize; hide Skips; hide BallsOf; hide OnMainChain;
    hide IsGenesis; hide Lookup;
    FinalizeNeverFails(r, s, targets);
    BusinessFrame(r, s, s');
    var n := s.finalised;
    assert r.order[..n + 1] == r.order[..n] + [r.order[n]];
  }

  lemma NextKeeps(r: Run, s: State, s': State, step: Step)
    requires RunOk(r) && Inv(r, s) && Next(r, s, s', step)
    ensures Inv(r, s')
  {
    hide RunOk; hide Inv; hide Admit; hide Push; hide Record; hide Handle; hide Finalize;
    match step
    case DoAdmit(u, finalBad) => AdmitKeeps(r, s, s', u, finalBad);
    case DoPush => PushKeeps(r, s, s');
    case DoRecord => RecordKeeps(r, s, s');
    case DoHandle => HandleKeeps(r, s, s');
    case DoFinalize(targets) => FinalizeKeeps(r, s, s', targets);
  }

  // ---------------------------------------------------------------- over whole runs

  lemma {:induction false} ReachableInv(r: Run, steps: seq<Step>, states: seq<State>, k: nat)
    requires RunOk(r) && Reaches(r, steps, states) && k < |states|
    ensures Inv(r, states[k])
    decreases k
  {
    hide RunOk; hide Inv; hide Next;
    if k == 0 {
      StartOk(r);
    } else {
      ReachableInv(r, steps, states, k - 1);
      assert Next(r, states[k - 1], states[k], steps[k - 1]);
      NextKeeps(r, states[k - 1], states[k], steps[k - 1]);
    }
  }

  /** The units with a good verdict, in order. */
  function GoodUnits(order: seq<Hash>, verdicts: map<Hash, bool>): seq<Hash>
  {
    if order == [] then []
    else
      var u := order[|order| - 1];
      GoodUnits(order[..|order| - 1], verdicts) + if u in verdicts && verdicts[u] then [u] else []
  }

  lemma {:induction false} GoodUnitsAreApplied(r: Run, marked: set<Hash>, verdicts: map<Hash, bool>, n: nat)
    requires RunOk(r) && OrderOk(r.d, Positions(r), r.order) && n <= |r.order|
    requires forall i :: 0 <= i < n ==> VerdictIs(r, marked, verdicts, i)
    ensures OrderOk(r.d, Positions(r), r.order[..n])
    ensures Replay(r.d, marked, Positions(r), r.order[..n]).good == GoodUnits(r.order[..n], verdicts)
  {
    hide RunOk; hide OrderOk; hide LedgerOk; hide Accepts;
    var at := Positions(r);
    PrefixOrderOk(r.d, at, r.order, n);
    if n > 0 {
      GoodUnitsAreApplied(r, marked, verdicts, n - 1);
      assert VerdictIs(r, marked, verdicts, n - 1);
      assert r.order[..n][..n - 1] == r.order[..n - 1];
      OrderFacts(r.d, at, r.order);
      ReplayStep(r.d, marked, at, r.order[..n]);
      hide Replay;
    } else {
      assert r.order[..n] == [];
    }
  }

  /**
   * For every interleaving of the workers, the verdicts and the stable state are those of
   * sequential replay of the units handled so far, and those of rebuilding from genesis
   * by applying the good ones again.
   */
  lemma InterleavingsAgree(r: Run, steps: seq<Step>, states: seq<State>, k: nat)
    requires RunOk(r) && Reaches(r, steps, states) && k < |states|
    ensures var s := states[k]; var at := Positions(r);
      && s.handled <= |r.order| && OrderOk(r.d, at, r.order) && OrderOk(r.d, at, r.order[..s.handled])
      && s.ledger == Replay(r.d, s.marked, at, r.order[..s.handled])
      && (forall i :: 0 <= i < s.handled ==> VerdictIs(r, s.marked, s.verdicts, i))
      && Rebuilt(r.d, at, GoodUnits(r.order[..s.handled], s.verdicts), s.ledger)
  {
    hide *;
    ReachableBusiness(r, steps, states, k);
    var s := states[k];
    BusinessFacts(r, s);
    GoodUnitsAreApplied(r, s.marked, s.verdicts, s.handled);
    RebuildIsReplay(r.d, s.marked, Positions(r), r.order[..s.handled]);
  }

  lemma ReachableBusiness(r: Run, steps: seq<Step>, states: seq<State>, k: nat)
    requires RunOk(r) && Reaches(r, steps, states) && k < |states|
    ensures BusinessOk(r, states[k])
  {
    hide RunOk; hide Reaches; hide BusinessOk;
    ReachableInv(r, steps, states, k);
  }

  /** In every run, finalising a unit never misses a parent's ball or a skip list unit. */
  lemma FinalizationNeverFails(r: Run, steps: seq<Step>, states: seq<State>, k: nat)
    requires RunOk(r) && Reaches(r, steps, states) && k < |steps| && steps[k].DoFinalize?
    ensures var s := states[k];
      && s.finalised < s.handled <= |r.order| && r.order[s.finalised] in r.d.units
      && CanFinalize(r, s, r.order[s.finalised], steps[k].targets)
      && states[k + 1].stable == s.stable + {r.order[s.finalised]}
  {
    assert Next(r, states[k], states[k + 1], steps[k]);
    hide RunOk; hide Reaches; hide Inv; hide CanFinalize;
    ReachableInv(r, steps, states, k);
    InvCounts(r, states[k]);
    FinalizeNeverFails(r, states[k], steps[k].targets);
  }

  lemma InvCounts(r: Run, s: State)
    requires RunOk(r) && Inv(r, s)
    ensures s.finalised <= s.handled <= |r.order| && FinalOk(r, s)
  {
  }

  /** In every run, the whole ancestry of a stable unit, and so of the last stable joint, is stable with balls. */
  lemma StableAncestry(r: Run, steps: seq<Step>, states: seq<State>, k: nat, a: Hash, u: Hash)
    requires RunOk(r) && Reaches(r, steps, states) && k < |states| && WellFormed(r.d)
    requires (u in states[k].stable || states[k].lastStable == Some(u)) && Le(r.d, a, u)
    ensures a in states[k].stable && a in states[k].balls
  {
    hide RunOk; hide Reaches; hide Inv; hide Le;
    ReachableInv(r, steps, states, k);
    InvCounts(r, states[k]);
    StableClosed(r, states[k], a, u);
  }
}

/** rebuild_from_genesis: read the global order back and apply the good units (src/business/mod.rs). */
module Rebuild {
  import opened Dag
  import opened Ledger
  import opened LedgerRun
  import opened GO = GlobalOrder
  import opened MainChain
  import opened Marking
  import opened Utxo
  import opened Business
  import opened Pipeline

  /** One unit of the rebuild: a good verdict means its payment would still pass validation. */
  lemma RebuildStep(r: Run, marked: set<Hash>, verdicts: map<Hash, bool>, n: nat, l: Ledger)
    requires RunOk(r) && OrderOk(r.d, Positions(r), r.order) && n < |r.order| && VerdictIs(r, marked, verdicts, n)
    requires OrderOk(r.d, Positions(r), r.order[..n]) && l == Replay(r.d, marked, Positions(r), r.order[..n])
    ensures var u := r.order[n]; var at := Positions(r);
      && u in r.d.units && u in r.fin.mci && u in r.fin.sub && u in at && at[u] == UtxoData(r.fin.mci[u], r.fin.sub[u])
      && u in verdicts && LedgerOk(r.d, l) && InTurn(r.d, l, u) && OrderOk(r.d, at, r.order[..n + 1])
      && if verdicts[u] then
           && PaymentOk(r.d, l.live, GoodSet(l), r.d.units.Keys, u)
           && CanApply(r.d, l, u) && Replay(r.d, marked, at, r.order[..n + 1]) == Apply(r.d, l, u, at[u])
         else Replay(r.d, marked, at, r.order[..n + 1]) == l
  {
    hide *;
    var u, at := r.order[n], Positions(r);
    PositionFacts(r, n);
    VerdictIsFacts(r, marked, verdicts, n);
    PrefixOrderOk(r.d, at, r.order, n + 1);
    OrderFacts(r.d, at, r.order);
    assert r.order[..n + 1][..n] == r.order[..n];
    ReplayStep(r.d, marked, at, r.order[..n + 1]);
    VerdictFacts(r.d, marked, at, r.order, n);
    ProcessFacts(r.d, marked, l, u, at[u]);
  }

  lemma PositionFacts(r: Run, n: nat)
    requires RunOk(r) && n < |r.order|
    ensures var u := r.order[n];
      && u in r.d.units && u in r.fin.mci && u in r.fin.sub && u in Positions(r)
      && Positions(r)[u] == UtxoData(r.fin.mci[u], r.fin.sub[u])
  {
    UnitKnown(r, n);
  }

  lemma VerdictIsFacts(r: Run, marked: set<Hash>, verdicts: map<Hash, bool>, n: nat)
    requires RunOk(r) && OrderOk(r.d, Positions(r), r.order) && n < |r.order| && VerdictIs(r, marked, verdicts, n)
    ensures r.order[n] in verdicts && (verdicts[r.order[n]] <==> Verdict(r.d, marked, Positions(r), r.order, n))
  {
    hide RunOk; hide OrderOk; hide Verdict;
  }

  lemma ProcessFacts(d: Dag, marked: set<Hash>, l: Ledger, u: Hash, data: UtxoData)
    requires WellFormed(d) && LedgerOk(d, l) && InTurn(d, l, u)
    ensures if Accepts(d, marked, l, d.units.Keys, u) then
        && PaymentOk(d, l.live, GoodSet(l), d.units.Keys, u)
        && CanApply(d, l, u) && Process(d, marked, l, u, data) == Apply(d, l, u, data)
      else Process(d, marked, l, u, data) == l
  {
    hide LedgerOk; hide PaymentOk; hide CanApply; hide Apply;
    if Accepts(d, marked, l, d.units.Keys, u) { AcceptedCanApply(d, marked, l, u, data); }
  }

  method RebuildFromGenesis(r: Run, ghost marked: set<Hash>, verdicts: map<Hash, bool>) returns (cache: BusinessCache)
    requires RunOk(r) && OrderOk(r.d, Positions(r), r.order)
    requires forall i :: 0 <= i < |r.order| ==> VerdictIs(r, marked, verdicts, i)
    ensures fresh(cache) && fresh(cache.utxo) && cache.d == r.d
    ensures cache.ledger == Replay(r.d, marked, Positions(r), r.order)
    ensures cache.Applied()
  {
    hide RunOk; hide Indexed; hide ChannelOk; hide OrderOk; hide LedgerOk; hide Replay; hide Accepts;
    hide VerdictIs; hide Positions;
    hide PaymentOk; hide CanApply; hide Apply; hide InTurn; hide NestedOk; hide AuthorsOk; hide WellFormed;
    RunFacts(r);
    var order := ReplayOrder(r.d, r.st, r.fin, r.order);
    OrderFacts(r.d, Positions(r), r.order);
    cache := new BusinessCache(r.d);
    assert order[..0] == [];
    PrefixOrderOk(r.d, Positions(r), r.order, 0);
    EmptyReplay(r.d, marked, Positions(r), order[..0]);
    for n := 0 to |order|
      invariant fresh(cache) && fresh(cache.utxo) && cache.d == r.d
      invariant OrderOk(r.d, Positions(r), order[..n])
      invariant cache.Applied() && cache.ledger == Replay(r.d, marked, Positions(r), order[..n])
    {
      var u := order[n];
      RebuildStep(r, marked, verdicts, n, cache.ledger);
      if verdicts[u] {
        var ok := cache.ApplyStableJoint(u, UtxoData(r.fin.mci[u], r.fin.sub[u]), r.d.units.Keys);
      }
    }
    assert order[..|order|] == order;
  }

  lemma RunFacts(r: Run)
    requires RunOk(r)
    ensures Indexed(r.d, r.st, r.fin) && ChannelOk(r.st, r.fin.mci, r.order) && AuthorsOk(r.d)
  {
  }
}
