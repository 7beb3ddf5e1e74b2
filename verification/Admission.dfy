/**
 * How a unit comes to be marked final bad when it is admitted: the serial check against the
 * last unstable unit of its author (src/validation.rs, src/business/mod.rs). What the
 * temporary business state says about its messages is a parameter.
 */
module Admission {
  import opened Dag

  datatype Sequence = Good | TempBad | NonserialBad | FinalBad

  /** The messages against the temporary state: they pass, fail, or pass and then cannot be applied. */
  datatype Outcome = Passes | Fails | CannotApply

  /** `last` records the last unstable unit of an address; `sequence` what units have been judged. */
  datatype Node = Node(
    normal: set<Hash>,
    unhandled: set<Hash>,
    bad: set<Hash>,
    last: map<Address, Hash>,
    sequence: map<Hash, Sequence>)

  datatype Step =
    | Arrive(u: Hash)
    | Judge(u: Hash, outcome: Outcome)
    | Finish(u: Hash, post: bool)
    | Clear(u: Hash)

  ghost predicate UnitsOk(d: Dag)
  {
    WellFormed(d) && forall u :: u in d.units ==> d.units[u].authors != []
  }

  function Author(d: Dag, u: Hash): Address
    requires u in d.units && d.units[u].authors != []
  {
    d.units[u].authors[0]
  }

  /** The record of the author cannot be read: the unit it names is not among the normal ones. */
  ghost predicate Unreadable(n: Node, a: Address)
  {
    a in n.last && n.last[a] !in n.normal
  }

  /** The recorded unit is a normal one that `u` does not include. */
  ghost predicate Nonserial(d: Dag, n: Node, u: Hash)
    requires UnitsOk(d) && u in d.units
  {
    var a := Author(d, u); a in n.last && n.last[a] in n.normal && !Le(d, n.last[a], u)
  }

  /** validate_messages with validate_unstable_joint; a unit without its messages was final bad on arrival. */
  ghost function Judged(d: Dag, n: Node, u: Hash, outcome: Outcome): Node
    requires UnitsOk(d) && u in d.units
  {
    var a := Author(d, u);
    if d.units[u].contentHash || Unreadable(n, a) then n.(sequence := n.sequence[u := FinalBad])
    else if Nonserial(d, n, u) then n.(sequence := n.sequence[u := NonserialBad])
    else
      var verdict := match outcome case Passes => Good case Fails => TempBad case CannotApply => FinalBad;
      n.(last := n.last[a := u], sequence := n.sequence[u := verdict])
  }

  /** The end of validation: only a posted unit has to be good, any other one is normalised as it is. */
  function Finished(n: Node, u: Hash, post: bool): Node
    requires u in n.sequence
  {
    if post && n.sequence[u] != Good then n.(unhandled := n.unhandled - {u}, bad := n.bad + {u})
    else n.(unhandled := n.unhandled - {u}, normal := n.normal + {u})
  }

  /** Finalising a unit removes the record that names it. */
  function Cleared(d: Dag, n: Node, u: Hash): Node
    requires u in d.units && d.units[u].authors != []
  {
    var a := Author(d, u);
    if a in n.last && n.last[a] == u then n.(last := n.last - {a}) else n
  }

  ghost predicate Enabled(d: Dag, n: Node, step: Step)
    requires UnitsOk(d)
  {
    step.u in d.units &&
    match step
    case Arrive(u) => u !in n.normal && u !in n.unhandled && u !in n.bad
    case Judge(u, _) => u in n.unhandled && u !in n.sequence
    case Finish(u, _) => u in n.unhandled && u in n.sequence
    case Clear(u) => u in n.normal
  }

  ghost function Next(d: Dag, n: Node, step: Step): Node
    requires UnitsOk(d) && Enabled(d, n, step)
  {
    match step
    case Arrive(u) => n.(unhandled := n.unhandled + {u})
    case Judge(u, outcome) => Judged(d, n, u, outcome)
    case Finish(u, post) => Finished(n, u, post)
    case Clear(u) => Cleared(d, n, u)
  }

  /** A unit with messages is marked exactly when the record of its author is unreadable, or it cannot be applied. */
  lemma MarkedExactly(d: Dag, n: Node, u: Hash, outcome: Outcome)
    requires UnitsOk(d) && u in d.units && !d.units[u].contentHash
    ensures Judged(d, n, u, outcome).sequence[u] == FinalBad <==>
      || Unreadable(n, Author(d, u))
      || (!Nonserial(d, n, u) && outcome == CannotApply)
  {
  }

  /** Two units of one author judged at once: the second one finds the first still unhandled, and is marked. */
  lemma JudgedAtOnce(d: Dag, n: Node, v: Hash, u: Hash, first: Outcome, second: Outcome)
    requires UnitsOk(d) && Enabled(d, n, Judge(v, first)) && Enabled(d, n, Judge(u, second)) && v != u
    requires !d.units[v].contentHash && Author(d, v) == Author(d, u) && v !in n.normal && Author(d, v) !in n.last
    ensures var mid := Next(d, n, Judge(v, first));
      && Enabled(d, mid, Judge(u, second))
      && Next(d, mid, Judge(u, second)).sequence[u] == FinalBad
  {
  }

  // ---------------------------------------------------------------- a record that stays

  /** The record of `a` names a unit that was rejected. */
  ghost predicate Stale(n: Node, a: Address)
  {
    a in n.last && n.last[a] in n.bad && n.last[a] !in n.normal && n.last[a] !in n.unhandled
  }

  /** A posted unit whose messages fail is rejected, and leaves its record behind. */
  lemma RejectedPostStays(d: Dag, n: Node, u: Hash)
    requires UnitsOk(d) && Enabled(d, n, Judge(u, Fails)) && !d.units[u].contentHash && u !in n.normal
    requires !Unreadable(n, Author(d, u)) && !Nonserial(d, n, u)
    ensures var mid := Next(d, n, Judge(u, Fails));
      && Enabled(d, mid, Finish(u, true))
      && Stale(Next(d, mid, Finish(u, true)), Author(d, u))
  {
  }

  /** Nothing removes such a record, and every unit of the author judged from then on is marked. */
  lemma StaleStays(d: Dag, n: Node, step: Step, a: Address)
    requires UnitsOk(d) && Enabled(d, n, step) && Stale(n, a)
    ensures var n' := Next(d, n, step);
      && Stale(n', a) && n'.last[a] == n.last[a]
      && (step.Judge? && Author(d, step.u) == a ==> n'.sequence[step.u] == FinalBad)
      && (forall u :: u in n.sequence ==> u in n'.sequence && n'.sequence[u] == n.sequence[u])
      && (forall u :: u in n'.sequence ==> u in n.sequence || (step.Judge? && step.u == u))
  {
  }

  /** `run` is a run of the node from its first state. */
  ghost predicate IsRun(d: Dag, run: seq<Node>, steps: seq<Step>)
    requires UnitsOk(d)
  {
    && |run| == |steps| + 1
    && forall i {:trigger steps[i]} :: 0 <= i < |steps| ==>
         Enabled(d, run[i], steps[i]) && run[i + 1] == Next(d, run[i], steps[i])
  }

  /** Over every run: once the record of an author is stale, all its later units are final bad on this node. */
  lemma {:induction false} StaleForever(d: Dag, run: seq<Node>, steps: seq<Step>, k: nat, n: nat, u: Hash)
    requires UnitsOk(d) && IsRun(d, run, steps) && k <= n < |run| && u in d.units && Stale(run[k], Author(d, u))
    ensures Stale(run[n], Author(d, u))
    ensures u in run[n].sequence && u !in run[k].sequence ==> run[n].sequence[u] == FinalBad
  {
    if k < n {
      var m := n - 1;
      StaleForever(d, run, steps, k, m, u);
      assert Enabled(d, run[m], steps[m]) && run[m + 1] == Next(d, run[m], steps[m]);
      StaleStays(d, run[m], steps[m], Author(d, u));
    }
  }

  // ---------------------------------------------------------------- the record ascends

  /** The verdicts that let a unit become the record of its author. */
  predicate Serial(s: Sequence) { s == Good || s == TempBad }

  /** The verdicts on a unit with messages, each with its condition, and what becomes of the record. */
  lemma JudgedExactly(d: Dag, n: Node, u: Hash, outcome: Outcome)
    requires UnitsOk(d) && u in d.units && !d.units[u].contentHash
    ensures var n' := Judged(d, n, u, outcome); var a := d.units[u].authors[0]; var verdict := n'.sequence[u];
      && (verdict == NonserialBad <==> a in n.last && n.last[a] in n.normal && !Le(d, n.last[a], u))
      && (Serial(verdict) <==>
            outcome != CannotApply && (a !in n.last || (n.last[a] in n.normal && Le(d, n.last[a], u))))
      && (Serial(verdict) ==> (verdict == Good <==> outcome == Passes))
      && (verdict == FinalBad <==>
            (a in n.last && n.last[a] !in n.normal) || (verdict != NonserialBad && outcome == CannotApply))
      && n'.last == (if a !in n.last || (n.last[a] in n.normal && Le(d, n.last[a], u)) then n.last[a := u] else n.last)
      && n'.normal == n.normal && n'.unhandled == n.unhandled && n'.bad == n.bad
  {
  }

  lemma RecordStep(d: Dag, n: Node, step: Step, a: Address)
    requires UnitsOk(d) && Enabled(d, n, step) && a in n.last && n.last[a] in d.units && a in Next(d, n, step).last
    ensures var n' := Next(d, n, step); n'.last[a] in d.units && Le(d, n.last[a], n'.last[a])
  {
    assert Le(d, n.last[a], n.last[a]);
  }

  /** Over every run the record of an author, as long as it is not cleared, only moves up the inclusion order. */
  lemma {:induction false} RecordsAscend(d: Dag, run: seq<Node>, steps: seq<Step>, i: nat, j: nat, a: Address)
    requires UnitsOk(d) && IsRun(d, run, steps) && i <= j < |run|
    requires (forall k :: i <= k <= j ==> a in run[k].last) && run[i].last[a] in d.units
    ensures run[j].last[a] in d.units && Le(d, run[i].last[a], run[j].last[a])
    decreases j - i
  {
    if i == j {
      assert Le(d, run[i].last[a], run[i].last[a]);
    } else {
      var m := j - 1;
      RecordsAscend(d, run, steps, i, m, a);
      assert Enabled(d, run[m], steps[m]) && run[m + 1] == Next(d, run[m], steps[m]);
      RecordStep(d, run[m], steps[m], a);
      LeTransitive(d, run[i].last[a], run[m].last[a], run[j].last[a]);
    }
  }

  /** A unit admitted as good or temporarily bad includes every unit its author had on record before. */
  lemma AdmittedInOrder(d: Dag, run: seq<Node>, steps: seq<Step>, i: nat, k: nat, u: Hash, outcome: Outcome)
    requires UnitsOk(d) && IsRun(d, run, steps) && i <= k < |steps| && steps[k] == Judge(u, outcome) && u in d.units
    requires var a := d.units[u].authors[0];
      (forall m :: i <= m <= k ==> a in run[m].last) && run[i].last[a] in d.units
    ensures u in run[k + 1].sequence
    ensures Serial(run[k + 1].sequence[u]) ==> Le(d, run[i].last[d.units[u].authors[0]], u)
  {
    var a := d.units[u].authors[0];
    assert Enabled(d, run[k], steps[k]) && run[k + 1] == Next(d, run[k], steps[k]);
    RecordsAscend(d, run, steps, i, k, a);
    if Serial(run[k + 1].sequence[u]) { LeTransitive(d, run[i].last[a], run[k].last[a], u); }
  }
}
