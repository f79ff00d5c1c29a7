/** The order and numbering of what is recorded beside the row. */
module Timeline {
  import opened Wrappers
  import opened Lifecycle
  import opened Rows
  import opened Machine
  import opened Protocol
  import opened Invariants

  function PhaseRank(phase: Phase): nat {
    match phase
    case Before => 0
    case During => 1
    case After => 2
  }

  function InPhase(observations: seq<Observation>, phase: Phase): nat {
    if observations == [] then 0
    else InPhase(observations[..|observations| - 1], phase) + if observations[|observations| - 1].phase == phase then 1 else 0
  }

  // before* during* after*
  ghost predicate PhasesInOrder(observations: seq<Observation>) {
    forall i, j :: 0 <= i < j < |observations| ==>
      PhaseRank(observations[i].phase) <= PhaseRank(observations[j].phase)
  }

  // Each phase numbered 1..n without gaps.
  ghost predicate PhasesNumbered(observations: seq<Observation>) {
    forall i :: 0 <= i < |observations| ==>
      observations[i].sequence == InPhase(observations[..i], observations[i].phase) + 1
  }

  ghost predicate Ordered(observations: seq<Observation>) {
    PhasesInOrder(observations) && PhasesNumbered(observations)
  }

  lemma PrefixNumbered(observations: seq<Observation>)
    requires PhasesNumbered(observations) && observations != []
    ensures PhasesNumbered(observations[..|observations| - 1])
  {
    var n := |observations| - 1;
    var rest := observations[..n];
    forall i | 0 <= i < n ensures rest[i].sequence == InPhase(rest[..i], rest[i].phase) + 1 {
      assert rest[..i] == observations[..i];
      assert rest[i] == observations[i];
    }
  }

  lemma {:induction false} NumberedByCount(observations: seq<Observation>, phase: Phase)
    requires PhasesNumbered(observations)
    ensures MaxSequence(observations, phase) == InPhase(observations, phase)
  {
    if observations != [] {
      var n := |observations| - 1;
      var last := observations[n];
      assert last.sequence == InPhase(observations[..n], last.phase) + 1;
      PrefixNumbered(observations);
      hide PhasesNumbered;
      NumberedByCount(observations[..n], phase);
    }
  }

  // The latest phase a row in this state may have been observed in.
  function LatestPhase(s: State): nat {
    if s in {Planned, State.Preflight, Injecting, Failed} then 0
    else if s in {Verifying, Passed, Cancelled, OperatorAttention} then 2 else 1
  }

  ghost predicate TimelineInv(r: Row) {
    && Ordered(r.observations)
    && forall o <- r.observations :: PhaseRank(o.phase) <= LatestPhase(r.state)
  }

  lemma AppendKeepsNumbers(observations: seq<Observation>, added: Observation)
    requires PhasesNumbered(observations) && added.sequence == NextSequence(observations, added.phase)
    ensures PhasesNumbered(observations + [added])
  {
    var after := observations + [added];
    NumberedByCount(observations, added.phase);
    forall i | 0 <= i < |after| ensures after[i].sequence == InPhase(after[..i], after[i].phase) + 1 {
      if i < |observations| { assert after[..i] == observations[..i]; } else { assert after[..i] == observations; }
    }
  }

  lemma AppendKeepsOrder(observations: seq<Observation>, added: Observation)
    requires PhasesInOrder(observations)
    requires forall o <- observations :: PhaseRank(o.phase) <= PhaseRank(added.phase)
    ensures PhasesInOrder(observations + [added])
  {
    forall i | 0 <= i < |observations| ensures PhaseRank(observations[i].phase) <= PhaseRank(added.phase) {
      assert observations[i] in observations;
    }
  }

  lemma PhasesNeverGoBack(r: Row, to: State, log: Log, limit: nat)
    requires MoveAllowed(r, to, log, limit)
    ensures LatestPhase(r.state) <= LatestPhase(to)
  {
  }

  lemma ObservationsKept(r: Row, r': Row)
    requires TimelineInv(r) && ObservationsAllowed(r, r')
    requires LatestPhase(r.state) <= LatestPhase(r'.state)
    ensures TimelineInv(r')
  {
    hide PhasesInOrder, PhasesNumbered;
    if r'.observations != r.observations {
      var added := r'.observations[|r.observations|];
      assert r'.observations == r.observations + [added];
      AppendKeepsOrder(r.observations, added);
      AppendKeepsNumbers(r.observations, added);
    }
  }

  lemma TimelineKept(c: Cell, c': Cell, limit: nat)
    requires TimelineInv(c.row) && Step(c, c', limit)
    ensures TimelineInv(c'.row)
  {
    hide Follows, TimelineInv, EventAllowed, ContextAllowed, OutcomeAllowed, AttemptsAllowed, MoveAllowed, ObservationsAllowed;
    if c'.row != c.row {
      if c'.row.state != c.row.state { PhasesNeverGoBack(c.row, c'.row.state, c.log, limit); }
      ObservationsKept(c.row, c'.row);
    }
  }

  // However often a supervisor died in between, the observations of an experiment read
  // before* during* after*, and observations and attempts are numbered without gaps.
  lemma {:induction false} ObservationTimeline(p: Path, limit: nat)
    requires ValidPath(p, limit)
    ensures TimelineInv(p.cell.row) && AttemptsNumbered(p.cell.row.attempts)
  {
    PathSound(p, limit);
    match p
    case Born(c) =>
    case Then(q, c) => ObservationTimeline(q, limit); TimelineKept(q.cell, c, limit);
  }
}
