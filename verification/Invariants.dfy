/** What every durable condition on a valid path satisfies. */
module Invariants {
  import opened Wrappers
  import opened Lifecycle
  import opened Rows
  import opened Machine
  import opened Evidence
  import opened Protocol

  function Occurrences(route: seq<State>, s: State): nat {
    if route == [] then 0 else Occurrences(route[..|route| - 1], s) + if route[|route| - 1] == s then 1 else 0
  }

  lemma {:induction false} CountAppended(log: seq<Transition>, more: seq<Transition>, route: seq<State>, s: State)
    requires |more| == |route| && forall i :: 0 <= i < |more| ==> more[i].to == route[i]
    ensures Count(log + more, s) == Count(log, s) + Occurrences(route, s)
  {
    if more == [] {
      assert log + more == log;
    } else {
      var n := |more| - 1;
      CountAppended(log, more[..n], route[..n], s);
      assert (log + more)[..|log + more| - 1] == log + more[..n];
    }
  }

  lemma CountFollows(r: Row, r': Row, s: State)
    requires Follows(r, r')
    ensures Count(r'.audit, s) == Count(r.audit, s) + Occurrences(Route(r.state, r'.state), s)
  {
    var more := r'.audit[|r.audit|..];
    assert r'.audit == r.audit + more;
    CountAppended(r.audit, more, Route(r.state, r'.state), s);
  }

  // How often a route enters a state: at its end, or on the way there.
  lemma OccurrencesOnRoute(from: State, to: State, s: State)
    ensures var route := Route(from, to);
            Occurrences(route, s) ==
            if route == [] then 0
            else if |route| == 1 then if route[0] == s then 1 else 0
            else (if route[0] == s then 1 else 0) + (if route[1] == s then 1 else 0)
  {
    var route := Route(from, to);
    if |route| == 1 {
      assert route[..0] == [];
      assert Occurrences(route[..0], s) == 0;
    } else if |route| == 2 {
      var first := route[..1];
      assert first[..0] == [] && first[0] == route[0];
      assert Occurrences(first[..0], s) == 0;
      assert Occurrences(first, s) == if route[0] == s then 1 else 0;
    }
  }

  // What the coordinator may rely on when it picks a row up.
  ghost predicate Sound(c: Cell) {
    var r := c.row;
    && Consistent(r)
    && AttemptsNumbered(r.attempts)
    && Count(r.audit, CleanupFailed) <= |r.attempts|
    && (r.outcome == Some(CancelledPending) ==> Mentions(r.audit, CancellationRequested))
  }

  lemma CommitKeepsSound(r: Row, r': Row, log: Log, limit: nat)
    requires Sound(Cell(r, log)) && CommitAllowed(r, r', log, limit)
    ensures Sound(Cell(r', log))
  {
    assert Consistent(r');
    CountFollows(r, r', CleanupFailed);
    OccurrencesOnRoute(r.state, r'.state, CleanupFailed);
    CountFollows(r, r', CancellationRequested);
    hide Follows, ContextAllowed, ObservationsAllowed;
    assert AttemptsNumbered(r'.attempts) by {
      forall i | 0 <= i < |r'.attempts| && r'.attempts != r.attempts ensures r'.attempts[i].number == i + 1 {
        if i < |r.attempts| { assert r'.attempts[i] == r'.attempts[..|r.attempts|][i]; }
      }
    }
  }

  lemma StepKeepsSound(c: Cell, c': Cell, limit: nat)
    requires Sound(c) && Step(c, c', limit)
    ensures Sound(c')
  {
    if c'.row != c.row { CommitKeepsSound(c.row, c'.row, c.log, limit); }
  }

  lemma {:induction false} PathSound(p: Path, limit: nat)
    requires ValidPath(p, limit)
    ensures Sound(p.cell)
  {
    match p
    case Born(c) => assert c.row.audit[..0] == [];
    case Then(q, c) => PathSound(q, limit); StepKeepsSound(q.cell, c, limit);
  }

  // What later operations never change about an experiment.
  lemma {:induction false} PathKeepsIdentity(p: Path, q: Path, limit: nat)
    requires ValidPath(q, limit) && Extends(p, q)
    ensures SameExperiment(p.cell.row, q.cell.row)
  {
    hide Follows;
    if p != q { PathKeepsIdentity(p, q.before, limit); }
  }
}
