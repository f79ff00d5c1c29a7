/** Any number of database sessions over the same experiments, each with its own cached rows.

    A session keeps the rows it has read until it commits or rolls back, so what it holds may be
    stale. One session at a time has uncommitted writes. */
module Sessions {
  import opened Wrappers
  import opened Lifecycle
  import opened Rows

  type Sid = nat
  type Table = map<Id, Row>

  datatype Db = Db(rows: Table, staged: Table, writer: Option<Sid>, caches: map<Sid, Table>)
  {
    // What a session reads when it goes to the database.
    function View(s: Sid): Table { if writer == Some(s) then staged else rows }

    function Cache(s: Sid): Table { if s in caches then caches[s] else map[] }

    predicate MayWrite(s: Sid) { writer.None? || writer == Some(s) }

    function Write(s: Sid, id: Id, row: Row): Db {
      this.(staged := View(s)[id := row], writer := Some(s), caches := caches[s := Cache(s)[id := row]])
    }
  }

  datatype DbOp =
    | Load(s: Sid, id: Id)
    | Change(s: Sid, id: Id, target: State, reason: Reason, actor: string)
    | Create(s: Sid, id: Id, kind: Kind, parameters: Parameters, target': Target, createdAt: int, expiresAt: int, actor: string)
    | Lease(s: Sid, id: Id, owner: Option<Instance>, leaseUntil: int)
    | CommitAll(s: Sid)
    | RollbackAll(s: Sid)

  // The row a session works with: the cached one, or else the one it reads now.
  function Held(d: Db, s: Sid, id: Id): Option<Row> {
    if id in d.Cache(s) then Some(d.Cache(s)[id]) else if id in d.View(s) then Some(d.View(s)[id]) else None
  }

  // transition as every caller in the repository uses it: with the revision of the row it holds.
  function Swapped(d: Db, op: DbOp): Swap
    requires op.Change?
  {
    var held := Held(d, op.s, op.id);
    if !d.MayWrite(op.s) || held.None? || op.id !in d.View(op.s) then Refused
    else CasTransition(held.value.state, d.View(op.s)[op.id], op.target, op.reason, op.actor, held.value.revision)
  }

  predicate TargetTaken(t: Table, target: Target) {
    exists id <- t :: t[id].target == target && !Terminal(t[id].state)
  }

  function Do(d: Db, op: DbOp): Db {
    match op
    case Load(s, id) =>
      var held := Held(d, s, id);
      if held.None? then d else d.(caches := d.caches[s := d.Cache(s)[id := held.value]])
    case Change(s, id, _, _, _) =>
      var swap := Swapped(d, op);
      if swap.Moved? then d.Write(s, id, swap.row) else d
    case Create(s, id, kind, parameters, target, createdAt, expiresAt, actor) =>
      if !d.MayWrite(s) || id in d.View(s) || TargetTaken(d.View(s), target) then d
      else d.Write(s, id, NewRow(kind, parameters, target, createdAt, expiresAt, actor))
    case Lease(s, id, owner, leaseUntil) =>
      if !d.MayWrite(s) || id !in d.View(s) then d
      else d.(staged := d.View(s)[id := d.View(s)[id].(owner := owner, leaseUntil := leaseUntil)], writer := Some(s))
    case CommitAll(s) =>
      d.(rows := d.View(s), writer := if d.writer == Some(s) then None else d.writer, caches := d.caches - {s})
    case RollbackAll(s) =>
      d.(writer := if d.writer == Some(s) then None else d.writer, caches := d.caches - {s})
  }

  function DoAll(ops: seq<DbOp>): Db {
    if ops == [] then Db(map[], map[], None, map[]) else Do(DoAll(ops[..|ops| - 1]), ops[|ops| - 1])
  }

  /******* Invariants *******/

  // An earlier or equal version of the same row: its log is a prefix.
  ghost predicate Earlier(r: Row, r': Row) {
    Consistent(r) && r.audit <= r'.audit && r.target == r'.target
  }

  ghost predicate Behind(t: Table, u: Table) {
    forall id :: id in t ==> id in u && Earlier(t[id], u[id])
  }

  ghost predicate OneLive(t: Table) {
    forall a, b :: a in t && b in t && a != b && t[a].target == t[b].target ==> Terminal(t[a].state) || Terminal(t[b].state)
  }

  ghost predicate Good(t: Table) { OneLive(t) && forall id :: id in t ==> Consistent(t[id]) }

  ghost predicate CachesBehind(d: Db) { forall s :: s in d.caches ==> Behind(d.caches[s], d.View(s)) }

  ghost predicate DbInv(d: Db) {
    && Good(d.rows)
    && (d.writer.Some? ==> Good(d.staged) && Behind(d.rows, d.staged))
    && CachesBehind(d)
  }

  // The revision determines the version: equal revisions of one row mean equal logs and states.
  lemma RevisionDeterminesState(held: Row, stored: Row)
    requires Consistent(held) && Consistent(stored) && held.audit <= stored.audit
    ensures held.revision == stored.revision <==> held.audit == stored.audit
    ensures held.revision == stored.revision ==> held.state == stored.state
  {
  }

  // However stale the rows a session holds: a transition that succeeds starts from the state that
  // is in the database, takes an edge of the graph, and records that state as its origin.
  lemma LinearizableTransition(d: Db, op: DbOp)
    requires DbInv(d) && op.Change? && Swapped(d, op).Moved?
    ensures var before, after := d.View(op.s)[op.id], Swapped(d, op).row;
            && Allowed(before.state, op.target) && after.state == op.target
            && after.revision == before.revision + 1
            && after.audit == before.audit + [Transition(before.revision + 2, Some(before.state), op.target,
                                                         op.reason, op.actor, before.revision + 1)]
            && Consistent(after)
  {
    var held := Held(d, op.s, op.id).value;
    var stored := d.View(op.s)[op.id];
    ViewGood(d, op.s);
    RevisionDeterminesState(held, stored);
    SwapKeepsLog(held.state, stored, op.target, op.reason, op.actor, held.revision);
  }

  // And it succeeds exactly when the session may write, the row in the database has the edge, and the
  // copy the session holds, if it holds one, is current. Leases have no part in it.
  lemma ChangesExactly(d: Db, op: DbOp)
    requires DbInv(d) && op.Change?
    ensures Swapped(d, op).Moved? <==>
              && (d.writer.None? || d.writer == Some(op.s)) && op.id in d.View(op.s)
              && op.target in AllowedTargets(d.View(op.s)[op.id].state)
              && (op.id in d.Cache(op.s) ==> d.Cache(op.s)[op.id].revision == d.View(op.s)[op.id].revision)
    ensures Swapped(d, op).Stale? ==> op.id in d.Cache(op.s) && d.Cache(op.s)[op.id].revision < d.View(op.s)[op.id].revision
  {
    if op.id in d.View(op.s) && op.id in d.Cache(op.s) { HeldIsEarlier(d, op.s, op.id); }
    hide DbInv, CasTransition, AllowedTargets;
    var held := Held(d, op.s, op.id);
    if held.Some? && op.id in d.View(op.s) {
      MovesExactly(held.value.state, d.View(op.s)[op.id], op.target, op.reason, op.actor, held.value.revision);
    }
  }

  lemma MovesExactly(seen: State, stored: Row, target: State, reason: Reason, actor: string, expected: int)
    ensures var swap := CasTransition(seen, stored, target, reason, actor, expected);
            && (swap.Moved? <==> target in AllowedTargets(seen) && stored.revision == expected)
            && (swap.Stale? ==> stored.revision != expected)
  {
    hide AllowedTargets;
  }

  lemma HeldIsEarlier(d: Db, s: Sid, id: Id)
    requires DbInv(d) && id in d.View(s) && id in d.Cache(s)
    ensures var held, stored := d.Cache(s)[id], d.View(s)[id];
            held.revision <= stored.revision && (held.revision == stored.revision ==> held.state == stored.state)
  {
    ViewGood(d, s);
    hide DbInv;
    var held, stored := d.Cache(s)[id], d.View(s)[id];
    GoodAt(d.View(s), id);
    assert Earlier(held, stored);
    RevisionDeterminesState(held, stored);
    assert |held.audit| <= |stored.audit|;
  }

  // An experiment is created exactly if the session may write, the id is new and nothing on the target
  // is still running, as far as this session can see; it is then the row that was asked for.
  lemma CreatesExactly(d: Db, op: DbOp)
    requires op.Create?
    ensures op.id !in d.View(op.s) && op.id in Do(d, op).View(op.s) <==>
              && (d.writer.None? || d.writer == Some(op.s)) && op.id !in d.View(op.s)
              && forall id :: id in d.View(op.s) && d.View(op.s)[id].target == op.target' ==> Terminal(d.View(op.s)[id].state)
    ensures op.id !in d.View(op.s) && op.id in Do(d, op).View(op.s) ==>
              var row := Do(d, op).View(op.s)[op.id];
              && row.kind == op.kind && row.parameters == op.parameters && row.target == op.target'
              && row.createdAt == op.createdAt && row.expiresAt == op.expiresAt && row.state == Planned && row.revision == 0
  {
  }

  // What each operation leaves in the database: a write is seen by its own session alone until it
  // commits, and a rollback leaves no trace of it.
  lemma WritesShowOnCommit(d: Db, op: DbOp, s: Sid)
    requires d.MayWrite(op.s) && (op.Change? || op.Create? || op.Lease?) && s != op.s
    ensures Do(d, op).rows == d.rows && Do(d, op).View(s) == d.rows && Do(d, op).Cache(s) == d.Cache(s)
    ensures Do(Do(d, op), CommitAll(op.s)).rows == Do(d, op).View(op.s)
    ensures Do(Do(d, op), RollbackAll(op.s)).rows == d.rows && Do(Do(d, op), RollbackAll(op.s)).View(op.s) == d.rows
    ensures Do(Do(d, op), RollbackAll(op.s)).Cache(op.s) == map[]
    ensures forall other :: other != op.id && other in d.View(op.s) ==>
              other in Do(d, op).View(op.s) && Do(d, op).View(op.s)[other] == d.View(op.s)[other]
  {
    hide NewRow, CasTransition, TargetTaken;
  }

  lemma EarlierTransitive(a: Row, b: Row, c: Row)
    requires Earlier(a, b) && Earlier(b, c)
    ensures Earlier(a, c)
  {
  }

  lemma BehindTransitive(a: Table, b: Table, c: Table)
    requires Behind(a, b) && Behind(b, c)
    ensures Behind(a, c)
  {
    hide Earlier;
    forall id | id in a ensures id in c && Earlier(a[id], c[id]) {
      EarlierTransitive(a[id], b[id], c[id]);
    }
  }

  lemma BehindSelf(t: Table)
    requires Good(t)
    ensures Behind(t, t)
  {
    hide Consistent;
  }

  lemma ViewGood(d: Db, s: Sid)
    requires DbInv(d)
    ensures Good(d.View(s)) && Behind(d.Cache(s), d.View(s))
    ensures d.MayWrite(s) ==> Behind(d.rows, d.View(s))
  {
    hide Good, Earlier;
    if d.writer != Some(s) { BehindSelf(d.rows); }
  }

  // Replacing one row by a later version of itself.
  lemma BehindUpdated(t: Table, u: Table, id: Id, row: Row)
    requires Behind(t, u) && (id in u ==> Earlier(u[id], row))
    ensures Behind(t, u[id := row])
  {
    hide Earlier;
    if id in t { EarlierTransitive(t[id], u[id], row); }
  }

  // Writing a later version of a row, or a new row, in a session that may write.
  lemma StageKeeps(d: Db, s: Sid, id: Id, row: Row, cache: Table)
    requires DbInv(d) && d.MayWrite(s) && Good(d.View(s)[id := row])
    requires id in d.View(s) ==> Earlier(d.View(s)[id], row)
    requires Behind(cache, d.View(s)[id := row])
    ensures DbInv(d.(staged := d.View(s)[id := row], writer := Some(s), caches := d.caches[s := cache]))
  {
    hide Good, Earlier;
    ViewGood(d, s);
    BehindUpdated(d.rows, d.View(s), id, row);
  }

  lemma WriteKeeps(d: Db, s: Sid, id: Id, row: Row)
    requires DbInv(d) && d.MayWrite(s) && Consistent(row)
    requires id in d.View(s) ==> Earlier(d.View(s)[id], row)
    requires OneLive(d.View(s)[id := row])
    ensures DbInv(d.Write(s, id, row))
  {
    hide Earlier, OneLive;
    ViewGood(d, s);
    BehindUpdated(d.Cache(s), d.View(s), id, row);
    CacheUpdated(d.Cache(s), d.View(s)[id := row], id);
    StageKeeps(d, s, id, row, d.Cache(s)[id := row]);
  }

  lemma CacheUpdated(c: Table, u: Table, id: Id)
    requires Behind(c, u) && id in u && Consistent(u[id])
    ensures Behind(c[id := u[id]], u)
  {
  }

  lemma CommitKeeps(d: Db, s: Sid)
    requires DbInv(d)
    ensures DbInv(Do(d, CommitAll(s)))
  {
    hide Good, Earlier, Behind;
    var d' := Do(d, CommitAll(s));
    forall t | t in d'.caches ensures Behind(d'.caches[t], d'.View(t)) {
      if d.writer == Some(s) { BehindTransitive(d.caches[t], d.rows, d.staged); }
    }
  }

  lemma ChangeKeeps(d: Db, op: DbOp)
    requires DbInv(d) && op.Change?
    ensures DbInv(Do(d, op))
  {
    if Swapped(d, op).Moved? {
      LinearizableTransition(d, op);
      ViewGood(d, op.s);
      var before, row := d.View(op.s)[op.id], Swapped(d, op).row;
      hide DbInv, Consistent, CasTransition, Swapped, Behind;
      assert Earlier(before, row);
      TerminalMeansNoExit(before.state);
      ReplacedOneLive(d.View(op.s), op.id, row);
      WriteKeeps(d, op.s, op.id, row);
    }
  }

  lemma ReplacedOneLive(t: Table, id: Id, row: Row)
    requires OneLive(t) && id in t && row.target == t[id].target && (Terminal(t[id].state) ==> Terminal(row.state))
    ensures OneLive(t[id := row])
  {
  }

  lemma LoadKeeps(d: Db, s: Sid, id: Id)
    requires DbInv(d)
    ensures DbInv(Do(d, Load(s, id)))
  {
    hide Good, Earlier;
    ViewGood(d, s);
    if id !in d.Cache(s) && id in d.View(s) {
      assert Consistent(d.View(s)[id]) by { GoodAt(d.View(s), id); }
      CacheUpdated(d.Cache(s), d.View(s), id);
    }
  }

  lemma GoodAt(t: Table, id: Id)
    requires Good(t) && id in t
    ensures Consistent(t[id])
  {
  }

  lemma CreateKeeps(d: Db, op: DbOp)
    requires DbInv(d) && op.Create?
    ensures DbInv(Do(d, op))
  {
    var row := NewRow(op.kind, op.parameters, op.target', op.createdAt, op.expiresAt, op.actor);
    ViewGood(d, op.s);
    hide DbInv, Behind, Consistent;
    assert Consistent(row) by { NewConsistent(op); }
    if d.MayWrite(op.s) && op.id !in d.View(op.s) && !TargetTaken(d.View(op.s), op.target') {
      AddedOneLive(d.View(op.s), op.id, row);
      WriteKeeps(d, op.s, op.id, row);
    }
  }

  lemma NewConsistent(op: DbOp)
    requires op.Create?
    ensures Consistent(NewRow(op.kind, op.parameters, op.target', op.createdAt, op.expiresAt, op.actor))
  {
  }

  lemma AddedOneLive(t: Table, id: Id, row: Row)
    requires OneLive(t) && id !in t && !TargetTaken(t, row.target)
    ensures OneLive(t[id := row])
  {
  }

  lemma LeaseKeeps(d: Db, op: DbOp)
    requires DbInv(d) && op.Lease?
    ensures DbInv(Do(d, op))
  {
    if d.MayWrite(op.s) && op.id in d.View(op.s) {
      ViewGood(d, op.s);
      var before := d.View(op.s)[op.id];
      var row := before.(owner := op.owner, leaseUntil := op.leaseUntil);
      assert Consistent(row) && Earlier(before, row);
      ReplacedOneLive(d.View(op.s), op.id, row);
      hide Good, Earlier, Consistent, OneLive;
      LeaseStages(d, op, row);
    }
  }

  lemma LeaseStages(d: Db, op: DbOp, row: Row)
    requires DbInv(d) && op.Lease? && d.MayWrite(op.s) && op.id in d.View(op.s)
    requires row == d.View(op.s)[op.id].(owner := op.owner, leaseUntil := op.leaseUntil)
    requires Consistent(row) && Earlier(d.View(op.s)[op.id], row) && OneLive(d.View(op.s)[op.id := row])
    ensures DbInv(Do(d, op))
  {
    ViewGood(d, op.s);
    BehindUpdated(d.Cache(op.s), d.View(op.s), op.id, row);
    assert Good(d.View(op.s)[op.id := row]) by { hide Consistent, OneLive; }
    hide Good, Earlier, Consistent, OneLive;
    StageKeeps(d, op.s, op.id, row, d.Cache(op.s));
    if op.s in d.caches { assert d.caches[op.s := d.Cache(op.s)] == d.caches; }
    else { StageKeepsCaches(d, op, row); }
  }

  lemma StageKeepsCaches(d: Db, op: DbOp, row: Row)
    requires op.Lease? && op.s !in d.caches && d.MayWrite(op.s) && op.id in d.View(op.s)
    requires row == d.View(op.s)[op.id].(owner := op.owner, leaseUntil := op.leaseUntil)
    requires DbInv(d.(staged := d.View(op.s)[op.id := row], writer := Some(op.s), caches := d.caches[op.s := d.Cache(op.s)]))
    ensures DbInv(Do(d, op))
  {
    hide Good, Behind;
    var d' := Do(d, op);
    var d'' := d.(staged := d.View(op.s)[op.id := row], writer := Some(op.s), caches := d.caches[op.s := d.Cache(op.s)]);
    forall t | t in d'.caches ensures Behind(d'.caches[t], d'.View(t)) {
      assert t in d''.caches && d''.caches[t] == d'.caches[t];
    }
  }

  // In every interleaving, what is committed and what is being written has consistent audit logs
  // and at most one live experiment per target, and no cached row is ahead of the database.
  lemma {:induction false} EveryInterleavingConsistent(ops: seq<DbOp>)
    ensures DbInv(DoAll(ops))
  {
    hide DbInv;
    if ops == [] {
      NothingYet();
    } else {
      var d, op := DoAll(ops[..|ops| - 1]), ops[|ops| - 1];
      EveryInterleavingConsistent(ops[..|ops| - 1]);
      match op
      case Load(s, id) => LoadKeeps(d, s, id);
      case Change(_, _, _, _, _) => ChangeKeeps(d, op);
      case Create(_, _, _, _, _, _, _, _) => CreateKeeps(d, op);
      case Lease(_, _, _, _) => LeaseKeeps(d, op);
      case CommitAll(s) => CommitKeeps(d, s);
      case RollbackAll(s) => RollbackKeeps(d, s);
    }
  }

  lemma NothingYet()
    ensures DbInv(Db(map[], map[], None, map[]))
  {
  }

  lemma RollbackKeeps(d: Db, s: Sid)
    requires DbInv(d)
    ensures DbInv(Do(d, RollbackAll(s)))
  {
  }

  // Two sessions that hold the same row cannot both move it: once one has committed, the other's
  // swap is refused or stale until it reads again.
  lemma OnlyOneWins(d: Db, first: DbOp, second: DbOp)
    requires DbInv(d) && first.Change? && second.Change? && first.s != second.s && first.id == second.id
    requires second.id in d.Cache(second.s) && Swapped(d, first).Moved?
    ensures !Swapped(Do(Do(d, first), CommitAll(first.s)), second).Moved?
  {
    var before, held := d.View(first.s)[first.id], d.Cache(second.s)[second.id];
    var d2 := Do(Do(d, first), CommitAll(first.s));
    SwapLands(d, first);
    OthersKeepCaches(d, first, second.s);
    HeldNotAhead(d, first, second);
    hide DbInv, Do, CasTransition;
    assert Held(d2, second.s, second.id) == Some(held);
    StaleRefused(held.state, d2.View(second.s)[second.id], second.target, second.reason, second.actor, held.revision);
  }

  // Once committed, the moved row is what every other session reads.
  lemma SwapLands(d: Db, first: DbOp)
    requires DbInv(d) && first.Change? && Swapped(d, first).Moved?
    ensures var d2 := Do(Do(d, first), CommitAll(first.s));
            forall s :: first.id in d2.View(s) && d2.View(s)[first.id].revision == d.View(first.s)[first.id].revision + 1
  {
    LinearizableTransition(d, first);
    hide DbInv, Consistent, Swapped;
  }

  lemma OthersKeepCaches(d: Db, first: DbOp, s: Sid)
    requires first.Change? && s != first.s
    ensures Do(Do(d, first), CommitAll(first.s)).Cache(s) == d.Cache(s)
  {
    hide Swapped;
  }

  lemma HeldNotAhead(d: Db, first: DbOp, second: DbOp)
    requires DbInv(d) && first.Change? && second.Change? && first.s != second.s && first.id == second.id
    requires second.id in d.Cache(second.s) && Swapped(d, first).Moved?
    ensures d.Cache(second.s)[second.id].revision <= d.View(first.s)[first.id].revision
  {
    ViewGood(d, second.s);
    ViewGood(d, first.s);
    assert d.MayWrite(first.s);
    hide DbInv, Swapped, Earlier;
    EarlierRevision(d.Cache(second.s)[second.id], d.rows[second.id], d.View(first.s)[first.id]) by {
      hide Consistent;
      assert d.View(second.s) == d.rows;
    }
  }

  lemma StaleRefused(seen: State, stored: Row, target: State, reason: Reason, actor: string, expected: int)
    requires stored.revision != expected
    ensures !CasTransition(seen, stored, target, reason, actor, expected).Moved?
  {
  }

  lemma EarlierRevision(a: Row, b: Row, c: Row)
    requires Earlier(a, b) && Earlier(b, c) && Consistent(c)
    ensures a.revision <= c.revision
  {
    assert |a.audit| <= |b.audit| <= |c.audit|;
  }

  // The caller's discipline matters: with a revision that is not the one of the row it holds, the
  // swap can succeed and record an origin the row was never moved from.
  lemma ForeignRevisionCanLie()
    ensures exists held: Row, stored: Row, expected: nat ::
              && Consistent(held) && Consistent(stored) && held.audit <= stored.audit && expected != held.revision
              && var swap := CasTransition(held.state, stored, Cancelled, AbortRequested, "", expected);
                 swap.Moved? && !Consistent(swap.row)
  {
    var held := NewRow(ApacheStop, Parameters(1, 0, 0), 0, 0, 1, "");
    var stored := CasTransition(Planned, held, State.Preflight, PreflightStarted, "", 0).row;
    SwapKeepsLog(Planned, held, State.Preflight, PreflightStarted, "", 0);
    var swap := CasTransition(held.state, stored, Cancelled, AbortRequested, "", 1);
    SwapKeepsLog(held.state, stored, Cancelled, AbortRequested, "", 1);
    assert swap.Moved? && !Consistent(swap.row);
  }
}
