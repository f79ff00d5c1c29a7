/** Leases of one experiment, claimed, renewed and released by any number of instances. */
module Leases {
  import opened Wrappers
  import opened Lifecycle
  import opened Rows

  datatype LeaseOp =
    | Claim(instance: Instance, now: int, seconds: int)
    | Renew(instance: Instance, now: int, seconds: int)
    | Release(instance: Instance, now: int)

  // The claim's compare-and-swap takes effect only on a row that is selectable and free.
  function ApplyLease(r: Row, op: LeaseOp): Row {
    match op
    case Claim(instance, now, seconds) =>
      if Claimable(r.state) && LeaseFree(r, now) then ClaimRow(r, instance, now, seconds) else r
    case Renew(instance, now, seconds) => RenewRow(r, instance, now, seconds)
    case Release(instance, _) => ReleaseRow(r, instance)
  }

  function ApplyAll(r: Row, ops: seq<LeaseOp>): Row {
    if ops == [] then r else ApplyLease(ApplyAll(r, ops[..|ops| - 1]), ops[|ops| - 1])
  }

  predicate Granted(r: Row, op: LeaseOp) {
    || (op.Claim? && Claimable(r.state) && LeaseFree(r, op.now))
    || (op.Renew? && r.owner == Some(op.instance))
  }

  // A nondecreasing clock from `start` on.
  ghost predicate Clocked(ops: seq<LeaseOp>, start: int) {
    && (ops != [] ==> start <= ops[0].now)
    && forall i, j :: 0 <= i < j < |ops| ==> ops[i].now <= ops[j].now
  }

  // The holder neither gives the lease back nor renews it for less than it was granted.
  ghost predicate Keeps(ops: seq<LeaseOp>, holder: Instance, seconds: int) {
    forall op <- ops :: op.instance == holder ==> !op.Release? && op.seconds >= seconds
  }

  predicate HeldUntil(r: Row, holder: Instance, until: int) {
    r.owner == Some(holder) && r.leaseUntil >= until
  }

  lemma HolderKeeps(r: Row, op: LeaseOp, holder: Instance, granted: int, seconds: int)
    requires HeldUntil(r, holder, granted + seconds) && granted <= op.now <= granted + seconds
    requires op.instance == holder ==> !op.Release? && op.seconds >= seconds
    ensures HeldUntil(ApplyLease(r, op), holder, granted + seconds)
    ensures op.instance != holder ==> ApplyLease(r, op) == r
  {
  }

  lemma {:induction false} HolderStays(r: Row, ops: seq<LeaseOp>, holder: Instance, granted: int, seconds: int)
    requires HeldUntil(r, holder, granted + seconds)
    requires Clocked(ops, granted) && Keeps(ops, holder, seconds)
    requires forall op <- ops :: op.now <= granted + seconds
    ensures HeldUntil(ApplyAll(r, ops), holder, granted + seconds)
    ensures ApplyAll(r, ops) == ApplyAll(r, Own(ops, holder))
  {
    if ops != [] {
      var n := |ops| - 1;
      assert forall op <- ops[..n] :: op in ops;
      HolderStays(r, ops[..n], holder, granted, seconds);
      assert ops[n] in ops && granted <= ops[n].now;
      HolderKeeps(ApplyAll(r, ops[..n]), ops[n], holder, granted, seconds);
      if ops[n].instance == holder {
        var own := Own(ops, holder);
        assert own == Own(ops[..n], holder) + [ops[n]];
        assert own[..|own| - 1] == Own(ops[..n], holder);
        assert ApplyAll(r, own) == ApplyLease(ApplyAll(r, own[..|own| - 1]), ops[n]);
      } else {
        assert Own(ops, holder) == Own(ops[..n], holder);
      }
    }
  }

  // What the holder itself did.
  function Own(ops: seq<LeaseOp>, holder: Instance): seq<LeaseOp> {
    if ops == [] then []
    else Own(ops[..|ops| - 1], holder) + if ops[|ops| - 1].instance == holder then [ops[|ops| - 1]] else []
  }

  // A grant makes the caller owner until exactly `seconds` from now.
  lemma GrantHolds(r: Row, op: LeaseOp)
    requires Granted(r, op)
    ensures HeldUntil(ApplyLease(r, op), op.instance, op.now + op.seconds)
    ensures ApplyLease(r, op).leaseUntil == op.now + op.seconds
  {
  }

  // An instance granted a lease that does not release it stays its owner until the granted seconds
  // are over, whatever others claim, renew or release meanwhile; and what they do changes nothing.
  lemma LeaseExclusive(r: Row, grant: LeaseOp, ops: seq<LeaseOp>)
    requires Granted(r, grant)
    requires Clocked(ops, grant.now) && Keeps(ops, grant.instance, grant.seconds)
    requires forall op <- ops :: op.now <= grant.now + grant.seconds
    ensures var after := ApplyAll(ApplyLease(r, grant), ops);
            HeldUntil(after, grant.instance, grant.now + grant.seconds)
            && after == ApplyAll(ApplyLease(r, grant), Own(ops, grant.instance))
  {
    GrantHolds(r, grant);
    HolderStays(ApplyLease(r, grant), ops, grant.instance, grant.now, grant.seconds);
  }

  // Exactly when another instance can take the row over: the state is selectable, and the lease
  // was given back or its last grant has run out.
  lemma TakenOverExactlyWhenFree(r: Row, ops: seq<LeaseOp>, holder: Instance, last: int, seconds: int, other: Instance,
                                 now: int, otherSeconds: int)
    requires r.owner == Some(holder) && r.leaseUntil == last + seconds && other != holder
    requires Own(ops, holder) == [] && forall op <- ops :: op.now <= last + seconds
    requires Clocked(ops, last)
    ensures var after := ApplyLease(ApplyAll(r, ops), Claim(other, now, otherSeconds));
            after.owner == Some(other) <==> Claimable(r.state) && now > last + seconds
  {
    OwnEmpty(ops, holder);
    HolderStays(r, ops, holder, last, seconds);
  }

  lemma {:induction false} OwnEmpty(ops: seq<LeaseOp>, holder: Instance)
    requires Own(ops, holder) == []
    ensures forall op <- ops :: op.instance != holder
  {
    if ops != [] {
      OwnEmpty(ops[..|ops| - 1], holder);
      forall op | op in ops ensures op.instance != holder {
        if op != ops[|ops| - 1] { assert op in ops[..|ops| - 1]; }
      }
    }
  }
}
