/** The cross-process worker lease: one row, taken over once its heartbeat is 30 seconds old. */
module WorkerLease {
  import opened Common

  type OwnerId = string
  /** A timestamp, in microseconds. */
  type Time = int

  const STALE_AFTER := 30_000_000

  /** The single row of `worker_lease`. */
  datatype Row = Row(owner: OwnerId, heartbeat: Time)

  predicate Stale(heartbeat: Time, now: Time) {
    heartbeat < now - STALE_AFTER
  }

  predicate MayAcquire(lease: Option<Row>, owner: OwnerId, now: Time) {
    lease.None? || lease.value.owner == owner || Stale(lease.value.heartbeat, now)
  }

  class Lease {
    var row: Option<Row>

    constructor ()
      ensures row == None
    {
      row := None;
    }

    /** `acquire_worker_lease`. */
    method Acquire(owner: OwnerId, now: Time) returns (held: bool)
      modifies this
      ensures held == MayAcquire(old(row), owner, now)
      ensures row == if held then Some(Row(owner, now)) else old(row)
      ensures held <==>
        old(row).None? || old(row).value.owner == owner || now - old(row).value.heartbeat > 30_000_000
    {
      if row.Some? && row.value.owner != owner && !Stale(row.value.heartbeat, now) {
        return false;
      }
      row := Some(Row(owner, now));
      return true;
    }

    /** `renew_worker_lease`: false once another owner has taken over. */
    method Renew(owner: OwnerId, now: Time) returns (held: bool)
      modifies this
      ensures held == (old(row).Some? && old(row).value.owner == owner)
      ensures row == if held then Some(Row(owner, now)) else old(row)
    {
      held := row.Some? && row.value.owner == owner;
      if held {
        row := Some(row.value.(heartbeat := now));
      }
    }

    /** `release_worker_lease`: a no-op for anyone but the owner. */
    method Release(owner: OwnerId)
      modifies this
      ensures row == if old(row).Some? && old(row).value.owner == owner then None else old(row)
    {
      if row.Some? && row.value.owner == owner {
        row := None;
      }
    }
  }

  // ---- whole runs ----

  datatype Call = Acquire(owner: OwnerId) | Renew(owner: OwnerId) | Release(owner: OwnerId)

  /** A call at a reading of the clock. */
  datatype Event = Event(call: Call, now: Time)

  function Next(lease: Option<Row>, e: Event): Option<Row> {
    match e.call
    case Acquire(owner) => if MayAcquire(lease, owner, e.now) then Some(Row(owner, e.now)) else lease
    case Renew(owner) => if lease.Some? && lease.value.owner == owner then Some(Row(owner, e.now)) else lease
    case Release(owner) => if lease.Some? && lease.value.owner == owner then None else lease
  }

  /** The lease after the first `n` events. */
  function After(events: seq<Event>, n: nat): Option<Row>
    requires n <= |events|
  {
    if n == 0 then None else Next(After(events, n - 1), events[n - 1])
  }

  /** Event `n` was an acquire or a renew of `owner`, and it returned true. */
  predicate Wins(events: seq<Event>, n: nat, owner: OwnerId)
    requires n < |events|
  {
    match events[n].call
    case Acquire(o) => o == owner && MayAcquire(After(events, n), owner, events[n].now)
    case Renew(o) => o == owner && After(events, n).Some? && After(events, n).value.owner == owner
    case Release(_) => false
  }

  /** The clock does not run backwards. */
  ghost predicate Monotone(events: seq<Event>) {
    forall i, j | 0 <= i <= j < |events| :: events[i].now <= events[j].now
  }

  ghost predicate Unreleased(events: seq<Event>, i: nat, m: nat, owner: OwnerId) {
    forall n | i <= n < m && n < |events| :: events[n].call != Release(owner)
  }

  /** From a win of `owner` on, the lease is its own, no older than that win, until 30 seconds have
      passed. */
  lemma {:induction false} HeldForAWindow(events: seq<Event>, i: nat, m: nat, owner: OwnerId)
    requires Monotone(events) && i < m <= |events| && Wins(events, i, owner)
    requires Unreleased(events, i, m, owner)
    ensures events[m - 1].now > events[i].now + STALE_AFTER
      || (After(events, m).Some? && After(events, m).value.owner == owner
          && After(events, m).value.heartbeat >= events[i].now)
    decreases m
  {
    if m > i + 1 {
      HeldForAWindow(events, i, m - 1, owner);
      assert events[m - 2].now <= events[m - 1].now;
      assert events[i].now <= events[m - 1].now;
    }
  }

  /** Within 30 seconds of a win that is not released, every acquire by another owner fails. */
  lemma NobodyElseAcquires(events: seq<Event>, i: nat, m: nat, owner: OwnerId, other: OwnerId)
    requires Monotone(events) && i < m < |events| && Wins(events, i, owner) && Unreleased(events, i, m, owner)
    requires other != owner && events[m].call == Acquire(other) && events[m].now <= events[i].now + STALE_AFTER
    ensures !Wins(events, m, other) && After(events, m + 1) == After(events, m)
  {
    HeldForAWindow(events, i, m, owner);
    assert events[m - 1].now <= events[m].now;
  }

  /** The 30-second windows that wins open do not overlap for different owners: a later win of
      another owner, without a release between, comes more than 30 seconds after. */
  lemma WindowsNeverOverlap(events: seq<Event>, i: nat, m: nat, owner: OwnerId, other: OwnerId)
    requires Monotone(events) && i < m < |events| && Unreleased(events, i, m, owner)
    requires Wins(events, i, owner) && Wins(events, m, other) && other != owner
    ensures events[m].now > events[i].now + STALE_AFTER
  {
    HeldForAWindow(events, i, m, owner);
    assert events[m - 1].now <= events[m].now;
  }

  /** Once another owner has won, every renew fails until the first owner acquires again. */
  lemma {:induction false} RenewFailsAfterTakeover(events: seq<Event>, i: nat, m: nat, owner: OwnerId, other: OwnerId)
    requires i < m <= |events| && other != owner && Wins(events, i, other)
    requires forall n | i <= n < m :: events[n].call != Acquire(owner)
    ensures After(events, m).None? || After(events, m).value.owner != owner
    ensures m < |events| && events[m].call == Renew(owner) ==> !Wins(events, m, owner)
    decreases m
  {
    if m > i + 1 {
      RenewFailsAfterTakeover(events, i, m - 1, owner, other);
    }
  }

  /** Nobody wins from event `i` on, before `m`. */
  ghost predicate Silent(events: seq<Event>, i: nat, m: nat) {
    i <= m <= |events| && forall n, o | i <= n < m :: !Wins(events, n, o)
  }

  lemma {:induction false} SilenceChangesNothing(events: seq<Event>, i: nat, m: nat)
    requires i <= m && Silent(events, i, m)
    ensures After(events, m) == After(events, i) || After(events, m) == None
    decreases m
  {
    if i < m {
      SilenceChangesNothing(events, i, m - 1);
      match events[m - 1].call
      case Acquire(o) => assert !Wins(events, m - 1, o);
      case Renew(o) => assert !Wins(events, m - 1, o);
      case Release(_) =>
    }
  }

  lemma WinnerHolds(events: seq<Event>, i: nat, owner: OwnerId)
    requires i < |events| && Wins(events, i, owner)
    ensures After(events, i + 1) == Some(Row(owner, events[i].now))
  {
  }

  /** A worker that dies does not keep the lease: once its last win is more than 30 seconds old, the
      next acquire by anybody wins. */
  lemma SilentOwnerIsReplaced(events: seq<Event>, i: nat, m: nat, owner: OwnerId, other: OwnerId)
    requires i < m < |events| && Wins(events, i, owner) && Silent(events, i + 1, m)
    requires events[m].call == Acquire(other) && events[m].now > events[i].now + 30_000_000
    ensures Wins(events, m, other) && After(events, m + 1) == Some(Row(other, events[m].now))
  {
    WinnerHolds(events, i, owner);
    SilenceChangesNothing(events, i + 1, m);
    WinnerHolds(events, m, other);
  }
}
