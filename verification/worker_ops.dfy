/** The worker's and the capacity code's transactions on the mutable database, each proved against
    its function. */
module WorkerOps {
  import opened Schema
  import opened Policy
  import opened ServiceTx
  import opened CapacityTx
  import opened Receiver
  import opened WorkerTx
  import opened Decisions
  import opened Dispatch

  // ----- claim -----

  lemma ClaimOrderIsTotal(b: Business, i: Id, j: Id)
    requires i in b.jobs && j in b.jobs && i != j
    ensures Precedes(b, i, j) != Precedes(b, j, i)
  {
  }

  lemma ClaimOrderIsTransitive(b: Business, i: Id, j: Id, k: Id)
    requires i in b.jobs && j in b.jobs && k in b.jobs && Precedes(b, i, j) && Precedes(b, j, k)
    ensures Precedes(b, i, k)
  {
  }

  predicate Free(b: Business, locked: set<Id>, id: Id, now: Time) { Claimable(b, id, now) && id !in locked }

  /** The claim query: of the rows that are due, unlocked and out of cooldown, the first in order. */
  method NextJob(db: ControlDb, locked: set<Id>, now: Time) returns (r: Option<Id>)
    ensures r.None? ==> forall id: Id :: !Free(db.Biz(), locked, id, now)
    ensures r.Some? ==> Next(db.Biz(), locked, r.value, now)
    ensures r.None? <==> forall id: Id :: Due(db.Biz(), id, now) ==> id in locked
    ensures r.Some? ==> FirstDue(db.Biz(), locked, r.value, now)
  {
    hide Due, FirstDue;
    r := None;
    var left := db.jobs.Keys;
    while left != {}
      invariant left <= db.jobs.Keys
      invariant r.None? ==> forall id <- db.jobs.Keys - left :: !Free(db.Biz(), locked, id, now)
      invariant r.Some? ==> r.value in db.jobs && r.value !in left && Free(db.Biz(), locked, r.value, now)
      invariant r.Some? ==> forall id <- db.jobs.Keys - left | id != r.value && Free(db.Biz(), locked, id, now) ::
        Precedes(db.Biz(), r.value, id)
      decreases left
    {
      hide Claimable, Precedes;
      var id :| id in left;
      left := left - {id};
      if Claimable(db.Biz(), id, now) && id !in locked {
        if r.None? {
          r := Some(id);
        } else if Precedes(db.Biz(), id, r.value) {
          forall other <- db.jobs.Keys - left | other != id && other != r.value && Free(db.Biz(), locked, other, now)
            ensures Precedes(db.Biz(), id, other)
          {
            ClaimOrderIsTransitive(db.Biz(), id, r.value, other);
          }
          r := Some(id);
        } else {
          ClaimOrderIsTotal(db.Biz(), id, r.value);
        }
      }
    }
    ChosenIsDue(db.Biz(), locked, r, now);
  }

  lemma ChosenIsDue(b: Business, locked: set<Id>, r: Option<Id>, now: Time)
    requires r.None? ==> forall id: Id :: !Free(b, locked, id, now)
    requires r.Some? ==> Next(b, locked, r.value, now)
    ensures r.None? <==> forall id: Id :: Due(b, id, now) ==> id in locked
    ensures r.Some? ==> FirstDue(b, locked, r.value, now)
  {
    hide Claimable, Due, Next, FirstDue;
    forall id: Id ensures Claimable(b, id, now) <==> Due(b, id, now) { ClaimableMeaning(b, id, now); }
    if r.Some? {
      ClaimDecision(b, locked, r.value, now);
      assert Due(b, r.value, now) && r.value !in locked by { FirstIsDue(b, locked, r.value, now); }
    } else {
      forall id: Id | Due(b, id, now) ensures id in locked { assert !Free(b, locked, id, now); }
    }
  }

  lemma FirstIsDue(b: Business, locked: set<Id>, id: Id, now: Time)
    requires FirstDue(b, locked, id, now)
    ensures id in b.jobs && Due(b, id, now) && id !in locked
  {
  }

  /** At a closed gate nothing is claimed; otherwise the next job, under a new lease. */
  method Claim(db: ControlDb, locked: set<Id>, token: Id, lease: Time, now: Time) returns (r: Option<(Id, JobRow)>)
    modifies db`jobs
    ensures r.None? ==> db.jobs == old(db.jobs)
    ensures r.None? ==> db.gate.mode == Closed || forall id: Id :: !Free(old(db.Biz()), locked, id, now)
    ensures r.Some? ==> db.gate.mode == Open && Next(old(db.Biz()), locked, r.value.0, now)
    ensures r.Some? ==> db.Biz() == ClaimTx(old(db.Biz()), r.value.0, token, lease, now)
    ensures r.Some? ==> r.value.0 in db.jobs && r.value.1 == db.jobs[r.value.0]
    ensures r.None? <==> db.gate.mode == Closed || forall id: Id :: Due(old(db.Biz()), id, now) ==> id in locked
    ensures r.Some? ==> FirstDue(old(db.Biz()), locked, r.value.0, now)
    ensures r.Some? ==> r.value.0 in old(db.jobs) && db.jobs == old(db.jobs)[r.value.0 := r.value.1]
    ensures r.Some? ==> r.value.1 == old(db.jobs)[r.value.0].(status := Leased, leaseToken := Some(token),
      leaseUntil := Some(now + lease), attempts := old(db.jobs)[r.value.0].attempts + 1)
  {
    hide Due, FirstDue;
    if db.gate.mode != Open { return None; }
    var chosen := NextJob(db, locked, now);
    assert db.Biz() == old(db.Biz());
    if chosen.None? { return None; }
    hide Next, Precedes;
    var id := chosen.value;
    FirstIsDue(db.Biz(), locked, id, now);
    var job := db.jobs[id];
    db.jobs := db.jobs[id := job.(status := Leased, leaseToken := Some(token), leaseUntil := Some(now + lease),
                                  attempts := job.attempts + 1)];
    return Some((id, db.jobs[id]));
  }

  // ----- finish, prepare, defer -----

  method FinishJob(db: ControlDb, id: Id, token: Id, f: Finish, jitter: Time, now: Time) returns (effective: bool)
    modifies db`jobs, db`exceptions
    ensures effective == Holding(old(db.Biz()), id, token)
    ensures db.Biz() == FinishTx(old(db.Biz()), id, token, f, jitter, now)
    ensures !effective ==> db.jobs == old(db.jobs) && db.exceptions == old(db.exceptions)
    ensures effective ==> Settlement(old(db.Biz()), db.Biz(), id, f, jitter, now)
  {
    LeaseDecision(db.Biz(), id, token);
    FinishDecision(db.Biz(), id, token, f, jitter, now);
    hide Settlement, Backoff;
    if id !in db.jobs || db.jobs[id].leaseToken != Some(token) || db.jobs[id].status != Leased { return false; }
    var current := db.jobs[id];
    var status, reason := f.status, f.reason;
    if status == Retry && current.attempts >= MAX_ATTEMPTS { status, reason := Dead, RetryExhausted; }
    var wait := if f.delay.Some? then f.delay.value * SECOND else Backoff(current.attempts) * SECOND + jitter;
    db.jobs := db.jobs[id := current.(status := status, reason := Some(reason), remoteResult := f.result,
                                      leaseToken := None, leaseUntil := None,
                                      uncertain := if f.uncertain.None? then current.uncertain else f.uncertain.value,
                                      availableAt := now + wait)];
    if status in {Dead, Blocked} {
      var category := if reason == RetryExhausted then RetriesExhausted
                      else if reason == RemoteRejected then RejectedRemotely else ExecutionBlocked;
      db.AddException(category, OfRow(id));
    }
    return true;
  }

  method Prepare(db: ControlDb, id: Id, token: Id, now: Time) returns (r: Prepared)
    modifies db`jobs
    ensures r == Preparation(db.policy, db.gate.mode == Open, old(db.Biz()), id, token, now)
    ensures db.Biz() == PrepareTx(db.policy, db.gate.mode == Open, old(db.Biz()), id, token, now)
    ensures !r.Authorized? ==> db.jobs == old(db.jobs)
    ensures r.Authorized? ==> db.gate.mode == Open && Holds(old(db.Biz()), id, token) && Holds(db.Biz(), id, token)
    ensures r.Authorized? ==> db.jobs == old(db.jobs)[id := db.jobs[id]]
    ensures r.Authorized? ==> db.jobs[id].mutation == Some(r.mutation) && db.jobs[id].uncertain
    ensures r.Authorized? ==> old(db.jobs)[id].mutation in {None, Some(r.mutation)}
    ensures r == Crashed <==> db.gate.mode == Open && !RowsPresent(old(db.Biz()), id)
    ensures r == Objected(RecoveryClosed) <==> db.gate.mode == Closed
    ensures r == Objected(LeaseLost) <==>
      db.gate.mode == Open && RowsPresent(old(db.Biz()), id) && !Holding(old(db.Biz()), id, token)
    ensures db.gate.mode == Open && RowsPresent(old(db.Biz()), id) && Holding(old(db.Biz()), id, token) ==>
      Prepares(db.policy, old(db.Biz()), id, now, r)
    ensures r.Authorized? ==> RowsPresent(old(db.Biz()), id)
    ensures r.Authorized? ==> Sendable(db.policy, db.proposals[id], db.customers[db.proposals[id].customer], now)
    ensures r.Authorized? ==> Conveys(db.customers[db.proposals[id].customer], db.proposals[id], r.mutation)
  {
    PreparationDecision(db.policy, db.gate.mode == Open, db.Biz(), id, token, now);
    hide Prepares, Sendable, Conveys, Objection, ProfileOf;
    if db.gate.mode != Open { return Objected(RecoveryClosed); }
    if id !in db.proposals || db.proposals[id].customer !in db.customers || id !in db.jobs { return Crashed; }
    var p := db.proposals[id];
    var row := db.customers[p.customer];
    var current := db.jobs[id];
    if current.leaseToken != Some(token) || current.status != Leased { return Objected(LeaseLost); }
    var reason := Objection(db.policy, p, row, now, true);
    if reason.Some? { return Objected(reason.value); }
    var payload := if p.body.action == SendMarketing then Contact(Lookup(row.state, Email), p.body.template)
                   else Profile(ProfileOf(row.state));
    var mutation := Mutation(p.customer, p.body.action, row.revision, payload);
    if current.mutation.Some? && current.mutation.value != mutation { return Objected(MutationChanged); }
    db.jobs := db.jobs[id := current.(mutation := Some(mutation), uncertain := true)];
    return Authorized(mutation);
  }

  method Defer(db: ControlDb, id: Id, token: Id, attempted: bool, now: Time)
    modifies db`jobs
    ensures db.Biz() == DeferTx(old(db.Biz()), id, token, attempted, now)
    ensures !Holds(old(db.Biz()), id, token) ==> db.jobs == old(db.jobs)
    ensures Holds(old(db.Biz()), id, token) ==> id in db.jobs && db.jobs == old(db.jobs)[id := db.jobs[id]]
    ensures Holds(old(db.Biz()), id, token) ==> db.jobs[id].leaseToken == None
    ensures Holds(old(db.Biz()), id, token) ==> db.jobs[id].uncertain == old(db.jobs)[id].uncertain
    ensures Holding(old(db.Biz()), id, token) ==> db.jobs[id] == old(db.jobs)[id].(status := Retry, leaseToken := None,
      leaseUntil := None, availableAt := now + 100_000,
      attempts := old(db.jobs)[id].attempts - (if attempted then 0 else 1))
  {
    if id in db.jobs && db.jobs[id].leaseToken == Some(token) && db.jobs[id].status == Leased {
      var job := db.jobs[id];
      db.jobs := db.jobs[id := job.(status := Retry, leaseToken := None, leaseUntil := None,
                                    attempts := job.attempts - (if attempted then 0 else 1),
                                    availableAt := now + DEFERRAL)];
    }
  }

  // ----- permits -----

  /** Each statement of the transaction takes its own reading of the clock. */
  method Acquire(db: ControlDb, destination: DestId, kind: Kind, r: Readings, token: Id) returns (outcome: Acquired)
    requires destination in db.cfg.destinations
    modifies db`capacityRows, db`permits, db`requests
    ensures (db.Permits(), outcome) ==
      AcquireTx(db.cfg.destinations[destination], destination, kind, old(db.Permits()), r, token)
    ensures outcome != Granted ==> db.requests == old(db.requests)
    ensures outcome == Granted ==> token !in old(db.requests) && db.requests == old(db.requests)[token := db.requests[token]]
    ensures outcome == Refused <==> NothingLeft(db.cfg.destinations[destination], destination, kind, old(db.Permits()), r)
    ensures outcome == Granted <==> !NothingLeft(db.cfg.destinations[destination], destination, kind, old(db.Permits()), r)
                                    && !TokenTaken(old(db.Permits()), destination, r, token)
    ensures outcome == Granted ==> Swept(old(db.Permits()), db.Permits(), destination, r.purge,
                                         map[token := Permit(destination, r.expiry + 30_000_000, kind)])
    ensures outcome == Granted ==>
      db.capacityRows == old(db.capacityRows)[destination := Charged(old(db.Permits()), destination, r)]
    ensures outcome == Granted ==> db.requests == old(db.requests)[token :=
      Grant(destination, ChargedTo(old(db.Permits()), destination, r), kind, r.issue)]
    ensures outcome == Refused ==>
      db.capacityRows == old(db.capacityRows)[destination := StoredRow(old(db.Permits()), destination)]
    ensures outcome == Refused ==> Swept(old(db.Permits()), db.Permits(), destination, r.purge, map[])
    ensures outcome == Raised ==> db.Permits() == old(db.Permits())
  {
    AcquireDecision(db.cfg.destinations[destination], destination, kind, db.Permits(), r, token);
    AcquireWrites(db.cfg.destinations[destination], destination, kind, db.Permits(), r, token);
    AcquireSweeps(db.cfg.destinations[destination], destination, kind, db.Permits(), r, token);
    hide NothingLeft, TokenTaken, Swept, Charged, ChargedTo, StoredRow;
    var route := db.cfg.destinations[destination];
    var rows, permits := db.capacityRows, db.permits;
    if destination !in db.capacityRows { db.capacityRows := db.capacityRows[destination := FRESH_ROW]; }
    var state := db.capacityRows[destination];
    assert db.capacityRows == rows[destination := state];
    db.permits := Purged(db.permits, destination, r.purge);
    var live := |LiveAt(db.permits, destination)|;
    var window := Later(WindowOf(r.window), state.windowId);
    var used := if state.windowId == window then state.used else 0;
    var limit := route.requestsPerSecond - (if kind == DispatchCall then 1 else 0);
    var eligible := state.nextProbe.None? || state.nextProbe.value <= r.probe;
    if !eligible || used >= limit || live >= route.concurrency { return Refused; }
    if token in db.permits || token in db.requests {
      db.capacityRows, db.permits := rows, permits;
      return Raised;
    }
    db.permits := db.permits[token := Permit(destination, r.expiry + PERMIT_TTL, kind)];
    db.requests := db.requests[token := Grant(destination, window, kind, r.issue)];
    db.capacityRows := db.capacityRows[destination := state.(windowId := window, used := used + 1, lastServed := Some(r.serve))];
    assert db.capacityRows == rows[destination := state][destination := CapacityRow(window, used + 1, state.nextProbe, Some(r.serve))];
    return Granted;
  }

  method Release(db: ControlDb, destination: DestId, token: Id, failed: bool, cooldown: int,
                 now: Time) returns (ok: bool)
    modifies db`capacityRows, db`permits, db`completions
    ensures (db.Permits(), ok) == ReleaseTx(destination, old(db.Permits()), token, failed, cooldown, now)
    ensures ok <==> token in db.requests && token !in old(db.completions)
    ensures ok ==> db.permits == (map t | t in old(db.permits) && t != token :: old(db.permits)[t])
    ensures ok ==> db.completions == old(db.completions)[token := Completion(now, failed)]
    ensures ok && failed && destination in old(db.capacityRows) ==>
      CooledRow(old(db.Permits()), db.Permits(), destination, now + 1_000_000 * cooldown)
    ensures ok && (!failed || destination !in old(db.capacityRows)) ==> db.capacityRows == old(db.capacityRows)
    ensures !ok ==> db.permits == old(db.permits) && db.completions == old(db.completions)
    ensures db.capacityRows.Keys == old(db.capacityRows).Keys
    ensures forall d <- old(db.capacityRows) ::
      db.capacityRows[d] == old(db.capacityRows)[d].(nextProbe := db.capacityRows[d].nextProbe)
  {
    if token !in db.requests || token in db.completions { return false; }
    db.permits := db.permits - {token};
    db.completions := db.completions[token := Completion(now, failed)];
    if failed && destination in db.capacityRows {
      var row := db.capacityRows[destination];
      var until := now + cooldown * SECOND;
      db.capacityRows := db.capacityRows[destination :=
        row.(nextProbe := Some(if row.nextProbe.None? then until else Later(row.nextProbe.value, until)))];
    }
    return true;
  }
}
