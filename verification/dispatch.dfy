/** What the transactions around a dispatch write, column by column: claims, settlements, deferrals,
    request permits, and the receiver's own ledger. */
module Dispatch {
  import opened Schema
  import opened Policy
  import opened ServiceTx
  import opened CapacityTx
  import opened Receiver
  import opened WorkerTx
  import opened Decisions

  // ----- claim -----

  /** The destination of the job is not to be asked before a later time. */
  predicate Cooling(b: Business, id: Id, now: Time) {
    && id in b.routes && b.routes[id] in b.capacity.rows
    && b.capacity.rows[b.routes[id]].nextProbe.Some? && now < b.capacity.rows[b.routes[id]].nextProbe.value
  }

  /** Waiting and due, or leased and the lease is over; and the destination is not cooling. */
  predicate Due(b: Business, id: Id, now: Time) {
    && id in b.jobs
    && (|| (b.jobs[id].status in {Ready, Retry} && b.jobs[id].availableAt <= now)
        || (b.jobs[id].status == Leased && b.jobs[id].leaseUntil.Some? && b.jobs[id].leaseUntil.value <= now))
    && !Cooling(b, id, now)
  }

  lemma ClaimableMeaning(b: Business, id: Id, now: Time)
    ensures Claimable(b, id, now) <==> Due(b, id, now)
  {
  }

  /** The column `last_served` of the job's destination as a sort key: NULL, then '-infinity', then times. */
  function ServedKey(b: Business, id: Id): (int, Time) {
    if id !in b.routes || b.routes[id] !in b.capacity.rows then (0, 0)
    else if b.capacity.rows[b.routes[id]].lastServed.None? then (1, 0)
    else (2, b.capacity.rows[b.routes[id]].lastServed.value)
  }

  /** Sorted by `last_served`, then `available_at`, then id. */
  predicate SortedBefore(b: Business, i: Id, j: Id)
    requires i in b.jobs && j in b.jobs
  {
    var a, c := ServedKey(b, i), ServedKey(b, j);
    || a.0 < c.0
    || (a.0 == c.0 && a.1 < c.1)
    || (a == c && b.jobs[i].availableAt < b.jobs[j].availableAt)
    || (a == c && b.jobs[i].availableAt == b.jobs[j].availableAt && i < j)
  }

  lemma OrderMeaning(b: Business, i: Id, j: Id)
    requires i in b.jobs && j in b.jobs
    ensures Precedes(b, i, j) <==> SortedBefore(b, i, j)
  {
  }

  /** The row that the claim query returns: due, unlocked, and before every other such row. */
  predicate FirstDue(b: Business, locked: set<Id>, id: Id, now: Time) {
    && Due(b, id, now) && id !in locked
    && forall other <- b.jobs.Keys - locked - {id} | Due(b, other, now) :: SortedBefore(b, id, other)
  }

  lemma ClaimDecision(b: Business, locked: set<Id>, id: Id, now: Time)
    ensures Next(b, locked, id, now) <==> FirstDue(b, locked, id, now)
  {
    hide Claimable, Due, Precedes, SortedBefore;
    forall other: Id ensures Claimable(b, other, now) <==> Due(b, other, now) { ClaimableMeaning(b, other, now); }
    forall i: Id ensures Due(b, i, now) ==> i in b.jobs { DueIsAJob(b, i, now); }
    forall i: Id, j: Id | i in b.jobs && j in b.jobs ensures Precedes(b, i, j) <==> SortedBefore(b, i, j) { OrderMeaning(b, i, j); }
  }

  lemma DueIsAJob(b: Business, id: Id, now: Time)
    ensures Due(b, id, now) ==> id in b.jobs
  {
  }

  lemma ClaimWrites(b: Business, id: Id, token: Id, lease: Time, now: Time)
    requires id in b.jobs
    ensures var job := b.jobs[id];
      ClaimTx(b, id, token, lease, now) == b.(jobs := b.jobs[id :=
        JobRow(Leased, job.attempts + 1, job.availableAt, Some(now + lease), Some(token), job.uncertain, job.mutation,
               job.reason, job.remoteResult)])
  {
  }

  // ----- finish -----

  function PowerOfTwo(n: nat): nat { if n == 0 then 1 else 2 * PowerOfTwo(n - 1) }

  lemma {:induction false} AtLeastSixtyFour(n: nat)
    requires 6 <= n
    ensures 64 <= PowerOfTwo(n)
  {
    if n == 6 {
      assert PowerOfTwo(6) == 2 * PowerOfTwo(5) && PowerOfTwo(5) == 2 * PowerOfTwo(4) && PowerOfTwo(4) == 2 * PowerOfTwo(3);
      assert PowerOfTwo(3) == 2 * PowerOfTwo(2) && PowerOfTwo(2) == 2 * PowerOfTwo(1);
    } else {
      AtLeastSixtyFour(n - 1);
    }
  }

  /** The retry delay doubles with each attempt, up to a minute. */
  lemma {:induction false} BackoffMeaning(n: nat)
    ensures Backoff(n) == if PowerOfTwo(n) < 60 then PowerOfTwo(n) else 60
  {
    if 6 <= n {
      AtLeastSixtyFour(n);
    } else if n > 0 {
      BackoffMeaning(n - 1);
      assert n == 1 || n == 2 || n == 3 || n == 4 || n == 5;
      assert Backoff(1) == 2 * Backoff(0) && Backoff(2) == 2 * Backoff(1) && Backoff(3) == 2 * Backoff(2);
      assert Backoff(4) == 2 * Backoff(3) && Backoff(5) == 2 * Backoff(4);
    }
  }

  /** The settled row: a fourth attempt is the last, the lease ends, the intent and the attempts stay,
      and the next attempt waits as told, or twice as long as the last time, up to a minute. */
  predicate SettledAs(job: JobRow, job': JobRow, f: Finish, jitter: Time, now: Time) {
    var exhausted := f.status == Retry && 4 <= job.attempts;
    && job'.status == (if exhausted then Dead else f.status)
    && job'.reason == Some(if exhausted then RetryExhausted else f.reason)
    && job'.remoteResult == f.result && job'.leaseToken == None && job'.leaseUntil == None
    && job'.attempts == job.attempts && job'.mutation == job.mutation
    && (f.uncertain == None ==> job'.uncertain == job.uncertain)
    && (f.uncertain.Some? ==> job'.uncertain == f.uncertain.value)
    && (f.delay.Some? ==> job'.availableAt == now + 1_000_000 * f.delay.value)
    && (f.delay == None && 0 <= job.attempts ==>
          job'.availableAt == now + jitter + 1_000_000 * (if PowerOfTwo(job.attempts) < 60 then PowerOfTwo(job.attempts) else 60))
  }

  /** The exception that a settlement raises, if any. */
  function ExceptionFor(job': JobRow): Option<Category> {
    if job'.status !in {Dead, Blocked} then None
    else if job'.reason == Some(RetryExhausted) then Some(RetriesExhausted)
    else if job'.reason == Some(RemoteRejected) then Some(RejectedRemotely)
    else Some(ExecutionBlocked)
  }

  predicate Settlement(b: Business, b': Business, id: Id, f: Finish, jitter: Time, now: Time) {
    && id in b.jobs && id in b'.jobs && SettledAs(b.jobs[id], b'.jobs[id], f, jitter, now)
    && var raised := ExceptionFor(b'.jobs[id]);
    && b' == b.(jobs := b.jobs[id := b'.jobs[id]],
                exceptions := if raised.None? then b.exceptions
                              else b.exceptions + [ExceptionRow(raised.value, OfRow(id), OpenException)])
  }

  lemma FinishedRow(job: JobRow, f: Finish, jitter: Time, now: Time)
    ensures SettledAs(job, FinishedJob(job, f, jitter, now), f, jitter, now)
    ensures var capped := Capped(job, f);
      ExceptionFor(FinishedJob(job, f, jitter, now)) ==
      if capped.status in {Dead, Blocked} then Some(CategoryOf(capped.reason)) else None
  {
    if 0 <= job.attempts { BackoffMeaning(job.attempts); }
    hide Backoff, PowerOfTwo;
  }

  /** Fenced: without the lease nothing changes, with it the settled row and its exception are written. */
  lemma FinishDecision(b: Business, id: Id, token: Id, f: Finish, jitter: Time, now: Time)
    ensures !Holding(b, id, token) ==> FinishTx(b, id, token, f, jitter, now) == b
    ensures Holding(b, id, token) ==> Settlement(b, FinishTx(b, id, token, f, jitter, now), id, f, jitter, now)
  {
    if Holding(b, id, token) { FinishedRow(b.jobs[id], f, jitter, now); }
    hide Backoff, Capped, CategoryOf, FinishedJob, SettledAs, ExceptionFor;
  }

  // ----- prepare and defer -----

  lemma PrepareWrites(policy: Hash, open: bool, b: Business, id: Id, token: Id, now: Time)
    ensures var r, b' := Preparation(policy, open, b, id, token, now), PrepareTx(policy, open, b, id, token, now);
      && (!r.Authorized? ==> b' == b)
      && (r.Authorized? ==> id in b.jobs && b' == b.(jobs := b.jobs[id := b.jobs[id].(mutation := Some(r.mutation), uncertain := true)]))
  {
  }

  /** A deferral ends the lease, waits a tenth of a second, and gives an unused attempt back. */
  lemma DeferDecision(b: Business, id: Id, token: Id, attempted: bool, now: Time)
    ensures !Holding(b, id, token) ==> DeferTx(b, id, token, attempted, now) == b
    ensures Holding(b, id, token) ==>
      DeferTx(b, id, token, attempted, now) == b.(jobs := b.jobs[id :=
        b.jobs[id].(status := Retry, leaseToken := None, leaseUntil := None, availableAt := now + 100_000,
                    attempts := if attempted then b.jobs[id].attempts else b.jobs[id].attempts - 1)])
  {
  }

  // ----- permits -----

  /** The row as the first statement leaves it. */
  function StoredRow(c: Capacity, d: DestId): CapacityRow {
    if d in c.rows then c.rows[d] else CapacityRow(0, 0, None, None)
  }

  /** The second that a request is charged to: the clock's, but never an earlier one than before. */
  function ChargedTo(c: Capacity, d: DestId, r: Readings): int {
    var second := r.window / 1_000_000;
    if second < StoredRow(c, d).windowId then StoredRow(c, d).windowId else second
  }

  function Spent(c: Capacity, d: DestId, r: Readings): int {
    if StoredRow(c, d).windowId == ChargedTo(c, d, r) then StoredRow(c, d).used else 0
  }

  predicate Expired(p: Permit, d: DestId, at: Time) { p.destination == d && p.expires <= at }

  function InForce(c: Capacity, d: DestId, at: Time): set<Id> {
    set token | token in c.permits && c.permits[token].destination == d && at < c.permits[token].expires
  }

  /** Nothing is left to give: the destination cools down, the second is spent, but for the one
      request of it that dispatches may not use, or all permits are in force. */
  predicate NothingLeft(route: Destination, d: DestId, kind: Kind, c: Capacity, r: Readings) {
    || (StoredRow(c, d).nextProbe.Some? && r.probe < StoredRow(c, d).nextProbe.value)
    || (kind == ReceiptCall && route.requestsPerSecond <= Spent(c, d, r))
    || (kind == DispatchCall && route.requestsPerSecond - 1 <= Spent(c, d, r))
    || route.concurrency <= |InForce(c, d, r.purge)|
  }

  predicate TokenTaken(c: Capacity, d: DestId, r: Readings, token: Id) {
    token in c.requests || (token in c.permits && !Expired(c.permits[token], d, r.purge))
  }

  /** Expired permits of the destination are gone, every other is as it was, and `added` are new. */
  ghost predicate Swept(c: Capacity, c': Capacity, d: DestId, at: Time, added: map<Id, Permit>) {
    && (forall token :: token in c'.permits <==> token in added || (token in c.permits && !Expired(c.permits[token], d, at)))
    && (forall token <- c'.permits :: c'.permits[token] == if token in added then added[token] else c.permits[token])
  }

  lemma AcquireDecision(route: Destination, d: DestId, kind: Kind, c: Capacity, r: Readings, token: Id)
    ensures var (c', outcome) := AcquireTx(route, d, kind, c, r, token);
      && (outcome == Refused <==> NothingLeft(route, d, kind, c, r))
      && (outcome == Raised <==> !NothingLeft(route, d, kind, c, r) && TokenTaken(c, d, r, token))
      && (outcome == Granted <==> !NothingLeft(route, d, kind, c, r) && !TokenTaken(c, d, r, token))
  {
    assert InForce(c, d, r.purge) == LiveAt(Purged(c.permits, d, r.purge), d);
  }

  /** What each outcome writes: a grant charges the second and stores a permit for thirty seconds. */
  lemma AcquireWrites(route: Destination, d: DestId, kind: Kind, c: Capacity, r: Readings, token: Id)
    ensures var (c', outcome) := AcquireTx(route, d, kind, c, r, token);
      && c'.completions == c.completions
      && (outcome == Raised ==> c' == c)
      && (outcome == Refused ==> c'.rows == c.rows[d := StoredRow(c, d)] && c'.requests == c.requests)
      && (outcome == Granted ==> c'.requests == c.requests[token := Grant(d, ChargedTo(c, d, r), kind, r.issue)])
      && (outcome == Granted ==> c'.rows == c.rows[d := Charged(c, d, r)])
  {
    hide Purged, LiveAt;
  }

  lemma AcquireSweeps(route: Destination, d: DestId, kind: Kind, c: Capacity, r: Readings, token: Id)
    ensures var (c', outcome) := AcquireTx(route, d, kind, c, r, token);
      && (outcome == Refused ==> Swept(c, c', d, r.purge, map[]))
      && (outcome == Granted ==> Swept(c, c', d, r.purge, map[token := Permit(d, r.expiry + 30_000_000, kind)]))
  {
    hide LiveAt, Window, Used, Limit, RowOf;
  }

  function Charged(c: Capacity, d: DestId, r: Readings): CapacityRow {
    CapacityRow(ChargedTo(c, d, r), Spent(c, d, r) + 1, StoredRow(c, d).nextProbe, Some(r.serve))
  }

  /** A completion is recorded once; a failure puts the probe off, and never brings it forward. */
  lemma ReleaseDecision(d: DestId, c: Capacity, token: Id, failed: bool, cooldown: int, at: Time)
    ensures var (c', ok) := ReleaseTx(d, c, token, failed, cooldown, at);
      && (ok <==> token in c.requests && token !in c.completions)
      && (!ok ==> c' == c)
      && (ok ==> c'.completions == c.completions[token := Completion(at, failed)] && c'.requests == c.requests)
      && (ok ==> c'.permits == map t | t in c.permits && t != token :: c.permits[t])
      && (ok && (!failed || d !in c.rows) ==> c'.rows == c.rows)
      && (ok && failed && d in c.rows ==> CooledRow(c, c', d, at + 1_000_000 * cooldown))
  {
  }

  predicate CooledRow(c: Capacity, c': Capacity, d: DestId, until: Time)
    requires d in c.rows
  {
    var before := c.rows[d].nextProbe;
    c'.rows == c.rows[d := c.rows[d].(nextProbe := Some(if before.Some? && until <= before.value then before.value else until))]
  }

  // ----- the receiver -----

  /** The next planned failure of the key, if there is one. */
  function Planned(ledger: Ledger, key: Id): seq<FailureMode> {
    if key in ledger.plans && |ledger.plans[key]| > 0 then [ledger.plans[key][0]] else []
  }

  /** A known key gets its receipt, or a conflict if the body differs; a new one gets the planned
      failure, which is used up, or is committed, by a timeout after the commit too. */
  lemma MutateDecision(digest: Doc -> Hash, ledger: Ledger, key: Id, body: Mutation, receipt: Id, now: Time)
    ensures var (ledger', answer) := MutateTx(digest, ledger, key, body, receipt, now);
      && (key in ledger.effects ==> ledger' == ledger)
      && (key in ledger.effects && ledger.effects[key].hash != digest(OfMutation(body)) ==> answer == Status(409, None))
      && (key in ledger.effects && ledger.effects[key].hash == digest(OfMutation(body)) ==>
            answer == Held(Receipt(key, ledger.effects[key].receipt, ledger.effects[key].hash, ledger.effects[key].committedAt)))
    ensures var (ledger', answer) := MutateTx(digest, ledger, key, body, receipt, now);
      key !in ledger.effects ==> NewKey(digest, ledger, ledger', key, body, receipt, now, answer)
  {
  }

  predicate NewKey(digest: Doc -> Hash, ledger: Ledger, ledger': Ledger, key: Id, body: Mutation, receipt: Id, now: Time,
                   answer: Answer) {
    var planned := Planned(ledger, key);
    && ledger'.plans == (if planned == [] then ledger.plans else ledger.plans[key := ledger.plans[key][1..]])
    && (planned == [Fail429] ==> answer == Status(429, Some(1)))
    && (planned == [Fail500] ==> answer == Status(500, Some(1)))
    && (planned == [Fail422] ==> answer == Status(422, Some(1)))
    && (planned == [TimeoutBefore] ==> answer == Status(503, None))
    && (planned in {[Fail429], [Fail500], [Fail422], [TimeoutBefore]} ==> ledger'.effects == ledger.effects)
    && (planned in {[], [TimeoutAfter]} ==>
          && answer == Held(Receipt(key, receipt, digest(OfMutation(body)), now))
          && ledger'.effects == ledger.effects[key := Effect(digest(OfMutation(body)), body, receipt, now)])
  }
}
