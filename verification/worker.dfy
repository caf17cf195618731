/** The outbox worker: claim under a lease, authorise before networking, settle behind a fence.
    `execute` is split into the decisions it takes between transactions and network calls. */
module WorkerTx {
  import opened Schema
  import opened Policy
  import opened ServiceTx
  import opened Receiver
  import opened CapacityTx

  // ----- claim -----

  function ProbeOf(b: Business, id: Id): Option<Time> {
    if id in b.routes then RowOf(b.capacity, b.routes[id]).nextProbe else None
  }

  predicate Claimable(b: Business, id: Id, now: Time) {
    && id in b.jobs
    && var job := b.jobs[id];
    && (|| (job.status in {Ready, Retry} && job.availableAt <= now)
        || (job.status == Leased && job.leaseUntil.Some? && job.leaseUntil.value <= now))
    && (ProbeOf(b, id).None? || ProbeOf(b, id).value <= now)
  }

  /** When the job's destination was last served: never, at '-infinity', or at a time. */
  datatype Turn = NoRow | Unserved | ServedAt(at: Time)

  function TurnOf(b: Business, id: Id): Turn {
    if id !in b.routes || b.routes[id] !in b.capacity.rows then NoRow
    else match b.capacity.rows[b.routes[id]].lastServed
      case None => Unserved
      case Some(at) => ServedAt(at)
  }

  predicate TurnBefore(a: Turn, b: Turn) {
    match (a, b)
    case (NoRow, _) => !b.NoRow?
    case (Unserved, ServedAt(_)) => true
    case (ServedAt(x), ServedAt(y)) => x < y
    case _ => false
  }

  /** The claim order: least recently served destination, then due time, then id. */
  predicate Precedes(b: Business, i: Id, j: Id)
    requires i in b.jobs && j in b.jobs
  {
    || TurnBefore(TurnOf(b, i), TurnOf(b, j))
    || (&& TurnOf(b, i) == TurnOf(b, j)
        && (|| b.jobs[i].availableAt < b.jobs[j].availableAt
            || (b.jobs[i].availableAt == b.jobs[j].availableAt && i < j)))
  }

  /** `id` is the row that the claim query returns while the rows `locked` are skipped. */
  ghost predicate Next(b: Business, locked: set<Id>, id: Id, now: Time) {
    && Claimable(b, id, now) && id !in locked
    && forall other | Claimable(b, other, now) && other !in locked && other != id :: Precedes(b, id, other)
  }

  function ClaimTx(b: Business, id: Id, token: Id, lease: Time, now: Time): Business {
    if id !in b.jobs then b
    else
      var job := b.jobs[id];
      WithJob(b, id, job.(status := Leased, leaseToken := Some(token), leaseUntil := Some(now + lease),
                          attempts := job.attempts + 1))
  }

  // ----- finish -----

  datatype Finish = Finish(status: Status, reason: Reason, result: Option<Receipt>,
                           uncertain: Option<bool>, delay: Option<int>)

  function Backoff(attempts: int): int {
    if attempts >= 6 then 60
    else if attempts <= 0 then 1
    else 2 * Backoff(attempts - 1)
  }

  /** A retry past the attempt budget becomes a dead letter. */
  function Capped(job: JobRow, f: Finish): Finish {
    if f.status == Retry && job.attempts >= MAX_ATTEMPTS then f.(status := Dead, reason := RetryExhausted) else f
  }

  function CategoryOf(reason: Reason): Category {
    if reason == RetryExhausted then RetriesExhausted
    else if reason == RemoteRejected then RejectedRemotely
    else ExecutionBlocked
  }

  function FinishedJob(job: JobRow, f: Finish, jitter: Time, now: Time): JobRow {
    var delay := match f.delay case Some(seconds) => seconds * SECOND case None => Backoff(job.attempts) * SECOND + jitter;
    job.(status := Capped(job, f).status, reason := Some(Capped(job, f).reason), remoteResult := f.result,
         leaseToken := None, leaseUntil := None,
         uncertain := if f.uncertain.Some? then f.uncertain.value else job.uncertain,
         availableAt := now + delay)
  }

  /** Fenced: only the holder of the current lease changes anything. */
  function FinishTx(b: Business, id: Id, token: Id, f: Finish, jitter: Time, now: Time): Business {
    if !Holds(b, id, token) then b
    else
      var job := b.jobs[id];
      var capped := Capped(job, f);
      var settled := WithJob(b, id, FinishedJob(job, f, jitter, now));
      if capped.status in {Dead, Blocked} then WithException(settled, CategoryOf(capped.reason), OfRow(id))
      else settled
  }

  // ----- prepare -----

  function ProfileOf(state: Attributes): Attributes {
    map field | field in state && field in {Email, Phone, Owner, Lifecycle, Score} :: state[field]
  }

  function Render(row: CustomerRow, proposal: ProposalRow): Mutation {
    Mutation(proposal.customer, proposal.body.action, row.revision,
             if proposal.body.action == SendMarketing then
               Contact(Lookup(row.state, Email), proposal.body.template)
             else Profile(ProfileOf(row.state)))
  }

  datatype Prepared = Authorized(mutation: Mutation) | Objected(reason: Reason) | Crashed

  function Preparation(policy: Hash, open: bool, b: Business, id: Id, token: Id, now: Time): Prepared {
    if !open then Objected(RecoveryClosed)
    else if id !in b.proposals || b.proposals[id].customer !in b.customers || id !in b.jobs then Crashed
    else
      var p := b.proposals[id];
      var row := b.customers[p.customer];
      var objection := Objection(policy, p, row, now, true);
      if !Holds(b, id, token) then Objected(LeaseLost)
      else if objection.Some? then Objected(objection.value)
      else if b.jobs[id].mutation.Some? && b.jobs[id].mutation.value != Render(row, p) then Objected(MutationChanged)
      else Authorized(Render(row, p))
  }

  /** Intent is committed before any networking. */
  function PrepareTx(policy: Hash, open: bool, b: Business, id: Id, token: Id, now: Time): Business {
    match Preparation(policy, open, b, id, token, now)
    case Authorized(mutation) => WithJob(b, id, b.jobs[id].(mutation := Some(mutation), uncertain := true))
    case _ => b
  }

  // ----- the decisions of execute -----

  /** Before any client is opened: unrouted work is blocked once destinations are configured. */
  function RouteObjection(cfg: Config, b: Business, id: Id, misconfigured: bool): Option<Reason> {
    if id !in b.routes && cfg.destinations != map[] then Some(LegacyRouteRequiresReview)
    else if id in b.routes && misconfigured then Some(DestinationMisconfigured)
    else None
  }

  const UNKNOWN := Finish(Retry, RemoteOutcomeUnknown, None, None, None)

  function BlockedBy(reason: Reason): Finish { Finish(Blocked, reason, None, None, None) }

  /** After the receipt lookup; `None` is the 404 that lets a new policy check begin. */
  function AfterLookup(digest: Doc -> Hash, snapshot: JobRow, answer: Answer): Option<Finish> {
    match answer
    case Held(receipt) =>
      if snapshot.mutation.None? || receipt.hash != digest(OfMutation(snapshot.mutation.value)) then
        Some(Finish(Dead, RemoteIdentityConflict, None, None, None))
      else Some(Finish(Succeeded, ReconciledCommittedEffect, Some(receipt), Some(false), None))
    case Status(code, _) =>
      if code == 404 then None else Some(Finish(Retry, ReconciliationUnavailable, None, None, None))
    case Broken => Some(UNKNOWN)
  }

  /** After a refused preparation; a lost lease leaves the job to its new holder. */
  function AfterRefusal(reason: Reason): Option<Finish> {
    if reason == RecoveryClosed then Some(Finish(Retry, RecoveryClosed, None, None, Some(1)))
    else if reason == LeaseLost then None
    else Some(BlockedBy(reason))
  }

  function RetryDelay(header: Option<int>): int {
    match header
    case None => 5
    case Some(seconds) => if seconds < 1 then 1 else if seconds > 300 then 300 else seconds
  }

  /** After the POST. */
  function AfterPost(digest: Doc -> Hash, mutation: Mutation, answer: Answer): Finish {
    match answer
    case Held(receipt) =>
      if receipt.hash != digest(OfMutation(mutation)) then Finish(Dead, RemoteIdentityConflict, None, None, None)
      else Finish(Succeeded, RemoteCommitted, Some(receipt), Some(false), None)
    case Status(code, retryAfter) =>
      if code == 429 then Finish(Retry, RateLimited, None, Some(false), Some(RetryDelay(retryAfter)))
      else if code in {400, 401, 403, 404, 409, 422} then Finish(Dead, RemoteRejected, None, Some(false), None)
      else Finish(Retry, RemoteServerError, None, None, None)
    case Broken => UNKNOWN
  }
}
