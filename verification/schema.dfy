/** The rows of the control database and of the receivers, one datatype per table.

    `Business` groups the tables that hold business facts, `Control` adds the recovery
    tables and the two things a running process brings with it: its configuration and the
    hash of the policy it was deployed with.  `ControlDb` is the mutable database that the
    transactions of the other modules update in place.
 */
module Schema {

  datatype Option<+T> = None | Some(value: T)

  type Id = nat
  type Hash = nat
  type DestId = string

  /** Microseconds, the resolution of a PostgreSQL timestamp. */
  type Time = int
  const SECOND: Time := 1_000_000

  // ----- customers, identities and source events -----

  datatype Source = Crm | Scoring | ConsentFeed | PrivacyFeed
  datatype Field = Email | Phone | Owner | Lifecycle | Score | Consent | Suppressed
  datatype Stage = Lead | Mql | Sql | Opportunity | Customer
  datatype Value = Text(text: string) | AtStage(stage: Stage) | Number(number: int) | Flag(flag: bool)
  type Attributes = map<Field, Value>

  datatype SourceEvent =
    SourceEvent(eventId: string, subject: string, sequence: nat, attributes: Attributes)
  datatype Provenance =
    Provenance(source: Source, subject: string, eventId: string, sequence: nat)
  datatype CustomerRow =
    CustomerRow(revision: nat, state: Attributes, provenance: map<Field, Provenance>)

  /** The column defaults of a new customer: a lead, with no provenance for that stage. */
  const NEW_CUSTOMER := CustomerRow(0, map[Lifecycle := AtStage(Lead)], map[])

  datatype FieldRuling = Accepted | SourceNotAuthoritative | StaleSourceSequence | LifecycleRegression
  datatype IngestResult =
    | Processed(customer: Id, revision: nat, rulings: map<Field, FieldRuling>)
    | Review(category: Category)
  datatype EventRow = EventRow(hash: Hash, body: SourceEvent, result: IngestResult, receivedAt: Time)

  // ----- proposals, jobs and exceptions -----

  datatype Action = SyncProfile | SendMarketing | SetConsent
  datatype Template = Welcome | ProductUpdate
  datatype Permission = Allow | NeedsApproval | Deny

  datatype Reason =
    | PolicyAllowed | ProtectedWrite | SuppressedOrUnknown | ConsentMissingOrRevoked | MissingEmail
    | StaleContext | PolicyChanged | ProposalExpired | ApprovalMissing | ApprovalExpired
    | NotApprovable | ApprovalRevisionMismatch | SelfApprovalForbidden
    | RecoveryClosed | LeaseLost | MutationChanged
    | RetryExhausted | RemoteIdentityConflict | ReconciledCommittedEffect | ReconciliationUnavailable
    | RemoteCommitted | RateLimited | RemoteRejected | RemoteServerError | RemoteOutcomeUnknown
    | LegacyRouteRequiresReview | DestinationMisconfigured

  datatype Command = Command(requestId: Id, customer: Id, expectedRevision: nat, action: Action,
                             rationale: string, template: Template)
  datatype Approval = Approval(approver: string, until: Time)
  datatype ProposalRow = ProposalRow(customer: Id, actor: string, hash: Hash, body: Command,
                                     policyHash: Hash, revision: nat, decision: Permission,
                                     reason: Reason, expiresAt: Time, approval: Option<Approval>)

  datatype Payload =
    | Contact(email: Option<Value>, template: Template)
    | Profile(fields: Attributes)
  datatype Mutation = Mutation(customer: Id, action: Action, revision: nat, payload: Payload)
  datatype Receipt = Receipt(key: Id, receipt: Id, hash: Hash, committedAt: Time)

  datatype Status = Ready | Leased | Retry | Succeeded | Blocked | Dead
  datatype JobRow = JobRow(status: Status, attempts: int, availableAt: Time,
                           leaseUntil: Option<Time>, leaseToken: Option<Id>, uncertain: bool,
                           mutation: Option<Mutation>, reason: Option<Reason>,
                           remoteResult: Option<Receipt>)

  function NewJob(now: Time): JobRow {
    JobRow(Ready, 0, now, None, None, false, None, None, None)
  }

  datatype Category =
    | IdempotencyConflict | IdentityAmbiguous | IdentityReviewRequired | FieldGovernance
    | ProposalIdempotencyConflict | ProposalDenied | ApprovalDenied
    | RetriesExhausted | RejectedRemotely | ExecutionBlocked
  datatype Subject = OfRow(id: Id) | OfText(text: string)
  datatype ExceptionStatus = OpenException | Acknowledged | Requeued
  datatype ExceptionRow = ExceptionRow(category: Category, subject: Subject, status: ExceptionStatus)

  // ----- capacity -----

  datatype Kind = DispatchCall | ReceiptCall
  datatype Destination = Destination(requestsPerSecond: int, concurrency: int, backlogLimit: int)

  /** `None` in the two timestamps is PostgreSQL's '-infinity'. */
  datatype CapacityRow =
    CapacityRow(windowId: int, used: int, nextProbe: Option<Time>, lastServed: Option<Time>)
  datatype Permit = Permit(destination: DestId, expires: Time, kind: Kind)
  datatype Grant = Grant(destination: DestId, windowId: int, kind: Kind, issuedAt: Time)
  datatype Completion = Completion(finishedAt: Time, failed: bool)
  datatype Capacity = Capacity(rows: map<DestId, CapacityRow>, permits: map<Id, Permit>,
                               requests: map<Id, Grant>, completions: map<Id, Completion>)

  const NO_CAPACITY := Capacity(map[], map[], map[], map[])

  // ----- recovery -----

  datatype Mode = Open | Closed
  datatype Gate = Gate(mode: Mode, epoch: nat, session: Option<Id>, approvedProof: Option<Id>,
                       approvedAt: Option<Time>)
  datatype Binding = Binding(environment: string, deploymentRevision: string, sourceDatabase: string,
                             restoredDatabase: string, recoveryPoint: string)
  datatype SessionStatus = SessionClosed | SessionApproved | SessionResumed
  datatype SessionRow =
    SessionRow(binding: Binding, bindingHash: Hash, createdAt: Time, status: SessionStatus)

  datatype FindingKind =
    | ReceiptBodyHashConflict | RemoteAheadMissingIntent | IdentityConflict
    | RemoteAheadNotReconcilable | TerminalIntentRequiresReview
    | AcknowledgedReceiptMissing | ReceiptIdentityChanged
    | AuthorityRefreshMissing(field: Field)
  datatype Finding = Finding(key: Id, kind: FindingKind)
  datatype Report = Report(safe: bool, findings: seq<Finding>, snapshotHash: Hash,
                           controlFingerprint: Hash, bindingHash: Hash, policyHash: Hash)
  datatype ProofRow = ProofRow(session: Id, report: Report, reportHash: Hash, createdAt: Time)

  // ----- the receivers -----

  datatype Effect = Effect(hash: Hash, body: Mutation, receipt: Id, committedAt: Time)
  datatype FailureMode = Fail429 | Fail500 | Fail422 | TimeoutBefore | TimeoutAfter

  /** One receiver per destination, plus the one that served before destinations existed. */
  datatype Lane = Legacy | Routed(destination: DestId)

  // ----- the database -----

  datatype Business = Business(
    customers: map<Id, CustomerRow>,
    identities: map<(Source, string), Id>,
    events: map<(Source, string), EventRow>,
    proposals: map<Id, ProposalRow>,
    jobs: map<Id, JobRow>,
    routes: map<Id, DestId>,
    exceptions: seq<ExceptionRow>,
    capacity: Capacity)

  const NO_BUSINESS := Business(map[], map[], map[], map[], map[], map[], [], NO_CAPACITY)

  /** Everything the program hashes; `Config.digest` stands for SHA-256 over canonical JSON. */
  datatype Doc =
    | OfMutation(mutation: Mutation)
    | OfEvent(event: SourceEvent)
    | OfCommand(command: Command)
    | OfBinding(binding: Binding)
    | OfReport(report: Report)
    | OfBusiness(business: Business, policy: Hash)
    | OfSnapshot(jobs: map<Id, JobView>, receipts: map<Id, ReceiptView>)

  /** The columns of a job that recovery reads. */
  datatype JobView = JobView(status: Status, mutation: Option<Mutation>, uncertain: bool,
                             remoteResult: Option<Receipt>)

  /** The columns of an effect that recovery reads. */
  datatype ReceiptView = ReceiptView(hash: Hash, body: Mutation, receipt: Id)

  datatype Config = Config(digest: Doc -> Hash,
                           destinations: map<DestId, Destination>,
                           ownerRoutes: map<string, DestId>)

  datatype Control = Control(cfg: Config, policy: Hash, biz: Business, gate: Gate,
                             sessions: map<Id, SessionRow>, proofs: map<Id, ProofRow>)

  const OPEN_GATE := Gate(Open, 0, None, None, None)

  /** A transaction that can raise: it either commits new tables and a value, or leaves no trace. */
  datatype Tx<+T> = Commit(biz: Business, value: T) | Rollback(error: Error)
  datatype Error =
    | NotFound | IntegrityViolation
    | StaleLinkContext | RebindingForbidden | MultipleAuthoritativeRecords
    | DestinationNotAuthorized | DestinationOverloaded
    | AlreadyResolved | RequiresNewSourceEventOrProposal | JobNotDead

  function After<T>(b: Business, tx: Tx<T>): Business {
    if tx.Commit? then tx.biz else b
  }

  /** Row constraints that the migration puts on cp.destinations. */
  ghost predicate ValidConfig(cfg: Config) {
    forall d <- cfg.destinations ::
      && 2 <= cfg.destinations[d].requestsPerSecond
      && 1 <= cfg.destinations[d].concurrency
      && 1 <= cfg.destinations[d].backlogLimit
  }

  function Lookup<K, V>(m: map<K, V>, key: K): Option<V> {
    if key in m then Some(m[key]) else None
  }

  function WithJob(b: Business, id: Id, job: JobRow): Business {
    b.(jobs := b.jobs[id := job])
  }

  function WithException(b: Business, category: Category, subject: Subject): Business {
    b.(exceptions := b.exceptions + [ExceptionRow(category, subject, OpenException)])
  }

  function LaneOf(b: Business, id: Id): Lane {
    if id in b.routes then Routed(b.routes[id]) else Legacy
  }

  /** The control database as the program updates it: one field per table. */
  class ControlDb {
    const cfg: Config
    var policy: Hash
    var customers: map<Id, CustomerRow>
    var identities: map<(Source, string), Id>
    var events: map<(Source, string), EventRow>
    var proposals: map<Id, ProposalRow>
    var jobs: map<Id, JobRow>
    var routes: map<Id, DestId>
    var exceptions: seq<ExceptionRow>
    var capacityRows: map<DestId, CapacityRow>
    var permits: map<Id, Permit>
    var requests: map<Id, Grant>
    var completions: map<Id, Completion>
    var gate: Gate
    var sessions: map<Id, SessionRow>
    var proofs: map<Id, ProofRow>

    function Permits(): Capacity
      reads this
    {
      Capacity(capacityRows, permits, requests, completions)
    }

    function Biz(): Business
      reads this
    {
      Business(customers, identities, events, proposals, jobs, routes, exceptions, Permits())
    }

    function View(): Control
      reads this
    {
      Control(cfg, policy, Biz(), gate, sessions, proofs)
    }

    constructor (cfg: Config, policy: Hash)
      ensures View() == Control(cfg, policy, NO_BUSINESS, OPEN_GATE, map[], map[])
      ensures fresh(this)
    {
      this.cfg, this.policy := cfg, policy;
      customers, identities, events := map[], map[], map[];
      proposals, jobs, routes, exceptions := map[], map[], map[], [];
      capacityRows, permits, requests, completions := map[], map[], map[], map[];
      gate, sessions, proofs := OPEN_GATE, map[], map[];
    }

    method AddException(category: Category, subject: Subject)
      modifies this`exceptions
      ensures Biz() == WithException(old(Biz()), category, subject)
    {
      exceptions := exceptions + [ExceptionRow(category, subject, OpenException)];
    }
  }
}
