/** Governed commands: source ingestion, identity links, proposals, approvals, operator decisions.
    Each function is one transaction; `now` is the clock reading it takes. */
module ServiceTx {
  import opened Schema
  import opened Policy
  import CapacityTx

  // ----- ingest -----

  datatype Ingested =
    | Conflicting(stored: EventRow)
    | Repeated(result: IngestResult)
    | Recorded(result: IngestResult)

  function Rulings(source: Source, event: SourceEvent, row: CustomerRow): map<Field, FieldRuling> {
    map field | field in event.attributes ::
      RuleField(source, field, event.attributes[field], row, event.sequence)
  }

  function Admitted(source: Source, event: SourceEvent, row: CustomerRow): set<Field> {
    set field | field in event.attributes &&
      RuleField(source, field, event.attributes[field], row, event.sequence) == Accepted
  }

  function Mark(source: Source, event: SourceEvent): Provenance {
    Provenance(source, event.subject, event.eventId, event.sequence)
  }

  /** Accepted fields take the event's value and name the event; an accepted newer
      observation moves the revision even when the value stays the same. */
  function Observe(source: Source, event: SourceEvent, row: CustomerRow): CustomerRow {
    var admitted := Admitted(source, event, row);
    var state := row.state + map field | field in admitted :: event.attributes[field];
    var provenance := row.provenance + map field | field in admitted :: Mark(source, event);
    CustomerRow(if provenance != row.provenance then row.revision + 1 else row.revision, state, provenance)
  }

  function Candidates(b: Business, event: SourceEvent): set<Id> {
    if Email !in event.attributes then {}
    else set id | id in b.customers && Lookup(b.customers[id].state, Email) == Some(event.attributes[Email])
  }

  /** Only a new CRM subject with an unused email may found a customer. */
  predicate Founds(b: Business, source: Source, event: SourceEvent) {
    source == Crm && Email in event.attributes && Candidates(b, event) == {}
  }

  function ReviewCategory(b: Business, event: SourceEvent): Category {
    if |Candidates(b, event)| > 1 then IdentityAmbiguous else IdentityReviewRequired
  }

  function Record(b: Business, source: Source, event: SourceEvent, hash: Hash, result: IngestResult, now: Time)
    : Business
  {
    b.(events := b.events[(source, event.eventId) := EventRow(hash, event, result, now)])
  }

  /** The part of ingestion that runs once the subject is known to be customer `id`. */
  function IngestFor(b: Business, source: Source, event: SourceEvent, hash: Hash, id: Id, now: Time): Tx<Ingested> {
    if id !in b.customers then Rollback(NotFound)
    else
      var row := b.customers[id];
      var row' := Observe(source, event, row);
      var rulings := Rulings(source, event, row);
      var result := Processed(id, row'.revision, rulings);
      var updated := b.(customers := b.customers[id := row']);
      var noted := if forall field <- rulings :: rulings[field] == Accepted then updated
                   else WithException(updated, FieldGovernance, OfRow(id));
      Commit(Record(noted, source, event, hash, result, now), Recorded(result))
  }

  function IngestTx(digest: Doc -> Hash, b: Business, source: Source, event: SourceEvent, newId: Id, now: Time)
    : Tx<Ingested>
  {
    var hash := digest(OfEvent(event));
    var key := (source, event.eventId);
    if key in b.events then
      if b.events[key].hash != hash then
        Commit(WithException(b, IdempotencyConflict, OfText(event.eventId)), Conflicting(b.events[key]))
      else Commit(b, Repeated(b.events[key].result))
    else if (source, event.subject) in b.identities then
      IngestFor(b, source, event, hash, b.identities[(source, event.subject)], now)
    else if !Founds(b, source, event) then
      var category := ReviewCategory(b, event);
      var noted := WithException(b, category, OfText(event.subject));
      Commit(Record(noted, source, event, hash, Review(category), now), Recorded(Review(category)))
    else if newId in b.customers then Rollback(IntegrityViolation)
    else
      var founded := b.(customers := b.customers[newId := NEW_CUSTOMER],
                        identities := b.identities[(source, event.subject) := newId]);
      IngestFor(founded, source, event, hash, newId, now)
  }

  // ----- link -----

  datatype LinkCommand =
    LinkCommand(source: Source, subject: string, customer: Id, expectedRevision: nat)

  /** The subject through which `source` already speaks about a customer, if there is one. */
  predicate SpokenFor(b: Business, source: Source, customer: Id, subject: string) {
    exists key <- b.identities :: key.0 == source && b.identities[key] == customer && key.1 != subject
  }

  function LinkTx(b: Business, command: LinkCommand): Tx<()> {
    var key := (command.source, command.subject);
    if command.customer !in b.customers then Rollback(NotFound)
    else if b.customers[command.customer].revision != command.expectedRevision then Rollback(StaleLinkContext)
    else if key in b.identities && b.identities[key] != command.customer then Rollback(RebindingForbidden)
    else if SpokenFor(b, command.source, command.customer, command.subject) then
      Rollback(MultipleAuthoritativeRecords)
    else Commit(b.(identities := b.identities[key := command.customer]), ())
  }

  // ----- propose -----

  datatype Proposed =
    | ClosedToProposals
    | ProposalConflict
    | Existing(decision: Permission, reason: Reason)
    | Decided(decision: Permission, reason: Reason)

  function Bound(b: Business, id: Id, admission: CapacityTx.Admission): Business {
    if admission.To? then b.(routes := b.routes[id := admission.destination]) else b
  }

  /** The rows of a decided proposal: itself, its route, and its job or its exception. */
  function Settled(b: Business, id: Id, proposal: ProposalRow, admission: CapacityTx.Admission, now: Time): Business {
    var stored := Bound(b.(proposals := b.proposals[id := proposal]), id, admission);
    match proposal.decision
    case Allow => WithJob(stored, id, NewJob(now))
    case Deny => WithException(stored, ProposalDenied, OfRow(id))
    case NeedsApproval => stored
  }

  function Decide(cfg: Config, policy: Hash, b: Business, actor: string, command: Command, row: CustomerRow, now: Time)
    : Tx<Proposed>
  {
    var id := command.requestId;
    var ruling := RuleAction(command.action, row.state, row.revision, command.expectedRevision);
    var admission := if ruling.permission == Deny then CapacityTx.Unrouted
                     else CapacityTx.Admit(cfg, b, Lookup(row.state, Owner), now);
    if admission.NotAdmitted? then Rollback(admission.error)
    else if (ruling.permission == Allow && id in b.jobs) || (admission.To? && id in b.routes) then
      Rollback(IntegrityViolation)
    else
      var proposal := ProposalRow(command.customer, actor, cfg.digest(OfCommand(command)), command, policy,
                                  command.expectedRevision, ruling.permission, ruling.reason,
                                  now + PROPOSAL_TTL, None);
      Commit(Settled(b, id, proposal, admission, now), Decided(ruling.permission, ruling.reason))
  }

  function ProposeTx(cfg: Config, policy: Hash, open: bool, b: Business, actor: string, command: Command, now: Time)
    : Tx<Proposed>
  {
    var id := command.requestId;
    if !open then Commit(b, ClosedToProposals)
    else if command.customer !in b.customers then Rollback(NotFound)
    else if id in b.proposals then
      if b.proposals[id].hash != cfg.digest(OfCommand(command)) || b.proposals[id].actor != actor then
        Commit(WithException(b, ProposalIdempotencyConflict, OfRow(id)), ProposalConflict)
      else Commit(b, Existing(b.proposals[id].decision, b.proposals[id].reason))
    else Decide(cfg, policy, b, actor, command, b.customers[command.customer], now)
  }

  // ----- approve -----

  /** Why a proposal may not be acted on now; `None` when it may. */
  function Objection(policy: Hash, proposal: ProposalRow, row: CustomerRow, now: Time, requireApproval: bool)
    : Option<Reason>
  {
    var ruling := RuleAction(proposal.body.action, row.state, row.revision, proposal.revision);
    if proposal.policyHash != policy then Some(PolicyChanged)
    else if proposal.expiresAt <= now then Some(ProposalExpired)
    else if ruling.permission == Deny then Some(ruling.reason)
    else if ruling.permission == NeedsApproval && requireApproval && proposal.approval.None? then
      Some(ApprovalMissing)
    else if ruling.permission == NeedsApproval && requireApproval && proposal.approval.value.until <= now then
      Some(ApprovalExpired)
    else None
  }

  datatype Approved =
    | ClosedToApprovals
    | ApprovalRefused(reason: Reason)
    | AlreadyApproved(current: bool)
    | NowApproved(until: Time)

  /** The last objection found wins, as in the sequence of assignments to `reason`. */
  function ApprovalObjection(policy: Hash, p: ProposalRow, row: CustomerRow, actor: string, expected: nat, now: Time)
    : Option<Reason>
  {
    if actor == p.actor then Some(SelfApprovalForbidden)
    else if expected != p.revision then Some(ApprovalRevisionMismatch)
    else if p.decision != NeedsApproval then Some(NotApprovable)
    else Objection(policy, p, row, now, false)
  }

  function Earlier(a: Time, b: Time): Time { if b < a then b else a }

  function ApproveTx(policy: Hash, open: bool, b: Business, actor: string, id: Id, expected: nat, now: Time)
    : Tx<Approved>
  {
    if !open then Commit(b, ClosedToApprovals)
    else if id !in b.proposals || b.proposals[id].customer !in b.customers then Rollback(NotFound)
    else
      var p := b.proposals[id];
      var objection := ApprovalObjection(policy, p, b.customers[p.customer], actor, expected, now);
      if objection.Some? then
        Commit(WithException(b, ApprovalDenied, OfRow(id)), ApprovalRefused(objection.value))
      else if p.approval.Some? then Commit(b, AlreadyApproved(now < p.approval.value.until))
      else
        var until := Earlier(p.expiresAt, now + APPROVAL_TTL);
        var approved := b.(proposals := b.proposals[id := p.(approval := Some(Approval(actor, until)))]);
        Commit(if id in b.jobs then approved else WithJob(approved, id, NewJob(now)), NowApproved(until))
  }

  // ----- resolve -----

  datatype Disposition = Acknowledge | Requeue

  predicate Requeueable(b: Business, ex: ExceptionRow) {
    ex.category in {RetriesExhausted, RejectedRemotely}
  }

  /** Same payload and key, a new attempt budget: an operator requeue is not a new permission. */
  function ResolveTx(cfg: Config, b: Business, index: nat, disposition: Disposition, now: Time): Tx<()> {
    if index >= |b.exceptions| then Rollback(NotFound)
    else
      var ex := b.exceptions[index];
      if ex.status != OpenException then Rollback(AlreadyResolved)
      else if disposition == Acknowledge then
        Commit(b.(exceptions := b.exceptions[index := ex.(status := Acknowledged)]), ())
      else if !Requeueable(b, ex) then Rollback(RequiresNewSourceEventOrProposal)
      else if ex.subject.OfText? || ex.subject.id !in b.jobs || b.jobs[ex.subject.id].status != Dead then
        Rollback(JobNotDead)
      else if !CapacityTx.Readmissible(cfg, b, ex.subject.id, now) then Rollback(DestinationOverloaded)
      else
        var id := ex.subject.id;
        var requeued := b.jobs[id].(status := Retry, attempts := 0, availableAt := now);
        Commit(WithJob(b.(exceptions := b.exceptions[index := ex.(status := Requeued)]), id, requeued), ())
  }
}
