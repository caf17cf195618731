/** What the governed commands answer and write, case by case and column by column. */
module Commands {
  import opened Schema
  import opened Policy
  import opened ServiceTx
  import opened CapacityTx
  import opened Decisions

  // ----- ingest -----

  /** The customers that already have the email of the event. */
  function Namesakes(b: Business, event: SourceEvent): set<Id> {
    set id | id in b.customers && Email in event.attributes && Email in b.customers[id].state
             && b.customers[id].state[Email] == event.attributes[Email]
  }

  predicate MayFound(b: Business, source: Source, event: SourceEvent) {
    source == Crm && Email in event.attributes && Namesakes(b, event) == {}
  }

  function Noted(b: Business, category: Category, subject: Subject): seq<ExceptionRow> {
    b.exceptions + [ExceptionRow(category, subject, OpenException)]
  }

  predicate Takes(source: Source, event: SourceEvent, row: CustomerRow, field: Field) {
    field in event.attributes && RuleField(source, field, event.attributes[field], row, event.sequence) == Accepted
  }

  /** Accepted fields hold the value of the event and name it, all others are as they were, and the
      revision moves by one if there is an accepted field at all. */
  ghost predicate TakenInto(source: Source, event: SourceEvent, row: CustomerRow, row': CustomerRow) {
    && (forall field: Field | Takes(source, event, row, field) ::
          && field in row'.state && row'.state[field] == event.attributes[field]
          && field in row'.provenance
          && row'.provenance[field] == Provenance(source, event.subject, event.eventId, event.sequence))
    && (forall field: Field | !Takes(source, event, row, field) ::
          && (field in row'.state <==> field in row.state) && (field in row.state ==> row'.state[field] == row.state[field])
          && (field in row'.provenance <==> field in row.provenance)
          && (field in row.provenance ==> row'.provenance[field] == row.provenance[field]))
    && row'.revision == row.revision + if exists field: Field :: Takes(source, event, row, field) then 1 else 0
  }

  lemma ObserveMeaning(source: Source, event: SourceEvent, row: CustomerRow)
    ensures TakenInto(source, event, row, Observe(source, event, row))
  {
    var row' := Observe(source, event, row);
    if field: Field :| Takes(source, event, row, field) {
      assert row'.provenance[field] == Mark(source, event);
      assert row'.provenance != row.provenance;
    } else {
      assert forall field: Field :: field in Admitted(source, event, row) ==> Takes(source, event, row, field);
      assert Admitted(source, event, row) == {};
      assert row'.provenance == row.provenance;
    }
  }

  /** The event is stored with its decisions, the customer has what was accepted, and an exception is
      noted if anything was not. */
  ghost predicate Taken(b: Business, source: Source, event: SourceEvent, hash: Hash, id: Id, now: Time, tx: Tx<Ingested>)
    requires id in b.customers
  {
    && tx.Commit? && id in tx.biz.customers && TakenInto(source, event, b.customers[id], tx.biz.customers[id])
    && tx.value.Recorded? && tx.value.result.Processed?
    && tx.value.result.customer == id && tx.value.result.revision == tx.biz.customers[id].revision
    && tx.value.result.rulings.Keys == event.attributes.Keys
    && (forall field <- event.attributes ::
          tx.value.result.rulings[field]
          == RuleField(source, field, event.attributes[field], b.customers[id], event.sequence))
    && tx.biz == b.(customers := b.customers[id := tx.biz.customers[id]],
                    events := b.events[(source, event.eventId) := EventRow(hash, event, tx.value.result, now)],
                    exceptions := if forall field <- event.attributes :: Takes(source, event, b.customers[id], field)
                                  then b.exceptions else Noted(b, FieldGovernance, OfRow(id)))
  }

  lemma RulingsMeaning(source: Source, event: SourceEvent, row: CustomerRow)
    ensures var rulings := Rulings(source, event, row);
      && rulings.Keys == event.attributes.Keys
      && (forall field <- event.attributes ::
            rulings[field] == RuleField(source, field, event.attributes[field], row, event.sequence))
      && ((forall field <- rulings :: rulings[field] == Accepted)
          <==> (forall field <- event.attributes :: Takes(source, event, row, field)))
  {
    hide RuleField;
  }

  lemma TakenMeaning(b: Business, source: Source, event: SourceEvent, hash: Hash, id: Id, now: Time)
    requires id in b.customers
    ensures Taken(b, source, event, hash, id, now, IngestFor(b, source, event, hash, id, now))
  {
    ObserveMeaning(source, event, b.customers[id]);
    RulingsMeaning(source, event, b.customers[id]);
    hide Observe, TakenInto, RuleField, Rulings, Takes;
  }

  /** For review: the event is stored, and nothing else but the exception. */
  predicate SetAside(b: Business, source: Source, event: SourceEvent, hash: Hash, now: Time, tx: Tx<Ingested>) {
    var category := if |Namesakes(b, event)| > 1 then IdentityAmbiguous else IdentityReviewRequired;
    tx == Commit(b.(events := b.events[(source, event.eventId) := EventRow(hash, event, Review(category), now)],
                    exceptions := Noted(b, category, OfText(event.subject))),
                 Recorded(Review(category)))
  }

  function WithCustomer(b: Business, source: Source, subject: string, id: Id): Business {
    b.(customers := b.customers[id := CustomerRow(0, map[Lifecycle := AtStage(Lead)], map[])],
       identities := b.identities[(source, subject) := id])
  }

  lemma StoredEvent(digest: Doc -> Hash, b: Business, source: Source, event: SourceEvent, newId: Id, now: Time)
    requires (source, event.eventId) in b.events
    ensures var tx, row := IngestTx(digest, b, source, event, newId, now), b.events[(source, event.eventId)];
      if row.hash == digest(OfEvent(event)) then tx == Commit(b, Repeated(row.result))
      else tx == Commit(b.(exceptions := Noted(b, IdempotencyConflict, OfText(event.eventId))), Conflicting(row))
  {
    hide IngestFor, Founds, ReviewCategory;
  }

  lemma KnownSubject(digest: Doc -> Hash, b: Business, source: Source, event: SourceEvent, newId: Id, now: Time)
    requires (source, event.eventId) !in b.events && (source, event.subject) in b.identities
    ensures var tx, id := IngestTx(digest, b, source, event, newId, now), b.identities[(source, event.subject)];
      if id in b.customers then Taken(b, source, event, digest(OfEvent(event)), id, now, tx)
      else tx == Rollback(NotFound)
  {
    var id := b.identities[(source, event.subject)];
    if id in b.customers { TakenMeaning(b, source, event, digest(OfEvent(event)), id, now); }
    UnknownCustomer(b, source, event, digest(OfEvent(event)), now);
    hide Taken, IngestFor, Founds, ReviewCategory;
  }

  lemma NewSubject(digest: Doc -> Hash, b: Business, source: Source, event: SourceEvent, newId: Id, now: Time)
    requires (source, event.eventId) !in b.events && (source, event.subject) !in b.identities
    ensures var tx, hash := IngestTx(digest, b, source, event, newId, now), digest(OfEvent(event));
      if !MayFound(b, source, event) then SetAside(b, source, event, hash, now, tx)
      else if newId in b.customers then tx == Rollback(IntegrityViolation)
      else Taken(WithCustomer(b, source, event.subject, newId), source, event, hash, newId, now, tx)
  {
    FoundingMeaning(b, source, event);
    if newId !in b.customers {
      TakenMeaning(WithCustomer(b, source, event.subject, newId), source, event, digest(OfEvent(event)), newId, now);
    }
    hide Taken, IngestFor, Founds, MayFound, ReviewCategory, Namesakes;
  }

  /** The branches of ingestion: a known event, a known subject, a subject to review, a new customer. */
  lemma IngestDecision(digest: Doc -> Hash, b: Business, source: Source, event: SourceEvent, newId: Id, now: Time)
    ensures var tx := IngestTx(digest, b, source, event, newId, now);
      var hash, key, who := digest(OfEvent(event)), (source, event.eventId), (source, event.subject);
      if key in b.events && b.events[key].hash == hash then tx == Commit(b, Repeated(b.events[key].result))
      else if key in b.events then
        tx == Commit(b.(exceptions := Noted(b, IdempotencyConflict, OfText(event.eventId))), Conflicting(b.events[key]))
      else if who in b.identities then
        if b.identities[who] in b.customers then Taken(b, source, event, hash, b.identities[who], now, tx)
        else tx == Rollback(NotFound)
      else if !MayFound(b, source, event) then SetAside(b, source, event, hash, now, tx)
      else if newId in b.customers then tx == Rollback(IntegrityViolation)
      else Taken(WithCustomer(b, source, event.subject, newId), source, event, hash, newId, now, tx)
  {
    if (source, event.eventId) in b.events {
      StoredEvent(digest, b, source, event, newId, now);
    } else if (source, event.subject) in b.identities {
      KnownSubject(digest, b, source, event, newId, now);
    } else {
      NewSubject(digest, b, source, event, newId, now);
    }
    hide IngestTx, Taken, MayFound, SetAside;
  }

  lemma UnknownCustomer(b: Business, source: Source, event: SourceEvent, hash: Hash, now: Time)
    ensures forall id: Id | id !in b.customers :: IngestFor(b, source, event, hash, id, now) == Rollback(NotFound)
  {
    hide Observe, Rulings;
  }

  lemma FoundingMeaning(b: Business, source: Source, event: SourceEvent)
    ensures Founds(b, source, event) <==> MayFound(b, source, event)
    ensures ReviewCategory(b, event) == if |Namesakes(b, event)| > 1 then IdentityAmbiguous else IdentityReviewRequired
  {
    CandidatesMeaning(b, event);
  }

  lemma CandidatesMeaning(b: Business, event: SourceEvent)
    ensures Candidates(b, event) == Namesakes(b, event)
  {
  }

  // ----- link -----

  /** Another subject through which the source already speaks about the customer. */
  ghost predicate OtherSubject(b: Business, source: Source, customer: Id, subject: string) {
    exists other: string :: other != subject && (source, other) in b.identities && b.identities[(source, other)] == customer
  }

  lemma SpokenForMeaning(b: Business, source: Source, customer: Id, subject: string)
    ensures SpokenFor(b, source, customer, subject) <==> OtherSubject(b, source, customer, subject)
  {
    if SpokenFor(b, source, customer, subject) {
      var key :| key in b.identities && key.0 == source && b.identities[key] == customer && key.1 != subject;
      assert (source, key.1) == key;
    }
  }

  /** A link is refused for a missing customer, then a stale revision, a subject that belongs to someone
      else, and a second subject of the same source. */
  lemma LinkDecision(b: Business, command: LinkCommand)
    ensures var tx := LinkTx(b, command);
      var who := (command.source, command.subject);
      if command.customer !in b.customers then tx == Rollback(NotFound)
      else if command.expectedRevision != b.customers[command.customer].revision then tx == Rollback(StaleLinkContext)
      else if who in b.identities && b.identities[who] != command.customer then tx == Rollback(RebindingForbidden)
      else if OtherSubject(b, command.source, command.customer, command.subject) then
        tx == Rollback(MultipleAuthoritativeRecords)
      else tx == Commit(b.(identities := b.identities[who := command.customer]), ())
  {
    SpokenForMeaning(b, command.source, command.customer, command.subject);
    hide SpokenFor, OtherSubject;
  }

  // ----- backlog -----

  /** Routed to the destination and still to be worked off: a job that is not over, or a proposal without
      a job that has not expired. */
  function PendingAt(b: Business, destination: DestId, now: Time): set<Id> {
    set id | id in b.routes && b.routes[id] == destination && id in b.proposals
             && ((id in b.jobs && b.jobs[id].status in {Ready, Retry, Leased})
                 || (id !in b.jobs && now < b.proposals[id].expiresAt))
  }

  lemma BacklogMeaning(b: Business, destination: DestId, now: Time)
    ensures Backlog(b, destination, now) == PendingAt(b, destination, now)
  {
  }

  /** The destination of an owner, if the owner is known and so is the destination. */
  function RouteFor(cfg: Config, owner: Option<Value>): Option<DestId> {
    match owner
    case Some(Text(name)) =>
      if name in cfg.ownerRoutes && cfg.ownerRoutes[name] in cfg.destinations then Some(cfg.ownerRoutes[name]) else None
    case _ => None
  }

  predicate Full(cfg: Config, b: Business, destination: DestId, now: Time)
    requires destination in cfg.destinations
  {
    cfg.destinations[destination].backlogLimit <= |PendingAt(b, destination, now)|
  }

  lemma AdmissionDecision(cfg: Config, b: Business, owner: Option<Value>, now: Time)
    ensures var a, route := Admit(cfg, b, owner, now), RouteFor(cfg, owner);
      if cfg.destinations == map[] then a == Unrouted
      else if route.None? then a == NotAdmitted(DestinationNotAuthorized)
      else if Full(cfg, b, route.value, now) then a == NotAdmitted(DestinationOverloaded)
      else a == To(route.value)
  {
    var route := RouteFor(cfg, owner);
    if route.Some? { BacklogMeaning(b, route.value, now); }
    hide Backlog, PendingAt;
  }

  // ----- propose -----

  /** The rows of a decided proposal: itself for fifteen minutes, its route, a job at once if it is
      allowed, and an exception if it is denied. */
  predicate Entered(cfg: Config, policy: Hash, b: Business, actor: string, command: Command, ruling: Ruling,
                    route: Option<DestId>, now: Time, tx: Tx<Proposed>) {
    var id := command.requestId;
    tx == Commit(b.(
      proposals := b.proposals[id :=
        ProposalRow(command.customer, actor, cfg.digest(OfCommand(command)), command, policy, command.expectedRevision,
                    ruling.permission, ruling.reason, now + 900_000_000, None)],
      routes := if route.Some? then b.routes[id := route.value] else b.routes,
      jobs := if ruling.permission == Allow then
                b.jobs[id := JobRow(Ready, 0, now, None, None, false, None, None, None)]
              else b.jobs,
      exceptions := if ruling.permission == Deny then Noted(b, ProposalDenied, OfRow(id)) else b.exceptions),
                 Decided(ruling.permission, ruling.reason))
  }

  /** What a new proposal comes to: a denial is entered without a route; anything else needs a
      destination with room, once destinations are registered. */
  lemma NewProposal(cfg: Config, policy: Hash, b: Business, actor: string, command: Command, row: CustomerRow, now: Time)
    ensures var tx := Decide(cfg, policy, b, actor, command, row, now);
      var ruling := RuleAction(command.action, row.state, row.revision, command.expectedRevision);
      var route := RouteFor(cfg, if Owner in row.state then Some(row.state[Owner]) else None);
      var taken := ruling.permission == Allow && command.requestId in b.jobs;
      if ruling.permission == Deny then Entered(cfg, policy, b, actor, command, ruling, None, now, tx)
      else if cfg.destinations == map[] then
        if taken then tx == Rollback(IntegrityViolation)
        else Entered(cfg, policy, b, actor, command, ruling, None, now, tx)
      else if route.None? then tx == Rollback(DestinationNotAuthorized)
      else if Full(cfg, b, route.value, now) then tx == Rollback(DestinationOverloaded)
      else if taken || command.requestId in b.routes then tx == Rollback(IntegrityViolation)
      else Entered(cfg, policy, b, actor, command, ruling, route, now, tx)
  {
    AdmissionDecision(cfg, b, Lookup(row.state, Owner), now);
    hide Admit, RuleAction, Full, RouteFor;
  }

  /** The branches of a proposal: a closed gate, a missing customer, a repeated request, a new one. */
  lemma ProposeDecision(cfg: Config, policy: Hash, open: bool, b: Business, actor: string, command: Command, now: Time)
    ensures var tx, id := ProposeTx(cfg, policy, open, b, actor, command, now), command.requestId;
      if !open then tx == Commit(b, ClosedToProposals)
      else if command.customer !in b.customers then tx == Rollback(NotFound)
      else if id !in b.proposals then tx == Decide(cfg, policy, b, actor, command, b.customers[command.customer], now)
      else if b.proposals[id].hash == cfg.digest(OfCommand(command)) && b.proposals[id].actor == actor then
        tx == Commit(b, Existing(b.proposals[id].decision, b.proposals[id].reason))
      else tx == Commit(b.(exceptions := Noted(b, ProposalIdempotencyConflict, OfRow(id))), ProposalConflict)
  {
    hide Decide;
  }

  // ----- approve -----

  /** A refusal is noted; a repetition changes nothing; a first approval lasts for five minutes, or for as
      long as the proposal if that is shorter, and makes the job unless there is one. */
  lemma ApproveDecision(policy: Hash, open: bool, b: Business, actor: string, id: Id, expected: nat, now: Time)
    ensures var tx := ApproveTx(policy, open, b, actor, id, expected, now);
      if !open then tx == Commit(b, ClosedToApprovals)
      else if id !in b.proposals || b.proposals[id].customer !in b.customers then tx == Rollback(NotFound)
      else
        var p := b.proposals[id];
        var objection := ApprovalObjection(policy, p, b.customers[p.customer], actor, expected, now);
        if objection.Some? then
          tx == Commit(b.(exceptions := Noted(b, ApprovalDenied, OfRow(id))), ApprovalRefused(objection.value))
        else if p.approval.Some? then tx == Commit(b, AlreadyApproved(now < p.approval.value.until))
        else
          var until := if p.expiresAt < now + 300_000_000 then p.expiresAt else now + 300_000_000;
          tx == Commit(b.(
            proposals := b.proposals[id := p.(approval := Some(Approval(actor, until)))],
            jobs := if id in b.jobs then b.jobs
                    else b.jobs[id := JobRow(Ready, 0, now, None, None, false, None, None, None)]),
                       NowApproved(until))
  {
    hide ApprovalObjection;
  }

  // ----- resolve -----

  /** An open exception is acknowledged, or requeues its dead job, for which the destination needs room:
      a new attempt budget and due at once, the intent as it was. */
  lemma ResolveDecision(cfg: Config, b: Business, index: nat, disposition: Disposition, now: Time)
    requires forall id <- b.routes :: b.routes[id] in cfg.destinations
    ensures var tx := ResolveTx(cfg, b, index, disposition, now);
      if index >= |b.exceptions| then tx == Rollback(NotFound)
      else
        var ex := b.exceptions[index];
        if ex.status != OpenException then tx == Rollback(AlreadyResolved)
        else if disposition == Acknowledge then
          tx == Commit(b.(exceptions := b.exceptions[index := ExceptionRow(ex.category, ex.subject, Acknowledged)]), ())
        else if ex.category != RetriesExhausted && ex.category != RejectedRemotely then
          tx == Rollback(RequiresNewSourceEventOrProposal)
        else if !DeadJob(b, ex.subject) then tx == Rollback(JobNotDead)
        else if ex.subject.id in b.routes && Full(cfg, b, b.routes[ex.subject.id], now) then
          tx == Rollback(DestinationOverloaded)
        else
          tx == Commit(b.(
            jobs := b.jobs[ex.subject.id := b.jobs[ex.subject.id].(status := Retry, attempts := 0, availableAt := now)],
            exceptions := b.exceptions[index := ExceptionRow(ex.category, ex.subject, Requeued)]), ())
  {
    if index < |b.exceptions| && b.exceptions[index].subject.OfRow? {
      var id := b.exceptions[index].subject.id;
      if id in b.routes { BacklogMeaning(b, b.routes[id], now); }
    }
    hide Backlog, PendingAt;
  }

  predicate DeadJob(b: Business, subject: Subject) {
    subject.OfRow? && subject.id in b.jobs && b.jobs[subject.id].status == Dead
  }
}
