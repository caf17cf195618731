/** The transactions as the program runs them: rows of the mutable database are read, decided upon
    and written one after the other.  Every method is proved against the function that the rest of
    the model reasons about, for the tables it writes; the others are outside its frame. */
module Transactions {
  import opened Schema
  import opened Policy
  import opened ServiceTx
  import opened CapacityTx
  import opened WorkerTx
  import opened Commands

  /** What a call returns: a value, or the error it raised. */
  datatype Returned<T> = Done(value: T) | Failed(error: Error)

  ghost predicate Matches<T>(before: Business, after: Business, r: Returned<T>, tx: Tx<T>) {
    match tx
    case Commit(b, value) => after == b && r == Done(value)
    case Rollback(error) => after == before && r == Failed(error)
  }

  // ----- ingest -----

  /** A field after part of the loop: as the event has it once it is decided upon and accepted. */
  predicate FieldDone(source: Source, event: SourceEvent, row: CustomerRow, left: set<Field>,
                      state: Attributes, provenance: map<Field, Provenance>, field: Field) {
    if field in event.attributes && field !in left
       && RuleField(source, field, event.attributes[field], row, event.sequence) == Accepted
    then Lookup(state, field) == Some(event.attributes[field]) && Lookup(provenance, field) == Some(Mark(source, event))
    else Lookup(state, field) == Lookup(row.state, field) && Lookup(provenance, field) == Lookup(row.provenance, field)
  }

  lemma FieldsDone(source: Source, event: SourceEvent, row: CustomerRow, state: Attributes, provenance: map<Field,
                   Provenance>)
    requires forall field: Field :: FieldDone(source, event, row, {}, state, provenance, field)
    ensures Observe(source, event, row) ==
      CustomerRow(if provenance != row.provenance then row.revision + 1 else row.revision, state, provenance)
  {
    var observed := Observe(source, event, row);
    forall field: Field
      ensures Lookup(state, field) == Lookup(observed.state, field)
      ensures Lookup(provenance, field) == Lookup(observed.provenance, field)
    {
      assert FieldDone(source, event, row, {}, state, provenance, field);
    }
    SameLookups(state, observed.state);
    SameLookups(provenance, observed.provenance);
  }

  lemma SameLookups<V>(a: map<Field, V>, b: map<Field, V>)
    requires forall field: Field :: Lookup(a, field) == Lookup(b, field)
    ensures a == b
  {
    forall field: Field ensures (field in a <==> field in b) && (field in a ==> a[field] == b[field]) {
      assert Lookup(a, field) == Lookup(b, field);
    }
  }

  /** The loop over the attributes of an event.  Each decision is taken on the dictionaries as they
      are at that moment, yet comes out as if taken on the row that was read. */
  method ObserveFields(source: Source, event: SourceEvent, row: CustomerRow)
    returns (updated: CustomerRow, decisions: map<Field, FieldRuling>)
    ensures updated == Observe(source, event, row) && decisions == Rulings(source, event, row)
    ensures TakenInto(source, event, row, updated)
  {
    hide TakenInto, Takes, FieldDone, RuleField;
    var state, provenance := row.state, row.provenance;
    decisions := map[];
    var left := event.attributes.Keys;
    forall field: Field ensures FieldDone(source, event, row, left, state, provenance, field) {
      NothingDone(source, event, row, field);
    }
    while left != {}
      invariant left <= event.attributes.Keys && decisions.Keys == event.attributes.Keys - left
      invariant forall field <- decisions ::
        decisions[field] == RuleField(source, field, event.attributes[field], row, event.sequence)
      invariant forall field: Field :: FieldDone(source, event, row, left, state, provenance, field)
      decreases left
    {
      var field :| field in left;
      var value := event.attributes[field];
      assert FieldDone(source, event, row, left, state, provenance, field);
      FieldAhead(source, event, row, left, state, provenance, field);
      var ruling := RuleField(source, field, value, CustomerRow(row.revision, state, provenance), event.sequence);
      ghost var state0, provenance0, left0 := state, provenance, left;
      decisions := decisions[field := ruling];
      if ruling == Accepted {
        state := state[field := value];
        provenance := provenance[field := Mark(source, event)];
      }
      left := left - {field};
      forall other: Field ensures FieldDone(source, event, row, left, state, provenance, other) {
        assert FieldDone(source, event, row, left0, state0, provenance0, other);
        FieldNext(source, event, row, left0, state0, provenance0, field, other);
      }
    }
    FieldsDone(source, event, row, state, provenance);
    ObserveMeaning(source, event, row);
    updated := CustomerRow(if provenance != row.provenance then row.revision + 1 else row.revision, state, provenance);
  }

  lemma NothingDone(source: Source, event: SourceEvent, row: CustomerRow, field: Field)
    ensures FieldDone(source, event, row, event.attributes.Keys, row.state, row.provenance, field)
  {
  }

  /** A decision depends on no field but its own. */
  lemma FieldAhead(source: Source, event: SourceEvent, row: CustomerRow, left: set<Field>, state: Attributes,
                   provenance: map<Field, Provenance>, field: Field)
    requires FieldDone(source, event, row, left, state, provenance, field)
    requires field in left && field in event.attributes
    ensures RuleField(source, field, event.attributes[field], CustomerRow(row.revision, state, provenance), event.sequence)
            == RuleField(source, field, event.attributes[field], row, event.sequence)
  {
  }

  lemma FieldNext(source: Source, event: SourceEvent, row: CustomerRow, left: set<Field>, state: Attributes,
                  provenance: map<Field, Provenance>, field: Field, other: Field)
    requires FieldDone(source, event, row, left, state, provenance, other)
    requires field in left && field in event.attributes
    ensures var accepted := RuleField(source, field, event.attributes[field], row, event.sequence) == Accepted;
      FieldDone(source, event, row, left - {field}, if accepted then state[field := event.attributes[field]] else state,
                if accepted then provenance[field := Mark(source, event)] else provenance, other)
  {
    hide RuleField;
  }

  method IngestKnown(db: ControlDb, source: Source, event: SourceEvent, hash: Hash, id: Id, now: Time)
    returns (r: Returned<Ingested>)
    modifies db`customers, db`exceptions, db`events
    ensures Matches(old(db.Biz()), db.Biz(), r, IngestFor(old(db.Biz()), source, event, hash, id, now))
    ensures r.Done? <==> id in old(db.customers)
    ensures r.Done? ==> (source, event.eventId) in db.events
    ensures forall key <- old(db.events) | key != (source, event.eventId) :: key in db.events && db.events[key] == old(db.events)[key]
    ensures r.Failed? ==> db.events == old(db.events)
  {
    hide Observe, Rulings;
    if id !in db.customers { return Failed(NotFound); }
    var updated, decisions := ObserveFields(source, event, db.customers[id]);
    db.customers := db.customers[id := updated];
    if exists field <- decisions :: decisions[field] != Accepted {
      db.AddException(FieldGovernance, OfRow(id));
    }
    var result := Processed(id, updated.revision, decisions);
    db.events := db.events[(source, event.eventId) := EventRow(hash, event, result, now)];
    return Done(Recorded(result));
  }

  lemma KnownCommits(b: Business, source: Source, event: SourceEvent, hash: Hash, id: Id, now: Time)
    requires id in b.customers
    ensures IngestFor(b, source, event, hash, id, now).Commit?
  {
  }

  method Ingest(db: ControlDb, source: Source, event: SourceEvent, newId: Id, now: Time)
    returns (r: Returned<Ingested>)
    modifies db`customers, db`identities, db`exceptions, db`events
    ensures Matches(old(db.Biz()), db.Biz(), r, IngestTx(db.cfg.digest, old(db.Biz()), source, event, newId, now))
    ensures forall key <- old(db.events) :: key in db.events && db.events[key] == old(db.events)[key]
    ensures forall key <- old(db.identities) :: key in db.identities && db.identities[key] == old(db.identities)[key]
    ensures r.Done? <==> (source, event.eventId) in db.events
  {
    hide IngestFor, Rulings, Observe;
    var hash := db.cfg.digest(OfEvent(event));
    var key := (source, event.eventId);
    if key in db.events {
      var stored := db.events[key];
      if stored.hash != hash {
        db.AddException(IdempotencyConflict, OfText(event.eventId));
        return Done(Conflicting(stored));
      }
      return Done(Repeated(stored.result));
    }
    if (source, event.subject) in db.identities {
      r := IngestKnown(db, source, event, hash, db.identities[(source, event.subject)], now);
      return;
    }
    var candidates := Candidates(db.Biz(), event);
    if source != Crm || candidates != {} || Email !in event.attributes {
      var category := if |candidates| > 1 then IdentityAmbiguous else IdentityReviewRequired;
      db.AddException(category, OfText(event.subject));
      db.events := db.events[key := EventRow(hash, event, Review(category), now)];
      return Done(Recorded(Review(category)));
    }
    if newId in db.customers { return Failed(IntegrityViolation); }
    db.customers := db.customers[newId := NEW_CUSTOMER];
    db.identities := db.identities[(source, event.subject) := newId];
    KnownCommits(db.Biz(), source, event, hash, newId, now);
    r := IngestKnown(db, source, event, hash, newId, now);
  }

  // ----- link -----

  method Link(db: ControlDb, command: LinkCommand) returns (r: Returned<()>)
    modifies db`identities
    ensures Matches(old(db.Biz()), db.Biz(), r, LinkTx(old(db.Biz()), command))
    ensures forall key <- old(db.identities) :: key in db.identities && db.identities[key] == old(db.identities)[key]
    ensures forall key <- db.identities :: key in old(db.identities) || key == (command.source, command.subject)
    ensures r.Done? ==> Lookup(db.identities, (command.source, command.subject)) == Some(command.customer)
    ensures r.Done? ==> !SpokenFor(db.Biz(), command.source, command.customer, command.subject)
    ensures r.Failed? ==> db.identities == old(db.identities)
  {
    var key := (command.source, command.subject);
    if command.customer !in db.customers { return Failed(NotFound); }
    if db.customers[command.customer].revision != command.expectedRevision { return Failed(StaleLinkContext); }
    if key in db.identities && db.identities[key] != command.customer { return Failed(RebindingForbidden); }
    if SpokenFor(db.Biz(), command.source, command.customer, command.subject) {
      return Failed(MultipleAuthoritativeRecords);
    }
    if key !in db.identities { db.identities := db.identities[key := command.customer]; }
    assert old(db.identities)[key := command.customer] == db.identities;
    return Done(());
  }

  // ----- backlog -----

  method CheckBacklog(db: ControlDb, destination: DestId, now: Time) returns (overloaded: bool)
    requires destination in db.cfg.destinations
    ensures overloaded == Overloaded(db.cfg, db.Biz(), destination, now)
    ensures overloaded <==> db.cfg.destinations[destination].backlogLimit <= |PendingAt(db.Biz(), destination, now)|
  {
    var n := 0;
    var left := db.routes.Keys;
    ghost var counted: set<Id> := {};
    hide Pending, PendingAt;
    while left != {}
      invariant left <= db.routes.Keys
      invariant counted == Backlog(db.Biz(), destination, now) - left && n == |counted|
      decreases left
    {
      var id :| id in left;
      if db.routes[id] == destination && Pending(db.Biz(), id, now) {
        n := n + 1;
        counted := counted + {id};
      }
      left := left - {id};
    }
    assert counted == Backlog(db.Biz(), destination, now);
    BacklogMeaning(db.Biz(), destination, now);
    return n >= db.cfg.destinations[destination].backlogLimit;
  }

  method AdmissionFor(db: ControlDb, owner: Option<Value>, now: Time) returns (r: CapacityTx.Admission)
    ensures r == Admit(db.cfg, db.Biz(), owner, now)
  {
    if db.cfg.destinations == map[] { return Unrouted; }
    if !(owner.Some? && owner.value.Text?) { return NotAdmitted(DestinationNotAuthorized); }
    var name := owner.value.text;
    if name !in db.cfg.ownerRoutes || db.cfg.ownerRoutes[name] !in db.cfg.destinations {
      return NotAdmitted(DestinationNotAuthorized);
    }
    var overloaded := CheckBacklog(db, db.cfg.ownerRoutes[name], now);
    return if overloaded then NotAdmitted(DestinationOverloaded) else To(db.cfg.ownerRoutes[name]);
  }

  // ----- propose -----

  method Propose(db: ControlDb, actor: string, command: Command, now: Time) returns (r: Returned<Proposed>)
    modifies db`proposals, db`routes, db`jobs, db`exceptions
    ensures Matches(old(db.Biz()), db.Biz(), r,
                    ProposeTx(db.cfg, db.policy, db.gate.mode == Open, old(db.Biz()), actor, command, now))
    ensures forall id <- old(db.proposals) :: id in db.proposals && db.proposals[id] == old(db.proposals)[id]
    ensures forall id <- old(db.jobs) :: id in db.jobs && db.jobs[id] == old(db.jobs)[id]
    ensures db.gate.mode == Closed ==> db.proposals == old(db.proposals) && db.jobs == old(db.jobs) && db.routes == old(db.routes)
    ensures r.Failed? ==> db.Biz() == old(db.Biz())
  {
    var id := command.requestId;
    if db.gate.mode != Open { return Done(ClosedToProposals); }
    if command.customer !in db.customers { return Failed(NotFound); }
    var row := db.customers[command.customer];
    if id in db.proposals {
      var previous := db.proposals[id];
      if previous.hash != db.cfg.digest(OfCommand(command)) || previous.actor != actor {
        db.AddException(ProposalIdempotencyConflict, OfRow(id));
        return Done(ProposalConflict);
      }
      return Done(Existing(previous.decision, previous.reason));
    }
    var ruling := RuleAction(command.action, row.state, row.revision, command.expectedRevision);
    var admission := Unrouted;
    if ruling.permission != Deny {
      admission := AdmissionFor(db, Lookup(row.state, Owner), now);
      if admission.NotAdmitted? { return Failed(admission.error); }
    }
    if (ruling.permission == Allow && id in db.jobs) || (admission.To? && id in db.routes) {
      return Failed(IntegrityViolation);
    }
    db.proposals := db.proposals[id :=
      ProposalRow(command.customer, actor, db.cfg.digest(OfCommand(command)), command, db.policy,
                  command.expectedRevision, ruling.permission, ruling.reason, now + PROPOSAL_TTL, None)];
    if admission.To? { db.routes := db.routes[id := admission.destination]; }
    if ruling.permission == Allow {
      db.jobs := db.jobs[id := NewJob(now)];
    } else if ruling.permission == Deny {
      db.AddException(ProposalDenied, OfRow(id));
    }
    return Done(Decided(ruling.permission, ruling.reason));
  }

  // ----- approve -----

  method Approve(db: ControlDb, actor: string, id: Id, expected: nat, now: Time) returns (r: Returned<Approved>)
    modifies db`proposals, db`jobs, db`exceptions
    ensures Matches(old(db.Biz()), db.Biz(), r,
                    ApproveTx(db.policy, db.gate.mode == Open, old(db.Biz()), actor, id, expected, now))
    ensures forall other <- old(db.proposals) | other != id || old(db.proposals)[other].approval.Some? ::
      other in db.proposals && db.proposals[other] == old(db.proposals)[other]
    ensures forall other <- old(db.jobs) :: other in db.jobs && db.jobs[other] == old(db.jobs)[other]
    ensures db.gate.mode == Closed ==> db.proposals == old(db.proposals) && db.jobs == old(db.jobs)
    ensures id in old(db.proposals) && actor == old(db.proposals)[id].actor ==> db.proposals == old(db.proposals)
  {
    if db.gate.mode != Open { return Done(ClosedToApprovals); }
    if id !in db.proposals || db.proposals[id].customer !in db.customers { return Failed(NotFound); }
    var p := db.proposals[id];
    var reason := Objection(db.policy, p, db.customers[p.customer], now, false);
    if p.decision != NeedsApproval { reason := Some(NotApprovable); }
    if expected != p.revision { reason := Some(ApprovalRevisionMismatch); }
    if actor == p.actor { reason := Some(SelfApprovalForbidden); }
    if reason.Some? {
      db.AddException(ApprovalDenied, OfRow(id));
      return Done(ApprovalRefused(reason.value));
    }
    if p.approval.Some? { return Done(AlreadyApproved(now < p.approval.value.until)); }
    var until := if now + APPROVAL_TTL < p.expiresAt then now + APPROVAL_TTL else p.expiresAt;
    db.proposals := db.proposals[id := p.(approval := Some(Approval(actor, until)))];
    if id !in db.jobs { db.jobs := db.jobs[id := NewJob(now)]; }
    return Done(NowApproved(until));
  }

  // ----- resolve -----

  method Resolve(db: ControlDb, index: nat, disposition: Disposition, now: Time) returns (r: Returned<()>)
    requires forall id <- db.routes :: db.routes[id] in db.cfg.destinations
    modifies db`jobs, db`exceptions
    ensures Matches(old(db.Biz()), db.Biz(), r, ResolveTx(db.cfg, old(db.Biz()), index, disposition, now))
    ensures disposition == Acknowledge || r.Failed? ==> db.jobs == old(db.jobs)
    ensures db.jobs.Keys == old(db.jobs).Keys
    ensures forall id <- old(db.jobs) | old(db.jobs)[id].status != Dead :: db.jobs[id] == old(db.jobs)[id]
    ensures forall id <- old(db.jobs) :: db.jobs[id].mutation == old(db.jobs)[id].mutation
    ensures forall id <- old(db.jobs) :: db.jobs[id].uncertain == old(db.jobs)[id].uncertain
    ensures r.Done? ==> index < |old(db.exceptions)| == |db.exceptions|
    ensures r.Done? ==> old(db.exceptions)[index].status == OpenException && db.exceptions[index].status != OpenException
  {
    if index >= |db.exceptions| { return Failed(NotFound); }
    var ex := db.exceptions[index];
    if ex.status != OpenException { return Failed(AlreadyResolved); }
    if disposition == Requeue {
      if ex.category !in {RetriesExhausted, RejectedRemotely} { return Failed(RequiresNewSourceEventOrProposal); }
      if ex.subject.OfText? || ex.subject.id !in db.jobs || db.jobs[ex.subject.id].status != Dead {
        return Failed(JobNotDead);
      }
      var id := ex.subject.id;
      if id in db.routes {
        var overloaded := CheckBacklog(db, db.routes[id], now);
        if overloaded { return Failed(DestinationOverloaded); }
      }
      db.jobs := db.jobs[id := db.jobs[id].(status := Retry, attempts := 0, availableAt := now)];
    }
    db.exceptions := db.exceptions[index :=
      ex.(status := if disposition == Requeue then Requeued else Acknowledged)];
    return Done(());
  }
}
