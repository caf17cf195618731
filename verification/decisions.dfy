/** What the decisions come to, in the values and columns they are about: each table of the policy, of
    a proposal's standing and of a worker's conclusions, read off case by case. */
module Decisions {
  import opened Schema
  import opened Policy
  import opened ServiceTx
  import opened Receiver
  import opened CapacityTx
  import opened WorkerTx

  // ----- fields -----

  const STAGES: seq<Stage> := [Stage.Lead, Stage.Mql, Stage.Sql, Stage.Opportunity, Stage.Customer]

  /** `a` comes after `b` in the list of stages. */
  ghost predicate Ahead(a: Stage, b: Stage) {
    exists i, j :: 0 <= i < j < |STAGES| && STAGES[i] == b && STAGES[j] == a
  }

  predicate Authoritative(source: Source, field: Field) {
    || (source == Crm && field in {Email, Phone, Owner, Lifecycle})
    || (source == Scoring && field == Score)
    || (source == ConsentFeed && field == Consent)
    || (source == PrivacyFeed && field == Suppressed)
  }

  lemma StagesInOrder(a: Stage, b: Stage)
    ensures Rank(AtStage(a)) > Rank(AtStage(b)) <==> Ahead(a, b)
  {
    assert STAGES[0] == Stage.Lead && STAGES[1] == Stage.Mql && STAGES[2] == Stage.Sql;
    assert STAGES[3] == Stage.Opportunity && STAGES[4] == Stage.Customer;
    assert STAGES[Rank(AtStage(a))] == a && STAGES[Rank(AtStage(b))] == b;
  }

  /** The ruling on one field: first authority, then the sequence, then the stage. */
  lemma FieldDecision(source: Source, field: Field, value: Value, row: CustomerRow, sequence: nat)
    requires field == Lifecycle ==> value.AtStage? && (Lifecycle in row.state ==> row.state[Lifecycle].AtStage?)
    ensures var ruling := RuleField(source, field, value, row, sequence);
      var stale := field in row.provenance && sequence <= row.provenance[field].sequence;
      var back := field == Lifecycle
                  && Ahead(if Lifecycle in row.state then row.state[Lifecycle].stage else Stage.Lead, value.stage);
      && (ruling == SourceNotAuthoritative <==> !Authoritative(source, field))
      && (ruling == StaleSourceSequence <==> Authoritative(source, field) && stale)
      && (ruling == LifecycleRegression <==> Authoritative(source, field) && !stale && back)
      && (ruling == Accepted <==> Authoritative(source, field) && !stale && !back)
  {
    if field == Lifecycle {
      StagesInOrder(if Lifecycle in row.state then row.state[Lifecycle].stage else Stage.Lead, value.stage);
    }
  }

  // ----- actions -----

  /** Every permission and every reason, exactly when each is given. */
  lemma ActionDecision(action: Action, state: Attributes, revision: nat, expected: nat)
    ensures var r := RuleAction(action, state, revision, expected);
      var mail := action == SendMarketing;
      && (r.reason == ProtectedWrite <==> action == SetConsent)
      && (r.reason == SuppressedOrUnknown <==> mail && !KnownUnsuppressed(state))
      && (r.reason == ConsentMissingOrRevoked <==> mail && KnownUnsuppressed(state) && !Consenting(state))
      && (r.reason == MissingEmail <==> mail && KnownUnsuppressed(state) && Consenting(state) && !HasEmail(state))
      && (r.reason == StaleContext <==>
            revision != expected && (action == SyncProfile || (mail && Contactable(state))))
      && (r.reason == PolicyAllowed <==>
            revision == expected && (action == SyncProfile || (mail && Contactable(state))))
      && (r.permission == Deny <==> r.reason != PolicyAllowed)
      && (r.permission == Allow <==> action == SyncProfile && revision == expected)
      && (r.permission == NeedsApproval <==> mail && Contactable(state) && revision == expected)
  {
    TruthIsValue(state);
  }

  lemma TruthIsValue(state: Attributes)
    ensures forall value: Value :: Truthy(value) <==> value !in FALSY
    ensures Contactable(state) <==> KnownUnsuppressed(state) && Consenting(state) && HasEmail(state)
  {
  }

  /** With suppression a flag and the email a text, marketing needs approval exactly for a customer
      known to be unsuppressed who consents and has an email, at the expected revision. */
  lemma MarketingDecision(action: Action, state: Attributes, revision: nat, expected: nat)
    requires Suppressed in state ==> state[Suppressed].Flag?
    requires Email in state ==> state[Email].Text?
    ensures RuleAction(action, state, revision, expected) == Ruling(NeedsApproval, PolicyAllowed) <==>
      && action == SendMarketing && revision == expected
      && Suppressed in state && state[Suppressed] == Flag(false)
      && Consent in state && state[Consent] == Flag(true)
      && Email in state && state[Email].text != ""
  {
    ActionDecision(action, state, revision, expected);
  }

  // ----- the standing of a proposal -----

  /** Why a proposal may not be acted on, and exactly when. */
  lemma ProposalStanding(policy: Hash, p: ProposalRow, row: CustomerRow, now: Time, approvalNeeded: bool)
    ensures var o := Objection(policy, p, row, now, approvalNeeded);
      var live := p.policyHash == policy && now < p.expiresAt;
      var mail := p.body.action == SendMarketing;
      var state := row.state;
      var mailable := live && mail && Contactable(state) && row.revision == p.revision;
      && (o == Some(PolicyChanged) <==> p.policyHash != policy)
      && (o == Some(ProposalExpired) <==> p.policyHash == policy && p.expiresAt <= now)
      && (o == Some(ProtectedWrite) <==> live && p.body.action == SetConsent)
      && (o == Some(SuppressedOrUnknown) <==> live && mail && !KnownUnsuppressed(state))
      && (o == Some(ConsentMissingOrRevoked) <==> live && mail && KnownUnsuppressed(state) && !Consenting(state))
      && (o == Some(MissingEmail) <==>
            live && mail && KnownUnsuppressed(state) && Consenting(state) && !HasEmail(state))
      && (o == Some(StaleContext) <==>
            live && row.revision != p.revision && (p.body.action == SyncProfile || (mail && Contactable(state))))
      && (o == Some(ApprovalMissing) <==> mailable && approvalNeeded && p.approval.None?)
      && (o == Some(ApprovalExpired) <==>
            mailable && approvalNeeded && p.approval.Some? && p.approval.value.until <= now)
      && (o == None <==>
            || (live && p.body.action == SyncProfile && row.revision == p.revision)
            || (mailable && (approvalNeeded ==> p.approval.Some? && now < p.approval.value.until)))
  {
    ActionDecision(p.body.action, row.state, row.revision, p.revision);
  }

  /** Who may approve what: the proposer never, then the revision, then the decision, then the
      standing of the proposal without an approval. */
  lemma ApprovalStanding(policy: Hash, p: ProposalRow, row: CustomerRow, actor: string, expected: nat, now: Time)
    ensures var o := ApprovalObjection(policy, p, row, actor, expected, now);
      var eligible := actor != p.actor && expected == p.revision && p.decision == NeedsApproval;
      && (o == Some(SelfApprovalForbidden) <==> actor == p.actor)
      && (o == Some(ApprovalRevisionMismatch) <==> actor != p.actor && expected != p.revision)
      && (o == Some(NotApprovable) <==> actor != p.actor && expected == p.revision && p.decision != NeedsApproval)
      && (o == None <==> eligible && Objection(policy, p, row, now, false) == None)
      && (eligible ==> o == Objection(policy, p, row, now, false))
  {
    ProposalStanding(policy, p, row, now, false);
  }

  // ----- what a worker may send -----

  /** The payload and its header: an email to the customer with the template of the proposal, or the
      five fields of the profile as far as they are known, each with its value. */
  predicate Conveys(row: CustomerRow, p: ProposalRow, m: Mutation) {
    && m.customer == p.customer && m.action == p.body.action && m.revision == row.revision
    && (p.body.action == SendMarketing ==>
          Email in row.state && m.payload == Contact(Some(row.state[Email]), p.body.template))
    && (p.body.action != SendMarketing ==> m.payload.Profile? && ProfileFields(row.state, m.payload.fields))
  }

  predicate ProfileFields(state: Attributes, fields: Attributes) {
    && (forall field: Field :: field in fields <==> field in state && field in {Email, Phone, Owner, Lifecycle, Score})
    && (forall field <- fields :: field in state && fields[field] == state[field])
  }

  lemma RenderMeaning(row: CustomerRow, p: ProposalRow, m: Mutation)
    requires p.body.action == SendMarketing ==> Email in row.state
    ensures m == Render(row, p) <==> Conveys(row, p, m)
  {
    if m.payload.Profile? && ProfileFields(row.state, m.payload.fields) {
      assert m.payload.fields == ProfileOf(row.state);
    }
  }

  /** The proposal stands: current policy, unexpired, the same revision, and for marketing a
      contactable customer and an unexpired approval. */
  predicate Sendable(policy: Hash, p: ProposalRow, row: CustomerRow, now: Time) {
    && p.policyHash == policy && now < p.expiresAt && row.revision == p.revision
    && (|| p.body.action == SyncProfile
        || (p.body.action == SendMarketing && Contactable(row.state) && p.approval.Some? && now < p.approval.value.until))
  }

  /** The job is leased under this token. */
  predicate Holding(b: Business, id: Id, token: Id) {
    id in b.jobs && b.jobs[id].status == Leased && b.jobs[id].leaseToken == Some(token)
  }

  lemma LeaseDecision(b: Business, id: Id, token: Id)
    ensures Holds(b, id, token) <==> Holding(b, id, token)
  {
  }

  predicate RowsPresent(b: Business, id: Id) {
    id in b.proposals && b.proposals[id].customer in b.customers && id in b.jobs
  }

  /** What a preparation answers, case by case: a closed gate first, then missing rows, the lease, the
      standing of the proposal, and last a stored intent that differs. */
  lemma PreparationDecision(policy: Hash, open: bool, b: Business, id: Id, token: Id, now: Time)
    ensures var r := Preparation(policy, open, b, id, token, now);
      && (r == Objected(RecoveryClosed) <==> !open)
      && (r == Crashed <==> open && !RowsPresent(b, id))
      && (r == Objected(LeaseLost) <==> open && RowsPresent(b, id) && !Holding(b, id, token))
    ensures open && RowsPresent(b, id) && Holding(b, id, token) ==>
      Prepares(policy, b, id, now, Preparation(policy, open, b, id, token, now))
  {
    hide Render, Conveys;
    if RowsPresent(b, id) {
      var p := b.proposals[id];
      var row := b.customers[p.customer];
      ProposalStanding(policy, p, row, now, true);
      if Sendable(policy, p, row, now) {
        RenderMeaning(row, p, Render(row, p));
        if b.jobs[id].mutation.Some? { RenderMeaning(row, p, b.jobs[id].mutation.value); }
      }
    }
  }

  /** With the lease held: the stored intent, if there is one, must be what would be sent now. */
  predicate Prepares(policy: Hash, b: Business, id: Id, now: Time, r: Prepared)
    requires RowsPresent(b, id)
  {
    var p := b.proposals[id];
    var row := b.customers[p.customer];
    var stored := b.jobs[id].mutation;
    if !Sendable(policy, p, row, now) then
      r.Objected? && Objection(policy, p, row, now, true) == Some(r.reason)
    else if stored.Some? && !Conveys(row, p, stored.value) then r == Objected(MutationChanged)
    else r.Authorized? && Conveys(row, p, r.mutation)
  }

  // ----- what a worker concludes -----

  /** After a receipt lookup. */
  lemma LookupDecision(digest: Doc -> Hash, snapshot: JobRow, answer: Answer)
    ensures var f := AfterLookup(digest, snapshot, answer);
      var matches := answer.Held? && snapshot.mutation.Some?
                     && answer.receipt.hash == digest(OfMutation(snapshot.mutation.value));
      && (f == None <==> answer.Status? && answer.code == 404)
      && (matches ==> f == Some(Finish(Succeeded, ReconciledCommittedEffect, Some(answer.receipt), Some(false), None)))
      && (answer.Held? && !matches ==> f == Some(Finish(Dead, RemoteIdentityConflict, None, None, None)))
      && (answer.Status? && answer.code != 404 ==> f == Some(Finish(Retry, ReconciliationUnavailable, None, None, None)))
      && (answer.Broken? ==> f == Some(Finish(Retry, RemoteOutcomeUnknown, None, None, None)))
  {
  }

  /** After a POST: the column is cleared by a success, a 429 and a rejection, and by nothing else. */
  lemma PostDecision(digest: Doc -> Hash, mutation: Mutation, answer: Answer)
    ensures var f := AfterPost(digest, mutation, answer);
      var matches := answer.Held? && answer.receipt.hash == digest(OfMutation(mutation));
      var rejected := answer.Status? && answer.code in {400, 401, 403, 404, 409, 422};
      && (matches ==> f == Finish(Succeeded, RemoteCommitted, Some(answer.receipt), Some(false), None))
      && (answer.Held? && !matches ==> f == Finish(Dead, RemoteIdentityConflict, None, None, None))
      && (answer.Status? && answer.code == 429 ==>
            f.delay.Some? && f == Finish(Retry, RateLimited, None, Some(false), f.delay))
      && (rejected ==> f == Finish(Dead, RemoteRejected, None, Some(false), None))
      && (answer.Status? && answer.code != 429 && !rejected ==> f == Finish(Retry, RemoteServerError, None, None, None))
      && (answer.Broken? ==> f == Finish(Retry, RemoteOutcomeUnknown, None, None, None))
  {
  }

  /** `Retry-After` is honoured within a second and five minutes, and is five seconds when missing. */
  lemma DelayDecision(digest: Doc -> Hash, mutation: Mutation, retryAfter: Option<int>)
    ensures var delay := AfterPost(digest, mutation, Status(429, retryAfter)).delay;
      && delay.Some? && 1 <= delay.value <= 300
      && (retryAfter == None ==> delay == Some(5))
      && (retryAfter.Some? && 1 <= retryAfter.value <= 300 ==> delay == retryAfter)
      && (retryAfter.Some? && retryAfter.value < 1 ==> delay == Some(1))
      && (retryAfter.Some? && retryAfter.value > 300 ==> delay == Some(300))
  {
  }

  /** After a refused preparation, and for a job whose route cannot be served. */
  lemma RefusalDecision(cfg: Config, b: Business, id: Id, misconfigured: bool, reason: Reason)
    ensures AfterRefusal(RecoveryClosed) == Some(Finish(Retry, RecoveryClosed, None, None, Some(1)))
    ensures AfterRefusal(reason) == None <==> reason == LeaseLost
    ensures reason !in {RecoveryClosed, LeaseLost} ==> AfterRefusal(reason) == Some(Finish(Blocked, reason, None, None, None))
    ensures var o := RouteObjection(cfg, b, id, misconfigured);
      && (o == Some(LegacyRouteRequiresReview) <==> id !in b.routes && cfg.destinations != map[])
      && (o == Some(DestinationMisconfigured) <==> id in b.routes && misconfigured)
      && (o == None <==> (id !in b.routes && cfg.destinations == map[]) || (id in b.routes && !misconfigured))
  {
  }
}
