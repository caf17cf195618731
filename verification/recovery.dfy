/** Recovery sessions: a closed gate, proofs bound to what was observed, and an approved reopening. */
module RecoveryTx {
  import opened Schema
  import opened Policy
  import Operations

  const PROOF_TTL: Time := 90 * SECOND

  // ----- authority -----

  /** The stored value is carried by an event of the owning source received since `started`. */
  predicate Refreshed(b: Business, id: Id, field: Field, started: Time) {
    && id in b.customers && field in b.customers[id].provenance
    && var p := b.customers[id].provenance[field];
    && p.source == OwnerOf(field)
    && (p.source, p.eventId) in b.events
    && var event := b.events[(p.source, p.eventId)];
    && started <= event.receivedAt
    && field in event.body.attributes
    && Lookup(b.customers[id].state, field) == Some(event.body.attributes[field])
  }

  function FieldFinding(b: Business, id: Id, field: Field, started: Time): seq<Finding> {
    if Refreshed(b, id, field, started) then [] else [Finding(id, AuthorityRefreshMissing(field))]
  }

  function AuthorityFrom(b: Business, ids: seq<Id>, started: Time): seq<Finding> {
    if ids == [] then []
    else
      var last := ids[|ids| - 1];
      AuthorityFrom(b, ids[..|ids| - 1], started)
        + FieldFinding(b, last, Consent, started) + FieldFinding(b, last, Suppressed, started)
  }

  function AuthorityFindings(b: Business, started: Time): seq<Finding> {
    AuthorityFrom(b, Operations.SortedKeys(b.customers.Keys), started)
  }

  lemma {:induction false} AuthorityFromEmpty(b: Business, ids: seq<Id>, started: Time)
    ensures AuthorityFrom(b, ids, started) == [] <==>
      forall id <- ids :: Refreshed(b, id, Consent, started) && Refreshed(b, id, Suppressed, started)
  {
    if ids != [] {
      AuthorityFromEmpty(b, ids[..|ids| - 1], started);
      assert ids == ids[..|ids| - 1] + [ids[|ids| - 1]];
    }
  }

  /** `owner` itself sent the stored value of the field, in an event received since `started`. */
  predicate SentSince(b: Business, id: Id, field: Field, owner: Source, started: Time) {
    && id in b.customers && field in b.customers[id].provenance && field in b.customers[id].state
    && var p := b.customers[id].provenance[field];
    && p.source == owner && (owner, p.eventId) in b.events
    && started <= b.events[(owner, p.eventId)].receivedAt
    && field in b.events[(owner, p.eventId)].body.attributes
    && b.events[(owner, p.eventId)].body.attributes[field] == b.customers[id].state[field]
  }

  ghost predicate FreshConsents(b: Business, started: Time) {
    forall id <- b.customers ::
      SentSince(b, id, Consent, ConsentFeed, started) && SentSince(b, id, Suppressed, PrivacyFeed, started)
  }

  lemma RefreshedMeaning(b: Business, id: Id, started: Time)
    ensures Refreshed(b, id, Consent, started) <==> SentSince(b, id, Consent, ConsentFeed, started)
    ensures Refreshed(b, id, Suppressed, started) <==> SentSince(b, id, Suppressed, PrivacyFeed, started)
  {
  }

  lemma AuthorityMeaning(b: Business, started: Time)
    ensures AuthorityFindings(b, started) == [] <==> FreshConsents(b, started)
  {
    AuthorityFromEmpty(b, Operations.SortedKeys(b.customers.Keys), started);
    forall id: Id
      ensures Refreshed(b, id, Consent, started) <==> SentSince(b, id, Consent, ConsentFeed, started)
      ensures Refreshed(b, id, Suppressed, started) <==> SentSince(b, id, Suppressed, PrivacyFeed, started)
    {
      RefreshedMeaning(b, id, started);
    }
  }

  lemma {:induction false} AuthorityFromMeaning(b: Business, ids: seq<Id>, started: Time, finding: Finding)
    ensures finding in AuthorityFrom(b, ids, started) <==>
      && finding.key in ids && finding.kind.AuthorityRefreshMissing?
      && finding.kind.field in {Consent, Suppressed} && !Refreshed(b, finding.key, finding.kind.field, started)
  {
    if ids != [] {
      hide Refreshed;
      AuthorityFromMeaning(b, ids[..|ids| - 1], started, finding);
      assert ids == ids[..|ids| - 1] + [ids[|ids| - 1]];
    }
  }

  /** One finding for each customer and each of the two fields that its owner has not sent since. */
  lemma AuthorityFindingMeaning(b: Business, started: Time, finding: Finding)
    ensures finding in AuthorityFindings(b, started) <==>
      && finding.key in b.customers
      && (|| (finding.kind == AuthorityRefreshMissing(Consent) && !SentSince(b, finding.key, Consent, ConsentFeed, started))
          || (finding.kind == AuthorityRefreshMissing(Suppressed) && !SentSince(b, finding.key, Suppressed, PrivacyFeed, started)))
  {
    AuthorityFromMeaning(b, Operations.SortedKeys(b.customers.Keys), started, finding);
    RefreshedMeaning(b, finding.key, started);
  }

  // ----- observation -----

  function Fingerprint(ctl: Control): Hash {
    ctl.cfg.digest(OfBusiness(ctl.biz, ctl.policy))
  }

  /** What the coordinator is handed from outside the two databases: whether both connections
      still lead to the bound databases, and the live quiescence witness. */
  datatype Surroundings = Surroundings(sameDatabases: bool, quiescent: bool, observedAt: Time)

  predicate Attested(env: Surroundings, now: Time) {
    env.sameDatabases && env.quiescent && -2 * SECOND <= now - env.observedAt <= 10 * SECOND
  }

  function SessionOf(ctl: Control, binding: Binding, session: Id): Option<SessionRow> {
    if session !in ctl.sessions || ctl.gate.session != Some(session) || ctl.gate.mode != Closed then None
    else if ctl.sessions[session].bindingHash != ctl.cfg.digest(OfBinding(binding))
            || ctl.sessions[session].binding != binding then None
    else Some(ctl.sessions[session])
  }

  /** The single-receiver observation; registered destinations make it raise. */
  function Inspect(ctl: Control, binding: Binding, env: Surroundings, receipts: map<Id, Effect>,
                   session: SessionRow, now: Time): Option<Report>
  {
    if !Attested(env, now) || ctl.cfg.destinations != map[] then None
    else
      var comparison := Operations.Compare(ctl.cfg.digest, Operations.AllJobs(ctl.biz), receipts);
      var findings := comparison.findings + AuthorityFindings(ctl.biz, session.createdAt);
      Some(Report(findings == [], findings, comparison.snapshotHash, Fingerprint(ctl),
                  ctl.cfg.digest(OfBinding(binding)), ctl.policy))
  }

  // ----- transactions; `None` is a raised error that leaves no trace -----

  function BeginTx(ctl: Control, binding: Binding, session: Id, now: Time): Option<Control> {
    if ctl.gate.mode == Closed || session in ctl.sessions then None
    else
      var row := SessionRow(binding, ctl.cfg.digest(OfBinding(binding)), now, SessionClosed);
      Some(ctl.(sessions := ctl.sessions[session := row],
                gate := Gate(Closed, ctl.gate.epoch + 1, Some(session), None, None)))
  }

  function VerifyTx(ctl: Control, binding: Binding, env: Surroundings, receipts: map<Id, Effect>,
                    session: Id, proof: Id, now: Time): Option<Control>
  {
    match SessionOf(ctl, binding, session)
    case None => None
    case Some(row) =>
      match Inspect(ctl, binding, env, receipts, row, now)
      case None => None
      case Some(report) =>
        if proof in ctl.proofs then None
        else Some(ctl.(proofs := ctl.proofs[proof :=
          ProofRow(session, report, ctl.cfg.digest(OfReport(report)), now)]))
  }

  predicate StandingProof(ctl: Control, session: Id, proof: Id, now: Time) {
    && proof in ctl.proofs && ctl.proofs[proof].session == session
    && ctl.proofs[proof].report.safe
    && ctl.proofs[proof].reportHash == ctl.cfg.digest(OfReport(ctl.proofs[proof].report))
    && now - ctl.proofs[proof].createdAt <= PROOF_TTL
  }

  predicate SameEvidence(a: Report, b: Report) {
    && a.controlFingerprint == b.controlFingerprint && a.snapshotHash == b.snapshotHash
    && a.bindingHash == b.bindingHash && a.policyHash == b.policyHash
  }

  /** The checks shared by approval and resumption. */
  predicate FreshApproval(ctl: Control, binding: Binding, env: Surroundings, receipts: map<Id, Effect>,
                          session: Id, proof: Id, now: Time)
  {
    && SessionOf(ctl, binding, session).Some?
    && StandingProof(ctl, session, proof, now)
    && var seen := Inspect(ctl, binding, env, receipts, ctl.sessions[session], now);
    && seen.Some? && seen.value.safe && SameEvidence(seen.value, ctl.proofs[proof].report)
  }

  function ApproveProofTx(ctl: Control, binding: Binding, env: Surroundings, receipts: map<Id, Effect>,
                          session: Id, proof: Id, now: Time): Option<Control>
  {
    if !FreshApproval(ctl, binding, env, receipts, session, proof, now) then None
    else Some(ctl.(gate := ctl.gate.(approvedProof := Some(proof), approvedAt := Some(now)),
                   sessions := ctl.sessions[session := ctl.sessions[session].(status := SessionApproved)]))
  }

  function ResumeTx(ctl: Control, binding: Binding, env: Surroundings, receipts: map<Id, Effect>,
                    session: Id, proof: Id, now: Time): Option<Control>
  {
    if !FreshApproval(ctl, binding, env, receipts, session, proof, now)
       || ctl.gate.approvedProof != Some(proof) then None
    else Some(ctl.(gate := ctl.gate.(mode := Open, approvedProof := None),
                   sessions := ctl.sessions[session := ctl.sessions[session].(status := SessionResumed)]))
  }

  // ----- what the checks come to -----

  /** Both connections lead to the bound databases, and that traffic is quiescent was seen at most ten
      seconds ago and at most two seconds ahead of the clock. */
  predicate Witnessed(env: Surroundings, now: Time) {
    env.sameDatabases && env.quiescent && -2_000_000 <= now - env.observedAt <= 10_000_000
  }

  /** The gate is closed under this very session, which was bound to these databases. */
  predicate InSession(ctl: Control, binding: Binding, session: Id) {
    && ctl.gate.mode == Closed && ctl.gate.session == Some(session) && session in ctl.sessions
    && ctl.sessions[session].binding == binding
    && ctl.sessions[session].bindingHash == ctl.cfg.digest(OfBinding(binding))
  }

  /** The report is bound to the rows, the policy, the receipts and the binding as they are. */
  predicate Describes(r: Report, ctl: Control, binding: Binding, receipts: map<Id, Effect>) {
    && r.controlFingerprint == ctl.cfg.digest(OfBusiness(ctl.biz, ctl.policy))
    && r.snapshotHash == ctl.cfg.digest(OfSnapshot(Operations.AllJobs(ctl.biz), Operations.SeenIn(receipts)))
    && r.bindingHash == ctl.cfg.digest(OfBinding(binding))
    && r.policyHash == ctl.policy
  }

  /** Both sides agree about every key, and consent and suppression are fresh. */
  ghost predicate Clean(ctl: Control, receipts: map<Id, Effect>, started: Time) {
    && (forall key :: Operations.Reconciled(ctl.cfg.digest, Operations.AllJobs(ctl.biz), receipts, key))
    && FreshConsents(ctl.biz, started)
  }

  /** A safe proof of this session, unaltered and at most ninety seconds old. */
  predicate Proven(ctl: Control, session: Id, proof: Id, now: Time) {
    && proof in ctl.proofs && ctl.proofs[proof].session == session && ctl.proofs[proof].report.safe
    && ctl.proofs[proof].reportHash == ctl.cfg.digest(OfReport(ctl.proofs[proof].report))
    && now - ctl.proofs[proof].createdAt <= 90_000_000
  }

  lemma SessionMeaning(ctl: Control, binding: Binding, session: Id)
    ensures SessionOf(ctl, binding, session).Some? <==> InSession(ctl, binding, session)
    ensures InSession(ctl, binding, session) ==> SessionOf(ctl, binding, session) == Some(ctl.sessions[session])
  {
  }

  /** When there is an observation at all, what it is bound to, and when it is safe. */
  lemma ObservationMeaning(ctl: Control, binding: Binding, env: Surroundings, receipts: map<Id, Effect>,
                           session: SessionRow, now: Time)
    ensures var seen := Inspect(ctl, binding, env, receipts, session, now);
      && (seen.Some? <==> Witnessed(env, now) && ctl.cfg.destinations == map[])
      && (seen.Some? ==> Describes(seen.value, ctl, binding, receipts))
      && (seen.Some? ==>
            seen.value.findings == Operations.FindingsOf(ctl.cfg.digest, Operations.AllJobs(ctl.biz), receipts)
                                   + AuthorityFindings(ctl.biz, session.createdAt))
      && (seen.Some? ==> (seen.value.safe <==> Clean(ctl, receipts, session.createdAt)))
  {
    Operations.SafeMeaning(ctl.cfg.digest, Operations.AllJobs(ctl.biz), receipts);
    AuthorityMeaning(ctl.biz, session.createdAt);
    hide AuthorityFindings, FreshConsents, Operations.FindingsOf, Operations.AllJobs, Operations.SeenIn, Operations.Reconciled;
  }

  /** What a proof may be approved for, and the gate reopened on. */
  ghost predicate Reopenable(ctl: Control, binding: Binding, env: Surroundings, receipts: map<Id, Effect>,
                             session: Id, proof: Id, now: Time)
  {
    && InSession(ctl, binding, session) && Proven(ctl, session, proof, now)
    && Witnessed(env, now) && ctl.cfg.destinations == map[]
    && Clean(ctl, receipts, ctl.sessions[session].createdAt)
    && Describes(ctl.proofs[proof].report, ctl, binding, receipts)
  }

  lemma ApprovalMeaning(ctl: Control, binding: Binding, env: Surroundings, receipts: map<Id, Effect>,
                        session: Id, proof: Id, now: Time)
    ensures FreshApproval(ctl, binding, env, receipts, session, proof, now) <==>
      Reopenable(ctl, binding, env, receipts, session, proof, now)
  {
    SessionMeaning(ctl, binding, session);
    if InSession(ctl, binding, session) {
      ObservationMeaning(ctl, binding, env, receipts, ctl.sessions[session], now);
    }
    hide Inspect, SessionOf, Clean;
  }

  /** A verification stores what it saw, whether that is safe or not. */
  lemma VerifyMeaning(ctl: Control, binding: Binding, env: Surroundings, receipts: map<Id, Effect>,
                      session: Id, proof: Id, now: Time)
    ensures var r := VerifyTx(ctl, binding, env, receipts, session, proof, now);
      && (r.Some? <==> Verifiable(ctl, binding, env, session, proof, now))
      && (r.Some? ==> VerifiedRow(ctl, binding, receipts, session, proof, now, r.value))
  {
    SessionMeaning(ctl, binding, session);
    hide SessionOf, Inspect, Reported, Witnessed;
    if InSession(ctl, binding, session) {
      ObservationReported(ctl, binding, env, receipts, ctl.sessions[session], now);
    } else {
      assert VerifyTx(ctl, binding, env, receipts, session, proof, now) == None;
    }
  }

  /** Bound to what was there, and safe exactly when that was clean. */
  ghost predicate Reported(r: Report, ctl: Control, binding: Binding, receipts: map<Id, Effect>, started: Time) {
    Describes(r, ctl, binding, receipts) && (r.safe <==> Clean(ctl, receipts, started))
  }

  lemma ObservationReported(ctl: Control, binding: Binding, env: Surroundings, receipts: map<Id, Effect>,
                            session: SessionRow, now: Time)
    ensures var seen := Inspect(ctl, binding, env, receipts, session, now);
      && (seen.Some? <==> Witnessed(env, now) && ctl.cfg.destinations == map[])
      && (seen.Some? ==> Reported(seen.value, ctl, binding, receipts, session.createdAt))
  {
    ObservationMeaning(ctl, binding, env, receipts, session, now);
    hide Inspect, Clean, Describes, Witnessed;
  }

  predicate Verifiable(ctl: Control, binding: Binding, env: Surroundings, session: Id, proof: Id, now: Time) {
    InSession(ctl, binding, session) && Witnessed(env, now) && ctl.cfg.destinations == map[] && proof !in ctl.proofs
  }

  /** The one new row: safe exactly when everything is clean, and bound to what was there. */
  ghost predicate VerifiedRow(ctl: Control, binding: Binding, receipts: map<Id, Effect>, session: Id, proof: Id,
                              now: Time, ctl': Control)
  {
    && session in ctl.sessions && proof in ctl'.proofs
    && var row := ctl'.proofs[proof];
    && ctl' == ctl.(proofs := ctl.proofs[proof := row])
    && row == ProofRow(session, row.report, ctl.cfg.digest(OfReport(row.report)), now)
    && Reported(row.report, ctl, binding, receipts, ctl.sessions[session].createdAt)
  }

  /** What stands behind an open gate: a clean comparison, refreshed authority, a live witness, and
      the standing, approved proof of the current session; and what opening it writes. */
  lemma ResumeTxMeaning(ctl: Control, binding: Binding, env: Surroundings, receipts: map<Id, Effect>,
                        session: Id, proof: Id, now: Time)
    ensures var r := ResumeTx(ctl, binding, env, receipts, session, proof, now);
      && (r.Some? <==> Reopenable(ctl, binding, env, receipts, session, proof, now)
                       && ctl.gate.approvedProof == Some(proof))
      && (r.Some? ==>
            session in ctl.sessions
            && r.value == ctl.(gate := Gate(Open, ctl.gate.epoch, Some(session), None, ctl.gate.approvedAt),
                               sessions := ctl.sessions[session := ctl.sessions[session].(status := SessionResumed)]))
  {
    ApprovalMeaning(ctl, binding, env, receipts, session, proof, now);
    hide FreshApproval, Clean, Describes, Proven;
  }

  /** An approval keeps the gate closed and names the proof it is for. */
  lemma ApproveMeaning(ctl: Control, binding: Binding, env: Surroundings, receipts: map<Id, Effect>,
                       session: Id, proof: Id, now: Time)
    ensures var r := ApproveProofTx(ctl, binding, env, receipts, session, proof, now);
      && (r.Some? <==> Reopenable(ctl, binding, env, receipts, session, proof, now))
      && (r.Some? ==>
            session in ctl.sessions
            && r.value == ctl.(gate := Gate(Closed, ctl.gate.epoch, Some(session), Some(proof), Some(now)),
                               sessions := ctl.sessions[session := ctl.sessions[session].(status := SessionApproved)]))
  {
    ApprovalMeaning(ctl, binding, env, receipts, session, proof, now);
    hide FreshApproval, Clean, Describes, Proven;
  }

  /** A session begins at an open gate and binds it to these databases. */
  lemma BeginMeaning(ctl: Control, binding: Binding, session: Id, now: Time)
    ensures var r := BeginTx(ctl, binding, session, now);
      && (r.Some? <==> ctl.gate.mode == Open && session !in ctl.sessions)
      && (r.Some? ==>
            r.value == ctl.(gate := Gate(Closed, ctl.gate.epoch + 1, Some(session), None, None),
                            sessions := ctl.sessions[session :=
                              SessionRow(binding, ctl.cfg.digest(OfBinding(binding)), now, SessionClosed)]))
  {
  }
}
