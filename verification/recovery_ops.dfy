/** The recovery coordinator: a binding fixed at construction, and transactions on the gate. */
module RecoveryOps {
  import opened Schema
  import opened Policy
  import opened RecoveryTx
  import Operations

  /** The two loops over customers and over the two protected fields. */
  method FindUnrefreshed(db: ControlDb, started: Time) returns (findings: seq<Finding>)
    ensures findings == AuthorityFindings(db.Biz(), started)
    ensures findings == [] <==> FreshConsents(db.Biz(), started)
  {
    var ids := Operations.SortedKeys(db.customers.Keys);
    findings := [];
    for i := 0 to |ids|
      invariant findings == AuthorityFrom(db.Biz(), ids[..i], started)
    {
      var fields := [Consent, Suppressed];
      ghost var before := findings;
      hide AuthorityFrom, Refreshed;
      for j := 0 to 2
        invariant findings == before
          + (if j > 0 then FieldFinding(db.Biz(), ids[i], Consent, started) else [])
          + (if j > 1 then FieldFinding(db.Biz(), ids[i], Suppressed, started) else [])
      {
        if !Refreshed(db.Biz(), ids[i], fields[j], started) {
          findings := findings + [Finding(ids[i], AuthorityRefreshMissing(fields[j]))];
        }
      }
      AuthorityNext(db.Biz(), ids, i, started);
    }
    assert ids[..|ids|] == ids;
    AuthorityMeaning(db.Biz(), started);
  }

  lemma AuthorityNext(b: Business, ids: seq<Id>, i: nat, started: Time)
    requires i < |ids|
    ensures AuthorityFrom(b, ids[..i + 1], started) == AuthorityFrom(b, ids[..i], started)
      + FieldFinding(b, ids[i], Consent, started) + FieldFinding(b, ids[i], Suppressed, started)
  {
    assert ids[..i + 1][..i] == ids[..i];
  }

  class Recovery {
    const binding: Binding

    constructor (binding: Binding)
      ensures this.binding == binding
    {
      this.binding := binding;
    }

    method Session(db: ControlDb, session: Id) returns (row: Option<SessionRow>)
      ensures row == SessionOf(db.View(), binding, session)
      ensures row.Some? <==> InSession(db.View(), binding, session)
    {
      if session !in db.sessions || db.gate.session != Some(session) || db.gate.mode != Closed { return None; }
      var found := db.sessions[session];
      if found.bindingHash != db.cfg.digest(OfBinding(binding)) || found.binding != binding { return None; }
      return Some(found);
    }

    method Begin(db: ControlDb, session: Id, now: Time) returns (ok: bool)
      modifies db`gate, db`sessions
      ensures ok <==> BeginTx(old(db.View()), binding, session, now).Some?
      ensures db.View() == if ok then BeginTx(old(db.View()), binding, session, now).value else old(db.View())
      ensures ok <==> old(db.gate).mode == Open && session !in old(db.sessions)
      ensures ok ==> db.gate.mode == Closed && db.gate.approvedProof == None && db.gate.epoch == old(db.gate).epoch + 1
      ensures ok ==> InSession(db.View(), binding, session) && db.sessions[session].createdAt == now
    {
      if db.gate.mode == Closed || session in db.sessions { return false; }
      db.sessions := db.sessions[session := SessionRow(binding, db.cfg.digest(OfBinding(binding)), now, SessionClosed)];
      db.gate := Gate(Closed, db.gate.epoch + 1, Some(session), None, None);
      return true;
    }

    /** The observation, from the live witness to the fingerprint of all business rows. */
    method Observe(db: ControlDb, env: Surroundings, receipts: map<Id, Effect>, session: SessionRow, now: Time)
      returns (report: Option<Report>)
      ensures report == Inspect(db.View(), binding, env, receipts, session, now)
      ensures report.Some? <==> env.sameDatabases && env.quiescent
                                && -2_000_000 <= now - env.observedAt <= 10_000_000 && db.cfg.destinations == map[]
      ensures report.Some? ==> Describes(report.value, db.View(), binding, receipts)
      ensures report.Some? ==> (report.value.safe <==> Clean(db.View(), receipts, session.createdAt))
    {
      ObservationMeaning(db.View(), binding, env, receipts, session, now);
      hide Clean, Describes, FreshConsents;
      hide AuthorityFindings, Operations.Compare, Operations.AllJobs;
      if !env.sameDatabases || !env.quiescent { return None; }
      if !(-2 * SECOND <= now - env.observedAt <= 10 * SECOND) { return None; }
      if db.cfg.destinations != map[] { return None; }
      var comparison := Operations.CompareReceipts(db.cfg.digest, Operations.AllJobs(db.Biz()), receipts);
      var authority := FindUnrefreshed(db, session.createdAt);
      var findings := comparison.findings + authority;
      return Some(Report(findings == [], findings, comparison.snapshotHash,
                         db.cfg.digest(OfBusiness(db.Biz(), db.policy)), db.cfg.digest(OfBinding(binding)), db.policy));
    }

    method Verify(db: ControlDb, env: Surroundings, receipts: map<Id, Effect>, session: Id, proof: Id, now: Time)
      returns (ok: bool)
      modifies db`proofs
      ensures ok <==> VerifyTx(old(db.View()), binding, env, receipts, session, proof, now).Some?
      ensures db.View() ==
        if ok then VerifyTx(old(db.View()), binding, env, receipts, session, proof, now).value else old(db.View())
      ensures ok <==> Verifiable(old(db.View()), binding, env, session, proof, now)
      ensures ok ==> VerifiedRow(old(db.View()), binding, receipts, session, proof, now, db.View())
      ensures forall p <- old(db.proofs) :: p in db.proofs && db.proofs[p] == old(db.proofs)[p]
      ensures ok ==> proof !in old(db.proofs) && proof in db.proofs && db.proofs[proof].session == session
      ensures ok && db.proofs[proof].report.safe ==> StandingProof(db.View(), session, proof, now)
    {
      VerifyMeaning(db.View(), binding, env, receipts, session, proof, now);
      hide Inspect, SessionOf, Verifiable, VerifiedRow, Clean, Describes, InSession;
      var row := Session(db, session);
      if row.None? { return false; }
      var report := Observe(db, env, receipts, row.value, now);
      if report.None? || proof in db.proofs { return false; }
      db.proofs := db.proofs[proof := ProofRow(session, report.value, db.cfg.digest(OfReport(report.value)), now)];
      return true;
    }

    /** The checks that approval and resumption share: a standing proof, and the same evidence now. */
    method Evidence(db: ControlDb, env: Surroundings, receipts: map<Id, Effect>, session: Id, proof: Id, now: Time)
      returns (ok: bool)
      ensures ok <==> FreshApproval(db.View(), binding, env, receipts, session, proof, now)
    {
      hide Inspect;
      var row := Session(db, session);
      if row.None? || proof !in db.proofs || db.proofs[proof].session != session { return false; }
      var stored := db.proofs[proof];
      if !stored.report.safe || stored.reportHash != db.cfg.digest(OfReport(stored.report))
         || now - stored.createdAt > PROOF_TTL { return false; }
      var seen := Observe(db, env, receipts, row.value, now);
      if seen.None? || !seen.value.safe { return false; }
      return SameEvidence(seen.value, stored.report);
    }

    method Approve(db: ControlDb, env: Surroundings, receipts: map<Id, Effect>, session: Id, proof: Id, now: Time)
      returns (ok: bool)
      modifies db`gate, db`sessions
      ensures ok <==> ApproveProofTx(old(db.View()), binding, env, receipts, session, proof, now).Some?
      ensures db.View() ==
        if ok then ApproveProofTx(old(db.View()), binding, env, receipts, session, proof, now).value else old(db.View())
      ensures db.gate.mode == old(db.gate).mode && db.gate.epoch == old(db.gate).epoch && db.gate.session == old(db.gate).session
      ensures ok <==> Reopenable(old(db.View()), binding, env, receipts, session, proof, now)
      ensures ok ==> db.gate == Gate(Closed, old(db.gate).epoch, Some(session), Some(proof), Some(now))
    {
      ApproveMeaning(db.View(), binding, env, receipts, session, proof, now);
      hide Reopenable, Clean, Describes;
      var evidence := Evidence(db, env, receipts, session, proof, now);
      if !evidence { return false; }
      hide Inspect, StandingProof;
      db.gate := db.gate.(approvedProof := Some(proof), approvedAt := Some(now));
      db.sessions := db.sessions[session := db.sessions[session].(status := SessionApproved)];
      return true;
    }

    method Resume(db: ControlDb, env: Surroundings, receipts: map<Id, Effect>, session: Id, proof: Id, now: Time)
      returns (ok: bool)
      modifies db`gate, db`sessions
      ensures ok <==> ResumeTx(old(db.View()), binding, env, receipts, session, proof, now).Some?
      ensures db.View() ==
        if ok then ResumeTx(old(db.View()), binding, env, receipts, session, proof, now).value else old(db.View())
      ensures !ok ==> db.gate == old(db.gate)
      ensures ok ==> old(db.gate).mode == Closed && old(db.gate).session == Some(session) && old(db.gate).approvedProof == Some(proof)
      ensures ok <==> Reopenable(old(db.View()), binding, env, receipts, session, proof, now)
                      && old(db.gate).approvedProof == Some(proof)
      ensures ok ==> db.gate == Gate(Open, old(db.gate).epoch, Some(session), None, old(db.gate).approvedAt)
    {
      ResumeTxMeaning(db.View(), binding, env, receipts, session, proof, now);
      hide Reopenable, Clean, Describes;
      var evidence := Evidence(db, env, receipts, session, proof, now);
      if !evidence || db.gate.approvedProof != Some(proof) { return false; }
      hide Inspect, StandingProof;
      db.gate := db.gate.(mode := Open, approvedProof := None);
      db.sessions := db.sessions[session := db.sessions[session].(status := SessionResumed)];
      return true;
    }
  }
}
