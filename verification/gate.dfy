/** The recovery gate over whole runs: what a closed gate stops, how it opens again, and what
    evidence an opening rests on. */
module GateSafety {
  import opened Schema
  import opened Policy
  import opened ServiceTx
  import opened CapacityTx
  import opened Receiver
  import opened WorkerTx
  import opened Operations
  import opened RecoveryTx
  import opened System
  import opened Steps
  import opened Intents
  import opened Footprints
  import opened Outbox
  import opened Runs
  import opened Resumption
  import opened Lineages

  // ----- while the gate is closed -----

  /** No new proposal or approval, no new job, no new lease, no newly authorised intent. */
  ghost predicate Frozen(s: Sys, s': Sys) {
    var b, b' := s.ctl.biz, s'.ctl.biz;
    && b'.proposals == b.proposals && b'.routes == b.routes && b'.jobs.Keys == b.jobs.Keys
    && (forall id <- b.jobs :: b'.jobs[id].mutation == b.jobs[id].mutation)
    && (forall id <- b.jobs :: b'.jobs[id].leaseToken.Some? ==> b'.jobs[id].leaseToken == b.jobs[id].leaseToken)
    && (forall token <- s'.workers :: token in s.workers && (s'.workers[token].phase.Cleared? ==> s.workers[token].phase.Cleared?))
  }

  lemma FrozenFinish(s: Sys, token: Id, f: Finish, jitter: Time)
    requires token in s.workers
    ensures Frozen(s, Finished(s, token, f, jitter))
  {
    hide Backoff, Capped, CategoryOf;
    var b, id := s.ctl.biz, s.workers[token].id;
    if Holds(b, id, token) {
      var job := FinishedJob(b.jobs[id], f, jitter, s.now);
      assert job.leaseToken == None && job.mutation == b.jobs[id].mutation;
      hide FinishedJob;
      assert Finished(s, token, f, jitter).ctl.biz.jobs == b.jobs[id := job];
    } else {
      assert Finished(s, token, f, jitter).ctl.biz == b;
    }
  }

  lemma FrozenWorker(s: Sys, e: System.Event)
    requires !IsOpen(s) && OfWorker(e)
    ensures Frozen(s, Act(s, e))
  {
    hide Frozen, Act;
    if e.Settle? || e.Misroute? {
      var f := FinishingStep(s, e);
      if f.Some? { FrozenFinish(s, e.token, f.value, e.jitter); } else { FrozenStop(s, e); }
    } else if e.Prepare? {
      FrozenPrepare(s, e);
    } else if e.Defer? {
      FrozenDefer(s, e);
    } else {
      FrozenPassive(s, e);
    }
  }

  lemma FrozenStop(s: Sys, e: System.Event)
    requires (e.Settle? || e.Misroute?) && (Act(s, e) == s || Act(s, e) == WithoutWorker(s, e.token))
    ensures Frozen(s, Act(s, e))
  {
    hide Act, Frozen;
    FrozenStill(s, e.token);
  }

  lemma FrozenPassive(s: Sys, e: System.Event)
    requires !IsOpen(s) && (e.Claim? || e.Get? || e.Send? || e.Crash?)
    ensures Frozen(s, Act(s, e))
  {
    hide DoGet, DoSend, Frozen, Next;
    if e.Get? { FrozenGet(s, e.token, e.front); } else if e.Send? { FrozenSend(s, e.token); } else { FrozenStill(s, e.token); }
  }

  lemma FrozenGet(s: Sys, token: Id, front: Option<Answer>)
    ensures Frozen(s, DoGet(s, token, front))
  {
  }

  lemma FrozenSend(s: Sys, token: Id)
    ensures Frozen(s, DoSend(s, token))
  {
  }

  lemma FrozenStill(s: Sys, token: Id)
    ensures Frozen(s, s) && Frozen(s, WithoutWorker(s, token))
  {
  }

  lemma FrozenPrepare(s: Sys, e: System.Event)
    requires !IsOpen(s) && e.Prepare?
    ensures Frozen(s, Act(s, e))
  {
  }

  lemma FrozenDefer(s: Sys, e: System.Event)
    requires e.Defer?
    ensures Frozen(s, Act(s, e))
  {
    hide DoDefer, Frozen;
    FrozenDeferral(s, e.token);
  }

  lemma FrozenDeferral(s: Sys, token: Id)
    ensures Frozen(s, DoDefer(s, token))
  {
  }

  /** While the gate is closed nothing new is admitted, claimed, approved or authorised. */
  lemma ClosedGateFreezes(s: Sys, e: System.Event)
    requires !IsOpen(s)
    ensures Frozen(s, Act(s, e))
  {
    hide Act;
    if OfWorker(e) {
      FrozenWorker(s, e);
    } else if OfService(e) {
      ServiceStep(s, e);
    } else if Aside(e) {
      AsideKeepsJobs(s, e);
    } else {
      NetworkKeepsControl(s, e);
    }
  }

  // ----- alternation -----

  predicate Begins(s: Sys, t: Timed) {
    t.event.Begin? && BeginTx(s.ctl, t.event.binding, t.event.session, t.at).Some?
  }

  ghost function Closings(ms: seq<Moment>): nat {
    if ms == [] then 0
    else
      var last := ms[|ms| - 1];
      Closings(ms[..|ms| - 1]) + if Begins(last.state, last.step) then 1 else 0
  }

  ghost function Openings(ms: seq<Moment>): nat {
    if ms == [] then 0
    else
      var last := ms[|ms| - 1];
      Openings(ms[..|ms| - 1]) + if Resumes(last.state, last.step) then 1 else 0
  }

  lemma GateStep(s: Sys, t: Timed)
    ensures Begins(s, t) ==> s.ctl.gate.mode == Open && Step(s, t).ctl.gate.mode == Closed
                             && Step(s, t).ctl.gate.epoch == s.ctl.gate.epoch + 1
    ensures Resumes(s, t) ==> s.ctl.gate.mode == Closed && Step(s, t).ctl.gate.mode == Open
                              && Step(s, t).ctl.gate.epoch == s.ctl.gate.epoch
    ensures !Begins(s, t) && !Resumes(s, t) ==>
      Step(s, t).ctl.gate.mode == s.ctl.gate.mode && Step(s, t).ctl.gate.epoch == s.ctl.gate.epoch
  {
    RecoveryStep(s, t);
    if Resumes(s, t) { ResumeMeaning(s, t); }
    hide Step, Inspect, FreshApproval;
  }

  function ClosedCount(gate: Gate): nat { if gate.mode == Closed then 1 else 0 }

  /** `begin` and `resume` strictly alternate, and the epoch counts the closings, in every history
      of a control database, from whatever state it starts and through whatever restores. */
  lemma {:induction false} GateAlternates(start: Control, ms: seq<Moment>, s: Sys)
    requires Lineage(start, ms, s)
    ensures s.ctl.gate.epoch == start.gate.epoch + Closings(ms)
    ensures Closings(ms) + ClosedCount(start.gate) == Openings(ms) + ClosedCount(s.ctl.gate)
    decreases |ms|
  {
    if ms != [] {
      var last := ms[|ms| - 1];
      hide Step, Begins, Resumes;
      GateAlternates(start, ms[..|ms| - 1], last.state);
      GateStep(last.state, last.step);
    }
  }

  // ----- the evidence behind an opening -----

  /** The verification that stores the proof: of the current session, with a live witness, its report
      bound to what was there, and safe exactly when that was clean. */
  ghost predicate Verifies(s: Sys, t: Timed, proof: Id, row: ProofRow) {
    && t.event.Verify? && t.event.proof == proof && t.event.session == row.session && row.createdAt == t.at
    && InSession(s.ctl, t.event.binding, row.session) && Witnessed(t.event.env, t.at)
    && Reported(row.report, s.ctl, t.event.binding, Receipts(s), s.ctl.sessions[row.session].createdAt)
  }

  /** Moment `i` is the verification that produced the proof. */
  ghost predicate VerifiedAt(ms: seq<Moment>, i: nat, proof: Id, row: ProofRow) {
    i < |ms| && Verifies(ms[i].state, ms[i].step, proof, row)
  }

  /** The gate has not been touched from moment `j` on. */
  predicate GateKept(ms: seq<Moment>, s: Sys, j: nat) {
    forall k :: j <= k < |ms| ==> ms[k].state.ctl.gate == s.ctl.gate
  }

  /** The operator's approval of the proof: of the same evidence, live and clean, at that moment. */
  ghost predicate Approves(s: Sys, t: Timed, session: Id, proof: Id) {
    && t.event.ApproveProof? && t.event.proof == proof && t.event.session == session
    && Reopenable(s.ctl, t.event.binding, t.event.env, Receipts(s), session, proof, t.at)
  }

  /** Moment `j` is the approval of the proof, and the gate has not been touched since. */
  ghost predicate ApprovedSince(ms: seq<Moment>, s: Sys, j: nat, session: Id, proof: Id) {
    j < |ms| && Approves(ms[j].state, ms[j].step, session, proof) && GateKept(ms, s, j + 1)
  }

  /** A proof is one that the history started with, or was verified in it. */
  ghost predicate ProofEvidenced(start: Control, ms: seq<Moment>, proof: Id, row: ProofRow) {
    (proof in start.proofs && start.proofs[proof] == row) || exists i: nat :: VerifiedAt(ms, i, proof, row)
  }

  /** An approval is one that the history started with, the gate untouched since, or was given in it. */
  ghost predicate ApprovalEvidenced(start: Control, ms: seq<Moment>, s: Sys) {
    s.ctl.gate.approvedProof.Some? ==>
      || (s.ctl.gate == start.gate && GateKept(ms, s, 0))
      || (&& s.ctl.gate.session.Some?
          && exists j: nat :: ApprovedSince(ms, s, j, s.ctl.gate.session.value, s.ctl.gate.approvedProof.value))
  }

  lemma WhoWritesProofs(s: Sys, t: Timed, proof: Id)
    requires proof in Step(s, t).ctl.proofs
    ensures var row := Step(s, t).ctl.proofs[proof];
      (proof in s.ctl.proofs && s.ctl.proofs[proof] == row) || Verifies(s, t, proof, row)
  {
    RecoveryStep(s, t);
    var e := t.event;
    if e.Verify? { VerifyMeaning(s.ctl, e.binding, e.env, Receipts(s), e.session, e.proof, t.at); }
    hide Step, Inspect, FreshApproval, Reported, Witnessed, InSession, VerifyTx;
  }

  lemma WhoWritesGate(s: Sys, t: Timed)
    ensures var gate := Step(s, t).ctl.gate;
      || gate == s.ctl.gate || gate.approvedProof == None
      || (&& t.event.ApproveProof? && gate.approvedProof == Some(t.event.proof) && gate.session == Some(t.event.session)
          && Approves(s, t, t.event.session, t.event.proof))
  {
    RecoveryStep(s, t);
    var e := t.event;
    if e.ApproveProof? { ApproveMeaning(s.ctl, e.binding, e.env, Receipts(s), e.session, e.proof, t.at); }
    hide Step, Inspect, StandingProof, Reopenable, FreshApproval, ApproveProofTx;
  }

  lemma VerifiedLater(ms: seq<Moment>, last: Moment, i: nat, proof: Id, row: ProofRow)
    requires VerifiedAt(ms, i, proof, row)
    ensures VerifiedAt(ms + [last], i, proof, row)
  {
    hide Verifies;
    assert (ms + [last])[i] == ms[i];
  }

  lemma VerifiedNow(ms: seq<Moment>, last: Moment, proof: Id, row: ProofRow)
    requires Verifies(last.state, last.step, proof, row)
    ensures VerifiedAt(ms + [last], |ms|, proof, row)
  {
    hide Verifies;
    assert (ms + [last])[|ms|] == last;
  }

  lemma ApprovedLater(ms: seq<Moment>, last: Moment, s: Sys, j: nat, session: Id, proof: Id)
    requires ApprovedSince(ms, last.state, j, session, proof) && s.ctl.gate == last.state.ctl.gate
    ensures ApprovedSince(ms + [last], s, j, session, proof)
  {
    hide Approves;
    assert (ms + [last])[j] == ms[j];
    KeptLater(ms, last, s, j + 1);
  }

  lemma KeptLater(ms: seq<Moment>, last: Moment, s: Sys, j: nat)
    requires GateKept(ms, last.state, j) && s.ctl.gate == last.state.ctl.gate
    ensures GateKept(ms + [last], s, j)
  {
    forall k | j <= k < |ms + [last]| ensures (ms + [last])[k].state.ctl.gate == s.ctl.gate {
      if k < |ms| { assert (ms + [last])[k] == ms[k]; }
    }
  }

  lemma ApprovedNow(ms: seq<Moment>, last: Moment, s: Sys)
    requires last.step.event.ApproveProof?
    requires Approves(last.state, last.step, last.step.event.session, last.step.event.proof)
    ensures ApprovedSince(ms + [last], s, |ms|, last.step.event.session, last.step.event.proof)
  {
    hide Approves;
    assert (ms + [last])[|ms|] == last;
  }

  lemma StepProofEvidenced(start: Control, ms: seq<Moment>, last: Moment, proof: Id)
    requires forall p <- last.state.ctl.proofs :: ProofEvidenced(start, ms, p, last.state.ctl.proofs[p])
    requires proof in Step(last.state, last.step).ctl.proofs
    ensures ProofEvidenced(start, ms + [last], proof, Step(last.state, last.step).ctl.proofs[proof])
  {
    var s, row := last.state, Step(last.state, last.step).ctl.proofs[proof];
    hide Step, Verifies, VerifiedAt;
    WhoWritesProofs(s, last.step, proof);
    if proof in s.ctl.proofs && s.ctl.proofs[proof] == row {
      assert ProofEvidenced(start, ms, proof, row);
      if i: nat :| VerifiedAt(ms, i, proof, row) { VerifiedLater(ms, last, i, proof, row); }
    } else {
      VerifiedNow(ms, last, proof, row);
    }
  }

  lemma StepApprovalEvidenced(start: Control, ms: seq<Moment>, last: Moment, s: Sys)
    requires ApprovalEvidenced(start, ms, last.state) && s.ctl == Step(last.state, last.step).ctl
    ensures ApprovalEvidenced(start, ms + [last], s)
  {
    hide Step, Approves, ApprovedSince, GateKept;
    WhoWritesGate(last.state, last.step);
    var gate := s.ctl.gate;
    if gate.approvedProof.Some? {
      if gate == last.state.ctl.gate {
        if GateKept(ms, last.state, 0) { KeptLater(ms, last, s, 0); }
        if gate.session.Some? {
          if j: nat :| ApprovedSince(ms, last.state, j, gate.session.value, gate.approvedProof.value) {
            ApprovedLater(ms, last, s, j, gate.session.value, gate.approvedProof.value);
          }
        }
      } else {
        ApprovedNow(ms, last, s);
      }
    }
  }

  /** Every proof and every standing approval is inherited from the start of the history, unchanged,
      or comes from a verification or an approval in it. */
  lemma {:induction false} EverythingIsEvidenced(start: Control, ms: seq<Moment>, s: Sys)
    requires Lineage(start, ms, s)
    ensures forall proof <- s.ctl.proofs :: ProofEvidenced(start, ms, proof, s.ctl.proofs[proof])
    ensures ApprovalEvidenced(start, ms, s)
    decreases |ms|
  {
    hide Step, Lineage, ProofEvidenced, ApprovalEvidenced;
    if ms == [] {
      NothingToEvidence(start, ms, s);
    } else {
      var init, last := ms[..|ms| - 1], ms[|ms| - 1];
      LineageLast(start, ms, s);
      assert ms == init + [last];
      EverythingIsEvidenced(start, init, last.state);
      forall proof <- s.ctl.proofs ensures ProofEvidenced(start, ms, proof, s.ctl.proofs[proof]) {
        StepProofEvidenced(start, init, last, proof);
      }
      StepApprovalEvidenced(start, init, last, s);
    }
  }

  lemma NothingToEvidence(start: Control, ms: seq<Moment>, s: Sys)
    requires Lineage(start, ms, s) && ms == []
    ensures forall proof <- s.ctl.proofs :: ProofEvidenced(start, ms, proof, s.ctl.proofs[proof])
    ensures ApprovalEvidenced(start, ms, s)
  {
    hide Step, VerifiedAt, ApprovedSince;
  }

  /** SHA-256 taken to have no collisions on what recovery compares. */
  ghost predicate CollisionFree(digest: Doc -> Hash) {
    && (forall b, p, b', p' :: digest(OfBusiness(b, p)) == digest(OfBusiness(b', p')) ==> b == b' && p == p')
    && (forall j, r, j', r' :: digest(OfSnapshot(j, r)) == digest(OfSnapshot(j', r')) ==> j == j' && r == r')
  }

  /** What the verification of a proof saw is what a resume sees: the session, the rows, the policy
      and the receipts, all clean and with a live witness each time, at most ninety seconds apart. */
  ghost predicate SawTheSame(m: Moment, s: Sys, t: Timed) {
    && m.step.event.Verify? && t.event.Resume?
    && m.step.event.proof == t.event.proof && m.step.event.session == t.event.session
    && t.at - m.step.at <= 90_000_000
    && Witnessed(m.step.event.env, m.step.at) && Witnessed(t.event.env, t.at)
    && m.state.ctl.gate.mode == Closed && m.state.ctl.gate.session == Some(t.event.session)
    && m.state.ctl.biz == s.ctl.biz && m.state.ctl.policy == s.ctl.policy
    && SeenIn(Receipts(m.state)) == SeenIn(Receipts(s))
    && t.event.session in s.ctl.sessions && Clean(s.ctl, Receipts(s), s.ctl.sessions[t.event.session].createdAt)
  }

  /** The verification `i` and the approval `j` on which the resume `t` in `s` rests. */
  ghost predicate Supported(ms: seq<Moment>, s: Sys, t: Timed, i: nat, j: nat) {
    && i < j < |ms| && SawTheSame(ms[i], s, t)
    && ms[j].step.event.ApproveProof? && ms[j].step.event.proof == t.event.proof
    && Witnessed(ms[j].step.event.env, ms[j].step.at) && ms[j].step.at - ms[i].step.at <= 90_000_000
    && GateKept(ms, s, j + 1)
  }

  lemma VerificationUnchanged(ms: seq<Moment>, s: Sys, t: Timed, i: nat)
    requires CollisionFree(s.ctl.cfg.digest) && Resumes(s, t) && t.event.proof in s.ctl.proofs
    requires VerifiedAt(ms, i, t.event.proof, s.ctl.proofs[t.event.proof]) && ms[i].state.ctl.cfg == s.ctl.cfg
    ensures SawTheSame(ms[i], s, t)
  {
    var s0, e := ms[i].state, t.event;
    ResumeTxMeaning(s.ctl, e.binding, e.env, Receipts(s), e.session, e.proof, t.at);
    hide Resumes, ResumeTx, AuthorityFindings, Witnessed, Clean;
    var report := s.ctl.proofs[e.proof].report;
    assert report.controlFingerprint == s0.ctl.cfg.digest(OfBusiness(s0.ctl.biz, s0.ctl.policy));
    assert report.snapshotHash == s0.ctl.cfg.digest(OfSnapshot(AllJobs(s0.ctl.biz), SeenIn(Receipts(s0))));
  }

  lemma ApprovalNeedsProof(ms: seq<Moment>, s: Sys, j: nat, session: Id, proof: Id)
    requires ApprovedSince(ms, s, j, session, proof)
    ensures j < |ms| && proof in ms[j].state.ctl.proofs && ms[j].step.event.ApproveProof?
    ensures Witnessed(ms[j].step.event.env, ms[j].step.at)
    ensures ms[j].step.at - ms[j].state.ctl.proofs[proof].createdAt <= 90_000_000
    ensures ms[j].step.event.proof == proof && GateKept(ms, s, j + 1)
  {
    hide Witnessed, Clean, Describes;
  }

  lemma VerifiedInPrefix(ms: seq<Moment>, j: nat, i: nat, proof: Id, row: ProofRow)
    requires j <= |ms| && VerifiedAt(ms[..j], i, proof, row)
    ensures VerifiedAt(ms, i, proof, row) && i < j
  {
    hide Verifies;
    assert ms[..j][i] == ms[i];
  }

  lemma ResumeNeedsProof(s: Sys, t: Timed)
    requires Resumes(s, t)
    ensures t.event.Resume? && s.ctl.gate.mode == Closed && s.ctl.gate.session == Some(t.event.session)
    ensures s.ctl.gate.approvedProof == Some(t.event.proof) && t.event.proof in s.ctl.proofs
  {
    var e := t.event;
    ResumeTxMeaning(s.ctl, e.binding, e.env, Receipts(s), e.session, e.proof, t.at);
    hide ResumeTx, Resumes, Witnessed, Clean, Describes;
  }

  /** An opening rests on a verification of the current session, at most ninety seconds old, of
      exactly the business rows, policy and receipts that are there now, and on a later operator
      approval of that very proof with nothing done to the gate since: in every history of a control
      database that started without proofs, through any number of restores. */
  lemma ResumeEvidence(start: Control, ms: seq<Moment>, s: Sys, t: Timed)
    requires Lineage(start, ms, s) && start.proofs == map[] && start.gate.approvedProof == None
    requires CollisionFree(start.cfg.digest) && Resumes(s, t)
    ensures exists i: nat, j: nat :: Supported(ms, s, t, i, j)
  {
    hide Lineage, Resumes, VerifiedAt, ApprovedSince, GateKept, CollisionFree, SawTheSame, Witnessed;
    var e := t.event;
    ResumeNeedsProof(s, t);
    EverythingIsEvidenced(start, ms, s);
    var j: nat :| ApprovedSince(ms, s, j, e.session, e.proof);
    ApprovalNeedsProof(ms, s, j, e.session, e.proof);
    var i := VerificationBefore(start, ms, s, j, e.proof);
    LineagePrefix(start, ms, s, i);
    LineageConfig(start, ms[..i], ms[i].state);
    LineageConfig(start, ms, s);
    VerificationUnchanged(ms, s, t, i);
    assert Supported(ms, s, t, i, j);
  }

  lemma VerifiedWhen(ms: seq<Moment>, i: nat, proof: Id, row: ProofRow)
    requires VerifiedAt(ms, i, proof, row)
    ensures row.createdAt == ms[i].step.at
  {
    hide Witnessed, InSession, Reported;
  }

  /** The proof that was approved at `j` had been verified before, and is still the same. */
  lemma VerificationBefore(start: Control, ms: seq<Moment>, s: Sys, j: nat, proof: Id) returns (i: nat)
    requires Lineage(start, ms, s) && start.proofs == map[] && j < |ms| && proof in ms[j].state.ctl.proofs
    ensures i < j && proof in s.ctl.proofs && VerifiedAt(ms, i, proof, s.ctl.proofs[proof])
    ensures s.ctl.proofs[proof] == ms[j].state.ctl.proofs[proof] && s.ctl.proofs[proof].createdAt == ms[i].step.at
  {
    hide Lineage, VerifiedAt, ApprovalEvidenced;
    LineagePrefix(start, ms, s, j);
    EverythingIsEvidenced(start, ms[..j], ms[j].state);
    var row := ms[j].state.ctl.proofs[proof];
    assert ProofEvidenced(start, ms[..j], proof, row);
    i :| VerifiedAt(ms[..j], i, proof, row);
    VerifiedInPrefix(ms, j, i, proof, row);
    VerifiedWhen(ms, i, proof, row);
    KeepsProof(start, ms, s, j, proof);
  }

  /** Proofs are append-only. */
  lemma {:induction false} KeepsProof(start: Control, ms: seq<Moment>, s: Sys, j: nat, proof: Id)
    requires Lineage(start, ms, s) && j < |ms| && proof in ms[j].state.ctl.proofs
    ensures proof in s.ctl.proofs && s.ctl.proofs[proof] == ms[j].state.ctl.proofs[proof]
    decreases |ms|
  {
    var init, last := ms[..|ms| - 1], ms[|ms| - 1];
    hide Step;
    if j < |init| {
      assert init[j] == ms[j];
      KeepsProof(start, init, last.state, j, proof);
    }
    StepKeepsProofs(last.state, last.step, proof);
  }

  lemma StepKeepsProofs(s: Sys, t: Timed, proof: Id)
    requires proof in s.ctl.proofs
    ensures proof in Step(s, t).ctl.proofs && Step(s, t).ctl.proofs[proof] == s.ctl.proofs[proof]
  {
    RecoveryStep(s, t);
    hide Step, Inspect, FreshApproval;
  }

  /** Hence a single business row changed since every verification of the proof forces refusal. */
  lemma ChangeForcesRefusal(start: Control, ms: seq<Moment>, s: Sys, t: Timed)
    requires Lineage(start, ms, s) && start.proofs == map[] && start.gate.approvedProof == None
    requires CollisionFree(start.cfg.digest) && t.event.Resume?
    requires forall m <- ms | m.step.event.Verify? && m.step.event.proof == t.event.proof :: m.state.ctl.biz != s.ctl.biz
    ensures Step(s, t).ctl == s.ctl
  {
    if Resumes(s, t) {
      ResumeEvidence(start, ms, s, t);
      assert false;
    }
    RefusedResume(s, t);
  }

  lemma RefusedResume(s: Sys, t: Timed)
    requires t.event.Resume? && !Resumes(s, t)
    ensures Step(s, t).ctl == s.ctl
  {
    RecoveryStep(s, t);
    hide Step, ResumeTx;
  }

  /** The case that the gate is there for: a run, its control database put back to an earlier point,
      and a recovery after that.  The evidence of an opening may lie on either side of the restore. */
  lemma RecoveryEvidence(cfg: Config, policy: Hash, start: Time, es: seq<Timed>, point: nat, recovery: seq<Timed>, t: Timed)
    requires point <= |es| && CollisionFree(cfg.digest)
    requires Resumes(Run(Restored(From(cfg, policy, start, es[..point]), From(cfg, policy, start, es)), recovery), t)
    ensures var s := Run(Restored(From(cfg, policy, start, es[..point]), From(cfg, policy, start, es)), recovery);
      var ms := RestoredMoments(cfg, policy, start, es, point, recovery);
      && (exists i: nat, j: nat :: Supported(ms, s, t, i, j))
      && s.ctl.gate.epoch == Closings(ms) && Closings(ms) == Openings(ms) + ClosedCount(s.ctl.gate)
  {
    hide Lineage, Run, From, Restored, Resumes, RestoredMoments, Supported, CollisionFree, Closings, Openings;
    RestoredIsLineage(cfg, policy, start, es, point, recovery);
    var s := Run(Restored(From(cfg, policy, start, es[..point]), From(cfg, policy, start, es)), recovery);
    var ms := RestoredMoments(cfg, policy, start, es, point, recovery);
    ResumeEvidence(NewControl(cfg, policy), ms, s, t);
    GateAlternates(NewControl(cfg, policy), ms, s);
  }
}
