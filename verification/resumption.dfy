/** Recovery: what a successful resume establishes after the control database was rolled back and
    the receivers were not, and which authority every later dispatch then rests on. */
module Resumption {
  import opened Schema
  import opened Policy
  import opened ServiceTx
  import opened CapacityTx
  import opened Receiver
  import opened WorkerTx
  import opened Operations
  import opened RecoveryTx
  import opened System
  import opened Steps
  import opened Intents
  import opened Outbox
  import opened Runs

  /** The control database of an earlier moment beside the receivers of now, with every process
      stopped and nothing in flight. */
  function Restored(past: Sys, present: Sys): Sys {
    present.(ctl := past.ctl, posts := {}, replies := {}, workers := map[])
  }

  predicate Quiescent(s: Sys) { s.posts == {} && s.replies == {} && s.workers == map[] }

  predicate Resumes(s: Sys, t: Timed) {
    && t.event.Resume?
    && ResumeTx(s.ctl, t.event.binding, t.event.env, Receipts(s), t.event.session, t.event.proof, t.at).Some?
  }

  // ----- every effect is in a lane that the configuration knows -----

  ghost predicate Scoped(s: Sys) {
    && (forall lane, key | key in Effects(s.ledgers, lane) :: lane in LanesOf(s.ctl.cfg))
    && (forall p <- s.posts :: p.lane in LanesOf(s.ctl.cfg))
  }

  lemma SoundScoped(s: Sys)
    requires Local(s.ctl.cfg, s.ctl.biz) && Cross(s)
    ensures Scoped(s)
  {
    forall lane, key | key in Effects(s.ledgers, lane) ensures lane in LanesOf(s.ctl.cfg) {
      assert EffectOk(s.ctl.cfg.digest, s.ctl.biz, s.ledgers, lane, key);
    }
    forall p | p in s.posts ensures p.lane in LanesOf(s.ctl.cfg) { assert PostOk(s.ctl.biz, p); }
  }

  lemma DeliverKeepsScope(s: Sys, post: Post, refusal: Option<int>, receipt: Id, again: bool)
    requires Scoped(s)
    ensures Scoped(DoDeliver(s, post, refusal, receipt, again))
  {
    var s' := DoDeliver(s, post, refusal, receipt, again);
    if post in s.posts {
      assert forall lane | lane != post.lane :: Effects(s'.ledgers, lane) == Effects(s.ledgers, lane);
    }
  }

  lemma NetworkKeepsScope(s: Sys, e: System.Event)
    requires Scoped(s) && OfNetwork(e)
    ensures Scoped(Act(s, e))
  {
    hide DoDeliver, DoPlan;
    if e.PlanFailures? {
      PlanKeepsEffects(s, e.lane, e.key, e.modes);
      PlanKeepsPosts(s, e.lane, e.key, e.modes);
    } else if e.Deliver? {
      DeliverKeepsScope(s, e.post, e.refusal, e.receipt, e.again);
    }
  }

  lemma PlanKeepsPosts(s: Sys, lane: Lane, key: Id, modes: seq<FailureMode>)
    ensures var s' := DoPlan(s, lane, key, modes); s'.posts == s.posts && s'.ctl == s.ctl
  {
  }

  lemma SendScope(s: Sys, token: Id)
    ensures var s' := DoSend(s, token);
      s'.ledgers == s.ledgers && forall p <- s'.posts :: p in s.posts || exists id :: p.lane == LaneOf(s.ctl.biz, id)
  {
  }

  lemma LeaseKeepsPosts(s: Sys, e: System.Event)
    requires e.Claim? || e.Get? || e.Defer? || e.Prepare? || e.Crash?
    ensures Act(s, e).ledgers == s.ledgers && Act(s, e).posts == s.posts
  {
    hide Next, Preparation, MayPrepare, ClaimTx, DeferTx, PrepareTx;
  }

  lemma OthersKeepScope(s: Sys, e: System.Event)
    requires !OfNetwork(e)
    ensures Act(s, e).ledgers == s.ledgers
    ensures forall p <- Act(s, e).posts :: p in s.posts || exists id :: p.lane == LaneOf(s.ctl.biz, id)
  {
    if e.Send? {
      hide DoSend;
      SendScope(s, e.token);
    } else {
      hide Act;
      if e.Settle? || e.Misroute? { var f := FinishingStep(s, e); }
      else if OfWorker(e) { LeaseKeepsPosts(s, e); }
      else if OfService(e) { ServiceStep(s, e); }
      else { AsideKeepsJobs(s, e); }
    }
  }

  lemma ActKeepsScope(s: Sys, e: System.Event)
    requires Local(s.ctl.cfg, s.ctl.biz) && Scoped(s)
    ensures Scoped(Act(s, e))
  {
    hide Act;
    ActKeepsLocal(s, e);
    if OfNetwork(e) { NetworkKeepsScope(s, e); } else { OthersKeepScope(s, e); }
  }

  lemma {:induction false} RunKeepsScope(s: Sys, es: seq<Timed>)
    requires Local(s.ctl.cfg, s.ctl.biz) && Scoped(s)
    ensures Scoped(Run(s, es))
  {
    if es != [] {
      var init, last := es[..|es| - 1], es[|es| - 1];
      RunKeepsScope(s, init);
      RunKeepsLocal(s, init);
      ActKeepsScope(Run(s, init).(now := last.at), last.event);
    }
  }

  // ----- the recovery transactions as steps -----

  lemma ActBegin(s: Sys, e: System.Event)
    requires e.Begin?
    ensures Act(s, e) == WithControl(s, BeginTx(s.ctl, e.binding, e.session, s.now))
  {
  }

  lemma ActVerify(s: Sys, e: System.Event)
    requires e.Verify?
    ensures Act(s, e) == WithControl(s, VerifyTx(s.ctl, e.binding, e.env, Receipts(s), e.session, e.proof, s.now))
  {
  }

  lemma ActApproveProof(s: Sys, e: System.Event)
    requires e.ApproveProof?
    ensures Act(s, e) == WithControl(s, ApproveProofTx(s.ctl, e.binding, e.env, Receipts(s), e.session, e.proof, s.now))
  {
  }

  lemma ActResume(s: Sys, e: System.Event)
    requires e.Resume?
    ensures Act(s, e) == WithControl(s, ResumeTx(s.ctl, e.binding, e.env, Receipts(s), e.session, e.proof, s.now))
  {
  }

  predicate OfRecovery(e: System.Event) { e.Begin? || e.Verify? || e.ApproveProof? || e.Resume? }

  /** No other step touches the gate, the sessions or the proofs. */
  lemma OthersKeepRecovery(s: Sys, e: System.Event)
    requires !OfRecovery(e)
    ensures var ctl' := Act(s, e).ctl;
      ctl'.gate == s.ctl.gate && ctl'.sessions == s.ctl.sessions && ctl'.proofs == s.ctl.proofs
  {
    if OfWorker(e) { WorkerFootprint(s, e); }
  }

  /** A recovery step, whose transaction sees the clock reading of the event. */
  lemma RecoveryStep(s: Sys, t: Timed)
    ensures var e := t.event; var ctl' := Step(s, t).ctl;
      && (e.Begin? ==> ctl' == WithControl(s, BeginTx(s.ctl, e.binding, e.session, t.at)).ctl)
      && (e.Verify? ==> ctl' == WithControl(s, VerifyTx(s.ctl, e.binding, e.env, Receipts(s), e.session, e.proof, t.at)).ctl)
      && (e.ApproveProof? ==>
            ctl' == WithControl(s, ApproveProofTx(s.ctl, e.binding, e.env, Receipts(s), e.session, e.proof, t.at)).ctl)
      && (e.Resume? ==> ctl' == WithControl(s, ResumeTx(s.ctl, e.binding, e.env, Receipts(s), e.session, e.proof, t.at)).ctl)
      && (!OfRecovery(e) ==> ctl'.gate == s.ctl.gate && ctl'.sessions == s.ctl.sessions && ctl'.proofs == s.ctl.proofs)
  {
    hide Act, BeginTx, VerifyTx, ApproveProofTx, ResumeTx;
    var s1 := s.(now := t.at);
    assert Receipts(s1) == Receipts(s);
    if t.event.Begin? { ActBegin(s1, t.event); }
    else if t.event.Verify? { ActVerify(s1, t.event); }
    else if t.event.ApproveProof? { ActApproveProof(s1, t.event); }
    else if t.event.Resume? { ActResume(s1, t.event); }
    else { OthersKeepRecovery(s1, t.event); }
  }

  lemma ResumeMeaning(s: Sys, t: Timed)
    requires Resumes(s, t)
    ensures s.ctl.gate.mode == Closed && Step(s, t).ctl.gate.mode == Open
    ensures s.ctl.cfg.destinations == map[]
    ensures Step(s, t) == s.(now := t.at, ctl := Step(s, t).ctl) && Step(s, t).ctl.biz == s.ctl.biz
    ensures Step(s, t).ctl.cfg == s.ctl.cfg
    ensures Witnessed(t.event.env, t.at) && t.event.session in s.ctl.sessions
    ensures Clean(s.ctl, Effects(s.ledgers, Legacy), s.ctl.sessions[t.event.session].createdAt)
  {
    var e := t.event;
    hide Act, ResumeTx, Compare, AuthorityFindings, StandingProof, Clean;
    ActResume(s.(now := t.at), e);
    assert Receipts(s) == Effects(s.ledgers, Legacy);
    ResumeTxMeaning(s.ctl, e.binding, e.env, Receipts(s), e.session, e.proof, t.at);
  }

  lemma ReconciledEffect(s: Sys, lane: Lane, key: Id)
    requires Local(s.ctl.cfg, s.ctl.biz) && Scoped(s) && s.ctl.cfg.destinations == map[] && key in Effects(s.ledgers, lane)
    requires Reconciled(s.ctl.cfg.digest, AllJobs(s.ctl.biz), Effects(s.ledgers, Legacy), key)
    ensures lane == Legacy && EffectOk(s.ctl.cfg.digest, s.ctl.biz, s.ledgers, lane, key)
  {
  }

  lemma ReconciledSuccess(s: Sys, id: Id)
    requires Local(s.ctl.cfg, s.ctl.biz) && s.ctl.cfg.destinations == map[] && id in s.ctl.biz.jobs
    requires Reconciled(s.ctl.cfg.digest, AllJobs(s.ctl.biz), Effects(s.ledgers, Legacy), id)
    ensures SuccessOk(s.ctl.biz, s.ledgers, id)
  {
  }

  // ----- resume safety -----

  /** A finding-free comparison in a quiescent system is the protocol's invariant. */
  lemma SafeComparisonIsCross(s: Sys)
    requires Local(s.ctl.cfg, s.ctl.biz) && Scoped(s) && Quiescent(s) && s.ctl.cfg.destinations == map[]
    requires Compare(s.ctl.cfg.digest, AllJobs(s.ctl.biz), Effects(s.ledgers, Legacy)).safe
    ensures Cross(s)
    ensures forall lane, key | key in Effects(s.ledgers, lane) :: lane == Legacy
  {
    hide Compare, Reconciled, Local, Scoped, EffectOk, SuccessOk;
    SafeMeaning(s.ctl.cfg.digest, AllJobs(s.ctl.biz), Effects(s.ledgers, Legacy));
    forall lane, key | key in Effects(s.ledgers, lane)
      ensures lane == Legacy && EffectOk(s.ctl.cfg.digest, s.ctl.biz, s.ledgers, lane, key)
    {
      ReconciledEffect(s, lane, key);
    }
    forall id <- s.ctl.biz.jobs ensures SuccessOk(s.ctl.biz, s.ledgers, id) { ReconciledSuccess(s, id); }
  }

  lemma RestoredKeeps(past: Sys, present: Sys)
    requires Local(past.ctl.cfg, past.ctl.biz) && Local(present.ctl.cfg, present.ctl.biz) && Cross(present)
    requires past.ctl.cfg == present.ctl.cfg
    ensures var r := Restored(past, present); Local(r.ctl.cfg, r.ctl.biz) && Scoped(r)
  {
    SoundScoped(present);
  }

  lemma ScopedControl(s: Sys, now: Time, ctl: Control)
    requires Scoped(s) && ctl.cfg == s.ctl.cfg
    ensures Scoped(s.(now := now, ctl := ctl))
  {
  }

  lemma ResumedIsCross(s: Sys, t: Timed)
    requires Local(s.ctl.cfg, s.ctl.biz) && Scoped(s) && Quiescent(s) && Resumes(s, t)
    ensures var s' := Step(s, t);
      && Local(s'.ctl.cfg, s'.ctl.biz) && Cross(s')
      && (forall key :: Reconciled(s'.ctl.cfg.digest, AllJobs(s'.ctl.biz), Effects(s'.ledgers, Legacy), key))
      && (forall lane, key | key in Effects(s'.ledgers, lane) :: lane == Legacy)
  {
    ResumeMeaning(s, t);
    hide Step, Compare, Resumes, Reconciled, Local, Cross, AllJobs, Act;
    hide AuthorityFindings, Scoped, SessionOf, SortedKeys, AuthorityFrom, FreshConsents;
    ScopedControl(s, t.at, Step(s, t).ctl);
    SafeMeaning(s.ctl.cfg.digest, AllJobs(s.ctl.biz), Effects(s.ledgers, Legacy));
    SafeComparisonIsCross(Step(s, t));
  }

  /** Resume safety: take any earlier control state of a run beside the receivers of its end, let
      anything happen after that, and resume while nothing is in flight.  If the resume succeeds,
      the two sides agree about every key at that moment, and from then on the protocol's
      invariant holds again for good and no effect ever changes. */
  lemma ResumeSafety(cfg: Config, policy: Hash, start: Time, es: seq<Timed>, point: nat,
                     recovery: seq<Timed>, t: Timed, later: seq<Timed>)
    requires point <= |es|
    requires var s := Run(Restored(From(cfg, policy, start, es[..point]), From(cfg, policy, start, es)), recovery);
      Quiescent(s) && Resumes(s, t)
    ensures var s := Run(Restored(From(cfg, policy, start, es[..point]), From(cfg, policy, start, es)), recovery);
      var s' := Step(s, t);
      && (forall key :: Reconciled(cfg.digest, AllJobs(s'.ctl.biz), Effects(s'.ledgers, Legacy), key))
      && (forall lane, key | key in Effects(s'.ledgers, lane) :: lane == Legacy)
      && Cross(s') && Cross(Run(s', later)) && KeepsEffects(s'.ledgers, Run(s', later).ledgers)
      && KeepsIntents(s'.ctl.biz, Run(s', later).ctl.biz)
  {
    hide Run, Step, Cross, Local, Scoped, AllJobs, KeepsEffects, KeepsIntents, Reconciled, Resumes;
    var past, present := From(cfg, policy, start, es[..point]), From(cfg, policy, start, es);
    FromSound(cfg, policy, start, es[..point]);
    FromSound(cfg, policy, start, es);
    var r := Restored(past, present);
    RestoredKeeps(past, present);
    RunKeepsScope(r, recovery);
    RunKeepsLocal(r, recovery);
    var s := Run(r, recovery);
    ResumedIsCross(s, t);
    var s' := Step(s, t);
    StepKeepsConfig(s, t);
    RunKeepsCross(s', later);
    RunKeepsEffects(s', later);
    RunKeepsIntents(s', later);
  }

  lemma StepKeepsConfig(s: Sys, t: Timed)
    requires Local(s.ctl.cfg, s.ctl.biz)
    ensures Step(s, t).ctl.cfg == s.ctl.cfg
  {
    ActKeepsLocal(s.(now := t.at), t.event);
  }

  /** After a successful resume, as in a run without a restore, no comparison ever reports a missing
      intent, an identity or body conflict, or a missing or changed receipt again. */
  lemma NoFalseAlarmsAfterResume(cfg: Config, policy: Hash, start: Time, es: seq<Timed>, point: nat, recovery: seq<Timed>,
                                 t: Timed, later: seq<Timed>, lane: Lane, finding: Finding)
    requires point <= |es|
    requires var s := Run(Restored(From(cfg, policy, start, es[..point]), From(cfg, policy, start, es)), recovery);
      Quiescent(s) && Resumes(s, t)
      && finding in LaneFindings(Run(Step(s, t), later).ctl.biz, Run(Step(s, t), later), lane)
    ensures finding.kind in {RemoteAheadNotReconcilable, TerminalIntentRequiresReview}
  {
    hide Run, From, Restored, Step, Cross, Quiescent, Resumes, LaneJobs, FindingsOf;
    ResumeSafety(cfg, policy, start, es, point, recovery, t, later);
    var s' := Run(Step(Run(Restored(From(cfg, policy, start, es[..point]), From(cfg, policy, start, es)), recovery), t), later);
    CrossFaults(s', lane, finding.key);
    FindingMeaning(s'.ctl.cfg.digest, LaneJobs(s'.ctl.biz, lane), Effects(s'.ledgers, lane), finding);
  }
}
