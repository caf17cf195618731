/** What each kind of step may write, so that proofs about steps need not unfold all of them. */
module Steps {
  import opened Schema
  import opened CapacityTx
  import opened ServiceTx
  import opened Receiver
  import opened WorkerTx
  import opened RecoveryTx
  import opened System
  import opened Footprints

  predicate OfService(e: System.Event) { e.Ingest? || e.Link? || e.Propose? || e.Approve? || e.Resolve? }

  predicate OfWorker(e: System.Event) {
    || e.Claim? || e.Misroute? || e.Get? || e.Defer? || e.Prepare? || e.Send? || e.Settle? || e.Crash?
  }

  predicate OfNetwork(e: System.Event) { e.Deliver? || e.Lose? || e.PlanFailures? }

  /** Permits, recovery and deployment: no job changes at all. */
  predicate Aside(e: System.Event) {
    || e.Acquire? || e.Release? || e.Begin? || e.Verify? || e.ApproveProof? || e.Resume? || e.Deploy?
  }

  /** What a settling worker may record. */
  predicate Settles(f: Finish) {
    && f.status in {Succeeded, Retry, Dead, Blocked} && f.uncertain != Some(true)
    && (f.delay.Some? ==> 1 <= f.delay.value)
  }

  lemma SettleIsFinish(s: Sys, token: Id, answer: Answer, jitter: Time) returns (f: Option<Finish>)
    ensures f.Some? ==>
      token in s.workers && Settles(f.value) && DoSettle(s, token, answer, jitter) == Finished(s, token, f.value, jitter)
    ensures f.None? ==> DoSettle(s, token, answer, jitter) == s || DoSettle(s, token, answer, jitter) == WithoutWorker(s, token)
  {
    hide Finished;
    f := None;
    if token in s.workers {
      var w := s.workers[token];
      match w.phase
      case LookedUp(seen) => f := AfterLookup(s.ctl.cfg.digest, w.snapshot, seen);
      case Refusal(reason) => f := AfterRefusal(reason);
      case Posted(mutation) =>
        f := if MaySee(s, token, w, answer) then Some(AfterPost(s.ctl.cfg.digest, mutation, answer)) else None;
      case _ =>
    }
  }

  lemma MisrouteIsFinish(s: Sys, token: Id, misconfigured: bool, jitter: Time) returns (f: Option<Finish>)
    ensures f.Some? ==> token in s.workers && s.workers[token].phase.Claimed? && Settles(f.value)
    ensures f.Some? ==> f.value.status == Blocked && f.value.uncertain == None
    ensures f.Some? ==> f.value.reason in {LegacyRouteRequiresReview, DestinationMisconfigured}
    ensures DoMisroute(s, token, misconfigured, jitter) == if f.Some? then Finished(s, token, f.value, jitter) else s
  {
    hide Finished;
    f := None;
    if token in s.workers && s.workers[token].phase.Claimed? {
      var objection := RouteObjection(s.ctl.cfg, s.ctl.biz, s.workers[token].id, misconfigured);
      if objection.Some? { f := Some(BlockedBy(objection.value)); }
    }
  }

  /** A worker that settles, whatever made it settle. */
  lemma FinishingStep(s: Sys, e: System.Event) returns (f: Option<Finish>)
    requires e.Settle? || e.Misroute?
    ensures f.Some? ==> e.token in s.workers && Settles(f.value) && Act(s, e) == Finished(s, e.token, f.value, e.jitter)
    ensures f.None? ==> Act(s, e) == s || Act(s, e) == WithoutWorker(s, e.token)
  {
    if e.Settle? {
      f := SettleIsFinish(s, e.token, e.answer, e.jitter);
    } else {
      f := MisrouteIsFinish(s, e.token, e.misconfigured, e.jitter);
    }
    hide DoSettle, DoMisroute, Finished;
  }

  /** Steps of a worker that write nothing to the control database. */
  lemma PassiveStep(s: Sys, e: System.Event)
    requires e.Get? || e.Send? || e.Crash?
    ensures Act(s, e).ctl == s.ctl && Act(s, e).ledgers == s.ledgers
  {
  }

  // ----- workers -----

  lemma FinishedFootprint(s: Sys, token: Id, f: Finish, jitter: Time)
    requires token in s.workers
    ensures var ctl' := Finished(s, token, f, jitter).ctl;
      ctl' == s.ctl.(biz := s.ctl.biz.(jobs := ctl'.biz.jobs, exceptions := ctl'.biz.exceptions))
  {
  }

  lemma ClaimFootprint(s: Sys, e: System.Event)
    requires e.Claim?
    ensures var ctl' := Act(s, e).ctl; ctl' == s.ctl.(biz := s.ctl.biz.(jobs := ctl'.biz.jobs))
  {
    hide DoClaim;
    ClaimKeepsRest(s, e.id, e.token, e.lease, e.locked);
  }

  lemma ClaimKeepsRest(s: Sys, id: Id, token: Id, lease: Time, locked: set<Id>)
    ensures var ctl' := DoClaim(s, id, token, lease, locked).ctl; ctl' == s.ctl.(biz := s.ctl.biz.(jobs := ctl'.biz.jobs))
  {
    hide Next;
  }

  lemma PrepareFootprint(s: Sys, e: System.Event)
    requires e.Prepare?
    ensures var ctl' := Act(s, e).ctl; ctl' == s.ctl.(biz := s.ctl.biz.(jobs := ctl'.biz.jobs))
  {
    hide Preparation, MayPrepare;
  }

  lemma DeferFootprint(s: Sys, e: System.Event)
    requires e.Defer?
    ensures var ctl' := Act(s, e).ctl; ctl' == s.ctl.(biz := s.ctl.biz.(jobs := ctl'.biz.jobs))
  {
  }

  /** Workers write jobs and exceptions, nothing else. */
  lemma WorkerFootprint(s: Sys, e: System.Event)
    requires OfWorker(e)
    ensures var ctl' := Act(s, e).ctl;
      ctl' == s.ctl.(biz := s.ctl.biz.(jobs := ctl'.biz.jobs, exceptions := ctl'.biz.exceptions))
  {
    hide Act;
    if e.Settle? || e.Misroute? {
      var f := FinishingStep(s, e);
      if f.Some? { FinishedFootprint(s, e.token, f.value, e.jitter); }
    } else if e.Claim? {
      ClaimFootprint(s, e);
    } else if e.Prepare? {
      PrepareFootprint(s, e);
    } else if e.Defer? {
      DeferFootprint(s, e);
    } else {
      PassiveStep(s, e);
    }
  }

  // ----- permits, recovery, deployment -----

  lemma CapacityKeepsRest(s: Sys, e: System.Event)
    requires e.Acquire? || e.Release?
    ensures Act(s, e) == WithBiz(s, s.ctl.biz.(capacity := Act(s, e).ctl.biz.capacity))
  {
    hide AcquireTx, ReleaseTx;
  }

  lemma RecoveryKeepsRest(s: Sys, e: System.Event)
    requires e.Begin? || e.Verify? || e.ApproveProof? || e.Resume? || e.Deploy?
    ensures Act(s, e) == s.(ctl := Act(s, e).ctl)
    ensures Act(s, e).ctl.cfg == s.ctl.cfg && Act(s, e).ctl.biz == s.ctl.biz
  {
    hide Inspect, SessionOf, FreshApproval;
  }

  lemma AsideKeepsJobs(s: Sys, e: System.Event)
    requires Aside(e)
    ensures Act(s, e) == s.(ctl := Act(s, e).ctl) && Act(s, e).ctl.cfg == s.ctl.cfg
    ensures Act(s, e).ctl.biz == s.ctl.biz.(capacity := Act(s, e).ctl.biz.capacity)
  {
    hide Act;
    if e.Acquire? || e.Release? { CapacityKeepsRest(s, e); } else { RecoveryKeepsRest(s, e); }
  }

  // ----- the network -----

  lemma NetworkKeepsControl(s: Sys, e: System.Event)
    requires OfNetwork(e)
    ensures Act(s, e).ctl == s.ctl && Act(s, e).workers == s.workers
  {
  }

  // ----- governed commands -----

  /** What a governed command may have done. */
  predicate ServiceEffect(s: Sys, e: System.Event, b': Business)
    requires OfService(e)
  {
    var b := s.ctl.biz;
    match e
    case Ingest(_, _, _) =>
      b' == b.(customers := b'.customers, identities := b'.identities, events := b'.events, exceptions := b'.exceptions)
    case Link(_) => b' == b.(identities := b'.identities)
    case Propose(actor, command) =>
      && b' == b.(proposals := b'.proposals, jobs := b'.jobs, routes := b'.routes, exceptions := b'.exceptions)
      && (SameWork(b, b') || (IsOpen(s) && OneProposal(s.ctl.cfg, b, b', command.requestId, s.now)))
    case Approve(actor, proposal, _) =>
      && b' == b.(proposals := b'.proposals, jobs := b'.jobs, exceptions := b'.exceptions)
      && (SameWork(b, b') || (IsOpen(s) && OneApproval(b, b', actor, proposal, s.now)))
    case Resolve(index, _) =>
      && b' == b.(jobs := b'.jobs, exceptions := b'.exceptions)
      && (SameWork(b, b') || (index < |b.exceptions| && b.exceptions[index].subject.OfRow?
                              && OneRequeue(s.ctl.cfg, b, b', b.exceptions[index].subject.id, s.now)))
  }

  function ServiceOutcome(s: Sys, e: System.Event): Business
    requires OfService(e)
  {
    var b := s.ctl.biz;
    match e
    case Ingest(source, event, newId) => After(b, IngestTx(s.ctl.cfg.digest, b, source, event, newId, s.now))
    case Link(link) => After(b, LinkTx(b, link))
    case Propose(actor, command) => After(b, ProposeTx(s.ctl.cfg, s.ctl.policy, IsOpen(s), b, actor, command, s.now))
    case Approve(actor, proposal, expected) =>
      After(b, ApproveTx(s.ctl.policy, IsOpen(s), b, actor, proposal, expected, s.now))
    case Resolve(index, disposition) => After(b, ResolveTx(s.ctl.cfg, b, index, disposition, s.now))
  }

  lemma ServiceActs(s: Sys, e: System.Event)
    requires OfService(e)
    ensures Act(s, e) == WithBiz(s, ServiceOutcome(s, e))
  {
    hide IngestTx, LinkTx, ProposeTx, ApproveTx, ResolveTx, After, IsOpen, WithBiz;
  }

  lemma OutcomeEffect(s: Sys, e: System.Event)
    requires OfService(e)
    ensures ServiceEffect(s, e, ServiceOutcome(s, e))
  {
    hide IngestTx, LinkTx, ProposeTx, ApproveTx, ResolveTx, After, OneProposal, OneApproval, OneRequeue, SameWork;
    var cfg, b := s.ctl.cfg, s.ctl.biz;
    match e
    case Ingest(source, event, newId) => IngestFootprint(cfg.digest, b, source, event, newId, s.now);
    case Link(link) => LinkFootprint(b, link);
    case Propose(actor, command) => ProposeFootprint(cfg, s.ctl.policy, IsOpen(s), b, actor, command, s.now);
    case Approve(actor, proposal, expected) =>
      ApproveFootprint(s.ctl.policy, IsOpen(s), b, actor, proposal, expected, s.now);
    case Resolve(index, disposition) => ResolveFootprint(cfg, b, index, disposition, s.now);
  }

  lemma ServiceStep(s: Sys, e: System.Event)
    requires OfService(e)
    ensures Act(s, e) == WithBiz(s, Act(s, e).ctl.biz) && ServiceEffect(s, e, Act(s, e).ctl.biz)
  {
    hide Act, ServiceOutcome, ServiceEffect;
    ServiceActs(s, e);
    OutcomeEffect(s, e);
  }

  // ----- any step -----

  /** The tables of the control database that a step may have written. */
  lemma StepWrites(s: Sys, e: System.Event)
    ensures var ctl, ctl' := s.ctl, Act(s, e).ctl;
      && ctl'.cfg == ctl.cfg
      && (OfWorker(e) ==> ctl' == ctl.(biz := ctl.biz.(jobs := ctl'.biz.jobs, exceptions := ctl'.biz.exceptions)))
      && (OfService(e) ==> ctl' == ctl.(biz := ctl'.biz) && ServiceEffect(s, e, ctl'.biz))
      && (OfNetwork(e) ==> ctl' == ctl)
      && (Aside(e) ==> ctl'.biz == ctl.biz.(capacity := ctl'.biz.capacity))
  {
    hide Act, ServiceEffect;
    if OfWorker(e) { WorkerFootprint(s, e); }
    else if OfService(e) { ServiceStep(s, e); }
    else if OfNetwork(e) { NetworkKeepsControl(s, e); }
    else { AsideKeepsJobs(s, e); }
  }
}
