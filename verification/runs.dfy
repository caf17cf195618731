/** Whole runs from an empty system: exactly one effect per intent, and no false alarm when the
    control database is compared with the receivers.  No assumption on delays or duplicates. */
module Runs {
  import opened Schema
  import opened CapacityTx
  import opened Receiver
  import opened WorkerTx
  import opened Operations
  import opened System
  import opened Steps
  import opened Intents
  import opened Outbox

  // ----- write-once over a run -----

  lemma DeliverKeepsEffects(s: Sys, post: Post, refusal: Option<int>, receipt: Id, again: bool)
    ensures KeepsEffects(s.ledgers, DoDeliver(s, post, refusal, receipt, again).ledgers)
  {
  }

  lemma PlanKeepsEffects(s: Sys, lane: Lane, key: Id, modes: seq<FailureMode>)
    ensures forall other :: Effects(DoPlan(s, lane, key, modes).ledgers, other) == Effects(s.ledgers, other)
  {
  }

  lemma LeaseKeepsLedgers(s: Sys, e: System.Event)
    requires e.Claim? || e.Defer? || e.Prepare?
    ensures Act(s, e).ledgers == s.ledgers
  {
    hide Next, Preparation, MayPrepare, ClaimTx, DeferTx, PrepareTx;
  }

  /** Only a delivery adds to a ledger. */
  lemma OthersKeepEffects(s: Sys, e: System.Event)
    requires !e.Deliver?
    ensures forall lane :: Effects(Act(s, e).ledgers, lane) == Effects(s.ledgers, lane)
  {
    if e.PlanFailures? {
      hide DoPlan;
      PlanKeepsEffects(s, e.lane, e.key, e.modes);
    } else if e.Lose? {
    } else {
      hide Act;
      if e.Settle? || e.Misroute? { var f := FinishingStep(s, e); }
      else if e.Get? || e.Send? || e.Crash? { PassiveStep(s, e); }
      else if OfWorker(e) { LeaseKeepsLedgers(s, e); }
      else if OfService(e) { ServiceStep(s, e); }
      else { AsideKeepsJobs(s, e); }
    }
  }

  lemma ActKeepsEffects(s: Sys, e: System.Event)
    ensures KeepsEffects(s.ledgers, Act(s, e).ledgers)
  {
    if e.Deliver? {
      DeliverKeepsEffects(s, e.post, e.refusal, e.receipt, e.again);
      hide DoDeliver;
    } else {
      OthersKeepEffects(s, e);
      hide Act;
    }
  }

  lemma {:induction false} RunKeepsEffects(s: Sys, es: seq<Timed>)
    ensures KeepsEffects(s.ledgers, Run(s, es).ledgers)
  {
    if es != [] {
      var init, last := es[..|es| - 1], es[|es| - 1];
      RunKeepsEffects(s, init);
      ActKeepsEffects(Run(s, init).(now := last.at), last.event);
    }
  }

  lemma FinishKeepsIntents(s: Sys, token: Id, f: Finish, jitter: Time)
    requires token in s.workers
    ensures KeepsIntents(s.ctl.biz, Finished(s, token, f, jitter).ctl.biz)
  {
    var b, id := s.ctl.biz, s.workers[token].id;
    if Holds(b, id, token) { JobChangeKeeps(b, id, FinishedJob(b.jobs[id], f, jitter, s.now)); }
  }

  lemma WorkerKeepsIntents(s: Sys, e: System.Event)
    requires OfWorker(e)
    ensures KeepsIntents(s.ctl.biz, Act(s, e).ctl.biz)
  {
    if e.Settle? || e.Misroute? {
      var f := FinishingStep(s, e);
      hide Act;
      if f.Some? { FinishKeepsIntents(s, e.token, f.value, e.jitter); }
    } else if e.Claim? {
      ClaimKeepsIntents(s, e);
    } else if e.Prepare? {
      PrepareKeepsIntents(s, e);
    } else if e.Defer? {
      DeferKeepsIntents(s, e);
    } else {
      PassiveStep(s, e);
      hide Act;
    }
  }

  lemma ClaimKeepsIntents(s: Sys, e: System.Event)
    requires e.Claim?
    ensures KeepsIntents(s.ctl.biz, Act(s, e).ctl.biz)
  {
    var b := s.ctl.biz;
    if e.id in b.jobs { JobChangeKeeps(b, e.id, ClaimTx(b, e.id, e.token, e.lease, s.now).jobs[e.id]); }
  }

  lemma PrepareKeepsIntents(s: Sys, e: System.Event)
    requires e.Prepare?
    ensures KeepsIntents(s.ctl.biz, Act(s, e).ctl.biz)
  {
    var b := s.ctl.biz;
    if e.token in s.workers && Preparation(s.ctl.policy, IsOpen(s), b, s.workers[e.token].id, e.token, s.now).Authorized? {
      var id := s.workers[e.token].id;
      JobChangeKeeps(b, id, PrepareTx(s.ctl.policy, IsOpen(s), b, id, e.token, s.now).jobs[id]);
    }
  }

  lemma DeferKeepsIntents(s: Sys, e: System.Event)
    requires e.Defer?
    ensures KeepsIntents(s.ctl.biz, Act(s, e).ctl.biz)
  {
    var b := s.ctl.biz;
    if e.token in s.workers && Holds(b, s.workers[e.token].id, e.token) {
      var id := s.workers[e.token].id;
      JobChangeKeeps(b, id, DeferTx(b, id, e.token, false, s.now).jobs[id]);
    }
  }

  lemma ActKeepsIntents(s: Sys, e: System.Event)
    requires Local(s.ctl.cfg, s.ctl.biz)
    ensures KeepsIntents(s.ctl.biz, Act(s, e).ctl.biz)
  {
    hide Act;
    if OfService(e) {
      ServiceKeepsIntents(s, e);
    } else if Aside(e) {
      AsideKeepsJobs(s, e);
    } else if OfWorker(e) {
      WorkerKeepsIntents(s, e);
    } else {
      NetworkKeepsControl(s, e);
    }
  }

  lemma {:induction false} RunKeepsIntents(s: Sys, es: seq<Timed>)
    requires Local(s.ctl.cfg, s.ctl.biz)
    ensures KeepsIntents(s.ctl.biz, Run(s, es).ctl.biz)
  {
    if es != [] {
      var init, last := es[..|es| - 1], es[|es| - 1];
      RunKeepsIntents(s, init);
      RunKeepsLocal(s, init);
      ActKeepsIntents(Run(s, init).(now := last.at), last.event);
    }
  }

  lemma {:induction false} RunKeepsCross(s: Sys, es: seq<Timed>)
    requires Local(s.ctl.cfg, s.ctl.biz) && Cross(s)
    ensures Cross(Run(s, es))
  {
    if es != [] {
      var init, last := es[..|es| - 1], es[|es| - 1];
      RunKeepsCross(s, init);
      RunKeepsLocal(s, init);
      ActKeepsCross(Run(s, init).(now := last.at), last.event);
    }
  }

  // ----- alarms that never go off, and bodies -----

  predicate Alarm(reason: Reason) { reason in {RemoteIdentityConflict, MutationChanged} }

  /** No job has recorded an identity conflict or a changed mutation, and no worker is about to. */
  ghost predicate Unalarmed(s: Sys) {
    && (forall id <- s.ctl.biz.jobs :: s.ctl.biz.jobs[id].reason.Some? ==> !Alarm(s.ctl.biz.jobs[id].reason.value))
    && (forall token <- s.workers :: s.workers[token].phase.Refusal? ==> !Alarm(s.workers[token].phase.reason))
  }

  ghost predicate BodiesAgree(s: Sys) {
    forall lane, key | key in Effects(s.ledgers, lane) ::
      key in s.ctl.biz.jobs && s.ctl.biz.jobs[key].mutation == Some(Effects(s.ledgers, lane)[key].body)
  }

  lemma FinishedUnalarmed(s: Sys, token: Id, f: Finish, jitter: Time)
    requires Unalarmed(s) && token in s.workers && !Alarm(f.reason)
    ensures Unalarmed(Finished(s, token, f, jitter))
  {
    hide Backoff, CategoryOf;
    var b, id := s.ctl.biz, s.workers[token].id;
    if Holds(b, id, token) {
      var job := FinishedJob(b.jobs[id], f, jitter, s.now);
      assert job.reason.Some? && !Alarm(job.reason.value);
      hide FinishedJob;
      assert Finished(s, token, f, jitter).ctl.biz.jobs == b.jobs[id := job];
    } else {
      assert Finished(s, token, f, jitter).ctl.biz == b;
    }
  }

  lemma SettleUnalarmed(s: Sys, token: Id, answer: Answer, jitter: Time)
    requires Cross(s) && Unalarmed(s)
    ensures Unalarmed(DoSettle(s, token, answer, jitter))
  {
    if token in s.workers {
      var w := s.workers[token];
      match w.phase
      case LookedUp(seen) =>
        LookupVerdict(s, token);
        var f := AfterLookup(s.ctl.cfg.digest, w.snapshot, seen);
        if f.Some? { FinishedUnalarmed(s, token, f.value, jitter); }
      case Refusal(reason) =>
        var f := AfterRefusal(reason);
        if f.Some? { FinishedUnalarmed(s, token, f.value, jitter); }
      case Posted(mutation) =>
        if MaySee(s, token, w, answer) {
          PostVerdict(s, token, answer);
          FinishedUnalarmed(s, token, AfterPost(s.ctl.cfg.digest, mutation, answer), jitter);
        }
      case _ =>
    }
  }

  lemma PrepareUnalarmed(s: Sys, token: Id)
    requires Local(s.ctl.cfg, s.ctl.biz) && Unalarmed(s)
    ensures Unalarmed(DoPrepare(s, token))
  {
    if token in s.workers && MayPrepare(s, s.workers[token]) {
      RetryRendersTheSame(s.ctl.cfg, s.ctl.policy, IsOpen(s), s.ctl.biz, s.workers[token].id, token, s.now);
    }
  }

  lemma ServiceUnalarmed(s: Sys, e: System.Event)
    requires Local(s.ctl.cfg, s.ctl.biz) && Unalarmed(s) && OfService(e)
    ensures Unalarmed(Act(s, e))
  {
    hide Act, Local;
    ServiceKeepsIntents(s, e);
    ServiceKeepsReasons(s, e);
  }

  lemma ServiceKeepsReasons(s: Sys, e: System.Event)
    requires OfService(e)
    ensures forall id <- Act(s, e).ctl.biz.jobs ::
      Act(s, e).ctl.biz.jobs[id].reason == (if id in s.ctl.biz.jobs then s.ctl.biz.jobs[id].reason else None)
  {
    hide Act;
    ServiceStep(s, e);
  }

  lemma GetUnalarmed(s: Sys, token: Id, front: Option<Answer>)
    requires Unalarmed(s)
    ensures Unalarmed(DoGet(s, token, front))
  {
  }

  lemma SendUnalarmed(s: Sys, token: Id)
    requires Unalarmed(s)
    ensures Unalarmed(DoSend(s, token))
  {
  }

  lemma ClaimUnalarmed(s: Sys, id: Id, token: Id, lease: Time, locked: set<Id>)
    requires Unalarmed(s)
    ensures Unalarmed(DoClaim(s, id, token, lease, locked))
  {
  }

  lemma DeferUnalarmed(s: Sys, token: Id)
    requires Unalarmed(s)
    ensures Unalarmed(DoDefer(s, token))
  {
  }

  lemma MisrouteUnalarmed(s: Sys, token: Id, misconfigured: bool, jitter: Time)
    requires Unalarmed(s)
    ensures Unalarmed(DoMisroute(s, token, misconfigured, jitter))
  {
    var f := MisrouteIsFinish(s, token, misconfigured, jitter);
    hide DoMisroute;
    if f.Some? { FinishedUnalarmed(s, token, f.value, jitter); }
  }

  /** The steps at which a worker decides. */
  lemma DecisionUnalarmed(s: Sys, e: System.Event)
    requires Local(s.ctl.cfg, s.ctl.biz) && Cross(s) && Unalarmed(s) && (e.Settle? || e.Prepare? || e.Misroute?)
    ensures Unalarmed(Act(s, e))
  {
    hide DoPrepare, DoSettle, DoMisroute, Cross, Local, Unalarmed;
    match e
    case Settle(token, answer, jitter) => SettleUnalarmed(s, token, answer, jitter);
    case Prepare(token) => PrepareUnalarmed(s, token);
    case Misroute(token, misconfigured, jitter) => MisrouteUnalarmed(s, token, misconfigured, jitter);
  }

  lemma ProgressUnalarmed(s: Sys, e: System.Event)
    requires Unalarmed(s) && (e.Claim? || e.Get? || e.Send? || e.Defer? || e.Crash?)
    ensures Unalarmed(Act(s, e))
  {
    hide DoClaim, DoGet, DoSend, DoDefer, WithoutWorker, Unalarmed;
    match e
    case Get(token, front) => GetUnalarmed(s, token, front);
    case Send(token) => SendUnalarmed(s, token);
    case Claim(id, token, lease, locked) => ClaimUnalarmed(s, id, token, lease, locked);
    case Defer(token) => DeferUnalarmed(s, token);
    case Crash(token) => CrashUnalarmed(s, token);
  }

  lemma WorkerUnalarmed(s: Sys, e: System.Event)
    requires Local(s.ctl.cfg, s.ctl.biz) && Cross(s) && Unalarmed(s) && OfWorker(e)
    ensures Unalarmed(Act(s, e))
  {
    hide Act, Cross, Local, Unalarmed;
    if e.Settle? || e.Prepare? || e.Misroute? { DecisionUnalarmed(s, e); } else { ProgressUnalarmed(s, e); }
  }

  lemma CrashUnalarmed(s: Sys, token: Id)
    requires Unalarmed(s)
    ensures Unalarmed(WithoutWorker(s, token))
  {
  }

  lemma ActUnalarmed(s: Sys, e: System.Event)
    requires Local(s.ctl.cfg, s.ctl.biz) && Cross(s) && Unalarmed(s)
    ensures Unalarmed(Act(s, e))
  {
    hide Act, Local, Cross;
    if OfService(e) {
      ServiceUnalarmed(s, e);
    } else if Aside(e) {
      AsideKeepsJobs(s, e);
    } else if OfWorker(e) {
      WorkerUnalarmed(s, e);
    } else {
      NetworkKeepsControl(s, e);
    }
  }

  lemma DeliverBodies(s: Sys, post: Post, refusal: Option<int>, receipt: Id, again: bool)
    requires Cross(s) && BodiesAgree(s)
    ensures BodiesAgree(DoDeliver(s, post, refusal, receipt, again))
  {
    var s' := DoDeliver(s, post, refusal, receipt, again);
    if post in s.posts {
      assert PostOk(s.ctl.biz, post);
      DeliverKeepsEffects(s, post, refusal, receipt, again);
      forall lane, key | key in Effects(s'.ledgers, lane) && key !in Effects(s.ledgers, lane)
        ensures lane == post.lane && key == post.key && Effects(s'.ledgers, lane)[key].body == post.body {}
    }
  }

  lemma ActKeepsBodies(s: Sys, e: System.Event)
    requires Local(s.ctl.cfg, s.ctl.biz) && Cross(s) && BodiesAgree(s)
    ensures BodiesAgree(Act(s, e))
  {
    if e.Deliver? {
      hide DoDeliver, Cross, Local, BodiesAgree;
      DeliverBodies(s, e.post, e.refusal, e.receipt, e.again);
    } else {
      hide Act, Cross, Local;
      ActKeepsIntents(s, e);
      OthersKeepEffects(s, e);
    }
  }

  // ----- from the empty system -----

  ghost predicate Sound(s: Sys) {
    Local(s.ctl.cfg, s.ctl.biz) && Cross(s) && Unalarmed(s) && BodiesAgree(s)
  }

  lemma {:induction false} RunSound(s: Sys, es: seq<Timed>)
    requires Sound(s)
    ensures Sound(Run(s, es))
  {
    if es != [] {
      var init, last := es[..|es| - 1], es[|es| - 1];
      RunSound(s, init);
      hide Act, Local, Cross, Unalarmed, BodiesAgree;
      var now := Run(s, init).(now := last.at);
      ActKeepsLocal(now, last.event);
      ActKeepsCross(now, last.event);
      ActUnalarmed(now, last.event);
      ActKeepsBodies(now, last.event);
    }
  }

  lemma FromSound(cfg: Config, policy: Hash, start: Time, es: seq<Timed>)
    ensures Sound(From(cfg, policy, start, es)) && From(cfg, policy, start, es).ctl.cfg == cfg
  {
    RunSound(Init(cfg, policy, start), es);
    RunKeepsLocal(Init(cfg, policy, start), es);
  }

  ghost function From(cfg: Config, policy: Hash, start: Time, es: seq<Timed>): Sys {
    Run(Init(cfg, policy, start), es)
  }

  /** One effect per intent, however late or often POSTs arrive: a key has an effect in at most
      one receiver, its body is the intent of that job, every POST in flight for the key carries
      that intent, and neither side ever sees a conflicting identity. */
  lemma OneEffectPerIntent(cfg: Config, policy: Hash, start: Time, es: seq<Timed>)
    ensures var s := From(cfg, policy, start, es);
      && (forall lane, key | key in Effects(s.ledgers, lane) ::
            && key in s.ctl.biz.jobs && lane == LaneOf(s.ctl.biz, key)
            && s.ctl.biz.jobs[key].mutation == Some(Effects(s.ledgers, lane)[key].body))
      && (forall p <- s.posts :: p.key in s.ctl.biz.jobs && p.lane == LaneOf(s.ctl.biz, p.key)
                                 && s.ctl.biz.jobs[p.key].mutation == Some(p.body))
      && (forall p, receipt, now | p in s.posts ::
            MutateTx(cfg.digest, LedgerAt(s, p.lane), p.key, p.body, receipt, now).1 != Status(409, None))
      && (forall id <- s.ctl.biz.jobs :: s.ctl.biz.jobs[id].reason !in {Some(RemoteIdentityConflict), Some(MutationChanged)})
  {
    var s := From(cfg, policy, start, es);
    FromSound(cfg, policy, start, es);
    forall lane, key | key in Effects(s.ledgers, lane) ensures lane == LaneOf(s.ctl.biz, key) {
      assert EffectOk(cfg.digest, s.ctl.biz, s.ledgers, lane, key);
    }
    forall p | p in s.posts ensures PostOk(s.ctl.biz, p) {}
    forall p, receipt, now | p in s.posts
      ensures MutateTx(cfg.digest, LedgerAt(s, p.lane), p.key, p.body, receipt, now).1 != Status(409, None)
    {
      MutateAnswers(cfg.digest, s.ctl.biz, s.ledgers, p, receipt, now);
    }
  }

  /** What has happened stays: later steps change no effect, no intent and no lane. */
  lemma HistoryIsKept(cfg: Config, policy: Hash, start: Time, es: seq<Timed>, more: seq<Timed>)
    ensures var s, s' := From(cfg, policy, start, es), From(cfg, policy, start, es + more);
      KeepsEffects(s.ledgers, s'.ledgers) && KeepsIntents(s.ctl.biz, s'.ctl.biz)
  {
    FromSound(cfg, policy, start, es);
    RunConcat(Init(cfg, policy, start), es, more);
    RunKeepsEffects(From(cfg, policy, start, es), more);
    RunKeepsIntents(From(cfg, policy, start, es), more);
  }

  // ----- comparing with the receivers -----

  ghost function LaneFindings(b: Business, s: Sys, lane: Lane): seq<Finding> {
    FindingsOf(s.ctl.cfg.digest, LaneJobs(b, lane), Effects(s.ledgers, lane))
  }

  lemma CrossFaults(s: Sys, lane: Lane, key: Id)
    requires Cross(s)
    ensures var digest, jobs, receipts := s.ctl.cfg.digest, LaneJobs(s.ctl.biz, lane), Effects(s.ledgers, lane);
      && BodyFault(digest, receipts, key) == None && LocalFault(jobs, receipts, key) == None
      && RemoteFault(digest, jobs, receipts, key)
         in {None, Some(RemoteAheadNotReconcilable), Some(TerminalIntentRequiresReview)}
  {
    if key in Effects(s.ledgers, lane) {
      assert EffectOk(s.ctl.cfg.digest, s.ctl.biz, s.ledgers, lane, key);
    }
    if key in s.ctl.biz.jobs { assert SuccessOk(s.ctl.biz, s.ledgers, key); }
  }

  /** Without a restore, none of the five findings that would mean lost or forged history. */
  lemma NoFalseAlarms(cfg: Config, policy: Hash, start: Time, es: seq<Timed>, lane: Lane, finding: Finding)
    requires var s := From(cfg, policy, start, es); finding in LaneFindings(s.ctl.biz, s, lane)
    ensures finding.kind in {RemoteAheadNotReconcilable, TerminalIntentRequiresReview}
  {
    hide Run, Cross, FindingsOf, LaneJobs;
    var s := From(cfg, policy, start, es);
    FromSound(cfg, policy, start, es);
    CrossFaults(s, lane, finding.key);
    FindingMeaning(s.ctl.cfg.digest, LaneJobs(s.ctl.biz, lane), Effects(s.ledgers, lane), finding);
  }

  /** The local half of the comparison survives a later ledger. */
  lemma LaterLedgerFaults(past: Sys, l: Ledgers, lane: Lane, key: Id)
    requires Cross(past) && KeepsEffects(past.ledgers, l)
    ensures LocalFault(LaneJobs(past.ctl.biz, lane), Effects(l, lane), key) == None
  {
    if key in past.ctl.biz.jobs { assert SuccessOk(past.ctl.biz, past.ledgers, key); }
  }

  /** Rolling back only the control database, to any earlier point of the run, never makes an
      acknowledged receipt go missing or change, and never spoils a receipt's own hash. */
  lemma RollbackKeepsReceipts(cfg: Config, policy: Hash, start: Time, es: seq<Timed>, point: nat, lane: Lane,
                              finding: Finding)
    requires point <= |es|
    requires var s := From(cfg, policy, start, es);
      finding in LaneFindings(From(cfg, policy, start, es[..point]).ctl.biz, s, lane)
    ensures finding.kind !in {AcknowledgedReceiptMissing, ReceiptIdentityChanged, ReceiptBodyHashConflict}
  {
    hide Run, Cross, FindingsOf, LaneJobs;
    var init := Init(cfg, policy, start);
    var past, s := Run(init, es[..point]), Run(init, es);
    FromSound(cfg, policy, start, es[..point]);
    FromSound(cfg, policy, start, es);
    assert es == es[..point] + es[point..];
    RunConcat(init, es[..point], es[point..]);
    RunKeepsEffects(past, es[point..]);
    LaterLedgerFaults(past, s.ledgers, lane, finding.key);
    CrossFaults(s, lane, finding.key);
    FindingMeaning(s.ctl.cfg.digest, LaneJobs(past.ctl.biz, lane), Effects(s.ledgers, lane), finding);
  }
}
