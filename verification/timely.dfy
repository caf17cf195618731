/** What the `uncertain` column is worth when the network is timely: every POST is delivered at
    most once, is sent while its lease is held, and has been committed or lost by the time the
    lease's holder settles or the lease is reclaimed.  Nothing outside this file assumes it. */
module Timeliness {
  import opened Schema
  import opened CapacityTx
  import opened Receiver
  import opened WorkerTx
  import opened Operations
  import opened System
  import opened Steps
  import opened Intents
  import opened Outbox
  import opened Runs

  // ----- the environment assumption -----

  predicate TimelyStep(s: Sys, e: System.Event) {
    match e
    case Deliver(post, _, _, again) => !again
    case Send(token) => token in s.workers ==> Holds(s.ctl.biz, s.workers[token].id, token)
    case Settle(token, _, _) => forall p <- s.posts :: p.token != token
    case Claim(id, _, _, _) => id in s.ctl.biz.jobs ==> forall p <- s.posts :: s.ctl.biz.jobs[id].leaseToken != Some(p.token)
    case _ => true
  }

  ghost predicate Timely(s: Sys, es: seq<Timed>) {
    forall i :: 0 <= i < |es| ==> TimelyStep(Run(s, es[..i]), es[i].event)
  }

  // ----- the invariant -----

  function EffectsOf(s: Sys, id: Id): map<Id, Effect> { Effects(s.ledgers, LaneOf(s.ctl.biz, id)) }

  predicate Accounted(job: JobRow) { job.status == Succeeded || job.uncertain }

  /** A worker that has established that there is no effect, and has not sent anything since. */
  predicate Unsent(w: System.Worker) {
    || (w.phase.Claimed? && !w.snapshot.uncertain)
    || (w.phase.LookedUp? && w.phase.answer.Status? && w.phase.answer.code == 404)
    || w.phase.Cleared?
  }

  predicate Sender(s: Sys, post: Post) {
    && post.token in s.used
    && (post.token in s.workers ==> s.workers[post.token].phase.Posted? && s.workers[post.token].id == post.key)
  }

  predicate PostLive(s: Sys, p: Post) {
    && Sender(s, p) && Holds(s.ctl.biz, p.key, p.token) && s.ctl.biz.jobs[p.key].uncertain
    && p.key !in EffectsOf(s, p.key)
  }

  ghost predicate ReplyLive(s: Sys, r: Reply) {
    && Sender(s, r.post)
    && (r.answer.Status? && Holds(s.ctl.biz, r.post.key, r.post.token) ==>
          r.post.key !in EffectsOf(s, r.post.key) && forall p <- s.posts :: p.key != r.post.key)
  }

  predicate WorkerLive(s: Sys, token: Id)
    requires token in s.workers
  {
    var w := s.workers[token];
    && token in s.used
    && (Holds(s.ctl.biz, w.id, token) && Unsent(w) ==> w.id !in EffectsOf(s, w.id))
    && (Holds(s.ctl.biz, w.id, token) && w.phase.Cleared? ==> s.ctl.biz.jobs[w.id].uncertain)
  }

  ghost predicate Tracked(s: Sys) {
    && (forall id <- s.ctl.biz.jobs :: id in EffectsOf(s, id) ==> Accounted(s.ctl.biz.jobs[id]))
    && (forall p <- s.posts :: PostLive(s, p))
    && (forall r <- s.replies :: ReplyLive(s, r))
    && (forall token <- s.workers :: WorkerLive(s, token))
  }

  // ----- elementary changes -----

  /** One job changes while nothing is in flight for it. */
  lemma JobStep(s: Sys, id: Id, job: JobRow)
    requires Tracked(s) && (forall p <- s.posts :: p.key != id)
    requires id in EffectsOf(s, id) ==> Accounted(job)
    requires job.status == Leased && job.leaseToken.Some? ==>
      || job.leaseToken.value !in s.used || (Holds(s.ctl.biz, id, job.leaseToken.value) && job.uncertain)
    ensures Tracked(WithBiz(s, WithJob(s.ctl.biz, id, job)))
  {
    var s' := WithBiz(s, WithJob(s.ctl.biz, id, job));
    forall p <- s'.posts ensures PostLive(s', p) { assert PostLive(s, p); }
    forall r <- s'.replies ensures ReplyLive(s', r) { assert ReplyLive(s, r); }
    forall token <- s'.workers ensures WorkerLive(s', token) { assert WorkerLive(s, token); }
  }

  /** Control changes that leave every job and lane as it was, and may add jobs nobody knows yet. */
  lemma QuietStep(s: Sys, ctl: Control)
    requires Tracked(s) && Cross(s)
    requires forall id <- s.ctl.biz.jobs ::
      && id in ctl.biz.jobs && LaneOf(ctl.biz, id) == LaneOf(s.ctl.biz, id)
      && ctl.biz.jobs[id].status == s.ctl.biz.jobs[id].status && ctl.biz.jobs[id].uncertain == s.ctl.biz.jobs[id].uncertain
      && ctl.biz.jobs[id].leaseToken == s.ctl.biz.jobs[id].leaseToken
    ensures Tracked(s.(ctl := ctl))
  {
    var s' := s.(ctl := ctl);
    forall id <- ctl.biz.jobs ensures id in EffectsOf(s', id) ==> Accounted(ctl.biz.jobs[id]) {
      if id in EffectsOf(s', id) {
        assert EffectOk(s.ctl.cfg.digest, s.ctl.biz, s.ledgers, LaneOf(ctl.biz, id), id);
      }
    }
    forall p <- s'.posts ensures PostLive(s', p) { assert PostLive(s, p); }
    forall r <- s'.replies ensures ReplyLive(s', r) { assert ReplyLive(s, r) && ReplyOk(s.ctl.biz, s.ledgers, r); }
    forall token <- s'.workers ensures WorkerLive(s', token) {
      assert WorkerLive(s, token) && WorkerOk(s.ctl.biz, s.ledgers, s.workers[token]);
    }
  }

  lemma WithoutWorkerStep(s: Sys, token: Id)
    requires Tracked(s)
    ensures Tracked(WithoutWorker(s, token))
  {
    var s' := WithoutWorker(s, token);
    forall p <- s'.posts ensures PostLive(s', p) { assert PostLive(s, p); }
    forall r <- s'.replies ensures ReplyLive(s', r) { assert ReplyLive(s, r); }
    forall other <- s'.workers ensures WorkerLive(s', other) { assert WorkerLive(s, other); }
  }

  /** A worker moves on without having sent anything so far. */
  lemma PhaseStep(s: Sys, token: Id, phase: Phase)
    requires Tracked(s) && token in s.workers && !s.workers[token].phase.Posted?
    requires var w := s.workers[token].(phase := phase);
      Holds(s.ctl.biz, w.id, token) && Unsent(w) ==>
        w.id !in EffectsOf(s, w.id) && (w.phase.Cleared? ==> s.ctl.biz.jobs[w.id].uncertain)
    ensures Tracked(WithPhase(s, token, phase))
  {
    var s' := WithPhase(s, token, phase);
    forall p <- s'.posts ensures PostLive(s', p) { assert PostLive(s, p); }
    forall r <- s'.replies ensures ReplyLive(s', r) { assert ReplyLive(s, r); }
    forall other <- s'.workers ensures WorkerLive(s', other) { assert WorkerLive(s, other) && WorkerLive(s, token); }
  }

  /** Nothing is in flight for a job whose holder has not sent yet. */
  lemma NothingInFlight(s: Sys, token: Id)
    requires Tracked(s) && token in s.workers && Holds(s.ctl.biz, s.workers[token].id, token)
    requires !s.workers[token].phase.Posted? || forall p <- s.posts :: p.token != token
    ensures forall p <- s.posts :: p.key != s.workers[token].id
  {
    forall p | p in s.posts ensures p.key != s.workers[token].id { assert PostLive(s, p); }
  }

  // ----- the steps of a worker -----

  lemma ClaimTracked(s: Sys, id: Id, token: Id, lease: Time, locked: set<Id>)
    requires Tracked(s) && TimelyStep(s, Claim(id, token, lease, locked))
    ensures Tracked(DoClaim(s, id, token, lease, locked))
  {
    if IsOpen(s) && Next(s.ctl.biz, locked, id, s.now) && token !in s.used {
      forall p | p in s.posts ensures p.key != id { assert PostLive(s, p); }
      var job := ClaimTx(s.ctl.biz, id, token, lease, s.now).jobs[id];
      JobStep(s, id, job);
      var mid := WithBiz(s, ClaimTx(s.ctl.biz, id, token, lease, s.now));
      var s' := DoClaim(s, id, token, lease, locked);
      assert s' == mid.(used := mid.used + {token}, workers := mid.workers[token := Worker(id, job, Claimed)]);
      forall p <- s'.posts ensures PostLive(s', p) { assert PostLive(mid, p); }
      forall r <- s'.replies ensures ReplyLive(s', r) { assert ReplyLive(mid, r); }
      forall other <- s'.workers ensures WorkerLive(s', other) {
        if other != token { assert WorkerLive(mid, other); }
      }
    }
  }

  lemma GetTracked(s: Sys, token: Id, front: Option<Answer>)
    requires Tracked(s)
    ensures Tracked(DoGet(s, token, front))
  {
    var s' := DoGet(s, token, front);
    if s' != s { PhaseStep(s, token, s'.workers[token].phase); }
  }

  lemma PrepareTracked(s: Sys, token: Id)
    requires Tracked(s) && Cross(s)
    ensures Tracked(DoPrepare(s, token))
  {
    if token in s.workers && MayPrepare(s, s.workers[token]) {
      var w, b := s.workers[token], s.ctl.biz;
      assert WorkerLive(s, token);
      match Preparation(s.ctl.policy, IsOpen(s), b, w.id, token, s.now)
      case Authorized(mutation) =>
        NothingInFlight(s, token);
        var b' := PrepareTx(s.ctl.policy, IsOpen(s), b, w.id, token, s.now);
        JobStep(s, w.id, b'.jobs[w.id]);
        PhaseStep(WithBiz(s, b'), token, Cleared(mutation));
      case Objected(reason) => PhaseStep(s, token, Refusal(reason));
      case Crashed => WithoutWorkerStep(s, token);
    }
  }

  lemma SendTracked(s: Sys, token: Id)
    requires Tracked(s) && TimelyStep(s, Send(token))
    ensures Tracked(DoSend(s, token))
  {
    if token in s.workers && s.workers[token].phase.Cleared? {
      var w := s.workers[token];
      var s' := DoSend(s, token);
      assert WorkerLive(s, token);
      forall p <- s'.posts ensures PostLive(s', p) {
        if p in s.posts { assert PostLive(s, p); }
      }
      forall r <- s'.replies ensures ReplyLive(s', r) { assert ReplyLive(s, r); }
      forall other <- s'.workers ensures WorkerLive(s', other) { assert WorkerLive(s, other); }
    }
  }

  lemma FinishedTracked(s: Sys, token: Id, f: Finish, jitter: Time)
    requires Tracked(s) && token in s.workers && Settles(f)
    requires !s.workers[token].phase.Posted? || forall p <- s.posts :: p.token != token
    requires var id := s.workers[token].id;
      Holds(s.ctl.biz, id, token) && id in EffectsOf(s, id) ==> f.status == Succeeded || f.uncertain == None
    ensures Tracked(Finished(s, token, f, jitter))
  {
    var b, id := s.ctl.biz, s.workers[token].id;
    if Holds(b, id, token) {
      NothingInFlight(s, token);
      var job := FinishedJob(b.jobs[id], f, jitter, s.now);
      JobStep(s, id, job);
      var mid := WithBiz(s, WithJob(b, id, job));
      var s' := WithBiz(s, FinishTx(b, id, token, f, jitter, s.now));
      hide Tracked, FinishedJob;
      MoreExceptions(mid, s'.ctl.biz.exceptions);
      WithoutWorkerStep(s', token);
    } else {
      WithoutWorkerStep(s, token);
    }
  }

  lemma MoreExceptions(s: Sys, exceptions: seq<ExceptionRow>)
    requires Tracked(s)
    ensures Tracked(WithBiz(s, s.ctl.biz.(exceptions := exceptions)))
  {
    var s' := WithBiz(s, s.ctl.biz.(exceptions := exceptions));
    forall p <- s'.posts ensures PostLive(s', p) { assert PostLive(s, p); }
    forall r <- s'.replies ensures ReplyLive(s', r) { assert ReplyLive(s, r); }
    forall other <- s'.workers ensures WorkerLive(s', other) { assert WorkerLive(s, other); }
  }

  /** The bit is cleared only on an answer that proves there is no effect. */
  lemma PostVerdictTracked(s: Sys, token: Id, answer: Answer)
    requires Tracked(s) && token in s.workers && s.workers[token].phase.Posted?
    requires MaySee(s, token, s.workers[token], answer)
    ensures var id := s.workers[token].id;
      var f := AfterPost(s.ctl.cfg.digest, s.workers[token].phase.mutation, answer);
      Settles(f) && (Holds(s.ctl.biz, id, token) && id in EffectsOf(s, id) ==> f.status == Succeeded || f.uncertain == None)
  {
    if answer.Status? {
      var r :| r in s.replies && r.answer == answer && r.post.token == token && r.post.key == s.workers[token].id;
      assert ReplyLive(s, r);
    }
  }

  lemma SettleTracked(s: Sys, token: Id, answer: Answer, jitter: Time)
    requires Tracked(s) && TimelyStep(s, Settle(token, answer, jitter))
    ensures Tracked(DoSettle(s, token, answer, jitter))
  {
    if token in s.workers {
      var w := s.workers[token];
      match w.phase
      case LookedUp(seen) =>
        var f := AfterLookup(s.ctl.cfg.digest, w.snapshot, seen);
        if f.Some? { FinishedTracked(s, token, f.value, jitter); }
      case Refusal(reason) =>
        var f := AfterRefusal(reason);
        if f.Some? { FinishedTracked(s, token, f.value, jitter); } else { WithoutWorkerStep(s, token); }
      case Posted(mutation) =>
        if MaySee(s, token, w, answer) {
          PostVerdictTracked(s, token, answer);
          FinishedTracked(s, token, AfterPost(s.ctl.cfg.digest, mutation, answer), jitter);
        }
      case _ =>
    }
  }

  lemma DeferTracked(s: Sys, token: Id)
    requires Tracked(s)
    ensures Tracked(DoDefer(s, token))
  {
    if token in s.workers && (s.workers[token].phase.Claimed? || s.workers[token].phase.Cleared?) {
      var id := s.workers[token].id;
      if Holds(s.ctl.biz, id, token) {
        NothingInFlight(s, token);
        JobStep(s, id, DeferTx(s.ctl.biz, id, token, false, s.now).jobs[id]);
        WithoutWorkerStep(WithBiz(s, DeferTx(s.ctl.biz, id, token, false, s.now)), token);
      } else {
        WithoutWorkerStep(s, token);
      }
    }
  }

  // ----- the network -----

  /** A delivery moves one POST from the network into the ledger or into a refusal. */
  lemma DeliverShape(s: Sys, post: Post, refusal: Option<int>, receipt: Id) returns (l: Ledgers, answer: Answer)
    requires Tracked(s) && Cross(s)
    ensures var s' := DoDeliver(s, post, refusal, receipt, false);
      s' == s || (
        && post in s.posts && PostLive(s, post)
        && s' == s.(ledgers := l, posts := s.posts - {post}, replies := s.replies + {Reply(post, answer)})
        && (forall lane, key | (lane, key) != (post.lane, post.key) ::
              key in Effects(l, lane) <==> key in Effects(s.ledgers, lane))
        && (answer.Status? ==> post.key !in Effects(l, post.lane)))
  {
    var s' := DoDeliver(s, post, refusal, receipt, false);
    l, answer := s'.ledgers, Broken;
    if s' != s {
      assert PostLive(s, post) && PostOk(s.ctl.biz, post);
      if refusal.None? {
        MutateAnswers(s.ctl.cfg.digest, s.ctl.biz, s.ledgers, post, receipt, s.now);
        answer := MutateTx(s.ctl.cfg.digest, LedgerAt(s, post.lane), post.key, post.body, receipt, s.now).1;
      } else {
        answer := Status(refusal.value, None);
      }
    }
  }

  lemma DeliverTracked(s: Sys, post: Post, refusal: Option<int>, receipt: Id)
    requires Tracked(s) && Cross(s)
    ensures Tracked(DoDeliver(s, post, refusal, receipt, false))
  {
    hide DoDeliver;
    var s' := DoDeliver(s, post, refusal, receipt, false);
    var l, answer := DeliverShape(s, post, refusal, receipt);
    if s' != s {
      assert PostOk(s.ctl.biz, post);
      forall p <- s'.posts ensures PostLive(s', p) && p.key != post.key {
        assert PostLive(s, p) && PostOk(s.ctl.biz, p);
      }
      forall id <- s'.ctl.biz.jobs ensures id in EffectsOf(s', id) ==> Accounted(s'.ctl.biz.jobs[id]) {}
      forall r <- s'.replies ensures ReplyLive(s', r) {
        if r in s.replies { assert ReplyLive(s, r) && ReplyOk(s.ctl.biz, s.ledgers, r); }
      }
      forall token <- s'.workers ensures WorkerLive(s', token) {
        assert WorkerLive(s, token) && WorkerOk(s.ctl.biz, s.ledgers, s.workers[token]);
      }
    }
  }

  lemma PlanTracked(s: Sys, lane: Lane, key: Id, modes: seq<FailureMode>)
    requires Tracked(s)
    ensures Tracked(DoPlan(s, lane, key, modes))
  {
    var s' := DoPlan(s, lane, key, modes);
    assert forall other :: Effects(s'.ledgers, other) == Effects(s.ledgers, other);
    forall p <- s'.posts ensures PostLive(s', p) { assert PostLive(s, p); }
    forall r <- s'.replies ensures ReplyLive(s', r) { assert ReplyLive(s, r); }
    forall token <- s'.workers ensures WorkerLive(s', token) { assert WorkerLive(s, token); }
  }

  lemma LoseTracked(s: Sys, post: Post)
    requires Tracked(s)
    ensures Tracked(s.(posts := s.posts - {post}))
  {
    var s' := s.(posts := s.posts - {post});
    forall p <- s'.posts ensures PostLive(s', p) { assert PostLive(s, p); }
    forall r <- s'.replies ensures ReplyLive(s', r) { assert ReplyLive(s, r); }
    forall token <- s'.workers ensures WorkerLive(s', token) { assert WorkerLive(s, token); }
  }

  // ----- governed commands -----

  lemma ExceptionsStep(s: Sys, exceptions: seq<ExceptionRow>)
    requires Tracked(s)
    ensures Tracked(WithBiz(s, s.ctl.biz.(exceptions := exceptions)))
  {
    var s' := WithBiz(s, s.ctl.biz.(exceptions := exceptions));
    forall p <- s'.posts ensures PostLive(s', p) { assert PostLive(s, p); }
    forall r <- s'.replies ensures ReplyLive(s', r) { assert ReplyLive(s, r); }
    forall token <- s'.workers ensures WorkerLive(s', token) { assert WorkerLive(s, token); }
  }

  /** An operator requeue changes the status of a dead job, for which nothing is in flight. */
  lemma RequeueTracked(s: Sys, b': Business, id: Id)
    requires Tracked(s) && Footprints.OneRequeue(s.ctl.cfg, s.ctl.biz, b', id, s.now)
    requires b' == s.ctl.biz.(jobs := b'.jobs, exceptions := b'.exceptions)
    ensures Tracked(WithBiz(s, b'))
  {
    var b := s.ctl.biz;
    forall p | p in s.posts ensures p.key != id { assert PostLive(s, p); }
    JobStep(s, id, b'.jobs[id]);
    hide Tracked;
    ExceptionsStep(WithBiz(s, WithJob(b, id, b'.jobs[id])), b'.exceptions);
  }

  /** Commands that leave every known job's status, lease and uncertainty alone. */
  lemma CommandTracked(s: Sys, e: System.Event)
    requires Cross(s) && Tracked(s) && OfService(e)
    requires forall id <- s.ctl.biz.jobs :: id in s.ctl.biz.proposals
    requires !e.Resolve? || Footprints.SameWork(s.ctl.biz, Act(s, e).ctl.biz)
    ensures Tracked(Act(s, e))
  {
    hide Act, Tracked, Cross;
    ServiceStep(s, e);
    QuietStep(s, Act(s, e).ctl);
  }

  lemma ServiceTracked(s: Sys, e: System.Event)
    requires Local(s.ctl.cfg, s.ctl.biz) && Cross(s) && Tracked(s) && OfService(e)
    ensures Tracked(Act(s, e))
  {
    var b, b' := s.ctl.biz, Act(s, e).ctl.biz;
    forall id <- b.jobs ensures id in b.proposals { assert JobOk(b, id); }
    hide Act, Tracked, Cross, Local, Footprints.OneRequeue, Footprints.OneProposal, Footprints.OneApproval;
    if e.Resolve? && !Footprints.SameWork(b, b') {
      ServiceStep(s, e);
      RequeueTracked(s, b', b.exceptions[e.index].subject.id);
    } else {
      CommandTracked(s, e);
    }
  }

  // ----- every step, every run -----

  lemma MisrouteTracked(s: Sys, token: Id, misconfigured: bool, jitter: Time)
    requires Tracked(s)
    ensures Tracked(DoMisroute(s, token, misconfigured, jitter))
  {
    var f := MisrouteIsFinish(s, token, misconfigured, jitter);
    hide DoMisroute;
    if f.Some? { FinishedTracked(s, token, f.value, jitter); }
  }

  lemma WorkerTracked(s: Sys, e: System.Event)
    requires Cross(s) && Tracked(s) && OfWorker(e) && TimelyStep(s, e)
    ensures Tracked(Act(s, e))
  {
    hide DoClaim, DoGet, DoPrepare, DoSend, DoSettle, DoMisroute, DoDefer, WithoutWorker, Cross, Tracked;
    match e
    case Claim(id, token, lease, locked) => ClaimTracked(s, id, token, lease, locked);
    case Get(token, front) => GetTracked(s, token, front);
    case Prepare(token) => PrepareTracked(s, token);
    case Send(token) => SendTracked(s, token);
    case Settle(token, answer, jitter) => SettleTracked(s, token, answer, jitter);
    case Misroute(token, misconfigured, jitter) => MisrouteTracked(s, token, misconfigured, jitter);
    case Defer(token) => DeferTracked(s, token);
    case Crash(token) => WithoutWorkerStep(s, token);
  }

  lemma NetworkTracked(s: Sys, e: System.Event)
    requires Cross(s) && Tracked(s) && OfNetwork(e) && TimelyStep(s, e)
    ensures Tracked(Act(s, e))
  {
    match e
    case Deliver(post, refusal, receipt, again) => DeliverTracked(s, post, refusal, receipt);
    case Lose(post) => LoseTracked(s, post);
    case PlanFailures(lane, key, modes) => PlanTracked(s, lane, key, modes);
  }

  lemma ActTracked(s: Sys, e: System.Event)
    requires Local(s.ctl.cfg, s.ctl.biz) && Cross(s) && Tracked(s) && TimelyStep(s, e)
    ensures Tracked(Act(s, e))
  {
    hide Act, Tracked;
    if OfWorker(e) {
      WorkerTracked(s, e);
    } else if OfService(e) {
      ServiceTracked(s, e);
    } else if OfNetwork(e) {
      NetworkTracked(s, e);
    } else {
      AsideKeepsJobs(s, e);
      QuietStep(s, Act(s, e).ctl);
    }
  }

  lemma {:induction false} RunTracked(s: Sys, es: seq<Timed>)
    requires Sound(s) && Tracked(s) && Timely(s, es)
    ensures Tracked(Run(s, es))
  {
    if es != [] {
      var init, last := es[..|es| - 1], es[|es| - 1];
      assert forall i :: 0 <= i < |init| ==> init[..i] == es[..i] && init[i] == es[i];
      RunTracked(s, init);
      RunSound(s, init);
      assert TimelyStep(Run(s, init), last.event);
      TimelyClock(Run(s, init), last);
      ClockChange(Run(s, init), last.at);
      ActTracked(Run(s, init).(now := last.at), last.event);
    }
  }

  lemma TimelyClock(s: Sys, t: Timed)
    ensures TimelyStep(s.(now := t.at), t.event) == TimelyStep(s, t.event)
  {
  }

  lemma ClockChange(s: Sys, now: Time)
    requires Tracked(s) && Sound(s)
    ensures Tracked(s.(now := now)) && Sound(s.(now := now))
  {
    var s' := s.(now := now);
    forall p <- s'.posts ensures PostLive(s', p) { assert PostLive(s, p); }
    forall r <- s'.replies ensures ReplyLive(s', r) { assert ReplyLive(s, r); }
    forall token <- s'.workers ensures WorkerLive(s', token) { assert WorkerLive(s, token); }
  }

  /** Under a timely network an effect whose job has not succeeded is always uncertain, so the
      only finding left is the one that asks for a review of a terminal intent. */
  lemma TimelyComparison(cfg: Config, policy: Hash, start: Time, es: seq<Timed>)
    requires Timely(Init(cfg, policy, start), es)
    ensures var s := From(cfg, policy, start, es);
      && (forall id <- s.ctl.biz.jobs :: id in EffectsOf(s, id) ==>
            s.ctl.biz.jobs[id].status == Succeeded || s.ctl.biz.jobs[id].uncertain)
      && (forall lane, finding | finding in LaneFindings(s.ctl.biz, s, lane) ::
            finding.kind == TerminalIntentRequiresReview)
  {
    var init, s := Init(cfg, policy, start), From(cfg, policy, start, es);
    assert Tracked(init);
    RunTracked(init, es);
    FromSound(cfg, policy, start, es);
    forall lane, finding | finding in LaneFindings(s.ctl.biz, s, lane)
      ensures finding.kind == TerminalIntentRequiresReview
    {
      TrackedFinding(s, lane, finding);
    }
  }

  lemma TrackedFinding(s: Sys, lane: Lane, finding: Finding)
    requires Cross(s) && Tracked(s) && finding in LaneFindings(s.ctl.biz, s, lane)
    ensures finding.kind == TerminalIntentRequiresReview
  {
    hide FindingsOf;
    CrossFaults(s, lane, finding.key);
    FindingMeaning(s.ctl.cfg.digest, LaneJobs(s.ctl.biz, lane), Effects(s.ledgers, lane), finding);
  }

  // ----- exactly when the column can be trusted -----

  /** The network alone: deliveries, losses and changed failure plans. */
  predicate NetworkOnly(net: seq<Timed>) { forall t <- net :: OfNetwork(t.event) }

  predicate InFlight(s: Sys, id: Id) { exists p <- s.posts :: p.key == id }

  lemma NetworkStep(s: Sys, e: System.Event, id: Id)
    requires Sound(s) && OfNetwork(e) && !InFlight(s, id)
    ensures Act(s, e).ctl == s.ctl && !InFlight(Act(s, e), id)
    ensures id in EffectsOf(Act(s, e), id) <==> id in EffectsOf(s, id)
  {
    NetworkKeepsControl(s, e);
    if e.Deliver? {
      hide Act;
      ActDelivers(s, e);
      if e.post in s.posts { DeliveryElsewhere(s, e.post, e.refusal, e.receipt, e.again, id); }
    } else {
      OthersKeepEffects(s, e);
    }
  }

  lemma ActDelivers(s: Sys, e: System.Event)
    requires e.Deliver?
    ensures Act(s, e) == DoDeliver(s, e.post, e.refusal, e.receipt, e.again)
  {
    hide DoDeliver;
  }

  /** A delivery for another key says nothing about this one. */
  lemma DeliveryElsewhere(s: Sys, post: Post, refusal: Option<int>, receipt: Id, again: bool, id: Id)
    requires post.key != id
    ensures var s' := DoDeliver(s, post, refusal, receipt, again);
      && s'.posts <= s.posts && s'.ctl == s.ctl
      && (id in EffectsOf(s', id) <==> id in EffectsOf(s, id))
  {
  }

  lemma {:induction false} NetworkQuiet(s: Sys, net: seq<Timed>, id: Id)
    requires Sound(s) && NetworkOnly(net) && !InFlight(s, id)
    ensures Run(s, net).ctl == s.ctl && !InFlight(Run(s, net), id)
    ensures id in EffectsOf(Run(s, net), id) <==> id in EffectsOf(s, id)
  {
    if net != [] {
      var init, last := net[..|net| - 1], net[|net| - 1];
      assert net == init + [last] && last in net;
      hide Act, Sound, InFlight, EffectsOf;
      NetworkQuiet(s, init, id);
      RunSound(s, init);
      ClockSound(Run(s, init), last.at);
      ClockQuiet(Run(s, init), last.at, id);
      NetworkStep(Run(s, init).(now := last.at), last.event, id);
    }
  }

  lemma ClockQuiet(s: Sys, now: Time, id: Id)
    ensures InFlight(s.(now := now), id) == InFlight(s, id) && EffectsOf(s.(now := now), id) == EffectsOf(s, id)
  {
  }

  lemma ClockSound(s: Sys, now: Time)
    requires Sound(s)
    ensures Sound(s.(now := now))
  {
  }

  /** The ledger's failures are used up and the POST arrives. */
  function Arrival(post: Post): seq<Timed> {
    [At(0, PlanFailures(post.lane, post.key, [])), At(0, Deliver(post, None, 0, false))]
  }

  lemma ArrivalCommits(s: Sys, post: Post)
    requires Sound(s) && post in s.posts
    ensures NetworkOnly(Arrival(post)) && Run(s, Arrival(post)).ctl == s.ctl
    ensures post.key in EffectsOf(Run(s, Arrival(post)), post.key)
  {
    hide Run, Act, Local, Cross, Unalarmed, BodiesAgree;
    var plan, arrive := PlanFailures(post.lane, post.key, []), Deliver(post, None, 0, false);
    var planned := Step(s, At(0, plan));
    TwoSteps(s, At(0, plan), At(0, arrive));
    ActPlans(s.(now := 0), plan);
    NetworkKeepsControl(s.(now := 0), plan);
    NetworkKeepsControl(planned.(now := 0), arrive);
    ActDelivers(planned.(now := 0), arrive);
    DeliveryCommits(planned.(now := 0), post);
    InItsLane(s, post);
  }

  lemma InItsLane(s: Sys, post: Post)
    requires Cross(s) && post in s.posts
    ensures LaneOf(s.ctl.biz, post.key) == post.lane
  {
    assert PostOk(s.ctl.biz, post);
  }

  lemma TwoSteps(s: Sys, a: Timed, b: Timed)
    ensures Run(s, [a, b]) == Step(Step(s, a), b)
  {
    hide Step;
    assert [a, b][..1] == [a] && [a][..0] == [];
    assert Run(s, [a]) == Step(Run(s, []), a);
    assert Run(s, [a, b]) == Step(Run(s, [a]), b);
  }

  lemma ActPlans(s: Sys, e: System.Event)
    requires e.PlanFailures?
    ensures Act(s, e) == DoPlan(s, e.lane, e.key, e.modes)
  {
    hide DoPlan;
  }

  lemma DeliveryCommits(s: Sys, post: Post)
    requires post in s.posts && NextMode(LedgerAt(s, post.lane), post.key) == None
    ensures post.key in Effects(DoDeliver(s, post, None, 0, false).ledgers, post.lane)
  {
  }

  /** The network alone can bring about an effect that is not there yet if and only if a POST for it
      is in flight. */
  lemma EffectsToCome(s: Sys, id: Id)
    requires Sound(s) && id !in EffectsOf(s, id)
    ensures (exists net :: NetworkOnly(net) && id in EffectsOf(Run(s, net), id)) <==> InFlight(s, id)
  {
    hide EffectsOf, Sound, Run, NetworkOnly;
    if InFlight(s, id) {
      var post :| post in s.posts && post.key == id;
      ArrivalCommits(s, post);
    } else {
      forall net | NetworkOnly(net) ensures id !in EffectsOf(Run(s, net), id) { NetworkQuiet(s, net, id); }
    }
  }

  /** The finding that recovery cannot act upon. */
  ghost predicate Unreconcilable(s: Sys, id: Id) {
    Finding(id, RemoteAheadNotReconcilable) in LaneFindings(s.ctl.biz, s, LaneOf(s.ctl.biz, id))
  }

  lemma UnreconcilableMeaning(s: Sys, id: Id)
    requires Sound(s) && id in s.ctl.biz.jobs
    ensures Unreconcilable(s, id) <==> id in EffectsOf(s, id) && !Accounted(s.ctl.biz.jobs[id])
  {
    hide FindingsOf;
    var lane := LaneOf(s.ctl.biz, id);
    FindingMeaning(s.ctl.cfg.digest, LaneJobs(s.ctl.biz, lane), Effects(s.ledgers, lane), Finding(id, RemoteAheadNotReconcilable));
    if id in Effects(s.ledgers, lane) { assert EffectOk(s.ctl.cfg.digest, s.ctl.biz, s.ledgers, lane, id); }
  }

  lemma {:induction false} NetworkRunKeepsControl(s: Sys, net: seq<Timed>)
    requires NetworkOnly(net)
    ensures Run(s, net).ctl == s.ctl
  {
    if net != [] {
      var init, last := net[..|net| - 1], net[|net| - 1];
      assert net == init + [last] && last in net;
      hide Act;
      NetworkRunKeepsControl(s, init);
      NetworkKeepsControl(Run(s, init).(now := last.at), last.event);
    }
  }

  /** In any reachable state, now or after whatever the network does next, a comparison can report the
      job as not reconcilable if and only if the job has not succeeded, its column is clear, and the
      effect is there or a POST for it is in flight. */
  lemma WhenTheColumnMisleads(s: Sys, id: Id)
    requires Sound(s) && id in s.ctl.biz.jobs
    ensures (exists net :: NetworkOnly(net) && Unreconcilable(Run(s, net), id)) <==>
      !Accounted(s.ctl.biz.jobs[id]) && (id in EffectsOf(s, id) || InFlight(s, id))
  {
    hide Sound, Run, NetworkOnly, Unreconcilable, EffectsOf, InFlight;
    forall net | NetworkOnly(net)
      ensures Unreconcilable(Run(s, net), id) <==> id in EffectsOf(Run(s, net), id) && !Accounted(s.ctl.biz.jobs[id])
    {
      RunSound(s, net);
      NetworkRunKeepsControl(s, net);
      UnreconcilableMeaning(Run(s, net), id);
    }
    if id in EffectsOf(s, id) {
      NothingHappens(s);
      assert Unreconcilable(Run(s, []), id) <==> !Accounted(s.ctl.biz.jobs[id]);
    } else {
      EffectsToCome(s, id);
    }
  }

  lemma NothingHappens(s: Sys)
    ensures NetworkOnly([]) && Run(s, []) == s
  {
  }

  /** The step that clears the column: a worker that holds the lease settles, and the job has neither
      succeeded nor stayed uncertain.  It leaves nothing that recovery could not act upon, now or
      later, if and only if the effect is not there and no POST for it is in flight. */
  lemma WhenClearingIsSafe(s: Sys, token: Id, answer: Answer, jitter: Time)
    requires Sound(s) && token in s.workers
    requires var id := s.workers[token].id;
      var jobs' := Act(s, Settle(token, answer, jitter)).ctl.biz.jobs;
      id in jobs' && !Accounted(jobs'[id])
    ensures var id := s.workers[token].id;
      var s' := Act(s, Settle(token, answer, jitter));
      (forall net | NetworkOnly(net) :: !Unreconcilable(Run(s', net), id)) <==> id !in EffectsOf(s, id) && !InFlight(s, id)
  {
    var id, s' := s.workers[token].id, Act(s, Settle(token, answer, jitter));
    SettleKeepsNetwork(s, token, answer, jitter, id);
    ActSound(s, Settle(token, answer, jitter));
    hide Act, Sound, Run, NetworkOnly, Unreconcilable, EffectsOf, InFlight;
    WhenTheColumnMisleads(s', id);
  }

  lemma SettleKeepsNetwork(s: Sys, token: Id, answer: Answer, jitter: Time, id: Id)
    ensures var s' := Act(s, Settle(token, answer, jitter));
      EffectsOf(s', id) == EffectsOf(s, id) && InFlight(s', id) == InFlight(s, id)
  {
    var f := FinishingStep(s, Settle(token, answer, jitter));
    hide Act;
  }

  lemma ActSound(s: Sys, e: System.Event)
    requires Sound(s)
    ensures Sound(Act(s, e))
  {
    hide Act, Local, Cross, Unalarmed, BodiesAgree;
    ActKeepsLocal(s, e);
    ActKeepsCross(s, e);
    ActUnalarmed(s, e);
    ActKeepsBodies(s, e);
  }
}
