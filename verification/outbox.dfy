/** The protocol between the control database, the workers, the network and the receivers,
    with any number of workers, crashes and reclaimed leases, and with POSTs that may arrive
    arbitrarily late or more than once. */
module Outbox {
  import opened Schema
  import opened CapacityTx
  import opened ServiceTx
  import opened Receiver
  import opened WorkerTx
  import opened System
  import opened Steps
  import opened Intents
  import opened Footprints

  type Ledgers = map<Lane, Ledger>

  function Effects(ledgers: Ledgers, lane: Lane): map<Id, Effect> {
    if lane in ledgers then ledgers[lane].effects else map[]
  }

  // ----- what never changes once it is there -----

  /** The intent and the lane of a job are written once. */
  ghost predicate KeepsIntents(b: Business, b': Business) {
    forall id <- b.jobs ::
      && id in b'.jobs && LaneOf(b', id) == LaneOf(b, id)
      && (b.jobs[id].mutation.Some? ==> b'.jobs[id].mutation == b.jobs[id].mutation)
  }

  ghost predicate KeepsEffects(l: Ledgers, l': Ledgers) {
    forall lane, key | key in Effects(l, lane) :: key in Effects(l', lane) && Effects(l', lane)[key] == Effects(l, lane)[key]
  }

  // ----- the invariant -----

  /** An effect answers to a local intent with the same hash, in the lane of that job. */
  predicate EffectOk(digest: Doc -> Hash, b: Business, l: Ledgers, lane: Lane, key: Id)
    requires key in Effects(l, lane)
  {
    var effect := Effects(l, lane)[key];
    && key in b.jobs && LaneOf(b, key) == lane
    && b.jobs[key].mutation.Some?
    && digest(OfMutation(b.jobs[key].mutation.value)) == effect.hash
    && digest(OfMutation(effect.body)) == effect.hash
  }

  predicate PostOk(b: Business, post: Post) {
    post.key in b.jobs && LaneOf(b, post.key) == post.lane && b.jobs[post.key].mutation == Some(post.body)
  }

  predicate Genuine(b: Business, l: Ledgers, id: Id, receipt: Receipt) {
    var effects := Effects(l, LaneOf(b, id));
    id in effects && receipt == ReceiptOf(id, effects[id])
  }

  predicate ReplyOk(b: Business, l: Ledgers, r: Reply) {
    PostOk(b, r.post) && (r.answer.Held? ==> Genuine(b, l, r.post.key, r.answer.receipt))
  }

  predicate WorkerOk(b: Business, l: Ledgers, w: System.Worker) {
    && w.id in b.jobs
    && (w.snapshot.uncertain ==> w.snapshot.mutation.Some?)
    && (w.snapshot.mutation.Some? ==> b.jobs[w.id].mutation == w.snapshot.mutation)
    && (w.phase.LookedUp? ==> w.snapshot.uncertain)
    && (w.phase.LookedUp? && w.phase.answer.Held? ==> Genuine(b, l, w.id, w.phase.answer.receipt))
    && (w.phase.Cleared? || w.phase.Posted? ==> b.jobs[w.id].mutation == Some(w.phase.mutation))
  }

  /** A success is acknowledged by a receipt that is in the ledger. */
  predicate SuccessOk(b: Business, l: Ledgers, id: Id)
    requires id in b.jobs
  {
    b.jobs[id].status == Succeeded ==>
      && b.jobs[id].remoteResult.Some? && id in Effects(l, LaneOf(b, id))
      && b.jobs[id].remoteResult.value.receipt == Effects(l, LaneOf(b, id))[id].receipt
  }

  ghost predicate EffectsOk(digest: Doc -> Hash, b: Business, l: Ledgers) {
    forall lane, key | key in Effects(l, lane) :: EffectOk(digest, b, l, lane, key)
  }
  ghost predicate PostsOk(b: Business, posts: set<Post>) {
    forall post <- posts :: PostOk(b, post)
  }
  ghost predicate RepliesOk(b: Business, l: Ledgers, replies: set<Reply>) {
    forall r <- replies :: ReplyOk(b, l, r)
  }
  ghost predicate WorkersOk(b: Business, l: Ledgers, workers: map<Id, System.Worker>) {
    forall token <- workers :: WorkerOk(b, l, workers[token])
  }
  ghost predicate SuccessesOk(b: Business, l: Ledgers) {
    forall id <- b.jobs :: SuccessOk(b, l, id)
  }

  ghost predicate Cross(s: Sys) {
    && EffectsOk(s.ctl.cfg.digest, s.ctl.biz, s.ledgers)
    && PostsOk(s.ctl.biz, s.posts)
    && RepliesOk(s.ctl.biz, s.ledgers, s.replies)
    && WorkersOk(s.ctl.biz, s.ledgers, s.workers)
    && SuccessesOk(s.ctl.biz, s.ledgers)
  }

  // ----- elementary changes -----

  ghost predicate NoNewSuccess(b: Business, b': Business) {
    forall id <- b'.jobs | b'.jobs[id].status == Succeeded ::
      id in b.jobs && b.jobs[id].status == Succeeded && b'.jobs[id].remoteResult == b.jobs[id].remoteResult
  }

  lemma IntentsChange(s: Sys, ctl: Control)
    requires Cross(s) && ctl.cfg == s.ctl.cfg && KeepsIntents(s.ctl.biz, ctl.biz)
    requires SuccessesOk(ctl.biz, s.ledgers)
    ensures Cross(s.(ctl := ctl))
  {
    var b, b', l := s.ctl.biz, ctl.biz, s.ledgers;
    forall lane, key | key in Effects(l, lane) ensures EffectOk(s.ctl.cfg.digest, b', l, lane, key) {
      assert EffectOk(s.ctl.cfg.digest, b, l, lane, key);
    }
    forall post <- s.posts ensures PostOk(b', post) { assert PostOk(b, post); }
    forall r <- s.replies ensures ReplyOk(b', l, r) { assert ReplyOk(b, l, r) && PostOk(b, r.post); }
    forall token <- s.workers ensures WorkerOk(b', l, s.workers[token]) { assert WorkerOk(b, l, s.workers[token]); }
  }

  lemma QuietChange(s: Sys, ctl: Control)
    requires Cross(s) && ctl.cfg == s.ctl.cfg && KeepsIntents(s.ctl.biz, ctl.biz) && NoNewSuccess(s.ctl.biz, ctl.biz)
    ensures Cross(s.(ctl := ctl))
  {
    forall id <- ctl.biz.jobs ensures SuccessOk(ctl.biz, s.ledgers, id) {
      if ctl.biz.jobs[id].status == Succeeded { assert SuccessOk(s.ctl.biz, s.ledgers, id); }
    }
    IntentsChange(s, ctl);
  }

  lemma WorkerChange(s: Sys, token: Id, w: System.Worker)
    requires Cross(s) && WorkerOk(s.ctl.biz, s.ledgers, w)
    ensures Cross(s.(workers := s.workers[token := w]))
  {
  }

  lemma LedgerChange(s: Sys, l: Ledgers)
    requires Cross(s) && KeepsEffects(s.ledgers, l) && EffectsOk(s.ctl.cfg.digest, s.ctl.biz, l)
    ensures Cross(s.(ledgers := l))
  {
    var b := s.ctl.biz;
    forall r <- s.replies ensures ReplyOk(b, l, r) { assert ReplyOk(b, s.ledgers, r); }
    forall token <- s.workers ensures WorkerOk(b, l, s.workers[token]) { assert WorkerOk(b, s.ledgers, s.workers[token]); }
    forall id <- b.jobs ensures SuccessOk(b, l, id) { assert SuccessOk(b, s.ledgers, id); }
  }

  lemma JobChangeKeeps(b: Business, id: Id, job: JobRow)
    requires id in b.jobs && (b.jobs[id].mutation.Some? ==> job.mutation == b.jobs[id].mutation)
    ensures KeepsIntents(b, WithJob(b, id, job))
    ensures job.status != Succeeded ==> NoNewSuccess(b, WithJob(b, id, job))
  {
  }

  // ----- each step of a worker -----

  lemma ClaimKeepsCross(s: Sys, id: Id, token: Id, lease: Time, locked: set<Id>)
    requires Local(s.ctl.cfg, s.ctl.biz) && Cross(s)
    ensures Cross(DoClaim(s, id, token, lease, locked))
  {
    if IsOpen(s) && Next(s.ctl.biz, locked, id, s.now) && token !in s.used {
      var b := ClaimTx(s.ctl.biz, id, token, lease, s.now);
      JobChangeKeeps(s.ctl.biz, id, b.jobs[id]);
      QuietChange(s, s.ctl.(biz := b));
      assert JobOk(s.ctl.biz, id);
      WorkerChange(WithBiz(s, b), token, Worker(id, b.jobs[id], Claimed));
    }
  }

  lemma GetKeepsCross(s: Sys, token: Id, front: Option<Answer>)
    requires Cross(s)
    ensures Cross(DoGet(s, token, front))
  {
    if token in s.workers {
      assert WorkerOk(s.ctl.biz, s.ledgers, s.workers[token]);
      WorkerChange(s, token, DoGet(s, token, front).workers[token]);
    }
  }

  lemma PrepareKeepsCross(s: Sys, token: Id)
    requires Local(s.ctl.cfg, s.ctl.biz) && Cross(s)
    ensures Cross(DoPrepare(s, token))
  {
    if token in s.workers && MayPrepare(s, s.workers[token]) {
      var w, b := s.workers[token], s.ctl.biz;
      assert WorkerOk(b, s.ledgers, w);
      RetryRendersTheSame(s.ctl.cfg, s.ctl.policy, IsOpen(s), b, w.id, token, s.now);
      match Preparation(s.ctl.policy, IsOpen(s), b, w.id, token, s.now)
      case Authorized(mutation) =>
        var b' := PrepareTx(s.ctl.policy, IsOpen(s), b, w.id, token, s.now);
        JobChangeKeeps(b, w.id, b'.jobs[w.id]);
        QuietChange(s, s.ctl.(biz := b'));
        assert WorkerOk(b', s.ledgers, w);
        WorkerChange(WithBiz(s, b'), token, w.(phase := Cleared(mutation)));
      case Objected(reason) => WorkerChange(s, token, w.(phase := Refusal(reason)));
      case Crashed =>
    }
  }

  lemma SendKeepsCross(s: Sys, token: Id)
    requires Cross(s)
    ensures Cross(DoSend(s, token))
  {
    if token in s.workers && s.workers[token].phase.Cleared? {
      var w := s.workers[token];
      assert WorkerOk(s.ctl.biz, s.ledgers, w);
      WorkerChange(s, token, w.(phase := Posted(w.phase.mutation)));
    }
  }

  /** What a worker is about to record: a success only with a genuine receipt, and never an
      identity conflict. */
  predicate VerdictOk(s: Sys, id: Id, f: Finish) {
    && Settles(f) && f.reason != RemoteIdentityConflict
    && (f.status == Succeeded ==> f.result.Some? && Genuine(s.ctl.biz, s.ledgers, id, f.result.value))
  }

  lemma LookupVerdict(s: Sys, token: Id)
    requires Cross(s) && token in s.workers && s.workers[token].phase.LookedUp?
    ensures var w := s.workers[token];
      var f := AfterLookup(s.ctl.cfg.digest, w.snapshot, w.phase.answer);
      f.Some? ==> VerdictOk(s, w.id, f.value)
  {
    var w := s.workers[token];
    assert WorkerOk(s.ctl.biz, s.ledgers, w);
    if w.phase.answer.Held? {
      assert EffectOk(s.ctl.cfg.digest, s.ctl.biz, s.ledgers, LaneOf(s.ctl.biz, w.id), w.id);
    }
  }

  lemma PostVerdict(s: Sys, token: Id, answer: Answer)
    requires Cross(s) && token in s.workers && s.workers[token].phase.Posted?
    requires MaySee(s, token, s.workers[token], answer)
    ensures var w := s.workers[token];
      VerdictOk(s, w.id, AfterPost(s.ctl.cfg.digest, w.phase.mutation, answer))
  {
    var w := s.workers[token];
    assert WorkerOk(s.ctl.biz, s.ledgers, w);
    if answer.Held? {
      var r :| r in s.replies && r.answer == answer && r.post.token == token && r.post.key == w.id;
      assert ReplyOk(s.ctl.biz, s.ledgers, r);
      assert EffectOk(s.ctl.cfg.digest, s.ctl.biz, s.ledgers, LaneOf(s.ctl.biz, w.id), w.id);
    }
  }

  lemma FinishedKeepsCross(s: Sys, token: Id, f: Finish, jitter: Time)
    requires Cross(s) && token in s.workers
    requires f.status == Succeeded ==>
      f.result.Some? && Genuine(s.ctl.biz, s.ledgers, s.workers[token].id, f.result.value)
    ensures Cross(Finished(s, token, f, jitter))
  {
    var b, id := s.ctl.biz, s.workers[token].id;
    if Holds(b, id, token) {
      var b' := FinishTx(b, id, token, f, jitter, s.now);
      JobChangeKeeps(b, id, FinishedJob(b.jobs[id], f, jitter, s.now));
      forall other <- b'.jobs ensures SuccessOk(b', s.ledgers, other) { assert SuccessOk(b, s.ledgers, other); }
      IntentsChange(s, s.ctl.(biz := b'));
    }
  }

  lemma SettleKeepsCross(s: Sys, token: Id, answer: Answer, jitter: Time)
    requires Cross(s)
    ensures Cross(DoSettle(s, token, answer, jitter))
  {
    if token in s.workers {
      var w := s.workers[token];
      match w.phase
      case LookedUp(seen) =>
        var f := AfterLookup(s.ctl.cfg.digest, w.snapshot, seen);
        LookupVerdict(s, token);
        if f.Some? { FinishedKeepsCross(s, token, f.value, jitter); }
      case Refusal(reason) =>
        var f := AfterRefusal(reason);
        if f.Some? { FinishedKeepsCross(s, token, f.value, jitter); }
      case Posted(mutation) =>
        if MaySee(s, token, w, answer) {
          PostVerdict(s, token, answer);
          FinishedKeepsCross(s, token, AfterPost(s.ctl.cfg.digest, mutation, answer), jitter);
        }
      case _ =>
    }
  }

  // ----- the receiver -----

  /** A POST that is in flight is never refused as a changed body; it leaves every other effect
      alone and answers with what is then in the ledger. */
  lemma MutateAnswers(digest: Doc -> Hash, b: Business, l: Ledgers, post: Post, receipt: Id, now: Time)
    requires EffectsOk(digest, b, l) && PostOk(b, post)
    ensures var ledger := if post.lane in l then l[post.lane] else EMPTY;
      var (ledger', answer) := MutateTx(digest, ledger, post.key, post.body, receipt, now);
      var l' := l[post.lane := ledger'];
      && KeepsEffects(l, l') && EffectsOk(digest, b, l')
      && (answer.Held? ==> Genuine(b, l', post.key, answer.receipt))
      && (answer.Status? ==> answer.code != 409 && post.key !in Effects(l', post.lane))
  {
    var ledger := if post.lane in l then l[post.lane] else EMPTY;
    if post.key in ledger.effects { assert EffectOk(digest, b, l, post.lane, post.key); }
    var (ledger', answer) := MutateTx(digest, ledger, post.key, post.body, receipt, now);
    var l' := l[post.lane := ledger'];
    forall lane, key | key in Effects(l', lane) ensures EffectOk(digest, b, l', lane, key) {
      if key in Effects(l, lane) { assert EffectOk(digest, b, l, lane, key); }
    }
  }

  lemma SameEffects(s: Sys, l: Ledgers)
    requires Cross(s) && forall lane :: Effects(l, lane) == Effects(s.ledgers, lane)
    ensures Cross(s.(ledgers := l))
  {
    forall lane, key | key in Effects(l, lane) ensures EffectOk(s.ctl.cfg.digest, s.ctl.biz, l, lane, key) {
      assert EffectOk(s.ctl.cfg.digest, s.ctl.biz, s.ledgers, lane, key);
    }
    LedgerChange(s, l);
  }

  lemma DeliverKeepsCross(s: Sys, post: Post, refusal: Option<int>, receipt: Id, again: bool)
    requires Cross(s)
    ensures Cross(DoDeliver(s, post, refusal, receipt, again))
    ensures KeepsEffects(s.ledgers, DoDeliver(s, post, refusal, receipt, again).ledgers)
  {
    var s' := DoDeliver(s, post, refusal, receipt, again);
    if s' != s {
      assert PostOk(s.ctl.biz, post);
      if refusal.None? {
        MutateAnswers(s.ctl.cfg.digest, s.ctl.biz, s.ledgers, post, receipt, s.now);
        LedgerChange(s, s'.ledgers);
      } else {
        SameEffects(s, s'.ledgers);
      }
    }
  }

  lemma PlanKeepsCross(s: Sys, lane: Lane, key: Id, modes: seq<FailureMode>)
    requires Cross(s)
    ensures Cross(DoPlan(s, lane, key, modes))
  {
    SameEffects(s, DoPlan(s, lane, key, modes).ledgers);
  }

  // ----- every step -----

  lemma SameJobs(b: Business, b': Business)
    requires b'.jobs == b.jobs && b'.routes == b.routes
    ensures KeepsIntents(b, b') && NoNewSuccess(b, b')
  {
  }

  lemma ProposalKeepsIntents(cfg: Config, b: Business, b': Business, id: Id, now: Time)
    requires OneProposal(cfg, b, b', id, now) && id !in b.jobs
    ensures KeepsIntents(b, b') && NoNewSuccess(b, b')
  {
    hide CapacityTx.Overloaded;
  }

  lemma ApprovalKeepsIntents(b: Business, b': Business, actor: string, id: Id, now: Time)
    requires OneApproval(b, b', actor, id, now)
    ensures KeepsIntents(b, b') && NoNewSuccess(b, b')
  {
  }

  lemma RequeueKeepsIntents(cfg: Config, b: Business, b': Business, id: Id, now: Time)
    requires OneRequeue(cfg, b, b', id, now)
    ensures KeepsIntents(b, b') && NoNewSuccess(b, b')
  {
    hide CapacityTx.Readmissible;
  }

  lemma ServiceKeepsIntents(s: Sys, e: System.Event)
    requires Local(s.ctl.cfg, s.ctl.biz) && OfService(e)
    ensures Act(s, e) == WithBiz(s, Act(s, e).ctl.biz)
    ensures KeepsIntents(s.ctl.biz, Act(s, e).ctl.biz) && NoNewSuccess(s.ctl.biz, Act(s, e).ctl.biz)
  {
    var cfg, b, b' := s.ctl.cfg, s.ctl.biz, Act(s, e).ctl.biz;
    if e.Propose? && e.command.requestId in b.jobs { assert JobOk(b, e.command.requestId); }
    hide Act, Local, OneProposal, OneApproval, OneRequeue, KeepsIntents, NoNewSuccess;
    ServiceStep(s, e);
    if SameWork(b, b') {
      SameJobs(b, b');
    } else if e.Propose? {
      NewProposalHasNoJob(b, b', cfg, e.command.requestId, s.now);
      ProposalKeepsIntents(cfg, b, b', e.command.requestId, s.now);
    } else if e.Approve? {
      ApprovalKeepsIntents(b, b', e.actor, e.proposal, s.now);
    } else {
      RequeueKeepsIntents(cfg, b, b', b.exceptions[e.index].subject.id, s.now);
    }
  }

  lemma NewProposalHasNoJob(b: Business, b': Business, cfg: Config, id: Id, now: Time)
    requires OneProposal(cfg, b, b', id, now)
    ensures id !in b.proposals
  {
  }

  lemma MisrouteKeepsCross(s: Sys, token: Id, misconfigured: bool, jitter: Time)
    requires Cross(s)
    ensures Cross(DoMisroute(s, token, misconfigured, jitter))
  {
    var f := MisrouteIsFinish(s, token, misconfigured, jitter);
    hide DoMisroute;
    if f.Some? { FinishedKeepsCross(s, token, f.value, jitter); }
  }

  lemma DeferKeepsCross(s: Sys, token: Id)
    requires Cross(s)
    ensures Cross(DoDefer(s, token))
  {
    if token in s.workers && Holds(s.ctl.biz, s.workers[token].id, token) {
      var id := s.workers[token].id;
      JobChangeKeeps(s.ctl.biz, id, DeferTx(s.ctl.biz, id, token, false, s.now).jobs[id]);
      QuietChange(s, s.ctl.(biz := DeferTx(s.ctl.biz, id, token, false, s.now)));
    }
  }

  lemma DecisionKeepsCross(s: Sys, e: System.Event)
    requires Local(s.ctl.cfg, s.ctl.biz) && Cross(s) && (e.Prepare? || e.Settle? || e.Misroute? || e.Defer?)
    ensures Cross(Act(s, e))
  {
    hide DoPrepare, DoSettle, DoMisroute, DoDefer, Cross, Local;
    match e
    case Prepare(token) => PrepareKeepsCross(s, token);
    case Settle(token, answer, jitter) => SettleKeepsCross(s, token, answer, jitter);
    case Misroute(token, misconfigured, jitter) => MisrouteKeepsCross(s, token, misconfigured, jitter);
    case Defer(token) => DeferKeepsCross(s, token);
  }

  lemma ProgressKeepsCross(s: Sys, e: System.Event)
    requires Local(s.ctl.cfg, s.ctl.biz) && Cross(s) && (e.Claim? || e.Get? || e.Send? || e.Crash?)
    ensures Cross(Act(s, e))
  {
    hide DoClaim, DoGet, DoSend, WithoutWorker, Cross, Local;
    match e
    case Claim(id, token, lease, locked) => ClaimKeepsCross(s, id, token, lease, locked);
    case Get(token, front) => GetKeepsCross(s, token, front);
    case Send(token) => SendKeepsCross(s, token);
    case Crash(token) => CrashKeepsCross(s, token);
  }

  lemma WorkerStepKeepsCross(s: Sys, e: System.Event)
    requires Local(s.ctl.cfg, s.ctl.biz) && Cross(s) && OfWorker(e)
    ensures Cross(Act(s, e))
  {
    hide Act, Cross, Local;
    if e.Prepare? || e.Settle? || e.Misroute? || e.Defer? { DecisionKeepsCross(s, e); } else { ProgressKeepsCross(s, e); }
  }

  lemma CrashKeepsCross(s: Sys, token: Id)
    requires Cross(s)
    ensures Cross(WithoutWorker(s, token))
  {
  }

  lemma ActKeepsCross(s: Sys, e: System.Event)
    requires Local(s.ctl.cfg, s.ctl.biz) && Cross(s)
    ensures Cross(Act(s, e))
  {
    if OfWorker(e) {
      WorkerStepKeepsCross(s, e);
    } else if OfService(e) {
      ServiceKeepsIntents(s, e);
      QuietChange(s, Act(s, e).ctl);
    } else if Aside(e) {
      AsideKeepsJobs(s, e);
      SameJobs(s.ctl.biz, Act(s, e).ctl.biz);
      QuietChange(s, Act(s, e).ctl);
    } else if e.Deliver? {
      DeliverKeepsCross(s, e.post, e.refusal, e.receipt, e.again);
    } else if e.PlanFailures? {
      PlanKeepsCross(s, e.lane, e.key, e.modes);
    } else {
      assert e.Lose?;
    }
  }
}
