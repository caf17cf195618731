/** The whole system as interleaved atomic steps: every transaction of the control database,
    every request at a receiver, and every message that is sent, delivered or lost is one step.
    Any number of workers run at once; a worker is named by the lease token it was given. */
module System {
  import opened Schema
  import opened ServiceTx
  import opened Receiver
  import opened WorkerTx
  import opened CapacityTx
  import opened RecoveryTx

  datatype Post = Post(token: Id, lane: Lane, key: Id, body: Mutation)
  datatype Reply = Reply(post: Post, answer: Answer)

  /** How far a worker has come with its job. */
  datatype Phase =
    | Claimed
    | LookedUp(answer: Answer)
    | Refusal(reason: Reason)
    | Cleared(mutation: Mutation)
    | Posted(mutation: Mutation)
  datatype Worker = Worker(id: Id, snapshot: JobRow, phase: Phase)

  datatype Sys = Sys(ctl: Control, ledgers: map<Lane, Ledger>, posts: set<Post>, replies: set<Reply>,
                     workers: map<Id, Worker>, used: set<Id>, now: Time)

  function Init(cfg: Config, policy: Hash, now: Time): Sys {
    Sys(Control(cfg, policy, NO_BUSINESS, OPEN_GATE, map[], map[]), map[], {}, {}, map[], {}, now)
  }

  datatype Event =
    | Ingest(source: Source, event: SourceEvent, newId: Id)
    | Link(link: LinkCommand)
    | Propose(actor: string, command: Command)
    | Approve(actor: string, proposal: Id, expected: nat)
    | Resolve(index: nat, disposition: Disposition)
    | Claim(id: Id, token: Id, lease: Time, locked: set<Id>)
    | Misroute(token: Id, misconfigured: bool, jitter: Time)
    | Get(token: Id, front: Option<Answer>)
    | Defer(token: Id)
    | Prepare(token: Id)
    | Send(token: Id)
    | Settle(token: Id, answer: Answer, jitter: Time)
    | Crash(token: Id)
    | Deliver(post: Post, refusal: Option<int>, receipt: Id, again: bool)
    | Lose(post: Post)
    | PlanFailures(lane: Lane, key: Id, modes: seq<FailureMode>)
    | Acquire(destination: DestId, kind: Kind, readings: Readings, token: Id)
    | Release(destination: DestId, token: Id, failed: bool, cooldown: int)
    | Begin(binding: Binding, session: Id)
    | Verify(binding: Binding, env: Surroundings, session: Id, proof: Id)
    | ApproveProof(binding: Binding, env: Surroundings, session: Id, proof: Id)
    | Resume(binding: Binding, env: Surroundings, session: Id, proof: Id)
    | Deploy(policy: Hash)

  datatype Timed = At(at: Time, event: Event)

  function LedgerAt(s: Sys, lane: Lane): Ledger {
    if lane in s.ledgers then s.ledgers[lane] else EMPTY
  }

  function IsOpen(s: Sys): bool { s.ctl.gate.mode == Open }

  function WithBiz(s: Sys, b: Business): Sys { s.(ctl := s.ctl.(biz := b)) }

  function WithPhase(s: Sys, token: Id, phase: Phase): Sys
    requires token in s.workers
  {
    s.(workers := s.workers[token := s.workers[token].(phase := phase)])
  }

  function WithoutWorker(s: Sys, token: Id): Sys { s.(workers := s.workers - {token}) }

  function WithControl(s: Sys, ctl: Option<Control>): Sys {
    if ctl.Some? then s.(ctl := ctl.value) else s
  }

  // ----- worker steps -----

  ghost function DoClaim(s: Sys, id: Id, token: Id, lease: Time, locked: set<Id>): Sys {
    if IsOpen(s) && Next(s.ctl.biz, locked, id, s.now) && token !in s.used then
      var b := ClaimTx(s.ctl.biz, id, token, lease, s.now);
      WithBiz(s, b).(used := s.used + {token}, workers := s.workers[token := Worker(id, b.jobs[id], Claimed)])
    else s
  }

  predicate RouteAccepted(s: Sys, id: Id) { RouteObjection(s.ctl.cfg, s.ctl.biz, id, false).None? }

  function Finished(s: Sys, token: Id, f: Finish, jitter: Time): Sys
    requires token in s.workers
  {
    WithoutWorker(WithBiz(s, FinishTx(s.ctl.biz, s.workers[token].id, token, f, jitter, s.now)), token)
  }

  function DoMisroute(s: Sys, token: Id, misconfigured: bool, jitter: Time): Sys {
    if token !in s.workers || !s.workers[token].phase.Claimed? then s
    else match RouteObjection(s.ctl.cfg, s.ctl.biz, s.workers[token].id, misconfigured)
      case None => s
      case Some(reason) => Finished(s, token, BlockedBy(reason), jitter)
  }

  /** `front` is an answer that did not come from the receiver's own lookup. */
  function DoGet(s: Sys, token: Id, front: Option<Answer>): Sys {
    if token !in s.workers || !s.workers[token].phase.Claimed? || !s.workers[token].snapshot.uncertain
       || !RouteAccepted(s, s.workers[token].id) then s
    else
      var id := s.workers[token].id;
      match front
      case None => WithPhase(s, token, LookedUp(GetEffect(LedgerAt(s, LaneOf(s.ctl.biz, id)), id)))
      case Some(answer) =>
        if answer.Broken? || (answer.Status? && answer.code !in {200, 404}) then
          WithPhase(s, token, LookedUp(answer))
        else s
  }

  /** No permit: raised by the client before anything is sent. */
  function DoDefer(s: Sys, token: Id): Sys {
    if token !in s.workers || s.workers[token].id !in s.ctl.biz.routes then s
    else
      var w := s.workers[token];
      if (w.phase.Claimed? && w.snapshot.uncertain) || w.phase.Cleared? then
        WithoutWorker(WithBiz(s, DeferTx(s.ctl.biz, w.id, token, false, s.now)), token)
      else s
  }

  predicate MayPrepare(s: Sys, w: Worker) {
    || (w.phase.Claimed? && !w.snapshot.uncertain && RouteAccepted(s, w.id))
    || (w.phase.LookedUp? && w.phase.answer.Status? && w.phase.answer.code == 404)
  }

  function DoPrepare(s: Sys, token: Id): Sys {
    if token !in s.workers || !MayPrepare(s, s.workers[token]) then s
    else
      var id := s.workers[token].id;
      match Preparation(s.ctl.policy, IsOpen(s), s.ctl.biz, id, token, s.now)
      case Authorized(mutation) =>
        WithPhase(WithBiz(s, PrepareTx(s.ctl.policy, IsOpen(s), s.ctl.biz, id, token, s.now)), token, Cleared(mutation))
      case Objected(reason) => WithPhase(s, token, Refusal(reason))
      case Crashed => WithoutWorker(s, token)
  }

  function DoSend(s: Sys, token: Id): Sys {
    if token !in s.workers || !s.workers[token].phase.Cleared? then s
    else
      var w := s.workers[token];
      var post := Post(token, LaneOf(s.ctl.biz, w.id), w.id, w.phase.mutation);
      WithPhase(s, token, Posted(w.phase.mutation)).(posts := s.posts + {post})
  }

  /** The answer a worker may see after its POST: one sent to it, or a broken exchange. */
  predicate MaySee(s: Sys, token: Id, w: Worker, answer: Answer) {
    || answer.Broken?
    || exists r <- s.replies :: r.answer == answer && r.post.token == token && r.post.key == w.id
  }

  function DoSettle(s: Sys, token: Id, answer: Answer, jitter: Time): Sys {
    if token !in s.workers then s
    else
      var w := s.workers[token];
      match w.phase
      case LookedUp(seen) =>
        (match AfterLookup(s.ctl.cfg.digest, w.snapshot, seen)
         case Some(f) => Finished(s, token, f, jitter)
         case None => s)
      case Refusal(reason) =>
        (match AfterRefusal(reason)
         case Some(f) => Finished(s, token, f, jitter)
         case None => WithoutWorker(s, token))
      case Posted(mutation) =>
        if MaySee(s, token, w, answer) then
          Finished(s, token, AfterPost(s.ctl.cfg.digest, mutation, answer), jitter)
        else s
      case _ => s
  }

  // ----- receiver and network steps -----

  /** `refusal` is a refusal before the ledger is reached; `again` leaves a copy in flight. */
  function DoDeliver(s: Sys, post: Post, refusal: Option<int>, receipt: Id, again: bool): Sys {
    if post !in s.posts || (refusal.Some? && refusal.value in {200, 201}) then s
    else
      var (ledger, answer) :=
        if refusal.Some? then (LedgerAt(s, post.lane), Status(refusal.value, None))
        else MutateTx(s.ctl.cfg.digest, LedgerAt(s, post.lane), post.key, post.body, receipt, s.now);
      s.(ledgers := s.ledgers[post.lane := ledger],
         posts := if again then s.posts else s.posts - {post},
         replies := s.replies + {Reply(post, answer)})
  }

  function DoPlan(s: Sys, lane: Lane, key: Id, modes: seq<FailureMode>): Sys {
    var ledger := LedgerAt(s, lane);
    s.(ledgers := s.ledgers[lane := ledger.(plans := ledger.plans[key := modes])])
  }

  // ----- capacity steps -----

  function DoAcquire(s: Sys, destination: DestId, kind: Kind, r: Readings, token: Id): Sys {
    if destination !in s.ctl.cfg.destinations then s
    else
      var (c, _) := AcquireTx(s.ctl.cfg.destinations[destination], destination, kind, s.ctl.biz.capacity, r, token);
      WithBiz(s, s.ctl.biz.(capacity := c))
  }

  function DoRelease(s: Sys, destination: DestId, token: Id, failed: bool, cooldown: int): Sys {
    var (c, _) := ReleaseTx(destination, s.ctl.biz.capacity, token, failed, cooldown, s.now);
    WithBiz(s, s.ctl.biz.(capacity := c))
  }

  // ----- all steps -----

  function Receipts(s: Sys): map<Id, Effect> { LedgerAt(s, Legacy).effects }

  /** One step.  An event that is not enabled leaves the state as it is, so that every
      sequence of events is a run. */
  ghost function Act(s: Sys, e: Event): Sys {
    var b := s.ctl.biz;
    match e
    case Ingest(source, event, newId) => WithBiz(s, After(b, IngestTx(s.ctl.cfg.digest, b, source, event, newId, s.now)))
    case Link(link) => WithBiz(s, After(b, LinkTx(b, link)))
    case Propose(actor, command) =>
      WithBiz(s, After(b, ProposeTx(s.ctl.cfg, s.ctl.policy, IsOpen(s), b, actor, command, s.now)))
    case Approve(actor, proposal, expected) =>
      WithBiz(s, After(b, ApproveTx(s.ctl.policy, IsOpen(s), b, actor, proposal, expected, s.now)))
    case Resolve(index, disposition) => WithBiz(s, After(b, ResolveTx(s.ctl.cfg, b, index, disposition, s.now)))
    case Claim(id, token, lease, locked) => DoClaim(s, id, token, lease, locked)
    case Misroute(token, misconfigured, jitter) => DoMisroute(s, token, misconfigured, jitter)
    case Get(token, front) => DoGet(s, token, front)
    case Defer(token) => DoDefer(s, token)
    case Prepare(token) => DoPrepare(s, token)
    case Send(token) => DoSend(s, token)
    case Settle(token, answer, jitter) => DoSettle(s, token, answer, jitter)
    case Crash(token) => WithoutWorker(s, token)
    case Deliver(post, refusal, receipt, again) => DoDeliver(s, post, refusal, receipt, again)
    case Lose(post) => s.(posts := s.posts - {post})
    case PlanFailures(lane, key, modes) => DoPlan(s, lane, key, modes)
    case Acquire(destination, kind, readings, token) => DoAcquire(s, destination, kind, readings, token)
    case Release(destination, token, failed, cooldown) => DoRelease(s, destination, token, failed, cooldown)
    case Begin(binding, session) => WithControl(s, BeginTx(s.ctl, binding, session, s.now))
    case Verify(binding, env, session, proof) =>
      WithControl(s, VerifyTx(s.ctl, binding, env, Receipts(s), session, proof, s.now))
    case ApproveProof(binding, env, session, proof) =>
      WithControl(s, ApproveProofTx(s.ctl, binding, env, Receipts(s), session, proof, s.now))
    case Resume(binding, env, session, proof) =>
      WithControl(s, ResumeTx(s.ctl, binding, env, Receipts(s), session, proof, s.now))
    case Deploy(policy) => s.(ctl := s.ctl.(policy := policy))
  }

  ghost function Step(s: Sys, t: Timed): Sys { Act(s.(now := t.at), t.event) }

  ghost function Run(s: Sys, es: seq<Timed>): Sys {
    if es == [] then s else Step(Run(s, es[..|es| - 1]), es[|es| - 1])
  }

  /** The clock never runs backwards along the run. */
  predicate Monotone(start: Time, es: seq<Timed>) {
    && (forall i :: 0 <= i < |es| ==> start <= es[i].at)
    && (forall i, j :: 0 <= i < j < |es| ==> es[i].at <= es[j].at)
  }

  lemma {:induction false} RunConcat(s: Sys, a: seq<Timed>, b: seq<Timed>)
    ensures Run(s, a + b) == Run(Run(s, a), b)
  {
    if b == [] {
      assert a + b == a;
    } else {
      var init := b[..|b| - 1];
      assert (a + b)[..|a + b| - 1] == a + init;
      RunConcat(s, a, init);
    }
  }

  lemma RunNext(s: Sys, es: seq<Timed>, i: nat)
    requires i < |es|
    ensures Run(s, es[..i + 1]) == Step(Run(s, es[..i]), es[i])
  {
    assert es[..i + 1][..i] == es[..i];
  }

  lemma ActClock(s: Sys, e: Event)
    ensures Act(s, e).now == s.now
  {
  }

  lemma RunClock(s: Sys, es: seq<Timed>)
    ensures Run(s, es).now == if es == [] then s.now else es[|es| - 1].at
  {
    if es != [] {
      hide Act;
      ActClock(Run(s, es[..|es| - 1]).(now := es[|es| - 1].at), es[|es| - 1].event);
    }
  }
}
