/** Leases as fences, and the bookkeeping of attempts: what can happen to a job row in one step,
    and what that adds up to over a run. */
module Fencing {
  import opened Schema
  import opened Policy
  import opened CapacityTx
  import opened ServiceTx
  import opened Receiver
  import opened WorkerTx
  import opened System
  import opened Steps
  import opened Intents
  import opened Footprints
  import opened Outbox
  import opened Runs
  import opened Decisions
  import opened Dispatch

  // ----- what one step can do to one job -----

  ghost predicate Claims(s: Sys, e: System.Event, id: Id) {
    e.Claim? && e.id == id && IsOpen(s) && FirstDue(s.ctl.biz, e.locked, id, s.now) && e.token !in s.used
  }

  predicate Defers(s: Sys, e: System.Event, id: Id) {
    && e.Defer? && e.token in s.workers && s.workers[e.token].id == id
    && id in s.ctl.biz.routes && Holding(s.ctl.biz, id, e.token)
    && var w := s.workers[e.token];
    && ((w.phase.Claimed? && w.snapshot.uncertain) || w.phase.Cleared?)
  }

  predicate Requeues(s: Sys, e: System.Event, id: Id) {
    && e.Resolve? && e.disposition == Requeue && e.index < |s.ctl.biz.exceptions|
    && s.ctl.biz.exceptions[e.index].subject == OfRow(id)
    && ResolveTx(s.ctl.cfg, s.ctl.biz, e.index, Requeue, s.now).Commit?
  }

  /** The holder of the lease settles: the lease is gone, the attempts stay, and a job that is to
      be retried is within its attempt budget. */
  predicate SettledRow(job: JobRow, job': JobRow) {
    && job'.status in {Succeeded, Retry, Blocked, Dead} && job'.leaseToken == None
    && job'.attempts == job.attempts
    && (job'.status == Retry ==> job.attempts < 4)
  }

  predicate SameLease(job: JobRow, job': JobRow) {
    job'.status == job.status && job'.attempts == job.attempts && job'.leaseToken == job.leaseToken
  }

  ghost predicate Moved(s: Sys, e: System.Event, id: Id, job': JobRow) {
    if id !in s.ctl.biz.jobs then job' == NewJob(s.now)
    else
      var job := s.ctl.biz.jobs[id];
      if Claims(s, e, id) then
        job' == job.(status := Leased, leaseToken := Some(e.token), leaseUntil := Some(s.now + e.lease), attempts := job.attempts + 1)
      else if Defers(s, e, id) then
        job' == job.(status := Retry, leaseToken := None, leaseUntil := None, attempts := job.attempts - 1, availableAt := s.now + 100_000)
      else if Requeues(s, e, id) then
        job.status == Dead && job' == job.(status := Retry, attempts := 0, availableAt := s.now)
      else
        || job' == job
        || (e.Prepare? && Holding(s.ctl.biz, id, e.token) && SameLease(job, job'))
        || ((e.Settle? || e.Misroute?) && Holding(s.ctl.biz, id, e.token) && SettledRow(job, job'))
  }

  lemma RowSettles(job: JobRow, f: Finish, jitter: Time, now: Time)
    requires Settles(f)
    ensures SettledRow(job, FinishedJob(job, f, jitter, now))
  {
    hide Backoff;
  }

  lemma FinishedMoves(s: Sys, token: Id, f: Finish, jitter: Time, id: Id)
    requires token in s.workers && Settles(f)
    ensures var b' := Finished(s, token, f, jitter).ctl.biz;
      && b'.jobs.Keys == s.ctl.biz.jobs.Keys
      && (id in s.ctl.biz.jobs ==>
          || b'.jobs[id] == s.ctl.biz.jobs[id]
          || (Holding(s.ctl.biz, id, token) && SettledRow(s.ctl.biz.jobs[id], b'.jobs[id])))
  {
    if id in s.ctl.biz.jobs { RowSettles(s.ctl.biz.jobs[id], f, jitter, s.now); }
    hide FinishedJob, SettledRow, Capped, CategoryOf;
  }

  lemma ClaimMoves(s: Sys, e: System.Event, id: Id)
    requires e.Claim?
    ensures var jobs' := DoClaim(s, e.id, e.token, e.lease, e.locked).ctl.biz.jobs;
      id in jobs' ==> Moved(s, e, id, jobs'[id])
  {
    ClaimDecision(s.ctl.biz, e.locked, e.id, s.now);
    hide Next, FirstDue;
  }

  lemma DeferMoves(s: Sys, e: System.Event, id: Id)
    requires e.Defer?
    ensures var jobs' := DoDefer(s, e.token).ctl.biz.jobs;
      id in jobs' ==> Moved(s, e, id, jobs'[id])
  {
  }

  lemma PrepareMoves(s: Sys, e: System.Event, id: Id)
    requires e.Prepare?
    ensures var jobs' := DoPrepare(s, e.token).ctl.biz.jobs;
      id in jobs' ==> Moved(s, e, id, jobs'[id])
  {
  }

  lemma FinishingMoves(s: Sys, e: System.Event, id: Id)
    requires (e.Settle? || e.Misroute?) && id in Act(s, e).ctl.biz.jobs
    ensures Moved(s, e, id, Act(s, e).ctl.biz.jobs[id])
  {
    hide Act, SettledRow;
    var f := FinishingStep(s, e);
    if f.Some? { FinishedMoves(s, e.token, f.value, e.jitter, id); }
  }

  lemma PassiveMoves(s: Sys, e: System.Event, id: Id)
    requires (e.Get? || e.Send? || e.Crash? || OfNetwork(e) || Aside(e)) && id in Act(s, e).ctl.biz.jobs
    ensures Moved(s, e, id, Act(s, e).ctl.biz.jobs[id])
  {
    hide Act;
    if OfWorker(e) { PassiveStep(s, e); } else { StepWrites(s, e); }
  }

  lemma CommandMoves(s: Sys, e: System.Event, id: Id)
    requires OfService(e) && !e.Resolve? && id in Act(s, e).ctl.biz.jobs
    ensures Moved(s, e, id, Act(s, e).ctl.biz.jobs[id])
  {
    hide Act;
    ServiceStep(s, e);
  }

  lemma ResolveMoves(s: Sys, e: System.Event, id: Id)
    requires e.Resolve?
    ensures var jobs' := ServiceOutcome(s, e).jobs;
      id in jobs' ==> Moved(s, e, id, jobs'[id])
  {
    NoLease(s, e, id);
    ResolveRequeues(s.ctl.cfg, s.ctl.biz, e.index, e.disposition, s.now, id);
    hide ResolveTx, After, SettledRow, SameLease, Holding, Claims, Defers;
  }

  lemma ResolveRequeues(cfg: Config, b: Business, index: nat, disposition: Disposition, now: Time, id: Id)
    ensures var tx := ResolveTx(cfg, b, index, disposition, now);
      var jobs' := After(b, tx).jobs;
      && jobs'.Keys == b.jobs.Keys
      && (id in b.jobs ==>
            if tx.Commit? && disposition == Requeue && index < |b.exceptions| && b.exceptions[index].subject == OfRow(id) then
              b.jobs[id].status == Dead && jobs'[id] == b.jobs[id].(status := Retry, attempts := 0, availableAt := now)
            else jobs'[id] == b.jobs[id])
  {
    hide CapacityTx.Readmissible;
  }

  lemma NoLease(s: Sys, e: System.Event, id: Id)
    requires e.Resolve?
    ensures !Claims(s, e, id) && !Defers(s, e, id)
  {
  }

  lemma OperatorMoves(s: Sys, e: System.Event, id: Id)
    requires e.Resolve? && id in Act(s, e).ctl.biz.jobs
    ensures Moved(s, e, id, Act(s, e).ctl.biz.jobs[id])
  {
    hide Act, Moved;
    ServiceActs(s, e);
    ResolveMoves(s, e, id);
  }

  lemma LeaseMoves(s: Sys, e: System.Event, id: Id)
    requires (e.Claim? || e.Defer? || e.Prepare?) && id in Act(s, e).ctl.biz.jobs
    ensures Moved(s, e, id, Act(s, e).ctl.biz.jobs[id])
  {
    hide DoClaim, DoDefer, DoPrepare, Moved;
    if e.Claim? { ClaimMoves(s, e, id); } else if e.Defer? { DeferMoves(s, e, id); } else { PrepareMoves(s, e, id); }
  }

  /** Everything that one step can do to one job row. */
  lemma JobMoves(s: Sys, e: System.Event, id: Id)
    requires id in Act(s, e).ctl.biz.jobs
    ensures Moved(s, e, id, Act(s, e).ctl.biz.jobs[id])
  {
    hide Act, Moved;
    if e.Settle? || e.Misroute? { FinishingMoves(s, e, id); }
    else if e.Claim? || e.Defer? || e.Prepare? { LeaseMoves(s, e, id); }
    else if e.Resolve? { OperatorMoves(s, e, id); }
    else if OfService(e) { CommandMoves(s, e, id); }
    else { PassiveMoves(s, e, id); }
  }

  // ----- conservation of attempts -----

  /** What happened to a job since it was created or last requeued. */
  datatype Tally = Tally(claims: int, deferrals: int, reclaims: int)

  ghost function Count(s: Sys, e: System.Event, id: Id, tally: Tally): Tally {
    if Claims(s, e, id) then
      tally.(claims := tally.claims + 1,
             reclaims := tally.reclaims + if s.ctl.biz.jobs[id].status == Leased then 1 else 0)
    else if Defers(s, e, id) then tally.(deferrals := tally.deferrals + 1)
    else if Requeues(s, e, id) then Tally(0, 0, 0)
    else tally
  }

  ghost function TallyOf(s: Sys, es: seq<Timed>, id: Id): Tally {
    if es == [] then Tally(0, 0, 0)
    else
      var init, last := es[..|es| - 1], es[|es| - 1];
      Count(Run(s, init).(now := last.at), last.event, id, TallyOf(s, init, id))
  }

  predicate Balanced(b: Business, id: Id, tally: Tally) {
    && tally.reclaims >= 0
    && if id !in b.jobs then tally == Tally(0, 0, 0)
       else
         var job := b.jobs[id];
         && job.attempts == tally.claims - tally.deferrals >= 0
         && (job.status !in {Ready, Retry} ==> 1 <= job.attempts)
         && job.attempts <= 4 + tally.reclaims
         && (job.status in {Ready, Retry} ==> job.attempts < 4 + tally.reclaims)
  }

  lemma MovedBalance(s: Sys, e: System.Event, id: Id, b': Business, tally: Tally)
    requires Balanced(s.ctl.biz, id, tally)
    requires id in b'.jobs ==> Moved(s, e, id, b'.jobs[id])
    requires id in s.ctl.biz.jobs ==> id in b'.jobs
    ensures Balanced(b', id, Count(s, e, id, tally))
  {
  }

  lemma StepBalance(s: Sys, e: System.Event, id: Id, tally: Tally)
    requires Local(s.ctl.cfg, s.ctl.biz) && Balanced(s.ctl.biz, id, tally)
    ensures Balanced(Act(s, e).ctl.biz, id, Count(s, e, id, tally))
  {
    hide Act, Balanced, Moved, Count, Local;
    if id in Act(s, e).ctl.biz.jobs { JobMoves(s, e, id); }
    ActKeepsIntents(s, e);
    MovedBalance(s, e, id, Act(s, e).ctl.biz, tally);
  }

  /** Conservation: the attempts of a job are its claims less its deferrals, never negative; they
      exceed the budget of four only by the number of expired leases that were claimed again; a
      job that may still be claimed is within that budget. */
  lemma {:induction false} AttemptsAreConserved(cfg: Config, policy: Hash, start: Time, es: seq<Timed>, id: Id)
    ensures Balanced(From(cfg, policy, start, es).ctl.biz, id, TallyOf(Init(cfg, policy, start), es, id))
  {
    if es != [] {
      var init, last := es[..|es| - 1], es[|es| - 1];
      hide Act, Balanced, Count, Local;
      AttemptsAreConserved(cfg, policy, start, init, id);
      FromSound(cfg, policy, start, init);
      StepBalance(From(cfg, policy, start, init).(now := last.at), last.event, id, TallyOf(Init(cfg, policy, start), init, id));
    } else {
      assert id !in From(cfg, policy, start, es).ctl.biz.jobs;
    }
  }

  ghost predicate OnlyByReclaim(b: Business, id: Id)
    requires id in b.jobs
  {
    forall now :: Due(b, id, now) ==> b.jobs[id].status == Leased && b.jobs[id].leaseUntil.Some? && b.jobs[id].leaseUntil.value <= now
  }

  /** Without reclaims and deferrals a job is claimed at most four times.  After the fourth it is
      neither ready nor waiting for a retry: the one way left to claim it again is to reclaim its lease
      after it expires. */
  lemma FourClaims(cfg: Config, policy: Hash, start: Time, es: seq<Timed>, id: Id)
    requires id in From(cfg, policy, start, es).ctl.biz.jobs
    requires var t := TallyOf(Init(cfg, policy, start), es, id); t.reclaims == 0 && t.deferrals == 0
    ensures TallyOf(Init(cfg, policy, start), es, id).claims <= 4
    ensures TallyOf(Init(cfg, policy, start), es, id).claims == 4 ==>
      From(cfg, policy, start, es).ctl.biz.jobs[id].status !in {Ready, Retry}
    ensures TallyOf(Init(cfg, policy, start), es, id).claims == 4 ==>
      OnlyByReclaim(From(cfg, policy, start, es).ctl.biz, id)
  {
    hide Run;
    AttemptsAreConserved(cfg, policy, start, es, id);
  }

  /** How often a job was claimed in all, as the audit trail counts it. */
  ghost function ClaimsOf(s: Sys, es: seq<Timed>, id: Id): int {
    if es == [] then 0
    else
      var init, last := es[..|es| - 1], es[|es| - 1];
      ClaimsOf(s, init, id) + if Claims(Run(s, init).(now := last.at), last.event, id) then 1 else 0
  }

  lemma {:induction false} TallyWithinClaims(s: Sys, es: seq<Timed>, id: Id)
    ensures 0 <= TallyOf(s, es, id).claims <= ClaimsOf(s, es, id) && 0 <= TallyOf(s, es, id).deferrals
  {
    if es != [] {
      hide Claims, Defers, Requeues;
      TallyWithinClaims(s, es[..|es| - 1], id);
    }
  }

  /** The audit trail never shows fewer claims than a job has attempts, and a job that is over has
      been attempted. */
  lemma ClaimsCoverAttempts(cfg: Config, policy: Hash, start: Time, es: seq<Timed>, id: Id)
    requires id in From(cfg, policy, start, es).ctl.biz.jobs
    ensures var job := From(cfg, policy, start, es).ctl.biz.jobs[id];
      && job.attempts <= ClaimsOf(Init(cfg, policy, start), es, id)
      && (job.status in {Succeeded, Blocked, Dead} ==> 1 <= job.attempts)
  {
    hide Run, TallyOf;
    AttemptsAreConserved(cfg, policy, start, es, id);
    TallyWithinClaims(Init(cfg, policy, start), es, id);
  }

  // ----- success is final -----

  lemma ActKeepsSuccess(s: Sys, e: System.Event, id: Id)
    requires Local(s.ctl.cfg, s.ctl.biz) && id in s.ctl.biz.jobs && s.ctl.biz.jobs[id].status == Succeeded
    ensures var jobs' := Act(s, e).ctl.biz.jobs; id in jobs' && jobs'[id] == s.ctl.biz.jobs[id]
  {
    hide Act, Local;
    ActKeepsIntents(s, e);
    JobMoves(s, e, id);
  }

  /** A job that has succeeded never changes again. */
  lemma {:induction false} SuccessIsFinal(s: Sys, es: seq<Timed>, id: Id)
    requires Local(s.ctl.cfg, s.ctl.biz) && id in s.ctl.biz.jobs && s.ctl.biz.jobs[id].status == Succeeded
    ensures var jobs' := Run(s, es).ctl.biz.jobs; id in jobs' && jobs'[id] == s.ctl.biz.jobs[id]
  {
    if es != [] {
      var init, last := es[..|es| - 1], es[|es| - 1];
      hide Act, Local;
      SuccessIsFinal(s, init, id);
      RunKeepsLocal(s, init);
      ActKeepsSuccess(Run(s, init).(now := last.at), last.event, id);
    }
  }

  // ----- fencing -----

  /** Leases in force were handed out, each to one job. */
  ghost predicate OwnLeases(b: Business, used: set<Id>) {
    && (forall id <- b.jobs | b.jobs[id].leaseToken.Some? :: b.jobs[id].leaseToken.value in used)
    && (forall i, j | i in b.jobs && j in b.jobs && b.jobs[i].leaseToken.Some?
                      && b.jobs[i].leaseToken == b.jobs[j].leaseToken :: i == j)
  }

  /** The lease has been handed out and nobody holds it any more. */
  ghost predicate Spent(b: Business, used: set<Id>, token: Id) {
    token in used && forall id <- b.jobs :: b.jobs[id].leaseToken != Some(token)
  }

  lemma WhoGetsLease(s: Sys, e: System.Event, id: Id)
    requires id in Act(s, e).ctl.biz.jobs
    ensures var lease := Act(s, e).ctl.biz.jobs[id].leaseToken;
      || lease == None
      || (id in s.ctl.biz.jobs && s.ctl.biz.jobs[id].leaseToken == lease)
      || (Claims(s, e, id) && lease == Some(e.token) && e.token !in s.used)
  {
    JobMoves(s, e, id);
    hide Act, FirstDue;
  }

  lemma UsedGrows(s: Sys, e: System.Event)
    ensures s.used <= Act(s, e).used
    ensures forall id | Claims(s, e, id) :: e.token in Act(s, e).used
  {
    hide FirstDue, Next;
    if e.Settle? { assert DoSettle(s, e.token, e.answer, e.jitter).used == s.used; }
    else if e.Claim? { ClaimDecision(s.ctl.biz, e.locked, e.id, s.now); }
  }

  lemma ActOwnLeases(s: Sys, e: System.Event)
    requires OwnLeases(s.ctl.biz, s.used)
    ensures OwnLeases(Act(s, e).ctl.biz, Act(s, e).used)
  {
    hide Act, Claims;
    var jobs' := Act(s, e).ctl.biz.jobs;
    UsedGrows(s, e);
    forall id <- jobs' | jobs'[id].leaseToken.Some? ensures jobs'[id].leaseToken.value in Act(s, e).used { WhoGetsLease(s, e, id); }
    forall i, j | i in jobs' && j in jobs' && jobs'[i].leaseToken.Some? && jobs'[i].leaseToken == jobs'[j].leaseToken
      ensures i == j
    {
      WhoGetsLease(s, e, i);
      WhoGetsLease(s, e, j);
      OneClaim(s, e, i, j);
    }
  }

  lemma OneClaim(s: Sys, e: System.Event, i: Id, j: Id)
    ensures Claims(s, e, i) && Claims(s, e, j) ==> i == j
  {
    hide FirstDue;
  }

  lemma ActKeepsSpent(s: Sys, e: System.Event, token: Id)
    requires Spent(s.ctl.biz, s.used, token)
    ensures Spent(Act(s, e).ctl.biz, Act(s, e).used, token)
  {
    hide Act, Claims;
    UsedGrows(s, e);
    forall id <- Act(s, e).ctl.biz.jobs ensures Act(s, e).ctl.biz.jobs[id].leaseToken != Some(token) { WhoGetsLease(s, e, id); }
  }

  /** The step settles or defers on behalf of the lease, and that takes effect. */
  ghost predicate Effective(s: Sys, t: Timed, token: Id) {
    && (t.event.Settle? || t.event.Misroute? || t.event.Defer?) && t.event.token == token
    && Step(s, t).ctl.biz.jobs != s.ctl.biz.jobs
  }

  lemma EffectiveSpends(s: Sys, t: Timed, token: Id)
    requires OwnLeases(s.ctl.biz, s.used) && Effective(s, t, token)
    ensures !Spent(s.ctl.biz, s.used, token) && Spent(Step(s, t).ctl.biz, Step(s, t).used, token)
  {
    var s1, jobs, jobs' := s.(now := t.at), s.ctl.biz.jobs, Step(s, t).ctl.biz.jobs;
    WorkerKeepsKeys(s1, t.event);
    hide Act, OwnLeases, Moved;
    var id :| id in jobs && jobs'[id] != jobs[id];
    SettledWasHeld(s1, t.event, id);
    OnlyHolder(s, id, id);
    UsedGrows(s1, t.event);
    forall other <- jobs' ensures jobs'[other].leaseToken != Some(token) {
      OnlyHolder(s, id, other);
      SettledWasHeld(s1, t.event, other);
    }
  }

  /** A settlement or deferral changes only the job that is held, and ends its lease. */
  lemma SettledWasHeld(s: Sys, e: System.Event, id: Id)
    requires (e.Settle? || e.Misroute? || e.Defer?) && id in s.ctl.biz.jobs && id in Act(s, e).ctl.biz.jobs
    ensures var job, job' := s.ctl.biz.jobs[id], Act(s, e).ctl.biz.jobs[id];
      || job' == job
      || (job.leaseToken == Some(e.token) && job'.leaseToken == None)
  {
    JobMoves(s, e, id);
    hide Act;
  }

  lemma OnlyHolder(s: Sys, id: Id, other: Id)
    requires OwnLeases(s.ctl.biz, s.used) && id in s.ctl.biz.jobs && s.ctl.biz.jobs[id].leaseToken.Some?
    ensures s.ctl.biz.jobs[id].leaseToken.value in s.used
    ensures other in s.ctl.biz.jobs && s.ctl.biz.jobs[other].leaseToken == s.ctl.biz.jobs[id].leaseToken ==> other == id
  {
  }

  lemma WorkerKeepsKeys(s: Sys, e: System.Event)
    requires e.Settle? || e.Misroute? || e.Defer?
    ensures Act(s, e).ctl.biz.jobs.Keys == s.ctl.biz.jobs.Keys
  {
    if !e.Defer? {
      hide Act;
      var f := FinishingStep(s, e);
      if f.Some? { FinishedMoves(s, e.token, f.value, e.jitter, 0); }
    }
  }

  lemma {:induction false} RunOwnLeases(s: Sys, es: seq<Timed>)
    requires OwnLeases(s.ctl.biz, s.used)
    ensures OwnLeases(Run(s, es).ctl.biz, Run(s, es).used)
  {
    if es != [] {
      hide Act, OwnLeases;
      RunOwnLeases(s, es[..|es| - 1]);
      ActOwnLeases(Run(s, es[..|es| - 1]).(now := es[|es| - 1].at), es[|es| - 1].event);
    }
  }

  lemma {:induction false} RunKeepsSpent(s: Sys, es: seq<Timed>, token: Id)
    requires Spent(s.ctl.biz, s.used, token)
    ensures Spent(Run(s, es).ctl.biz, Run(s, es).used, token)
  {
    if es != [] {
      hide Act, Spent;
      RunKeepsSpent(s, es[..|es| - 1], token);
      ActKeepsSpent(Run(s, es[..|es| - 1]).(now := es[|es| - 1].at), es[|es| - 1].event, token);
    }
  }

  lemma SpentInBetween(init: Sys, es: seq<Timed>, i: nat, j: nat, token: Id)
    requires i < j <= |es| && Spent(Run(init, es[..i + 1]).ctl.biz, Run(init, es[..i + 1]).used, token)
    ensures Spent(Run(init, es[..j]).ctl.biz, Run(init, es[..j]).used, token)
  {
    hide Run, Spent;
    assert es[..j] == es[..i + 1] + es[i + 1..j];
    RunConcat(init, es[..i + 1], es[i + 1..j]);
    RunKeepsSpent(Run(init, es[..i + 1]), es[i + 1..j], token);
  }

  /** Fencing: a lease is settled or deferred with effect at most once in a run. */
  lemma OneResolutionPerLease(cfg: Config, policy: Hash, start: Time, es: seq<Timed>, i: nat, j: nat, token: Id)
    requires i < j < |es| && Effective(From(cfg, policy, start, es[..i]), es[i], token)
    ensures !Effective(From(cfg, policy, start, es[..j]), es[j], token)
  {
    var init := Init(cfg, policy, start);
    RunOwnLeases(init, es[..i]);
    RunOwnLeases(init, es[..j]);
    hide Run, Act, OwnLeases, Spent, Effective, Step;
    EffectiveSpends(Run(init, es[..i]), es[i], token);
    RunNext(init, es, i);
    SpentInBetween(init, es, i, j, token);
    if Effective(Run(init, es[..j]), es[j], token) { EffectiveSpends(Run(init, es[..j]), es[j], token); }
  }

  // ----- retries and dead letters -----

  /** Whatever a retry waits for, it waits at least a second and at most five minutes, plus jitter. */
  lemma RetryIsDelayed(digest: Doc -> Hash, mutation: Mutation, answer: Answer, job: JobRow, jitter: Time, now: Time)
    requires 0 <= job.attempts && 0 <= jitter <= 1_000_000
    requires AfterPost(digest, mutation, answer).status == Retry
    ensures var due := FinishedJob(job, AfterPost(digest, mutation, answer), jitter, now).availableAt;
      now + 1_000_000 <= due <= now + 300_000_000 + jitter
  {
    BackoffMeaning(job.attempts);
    if job.attempts > 0 { assert PowerOfTwo(job.attempts) >= 1; }
  }

  // ----- nothing is claimed before it is due -----

  /** The job is waiting, and not due before `due`. */
  predicate WaitsUntil(b: Business, id: Id, due: Time) {
    id in b.jobs && b.jobs[id].status in {Ready, Retry} && due <= b.jobs[id].availableAt
  }

  lemma WaitingStays(s: Sys, e: System.Event, id: Id)
    requires Local(s.ctl.cfg, s.ctl.biz) && id in s.ctl.biz.jobs && WaitsUntil(s.ctl.biz, id, s.now + 1)
    ensures !Claims(s, e, id)
    ensures id in Act(s, e).ctl.biz.jobs && Act(s, e).ctl.biz.jobs[id] == s.ctl.biz.jobs[id]
  {
    NotFirst(s, e, id);
    hide Act, Local, Claims;
    ActKeepsIntents(s, e);
    JobMoves(s, e, id);
  }

  lemma NotFirst(s: Sys, e: System.Event, id: Id)
    requires WaitsUntil(s.ctl.biz, id, s.now + 1)
    ensures !Claims(s, e, id)
  {
  }

  lemma {:induction false} UntouchedBeforeDue(s: Sys, es: seq<Timed>, id: Id)
    requires Local(s.ctl.cfg, s.ctl.biz) && id in s.ctl.biz.jobs && s.ctl.biz.jobs[id].status in {Ready, Retry}
    requires forall e <- es :: e.at < s.ctl.biz.jobs[id].availableAt
    ensures id in Run(s, es).ctl.biz.jobs && Run(s, es).ctl.biz.jobs[id] == s.ctl.biz.jobs[id]
  {
    if es != [] {
      var init, last := es[..|es| - 1], es[|es| - 1];
      hide Act, Local;
      UntouchedBeforeDue(s, init, id);
      RunKeepsLocal(s, init);
      WaitingStays(Run(s, init).(now := last.at), last.event, id);
    }
  }

  /** A waiting job is left alone until it is due: no event before that claims it or changes it in any
      way, whatever the clock does. */
  lemma NotClaimedBeforeDue(s: Sys, es: seq<Timed>, id: Id, i: nat)
    requires Local(s.ctl.cfg, s.ctl.biz) && id in s.ctl.biz.jobs && s.ctl.biz.jobs[id].status in {Ready, Retry}
    requires i < |es| && forall e <- es :: e.at < s.ctl.biz.jobs[id].availableAt
    ensures var before := Run(s, es[..i]);
      id in before.ctl.biz.jobs && before.ctl.biz.jobs[id] == s.ctl.biz.jobs[id]
      && !Claims(before.(now := es[i].at), es[i].event, id)
  {
    UntouchedBeforeDue(s, es[..i], id);
    hide Run, Claims, Local;
    assert es[i].at < s.ctl.biz.jobs[id].availableAt;
    NotFirst(Run(s, es[..i]).(now := es[i].at), es[i].event, id);
  }

  lemma SettledDelay(s: Sys, token: Id, f: Finish, jitter: Time, id: Id)
    requires token in s.workers && Settles(f) && 0 <= jitter && id in s.ctl.biz.jobs && 0 <= s.ctl.biz.jobs[id].attempts
    ensures var jobs' := Finished(s, token, f, jitter).ctl.biz.jobs;
      id in jobs' && jobs'[id] != s.ctl.biz.jobs[id] ==> s.now + 1_000_000 <= jobs'[id].availableAt
  {
    RowDelay(s.ctl.biz.jobs[id], f, jitter, s.now);
    hide FinishedJob, Capped, CategoryOf;
  }

  lemma RowDelay(job: JobRow, f: Finish, jitter: Time, now: Time)
    requires Settles(f) && 0 <= jitter && 0 <= job.attempts
    ensures now + 1_000_000 <= FinishedJob(job, f, jitter, now).availableAt
  {
    BackoffMeaning(job.attempts);
    if job.attempts > 0 { assert PowerOfTwo(job.attempts) >= 1; }
  }

  /** The step ends a lease of the job and leaves it waiting for another attempt. */
  ghost predicate PutOff(s: Sys, t: Timed, id: Id) {
    && ((t.event.Settle? && 0 <= t.event.jitter) || t.event.Defer?)
    && id in s.ctl.biz.jobs && id in Step(s, t).ctl.biz.jobs
    && Step(s, t).ctl.biz.jobs[id] != s.ctl.biz.jobs[id] && Step(s, t).ctl.biz.jobs[id].status == Retry
  }

  lemma PutOffDue(s: Sys, t: Timed, id: Id)
    requires PutOff(s, t, id) && 0 <= s.ctl.biz.jobs[id].attempts
    ensures var due := Step(s, t).ctl.biz.jobs[id].availableAt;
      if t.event.Defer? then due == t.at + 100_000 else t.at + 1_000_000 <= due
  {
    var now := s.(now := t.at);
    JobMoves(now, t.event, id);
    hide Act;
    if t.event.Settle? {
      var f := FinishingStep(now, t.event);
      if f.Some? { SettledDelay(now, t.event.token, f.value, t.event.jitter, id); }
    }
  }

  /** A job that was settled as a retry, or deferred, is put off by at least a second, or by exactly a
      tenth of one, and no event claims it before it is due. */
  lemma RetriesWait(cfg: Config, policy: Hash, start: Time, es: seq<Timed>, t: Timed, later: seq<Timed>, id: Id, i: nat)
    requires PutOff(From(cfg, policy, start, es), t, id) && i < |later|
    requires forall e <- later :: e.at < Step(From(cfg, policy, start, es), t).ctl.biz.jobs[id].availableAt
    ensures var s' := Step(From(cfg, policy, start, es), t);
      && !Claims(Run(s', later[..i]).(now := later[i].at), later[i].event, id)
      && if t.event.Defer? then s'.ctl.biz.jobs[id].availableAt == t.at + 100_000
         else t.at + 1_000_000 <= s'.ctl.biz.jobs[id].availableAt
  {
    var s := From(cfg, policy, start, es);
    AttemptsAreConserved(cfg, policy, start, es, id);
    FromSound(cfg, policy, start, es);
    hide Run, From, Act, Claims, Local, Cross, TallyOf;
    PutOffDue(s, t, id);
    ActKeepsLocal(s.(now := t.at), t.event);
    NotClaimedBeforeDue(Step(s, t), later, id, i);
  }

  /** A dead letter raises an open exception.  If the retry budget was exhausted or the receiver
      rejected the request, an operator can requeue it, with the same intent and a new budget, as
      soon as the destination has room; an identity conflict cannot be requeued. */
  lemma DeadLetters(cfg: Config, b: Business, id: Id, token: Id, f: Finish, jitter: Time, now: Time, later: Time)
    requires Holds(b, id, token) && Capped(b.jobs[id], f).status == Dead
    ensures var b' := FinishTx(b, id, token, f, jitter, now);
      var tx := ResolveTx(cfg, b', |b.exceptions|, Requeue, later);
      if Capped(b.jobs[id], f).reason !in {RetryExhausted, RemoteRejected} then
        tx == Rollback(RequiresNewSourceEventOrProposal)
      else if !Readmissible(cfg, b', id, later) then tx == Rollback(DestinationOverloaded)
      else
        && tx.Commit? && tx.biz.jobs == b'.jobs[id := tx.biz.jobs[id]]
        && tx.biz.jobs[id] == b'.jobs[id].(status := Retry, attempts := 0, availableAt := later)
        && tx.biz.jobs[id].mutation == b.jobs[id].mutation
  {
    hide Overloaded, Backoff;
  }
}
