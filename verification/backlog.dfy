/** The backlog of a destination never exceeds its limit while the clock does not run backwards. */
module Backlogs {
  import opened Schema
  import opened ServiceTx
  import opened CapacityTx
  import opened WorkerTx
  import opened System
  import opened Steps
  import opened Intents
  import opened Footprints
  import opened Outbox
  import opened Runs
  import opened Commands

  predicate WithinLimit(cfg: Config, b: Business, destination: DestId, now: Time) {
    destination in cfg.destinations ==> |Backlog(b, destination, now)| <= cfg.destinations[destination].backlogLimit
  }

  ghost predicate Bounded(cfg: Config, b: Business, now: Time) {
    forall destination: DestId :: WithinLimit(cfg, b, destination, now)
  }

  lemma Fewer<T>(a: set<T>, b: set<T>)
    requires a <= b
    ensures |a| <= |b|
  {
    if a != {} {
      var x :| x in a;
      Fewer(a - {x}, b - {x});
    }
  }

  // ----- elementary changes -----

  /** Nothing that is pending and routed now was not so before. */
  predicate NoNewPending(b: Business, b': Business, now: Time, now': Time) {
    forall id <- b'.routes | Pending(b', id, now') :: id in b.routes && b.routes[id] == b'.routes[id] && Pending(b, id, now)
  }

  lemma Shrinks(cfg: Config, b: Business, b': Business, now: Time, now': Time)
    requires Bounded(cfg, b, now) && NoNewPending(b, b', now, now')
    ensures Bounded(cfg, b', now')
  {
    forall destination: DestId ensures WithinLimit(cfg, b', destination, now') {
      assert WithinLimit(cfg, b, destination, now);
      Fewer(Backlog(b', destination, now'), Backlog(b, destination, now));
    }
  }

  /** One more pending item, in a destination that was checked not to be full. */
  predicate OneNewPending(cfg: Config, b: Business, b': Business, id: Id, now: Time) {
    && id in b'.routes && !Overloaded(cfg, b, b'.routes[id], now)
    && forall other <- b'.routes | other != id && Pending(b', other, now) ::
         other in b.routes && b.routes[other] == b'.routes[other] && Pending(b, other, now)
  }

  lemma GrowsByOne(cfg: Config, b: Business, b': Business, id: Id, now: Time)
    requires Bounded(cfg, b, now) && OneNewPending(cfg, b, b', id, now)
    ensures Bounded(cfg, b', now)
  {
    forall destination: DestId ensures WithinLimit(cfg, b', destination, now) {
      assert WithinLimit(cfg, b, destination, now);
      var before, after := Backlog(b, destination, now), Backlog(b', destination, now);
      if destination == b'.routes[id] {
        Fewer(after, before + {id});
        assert |before + {id}| <= |before| + 1;
      } else {
        Fewer(after, before);
      }
    }
  }

  // ----- each kind of step -----

  predicate Waiting(job: JobRow) { job.status in {Ready, Retry, Leased} }

  ghost predicate WakesNone(b: Business, b': Business) {
    && b'.proposals == b.proposals && b'.routes == b.routes && b'.jobs.Keys == b.jobs.Keys
    && forall id <- b.jobs :: Waiting(b'.jobs[id]) ==> Waiting(b.jobs[id])
  }

  lemma FinishedWakesNone(s: Sys, token: Id, f: Finish, jitter: Time)
    requires token in s.workers
    ensures WakesNone(s.ctl.biz, Finished(s, token, f, jitter).ctl.biz)
  {
    hide Backoff, Capped, CategoryOf, FinishedJob;
    var b, id := s.ctl.biz, s.workers[token].id;
    if Holds(b, id, token) {
      var jobs' := Finished(s, token, f, jitter).ctl.biz.jobs;
      assert jobs' == b.jobs[id := FinishedJob(b.jobs[id], f, jitter, s.now)];
    } else {
      assert Finished(s, token, f, jitter).ctl.biz == b;
    }
  }

  lemma LeaseWakesNone(s: Sys, e: System.Event)
    requires e.Claim? || e.Prepare? || e.Defer?
    ensures WakesNone(s.ctl.biz, Act(s, e).ctl.biz)
  {
    hide DoClaim, DoPrepare, DoDefer, WakesNone;
    if e.Claim? { ClaimWakesNone(s, e.id, e.token, e.lease, e.locked); }
    else if e.Prepare? { PrepareWakesNone(s, e.token); }
    else { DeferWakesNone(s, e.token); }
  }

  lemma ClaimWakesNone(s: Sys, id: Id, token: Id, lease: Time, locked: set<Id>)
    ensures WakesNone(s.ctl.biz, DoClaim(s, id, token, lease, locked).ctl.biz)
  {
    hide Next;
    if Next(s.ctl.biz, locked, id, s.now) { NextIsWaiting(s.ctl.biz, locked, id, s.now); }
  }

  lemma PrepareWakesNone(s: Sys, token: Id)
    ensures WakesNone(s.ctl.biz, DoPrepare(s, token).ctl.biz)
  {
    hide Preparation;
    if token in s.workers {
      AuthorisedIsLeased(s.ctl.policy, IsOpen(s), s.ctl.biz, s.workers[token].id, token, s.now);
    }
  }

  lemma DeferWakesNone(s: Sys, token: Id)
    ensures WakesNone(s.ctl.biz, DoDefer(s, token).ctl.biz)
  {
  }

  lemma AuthorisedIsLeased(policy: Hash, open: bool, b: Business, id: Id, token: Id, now: Time)
    ensures Preparation(policy, open, b, id, token, now).Authorized? ==> Holds(b, id, token)
  {
  }

  lemma NextIsWaiting(b: Business, locked: set<Id>, id: Id, now: Time)
    requires Next(b, locked, id, now)
    ensures id in b.jobs && Waiting(b.jobs[id])
  {
  }

  lemma WorkerWakesNone(s: Sys, e: System.Event)
    requires OfWorker(e)
    ensures WakesNone(s.ctl.biz, Act(s, e).ctl.biz)
  {
    hide Act, WakesNone;
    if e.Settle? || e.Misroute? {
      var f := FinishingStep(s, e);
      if f.Some? { FinishedWakesNone(s, e.token, f.value, e.jitter); } else { SameWakesNone(s.ctl.biz); }
    } else if e.Claim? || e.Prepare? || e.Defer? {
      LeaseWakesNone(s, e);
    } else {
      PassiveStep(s, e);
      SameWakesNone(s.ctl.biz);
    }
  }

  lemma SameWakesNone(b: Business)
    ensures WakesNone(b, b)
  {
  }

  lemma WakesNoneShrinks(cfg: Config, b: Business, b': Business, now: Time)
    requires Bounded(cfg, b, now) && WakesNone(b, b')
    ensures Bounded(cfg, b', now)
  {
    Shrinks(cfg, b, b', now, now);
  }

  lemma ProposalBound(cfg: Config, b: Business, b': Business, id: Id, now: Time)
    requires Local(cfg, b) && Bounded(cfg, b, now) && OneProposal(cfg, b, b', id, now)
    ensures Bounded(cfg, b', now)
  {
    if b'.routes == b.routes { Shrinks(cfg, b, b', now, now); } else { GrowsByOne(cfg, b, b', id, now); }
  }

  lemma ApprovalBound(cfg: Config, b: Business, b': Business, actor: string, id: Id, now: Time)
    requires Bounded(cfg, b, now) && OneApproval(b, b', actor, id, now)
    ensures Bounded(cfg, b', now)
  {
    Shrinks(cfg, b, b', now, now);
  }

  lemma RequeueBound(cfg: Config, b: Business, b': Business, id: Id, now: Time)
    requires Bounded(cfg, b, now) && OneRequeue(cfg, b, b', id, now)
    ensures Bounded(cfg, b', now)
  {
    if id in b.routes { GrowsByOne(cfg, b, b', id, now); } else { Shrinks(cfg, b, b', now, now); }
  }

  lemma SameWorkBound(cfg: Config, b: Business, b': Business, now: Time)
    requires Bounded(cfg, b, now) && SameWork(b, b')
    ensures Bounded(cfg, b', now)
  {
    Shrinks(cfg, b, b', now, now);
  }

  lemma ServiceBound(s: Sys, e: System.Event)
    requires Local(s.ctl.cfg, s.ctl.biz) && Bounded(s.ctl.cfg, s.ctl.biz, s.now) && OfService(e)
    ensures Bounded(s.ctl.cfg, Act(s, e).ctl.biz, s.now)
  {
    var cfg, b, b' := s.ctl.cfg, s.ctl.biz, Act(s, e).ctl.biz;
    hide Act, Local, Bounded, OneProposal, OneApproval, OneRequeue;
    ServiceStep(s, e);
    if SameWork(b, b') {
      SameWorkBound(cfg, b, b', s.now);
    } else if e.Propose? {
      ProposalBound(cfg, b, b', e.command.requestId, s.now);
    } else if e.Approve? {
      ApprovalBound(cfg, b, b', e.actor, e.proposal, s.now);
    } else {
      RequeueBound(cfg, b, b', b.exceptions[e.index].subject.id, s.now);
    }
  }

  lemma ActBound(s: Sys, e: System.Event)
    requires Local(s.ctl.cfg, s.ctl.biz) && Bounded(s.ctl.cfg, s.ctl.biz, s.now)
    ensures Bounded(s.ctl.cfg, Act(s, e).ctl.biz, s.now)
  {
    hide Act, Bounded, Local;
    if OfWorker(e) {
      WorkerWakesNone(s, e);
      WakesNoneShrinks(s.ctl.cfg, s.ctl.biz, Act(s, e).ctl.biz, s.now);
    } else if OfService(e) {
      ServiceBound(s, e);
    } else if OfNetwork(e) {
      NetworkKeepsControl(s, e);
    } else {
      AsideKeepsJobs(s, e);
      SameWorkBound(s.ctl.cfg, s.ctl.biz, Act(s, e).ctl.biz, s.now);
    }
  }

  lemma ClockBound(cfg: Config, b: Business, now: Time, later: Time)
    requires Bounded(cfg, b, now) && now <= later
    ensures Bounded(cfg, b, later)
  {
    Shrinks(cfg, b, b, now, later);
  }

  /** Whatever is proposed, approved, claimed, settled, deferred, expired or requeued: with a clock
      that does not run backwards, the pending items of a destination never exceed its limit. */
  lemma {:induction false} BacklogBound(s: Sys, es: seq<Timed>)
    requires Local(s.ctl.cfg, s.ctl.biz) && Bounded(s.ctl.cfg, s.ctl.biz, s.now) && Monotone(s.now, es)
    ensures var s' := Run(s, es); s'.ctl.cfg == s.ctl.cfg && s.now <= s'.now && Bounded(s.ctl.cfg, s'.ctl.biz, s'.now)
  {
    hide Local, Bounded, Act;
    RunKeepsLocal(s, es);
    RunClock(s, es);
    if es != [] {
      var init, last := es[..|es| - 1], es[|es| - 1];
      BacklogBound(s, init);
      RunKeepsLocal(s, init);
      RunClock(s, init);
      var r := Run(s, init);
      assert r.now <= last.at;
      ClockBound(s.ctl.cfg, r.ctl.biz, r.now, last.at);
      ActBound(r.(now := last.at), last.event);
      ActClock(r.(now := last.at), last.event);
    }
  }

  lemma EmptyBounded(cfg: Config, policy: Hash, start: Time)
    requires ValidConfig(cfg)
    ensures Bounded(cfg, Init(cfg, policy, start).ctl.biz, start) && Local(cfg, Init(cfg, policy, start).ctl.biz)
  {
    forall destination: DestId ensures WithinLimit(cfg, NO_BUSINESS, destination, start) {
      assert Backlog(NO_BUSINESS, destination, start) == {};
    }
  }

  /** The bound holds in every state that a system which started empty can reach. */
  lemma BacklogBoundFromEmpty(cfg: Config, policy: Hash, start: Time, es: seq<Timed>, destination: DestId)
    requires ValidConfig(cfg) && Monotone(start, es) && destination in cfg.destinations
    ensures var s := From(cfg, policy, start, es);
      |PendingAt(s.ctl.biz, destination, s.now)| <= cfg.destinations[destination].backlogLimit
  {
    BacklogMeaning(From(cfg, policy, start, es).ctl.biz, destination, From(cfg, policy, start, es).now);
    EmptyBounded(cfg, policy, start);
    BacklogBound(Init(cfg, policy, start), es);
    assert WithinLimit(cfg, From(cfg, policy, start, es).ctl.biz, destination, From(cfg, policy, start, es).now);
  }
}
