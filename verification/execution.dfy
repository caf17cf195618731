/** The course of one execution: from claim to settlement, which steps may follow which, and what that
    guarantees before anything is sent again. */
module Execution {
  import opened Schema
  import opened Policy
  import opened ServiceTx
  import opened CapacityTx
  import opened Receiver
  import opened WorkerTx
  import opened System
  import opened Steps
  import opened Intents
  import opened Footprints
  import opened Outbox
  import opened Runs
  import opened Decisions

  // ----- one step -----

  /** The route can be served: a registered one, or none while no destination is registered. */
  predicate Routable(s: Sys, id: Id) { id in s.ctl.biz.routes || s.ctl.cfg.destinations == map[] }

  /** The receiver of the job has no effect under its key. */
  predicate NotThere(s: Sys, id: Id) {
    var lane := if id in s.ctl.biz.routes then Routed(s.ctl.biz.routes[id]) else Legacy;
    lane in s.ledgers ==> id !in s.ledgers[lane].effects
  }

  /** Certain that nothing was sent before, or told by the receiver that nothing arrived. */
  predicate MaySend(s: Sys, w: Worker) {
    || (w.phase.Claimed? && !w.snapshot.uncertain && Routable(s, w.id))
    || (w.phase.LookedUp? && NotFound404(w.phase.answer))
  }

  predicate NotFound404(answer: Answer) { answer.Status? && answer.code == 404 }

  /** How worker `t` gets from one phase to the next: a receipt is looked up exactly when the outcome of an
      earlier attempt is unknown, and only the receiver's own 404 lets such a job go on. */
  predicate Advances(s: Sys, e: System.Event, t: Id, w: Worker, w': Worker) {
    && w'.id == w.id && w'.snapshot == w.snapshot
    && match w'.phase
       case Claimed => false
       case LookedUp(answer) =>
         && e.Get? && e.token == t && w.phase.Claimed? && w.snapshot.uncertain && Routable(s, w.id)
         && (NotFound404(answer) ==> e.front == None && NotThere(s, w.id))
       case Refusal(_) => e.Prepare? && e.token == t && MaySend(s, w)
       case Cleared(_) => e.Prepare? && e.token == t && MaySend(s, w)
       case Posted(m) => e.Send? && e.token == t && w.phase == Cleared(m)
  }

  lemma GetAdvances(s: Sys, token: Id, front: Option<Answer>)
    ensures var s' := DoGet(s, token, front);
      && s'.workers.Keys == s.workers.Keys
      && forall t <- s.workers :: s'.workers[t] == s.workers[t] || Advances(s, Get(token, front), t, s.workers[t], s'.workers[t])
  {
  }

  lemma PrepareAdvances(s: Sys, token: Id)
    ensures var s' := DoPrepare(s, token);
      forall t <- s'.workers :: t in s.workers
        && (s'.workers[t] == s.workers[t] || Advances(s, Prepare(token), t, s.workers[t], s'.workers[t]))
  {
    hide Preparation, PrepareTx;
  }

  lemma SendAdvances(s: Sys, token: Id)
    ensures var s' := DoSend(s, token);
      forall t <- s'.workers :: t in s.workers
        && (s'.workers[t] == s.workers[t] || Advances(s, Send(token), t, s.workers[t], s'.workers[t]))
  {
  }

  lemma FewerWorkers(s: Sys, e: System.Event)
    requires e.Settle? || e.Misroute? || e.Defer? || e.Crash?
    ensures forall t <- Act(s, e).workers :: t in s.workers && Act(s, e).workers[t] == s.workers[t]
  {
    if e.Settle? || e.Misroute? {
      hide Act, FinishTx;
      var f := FinishingStep(s, e);
    } else {
      hide DeferTx;
    }
  }

  lemma ClaimAdds(s: Sys, id: Id, token: Id, lease: Time, locked: set<Id>)
    ensures var s' := DoClaim(s, id, token, lease, locked);
      forall t <- s'.workers :: (t in s.workers && s'.workers[t] == s.workers[t]) || s'.workers[t].phase == Claimed
  {
    hide Next;
  }

  /** Every worker of the state after a step is as it was, has just claimed, or has advanced. */
  lemma PhaseMoves(s: Sys, e: System.Event, t: Id)
    requires t in Act(s, e).workers
    ensures var w' := Act(s, e).workers[t];
      || w'.phase == Claimed
      || (t in s.workers && (w' == s.workers[t] || Advances(s, e, t, s.workers[t], w')))
  {
    hide Act, Advances;
    if e.Claim? { ClaimMoves(s, e, t); }
    else if e.Get? || e.Prepare? || e.Send? { WorkerMoves(s, e, t); }
    else if OfWorker(e) { FewerWorkers(s, e); }
    else if OfService(e) { ServiceStep(s, e); }
    else if Aside(e) { AsideKeepsJobs(s, e); }
    else { NetworkKeepsControl(s, e); }
  }

  lemma ClaimMoves(s: Sys, e: System.Event, t: Id)
    requires e.Claim? && t in Act(s, e).workers
    ensures var w' := Act(s, e).workers[t]; w'.phase == Claimed || (t in s.workers && w' == s.workers[t])
  {
    hide DoClaim;
    ClaimAdds(s, e.id, e.token, e.lease, e.locked);
  }

  lemma WorkerMoves(s: Sys, e: System.Event, t: Id)
    requires (e.Get? || e.Prepare? || e.Send?) && t in Act(s, e).workers
    ensures var w' := Act(s, e).workers[t];
      t in s.workers && (w' == s.workers[t] || Advances(s, e, t, s.workers[t], w'))
  {
    hide DoGet, DoPrepare, DoSend, Advances;
    if e.Get? { GetAdvances(s, e.token, e.front); }
    else if e.Prepare? { PrepareAdvances(s, e.token); }
    else { SendAdvances(s, e.token); }
  }

  // ----- asked before sent -----

  /** Step `i` of the run asks the receiver about the job of the worker, and the receiver has no effect. */
  ghost predicate AskedAt(init: Sys, es: seq<Timed>, i: nat, t: Id, id: Id) {
    && i < |es| && es[i].event == Get(t, None)
    && var s := Run(init, es[..i]);
    && t in s.workers && s.workers[t].id == id && NotThere(s, id)
  }

  /** An uncertain job went past its lookup. */
  predicate PastLookup(w: Worker) {
    w.snapshot.uncertain && (w.phase.Refusal? || w.phase.Cleared? || w.phase.Posted? || (w.phase.LookedUp? && NotFound404(w.phase.answer)))
  }

  lemma AskedStays(init: Sys, es: seq<Timed>, last: Timed, i: nat, t: Id, id: Id)
    requires AskedAt(init, es, i, t, id)
    ensures AskedAt(init, es + [last], i, t, id)
  {
    hide Run, NotThere;
    assert (es + [last])[..i] == es[..i];
  }

  lemma AskedNow(init: Sys, es: seq<Timed>, last: Timed, t: Id)
    requires last.event == Get(t, None) && t in Run(init, es).workers
    requires NotThere(Run(init, es), Run(init, es).workers[t].id)
    ensures AskedAt(init, es + [last], |es|, t, Run(init, es).workers[t].id)
  {
    hide Run, NotThere;
    assert (es + [last])[..|es|] == es;
  }

  lemma {:induction false} AskedBefore(init: Sys, es: seq<Timed>, t: Id)
    requires init.workers == map[] && t in Run(init, es).workers && PastLookup(Run(init, es).workers[t])
    ensures exists i: nat :: AskedAt(init, es, i, t, Run(init, es).workers[t].id)
  {
    if es != [] {
      var prefix, last := es[..|es| - 1], es[|es| - 1];
      assert es == prefix + [last];
      var s := Run(init, prefix);
      PhaseMoves(s.(now := last.at), last.event, t);
      hide Act, AskedAt, NotThere, Routable;
      if s.workers[t] == Run(init, es).workers[t] || PastLookup(s.workers[t]) {
        AskedBefore(init, prefix, t);
        var i: nat :| AskedAt(init, prefix, i, t, s.workers[t].id);
        AskedStays(init, prefix, last, i, t, s.workers[t].id);
      } else {
        SameLedgers(s, last.at, s.workers[t].id);
        AskedNow(init, prefix, last, t);
      }
    }
  }

  lemma SameLedgers(s: Sys, at: Time, id: Id)
    ensures NotThere(s.(now := at), id) == NotThere(s, id)
  {
  }

  /** Nothing is sent twice in ignorance: in every run that starts without workers, from the empty system or
      after a restore, a worker that sends for a job whose earlier outcome was unknown had asked the
      receiver since its claim, and there was no effect then. */
  lemma ReconciledFirst(init: Sys, es: seq<Timed>, t: Timed)
    requires init.workers == map[] && t.event.Send? && Step(Run(init, es), t).posts != Run(init, es).posts
    ensures var s := Run(init, es);
      && t.event.token in s.workers
      && (s.workers[t.event.token].snapshot.uncertain ==>
            exists i: nat :: AskedAt(init, es, i, t.event.token, s.workers[t.event.token].id))
  {
    var s := Run(init, es);
    SendNeedsClearance(s, t);
    hide Step, Run, AskedAt;
    if s.workers[t.event.token].snapshot.uncertain { AskedBefore(init, es, t.event.token); }
  }

  lemma SendNeedsClearance(s: Sys, t: Timed)
    requires t.event.Send? && Step(s, t).posts != s.posts
    ensures t.event.token in s.workers && s.workers[t.event.token].phase.Cleared?
  {
  }

  // ----- unrouted work -----

  ghost predicate WellRouted(s: Sys) {
    && (forall t <- s.workers :: !s.workers[t].phase.Claimed? ==> Routable(s, s.workers[t].id))
    && (forall p <- s.posts :: p.lane == Legacy ==> s.ctl.cfg.destinations == map[])
  }

  lemma RoutesStay(s: Sys, e: System.Event, id: Id)
    ensures Routable(s, id) ==> Routable(Act(s, e), id)
  {
    hide Act;
    StepWrites(s, e);
    if OfNetwork(e) { NetworkKeepsControl(s, e); }
  }

  lemma WhatIsSent(s: Sys, e: System.Event, p: Post)
    requires p in Act(s, e).posts
    ensures p in s.posts ||
      (e.Send? && e.token in s.workers && s.workers[e.token].phase.Cleared? && p.lane == LaneOf(s.ctl.biz, s.workers[e.token].id))
  {
    if e.Send? { hide Act; SendPosts(s, e.token, p); ActSends(s, e); }
    else if e.Settle? || e.Misroute? { hide Act; var f := FinishingStep(s, e); }
    else if OfWorker(e) { LeasesSendNothing(s, e); }
    else if OfService(e) { hide Act; ServiceStep(s, e); }
    else if Aside(e) { hide Act; AsideKeepsJobs(s, e); }
    else { NetworkSendsNothing(s, e); }
  }

  lemma ActSends(s: Sys, e: System.Event)
    requires e.Send?
    ensures Act(s, e) == DoSend(s, e.token)
  {
    hide DoSend;
  }

  lemma SendPosts(s: Sys, token: Id, p: Post)
    requires p in DoSend(s, token).posts
    ensures p in s.posts ||
      (token in s.workers && s.workers[token].phase.Cleared? && p.lane == LaneOf(s.ctl.biz, s.workers[token].id))
  {
  }

  lemma LeasesSendNothing(s: Sys, e: System.Event)
    requires e.Claim? || e.Get? || e.Defer? || e.Prepare? || e.Crash?
    ensures Act(s, e).posts == s.posts
  {
    hide Next, Preparation, MayPrepare, ClaimTx, DeferTx, PrepareTx;
  }

  lemma NetworkSendsNothing(s: Sys, e: System.Event)
    requires OfNetwork(e)
    ensures Act(s, e).posts <= s.posts
  {
    hide MutateTx;
  }

  lemma ActKeepsRouted(s: Sys, e: System.Event)
    requires WellRouted(s)
    ensures WellRouted(Act(s, e))
  {
    hide Act, Routable;
    var s' := Act(s, e);
    StepWrites(s, e);
    forall t <- s'.workers | !s'.workers[t].phase.Claimed? ensures Routable(s', s'.workers[t].id) {
      PhaseMoves(s, e, t);
      RoutesStay(s, e, s'.workers[t].id);
    }
    forall p <- s'.posts | p.lane == Legacy ensures s'.ctl.cfg.destinations == map[] {
      WhatIsSent(s, e, p);
      if p !in s.posts { LegacyMeans(s, s.workers[e.token].id); }
    }
  }

  lemma LegacyMeans(s: Sys, id: Id)
    ensures LaneOf(s.ctl.biz, id) == Legacy && Routable(s, id) ==> s.ctl.cfg.destinations == map[]
  {
  }

  /** Unrouted work is not sent: once destinations are registered, no run puts anything in flight to the
      receiver that served before. */
  lemma {:induction false} LegacyIsClosed(cfg: Config, policy: Hash, start: Time, es: seq<Timed>)
    ensures WellRouted(From(cfg, policy, start, es))
  {
    if es != [] {
      hide Act, WellRouted;
      LegacyIsClosed(cfg, policy, start, es[..|es| - 1]);
      ActKeepsRouted(From(cfg, policy, start, es[..|es| - 1]).(now := es[|es| - 1].at), es[|es| - 1].event);
    }
  }

  // ----- settlement -----

  /** What a settlement records, by where the worker has got to. */
  lemma SettleDecision(s: Sys, token: Id, answer: Answer, jitter: Time)
    requires token in s.workers
    ensures var w, s' := s.workers[token], DoSettle(s, token, answer, jitter);
      match w.phase
      case Claimed => s' == s
      case Cleared(_) => s' == s
      case LookedUp(seen) =>
        if NotFound404(seen) then s' == s
        else
          var f := AfterLookup(s.ctl.cfg.digest, w.snapshot, seen);
          f.Some? && s' == Finished(s, token, f.value, jitter)
      case Refusal(reason) =>
        if reason == RecoveryClosed then
          s' == Finished(s, token, Finish(Status.Retry, RecoveryClosed, None, None, Some(1)), jitter)
        else if reason == LeaseLost then s' == WithoutWorker(s, token)
        else s' == Finished(s, token, Finish(Blocked, reason, None, None, None), jitter)
      case Posted(m) =>
        if answer.Broken? || (exists r <- s.replies :: r.answer == answer && r.post.token == token && r.post.key == w.id) then
          s' == Finished(s, token, AfterPost(s.ctl.cfg.digest, m, answer), jitter)
        else s' == s
  {
    hide Finished, AfterPost;
  }

  lemma MisrouteDecision(s: Sys, token: Id, misconfigured: bool, jitter: Time)
    requires token in s.workers && s.workers[token].phase.Claimed?
    ensures var id, s' := s.workers[token].id, DoMisroute(s, token, misconfigured, jitter);
      if !Routable(s, id) then s' == Finished(s, token, Finish(Blocked, LegacyRouteRequiresReview, None, None, None), jitter)
      else if id in s.ctl.biz.routes && misconfigured then
        s' == Finished(s, token, Finish(Blocked, DestinationMisconfigured, None, None, None), jitter)
      else s' == s
  {
    hide Finished;
  }
}
