/** Every effect can be traced back, along the history of the control database, to the decision that
    permitted it. */
module Tracing {
  import opened Schema
  import opened Policy
  import opened ServiceTx
  import opened CapacityTx
  import opened Receiver
  import opened WorkerTx
  import opened Decisions
  import opened System
  import opened Steps
  import opened Intents
  import opened Footprints
  import opened Outbox
  import opened Runs
  import opened Authority
  import opened Resumption
  import opened Lineages

  /** Moment `i` is the transaction that committed the intent `m` of job `key`. */
  predicate AuthorisedAt(ms: seq<Moment>, i: nat, key: Id, m: Mutation) {
    && i < |ms|
    && var s, t := ms[i].state, ms[i].step;
    && Authorises(s, t) && JobOf(s, t) == key
    && Preparation(s.ctl.policy, IsOpen(s), s.ctl.biz, key, t.event.token, t.at) == Authorized(m)
  }

  /** Moment `i` is the approval `a` of proposal `key`, by someone other than its proposer, at an
      open gate, until its expiry or for five minutes, whichever ends first. */
  predicate ApprovedAt(ms: seq<Moment>, i: nat, key: Id, a: Approval) {
    && i < |ms|
    && var s, t := ms[i].state, ms[i].step;
    && t.event.Approve? && t.event.proposal == key && t.event.actor == a.approver
    && IsOpen(s) && key in s.ctl.biz.proposals
    && var p := s.ctl.biz.proposals[key];
    && p.actor != a.approver && t.at < p.expiresAt
    && a.until <= p.expiresAt && a.until <= t.at + 300_000_000
    && (a.until == p.expiresAt || a.until == t.at + 300_000_000)
  }

  ghost predicate IntentsTraced(ms: seq<Moment>, b: Business) {
    forall key <- b.jobs :: b.jobs[key].mutation.Some? ==>
      exists i: nat :: AuthorisedAt(ms, i, key, b.jobs[key].mutation.value)
  }

  ghost predicate ApprovalsTraced(ms: seq<Moment>, b: Business) {
    forall key <- b.proposals :: b.proposals[key].approval.Some? ==>
      exists i: nat :: ApprovedAt(ms, i, key, b.proposals[key].approval.value)
  }

  // ----- who writes intents and approvals -----

  lemma FinishWritesNoIntent(s: Sys, token: Id, f: Finish, jitter: Time, key: Id)
    requires token in s.workers
    ensures var jobs' := Finished(s, token, f, jitter).ctl.biz.jobs;
      key in jobs' ==> key in s.ctl.biz.jobs && jobs'[key].mutation == s.ctl.biz.jobs[key].mutation
  {
  }

  lemma PrepareWritesIntent(s: Sys, e: System.Event, key: Id)
    requires e.Prepare? && key in Act(s, e).ctl.biz.jobs
    ensures var m := Act(s, e).ctl.biz.jobs[key].mutation;
      || (key in s.ctl.biz.jobs && s.ctl.biz.jobs[key].mutation == m)
      || (&& Authorises(s, At(s.now, e)) && JobOf(s, At(s.now, e)) == key && m.Some?
          && Preparation(s.ctl.policy, IsOpen(s), s.ctl.biz, key, e.token, s.now) == Authorized(m.value))
  {
  }

  lemma ClaimWritesNoIntent(s: Sys, e: System.Event, key: Id)
    requires (e.Claim? || e.Defer?) && key in Act(s, e).ctl.biz.jobs
    ensures key in s.ctl.biz.jobs && Act(s, e).ctl.biz.jobs[key].mutation == s.ctl.biz.jobs[key].mutation
  {
  }

  lemma WorkerWritesIntent(s: Sys, e: System.Event, key: Id)
    requires OfWorker(e) && key in Act(s, e).ctl.biz.jobs
    ensures var m := Act(s, e).ctl.biz.jobs[key].mutation;
      || (key in s.ctl.biz.jobs && s.ctl.biz.jobs[key].mutation == m)
      || (&& Authorises(s, At(s.now, e)) && JobOf(s, At(s.now, e)) == key && m.Some?
          && Preparation(s.ctl.policy, IsOpen(s), s.ctl.biz, key, e.token, s.now) == Authorized(m.value))
  {
    hide Act, Authorises, Preparation;
    if e.Settle? || e.Misroute? {
      var f := FinishingStep(s, e);
      if f.Some? { FinishWritesNoIntent(s, e.token, f.value, e.jitter, key); }
    } else if e.Prepare? {
      PrepareWritesIntent(s, e, key);
    } else if e.Claim? || e.Defer? {
      ClaimWritesNoIntent(s, e, key);
    } else {
      PassiveStep(s, e);
    }
  }

  lemma OthersWriteNoIntent(s: Sys, e: System.Event, key: Id)
    requires !OfWorker(e) && key in Act(s, e).ctl.biz.jobs
    ensures Act(s, e).ctl.biz.jobs[key].mutation ==
      (if key in s.ctl.biz.jobs then s.ctl.biz.jobs[key].mutation else None)
  {
    hide Act;
    StepWrites(s, e);
  }

  function ApprovalIn(b: Business, key: Id): Option<Approval> {
    if key in b.proposals then b.proposals[key].approval else None
  }

  /** An approval is written once, by one Approve: a step leaves it as it was, or is the first
      approval of a proposal that had none. */
  lemma WhoWritesApproval(s: Sys, e: System.Event, key: Id)
    ensures key in s.ctl.biz.proposals ==> key in Act(s, e).ctl.biz.proposals
    ensures var before, after := ApprovalIn(s.ctl.biz, key), ApprovalIn(Act(s, e).ctl.biz, key);
      || after == before
      || (&& before == None && e.Approve? && e.proposal == key && IsOpen(s) && key in s.ctl.biz.proposals
          && s.ctl.biz.proposals[key].actor != e.actor && s.now < s.ctl.biz.proposals[key].expiresAt
          && after.Some? && after.value.approver == e.actor
          && after.value.until <= s.ctl.biz.proposals[key].expiresAt && after.value.until <= s.now + 300_000_000
          && after.value.until in {s.ctl.biz.proposals[key].expiresAt, s.now + 300_000_000})
  {
    hide Act;
    StepWrites(s, e);
  }

  /** Once given, an approval is never extended, replaced or withdrawn. */
  lemma {:induction false} ApprovalIsFinal(s: Sys, es: seq<Timed>, key: Id)
    requires ApprovalIn(s.ctl.biz, key).Some?
    ensures ApprovalIn(Run(s, es).ctl.biz, key) == ApprovalIn(s.ctl.biz, key)
  {
    if es != [] {
      hide Act, ApprovalIn;
      ApprovalIsFinal(s, es[..|es| - 1], key);
      WhoWritesApproval(Run(s, es[..|es| - 1]).(now := es[|es| - 1].at), es[|es| - 1].event, key);
    }
  }

  // ----- along the history -----

  lemma AuthorisedLater(ms: seq<Moment>, last: Moment, i: nat, key: Id, m: Mutation)
    requires AuthorisedAt(ms, i, key, m)
    ensures AuthorisedAt(ms + [last], i, key, m)
  {
    hide Preparation, Authorises;
    assert (ms + [last])[i] == ms[i];
  }

  lemma ApprovalLater(ms: seq<Moment>, last: Moment, i: nat, key: Id, a: Approval)
    requires ApprovedAt(ms, i, key, a)
    ensures ApprovedAt(ms + [last], i, key, a)
  {
    assert (ms + [last])[i] == ms[i];
  }

  lemma WhoWritesIntent(s: Sys, t: Timed, key: Id)
    requires key in Step(s, t).ctl.biz.jobs
    ensures var m := Step(s, t).ctl.biz.jobs[key].mutation;
      || m == None
      || (key in s.ctl.biz.jobs && s.ctl.biz.jobs[key].mutation == m)
      || AuthorisedAt([Moment(s, t)], 0, key, m.value)
  {
    var now := s.(now := t.at);
    hide Act, Preparation;
    if OfWorker(t.event) { WorkerWritesIntent(now, t.event, key); } else { OthersWriteNoIntent(now, t.event, key); }
  }

  lemma AuthorisedNow(ms: seq<Moment>, last: Moment, key: Id, m: Mutation)
    requires AuthorisedAt([last], 0, key, m)
    ensures AuthorisedAt(ms + [last], |ms|, key, m)
  {
    hide Preparation, Authorises;
    assert (ms + [last])[|ms|] == last;
  }

  lemma StepTracesIntents(ms: seq<Moment>, last: Moment, b': Business)
    requires IntentsTraced(ms, last.state.ctl.biz) && b' == Step(last.state, last.step).ctl.biz
    ensures IntentsTraced(ms + [last], b')
  {
    hide Step, AuthorisedAt;
    var b := last.state.ctl.biz;
    forall key <- b'.jobs | b'.jobs[key].mutation.Some?
      ensures exists i: nat :: AuthorisedAt(ms + [last], i, key, b'.jobs[key].mutation.value)
    {
      var m := b'.jobs[key].mutation.value;
      WhoWritesIntent(last.state, last.step, key);
      if key in b.jobs && b.jobs[key].mutation == Some(m) {
        var i: nat :| AuthorisedAt(ms, i, key, m);
        AuthorisedLater(ms, last, i, key, m);
      } else {
        AuthorisedNow(ms, last, key, m);
      }
    }
  }

  lemma ApprovalNow(ms: seq<Moment>, last: Moment, key: Id)
    requires var before, after := ApprovalIn(last.state.ctl.biz, key), ApprovalIn(Step(last.state, last.step).ctl.biz, key);
      after.Some? && after != before
    ensures ApprovedAt(ms + [last], |ms|, key, ApprovalIn(Step(last.state, last.step).ctl.biz, key).value)
  {
    WhoWritesApproval(last.state.(now := last.step.at), last.step.event, key);
    hide Act;
    assert (ms + [last])[|ms|] == last;
  }

  lemma StepTracesApprovals(ms: seq<Moment>, last: Moment, b': Business)
    requires ApprovalsTraced(ms, last.state.ctl.biz) && b' == Step(last.state, last.step).ctl.biz
    ensures ApprovalsTraced(ms + [last], b')
  {
    hide Step, ApprovedAt;
    var b := last.state.ctl.biz;
    forall key <- b'.proposals | b'.proposals[key].approval.Some?
      ensures exists i: nat :: ApprovedAt(ms + [last], i, key, b'.proposals[key].approval.value)
    {
      var a := b'.proposals[key].approval.value;
      if key in b.proposals && b.proposals[key].approval == Some(a) {
        var i: nat :| ApprovedAt(ms, i, key, a);
        ApprovalLater(ms, last, i, key, a);
      } else {
        ApprovalNow(ms, last, key);
      }
    }
  }

  /** In every history of a control database that started empty, through whatever restores, each
      intent was authorised at some moment of it and each approval given at some moment of it. */
  lemma {:induction false} EverythingIsTraced(start: Control, ms: seq<Moment>, s: Sys)
    requires Lineage(start, ms, s) && start.biz.jobs == map[] && start.biz.proposals == map[]
    ensures IntentsTraced(ms, s.ctl.biz) && ApprovalsTraced(ms, s.ctl.biz)
    decreases |ms|
  {
    hide Step, Lineage, IntentsTraced, ApprovalsTraced;
    if ms == [] {
      NothingToTrace(start, ms, s);
    } else {
      var init, last := ms[..|ms| - 1], ms[|ms| - 1];
      LineageLast(start, ms, s);
      assert ms == init + [last];
      EverythingIsTraced(start, init, last.state);
      StepTracesIntents(init, last, s.ctl.biz);
      StepTracesApprovals(init, last, s.ctl.biz);
    }
  }

  lemma NothingToTrace(start: Control, ms: seq<Moment>, s: Sys)
    requires Lineage(start, ms, s) && start.biz.jobs == map[] && start.biz.proposals == map[] && ms == []
    ensures IntentsTraced(ms, s.ctl.biz) && ApprovalsTraced(ms, s.ctl.biz)
  {
    hide Step, AuthorisedAt, ApprovedAt;
  }

  // ----- what an authorisation means -----

  /** The decision behind an intent, in terms of the rows that were read: an open gate, a proposal that
      stands, and a mutation that conveys just what the customer's row and the proposal say. */
  predicate Permitted(s: Sys, at: Time, key: Id, m: Mutation) {
    && IsOpen(s) && key in s.ctl.biz.proposals
    && var p := s.ctl.biz.proposals[key];
    && p.customer in s.ctl.biz.customers
    && var row := s.ctl.biz.customers[p.customer];
    && Sendable(s.ctl.policy, p, row, at) && Conveys(row, p, m)
  }

  lemma AuthorisationMeaning(s: Sys, t: Timed, m: Mutation)
    requires Authorises(s, t)
    requires Preparation(s.ctl.policy, IsOpen(s), s.ctl.biz, JobOf(s, t), t.event.token, t.at) == Authorized(m)
    ensures Permitted(s, t.at, JobOf(s, t), m)
    ensures JobOf(s, t) in s.ctl.biz.proposals && m.action != SetConsent
    ensures m.action == SendMarketing ==> s.ctl.biz.proposals[JobOf(s, t)].approval.Some?
  {
    PreparationDecision(s.ctl.policy, IsOpen(s), s.ctl.biz, JobOf(s, t), t.event.token, t.at);
    hide Preparation;
  }

  /** The history of an intent: the moment that authorised it and, for marketing, the earlier
      approval that it needed. */
  ghost predicate Justified(ms: seq<Moment>, key: Id, m: Mutation, i: nat) {
    && i < |ms| && Permitted(ms[i].state, ms[i].step.at, key, m)
    && (m.action == SendMarketing ==>
          exists j: nat :: j < i && ApprovedAt(ms, j, key, ms[i].state.ctl.biz.proposals[key].approval.value))
  }

  lemma ApprovedInPrefix(ms: seq<Moment>, i: nat, j: nat, key: Id, a: Approval)
    requires i <= |ms| && ApprovedAt(ms[..i], j, key, a)
    ensures j < i && ApprovedAt(ms, j, key, a)
  {
    assert ms[..i][j] == ms[j];
  }

  /** Every intent of a control database, through whatever restores, traces back to a moment at which
      the gate was open, the policy current, the proposal unexpired and the revision equal, and for
      marketing to an earlier approval by someone other than the proposer, still unexpired then. */
  lemma IntentAuthority(start: Control, ms: seq<Moment>, s: Sys, key: Id)
    requires Lineage(start, ms, s) && start.biz.jobs == map[] && start.biz.proposals == map[]
    requires key in s.ctl.biz.jobs && s.ctl.biz.jobs[key].mutation.Some?
    ensures var m := s.ctl.biz.jobs[key].mutation.value;
      m.action != SetConsent && exists i: nat :: Justified(ms, key, m, i)
  {
    hide Lineage, Preparation, Authorises, ApprovedAt, Permitted;
    var m := s.ctl.biz.jobs[key].mutation.value;
    EverythingIsTraced(start, ms, s);
    var i: nat :| AuthorisedAt(ms, i, key, m);
    AuthorisationMeaning(ms[i].state, ms[i].step, m);
    if m.action == SendMarketing {
      LineagePrefix(start, ms, s, i);
      EverythingIsTraced(start, ms[..i], ms[i].state);
      var a := ms[i].state.ctl.biz.proposals[key].approval.value;
      var j: nat :| ApprovedAt(ms[..i], j, key, a);
      ApprovedInPrefix(ms, i, j, key, a);
    }
    assert Justified(ms, key, m, i);
  }

  /** Without a restore the body of every effect is such an intent. */
  lemma EffectAuthority(cfg: Config, policy: Hash, start: Time, es: seq<Timed>, lane: Lane, key: Id)
    requires key in Effects(From(cfg, policy, start, es).ledgers, lane)
    ensures var body := Effects(From(cfg, policy, start, es).ledgers, lane)[key].body;
      body.action != SetConsent && exists i: nat :: Justified(MomentsOf(Init(cfg, policy, start), es), key, body, i)
  {
    var s := From(cfg, policy, start, es);
    FromSound(cfg, policy, start, es);
    assert s.ctl.biz.jobs[key].mutation == Some(Effects(s.ledgers, lane)[key].body);
    RunIsLineage(cfg, policy, start, es);
    hide From, Run, Lineage, Cross, Local, Justified, MomentsOf;
    IntentAuthority(NewControl(cfg, policy), MomentsOf(Init(cfg, policy, start), es), s, key);
  }

  /** After a restore and a successful resume every effect, old or new, has a local intent with its
      hash that traces back along the history of the restored database. */
  lemma EffectAuthorityAfterResume(cfg: Config, policy: Hash, start: Time, es: seq<Timed>, point: nat,
                                   recovery: seq<Timed>, t: Timed, later: seq<Timed>, lane: Lane, key: Id)
    requires point <= |es|
    requires var s := Run(Restored(From(cfg, policy, start, es[..point]), From(cfg, policy, start, es)), recovery);
      Quiescent(s) && Resumes(s, t) && key in Effects(Run(Step(s, t), later).ledgers, lane)
    ensures var s := Run(Restored(From(cfg, policy, start, es[..point]), From(cfg, policy, start, es)), recovery);
      var b, effect := Run(Step(s, t), later).ctl.biz, Effects(Run(Step(s, t), later).ledgers, lane)[key];
      && lane == LaneOf(b, key) && key in b.jobs && b.jobs[key].mutation.Some?
      && cfg.digest(OfMutation(b.jobs[key].mutation.value)) == effect.hash == cfg.digest(OfMutation(effect.body))
      && b.jobs[key].mutation.value.action != SetConsent
      && exists i: nat :: Justified(RestoredMoments(cfg, policy, start, es, point, recovery + [t] + later), key,
                                    b.jobs[key].mutation.value, i)
  {
    hide Run, From, Restored, Step, Cross, Lineage, Quiescent, Resumes, Justified, RestoredMoments, Effects;
    var r := Restored(From(cfg, policy, start, es[..point]), From(cfg, policy, start, es));
    var s' := Run(Step(Run(r, recovery), t), later);
    ResumeSafety(cfg, policy, start, es, point, recovery, t, later);
    RunThrough(r, recovery, t, later);
    RestoredIsLineage(cfg, policy, start, es, point, recovery + [t] + later);
    LineageConfig(NewControl(cfg, policy), RestoredMoments(cfg, policy, start, es, point, recovery + [t] + later), s');
    CrossEffect(s', lane, key);
    IntentAuthority(NewControl(cfg, policy),
                    RestoredMoments(cfg, policy, start, es, point, recovery + [t] + later), s', key);
  }

  lemma CrossEffect(s: Sys, lane: Lane, key: Id)
    requires Cross(s) && key in Effects(s.ledgers, lane)
    ensures EffectOk(s.ctl.cfg.digest, s.ctl.biz, s.ledgers, lane, key)
  {
  }

  lemma RunThrough(r: Sys, recovery: seq<Timed>, t: Timed, later: seq<Timed>)
    ensures Run(r, recovery + [t] + later) == Run(Step(Run(r, recovery), t), later)
  {
    RunConcat(r, recovery + [t], later);
    assert (recovery + [t])[..|recovery|] == recovery;
    hide Step;
  }

  /** Consent and suppression never leave: no effect carries them. */
  lemma ProtectedFieldsStay(cfg: Config, policy: Hash, start: Time, es: seq<Timed>, lane: Lane, key: Id)
    requires key in Effects(From(cfg, policy, start, es).ledgers, lane)
    ensures var payload := Effects(From(cfg, policy, start, es).ledgers, lane)[key].body.payload;
      payload.Profile? ==> Consent !in payload.fields && Suppressed !in payload.fields
  {
    EffectAuthority(cfg, policy, start, es, lane, key);
    hide From, Effects, ApprovedAt, MomentsOf;
    var body := Effects(From(cfg, policy, start, es).ledgers, lane)[key].body;
    var ms := MomentsOf(Init(cfg, policy, start), es);
    var i: nat :| Justified(ms, key, body, i);
    assert Permitted(ms[i].state, ms[i].step.at, key, body);
  }

  // ----- typed sources -----

  ghost predicate TypedRows(b: Business) { forall id <- b.customers :: WellTyped(b.customers[id].state) }

  lemma ObserveKeepsTypes(source: Source, event: SourceEvent, row: CustomerRow)
    requires WellTyped(event.attributes) && WellTyped(row.state)
    ensures WellTyped(Observe(source, event, row).state)
  {
  }

  lemma ObservedTypes(b: Business, source: Source, event: SourceEvent, hash: Hash, id: Id, now: Time)
    requires WellTyped(event.attributes) && TypedRows(b)
    ensures TypedRows(After(b, IngestFor(b, source, event, hash, id, now)))
  {
    hide Observe, WellTyped, Rulings;
    if id in b.customers { ObserveKeepsTypes(source, event, b.customers[id]); }
  }

  lemma IngestKeepsTypes(digest: Doc -> Hash, b: Business, source: Source, event: SourceEvent, newId: Id, now: Time)
    requires WellTyped(event.attributes) && TypedRows(b)
    ensures TypedRows(After(b, IngestTx(digest, b, source, event, newId, now)))
  {
    hide IngestFor, WellTyped, Founds, ReviewCategory;
    var hash := digest(OfEvent(event));
    if (source, event.eventId) !in b.events {
      if (source, event.subject) in b.identities {
        ObservedTypes(b, source, event, hash, b.identities[(source, event.subject)], now);
      } else if Founds(b, source, event) && newId !in b.customers {
        var founded := b.(customers := b.customers[newId := NEW_CUSTOMER],
                          identities := b.identities[(source, event.subject) := newId]);
        NewRowIsTyped();
        ObservedTypes(founded, source, event, hash, newId, now);
      }
    }
  }

  lemma NewRowIsTyped()
    ensures WellTyped(NEW_CUSTOMER.state)
  {
  }

  lemma StepKeepsTypes(s: Sys, t: Timed)
    requires TypedRows(s.ctl.biz) && (t.event.Ingest? ==> WellTyped(t.event.event.attributes))
    ensures TypedRows(Step(s, t).ctl.biz)
  {
    var e := t.event;
    if e.Ingest? {
      IngestKeepsTypes(s.ctl.cfg.digest, s.ctl.biz, e.source, e.event, e.newId, t.at);
      hide IngestTx, TypedRows;
    } else {
      hide Act, WellTyped;
      OnlyIngestWritesTruth(s.(now := t.at), e);
    }
  }

  lemma {:induction false} TypedLineage(start: Control, ms: seq<Moment>, s: Sys)
    requires Lineage(start, ms, s) && TypedRows(start.biz)
    requires forall m <- ms | m.step.event.Ingest? :: WellTyped(m.step.event.event.attributes)
    ensures TypedRows(s.ctl.biz)
    decreases |ms|
  {
    if ms != [] {
      hide Step, TypedRows, WellTyped;
      TypedLineage(start, ms[..|ms| - 1], ms[|ms| - 1].state);
      StepKeepsTypes(ms[|ms| - 1].state, ms[|ms| - 1].step);
    }
  }

  /** What a marketing intent says, in the exact values: mail to this address of a customer who is not
      suppressed and consents. */
  predicate Solicited(s: Sys, key: Id, m: Mutation) {
    && key in s.ctl.biz.proposals && m.customer in s.ctl.biz.customers
    && var p, state := s.ctl.biz.proposals[key], s.ctl.biz.customers[m.customer].state;
    && Suppressed in state && state[Suppressed] == Flag(false)
    && Consent in state && state[Consent] == Flag(true)
    && Email in state && state[Email].Text? && state[Email].text != ""
    && m.payload == Contact(Some(Text(state[Email].text)), p.body.template)
  }

  lemma PermittedIsSolicited(s: Sys, at: Time, key: Id, m: Mutation)
    requires Permitted(s, at, key, m) && m.action == SendMarketing && TypedRows(s.ctl.biz)
    ensures Solicited(s, key, m)
  {
    assert WellTyped(s.ctl.biz.customers[m.customer].state);
  }

  /** With sources that keep to the input contract, every marketing intent of a control database,
      through whatever restores, was authorised when the customer's suppression was exactly false
      and the consent exactly true, and is addressed to the email of that moment. */
  lemma MarketingAuthority(start: Control, ms: seq<Moment>, s: Sys, key: Id)
    requires Lineage(start, ms, s) && start.biz == NO_BUSINESS
    requires forall m <- ms | m.step.event.Ingest? :: WellTyped(m.step.event.event.attributes)
    requires key in s.ctl.biz.jobs && s.ctl.biz.jobs[key].mutation.Some?
    requires s.ctl.biz.jobs[key].mutation.value.action == SendMarketing
    ensures var m := s.ctl.biz.jobs[key].mutation.value;
      exists i: nat :: Justified(ms, key, m, i) && Solicited(ms[i].state, key, m)
  {
    var m := s.ctl.biz.jobs[key].mutation.value;
    hide Lineage, Permitted, ApprovedAt, Solicited, TypedRows, WellTyped;
    IntentAuthority(start, ms, s, key);
    var i: nat :| Justified(ms, key, m, i);
    LineagePrefix(start, ms, s, i);
    NothingIsTyped();
    TypedLineage(start, ms[..i], ms[i].state);
    PermittedIsSolicited(ms[i].state, ms[i].step.at, key, m);
  }

  lemma NothingIsTyped()
    ensures TypedRows(NO_BUSINESS)
  {
  }
}
