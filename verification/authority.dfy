/** Where the authority of a dispatch comes from: fresh owner observations after a recovery, and a
    traceable decision behind every effect. */
module Authority {
  import opened Schema
  import opened Policy
  import opened ServiceTx
  import opened CapacityTx
  import opened Receiver
  import opened WorkerTx
  import opened RecoveryTx
  import opened System
  import opened Steps
  import opened Intents
  import opened Footprints
  import opened Outbox
  import opened Runs
  import opened Resumption

  // ----- fresh authority after a resume -----

  /** Whatever consent or suppression value a customer has was observed since `started`. */
  ghost predicate Fresh(b: Business, started: Time) {
    forall id <- b.customers :: FreshRow(b, id, started)
  }

  predicate FreshRow(b: Business, id: Id, started: Time)
    requires id in b.customers
  {
    && (Consent in b.customers[id].state ==> Refreshed(b, id, Consent, started))
    && (Suppressed in b.customers[id].state ==> Refreshed(b, id, Suppressed, started))
  }

  /** Stored events are never replaced, so what was refreshed stays refreshed. */
  lemma MoreEvents(b: Business, b': Business, id: Id, started: Time)
    requires id in b.customers && FreshRow(b, id, started)
    requires id in b'.customers && b'.customers[id] == b.customers[id]
    requires forall key <- b.events :: key in b'.events && b'.events[key] == b.events[key]
    ensures FreshRow(b', id, started)
  {
  }

  /** An admitted field takes its value from the event being recorded; any other keeps both its
      value and its provenance. */
  lemma ObservedRow(b: Business, b': Business, source: Source, event: SourceEvent, id: Id, started: Time)
    requires id in b.customers && FreshRow(b, id, started) && (source, event.eventId) !in b.events
    requires id in b'.customers && b'.customers[id] == Observe(source, event, b.customers[id])
    requires forall key <- b.events :: key in b'.events && b'.events[key] == b.events[key]
    requires (source, event.eventId) in b'.events
    requires b'.events[(source, event.eventId)].body == event && started <= b'.events[(source, event.eventId)].receivedAt
    ensures FreshRow(b', id, started)
  {
    var row, row' := b.customers[id], b'.customers[id];
    forall field | field in {Consent, Suppressed} && field in row'.state ensures Refreshed(b', id, field, started) {
      if field !in Admitted(source, event, row) {
        assert field in row.state && row'.state[field] == row.state[field];
        assert Refreshed(b, id, field, started);
        assert row'.provenance[field] == row.provenance[field];
      } else {
        assert row'.provenance[field] == Mark(source, event);
      }
    }
  }

  lemma IngestForFresh(b: Business, source: Source, event: SourceEvent, hash: Hash, id: Id, now: Time, started: Time)
    requires Fresh(b, started) && started <= now && (source, event.eventId) !in b.events
    ensures Fresh(After(b, IngestFor(b, source, event, hash, id, now)), started)
  {
    if id in b.customers {
      var b' := After(b, IngestFor(b, source, event, hash, id, now));
      hide Observe, Rulings, FreshRow;
      forall other <- b'.customers ensures FreshRow(b', other, started) {
        assert FreshRow(b, other, started);
        if other == id { ObservedRow(b, b', source, event, id, started); } else { MoreEvents(b, b', other, started); }
      }
    }
  }

  lemma IngestFresh(digest: Doc -> Hash, b: Business, source: Source, event: SourceEvent, newId: Id, now: Time,
                    started: Time)
    requires Fresh(b, started) && started <= now
    ensures Fresh(After(b, IngestTx(digest, b, source, event, newId, now)), started)
  {
    hide IngestFor, FreshRow, ReviewCategory, Founds;
    var hash := digest(OfEvent(event));
    var b' := After(b, IngestTx(digest, b, source, event, newId, now));
    if (source, event.eventId) in b.events {
      SameTruth(b, b', started);
    } else if (source, event.subject) in b.identities {
      IngestForFresh(b, source, event, hash, b.identities[(source, event.subject)], now, started);
    } else if !Founds(b, source, event) {
      forall id <- b'.customers ensures FreshRow(b', id, started) { MoreEvents(b, b', id, started); }
    } else if newId !in b.customers {
      var founded := b.(customers := b.customers[newId := NEW_CUSTOMER],
                        identities := b.identities[(source, event.subject) := newId]);
      FoundedFresh(b, founded, newId, started);
      IngestForFresh(founded, source, event, hash, newId, now, started);
    }
  }

  lemma FoundedFresh(b: Business, founded: Business, newId: Id, started: Time)
    requires Fresh(b, started) && founded.events == b.events
    requires founded.customers == b.customers[newId := NEW_CUSTOMER]
    ensures Fresh(founded, started)
  {
    forall id <- founded.customers ensures FreshRow(founded, id, started) {
      if id != newId { assert FreshRow(b, id, started); }
    }
  }

  lemma SameTruth(b: Business, b': Business, started: Time)
    requires Fresh(b, started) && b'.customers == b.customers && b'.events == b.events
    ensures Fresh(b', started)
  {
    forall id <- b'.customers ensures FreshRow(b', id, started) { assert FreshRow(b, id, started); }
  }

  /** Only ingestion writes customers and source events. */
  lemma OnlyIngestWritesTruth(s: Sys, e: System.Event)
    requires !e.Ingest?
    ensures Act(s, e).ctl.biz.customers == s.ctl.biz.customers && Act(s, e).ctl.biz.events == s.ctl.biz.events
  {
    hide Act;
    StepWrites(s, e);
  }

  lemma ActKeepsFresh(s: Sys, e: System.Event, started: Time)
    requires Fresh(s.ctl.biz, started) && started <= s.now
    ensures Fresh(Act(s, e).ctl.biz, started)
  {
    if e.Ingest? {
      IngestFresh(s.ctl.cfg.digest, s.ctl.biz, e.source, e.event, e.newId, s.now, started);
    } else {
      hide Act, Fresh;
      OnlyIngestWritesTruth(s, e);
      SameTruth(s.ctl.biz, Act(s, e).ctl.biz, started);
    }
  }

  lemma {:induction false} RunKeepsFresh(s: Sys, es: seq<Timed>, started: Time)
    requires Fresh(s.ctl.biz, started) && started <= s.now && Monotone(s.now, es)
    ensures Fresh(Run(s, es).ctl.biz, started)
  {
    if es != [] {
      var init, last := es[..|es| - 1], es[|es| - 1];
      RunKeepsFresh(s, init, started);
      ActKeepsFresh(Run(s, init).(now := last.at), last.event, started);
    }
  }

  /** A step at which a worker is authorised to send. */
  predicate Authorises(s: Sys, t: Timed) {
    && t.event.Prepare? && t.event.token in s.workers && MayPrepare(s, s.workers[t.event.token])
    && Preparation(s.ctl.policy, IsOpen(s), s.ctl.biz, s.workers[t.event.token].id, t.event.token, t.at).Authorized?
  }

  function JobOf(s: Sys, t: Timed): Id
    requires Authorises(s, t)
  {
    s.workers[t.event.token].id
  }

  /** The customer may be written to, and the feeds that own consent and suppression have said so
      since `started`. */
  predicate Addressable(b: Business, id: Id, started: Time) {
    && id in b.customers && Contactable(b.customers[id].state)
    && SentSince(b, id, Consent, ConsentFeed, started) && SentSince(b, id, Suppressed, PrivacyFeed, started)
  }

  lemma CleanIsFresh(b: Business, started: Time)
    requires FreshConsents(b, started)
    ensures Fresh(b, started)
  {
    forall id <- b.customers ensures FreshRow(b, id, started) {
      RefreshedMeaning(b, id, started);
    }
  }

  lemma AuthorisedMarketing(s: Sys, t: Timed, started: Time)
    requires Fresh(s.ctl.biz, started) && Authorises(s, t)
    requires s.ctl.biz.proposals[JobOf(s, t)].body.action == SendMarketing
    ensures var id := s.ctl.biz.proposals[JobOf(s, t)].customer;
      Addressable(s.ctl.biz, id, started)
  {
    var p := s.ctl.biz.proposals[JobOf(s, t)];
    var row := s.ctl.biz.customers[p.customer];
    PermissionMeaning(p.body.action, row.state, row.revision, p.revision);
    assert FreshRow(s.ctl.biz, p.customer, started);
    RefreshedMeaning(s.ctl.biz, p.customer, started);
  }

  /** Fresh authority: after a resume, for as long as the system runs, every marketing dispatch
      that is authorised rests on consent and suppression values that the owning sources sent
      after the recovery session began; the customers need not have existed at the resume. */
  lemma FreshAuthority(s: Sys, resume: Timed, later: seq<Timed>, t: Timed)
    requires Resumes(s, resume) && Monotone(resume.at, later + [t])
    requires s.ctl.sessions[resume.event.session].createdAt <= resume.at
    requires var now := Run(Step(s, resume), later);
      Authorises(now, t) && now.ctl.biz.proposals[JobOf(now, t)].body.action == SendMarketing
    ensures var b := Run(Step(s, resume), later).ctl.biz;
      var id := b.proposals[JobOf(Run(Step(s, resume), later), t)].customer;
      var started := s.ctl.sessions[resume.event.session].createdAt;
      Addressable(b, id, started)
  {
    var started := s.ctl.sessions[resume.event.session].createdAt;
    ResumeMeaning(s, resume);
    CleanIsFresh(s.ctl.biz, started);
    hide Step, Run, Clean, Authorises, Fresh, Addressable, FreshConsents, Resumes, Witnessed;
    var s' := Step(s, resume);
    MonotonePrefix(resume.at, later, t);
    RunKeepsFresh(s', later, started);
    AuthorisedMarketing(Run(s', later), t, started);
  }

  lemma MonotonePrefix(start: Time, later: seq<Timed>, t: Timed)
    requires Monotone(start, later + [t])
    ensures Monotone(start, later)
  {
    assert forall i :: 0 <= i < |later| ==> (later + [t])[i] == later[i];
  }

  // ----- the session's own beginning -----

  ghost predicate SessionsBegan(ctl: Control, now: Time) {
    forall session <- ctl.sessions :: ctl.sessions[session].createdAt <= now
  }

  lemma StepSessions(s: Sys, t: Timed)
    requires SessionsBegan(s.ctl, t.at)
    ensures SessionsBegan(Step(s, t).ctl, t.at)
  {
    RecoveryStep(s, t);
    hide Step, Inspect, StandingProof;
    var e := t.event;
    if e.ApproveProof? || e.Resume? {
      assert FreshApproval(s.ctl, e.binding, e.env, Receipts(s), e.session, e.proof, t.at) ==> e.session in s.ctl.sessions;
    }
  }

  lemma {:induction false} RunSessions(s: Sys, es: seq<Timed>)
    requires SessionsBegan(s.ctl, s.now) && Monotone(s.now, es)
    ensures SessionsBegan(Run(s, es).ctl, Run(s, es).now) && s.now <= Run(s, es).now
  {
    RunClock(s, es);
    if es != [] {
      var init, last := es[..|es| - 1], es[|es| - 1];
      RunSessions(s, init);
      RunClock(s, init);
      hide Step, SessionsBegan;
      LaterSessions(Run(s, init).ctl, Run(s, init).now, last.at);
      StepSessions(Run(s, init), last);
    }
  }

  lemma LaterSessions(ctl: Control, now: Time, later: Time)
    requires SessionsBegan(ctl, now) && now <= later
    ensures SessionsBegan(ctl, later)
  {
  }

  lemma MonotoneSplit(start: Time, a: seq<Timed>, t: Timed, b: seq<Timed>)
    requires Monotone(start, a + [t] + b)
    ensures Monotone(start, a) && start <= t.at && Monotone(t.at, b)
    ensures forall e <- a :: e.at <= t.at
  {
    var all := a + [t] + b;
    assert all[|a|] == t;
    forall i | 0 <= i < |a| ensures a[i] == all[i] {}
    forall i | 0 <= i < |b| ensures b[i] == all[|a| + 1 + i] {}
  }

  /** The same from any moment before the resume: with a clock that does not run backwards, the
      session that is resumed began during the recovery or before it. */
  lemma RecoveredAuthority(s: Sys, recovery: seq<Timed>, resume: Timed, later: seq<Timed>, t: Timed)
    requires SessionsBegan(s.ctl, s.now) && Monotone(s.now, recovery + [resume] + (later + [t]))
    requires Resumes(Run(s, recovery), resume)
    requires var now := Run(Step(Run(s, recovery), resume), later);
      Authorises(now, t) && now.ctl.biz.proposals[JobOf(now, t)].body.action == SendMarketing
    ensures var closed, now := Run(s, recovery), Run(Step(Run(s, recovery), resume), later);
      var b, started := now.ctl.biz, closed.ctl.sessions[resume.event.session].createdAt;
      var id := b.proposals[JobOf(now, t)].customer;
      started <= resume.at && Addressable(b, id, started)
  {
    hide Run, Step, Resumes, Authorises, Addressable, Monotone;
    MonotoneSplit(s.now, recovery, resume, later + [t]);
    ResumedSessionBegan(s, recovery, resume);
    FreshAuthority(Run(s, recovery), resume, later, t);
  }

  lemma ResumedSessionBegan(s: Sys, recovery: seq<Timed>, resume: Timed)
    requires SessionsBegan(s.ctl, s.now) && Monotone(s.now, recovery) && Resumes(Run(s, recovery), resume)
    requires s.now <= resume.at && forall e <- recovery :: e.at <= resume.at
    ensures var closed := Run(s, recovery).ctl;
      resume.event.session in closed.sessions && closed.sessions[resume.event.session].createdAt <= resume.at
  {
    RunSessions(s, recovery);
    RunClock(s, recovery);
    hide Run, Step;
    ResumeMeaning(Run(s, recovery), resume);
  }
}
