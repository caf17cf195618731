/** Why the timely network is an assumption: runs in which one POST is refused on the way, and a copy
    of it commits after the refusal has cleared the `uncertain` column, or even before. */
module Lateness {
  import opened Schema
  import opened Policy
  import opened ServiceTx
  import opened CapacityTx
  import opened Receiver
  import opened WorkerTx
  import opened Operations
  import opened System
  import opened Steps
  import opened Intents
  import opened Outbox
  import opened Runs
  import opened Timeliness
  import Truth

  const FOUNDING := SourceEvent("e", "s", 1, map[Email := Text("a@example.com")])
  const REQUEST := Command(7, 0, 1, SyncProfile, "", Welcome)
  const ROW := CustomerRow(1, map[Lifecycle := AtStage(Lead), Email := Text("a@example.com")],
                           map[Email := Provenance(Crm, "s", "e", 1)])
  const INTENT := Mutation(0, SyncProfile, 1, Profile(ROW.state))
  const POST := System.Post(1, Legacy, 7, INTENT)

  const EVENTS: seq<System.Event> := [
    Ingest(Crm, FOUNDING, 0), Propose("agent", REQUEST), Claim(7, 1, 30 * SECOND, {}), Prepare(1), Send(1),
    Deliver(POST, Some(429), 0, true), Settle(1, Status(429, None), 0), Deliver(POST, None, 0, false)]

  /** The same with both copies resolved before the worker settles: the first is answered 429, the
      second commits, and the job settles on the 429. */
  const TWICE: seq<System.Event> := EVENTS[..6] + [Deliver(POST, None, 0, false), Settle(1, Status(429, None), 0)]

  function AtZero(events: seq<System.Event>): (es: seq<Timed>)
    ensures |es| == |events|
  {
    seq(|events|, i requires 0 <= i < |events| => At(0, events[i]))
  }

  // ----- the states on the way -----

  /** An open gate, one receiver, nothing in flight and no worker. */
  predicate Idle(s: Sys) {
    && IsOpen(s) && s.ctl.cfg.destinations == map[] && s.now == 0 && s.ctl.biz.routes == map[]
    && s.posts == {} && s.replies == {} && s.workers == map[] && s.used == {} && LedgerAt(s, Legacy) == EMPTY
  }

  lemma Founded(s: Sys)
    requires Idle(s) && s.ctl.biz == NO_BUSINESS
    ensures var s' := Act(s, EVENTS[0]);
      Idle(s') && s'.ctl.biz.customers == map[0 := ROW] && s'.ctl.biz.jobs == map[] && s'.ctl.biz.proposals == map[]
  {
    hide Act, IngestTx;
    ServiceStep(s, EVENTS[0]);
    ServiceActs(s, EVENTS[0]);
    FoundingRow(s.ctl.cfg.digest);
  }

  lemma FoundingRow(digest: Doc -> Hash)
    ensures IngestTx(digest, NO_BUSINESS, Crm, FOUNDING, 0, 0).Commit?
    ensures IngestTx(digest, NO_BUSINESS, Crm, FOUNDING, 0, 0).biz.customers == map[0 := ROW]
  {
    assert Candidates(NO_BUSINESS, FOUNDING) == {};
    assert Admitted(Crm, FOUNDING, NEW_CUSTOMER) == {Email};
    assert Observe(Crm, FOUNDING, NEW_CUSTOMER) == ROW;
    assert Truth.Newcomer(NO_BUSINESS, Crm, FOUNDING, 0);
    Truth.NewcomerTx(digest, NO_BUSINESS, Crm, FOUNDING, 0, 0);
    hide IngestTx, Observe;
    Truth.IngestForShape(Truth.FoundedFor(NO_BUSINESS, Crm, FOUNDING, 0), Crm, FOUNDING, digest(OfEvent(FOUNDING)), 0, 0);
  }

  predicate Accepted(s: Sys) {
    && s.ctl.biz.customers == map[0 := ROW] && 7 in s.ctl.biz.proposals && s.ctl.biz.jobs.Keys == {7}
    && s.ctl.biz.routes == map[] && IsOpen(s) && s.ctl.cfg.destinations == map[] && s.now == 0
    && ProposalIs(s.ctl.biz.proposals[7], s.ctl.policy)
  }

  predicate ProposalIs(p: ProposalRow, policy: Hash) {
    && p.customer == 0 && p.body == REQUEST && p.policyHash == policy && p.revision == 1
    && p.decision == Allow && p.expiresAt == PROPOSAL_TTL
  }

  lemma ProposedStep(s: Sys)
    requires Idle(s) && s.ctl.biz.customers == map[0 := ROW] && s.ctl.biz.jobs == map[] && s.ctl.biz.proposals == map[]
    ensures var s' := Act(s, EVENTS[1]); Idle(s') && Accepted(s') && s'.ctl.biz.jobs == map[7 := NewJob(0)]
  {
    var cfg, b := s.ctl.cfg, s.ctl.biz;
    assert RuleAction(SyncProfile, ROW.state, 1, 1) == Ruling(Allow, PolicyAllowed);
    var p := ProposalRow(0, "agent", cfg.digest(OfCommand(REQUEST)), REQUEST, s.ctl.policy, 1, Allow, PolicyAllowed,
                         PROPOSAL_TTL, None);
    assert Decide(cfg, s.ctl.policy, b, "agent", REQUEST, ROW, 0).Commit?;
    assert ProposeTx(cfg, s.ctl.policy, true, b, "agent", REQUEST, 0)
        == Commit(b.(proposals := map[7 := p], jobs := map[7 := NewJob(0)]), Decided(Allow, PolicyAllowed)) by {
      assert b.proposals[7 := p] == map[7 := p] && b.jobs[7 := NewJob(0)] == map[7 := NewJob(0)];
    }
  }

  lemma ClaimedStep(s: Sys)
    requires Idle(s) && Accepted(s) && s.ctl.biz.jobs == map[7 := NewJob(0)]
    ensures var s' := Act(s, EVENTS[2]);
      && Accepted(s') && s'.posts == {} && s'.replies == {} && LedgerAt(s', Legacy) == EMPTY
      && Holds(s'.ctl.biz, 7, 1) && s'.ctl.biz.jobs[7].mutation == None && s'.ctl.biz.jobs[7].attempts == 1
      && s'.workers == map[1 := Worker(7, s'.ctl.biz.jobs[7], Claimed)] && !s'.ctl.biz.jobs[7].uncertain
  {
    OnlyJobIsNext(s.ctl.biz);
    hide Next, ProposalIs;
    ClaimOfOnlyJob(s);
    hide Act;
  }

  lemma ClaimOfOnlyJob(s: Sys)
    requires IsOpen(s) && s.now == 0 && s.used == {} && s.workers == map[] && 7 in s.ctl.biz.jobs
    requires Next(s.ctl.biz, {}, 7, 0)
    ensures var s' := Act(s, EVENTS[2]);
      && s'.ctl.biz == ClaimTx(s.ctl.biz, 7, 1, 30 * SECOND, 0)
      && s' == s.(ctl := s.ctl.(biz := s'.ctl.biz), used := {1}, workers := s'.workers)
      && s'.workers == map[1 := Worker(7, s'.ctl.biz.jobs[7], Claimed)]
  {
    hide Next;
  }

  lemma OnlyJobIsNext(b: Business)
    requires b.jobs == map[7 := NewJob(0)] && b.routes == map[]
    ensures Next(b, {}, 7, 0)
  {
    assert Claimable(b, 7, 0);
  }

  lemma PreparedStep(s: Sys)
    requires Accepted(s) && s.posts == {} && s.replies == {} && LedgerAt(s, Legacy) == EMPTY
    requires Holds(s.ctl.biz, 7, 1) && s.ctl.biz.jobs[7].mutation == None && s.ctl.biz.jobs[7].attempts == 1
    requires s.workers == map[1 := Worker(7, s.ctl.biz.jobs[7], Claimed)] && !s.ctl.biz.jobs[7].uncertain
    ensures var s' := Act(s, EVENTS[3]);
      && Accepted(s') && s'.posts == {} && s'.replies == {} && LedgerAt(s', Legacy) == EMPTY
      && Holds(s'.ctl.biz, 7, 1) && s'.ctl.biz.jobs[7].mutation == Some(INTENT) && s'.ctl.biz.jobs[7].attempts == 1
      && 1 in s'.workers && s'.workers[1].id == 7 && s'.workers[1].phase == Cleared(INTENT)
  {
    var p := s.ctl.biz.proposals[7];
    assert ProfileOf(ROW.state) == ROW.state;
    assert Render(ROW, p) == INTENT;
    assert Preparation(s.ctl.policy, true, s.ctl.biz, 7, 1, 0) == Authorized(INTENT);
  }

  predicate Underway(s: Sys, phase: Phase, posts: set<System.Post>) {
    && Accepted(s) && s.posts == posts && LedgerAt(s, Legacy) == EMPTY
    && Holds(s.ctl.biz, 7, 1) && s.ctl.biz.jobs[7].mutation == Some(INTENT) && s.ctl.biz.jobs[7].attempts == 1
    && 1 in s.workers && s.workers[1].id == 7 && s.workers[1].phase == phase
  }

  lemma SentStep(s: Sys)
    requires Underway(s, Cleared(INTENT), {})
    ensures Underway(Act(s, EVENTS[4]), Posted(INTENT), {POST})
  {
  }

  /** The refusal reaches the worker, and a copy of the POST stays in flight. */
  lemma RefusedStep(s: Sys)
    requires Underway(s, Posted(INTENT), {POST})
    ensures var s' := Act(s, EVENTS[5]);
      Underway(s', Posted(INTENT), {POST}) && Reply(POST, Status(429, None)) in s'.replies
  {
  }

  predicate Cleared429(s: Sys) {
    && s.ctl.biz.jobs.Keys == {7} && s.ctl.biz.routes == map[] && POST in s.posts && LedgerAt(s, Legacy) == EMPTY
    && var job := s.ctl.biz.jobs[7];
    && job.status == Retry && !job.uncertain && job.mutation == Some(INTENT)
  }

  lemma SettledStep(s: Sys)
    requires Underway(s, Posted(INTENT), {POST}) && Reply(POST, Status(429, None)) in s.replies
    ensures Cleared429(Act(s, EVENTS[6]))
  {
    assert MaySee(s, 1, s.workers[1], Status(429, None));
  }

  /** The copy arrives: an effect whose job is neither succeeded nor uncertain. */
  lemma ArrivedStep(s: Sys)
    requires Cleared429(s)
    ensures var s' := Act(s, EVENTS[7]);
      && s'.ctl == s.ctl && 7 in Effects(s'.ledgers, Legacy)
      && Effects(s'.ledgers, Legacy)[7].hash == s.ctl.cfg.digest(OfMutation(INTENT))
  {
  }

  /** The same two steps in the other order. */
  predicate AlreadyThere(s: Sys) {
    && Accepted(s) && s.posts == {} && Reply(POST, Status(429, None)) in s.replies
    && Holds(s.ctl.biz, 7, 1) && s.ctl.biz.jobs[7].mutation == Some(INTENT) && s.ctl.biz.jobs[7].attempts == 1
    && 1 in s.workers && s.workers[1].id == 7 && s.workers[1].phase == Posted(INTENT)
    && 7 in Effects(s.ledgers, Legacy) && Effects(s.ledgers, Legacy)[7].hash == s.ctl.cfg.digest(OfMutation(INTENT))
  }

  lemma CommittedStep(s: Sys)
    requires Underway(s, Posted(INTENT), {POST}) && Reply(POST, Status(429, None)) in s.replies
    ensures AlreadyThere(Act(s, TWICE[6]))
  {
  }

  lemma MistakenStep(s: Sys)
    requires AlreadyThere(s)
    ensures Mistaken(Act(s, TWICE[7]))
  {
    assert MaySee(s, 1, s.workers[1], Status(429, None));
  }

  /** An effect whose job neither succeeded nor is uncertain. */
  predicate Mistaken(s: Sys) {
    && s.ctl.biz.jobs.Keys == {7} && s.ctl.biz.routes == map[] && s.ctl.biz.jobs[7].status == Retry
    && !s.ctl.biz.jobs[7].uncertain && s.ctl.biz.jobs[7].mutation == Some(INTENT)
    && 7 in Effects(s.ledgers, Legacy) && Effects(s.ledgers, Legacy)[7].hash == s.ctl.cfg.digest(OfMutation(INTENT))
  }

  // ----- the runs -----

  ghost function AfterEvents(s: Sys, events: seq<System.Event>, n: nat): Sys
    requires n <= |events|
  {
    Run(s, AtZero(events)[..n])
  }

  lemma AfterNext(s: Sys, events: seq<System.Event>, n: nat)
    requires n < |events| && s.now == 0
    ensures AfterEvents(s, events, n + 1) == Act(AfterEvents(s, events, n), events[n])
  {
    var es := AtZero(events);
    RunNext(s, es, n);
    RunClock(s, es[..n]);
    assert AfterEvents(s, events, n).(now := 0) == AfterEvents(s, events, n);
  }

  lemma EventsStep(s: Sys, events: seq<System.Event>)
    requires s.now == 0
    ensures AfterEvents(s, events, 0) == s
    ensures forall n: nat | n < |events| :: AfterEvents(s, events, n + 1) == Act(AfterEvents(s, events, n), events[n])
  {
    forall n: nat | n < |events| ensures AfterEvents(s, events, n + 1) == Act(AfterEvents(s, events, n), events[n]) {
      hide Act, AfterEvents;
      AfterNext(s, events, n);
    }
    assert AtZero(events)[..0] == [];
  }

  function Alone(digest: Doc -> Hash): Config { Config(digest, map[], map[]) }

  lemma FirstHalf(init: Sys, events: seq<System.Event>)
    requires |events| == 8 && events[..6] == EVENTS[..6]
    requires AfterEvents(init, events, 0) == init && Idle(init) && init.ctl.biz == NO_BUSINESS
    requires forall n: nat | n < 8 :: AfterEvents(init, events, n + 1) == Act(AfterEvents(init, events, n), events[n])
    ensures var s := AfterEvents(init, events, 2); Idle(s) && Accepted(s)
    ensures Underway(AfterEvents(init, events, 4), Cleared(INTENT), {})
    ensures var s := AfterEvents(init, events, 6);
      Underway(s, Posted(INTENT), {POST}) && Reply(POST, Status(429, None)) in s.replies
  {
    assert forall k | 0 <= k < 6 :: events[k] == events[..6][k] == EVENTS[k];
    hide Act, Accepted, AfterEvents;
    Founded(AfterEvents(init, events, 0));
    ProposedStep(AfterEvents(init, events, 1));
    ClaimedStep(AfterEvents(init, events, 2));
    PreparedStep(AfterEvents(init, events, 3));
    hide Underway;
    SentStep(AfterEvents(init, events, 4));
    RefusedStep(AfterEvents(init, events, 5));
  }

  lemma LateRun(digest: Doc -> Hash, policy: Hash)
    ensures Mistaken(From(Alone(digest), policy, 0, AtZero(EVENTS)))
  {
    var init := Init(Alone(digest), policy, 0);
    assert Idle(init);
    EventsStep(init, EVENTS);
    assert AtZero(EVENTS)[..8] == AtZero(EVENTS);
    assert From(Alone(digest), policy, 0, AtZero(EVENTS)) == AfterEvents(init, EVENTS, 8);
    hide Act, Accepted, AfterEvents, Underway, Idle, Cleared429, From;
    FirstHalf(init, EVENTS);
    SettledStep(AfterEvents(init, EVENTS, 6));
    ArrivedStep(AfterEvents(init, EVENTS, 7));
    StillCleared(AfterEvents(init, EVENTS, 7), AfterEvents(init, EVENTS, 8));
  }

  lemma StillCleared(s: Sys, s': Sys)
    requires Cleared429(s) && s'.ctl == s.ctl && 7 in Effects(s'.ledgers, Legacy)
    requires Effects(s'.ledgers, Legacy)[7].hash == s.ctl.cfg.digest(OfMutation(INTENT))
    ensures Mistaken(s')
  {
  }

  lemma TwiceRun(init: Sys)
    requires AfterEvents(init, TWICE, 0) == init && Idle(init) && init.ctl.biz == NO_BUSINESS
    requires forall n: nat | n < 8 :: AfterEvents(init, TWICE, n + 1) == Act(AfterEvents(init, TWICE, n), TWICE[n])
    ensures AlreadyThere(AfterEvents(init, TWICE, 7)) && Mistaken(AfterEvents(init, TWICE, 8))
  {
    hide Act, Accepted, AfterEvents, Underway, Idle, AlreadyThere, Mistaken;
    FirstHalf(init, TWICE);
    CommittedStep(AfterEvents(init, TWICE, 6));
    MistakenStep(AfterEvents(init, TWICE, 7));
  }

  /** Without the assumption, a reachable state shows a finding other than the one that
      `TimelyComparison` leaves: whatever the digest, a POST delivered after its refusal was
      believed is an effect that reconciliation cannot pick up. */
  lemma LatePostIsNotReconcilable(digest: Doc -> Hash, policy: Hash)
    ensures var s := From(Alone(digest), policy, 0, AtZero(EVENTS));
      7 in s.ctl.biz.jobs && Unreconcilable(s, 7)
  {
    hide From, Unreconcilable, Mistaken;
    LateRun(digest, policy);
    LateFinding(From(Alone(digest), policy, 0, AtZero(EVENTS)));
  }

  /** Everything the assumption asks for but that a POST is delivered at most once. */
  ghost predicate TimelyButForCopies(s: Sys, es: seq<Timed>) {
    forall i :: 0 <= i < |es| ==> es[i].event.Deliver? || TimelyStep(Run(s, es[..i]), es[i].event)
  }

  /** Delivery at most once is needed as well: two copies of one POST, both resolved before the worker
      settles, are enough. */
  lemma TwoCopiesAreTooMany(digest: Doc -> Hash, policy: Hash)
    ensures TimelyButForCopies(Init(Alone(digest), policy, 0), AtZero(TWICE))
    ensures var s := From(Alone(digest), policy, 0, AtZero(TWICE));
      7 in s.ctl.biz.jobs && Unreconcilable(s, 7)
  {
    var init := Init(Alone(digest), policy, 0);
    assert Idle(init);
    EventsStep(init, TWICE);
    assert AtZero(TWICE)[..8] == AtZero(TWICE);
    assert From(Alone(digest), policy, 0, AtZero(TWICE)) == AfterEvents(init, TWICE, 8);
    hide Act, Unreconcilable, Mistaken, AlreadyThere, From, Run, Idle, AfterEvents;
    TwiceRun(init);
    LateFinding(AfterEvents(init, TWICE, 8));
    TwiceIsTimely(init);
  }

  lemma TwiceIsTimely(init: Sys)
    requires AfterEvents(init, TWICE, 0) == init && Idle(init) && init.ctl.biz == NO_BUSINESS
    requires forall n: nat | n < 8 :: AfterEvents(init, TWICE, n + 1) == Act(AfterEvents(init, TWICE, n), TWICE[n])
    ensures TimelyButForCopies(init, AtZero(TWICE))
  {
    hide Act, Run;
    FirstHalf(init, TWICE);
    TwiceRun(init);
    forall i | 0 <= i < 8 && !TWICE[i].Deliver? ensures TimelyStep(AfterEvents(init, TWICE, i), TWICE[i]) {
      hide AfterEvents;
      assert i == 0 || i == 1 || i == 2 || i == 3 || i == 4 || i == 7;
    }
  }

  lemma LateFinding(s: Sys)
    requires Mistaken(s)
    ensures 7 in s.ctl.biz.jobs && Unreconcilable(s, 7)
  {
    hide FindingsOf;
    var finding := Finding(7, RemoteAheadNotReconcilable);
    FindingMeaning(s.ctl.cfg.digest, LaneJobs(s.ctl.biz, Legacy), Effects(s.ledgers, Legacy), finding);
    assert RemoteFault(s.ctl.cfg.digest, LaneJobs(s.ctl.biz, Legacy), Effects(s.ledgers, Legacy), 7) == Some(finding.kind);
  }
}
