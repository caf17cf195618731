/** Bounded bypass: the claim order serves the least recently served destination first, so with one
    worker no destination that has work waiting is passed over more often than there are others. */
module Fairness {
  import opened Schema
  import opened CapacityTx
  import opened WorkerTx
  import opened System
  import opened Steps
  import opened Intents
  import opened Outbox
  import opened Runs
  import opened Dispatch
  import opened Fencing
  import opened Backlogs
  import opened Budgets

  // ----- when a destination was last served -----

  function ServedAtOf(c: Capacity, destination: DestId): Turn {
    if destination !in c.rows then NoRow
    else match c.rows[destination].lastServed
      case None => Unserved
      case Some(at) => ServedAt(at)
  }

  predicate GrantedHere(s: Sys, t: Timed, destination: DestId) {
    && t.event.Acquire? && t.event.destination == destination && destination in s.ctl.cfg.destinations
    && AcquireTx(s.ctl.cfg.destinations[destination], destination, t.event.kind, s.ctl.biz.capacity,
                 t.event.readings, t.event.token).1 == Granted
  }

  lemma AcquireTurn(route: Destination, d: DestId, kind: Kind, c: Capacity, r: Readings, token: Id, other: DestId)
    ensures var (c', outcome) := AcquireTx(route, d, kind, c, r, token);
      && (other != d ==> ServedAtOf(c', other) == ServedAtOf(c, other))
      && (outcome == Granted ==> ServedAtOf(c', d) == ServedAt(r.serve))
      && (outcome != Granted && ServedAtOf(c, d).ServedAt? ==> ServedAtOf(c', d) == ServedAtOf(c, d))
  {
  }

  lemma ReleaseTurn(d: DestId, c: Capacity, token: Id, failed: bool, cooldown: int, at: Time, other: DestId)
    ensures ServedAtOf(ReleaseTx(d, c, token, failed, cooldown, at).0, other) == ServedAtOf(c, other)
  {
  }

  /** Only a granted request of its own moves a destination back in the order. */
  lemma TurnStep(s: Sys, t: Timed, d: DestId)
    ensures var before, after := ServedAtOf(s.ctl.biz.capacity, d), ServedAtOf(Step(s, t).ctl.biz.capacity, d);
      && (GrantedHere(s, t, d) ==> after == ServedAt(t.event.readings.serve))
      && (!GrantedHere(s, t, d) && (before.ServedAt? || !t.event.Acquire? || t.event.destination != d) ==> after == before)
  {
    var s1, e, c := s.(now := t.at), t.event, s.ctl.biz.capacity;
    CapacitySteps(s1, e);
    hide Act, AcquireTx, ReleaseTx, ServedAtOf;
    if e.Acquire? {
      if e.destination in s.ctl.cfg.destinations {
        AcquireTurn(s.ctl.cfg.destinations[e.destination], e.destination, e.kind, c, e.readings, e.token, d);
      }
    } else if e.Release? {
      ReleaseTurn(e.destination, c, e.token, e.failed, e.cooldown, t.at, d);
    } else {
      OthersKeepCapacity(s1, e);
    }
  }

  // ----- rounds -----

  /** A claim, and everything until the next one. */
  datatype Round = Round(claim: Timed, rest: seq<Timed>)

  function EventsOf(r: Round): seq<Timed> { [r.claim] + r.rest }

  /** The claim takes a job of `destination`, and what is requested until the next claim is
      requested there. */
  ghost predicate Takes(s: Sys, r: Round, destination: DestId) {
    && r.claim.event.Claim? && r.claim.event.locked == {}
    && Claims(s.(now := r.claim.at), r.claim.event, r.claim.event.id)
    && r.claim.event.id in s.ctl.biz.routes && s.ctl.biz.routes[r.claim.event.id] == destination
  }

  ghost predicate ServedIn(s: Sys, rest: seq<Timed>, d: DestId) {
    exists i: nat :: i < |rest| && GrantedHere(Run(s, rest[..i]), rest[i], d)
  }

  /** One worker: no other claim, requests only for the claimed job, at readings after `since`,
      and at least one of them granted. */
  ghost predicate Serves(s: Sys, rest: seq<Timed>, destination: DestId, since: Time) {
    && (forall t <- rest :: !t.event.Claim?)
    && (forall t <- rest | t.event.Acquire? :: t.event.destination == destination && since < t.event.readings.serve)
    && ServedIn(s, rest, destination)
  }

  /** The destination is out of cooldown and has a job that could be claimed. */
  ghost predicate HasWork(b: Business, destination: DestId, at: Time) {
    exists id: Id :: Due(b, id, at) && id in b.routes && b.routes[id] == destination
  }

  predicate AllRouted(b: Business) { forall id <- b.jobs :: id in b.routes }

  /** `destination` has work, and the round takes and serves another one. */
  ghost predicate Bypasses(s: Sys, r: Round, taken: DestId, destination: DestId, since: Time) {
    && taken != destination && Takes(s, r, taken)
    && AllRouted(s.ctl.biz) && HasWork(s.ctl.biz, destination, r.claim.at)
    && Serves(Step(s, r.claim), r.rest, taken, since)
  }

  ghost function AfterRound(s: Sys, r: Round): Sys { Run(s, EventsOf(r)) }

  /** Each of the rounds bypasses the destination. */
  ghost predicate PassedOver(s: Sys, rounds: seq<Round>, destination: DestId, since: Time)
    decreases |rounds|
  {
    rounds == [] || (
      && (exists taken: DestId :: Bypasses(s, rounds[0], taken, destination, since))
      && PassedOver(AfterRound(s, rounds[0]), rounds[1..], destination, since))
  }

  // ----- one round -----

  /** Never served, or served no later than `since`. */
  predicate NotServedSince(turn: Turn, since: Time) { turn.ServedAt? ==> turn.at <= since }

  /** The claim order never takes a destination that was served after one that has work. */
  lemma TakenIsNotLater(s: Sys, r: Round, taken: DestId, d: DestId)
    requires Takes(s, r, taken) && AllRouted(s.ctl.biz) && HasWork(s.ctl.biz, d, r.claim.at)
    ensures !TurnBefore(ServedAtOf(s.ctl.biz.capacity, d), ServedAtOf(s.ctl.biz.capacity, taken))
  {
    var b := s.ctl.biz;
    var id: Id :| Due(b, id, r.claim.at) && id in b.routes && b.routes[id] == d;
    assert TurnOf(b, id) == ServedAtOf(b.capacity, d) && TurnOf(b, r.claim.event.id) == ServedAtOf(b.capacity, taken);
    if id != r.claim.event.id { assert SortedBefore(b, r.claim.event.id, id); }
  }

  lemma ClaimKeepsTurns(s: Sys, t: Timed, d: DestId)
    requires t.event.Claim?
    ensures ServedAtOf(Step(s, t).ctl.biz.capacity, d) == ServedAtOf(s.ctl.biz.capacity, d)
  {
    TurnStep(s, t, d);
  }

  /** Elsewhere the order stays as it is. */
  lemma {:induction false} RestElsewhere(s: Sys, rest: seq<Timed>, d: DestId)
    requires forall t <- rest | t.event.Acquire? :: t.event.destination != d
    ensures ServedAtOf(Run(s, rest).ctl.biz.capacity, d) == ServedAtOf(s.ctl.biz.capacity, d)
  {
    if rest != [] {
      var init, last := rest[..|rest| - 1], rest[|rest| - 1];
      assert rest == init + [last];
      hide Step, ServedAtOf;
      RestElsewhere(s, init, d);
      assert last in rest;
      TurnStep(Run(s, init), last, d);
    }
  }

  predicate ServedAfter(turn: Turn, since: Time) { turn.ServedAt? && since < turn.at }

  lemma ServedEarlier(s: Sys, rest: seq<Timed>, last: Timed, d: DestId)
    requires ServedIn(s, rest + [last], d)
    ensures ServedIn(s, rest, d) || GrantedHere(Run(s, rest), last, d)
  {
    var all := rest + [last];
    hide Run, GrantedHere;
    var i: nat :| i < |all| && GrantedHere(Run(s, all[..i]), all[i], d);
    if i < |rest| {
      assert all[..i] == rest[..i] && all[i] == rest[i];
    } else {
      assert all[..i] == rest && all[i] == last;
    }
  }

  lemma StaysAfter(s: Sys, t: Timed, d: DestId, since: Time)
    requires t.event.Acquire? ==> since < t.event.readings.serve
    requires ServedAfter(ServedAtOf(s.ctl.biz.capacity, d), since) || GrantedHere(s, t, d)
    ensures ServedAfter(ServedAtOf(Step(s, t).ctl.biz.capacity, d), since)
  {
    hide Step, ServedAtOf;
    TurnStep(s, t, d);
    if GrantedHere(s, t, d) { GrantHasReadings(s, t, d); }
  }

  /** A destination that is once served after `since` stays so. */
  lemma {:induction false} RestStaysAfter(s: Sys, rest: seq<Timed>, d: DestId, since: Time)
    requires forall t <- rest | t.event.Acquire? :: since < t.event.readings.serve
    requires ServedAfter(ServedAtOf(s.ctl.biz.capacity, d), since) || ServedIn(s, rest, d)
    ensures ServedAfter(ServedAtOf(Run(s, rest).ctl.biz.capacity, d), since)
  {
    if rest != [] {
      var init, last := rest[..|rest| - 1], rest[|rest| - 1];
      assert rest == init + [last];
      hide Step, ServedAtOf, GrantedHere, ServedIn, ServedAfter;
      assert last in rest;
      if ServedIn(s, rest, d) { ServedEarlier(s, init, last, d); }
      if ServedAfter(ServedAtOf(s.ctl.biz.capacity, d), since) || ServedIn(s, init, d) { RestStaysAfter(s, init, d, since); }
      StaysAfter(Run(s, init), last, d, since);
    } else {
      assert !ServedIn(s, rest, d);
    }
  }

  lemma GrantHasReadings(s: Sys, t: Timed, d: DestId)
    requires GrantedHere(s, t, d)
    ensures t.event.Acquire?
  {
  }

  lemma RoundRun(s: Sys, r: Round)
    ensures Run(s, EventsOf(r)) == Run(Step(s, r.claim), r.rest)
  {
    RunConcat(s, [r.claim], r.rest);
    assert [r.claim][..0] == [];
  }

  /** What one round does to the order: the taken destination and those behind `since` are after
      it now, and the one that was passed over is where it was. */
  lemma RoundTurns(s: Sys, r: Round, taken: DestId, d: DestId, since: Time)
    requires taken != d && Takes(s, r, taken) && Serves(Step(s, r.claim), r.rest, taken, since)
    ensures var c, c' := s.ctl.biz.capacity, AfterRound(s, r).ctl.biz.capacity;
      && ServedAtOf(c', d) == ServedAtOf(c, d)
      && ServedAfter(ServedAtOf(c', taken), since)
      && forall other: DestId | ServedAfter(ServedAtOf(c, other), since) :: ServedAfter(ServedAtOf(c', other), since)
  {
    hide Step, Run, ServedAtOf, GrantedHere, Claims;
    var mid := Step(s, r.claim);
    RoundRun(s, r);
    ClaimKeepsTurns(s, r.claim, d);
    RestElsewhere(mid, r.rest, d);
    RestStaysAfter(mid, r.rest, taken, since);
    forall other: DestId | ServedAfter(ServedAtOf(s.ctl.biz.capacity, other), since)
      ensures ServedAfter(ServedAtOf(AfterRound(s, r).ctl.biz.capacity, other), since)
    {
      ClaimKeepsTurns(s, r.claim, other);
      RestStaysAfter(mid, r.rest, other, since);
    }
  }

  lemma RoundKeepsConfig(s: Sys, r: Round)
    requires Local(s.ctl.cfg, s.ctl.biz)
    ensures var s' := AfterRound(s, r); s'.ctl.cfg == s.ctl.cfg && Local(s'.ctl.cfg, s'.ctl.biz)
  {
    RunKeepsLocal(s, EventsOf(r));
  }

  // ----- any number of rounds -----

  lemma TakenIsRegistered(s: Sys, r: Round, taken: DestId)
    requires Local(s.ctl.cfg, s.ctl.biz) && Takes(s, r, taken)
    ensures taken in s.ctl.cfg.destinations
  {
  }

  /** The destinations that have been served since, none of which is taken again. */
  ghost predicate ServedSince(s: Sys, done: set<DestId>, d: DestId, since: Time) {
    && done <= s.ctl.cfg.destinations.Keys - {d}
    && forall o <- done :: ServedAfter(ServedAtOf(s.ctl.biz.capacity, o), since)
  }

  lemma LaterIsBehind(turn: Turn, other: Turn, since: Time)
    requires NotServedSince(turn, since) && ServedAfter(other, since)
    ensures TurnBefore(turn, other)
  {
  }

  lemma RoundGrows(s: Sys, r: Round, taken: DestId, d: DestId, since: Time, done: set<DestId>)
    requires Local(s.ctl.cfg, s.ctl.biz) && Bypasses(s, r, taken, d, since) && ServedSince(s, done, d, since)
    requires NotServedSince(ServedAtOf(s.ctl.biz.capacity, d), since)
    ensures taken !in done
    ensures var s' := AfterRound(s, r);
      && s'.ctl.cfg == s.ctl.cfg && Local(s'.ctl.cfg, s'.ctl.biz) && ServedSince(s', done + {taken}, d, since)
      && NotServedSince(ServedAtOf(s'.ctl.biz.capacity, d), since)
  {
    hide Local, Takes, Serves, AfterRound, ServedAtOf, HasWork, NotServedSince, ServedAfter;
    TakenIsRegistered(s, r, taken);
    TakenIsNotLater(s, r, taken, d);
    if taken in done {
      LaterIsBehind(ServedAtOf(s.ctl.biz.capacity, d), ServedAtOf(s.ctl.biz.capacity, taken), since);
    }
    RoundTurns(s, r, taken, d, since);
    RoundKeepsConfig(s, r);
  }

  lemma {:induction false} BypassFrom(s: Sys, rounds: seq<Round>, d: DestId, since: Time, done: set<DestId>)
    requires Local(s.ctl.cfg, s.ctl.biz) && d in s.ctl.cfg.destinations && PassedOver(s, rounds, d, since)
    requires NotServedSince(ServedAtOf(s.ctl.biz.capacity, d), since) && ServedSince(s, done, d, since)
    ensures |rounds| + |done| <= |s.ctl.cfg.destinations.Keys| - 1
    decreases |rounds|
  {
    if rounds == [] {
      Fewer(done, s.ctl.cfg.destinations.Keys - {d});
    } else {
      hide Local, Bypasses, AfterRound, NotServedSince, ServedSince;
      var taken: DestId :| Bypasses(s, rounds[0], taken, d, since);
      RoundGrows(s, rounds[0], taken, d, since, done);
      BypassFrom(AfterRound(s, rounds[0]), rounds[1..], d, since, done + {taken});
    }
  }

  /** Bounded bypass: with one worker, all jobs routed, readings after the last service of the
      destination and every claimed job served before the next claim, a destination that keeps
      having claimable work is passed over at most as often as there are other destinations. */
  lemma BoundedBypass(s: Sys, rounds: seq<Round>, d: DestId, since: Time)
    requires Local(s.ctl.cfg, s.ctl.biz) && d in s.ctl.cfg.destinations && PassedOver(s, rounds, d, since)
    requires NotServedSince(ServedAtOf(s.ctl.biz.capacity, d), since)
    ensures |rounds| <= |s.ctl.cfg.destinations.Keys| - 1
  {
    BypassFrom(s, rounds, d, since, {});
  }

  /** Within one destination the job that has been due longest goes first. */
  lemma OldestFirst(b: Business, locked: set<Id>, id: Id, other: Id, now: Time)
    requires FirstDue(b, locked, id, now) && Due(b, other, now) && other !in locked
    requires id in b.routes && other in b.routes && b.routes[id] == b.routes[other]
    ensures b.jobs[id].availableAt <= b.jobs[other].availableAt
  {
    if other != id { assert SortedBefore(b, id, other); }
  }
}
