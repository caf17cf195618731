/** Request budgets: whatever the clock does, a destination's windows are never overspent. */
module Budgets {
  import opened Schema
  import opened CapacityTx
  import opened ServiceTx
  import opened System
  import opened Steps
  import opened Intents
  import opened Footprints
  import opened Outbox
  import opened Runs
  import opened Backlogs
  import opened WorkerTx
  import opened Decisions
  import opened Dispatch

  function GrantsIn(requests: map<Id, Grant>, destination: DestId, window: int): set<Id> {
    set token | token in requests && requests[token].destination == destination && requests[token].windowId == window
  }

  function PermitsOf(c: Capacity, destination: DestId): set<Id> {
    set token | token in c.permits && c.permits[token].destination == destination
  }

  function DispatchesIn(requests: map<Id, Grant>, destination: DestId, window: int): set<Id> {
    set token | token in requests && requests[token].destination == destination && requests[token].windowId == window
                && requests[token].kind == DispatchCall
  }

  /** What is granted in one window, and what the capacity row knows about it. */
  predicate WindowOk(route: Destination, c: Capacity, destination: DestId, window: int) {
    var row := RowOf(c, destination);
    && |GrantsIn(c.requests, destination, window)| <= route.requestsPerSecond
    && |DispatchesIn(c.requests, destination, window)| <= route.requestsPerSecond - 1
    && (window > row.windowId ==> GrantsIn(c.requests, destination, window) == {})
    && (window == row.windowId ==> |GrantsIn(c.requests, destination, window)| == row.used)
  }

  predicate StoreOk(route: Destination, c: Capacity, destination: DestId) {
    |LiveAt(c.permits, destination)| <= route.concurrency
  }

  ghost predicate WithinBudget(cfg: Config, c: Capacity) {
    forall d <- cfg.destinations :: StoreOk(cfg.destinations[d], c, d) && forall w: int :: WindowOk(cfg.destinations[d], c, d, w)
  }

  // ----- acquire -----

  lemma PurgeShrinks(permits: map<Id, Permit>, destination: DestId, at: Time, other: DestId)
    ensures |LiveAt(Purged(permits, destination, at), other)| <= |LiveAt(permits, other)|
  {
    Fewer(LiveAt(Purged(permits, destination, at), other), LiveAt(permits, other));
  }

  lemma OneMore<T>(a: set<T>, b: set<T>, x: T)
    requires a == b + {x} && x !in b
    ensures |a| == |b| + 1
  {
  }

  lemma OtherWindow(route: Destination, c: Capacity, c': Capacity, d: DestId, w: int)
    requires WindowOk(route, c, d, w) && GrantsIn(c'.requests, d, w) == GrantsIn(c.requests, d, w)
    requires DispatchesIn(c'.requests, d, w) == DispatchesIn(c.requests, d, w)
    requires RowOf(c', d).windowId == RowOf(c, d).windowId && RowOf(c', d).used == RowOf(c, d).used
    ensures WindowOk(route, c', d, w)
  {
  }

  lemma GrantShape(route: Destination, c: Capacity, d: DestId, kind: Kind, r: Readings, token: Id)
    requires AcquireTx(route, d, kind, c, r, token).1 == Granted
    ensures var row, c' := RowOf(c, d), AcquireTx(route, d, kind, c, r, token).0;
      && token !in c.requests && Used(row, r) < Limit(route, kind)
      && RowOf(c', d).windowId == Window(row, r) && RowOf(c', d).used == Used(row, r) + 1
      && c'.requests == c.requests[token := Grant(d, Window(row, r), kind, r.issue)]
  {
  }

  lemma GrantCounts(requests: map<Id, Grant>, token: Id, g: Grant, d: DestId, w: int)
    requires token !in requests && g.destination == d
    ensures var requests' := requests[token := g];
      if g.windowId == w then
        && |GrantsIn(requests', d, w)| == |GrantsIn(requests, d, w)| + 1
        && |DispatchesIn(requests', d, w)| == |DispatchesIn(requests, d, w)| + if g.kind == DispatchCall then 1 else 0
      else GrantsIn(requests', d, w) == GrantsIn(requests, d, w) && DispatchesIn(requests', d, w) == DispatchesIn(requests, d, w)
  {
    var requests' := requests[token := g];
    if g.windowId == w {
      OneMore(GrantsIn(requests', d, w), GrantsIn(requests, d, w), token);
      if g.kind == DispatchCall {
        OneMore(DispatchesIn(requests', d, w), DispatchesIn(requests, d, w), token);
      } else {
        assert DispatchesIn(requests', d, w) == DispatchesIn(requests, d, w);
      }
    } else {
      assert GrantsIn(requests', d, w) == GrantsIn(requests, d, w);
      assert DispatchesIn(requests', d, w) == DispatchesIn(requests, d, w);
    }
  }

  /** A grant moves the window forward or stays in it, and never goes back. */
  lemma GrantWindow(route: Destination, c: Capacity, d: DestId, kind: Kind, r: Readings, token: Id, w: int)
    requires forall v: int :: WindowOk(route, c, d, v)
    requires AcquireTx(route, d, kind, c, r, token).1 == Granted && 2 <= route.requestsPerSecond
    ensures WindowOk(route, AcquireTx(route, d, kind, c, r, token).0, d, w)
  {
    GrantShape(route, c, d, kind, r, token);
    hide AcquireTx, GrantsIn, DispatchesIn;
    var window := Window(RowOf(c, d), r);
    assert WindowOk(route, c, d, w) && WindowOk(route, c, d, window);
    GrantCounts(c.requests, token, Grant(d, window, kind, r.issue), d, w);
    DispatchesAreGrants(c.requests, d, w);
  }

  lemma DispatchesAreGrants(requests: map<Id, Grant>, d: DestId, w: int)
    ensures |DispatchesIn(requests, d, w)| <= |GrantsIn(requests, d, w)|
    ensures GrantsIn(requests, d, w) == {} ==> |GrantsIn(requests, d, w)| == |DispatchesIn(requests, d, w)| == 0
  {
    Fewer(DispatchesIn(requests, d, w), GrantsIn(requests, d, w));
  }

  lemma AcquireStore(route: Destination, c: Capacity, d: DestId, kind: Kind, r: Readings, token: Id)
    requires StoreOk(route, c, d)
    ensures StoreOk(route, AcquireTx(route, d, kind, c, r, token).0, d)
  {
    PurgeShrinks(c.permits, d, r.purge, d);
    var live, c' := Purged(c.permits, d, r.purge), AcquireTx(route, d, kind, c, r, token).0;
    if AcquireTx(route, d, kind, c, r, token).1 == Granted {
      OneMore(LiveAt(c'.permits, d), LiveAt(live, d), token);
    }
  }

  lemma AcquireOthers(route: Destination, c: Capacity, d: DestId, kind: Kind, r: Readings, token: Id,
                      other: DestId, w: int)
    requires other != d
    ensures var c' := AcquireTx(route, d, kind, c, r, token).0;
      && RowOf(c', other) == RowOf(c, other) && LiveAt(c'.permits, other) == LiveAt(c.permits, other)
      && GrantsIn(c'.requests, other, w) == GrantsIn(c.requests, other, w)
      && DispatchesIn(c'.requests, other, w) == DispatchesIn(c.requests, other, w)
  {
  }

  lemma AcquireKeepsBudget(cfg: Config, c: Capacity, d: DestId, kind: Kind, r: Readings, token: Id)
    requires ValidConfig(cfg) && WithinBudget(cfg, c) && d in cfg.destinations
    ensures WithinBudget(cfg, AcquireTx(cfg.destinations[d], d, kind, c, r, token).0)
  {
    var route := cfg.destinations[d];
    var (c', outcome) := AcquireTx(route, d, kind, c, r, token);
    hide WindowOk, StoreOk;
    forall o <- cfg.destinations ensures StoreOk(cfg.destinations[o], c', o) {
      if o == d { AcquireStore(route, c, d, kind, r, token); } else { StoreElsewhere(cfg.destinations[o], route, c, d, kind, r, token, o); }
    }
    forall o: DestId, w: int | o in cfg.destinations ensures WindowOk(cfg.destinations[o], c', o, w) {
      assert WindowOk(cfg.destinations[o], c, o, w);
      if o != d {
        AcquireOthers(route, c, d, kind, r, token, o, w);
        OtherWindow(cfg.destinations[o], c, c', o, w);
      } else if outcome == Granted {
        GrantWindow(route, c, d, kind, r, token, w);
      } else {
        OtherWindow(route, c, c', d, w);
      }
    }
  }

  lemma StoreElsewhere(other: Destination, route: Destination, c: Capacity, d: DestId, kind: Kind, r: Readings,
                       token: Id, o: DestId)
    requires StoreOk(other, c, o) && o != d
    ensures StoreOk(other, AcquireTx(route, d, kind, c, r, token).0, o)
  {
    AcquireOthers(route, c, d, kind, r, token, o, 0);
  }

  lemma ReleaseKeepsBudget(cfg: Config, c: Capacity, d: DestId, token: Id, failed: bool, cooldown: int, at: Time)
    requires WithinBudget(cfg, c)
    ensures WithinBudget(cfg, ReleaseTx(d, c, token, failed, cooldown, at).0)
  {
    var c' := ReleaseTx(d, c, token, failed, cooldown, at).0;
    forall o <- cfg.destinations ensures StoreOk(cfg.destinations[o], c', o) {
      Fewer(LiveAt(c'.permits, o), LiveAt(c.permits, o));
    }
    forall o: DestId, w: int | o in cfg.destinations ensures WindowOk(cfg.destinations[o], c', o, w) {
      assert WindowOk(cfg.destinations[o], c, o, w);
      OtherWindow(cfg.destinations[o], c, c', o, w);
    }
  }

  // ----- every run -----

  lemma OthersKeepCapacity(s: Sys, e: System.Event)
    requires !e.Acquire? && !e.Release?
    ensures Act(s, e).ctl.biz.capacity == s.ctl.biz.capacity
  {
    hide Act;
    StepWrites(s, e);
    if e.Begin? || e.Verify? || e.ApproveProof? || e.Resume? || e.Deploy? { RecoveryKeepsRest(s, e); }
  }

  lemma CapacitySteps(s: Sys, e: System.Event)
    ensures e.Acquire? && e.destination in s.ctl.cfg.destinations ==>
      Act(s, e).ctl.biz.capacity ==
        AcquireTx(s.ctl.cfg.destinations[e.destination], e.destination, e.kind, s.ctl.biz.capacity, e.readings, e.token).0
    ensures e.Acquire? && e.destination !in s.ctl.cfg.destinations ==> Act(s, e).ctl.biz.capacity == s.ctl.biz.capacity
    ensures e.Release? ==>
      Act(s, e).ctl.biz.capacity == ReleaseTx(e.destination, s.ctl.biz.capacity, e.token, e.failed, e.cooldown, s.now).0
  {
    hide AcquireTx, ReleaseTx, IngestTx, LinkTx, ProposeTx, ApproveTx, ResolveTx;
  }

  lemma ActKeepsBudget(s: Sys, e: System.Event)
    requires ValidConfig(s.ctl.cfg) && WithinBudget(s.ctl.cfg, s.ctl.biz.capacity)
    ensures WithinBudget(s.ctl.cfg, Act(s, e).ctl.biz.capacity)
  {
    hide Act, WithinBudget, AcquireTx, ReleaseTx;
    var cfg, c := s.ctl.cfg, s.ctl.biz.capacity;
    CapacitySteps(s, e);
    if e.Acquire? {
      if e.destination in cfg.destinations { AcquireKeepsBudget(cfg, c, e.destination, e.kind, e.readings, e.token); }
    } else if e.Release? {
      ReleaseKeepsBudget(cfg, c, e.destination, e.token, e.failed, e.cooldown, s.now);
    } else {
      OthersKeepCapacity(s, e);
    }
  }

  lemma {:induction false} RunKeepsBudget(s: Sys, es: seq<Timed>)
    requires Local(s.ctl.cfg, s.ctl.biz) && ValidConfig(s.ctl.cfg) && WithinBudget(s.ctl.cfg, s.ctl.biz.capacity)
    ensures WithinBudget(s.ctl.cfg, Run(s, es).ctl.biz.capacity)
  {
    if es != [] {
      hide Act, WithinBudget, Local;
      RunKeepsBudget(s, es[..|es| - 1]);
      RunKeepsLocal(s, es[..|es| - 1]);
      ActKeepsBudget(Run(s, es[..|es| - 1]).(now := es[|es| - 1].at), es[|es| - 1].event);
    }
  }

  lemma FromWithinBudget(cfg: Config, policy: Hash, start: Time, es: seq<Timed>)
    requires ValidConfig(cfg)
    ensures WithinBudget(cfg, From(cfg, policy, start, es).ctl.biz.capacity)
  {
    EmptyBudget(cfg);
    RunKeepsBudget(Init(cfg, policy, start), es);
  }

  lemma EmptyBudget(cfg: Config)
    requires ValidConfig(cfg)
    ensures WithinBudget(cfg, NO_CAPACITY)
  {
    forall d <- cfg.destinations ensures StoreOk(cfg.destinations[d], NO_CAPACITY, d) {
      assert LiveAt(NO_CAPACITY.permits, d) == {};
    }
    forall d: DestId, w: int | d in cfg.destinations ensures WindowOk(cfg.destinations[d], NO_CAPACITY, d, w) {
      assert GrantsIn(NO_CAPACITY.requests, d, w) == {} && DispatchesIn(NO_CAPACITY.requests, d, w) == {};
    }
  }

  /** The permit budget, for any clock readings, including ones that jump back: no window of a
      destination is granted more than its rate, dispatches leave one request of it to receipt
      lookups, and stored permits stay within the client concurrency. */
  lemma BudgetsHold(cfg: Config, policy: Hash, start: Time, es: seq<Timed>, d: DestId, window: int)
    requires ValidConfig(cfg) && d in cfg.destinations
    ensures var c, route := From(cfg, policy, start, es).ctl.biz.capacity, cfg.destinations[d];
      && |GrantsIn(c.requests, d, window)| <= route.requestsPerSecond
      && |DispatchesIn(c.requests, d, window)| <= route.requestsPerSecond - 1
      && |PermitsOf(c, d)| <= route.concurrency
  {
    FromWithinBudget(cfg, policy, start, es);
    hide From;
    assert PermitsOf(From(cfg, policy, start, es).ctl.biz.capacity, d) == LiveAt(From(cfg, policy, start, es).ctl.biz.capacity.permits, d);
    assert WindowOk(cfg.destinations[d], From(cfg, policy, start, es).ctl.biz.capacity, d, window);
  }

  /** What the row calls spent is what was granted in that second. */
  lemma SpentIsGranted(cfg: Config, c: Capacity, d: DestId, r: Readings)
    requires WithinBudget(cfg, c) && d in cfg.destinations
    ensures Spent(c, d, r) == |GrantsIn(c.requests, d, ChargedTo(c, d, r))|
    ensures |DispatchesIn(c.requests, d, ChargedTo(c, d, r))| <= cfg.destinations[d].requestsPerSecond - 1
  {
    assert WindowOk(cfg.destinations[d], c, d, ChargedTo(c, d, r));
  }

  /** When a request is turned away, in every reachable state and in terms of what was granted before:
      the destination is cooling, its permits are all in force, or its rate has been granted in the
      second, one less for a dispatch.  Otherwise a new token gets its permit. */
  lemma RequestDecision(cfg: Config, policy: Hash, start: Time, es: seq<Timed>, d: DestId, kind: Kind, r: Readings, token: Id)
    requires ValidConfig(cfg) && d in cfg.destinations
    ensures var c, route := From(cfg, policy, start, es).ctl.biz.capacity, cfg.destinations[d];
      var granted := |GrantsIn(c.requests, d, ChargedTo(c, d, r))|;
      var refused :=
        || (d in c.rows && c.rows[d].nextProbe.Some? && r.probe < c.rows[d].nextProbe.value)
        || route.concurrency <= |InForce(c, d, r.purge)|
        || route.requestsPerSecond <= granted
        || (kind == DispatchCall && granted == route.requestsPerSecond - 1);
      && (AcquireTx(route, d, kind, c, r, token).1 == Refused <==> refused)
      && (AcquireTx(route, d, kind, c, r, token).1 == Granted <==> !refused && !TokenTaken(c, d, r, token))
  {
    FromWithinBudget(cfg, policy, start, es);
    hide From, WithinBudget, GrantsIn, DispatchesIn, AcquireTx, TokenTaken;
    var c := From(cfg, policy, start, es).ctl.biz.capacity;
    SpentIsGranted(cfg, c, d, r);
    AcquireDecision(cfg.destinations[d], d, kind, c, r, token);
  }

  /** The reserved request: in every reachable state, however many dispatches the second has seen, the
      first receipt lookup of that second is granted, given a permit to spare and no cooldown. */
  lemma ReceiptsAreReserved(cfg: Config, policy: Hash, start: Time, es: seq<Timed>, d: DestId, r: Readings, token: Id)
    requires ValidConfig(cfg) && d in cfg.destinations
    requires var c := From(cfg, policy, start, es).ctl.biz.capacity;
      && (forall t <- GrantsIn(c.requests, d, ChargedTo(c, d, r)) :: c.requests[t].kind == DispatchCall)
      && |InForce(c, d, r.purge)| < cfg.destinations[d].concurrency
      && (d in c.rows && c.rows[d].nextProbe.Some? ==> c.rows[d].nextProbe.value <= r.probe)
      && token !in c.requests && token !in c.permits
    ensures var c := From(cfg, policy, start, es).ctl.biz.capacity;
      AcquireTx(cfg.destinations[d], d, ReceiptCall, c, r, token).1 == Granted
  {
    FromWithinBudget(cfg, policy, start, es);
    RequestDecision(cfg, policy, start, es, d, ReceiptCall, r, token);
    hide From, WithinBudget, AcquireTx;
    var c := From(cfg, policy, start, es).ctl.biz.capacity;
    SpentIsGranted(cfg, c, d, r);
    assert GrantsIn(c.requests, d, ChargedTo(c, d, r)) == DispatchesIn(c.requests, d, ChargedTo(c, d, r));
  }

  // ----- cooldown -----

  predicate CoolsUntil(c: Capacity, d: DestId, until: Time) {
    d in c.rows && c.rows[d].nextProbe.Some? && until <= c.rows[d].nextProbe.value
  }

  lemma FailureCools(d: DestId, c: Capacity, token: Id, cooldown: int, at: Time)
    requires d in c.rows && token in c.requests && token !in c.completions
    ensures CoolsUntil(ReleaseTx(d, c, token, true, cooldown, at).0, d, at + cooldown * 1_000_000)
  {
  }

  lemma AcquireCools(route: Destination, d: DestId, kind: Kind, c: Capacity, r: Readings, token: Id, other: DestId,
                     until: Time)
    requires CoolsUntil(c, other, until)
    ensures CoolsUntil(AcquireTx(route, d, kind, c, r, token).0, other, until)
    ensures d == other && r.probe < until ==> AcquireTx(route, d, kind, c, r, token).1 == Refused
  {
  }

  lemma ReleaseCools(d: DestId, c: Capacity, token: Id, failed: bool, cooldown: int, at: Time, other: DestId,
                     until: Time)
    requires CoolsUntil(c, other, until)
    ensures CoolsUntil(ReleaseTx(d, c, token, failed, cooldown, at).0, other, until)
  {
  }

  lemma ActCools(s: Sys, e: System.Event, d: DestId, until: Time)
    requires CoolsUntil(s.ctl.biz.capacity, d, until)
    ensures CoolsUntil(Act(s, e).ctl.biz.capacity, d, until)
  {
    hide Act, AcquireTx, ReleaseTx, CoolsUntil;
    var c := s.ctl.biz.capacity;
    CapacitySteps(s, e);
    if e.Acquire? {
      if e.destination in s.ctl.cfg.destinations {
        AcquireCools(s.ctl.cfg.destinations[e.destination], e.destination, e.kind, c, e.readings, e.token, d, until);
      }
    } else if e.Release? {
      ReleaseCools(e.destination, c, e.token, e.failed, e.cooldown, s.now, d, until);
    } else {
      OthersKeepCapacity(s, e);
    }
  }

  lemma {:induction false} RunCools(s: Sys, es: seq<Timed>, d: DestId, until: Time)
    requires CoolsUntil(s.ctl.biz.capacity, d, until)
    ensures CoolsUntil(Run(s, es).ctl.biz.capacity, d, until)
  {
    if es != [] {
      hide Act, CoolsUntil;
      RunCools(s, es[..|es| - 1], d, until);
      ActCools(Run(s, es[..|es| - 1]).(now := es[|es| - 1].at), es[|es| - 1].event, d, until);
    }
  }

  /** After a failed call nothing is requested from a destination, and none of its jobs can be claimed,
      before its cooldown is over: later failures, successes and configuration of other destinations
      can only prolong it. */
  lemma CooldownHolds(s: Sys, token: Id, cooldown: int, es: seq<Timed>, d: DestId, route: Destination, kind: Kind,
                      r: Readings, another: Id)
    requires d in s.ctl.biz.capacity.rows && token in s.ctl.biz.capacity.requests && token !in s.ctl.biz.capacity.completions
    requires r.probe < s.now + cooldown * 1_000_000
    ensures var after := Run(Act(s, Release(d, token, true, cooldown)), es);
      && AcquireTx(route, d, kind, after.ctl.biz.capacity, r, another).1 == Refused
      && forall id: Id, now: Time | id in after.ctl.biz.routes && after.ctl.biz.routes[id] == d
                                    && now < s.now + cooldown * 1_000_000 :: !Due(after.ctl.biz, id, now)
  {
    var until := s.now + cooldown * 1_000_000;
    FailureCools(d, s.ctl.biz.capacity, token, cooldown, s.now);
    CapacitySteps(s, Release(d, token, true, cooldown));
    hide Act, Run, ReleaseTx;
    RunCools(Act(s, Release(d, token, true, cooldown)), es, d, until);
    AcquireCools(route, d, kind, Run(Act(s, Release(d, token, true, cooldown)), es).ctl.biz.capacity, r, another, d, until);
  }
}
