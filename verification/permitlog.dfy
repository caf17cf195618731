/** Every log that the permit code can write is one that the checker's concurrency and budget tests
    accept, as long as the clock does not run backwards and calls are released before their permit
    expires, or never. */
module PermitLog {
  import opened Schema
  import opened CapacityTx
  import opened Budgets
  import opened Backlogs
  import opened Checker

  datatype Call =
    | Acquiring(destination: DestId, kind: Kind, readings: Readings, token: Id)
    | Releasing(destination: DestId, token: Id, failed: bool, cooldown: int, at: Time)

  /** The capacity tables, and when each permit that was ever granted was to expire. */
  datatype Log = Log(capacity: Capacity, expiries: map<Id, Time>)

  type Destinations = map<DestId, Destination>

  function Apply(ds: Destinations, log: Log, call: Call): Log {
    match call
    case Acquiring(d, kind, r, token) =>
      if d !in ds then log
      else
        var (c, outcome) := AcquireTx(ds[d], d, kind, log.capacity, r, token);
        Log(c, if outcome == Granted then log.expiries[token := r.expiry + 30_000_000] else log.expiries)
    case Releasing(d, token, failed, cooldown, at) =>
      log.(capacity := ReleaseTx(d, log.capacity, token, failed, cooldown, at).0)
  }

  function Replay(ds: Destinations, calls: seq<Call>): Log {
    if calls == [] then Log(NO_CAPACITY, map[])
    else Apply(ds, Replay(ds, calls[..|calls| - 1]), calls[|calls| - 1])
  }

  // ----- the clock, and clients that keep to their permits -----

  function End(call: Call): Time {
    match call
    case Acquiring(_, _, r, _) => r.serve
    case Releasing(_, _, _, _, at) => at
  }

  predicate InOrder(r: Readings) { r.window <= r.probe <= r.purge <= r.expiry <= r.issue <= r.serve }

  predicate NotBefore(now: Time, call: Call) {
    match call
    case Acquiring(_, _, r, _) => now <= r.window && InOrder(r)
    case Releasing(_, _, _, _, at) => now <= at
  }

  /** A call is released by the time its permit expires. */
  predicate Prompt(log: Log, call: Call) {
    call.Releasing? && call.token in log.expiries ==> call.at <= log.expiries[call.token]
  }

  predicate InGoodTime(ds: Destinations, start: Time, calls: seq<Call>) {
    calls == [] ||
    var init, last := calls[..|calls| - 1], calls[|calls| - 1];
    && InGoodTime(ds, start, init)
    && NotBefore(if init == [] then start else End(init[|init| - 1]), last)
    && Prompt(Replay(ds, init), last)
  }

  function Now(start: Time, calls: seq<Call>): Time {
    if calls == [] then start else End(calls[|calls| - 1])
  }

  // ----- the invariant -----

  /** When a granted permit stops being in use: when it is released or expires. */
  function Closes(log: Log, token: Id): Time
    requires token in log.expiries
  {
    if token in log.capacity.completions then log.capacity.completions[token].finishedAt else log.expiries[token]
  }

  predicate GrantOk(log: Log, token: Id, now: Time)
    requires token in log.capacity.requests && token in log.expiries
  {
    var c, g := log.capacity, log.capacity.requests[token];
    && g.issuedAt <= now && log.expiries[token] <= g.issuedAt + 30_000_000
    && (if token in c.completions then g.issuedAt <= c.completions[token].finishedAt <= now
        else log.expiries[token] <= now
             || (token in c.permits && c.permits[token].destination == g.destination
                 && c.permits[token].expires == log.expiries[token]))
  }

  ghost predicate LogOk(log: Log, now: Time) {
    && log.expiries.Keys == log.capacity.requests.Keys
    && log.capacity.completions.Keys <= log.capacity.requests.Keys
    && forall token <- log.expiries :: GrantOk(log, token, now)
  }

  function InUse(log: Log, destination: DestId, at: Time): set<Id> {
    set token | token in log.capacity.requests && token in log.expiries
                && log.capacity.requests[token].destination == destination
                && log.capacity.requests[token].issuedAt <= at < Closes(log, token)
  }

  ghost predicate UseOk(ds: Destinations, log: Log) {
    && (forall token <- log.capacity.requests :: log.capacity.requests[token].destination in ds)
    && forall d <- ds :: forall at: Time :: |InUse(log, d, at)| <= ds[d].concurrency
  }

  // ----- one call -----

  lemma ReleaseOk(ds: Destinations, log: Log, call: Call, now: Time)
    requires call.Releasing? && LogOk(log, now) && UseOk(ds, log) && NotBefore(now, call) && Prompt(log, call)
    ensures LogOk(Apply(ds, log, call), End(call)) && UseOk(ds, Apply(ds, log, call))
  {
    var log' := Apply(ds, log, call);
    forall token <- log'.expiries ensures GrantOk(log', token, End(call)) { assert GrantOk(log, token, now); }
    forall d <- ds, at: Time ensures |InUse(log', d, at)| <= ds[d].concurrency {
      assert |InUse(log, d, at)| <= ds[d].concurrency;
      Fewer(InUse(log', d, at), InUse(log, d, at));
    }
  }

  /** A refused acquire only removes permits that have expired. */
  lemma RefusalOk(ds: Destinations, log: Log, call: Call, now: Time)
    requires call.Acquiring? && call.destination in ds && LogOk(log, now) && UseOk(ds, log) && NotBefore(now, call)
    requires AcquireTx(ds[call.destination], call.destination, call.kind, log.capacity, call.readings, call.token).1 != Granted
    ensures LogOk(Apply(ds, log, call), End(call)) && UseOk(ds, Apply(ds, log, call))
  {
    var log' := Apply(ds, log, call);
    forall token <- log'.expiries ensures GrantOk(log', token, End(call)) { assert GrantOk(log, token, now); }
    forall d <- ds, at: Time ensures |InUse(log', d, at)| <= ds[d].concurrency {
      assert |InUse(log, d, at)| <= ds[d].concurrency;
      assert InUse(log', d, at) == InUse(log, d, at);
    }
  }

  lemma GrantFacts(route: Destination, d: DestId, kind: Kind, c: Capacity, r: Readings, token: Id)
    requires AcquireTx(route, d, kind, c, r, token).1 == Granted
    ensures var c' := AcquireTx(route, d, kind, c, r, token).0;
      var live := Purged(c.permits, d, r.purge);
      && token !in c.requests && |LiveAt(live, d)| < route.concurrency
      && c'.permits == live[token := Permit(d, r.expiry + 30_000_000, kind)]
      && c'.requests == c.requests[token := Grant(d, Window(RowOf(c, d), r), kind, r.issue)]
      && c'.completions == c.completions
  {
  }

  lemma GrantLogOk(ds: Destinations, log: Log, call: Call, now: Time)
    requires call.Acquiring? && call.destination in ds && LogOk(log, now) && NotBefore(now, call)
    requires AcquireTx(ds[call.destination], call.destination, call.kind, log.capacity, call.readings, call.token).1 == Granted
    ensures LogOk(Apply(ds, log, call), End(call))
  {
    GrantFacts(ds[call.destination], call.destination, call.kind, log.capacity, call.readings, call.token);
    hide AcquireTx;
    var log' := Apply(ds, log, call);
    forall token <- log'.expiries ensures GrantOk(log', token, End(call)) {
      if token != call.token { assert GrantOk(log, token, now); }
    }
  }

  /** From the moment of a grant on, whatever is in use at its destination holds a stored permit. */
  lemma InUseIsLive(ds: Destinations, log: Log, call: Call, now: Time, at: Time)
    requires call.Acquiring? && call.destination in ds && LogOk(log, now) && NotBefore(now, call)
    requires call.readings.issue <= at
    ensures InUse(log, call.destination, at) <=
      LiveAt(Purged(log.capacity.permits, call.destination, call.readings.purge), call.destination)
  {
    forall token <- InUse(log, call.destination, at)
      ensures token in LiveAt(Purged(log.capacity.permits, call.destination, call.readings.purge), call.destination)
    {
      assert GrantOk(log, token, now);
    }
  }

  lemma GrantUseOk(ds: Destinations, log: Log, call: Call, now: Time, d: DestId, at: Time)
    requires call.Acquiring? && call.destination in ds && LogOk(log, now) && UseOk(ds, log) && NotBefore(now, call) && d in ds
    requires AcquireTx(ds[call.destination], call.destination, call.kind, log.capacity, call.readings, call.token).1 == Granted
    ensures |InUse(Apply(ds, log, call), d, at)| <= ds[d].concurrency
  {
    GrantFacts(ds[call.destination], call.destination, call.kind, log.capacity, call.readings, call.token);
    hide AcquireTx;
    var log' := Apply(ds, log, call);
    assert |InUse(log, d, at)| <= ds[d].concurrency;
    if d == call.destination && call.readings.issue <= at {
      var live := LiveAt(Purged(log.capacity.permits, d, call.readings.purge), d);
      InUseIsLive(ds, log, call, now, at);
      Fewer(InUse(log, d, at), live);
      assert InUse(log', d, at) <= InUse(log, d, at) + {call.token};
      Fewer(InUse(log', d, at), InUse(log, d, at) + {call.token});
    } else {
      assert InUse(log', d, at) == InUse(log, d, at);
    }
  }

  lemma CallOk(ds: Destinations, log: Log, call: Call, now: Time)
    requires LogOk(log, now) && UseOk(ds, log) && NotBefore(now, call) && Prompt(log, call)
    ensures LogOk(Apply(ds, log, call), End(call)) && UseOk(ds, Apply(ds, log, call))
  {
    match call
    case Releasing(_, _, _, _, _) => ReleaseOk(ds, log, call, now);
    case Acquiring(d, kind, r, token) =>
      if d !in ds {
        forall t <- log.expiries ensures GrantOk(log, t, End(call)) { assert GrantOk(log, t, now); }
      } else if AcquireTx(ds[d], d, kind, log.capacity, r, token).1 != Granted {
        RefusalOk(ds, log, call, now);
      } else {
        hide LogOk, GrantOk, InUse;
        GrantLogOk(ds, log, call, now);
        forall o <- ds, at: Time ensures |InUse(Apply(ds, log, call), o, at)| <= ds[o].concurrency {
          GrantUseOk(ds, log, call, now, o, at);
        }
        GrantFacts(ds[d], d, kind, log.capacity, r, token);
      }
  }

  lemma {:induction false} ReplayOk(ds: Destinations, start: Time, calls: seq<Call>)
    requires InGoodTime(ds, start, calls) && forall d <- ds :: ds[d].concurrency >= 0
    ensures LogOk(Replay(ds, calls), Now(start, calls)) && UseOk(ds, Replay(ds, calls))
  {
    if calls == [] {
      forall d <- ds, at: Time ensures |InUse(Replay(ds, calls), d, at)| <= ds[d].concurrency {
        assert InUse(Replay(ds, calls), d, at) == {};
      }
    } else {
      hide Apply, LogOk, UseOk, Prompt, NotBefore;
      var init, last := calls[..|calls| - 1], calls[|calls| - 1];
      ReplayOk(ds, start, init);
      CallOk(ds, Replay(ds, init), last, Now(start, init));
    }
  }

  // ----- the record -----

  /** A row of the record: the recorded completion, or thirty seconds after the issue. */
  function RowFor(c: Capacity, token: Id): PermitRecord
    requires token in c.requests
  {
    var g := c.requests[token];
    PermitRecord(token, g.destination, g.windowId, g.kind, g.issuedAt,
                 if token in c.completions then c.completions[token].finishedAt else g.issuedAt + 30_000_000)
  }

  predicate DistinctTokens(ps: seq<PermitRecord>) {
    forall i, j :: 0 <= i < j < |ps| ==> ps[i].token != ps[j].token
  }

  /** `ps` lists every grant once, in whatever order the query returns them. */
  ghost predicate Recorded(c: Capacity, ps: seq<PermitRecord>) {
    && DistinctTokens(ps)
    && (forall p <- ps :: p.token in c.requests && p == RowFor(c, p.token))
    && (forall token <- c.requests :: exists p <- ps :: p.token == token)
  }

  /** Every permit that was never released was issued at the very reading its expiry was set from. */
  predicate Unskewed(log: Log) {
    forall token <- log.capacity.requests | token !in log.capacity.completions ::
      token in log.expiries && log.expiries[token] == log.capacity.requests[token].issuedAt + 30_000_000
  }

  lemma {:induction false} OpenTokens(ps: seq<PermitRecord>, destination: DestId, at: Time, tokens: set<Id>)
    requires DistinctTokens(ps)
    requires forall p <- ps | OpenPermit(p, destination, at) :: p.token in tokens
    ensures |OpenAt(ps, destination, at)| <= |tokens|
  {
    if ps == [] {
      assert OpenAt(ps, destination, at) == {};
    } else {
      hide OpenPermit, OpenAt;
      var init, last := ps[..|ps| - 1], ps[|ps| - 1];
      assert ps == init + [last] && last in ps;
      OpenNext(init, last, destination, at);
      forall p <- init ensures p in ps && p.token != last.token {
        var i :| 0 <= i < |init| && init[i] == p;
        assert ps[i] == p;
      }
      if OpenPermit(last, destination, at) {
        OpenTokens(init, destination, at, tokens - {last.token});
      } else {
        OpenTokens(init, destination, at, tokens);
      }
    }
  }

  lemma RecordedUse(log: Log, now: Time, ps: seq<PermitRecord>, destination: DestId, at: Time)
    requires LogOk(log, now) && Unskewed(log) && Recorded(log.capacity, ps)
    ensures |OpenAt(ps, destination, at)| <= |InUse(log, destination, at)|
  {
    forall p <- ps | OpenPermit(p, destination, at) ensures p.token in InUse(log, destination, at) {
      assert GrantOk(log, p.token, now);
    }
    OpenTokens(ps, destination, at, InUse(log, destination, at));
  }

  lemma RecordIntervals(log: Log, now: Time, ps: seq<PermitRecord>)
    requires LogOk(log, now) && Recorded(log.capacity, ps)
    ensures forall p <- ps :: p.issued <= p.finished
  {
    forall p <- ps ensures p.issued <= p.finished { assert GrantOk(log, p.token, now); }
  }

  /** Any interleaving of acquires and releases, with a clock that does not run backwards and calls
      released before their permit expires or never, leaves a log that the concurrency test
      accepts, provided the permits that were never released were issued without skew. */
  lemma PermitLogAccepted(ds: Destinations, start: Time, calls: seq<Call>, ps: seq<PermitRecord>, limit: nat)
    requires InGoodTime(ds, start, calls) && (forall d <- ds :: 0 <= ds[d].concurrency <= limit)
    requires Recorded(Replay(ds, calls).capacity, ps) && Unskewed(Replay(ds, calls))
    ensures (forall p <- ps :: p.issued <= p.finished) && Concurrent(ps, limit)
  {
    var log := Replay(ds, calls);
    ReplayOk(ds, start, calls);
    RecordIntervals(log, Now(start, calls), ps);
    forall d: DestId, at: Time ensures |OpenAt(ps, d, at)| <= limit {
      hide OpenAt, InUse, LogOk, Recorded, Unskewed, InGoodTime, Replay;
      RecordedUse(log, Now(start, calls), ps, d, at);
      if d in ds { assert |InUse(log, d, at)| <= ds[d].concurrency; } else { NothingElsewhere(ds, log, d, at); }
    }
  }

  lemma NothingElsewhere(ds: Destinations, log: Log, d: DestId, at: Time)
    requires UseOk(ds, log) && d !in ds
    ensures InUse(log, d, at) == {}
  {
  }

  // ----- how much skew the record can bear -----

  /** How far the default of `issued_at` may lag behind the reading that the expiry is set from. */
  predicate SkewWithin(calls: seq<Call>, k: int) {
    forall call <- calls | call.Acquiring? :: call.readings.issue - call.readings.expiry <= k
  }

  predicate Grants(ds: Destinations, log: Log, call: Call) {
    && call.Acquiring? && call.destination in ds
    && AcquireTx(ds[call.destination], call.destination, call.kind, log.capacity, call.readings, call.token).1 == Granted
  }

  lemma OnlyGrantsAreLogged(ds: Destinations, log: Log, call: Call)
    ensures var log' := Apply(ds, log, call);
      if Grants(ds, log, call) then
        && log'.expiries == log.expiries[call.token := call.readings.expiry + 30_000_000]
        && call.token in log'.capacity.requests && log'.capacity.requests[call.token].issuedAt == call.readings.issue
        && log'.capacity.requests == log.capacity.requests[call.token := log'.capacity.requests[call.token]]
      else log'.expiries == log.expiries && log'.capacity.requests == log.capacity.requests
  {
  }

  predicate Exact(log: Log) {
    forall token <- log.capacity.requests ::
      token in log.expiries && log.expiries[token] == log.capacity.requests[token].issuedAt + 30_000_000
  }

  lemma ExactStep(ds: Destinations, log: Log, call: Call)
    requires Exact(log) && (call.Acquiring? ==> call.readings.issue == call.readings.expiry)
    ensures Exact(Apply(ds, log, call))
  {
    OnlyGrantsAreLogged(ds, log, call);
    hide Apply, AcquireTx;
  }

  lemma {:induction false} NoSkew(ds: Destinations, start: Time, calls: seq<Call>)
    requires InGoodTime(ds, start, calls) && SkewWithin(calls, 0)
    ensures Exact(Replay(ds, calls))
  {
    if calls != [] {
      hide Apply, Exact;
      var init, last := calls[..|calls| - 1], calls[|calls| - 1];
      assert calls == init + [last] && last in calls;
      NoSkew(ds, start, init);
      ExactStep(ds, Replay(ds, init), last);
    }
  }

  const ONE_AT_A_TIME: Destinations := map["crm" := Destination(2, 1, 1)]
  const EARLY := Acquiring("crm", DispatchCall, Readings(0, 0, 0, 0, 1, 1), 0)
  const LATE := Acquiring("crm", DispatchCall, Readings(30 * SECOND, 30 * SECOND, 30 * SECOND, 30 * SECOND, 30 * SECOND, 30 * SECOND), 1)

  lemma AfterEarly()
    ensures Replay(ONE_AT_A_TIME, [EARLY]) ==
      Log(Capacity(map["crm" := CapacityRow(0, 1, None, Some(1))], map[0 := Permit("crm", 30_000_000, DispatchCall)],
                   map[0 := Grant("crm", 0, DispatchCall, 1)], map[]), map[0 := 30_000_000])
  {
    assert [EARLY][..0] == [];
    assert LiveAt(Purged(map[], "crm", 0), "crm") == {};
    assert Purged(map[], "crm", 0) == map[];
  }

  lemma AfterLate()
    ensures Replay(ONE_AT_A_TIME, [EARLY, LATE]).capacity.requests ==
      map[0 := Grant("crm", 0, DispatchCall, 1), 1 := Grant("crm", 30, DispatchCall, 30 * SECOND)]
    ensures Replay(ONE_AT_A_TIME, [EARLY, LATE]).capacity.completions == map[]
  {
    AfterEarly();
    assert [EARLY, LATE][..1] == [EARLY];
    var permits := map[0 := Permit("crm", 30_000_000, DispatchCall)];
    assert Purged(permits, "crm", 30 * SECOND) == map[];
    assert LiveAt(Purged(permits, "crm", 30 * SECOND), "crm") == {};
  }

  /** Two permits that the code never had in use together, one microsecond of skew, no release:
      the record shows them overlapping and the test raises a false alarm. */
  lemma OneMicrosecondTooMuch()
    ensures InGoodTime(ONE_AT_A_TIME, 0, [EARLY, LATE]) && SkewWithin([EARLY, LATE], 1)
    ensures exists ps :: Recorded(Replay(ONE_AT_A_TIME, [EARLY, LATE]).capacity, ps) && !Concurrent(ps, 1)
  {
    AfterLate();
    assert [EARLY, LATE][..1] == [EARLY] && [EARLY][..0] == [];
    assert InGoodTime(ONE_AT_A_TIME, 0, []);
    assert InGoodTime(ONE_AT_A_TIME, 0, [EARLY]);
    assert InGoodTime(ONE_AT_A_TIME, 0, [EARLY, LATE]);
    var c := Replay(ONE_AT_A_TIME, [EARLY, LATE]).capacity;
    var ps := [RowFor(c, 0), RowFor(c, 1)];
    assert ps[0].token == 0 && ps[1].token == 1;
    assert Recorded(c, ps);
    assert OpenAt(ps, "crm", 30 * SECOND) == {0, 1};
    assert !Within(ps, "crm", 1);
  }

  /** Every log within the skew is accepted: for all destinations, starts, calls, records, and limits
      that no destination's concurrency exceeds. */
  ghost predicate AcceptsSkew(k: int) {
    forall ds: Destinations, start: Time, calls, ps, limit: nat |
      && InGoodTime(ds, start, calls) && SkewWithin(calls, k) && Recorded(Replay(ds, calls).capacity, ps)
      && BoundedBy(ds, limit) ::
      Concurrent(ps, limit)
  }

  predicate BoundedBy(ds: Destinations, limit: nat) { forall d <- ds :: 0 <= ds[d].concurrency <= limit }

  lemma AcceptsNoSkew()
    ensures AcceptsSkew(0)
  {
    forall ds: Destinations, start: Time, calls, ps, limit: nat |
      && InGoodTime(ds, start, calls) && SkewWithin(calls, 0) && Recorded(Replay(ds, calls).capacity, ps)
      && BoundedBy(ds, limit)
      ensures Concurrent(ps, limit)
    {
      NoSkew(ds, start, calls);
      PermitLogAccepted(ds, start, calls, ps, limit);
    }
  }

  lemma RejectsSomeSkew(k: int)
    requires 1 <= k
    ensures !AcceptsSkew(k)
  {
    OneMicrosecondTooMuch();
    var ps :| Recorded(Replay(ONE_AT_A_TIME, [EARLY, LATE]).capacity, ps) && !Concurrent(ps, 1);
    SkewGrows([EARLY, LATE], 1, k);
    assert BoundedBy(ONE_AT_A_TIME, 1);
    hide InGoodTime, Recorded, Concurrent, Replay, SkewWithin, BoundedBy;
  }

  lemma SkewGrows(calls: seq<Call>, k: int, more: int)
    requires SkewWithin(calls, k) && k <= more
    ensures SkewWithin(calls, more)
  {
  }

  /** The record's way of closing unreleased permits is exact only without skew: every log within
      a skew of `k` microseconds is accepted if and only if `k` is zero. */
  lemma SkewDecides(k: nat)
    ensures AcceptsSkew(k) <==> k == 0
  {
    hide AcceptsSkew;
    if k == 0 { AcceptsNoSkew(); } else { RejectsSomeSkew(k); }
  }
}
