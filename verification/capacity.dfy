/** Destinations: backlog admission, fixed-window request permits, deferral. */
module CapacityTx {
  import opened Schema

  const PERMIT_TTL: Time := 30 * SECOND

  // ----- backlog -----

  predicate Pending(b: Business, id: Id, now: Time) {
    && id in b.proposals
    && if id in b.jobs then b.jobs[id].status in {Ready, Retry, Leased}
       else now < b.proposals[id].expiresAt
  }

  /** What check_backlog counts: the pending items routed to one destination. */
  function Backlog(b: Business, destination: DestId, now: Time): set<Id> {
    set id | id in b.routes && b.routes[id] == destination && Pending(b, id, now)
  }

  predicate Overloaded(cfg: Config, b: Business, destination: DestId, now: Time) {
    destination in cfg.destinations &&
    |Backlog(b, destination, now)| >= cfg.destinations[destination].backlogLimit
  }

  datatype Admission = Unrouted | To(destination: DestId) | NotAdmitted(error: Error)

  function Admit(cfg: Config, b: Business, owner: Option<Value>, now: Time): Admission {
    if cfg.destinations == map[] then Unrouted
    else match owner
      case Some(Text(name)) =>
        if name !in cfg.ownerRoutes || cfg.ownerRoutes[name] !in cfg.destinations then
          NotAdmitted(DestinationNotAuthorized)
        else if Overloaded(cfg, b, cfg.ownerRoutes[name], now) then NotAdmitted(DestinationOverloaded)
        else To(cfg.ownerRoutes[name])
      case _ => NotAdmitted(DestinationNotAuthorized)
  }

  predicate Readmissible(cfg: Config, b: Business, id: Id, now: Time) {
    id in b.routes ==> !Overloaded(cfg, b, b.routes[id], now)
  }

  // ----- permits -----

  /** The clock readings of one `acquire`, in the order in which it takes them. */
  datatype Readings =
    Readings(window: Time, probe: Time, purge: Time, expiry: Time, issue: Time, serve: Time)

  /** floor(extract(epoch ...)) of a reading. */
  function WindowOf(t: Time): int { t / SECOND }

  const FRESH_ROW := CapacityRow(0, 0, None, None)

  function RowOf(c: Capacity, destination: DestId): CapacityRow {
    if destination in c.rows then c.rows[destination] else FRESH_ROW
  }

  function Later(a: int, b: int): int { if a < b then b else a }

  function Purged(permits: map<Id, Permit>, destination: DestId, at: Time): map<Id, Permit> {
    map token | token in permits && !(permits[token].destination == destination && permits[token].expires <= at)
              :: permits[token]
  }

  function LiveAt(permits: map<Id, Permit>, destination: DestId): set<Id> {
    set token | token in permits && permits[token].destination == destination
  }

  function Window(row: CapacityRow, r: Readings): int { Later(WindowOf(r.window), row.windowId) }
  function Used(row: CapacityRow, r: Readings): int {
    if row.windowId == Window(row, r) then row.used else 0
  }
  function Limit(route: Destination, kind: Kind): int {
    route.requestsPerSecond - if kind == DispatchCall then 1 else 0
  }

  datatype Acquired = Granted | Refused | Raised

  /** A refusal still commits the new capacity row and the removal of expired permits. */
  function AcquireTx(route: Destination, destination: DestId, kind: Kind, c: Capacity, r: Readings, token: Id)
    : (Capacity, Acquired)
  {
    var row := RowOf(c, destination);
    var live := Purged(c.permits, destination, r.purge);
    var swept := c.(rows := c.rows[destination := row], permits := live);
    var eligible := row.nextProbe.None? || row.nextProbe.value <= r.probe;
    var window := Window(row, r);
    if !eligible || Used(row, r) >= Limit(route, kind) || |LiveAt(live, destination)| >= route.concurrency then
      (swept, Refused)
    else if token in live || token in c.requests then
      (c, Raised)
    else
      (Capacity(swept.rows[destination := CapacityRow(window, Used(row, r) + 1, row.nextProbe, Some(r.serve))],
                live[token := Permit(destination, r.expiry + PERMIT_TTL, kind)],
                c.requests[token := Grant(destination, window, kind, r.issue)],
                c.completions), Granted)
  }

  function Cooldown(row: CapacityRow, until: Time): CapacityRow {
    row.(nextProbe := Some(if row.nextProbe.Some? then Later(row.nextProbe.value, until) else until))
  }

  /** A second release of the same permit violates the completion key and changes nothing. */
  function ReleaseTx(destination: DestId, c: Capacity, token: Id, failed: bool, cooldown: int, at: Time)
    : (Capacity, bool)
  {
    if token !in c.requests || token in c.completions then (c, false)
    else
      var done := c.(permits := c.permits - {token}, completions := c.completions[token := Completion(at, failed)]);
      if failed && destination in c.rows then
        (done.(rows := c.rows[destination := Cooldown(c.rows[destination], at + cooldown * SECOND)]), true)
      else (done, true)
  }

  // ----- deferral -----

  const DEFERRAL: Time := SECOND / 10

  predicate Holds(b: Business, id: Id, token: Id) {
    id in b.jobs && b.jobs[id].leaseToken == Some(token) && b.jobs[id].status == Leased
  }

  function DeferTx(b: Business, id: Id, token: Id, attempted: bool, now: Time): Business {
    if !Holds(b, id, token) then b
    else
      var job := b.jobs[id];
      WithJob(b, id, job.(status := Retry, leaseToken := None, leaseUntil := None,
                          attempts := job.attempts - (if attempted then 0 else 1),
                          availableAt := now + DEFERRAL))
  }
}
