/** The independent checker of a recorded run: permit budget, use of permits, receipts against jobs,
    and the sweep that bounds client concurrency.  Each test is a method proved to pass exactly when
    the record has the property the test is there for. */
module Checker {
  import opened Schema

  datatype PermitRecord =
    PermitRecord(token: Id, destination: DestId, windowId: int, kind: Kind, issued: Time, finished: Time)

  // ----- the concurrency sweep -----

  datatype Edge = Edge(at: Time, delta: int)

  predicate EdgeBefore(a: Edge, b: Edge) { a.at < b.at || (a.at == b.at && a.delta <= b.delta) }

  predicate Ascending(edges: seq<Edge>) {
    forall i, j :: 0 <= i < j < |edges| ==> EdgeBefore(edges[i], edges[j])
  }

  predicate Units(edges: seq<Edge>) {
    forall e <- edges :: e.delta in {-1, 1}
  }

  function Insert(e: Edge, edges: seq<Edge>): (r: seq<Edge>)
    requires Ascending(edges)
    ensures Ascending(r) && forall x :: x in r <==> x == e || x in edges
  {
    if edges == [] then [e]
    else if EdgeBefore(e, edges[0]) then
      assert forall i :: 0 <= i < |edges| ==> EdgeBefore(edges[0], edges[i]) || i == 0;
      [e] + edges
    else
      assert forall x <- edges[1..] :: EdgeBefore(edges[0], x);
      [edges[0]] + Insert(e, edges[1..])
  }

  function Sorted(edges: seq<Edge>): (r: seq<Edge>)
    ensures Ascending(r) && forall x :: x in r <==> x in edges
  {
    if edges == [] then [] else Insert(edges[0], Sorted(edges[1..]))
  }

  /** The sum of all edges up to and including an instant. */
  function Net(edges: seq<Edge>, at: Time): int {
    if edges == [] then 0 else (if edges[0].at <= at then edges[0].delta else 0) + Net(edges[1..], at)
  }

  function Total(edges: seq<Edge>): int {
    if edges == [] then 0 else Total(edges[..|edges| - 1]) + edges[|edges| - 1].delta
  }

  lemma {:induction false} NetInsert(e: Edge, edges: seq<Edge>, at: Time)
    requires Ascending(edges)
    ensures Net(Insert(e, edges), at) == (if e.at <= at then e.delta else 0) + Net(edges, at)
  {
    if edges != [] && !EdgeBefore(e, edges[0]) {
      NetInsert(e, edges[1..], at);
    }
  }

  lemma {:induction false} NetSorted(edges: seq<Edge>, at: Time)
    ensures Net(Sorted(edges), at) == Net(edges, at)
  {
    if edges != [] {
      NetSorted(edges[1..], at);
      NetInsert(edges[0], Sorted(edges[1..]), at);
    }
  }

  lemma {:induction false} NetConcat(a: seq<Edge>, b: seq<Edge>, at: Time)
    ensures Net(a + b, at) == Net(a, at) + Net(b, at)
  {
    if a == [] {
      assert a + b == b;
    } else {
      assert (a + b)[1..] == a[1..] + b;
      NetConcat(a[1..], b, at);
    }
  }

  /** Edges that are all due, or all still to come. */
  lemma {:induction false} NetDue(edges: seq<Edge>, at: Time)
    requires forall e <- edges :: e.at <= at
    ensures Net(edges, at) == Total(edges)
  {
    if edges != [] {
      var init, last := edges[..|edges| - 1], edges[|edges| - 1];
      assert edges == init + [last];
      NetDue(init, at);
      NetConcat(init, [last], at);
    }
  }

  lemma {:induction false} NetRises(edges: seq<Edge>, at: Time)
    requires forall e <- edges :: e.at <= at ==> e.delta >= 0
    ensures Net(edges, at) >= 0
    ensures (forall e <- edges :: e.at > at) ==> Net(edges, at) == 0
  {
    if edges != [] { NetRises(edges[1..], at); }
  }

  /** Up to the last edge of an instant, the running total is the net count at that instant. */
  lemma TotalAtInstant(edges: seq<Edge>, k: nat, at: Time)
    requires k <= |edges|
    requires forall i :: 0 <= i < k ==> edges[i].at <= at
    requires forall i :: k <= i < |edges| ==> edges[i].at > at
    ensures Total(edges[..k]) == Net(edges, at)
  {
    assert edges == edges[..k] + edges[k..];
    NetConcat(edges[..k], edges[k..], at);
    NetDue(edges[..k], at);
    NetRises(edges[k..], at);
  }

  function Due(edges: seq<Edge>, at: Time): (k: nat)
    requires Ascending(edges)
    ensures k <= |edges|
    ensures forall i :: 0 <= i < k ==> edges[i].at <= at
    ensures forall i :: k <= i < |edges| ==> edges[i].at > at
  {
    if edges == [] || edges[|edges| - 1].at <= at then
      assert forall i :: 0 <= i < |edges| - 1 ==> EdgeBefore(edges[i], edges[|edges| - 1]);
      |edges|
    else Due(edges[..|edges| - 1], at)
  }

  /** Departures come first within an instant, so after an arrival only arrivals can follow. */
  lemma TotalAfterArrival(edges: seq<Edge>, k: nat)
    requires Ascending(edges) && Units(edges) && k < |edges| && edges[k].delta == 1
    ensures Total(edges[..k + 1]) <= Net(edges, edges[k].at)
  {
    var at := edges[k].at;
    assert edges == edges[..k + 1] + edges[k + 1..];
    NetConcat(edges[..k + 1], edges[k + 1..], at);
    forall e <- edges[..k + 1] ensures e.at <= at {
      var i :| 0 <= i < k + 1 && edges[i] == e;
    }
    NetDue(edges[..k + 1], at);
    forall e <- edges[k + 1..] | e.at <= at ensures e.delta >= 0 {
      var i :| k + 1 <= i < |edges| && edges[i] == e;
      assert EdgeBefore(edges[k], edges[i]);
    }
    NetRises(edges[k + 1..], at);
  }

  predicate RunningWithin(edges: seq<Edge>, k: nat, limit: nat)
    requires k <= |edges|
  {
    forall i :: 0 <= i <= k ==> Total(edges[..i]) <= limit
  }

  /** At no instant have more intervals begun than ended and the limit allows. */
  ghost predicate NeverOver(edges: seq<Edge>, limit: nat) {
    forall at: Time :: Net(edges, at) <= limit
  }

  lemma {:induction false} WithinUpTo(edges: seq<Edge>, k: nat, limit: nat)
    requires Ascending(edges) && Units(edges) && k <= |edges|
    requires NeverOver(edges, limit)
    ensures RunningWithin(edges, k, limit)
  {
    if k > 0 {
      WithinUpTo(edges, k - 1, limit);
      assert edges[..k][..k - 1] == edges[..k - 1];
      if edges[k - 1].delta == 1 { TotalAfterArrival(edges, k - 1); } else { assert edges[k - 1] in edges; }
    }
  }

  lemma RunningBoundsNet(edges: seq<Edge>, limit: nat)
    requires Ascending(edges) && RunningWithin(edges, |edges|, limit)
    ensures NeverOver(edges, limit)
  {
    hide Ascending, Total, Net;
    forall at: Time ensures Net(edges, at) <= limit { TotalAtInstant(edges, Due(edges, at), at); }
  }

  /** The running total of the sorted edges stays within the limit exactly when, at every instant,
      no more intervals have begun than ended and the limit allows. */
  lemma SweepMeaning(edges: seq<Edge>, limit: nat)
    requires Units(edges)
    ensures RunningWithin(Sorted(edges), |Sorted(edges)|, limit) <==> NeverOver(edges, limit)
  {
    var sorted := Sorted(edges);
    forall at: Time ensures Net(sorted, at) == Net(edges, at) { NetSorted(edges, at); }
    assert NeverOver(sorted, limit) <==> NeverOver(edges, limit);
    hide RunningWithin, NeverOver, Ascending, Net, Total;
    if RunningWithin(sorted, |sorted|, limit) { RunningBoundsNet(sorted, limit); }
    if NeverOver(sorted, limit) { WithinUpTo(sorted, |sorted|, limit); }
  }

  lemma RunningNext(edges: seq<Edge>, k: nat, limit: nat)
    requires k < |edges| && RunningWithin(edges, k, limit)
    ensures Total(edges[..k + 1]) == Total(edges[..k]) + edges[k].delta
    ensures RunningWithin(edges, k + 1, limit) <==> Total(edges[..k + 1]) <= limit
    ensures RunningWithin(edges, |edges|, limit) ==> RunningWithin(edges, k + 1, limit)
  {
    assert edges[..k + 1][..k] == edges[..k];
  }

  /** The loop over one destination's edges. */
  method Sweep(edges: seq<Edge>, limit: nat) returns (ok: bool)
    requires Units(edges)
    ensures ok <==> NeverOver(edges, limit)
  {
    var sorted := Sorted(edges);
    SweepMeaning(edges, limit);
    var active := 0;
    for i := 0 to |sorted|
      invariant active == Total(sorted[..i])
      invariant RunningWithin(sorted, i, limit)
    {
      RunningNext(sorted, i, limit);
      active := active + sorted[i].delta;
      if active > limit { return false; }
    }
    return true;
  }

  // ----- permits as intervals -----

  function EdgesOf(ps: seq<PermitRecord>, destination: DestId): seq<Edge> {
    if ps == [] then []
    else
      var last := ps[|ps| - 1];
      EdgesOf(ps[..|ps| - 1], destination)
        + if last.destination == destination then [Edge(last.issued, 1), Edge(last.finished, -1)] else []
  }

  predicate OpenPermit(p: PermitRecord, destination: DestId, at: Time) {
    p.destination == destination && p.issued <= at < p.finished
  }

  /** The permits of a destination that are open at an instant: issued, and not yet finished. */
  function OpenAt(ps: seq<PermitRecord>, destination: DestId, at: Time): set<nat> {
    set i: nat | i < |ps| && OpenPermit(ps[i], destination, at)
  }

  lemma {:induction false} EdgesAreUnits(ps: seq<PermitRecord>, destination: DestId)
    ensures Units(EdgesOf(ps, destination))
  {
    if ps != [] { EdgesAreUnits(ps[..|ps| - 1], destination); }
  }

  /** A completion stamped by a clock set back can precede the issue; such an interval runs backwards. */
  function Turned(p: PermitRecord): PermitRecord { p.(issued := p.finished, finished := p.issued) }

  function AllTurned(ps: seq<PermitRecord>): (r: seq<PermitRecord>)
    ensures |r| == |ps|
  {
    seq(|ps|, i requires 0 <= i < |ps| => Turned(ps[i]))
  }

  /** The permits of a destination whose interval runs backwards over an instant. */
  function BackwardsAt(ps: seq<PermitRecord>, destination: DestId, at: Time): set<nat> {
    OpenAt(AllTurned(ps), destination, at)
  }

  lemma NetInterval(p: PermitRecord, at: Time)
    ensures Net([Edge(p.issued, 1), Edge(p.finished, -1)], at) ==
      (if OpenPermit(p, p.destination, at) then 1 else 0) - (if OpenPermit(Turned(p), p.destination, at) then 1 else 0)
  {
    var start, end := [Edge(p.issued, 1)], [Edge(p.finished, -1)];
    NetConcat(start, end, at);
    assert Net(start, at) == (if p.issued <= at then 1 else 0) + Net([], at);
    assert Net(end, at) == (if p.finished <= at then -1 else 0) + Net([], at);
    assert start + end == [Edge(p.issued, 1), Edge(p.finished, -1)];
  }

  lemma OpenNext(ps: seq<PermitRecord>, p: PermitRecord, destination: DestId, at: Time)
    ensures |OpenAt(ps + [p], destination, at)| ==
      |OpenAt(ps, destination, at)| + if OpenPermit(p, destination, at) then 1 else 0
  {
    hide OpenPermit;
    var all, last: nat := ps + [p], |ps|;
    assert forall i: nat | i < last :: all[i] == ps[i];
    assert all[last] == p;
    var before, after := OpenAt(ps, destination, at), OpenAt(all, destination, at);
    if OpenPermit(p, destination, at) {
      assert after == before + {last};
      assert last !in before;
    } else {
      assert after == before;
    }
  }

  lemma BackwardsNext(ps: seq<PermitRecord>, p: PermitRecord, destination: DestId, at: Time)
    ensures |BackwardsAt(ps + [p], destination, at)| ==
      |BackwardsAt(ps, destination, at)| + if OpenPermit(Turned(p), destination, at) then 1 else 0
  {
    assert AllTurned(ps + [p]) == AllTurned(ps) + [Turned(p)];
    OpenNext(AllTurned(ps), Turned(p), destination, at);
  }

  /** What has begun less what has ended is the number of open permits less the backward ones. */
  lemma {:induction false} NetIsOpen(ps: seq<PermitRecord>, destination: DestId, at: Time)
    ensures Net(EdgesOf(ps, destination), at) == |OpenAt(ps, destination, at)| - |BackwardsAt(ps, destination, at)|
  {
    if ps != [] {
      hide Net, OpenAt, BackwardsAt;
      var init, last := ps[..|ps| - 1], ps[|ps| - 1];
      assert ps == init + [last];
      NetIsOpen(init, destination, at);
      OpenNext(init, last, destination, at);
      BackwardsNext(init, last, destination, at);
      if last.destination == destination {
        NetConcat(EdgesOf(init, destination), [Edge(last.issued, 1), Edge(last.finished, -1)], at);
        NetInterval(last, at);
      } else {
        assert EdgesOf(init, destination) + [] == EdgesOf(init, destination);
      }
    } else {
      assert OpenAt(ps, destination, at) == {} && BackwardsAt(ps, destination, at) == {};
    }
  }

  /** At every instant the destination has at most `limit` permits open. */
  ghost predicate Within(ps: seq<PermitRecord>, destination: DestId, limit: nat) {
    forall at: Time :: |OpenAt(ps, destination, at)| <= limit
  }

  ghost predicate Concurrent(ps: seq<PermitRecord>, limit: nat) {
    forall destination: DestId :: Within(ps, destination, limit)
  }

  /** The same with one open permit let pass for each that runs backwards. */
  ghost predicate NetWithin(ps: seq<PermitRecord>, destination: DestId, limit: nat) {
    forall at: Time :: |OpenAt(ps, destination, at)| <= limit + |BackwardsAt(ps, destination, at)|
  }

  ghost predicate NetConcurrent(ps: seq<PermitRecord>, limit: nat) {
    forall destination: DestId :: NetWithin(ps, destination, limit)
  }

  /** The two agree on every record whose permits end after they begin, and there are never more
      alarms than there is reason for. */
  lemma ForwardRecords(ps: seq<PermitRecord>, limit: nat)
    ensures Concurrent(ps, limit) ==> NetConcurrent(ps, limit)
    ensures (forall p <- ps :: p.issued <= p.finished) ==> (Concurrent(ps, limit) <==> NetConcurrent(ps, limit))
  {
    if Concurrent(ps, limit) {
      forall d: DestId ensures NetWithin(ps, d, limit) { assert Within(ps, d, limit); }
    }
    if NetConcurrent(ps, limit) && forall p <- ps :: p.issued <= p.finished {
      forall d: DestId ensures Within(ps, d, limit) {
        assert NetWithin(ps, d, limit);
        forall at: Time ensures |OpenAt(ps, d, at)| <= limit { NothingBackwards(ps, d, at); }
      }
    }
  }

  lemma NothingBackwards(ps: seq<PermitRecord>, destination: DestId, at: Time)
    requires forall p <- ps :: p.issued <= p.finished
    ensures BackwardsAt(ps, destination, at) == {}
  {
    forall i: nat | i < |ps| ensures !OpenPermit(AllTurned(ps)[i], destination, at) { assert ps[i] in ps; }
  }

  /** A single permit that runs backwards can hide an overload. */
  lemma BackwardsHides()
    ensures var ps := [PermitRecord(0, "crm", 0, DispatchCall, 0, 10), PermitRecord(1, "crm", 0, DispatchCall, 0, 10),
                       PermitRecord(2, "crm", 0, DispatchCall, 10, 0)];
      NetConcurrent(ps, 1) && !Concurrent(ps, 1)
  {
    var ps := [PermitRecord(0, "crm", 0, DispatchCall, 0, 10), PermitRecord(1, "crm", 0, DispatchCall, 0, 10),
               PermitRecord(2, "crm", 0, DispatchCall, 10, 0)];
    var turned := AllTurned(ps);
    assert turned[0] == Turned(ps[0]) && turned[1] == Turned(ps[1]) && turned[2] == Turned(ps[2]);
    forall d: DestId, at: Time ensures |OpenAt(ps, d, at)| <= 1 + |BackwardsAt(ps, d, at)| {
      if d == "crm" && 0 <= at < 10 {
        assert OpenAt(ps, d, at) == {0, 1} && BackwardsAt(ps, d, at) == {2};
      } else {
        assert OpenAt(ps, d, at) == {};
      }
    }
    assert forall d: DestId :: NetWithin(ps, d, 1);
    assert OpenAt(ps, "crm", 0) == {0, 1};
    assert !Within(ps, "crm", 1);
  }

  lemma EdgesNext(ps: seq<PermitRecord>, i: nat, destination: DestId)
    requires i < |ps|
    ensures EdgesOf(ps[..i + 1], destination) ==
      EdgesOf(ps[..i], destination)
        + if ps[i].destination == destination then [Edge(ps[i].issued, 1), Edge(ps[i].finished, -1)] else []
  {
    assert ps[..i + 1][..i] == ps[..i];
  }

  lemma {:induction false} NoEdges(ps: seq<PermitRecord>, destination: DestId)
    requires forall p <- ps :: p.destination != destination
    ensures EdgesOf(ps, destination) == []
  {
    if ps != [] { NoEdges(ps[..|ps| - 1], destination); }
  }

  /** `events` as the check builds it: the edges of each destination that has a permit. */
  method Edges(ps: seq<PermitRecord>) returns (events: map<DestId, seq<Edge>>)
    ensures forall d: DestId :: (if d in events then events[d] else []) == EdgesOf(ps, d)
  {
    events := map[];
    for i := 0 to |ps|
      invariant forall d: DestId :: (if d in events then events[d] else []) == EdgesOf(ps[..i], d)
    {
      var p := ps[i];
      forall d: DestId ensures EdgesOf(ps[..i + 1], d) == EdgesOf(ps[..i], d)
        + if p.destination == d then [Edge(p.issued, 1), Edge(p.finished, -1)] else [] { EdgesNext(ps, i, d); }
      var earlier := if p.destination in events then events[p.destination] else [];
      events := events[p.destination := earlier + [Edge(p.issued, 1), Edge(p.finished, -1)]];
    }
    assert ps[..|ps|] == ps;
  }

  lemma NeverOverIsOpen(ps: seq<PermitRecord>, destination: DestId, limit: nat)
    ensures NeverOver(EdgesOf(ps, destination), limit) <==> NetWithin(ps, destination, limit)
  {
    hide Net, OpenAt, BackwardsAt, EdgesOf;
    forall at: Time
      ensures Net(EdgesOf(ps, destination), at) == |OpenAt(ps, destination, at)| - |BackwardsAt(ps, destination, at)|
    {
      NetIsOpen(ps, destination, at);
    }
  }

  lemma NoEdgesWithin(ps: seq<PermitRecord>, destination: DestId, limit: nat)
    requires EdgesOf(ps, destination) == []
    ensures NeverOver(EdgesOf(ps, destination), limit)
  {
  }

  /** The concurrency test passes exactly when no destination ever has more permits open than allowed,
      counting one more as allowed for each permit that runs backwards over the instant. */
  method CheckConcurrency(ps: seq<PermitRecord>, limit: nat) returns (ok: bool)
    ensures ok <==> NetConcurrent(ps, limit)
    ensures (forall p <- ps :: p.issued <= p.finished) ==> (ok <==> Concurrent(ps, limit))
  {
    ForwardRecords(ps, limit);
    var events := Edges(ps);
    var left := events.Keys;
    forall d: DestId ensures Units(EdgesOf(ps, d)) { EdgesAreUnits(ps, d); }
    forall d: DestId ensures NeverOver(EdgesOf(ps, d), limit) <==> NetWithin(ps, d, limit) { NeverOverIsOpen(ps, d, limit); }
    forall d: DestId | d !in left ensures NetWithin(ps, d, limit) { NoEdgesWithin(ps, d, limit); }
    hide NeverOver, NetWithin, EdgesOf, Concurrent;
    while left != {}
      invariant left <= events.Keys
      invariant forall d: DestId | d !in left :: NetWithin(ps, d, limit)
      decreases left
    {
      var d :| d in left;
      var within := Sweep(events[d], limit);
      if !within { return false; }
      left := left - {d};
    }
    return true;
  }
}
