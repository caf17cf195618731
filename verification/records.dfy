/** What an accepted record is, position by position and without the maps and lists that the checker
    builds: the whole check is proved to pass exactly such records. */
module Records {
  import opened Schema
  import opened Checker
  import opened PermitLog
  import opened Acceptance

  // ----- permits -----

  function IssuedIn(ps: seq<PermitRecord>, d: DestId, w: int): set<nat> {
    set i: nat | i < |ps| && ps[i].destination == d && ps[i].windowId == w
  }

  lemma {:induction false} IssuedCount(ps: seq<PermitRecord>, d: DestId, w: int)
    ensures Issued(ps, d, w) == |IssuedIn(ps, d, w)|
  {
    if ps != [] {
      var init, last := ps[..|ps| - 1], ps[|ps| - 1];
      assert ps == init + [last];
      IssuedCount(init, d, w);
      IssuedMore(init, last, d, w);
    }
  }

  lemma IssuedMore(ps: seq<PermitRecord>, p: PermitRecord, d: DestId, w: int)
    ensures |IssuedIn(ps + [p], d, w)| == |IssuedIn(ps, d, w)| + if Counted(p, d, w) then 1 else 0
  {
    var all, last: nat := ps + [p], |ps|;
    assert forall i: nat | i < last :: all[i] == ps[i];
    var before, after := IssuedIn(ps, d, w), IssuedIn(all, d, w);
    if Counted(p, d, w) {
      assert after == before + {last};
      assert last !in before;
    } else {
      assert after == before;
    }
  }

  lemma {:induction false} ByTokenValue(ps: seq<PermitRecord>, token: Id)
    ensures token in ByToken(ps) ==> ByToken(ps)[token] in ps && ByToken(ps)[token].token == token
    ensures forall p <- ps :: p.token in ByToken(ps)
  {
    if ps != [] {
      ByTokenValue(ps[..|ps| - 1], token);
      assert ps == ps[..|ps| - 1] + [ps[|ps| - 1]];
    }
  }

  /** Some permit of this receiver and of the kind of the request is the one it carried. */
  ghost predicate HasPermit(ps: seq<PermitRecord>, name: DestId, r: Request) {
    exists p <- ps :: p.token == r.permit && p.destination == name && p.kind == if r.isGet then ReceiptCall else DispatchCall
  }

  lemma CoveredMeaning(ps: seq<PermitRecord>, name: DestId, r: Request)
    requires DistinctTokens(ps)
    ensures Covered(ByToken(ps), name, r) <==> HasPermit(ps, name, r)
  {
    ByTokenValue(ps, r.permit);
    if HasPermit(ps, name, r) {
      var p :| p in ps && p.token == r.permit && p.destination == name && p.kind == (if r.isGet then ReceiptCall else DispatchCall);
      OneRecord(ps, p, ByToken(ps)[r.permit]);
    }
  }

  lemma OneRecord(ps: seq<PermitRecord>, p: PermitRecord, q: PermitRecord)
    requires DistinctTokens(ps) && p in ps && q in ps && p.token == q.token
    ensures p == q
  {
    var i :| 0 <= i < |ps| && ps[i] == p;
    var j :| 0 <= j < |ps| && ps[j] == q;
  }

  // ----- permits are used once -----

  /** No two requests, at one receiver or at two, carried the same permit. */
  predicate UsedOnce(lanes: seq<LaneRecord>) {
    forall i, j, a, b | 0 <= i < |lanes| && 0 <= j < |lanes| && 0 <= a < |lanes[i].requests| && 0 <= b < |lanes[j].requests|
                        && lanes[i].requests[a].permit == lanes[j].requests[b].permit :: i == j && a == b
  }

  ghost predicate Uses(lanes: seq<LaneRecord>, token: Id) {
    exists lane <- lanes :: exists r <- lane.requests :: r.permit == token
  }

  lemma {:induction false} SentTokens(lanes: seq<LaneRecord>, token: Id)
    ensures token in SentIn(lanes) <==> Uses(lanes, token)
  {
    if lanes != [] {
      var init, last := lanes[..|lanes| - 1], lanes[|lanes| - 1];
      assert lanes == init + [last];
      SentTokens(init, token);
      PermitsMembers(last.requests, token);
    }
  }

  lemma PermitsMembers(rs: seq<Request>, token: Id)
    ensures token in PermitsOf(rs) <==> exists r <- rs :: r.permit == token
  {
    if token in PermitsOf(rs) {
      var i :| 0 <= i < |rs| && PermitsOf(rs)[i] == token;
      assert rs[i] in rs;
    }
    if r :| r in rs && r.permit == token {
      var i :| 0 <= i < |rs| && rs[i] == r;
      assert PermitsOf(rs)[i] == token;
    }
  }

  lemma NoReplayConcat(a: seq<Id>, b: seq<Id>)
    ensures NoReplay(a + b) <==> NoReplay(a) && NoReplay(b) && forall token <- a :: token !in b
  {
    var all := a + b;
    if NoReplay(all) {
      forall i, j | 0 <= i < j < |a| ensures a[i] != a[j] { assert all[i] != all[j]; }
      forall i, j | 0 <= i < j < |b| ensures b[i] != b[j] { assert all[|a| + i] != all[|a| + j]; }
      forall token | token in a ensures token !in b {
        var i :| 0 <= i < |a| && a[i] == token;
        forall j | 0 <= j < |b| ensures b[j] != token { assert all[i] != all[|a| + j]; }
      }
    }
    if NoReplay(a) && NoReplay(b) && forall token <- a :: token !in b {
      forall i, j | 0 <= i < j < |all| ensures all[i] != all[j] {
        if i < |a| <= j { assert a[i] in a && b[j - |a|] in b; }
      }
    }
  }

  lemma {:induction false} ReplayMeaning(lanes: seq<LaneRecord>)
    ensures NoReplay(SentIn(lanes)) <==> UsedOnce(lanes)
  {
    if lanes != [] {
      var init, last := lanes[..|lanes| - 1], lanes[|lanes| - 1];
      assert lanes == init + [last];
      ReplayMeaning(init);
      NoReplayConcat(SentIn(init), PermitsOf(last.requests));
      forall token: Id ensures token in SentIn(init) <==> Uses(init, token) { SentTokens(init, token); }
      hide UsedOnce, SentIn, NoReplay, Uses;
      assert Elsewhere(init, last) <==> forall token <- SentIn(init) :: token !in PermitsOf(last.requests);
      OneMore(init, last);
      if UsedOnce(lanes) { LastOne(init, last); }
    }
  }

  ghost predicate Elsewhere(init: seq<LaneRecord>, last: LaneRecord) {
    forall token <- PermitsOf(last.requests) :: !Uses(init, token)
  }

  lemma OneMore(init: seq<LaneRecord>, last: LaneRecord)
    ensures UsedOnce(init) && NoReplay(PermitsOf(last.requests)) && Elsewhere(init, last) ==> UsedOnce(init + [last])
  {
    if UsedOnce(init) && NoReplay(PermitsOf(last.requests)) && Elsewhere(init, last) {
      var lanes := init + [last];
      forall k, c | 0 <= k < |init| && 0 <= c < |init[k].requests| ensures Uses(init, init[k].requests[c].permit) {
        assert init[k] in init && init[k].requests[c] in init[k].requests;
      }
      forall c | 0 <= c < |last.requests| ensures !Uses(init, last.requests[c].permit) {
        assert PermitsOf(last.requests)[c] in PermitsOf(last.requests);
      }
      forall a, b | 0 <= a < b < |last.requests| ensures last.requests[a].permit != last.requests[b].permit {
        assert PermitsOf(last.requests)[a] != PermitsOf(last.requests)[b];
      }
      hide Uses, Elsewhere, NoReplay;
      forall i, j, a, b | 0 <= i < |lanes| && 0 <= j < |lanes| && 0 <= a < |lanes[i].requests| && 0 <= b < |lanes[j].requests|
                          && lanes[i].requests[a].permit == lanes[j].requests[b].permit
        ensures i == j && a == b
      {
        if i < |init| && j < |init| { assert init[i] == lanes[i] && init[j] == lanes[j]; }
      }
    }
  }

  lemma LastOne(init: seq<LaneRecord>, last: LaneRecord)
    requires UsedOnce(init + [last])
    ensures UsedOnce(init) && NoReplay(PermitsOf(last.requests)) && Elsewhere(init, last)
  {
    var lanes, mine := init + [last], PermitsOf(last.requests);
    assert lanes[|init|] == last && forall i | 0 <= i < |init| :: lanes[i] == init[i];
    forall token <- mine ensures !Uses(init, token) {
      var b :| 0 <= b < |mine| && mine[b] == token;
      forall lane <- init, r <- lane.requests ensures r.permit != token {
        var i :| 0 <= i < |init| && init[i] == lane;
        var a :| 0 <= a < |lane.requests| && lane.requests[a] == r;
        assert lanes[i].requests[a].permit == r.permit && lanes[|init|].requests[b].permit == token;
      }
    }
    forall a, b | 0 <= a < b < |mine| ensures mine[a] != mine[b] {
      assert lanes[|init|].requests[a].permit == mine[a] && lanes[|init|].requests[b].permit == mine[b];
    }
  }

  // ----- receipts -----

  /** A receiver of that name holds that effect. */
  ghost predicate HasEffect(lanes: seq<LaneRecord>, name: DestId, e: EffectRecord) {
    exists lane <- lanes :: lane.name == name && e in lane.effects
  }

  lemma {:induction false} FoundHeld(found: Found, name: DestId, effects: seq<EffectRecord>, key: Id)
    requires key in FoundInto(found, name, effects)
    ensures var (at, e) := FoundInto(found, name, effects)[key];
      (key in found && found[key] == (at, e)) || (at == name && e in effects && e.key == key)
  {
    if effects != [] {
      var init, last := effects[..|effects| - 1], effects[|effects| - 1];
      assert effects == init + [last];
      if last.key != key { FoundHeld(found, name, init, key); }
    }
  }

  lemma {:induction false} FoundIsHeld(lanes: seq<LaneRecord>, key: Id)
    requires key in FoundIn(lanes)
    ensures var (at, e) := FoundIn(lanes)[key]; e.key == key && HasEffect(lanes, at, e)
  {
    var init, last := lanes[..|lanes| - 1], lanes[|lanes| - 1];
    assert lanes == init + [last];
    FoundHeld(FoundIn(init), last.name, last.effects, key);
    if key in FoundIn(init) && FoundIn(init)[key] == FoundIn(lanes)[key] { FoundIsHeld(init, key); }
  }

  /** With unique keys the map has what the receivers hold. */
  lemma HeldIsFound(lanes: seq<LaneRecord>, key: Id)
    requires OneOfEachKey(lanes)
    ensures forall name: DestId, e: EffectRecord | e.key == key ::
      HasEffect(lanes, name, e) <==> key in FoundIn(lanes) && FoundIn(lanes)[key] == (name, e)
  {
    KeysIn(lanes, key);
    if key in FoundIn(lanes) { FoundIsHeld(lanes, key); }
    forall name: DestId, e: EffectRecord | e.key == key && HasEffect(lanes, name, e)
      ensures key in FoundIn(lanes) && FoundIn(lanes)[key] == (name, e)
    {
      assert key in FoundIn(lanes);
      OneHolder(lanes, name, e, FoundIn(lanes)[key].0, FoundIn(lanes)[key].1);
    }
  }

  lemma OneHolder(lanes: seq<LaneRecord>, name: DestId, e: EffectRecord, name': DestId, e': EffectRecord)
    requires OneOfEachKey(lanes) && HasEffect(lanes, name, e) && HasEffect(lanes, name', e') && e.key == e'.key
    ensures name == name' && e == e'
  {
    var lane :| lane in lanes && lane.name == name && e in lane.effects;
    var lane' :| lane' in lanes && lane'.name == name' && e' in lane'.effects;
    var i :| 0 <= i < |lanes| && lanes[i] == lane;
    var j :| 0 <= j < |lanes| && lanes[j] == lane';
    var a :| 0 <= a < |lane.effects| && lane.effects[a] == e;
    var b :| 0 <= b < |lane'.effects| && lane'.effects[b] == e';
    assert lanes[i].effects[a].key == lanes[j].effects[b].key;
  }

  /** A success has the effect that it names, at its own receiver; anything else is over, and no
      receiver holds an effect under its key. */
  ghost predicate Settled(lanes: seq<LaneRecord>, job: JobRecord) {
    && (job.claims.Some? ==> job.claims.value >= job.attempts && job.attempts >= 1)
    && (job.status == Succeeded ==>
          job.receipt.Some? && HasEffect(lanes, job.destination, EffectRecord(job.id, job.hash, job.receipt.value)))
    && (job.status != Succeeded ==> job.status in {Blocked, Dead} && forall lane <- lanes, e <- lane.effects :: e.key != job.id)
  }

  lemma SettledMeaning(lanes: seq<LaneRecord>, job: JobRecord)
    requires OneOfEachKey(lanes)
    ensures ClaimsAddUp(job) && SettledBy(job, Lookup(FoundIn(lanes), job.id)) <==> Settled(lanes, job)
  {
    HeldIsFound(lanes, job.id);
    KeysIn(lanes, job.id);
    if job.id in FoundIn(lanes) { FoundIsHeld(lanes, job.id); }
    hide FoundIn, HasEffect, OneOfEachKey;
  }

  // ----- the whole record -----

  function OpenIn(ps: seq<PermitRecord>, d: DestId, at: Time): set<nat> {
    set i: nat | i < |ps| && ps[i].destination == d && ps[i].issued <= at < ps[i].finished
  }

  function BackwardIn(ps: seq<PermitRecord>, d: DestId, at: Time): set<nat> {
    set i: nat | i < |ps| && ps[i].destination == d && ps[i].finished <= at < ps[i].issued
  }

  /** What an accepted record says: no permit is recorded twice, and none is used twice or by a request of
      another receiver or kind; no second of a destination has more permits than its rate; no key has
      two effects; every job is settled, and every effect belongs to a job; and in a long run no
      destination ever has more permits open than clients, but for those that run backwards. */
  ghost predicate Sound(record: RunRecord) {
    var ps, lanes := record.grants, record.lanes;
    && (forall i, j :: 0 <= i < j < |ps| ==> ps[i].token != ps[j].token)
    && (forall d: DestId, w: int :: |IssuedIn(ps, d, w)| <= record.requestsPerSecond)
    && (forall lane <- lanes :: forall r <- lane.requests :: HasPermit(ps, lane.name, r))
    && UsedOnce(lanes) && OneOfEachKey(lanes)
    && (forall job <- record.jobs :: Settled(lanes, job))
    && AllOwned(lanes, record.jobs)
    && (record.long ==> forall d: DestId, at: Time ::
          |OpenIn(ps, d, at)| <= record.clientConcurrency + |BackwardIn(ps, d, at)|)
  }

  lemma PermitsMeaning(record: RunRecord)
    requires DistinctTokens(record.grants)
    ensures IssuedWithin(record.grants, record.requestsPerSecond) <==>
      forall d: DestId, w: int :: |IssuedIn(record.grants, d, w)| <= record.requestsPerSecond
    ensures AllCovered(ByToken(record.grants), record.lanes) <==>
      forall lane <- record.lanes :: forall r <- lane.requests :: HasPermit(record.grants, lane.name, r)
  {
    hide DistinctTokens, IssuedIn, Covered, HasPermit;
    forall d: DestId, w: int ensures Issued(record.grants, d, w) == |IssuedIn(record.grants, d, w)| {
      IssuedCount(record.grants, d, w);
    }
    forall name: DestId, r: Request ensures Covered(ByToken(record.grants), name, r) <==> HasPermit(record.grants, name, r) {
      CoveredMeaning(record.grants, name, r);
    }
  }

  lemma ConcurrencyMeaning(ps: seq<PermitRecord>, limit: nat)
    ensures NetConcurrent(ps, limit) <==> forall d: DestId, at: Time :: |OpenIn(ps, d, at)| <= limit + |BackwardIn(ps, d, at)|
  {
    forall d: DestId, at: Time ensures OpenIn(ps, d, at) == OpenAt(ps, d, at) && BackwardIn(ps, d, at) == BackwardsAt(ps, d, at) {}
    hide OpenAt, BackwardsAt, OpenIn, BackwardIn;
    if NetConcurrent(ps, limit) {
      forall d: DestId, at: Time ensures |OpenIn(ps, d, at)| <= limit + |BackwardIn(ps, d, at)| {
        assert NetWithin(ps, d, limit);
      }
    }
    if forall d: DestId, at: Time :: |OpenIn(ps, d, at)| <= limit + |BackwardIn(ps, d, at)| {
      forall d: DestId ensures NetWithin(ps, d, limit) {
        forall at: Time ensures |OpenAt(ps, d, at)| <= limit + |BackwardsAt(ps, d, at)| {
          assert |OpenIn(ps, d, at)| <= limit + |BackwardIn(ps, d, at)|;
        }
      }
    }
  }

  ghost predicate AllOwned(lanes: seq<LaneRecord>, jobs: seq<JobRecord>) {
    forall lane <- lanes :: forall e <- lane.effects :: exists job <- jobs :: job.id == e.key
  }

  lemma OwnedMeaning(lanes: seq<LaneRecord>, jobs: seq<JobRecord>)
    ensures FoundIn(lanes).Keys <= Ids(jobs) <==> AllOwned(lanes, jobs)
  {
    if FoundIn(lanes).Keys <= Ids(jobs) {
      forall lane <- lanes, e <- lane.effects ensures exists job <- jobs :: job.id == e.key {
        KeysIn(lanes, e.key);
        assert e.key in Ids(jobs);
      }
    }
    if AllOwned(lanes, jobs) {
      forall key <- FoundIn(lanes).Keys ensures key in Ids(jobs) {
        KeysIn(lanes, key);
        var lane :| lane in lanes && exists e <- lane.effects :: e.key == key;
        var e :| e in lane.effects && e.key == key;
        assert exists job <- jobs :: job.id == e.key;
      }
    }
  }

  lemma JobsMeaning(lanes: seq<LaneRecord>, jobs: seq<JobRecord>)
    requires DistinctIds(jobs) && OneOfEachKey(lanes)
    ensures JobsPass(FoundIn(lanes), jobs) <==>
      && (forall job <- jobs :: Settled(lanes, job))
      && AllOwned(lanes, jobs)
  {
    JobsPassMeaning(FoundIn(lanes), jobs);
    hide JobsPass, Settled, SettledBy, AllOwned, ClaimsAddUp, OneOfEachKey, FoundIn;
    forall job <- jobs ensures ClaimsAddUp(job) && SettledBy(job, Lookup(FoundIn(lanes), job.id)) <==> Settled(lanes, job) {
      SettledMeaning(lanes, job);
    }
    OwnedMeaning(lanes, jobs);
  }

  /** The check accepts exactly the sound records. */
  lemma AcceptableMeaning(record: RunRecord)
    requires DistinctIds(record.jobs)
    ensures Acceptable(record) <==> Sound(record)
  {
    hide JobsPass, Settled, AllOwned, HasPermit, UsedOnce, OneOfEachKey, NoReplay, IssuedWithin, AllCovered, NetConcurrent;
    hide IssuedIn, OpenIn, BackwardIn, SentIn, FoundIn, ByToken;
    ReplayMeaning(record.lanes);
    ConcurrencyMeaning(record.grants, record.clientConcurrency);
    if DistinctTokens(record.grants) { PermitsMeaning(record); }
    if OneOfEachKey(record.lanes) { JobsMeaning(record.lanes, record.jobs); }
  }
}
