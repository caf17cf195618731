/** The rest of the independent checker: the issuance budget, the use of permits, and receipts
    against jobs; and what its verdict means for a run of the modelled system. */
module Acceptance {
  import opened Schema
  import opened CapacityTx
  import opened Checker
  import opened PermitLog
  import opened Budgets

  // ----- issuance budget -----

  predicate Counted(p: PermitRecord, destination: DestId, window: int) {
    p.destination == destination && p.windowId == window
  }

  /** How many permits a destination was issued in a window. */
  function Issued(ps: seq<PermitRecord>, destination: DestId, window: int): nat {
    if ps == [] then 0
    else Issued(ps[..|ps| - 1], destination, window) + if Counted(ps[|ps| - 1], destination, window) then 1 else 0
  }

  ghost predicate IssuedWithin(ps: seq<PermitRecord>, limit: nat) {
    forall d: DestId, w: int :: Issued(ps, d, w) <= limit
  }

  lemma IssuedNext(ps: seq<PermitRecord>, i: nat, d: DestId, w: int)
    requires i < |ps|
    ensures Issued(ps[..i + 1], d, w) == Issued(ps[..i], d, w) + if Counted(ps[i], d, w) then 1 else 0
  {
    assert ps[..i + 1][..i] == ps[..i];
  }

  predicate Tallied(ps: seq<PermitRecord>, buckets: map<(DestId, int), nat>, d: DestId, w: int) {
    Issued(ps, d, w) == if (d, w) in buckets then buckets[(d, w)] else 0
  }

  method Buckets(ps: seq<PermitRecord>) returns (buckets: map<(DestId, int), nat>)
    ensures forall d: DestId, w: int :: Tallied(ps, buckets, d, w)
  {
    buckets := map[];
    for i := 0 to |ps|
      invariant forall d: DestId, w: int :: Tallied(ps[..i], buckets, d, w)
    {
      var key := (ps[i].destination, ps[i].windowId);
      ghost var earlier := buckets;
      assert Tallied(ps[..i], buckets, key.0, key.1);
      buckets := buckets[key := (if key in buckets then buckets[key] else 0) + 1];
      ghost var next := ps[..i + 1];
      forall d: DestId, w: int ensures Tallied(next, buckets, d, w) {
        assert Tallied(ps[..i], earlier, d, w);
        IssuedNext(ps, i, d, w);
      }
    }
    assert ps[..|ps|] == ps;
  }

  /** The budget test passes exactly when no window of any destination was overspent. */
  method CheckBudget(ps: seq<PermitRecord>, limit: nat) returns (ok: bool)
    ensures ok <==> IssuedWithin(ps, limit)
  {
    var buckets := Buckets(ps);
    var left := buckets.Keys;
    while left != {}
      invariant left <= buckets.Keys
      invariant forall key <- buckets.Keys - left :: buckets[key] <= limit
      decreases left
    {
      var key :| key in left;
      if buckets[key] > limit {
        assert Tallied(ps, buckets, key.0, key.1);
        assert Issued(ps, key.0, key.1) > limit;
        return false;
      }
      left := left - {key};
    }
    forall d: DestId, w: int ensures Issued(ps, d, w) <= limit { assert Tallied(ps, buckets, d, w); }
    return true;
  }

  /** `permit_issuance_violations` as the result reports it: the buckets above the limit. */
  function Violations(buckets: map<(DestId, int), nat>, limit: nat): set<(DestId, int)> {
    set key | key in buckets && buckets[key] > limit
  }

  lemma NoViolations(ps: seq<PermitRecord>, buckets: map<(DestId, int), nat>, limit: nat)
    requires forall d: DestId, w: int :: Tallied(ps, buckets, d, w)
    ensures Violations(buckets, limit) == {} <==> IssuedWithin(ps, limit)
  {
    if Violations(buckets, limit) == {} {
      forall d: DestId, w: int ensures Issued(ps, d, w) <= limit {
        assert Tallied(ps, buckets, d, w);
        assert (d, w) !in Violations(buckets, limit);
      }
    } else {
      var key :| key in Violations(buckets, limit);
      assert Tallied(ps, buckets, key.0, key.1);
    }
  }

  // ----- requests and effects of the receivers -----

  datatype Request = Request(permit: Id, isGet: bool)
  datatype EffectRecord = EffectRecord(key: Id, hash: Hash, receipt: Id)
  datatype LaneRecord = LaneRecord(name: DestId, requests: seq<Request>, effects: seq<EffectRecord>)
  type Found = map<Id, (DestId, EffectRecord)>

  /** The request carried a permit of its own destination and kind. */
  predicate Covered(grants: map<Id, PermitRecord>, name: DestId, r: Request) {
    && r.permit in grants && grants[r.permit].destination == name
    && grants[r.permit].kind == if r.isGet then ReceiptCall else DispatchCall
  }

  function PermitsOf(rs: seq<Request>): seq<Id> { seq(|rs|, i requires 0 <= i < |rs| => rs[i].permit) }

  function SentIn(lanes: seq<LaneRecord>): seq<Id> {
    if lanes == [] then [] else SentIn(lanes[..|lanes| - 1]) + PermitsOf(lanes[|lanes| - 1].requests)
  }

  predicate AllCovered(grants: map<Id, PermitRecord>, lanes: seq<LaneRecord>) {
    forall lane <- lanes :: forall r <- lane.requests :: Covered(grants, lane.name, r)
  }

  function FoundInto(found: Found, name: DestId, effects: seq<EffectRecord>): Found {
    if effects == [] then found
    else
      var last := effects[|effects| - 1];
      FoundInto(found, name, effects[..|effects| - 1])[last.key := (name, last)]
  }

  function FoundIn(lanes: seq<LaneRecord>): Found {
    if lanes == [] then map[]
    else FoundInto(FoundIn(lanes[..|lanes| - 1]), lanes[|lanes| - 1].name, lanes[|lanes| - 1].effects)
  }

  /** No key among the effects that is already known, and none twice. */
  predicate NewKeys(found: Found, name: DestId, effects: seq<EffectRecord>) {
    effects == [] ||
    var init, last := effects[..|effects| - 1], effects[|effects| - 1];
    NewKeys(found, name, init) && last.key !in FoundInto(found, name, init)
  }

  predicate UniqueKeys(lanes: seq<LaneRecord>) {
    lanes == [] ||
    var init, last := lanes[..|lanes| - 1], lanes[|lanes| - 1];
    UniqueKeys(init) && NewKeys(FoundIn(init), last.name, last.effects)
  }

  // ----- unique keys, position by position -----

  lemma {:induction false} KeysInto(found: Found, name: DestId, effects: seq<EffectRecord>, key: Id)
    ensures key in FoundInto(found, name, effects) <==> key in found || exists e <- effects :: e.key == key
  {
    if effects != [] {
      var init, last := effects[..|effects| - 1], effects[|effects| - 1];
      assert effects == init + [last];
      KeysInto(found, name, init, key);
    }
  }

  lemma {:induction false} KeysIn(lanes: seq<LaneRecord>, key: Id)
    ensures key in FoundIn(lanes) <==> exists lane <- lanes :: exists e <- lane.effects :: e.key == key
  {
    if lanes != [] {
      var init, last := lanes[..|lanes| - 1], lanes[|lanes| - 1];
      assert lanes == init + [last];
      KeysIn(init, key);
      KeysInto(FoundIn(init), last.name, last.effects, key);
    }
  }

  predicate DistinctKeys(effects: seq<EffectRecord>) {
    forall a, b :: 0 <= a < b < |effects| ==> effects[a].key != effects[b].key
  }

  lemma {:induction false} NewKeysMeaning(found: Found, name: DestId, effects: seq<EffectRecord>)
    ensures NewKeys(found, name, effects) <==> DistinctKeys(effects) && forall e <- effects :: e.key !in found
  {
    if effects != [] {
      var init, last := effects[..|effects| - 1], effects[|effects| - 1];
      assert effects == init + [last];
      NewKeysMeaning(found, name, init);
      KeysInto(found, name, init, last.key);
      if NewKeys(found, name, effects) {
        forall a, b | 0 <= a < b < |effects| ensures effects[a].key != effects[b].key {
          if b == |init| { assert init[a] in init; } else { assert init[a] == effects[a] && init[b] == effects[b]; }
        }
      }
      if DistinctKeys(effects) {
        forall e <- init ensures e.key != last.key {
          var a :| 0 <= a < |init| && init[a] == e;
          assert effects[a].key != effects[|init|].key;
        }
        assert forall a | 0 <= a < |init| :: init[a] == effects[a];
      }
    }
  }

  /** No key occurs at two positions over all receivers. */
  predicate OneOfEachKey(lanes: seq<LaneRecord>) {
    forall i, j, a, b | 0 <= i < |lanes| && 0 <= j < |lanes| && 0 <= a < |lanes[i].effects| && 0 <= b < |lanes[j].effects|
                        && lanes[i].effects[a].key == lanes[j].effects[b].key :: i == j && a == b
  }

  /** What the loop over the receivers checks is that no key occurs twice, in one receiver or in two. */
  lemma {:induction false} UniqueKeysMeaning(lanes: seq<LaneRecord>)
    ensures UniqueKeys(lanes) <==> OneOfEachKey(lanes)
  {
    if lanes != [] {
      var init, last := lanes[..|lanes| - 1], lanes[|lanes| - 1];
      assert lanes == init + [last];
      UniqueKeysMeaning(init);
      NewKeysMeaning(FoundIn(init), last.name, last.effects);
      forall key: Id ensures key in FoundIn(init) <==> exists lane <- init :: exists e <- lane.effects :: e.key == key {
        KeysIn(init, key);
      }
      hide UniqueKeys, NewKeys, FoundIn;
      OneMoreLane(init, last);
      if OneOfEachKey(lanes) { LastLane(init, last); }
    }
  }

  ghost predicate Apart(init: seq<LaneRecord>, last: LaneRecord) {
    forall e <- last.effects :: forall lane <- init :: forall other <- lane.effects :: other.key != e.key
  }

  lemma OneMoreLane(init: seq<LaneRecord>, last: LaneRecord)
    ensures OneOfEachKey(init) && DistinctKeys(last.effects) && Apart(init, last) ==> OneOfEachKey(init + [last])
  {
    var lanes := init + [last];
    if OneOfEachKey(init) && DistinctKeys(last.effects) && Apart(init, last) {
      forall i, j, a, b | 0 <= i < |lanes| && 0 <= j < |lanes| && 0 <= a < |lanes[i].effects| && 0 <= b < |lanes[j].effects|
                          && lanes[i].effects[a].key == lanes[j].effects[b].key
        ensures i == j && a == b
      {
        if i < |init| && j < |init| { assert init[i] == lanes[i] && init[j] == lanes[j]; }
      }
    }
  }

  lemma LastLane(init: seq<LaneRecord>, last: LaneRecord)
    requires OneOfEachKey(init + [last])
    ensures OneOfEachKey(init) && DistinctKeys(last.effects) && Apart(init, last)
  {
    var lanes := init + [last];
    assert lanes[|init|] == last && forall i | 0 <= i < |init| :: lanes[i] == init[i];
    forall e <- last.effects, lane <- init, other <- lane.effects ensures other.key != e.key {
      var b :| 0 <= b < |last.effects| && last.effects[b] == e;
      var i :| 0 <= i < |init| && init[i] == lane;
      var a :| 0 <= a < |lane.effects| && lane.effects[a] == other;
      assert lanes[i].effects[a].key == other.key && lanes[|init|].effects[b].key == e.key;
    }
    forall a, b | 0 <= a < b < |last.effects| ensures last.effects[a].key != last.effects[b].key {
      assert lanes[|init|].effects[a].key == last.effects[a].key && lanes[|init|].effects[b].key == last.effects[b].key;
    }
  }

  method GatherRequests(grants: map<Id, PermitRecord>, lane: LaneRecord, sent: seq<Id>)
    returns (ok: bool, all: seq<Id>)
    ensures ok <==> forall r <- lane.requests :: Covered(grants, lane.name, r)
    ensures ok ==> all == sent + PermitsOf(lane.requests)
  {
    all := sent;
    for i := 0 to |lane.requests|
      invariant forall r <- lane.requests[..i] :: Covered(grants, lane.name, r)
      invariant all == sent + PermitsOf(lane.requests[..i])
    {
      var r := lane.requests[i];
      assert r in lane.requests;
      if r.permit !in grants || grants[r.permit].destination != lane.name
         || grants[r.permit].kind != (if r.isGet then ReceiptCall else DispatchCall) {
        return false, all;
      }
      all := all + [r.permit];
      assert PermitsOf(lane.requests[..i + 1]) == PermitsOf(lane.requests[..i]) + [r.permit];
    }
    assert lane.requests[..|lane.requests|] == lane.requests;
    return true, all;
  }

  lemma {:induction false} NewKeysPrefix(found: Found, name: DestId, effects: seq<EffectRecord>, i: nat)
    requires i <= |effects| && NewKeys(found, name, effects)
    ensures NewKeys(found, name, effects[..i])
  {
    if i == |effects| {
      assert effects[..i] == effects;
    } else {
      assert effects[..|effects| - 1][..i] == effects[..i];
      NewKeysPrefix(found, name, effects[..|effects| - 1], i);
    }
  }

  method GatherEffects(lane: LaneRecord, found: Found) returns (ok: bool, all: Found)
    ensures ok <==> NewKeys(found, lane.name, lane.effects)
    ensures ok ==> all == FoundInto(found, lane.name, lane.effects)
  {
    all := found;
    for i := 0 to |lane.effects|
      invariant NewKeys(found, lane.name, lane.effects[..i])
      invariant all == FoundInto(found, lane.name, lane.effects[..i])
    {
      var effect := lane.effects[i];
      assert lane.effects[..i + 1][..i] == lane.effects[..i];
      if effect.key in all {
        if NewKeys(found, lane.name, lane.effects) { NewKeysPrefix(found, lane.name, lane.effects, i + 1); }
        return false, all;
      }
      all := all[effect.key := (lane.name, effect)];
    }
    assert lane.effects[..|lane.effects|] == lane.effects;
    return true, all;
  }

  lemma {:induction false} UniquePrefix(lanes: seq<LaneRecord>, i: nat)
    requires i <= |lanes| && UniqueKeys(lanes)
    ensures UniqueKeys(lanes[..i])
  {
    if i == |lanes| {
      assert lanes[..i] == lanes;
    } else {
      assert lanes[..|lanes| - 1][..i] == lanes[..i];
      UniquePrefix(lanes[..|lanes| - 1], i);
    }
  }

  /** The loop over the receivers: what was sent, and which effects were found where. */
  method Gather(grants: map<Id, PermitRecord>, lanes: seq<LaneRecord>) returns (ok: bool, sent: seq<Id>, found: Found)
    ensures ok <==> AllCovered(grants, lanes) && OneOfEachKey(lanes)
    ensures ok ==> sent == SentIn(lanes) && found == FoundIn(lanes)
  {
    UniqueKeysMeaning(lanes);
    hide OneOfEachKey;
    sent, found := [], map[];
    for i := 0 to |lanes|
      invariant AllCovered(grants, lanes[..i]) && UniqueKeys(lanes[..i])
      invariant sent == SentIn(lanes[..i]) && found == FoundIn(lanes[..i])
    {
      assert lanes[..i + 1][..i] == lanes[..i] && lanes[i] in lanes;
      var covered, added := GatherRequests(grants, lanes[i], sent);
      if !covered { return false, sent, found; }
      var unique, more := GatherEffects(lanes[i], found);
      if !unique {
        if UniqueKeys(lanes) { UniquePrefix(lanes, i + 1); }
        return false, sent, found;
      }
      sent, found := added, more;
    }
    assert lanes[..|lanes|] == lanes;
    return true, sent, found;
  }

  // ----- receipts against jobs -----

  datatype JobRecord = JobRecord(id: Id, status: Status, attempts: int, claims: Option<int>,
                                 destination: DestId, hash: Hash, receipt: Option<Id>)

  predicate ClaimsAddUp(job: JobRecord) {
    job.claims.Some? ==> job.claims.value >= job.attempts >= 1
  }

  /** A success has its own receipt from its own destination; anything else has none and is over. */
  predicate SettledBy(job: JobRecord, remote: Option<(DestId, EffectRecord)>) {
    if job.status == Succeeded then
      && remote.Some? && remote.value.0 == job.destination
      && remote.value.1.hash == job.hash && Some(remote.value.1.receipt) == job.receipt
    else remote.None? && job.status in {Blocked, Dead}
  }

  function Ids(jobs: seq<JobRecord>): set<Id> { set job | job in jobs :: job.id }

  function Popped(found: Found, jobs: seq<JobRecord>): Found { found - Ids(jobs) }

  predicate JobPasses(found: Found, jobs: seq<JobRecord>, i: nat)
    requires i < |jobs|
  {
    ClaimsAddUp(jobs[i]) && SettledBy(jobs[i], Lookup(Popped(found, jobs[..i]), jobs[i].id))
  }

  predicate JobsPass(found: Found, jobs: seq<JobRecord>) {
    (forall i: nat | i < |jobs| :: JobPasses(found, jobs, i)) && Popped(found, jobs) == map[]
  }

  /** The loop that pops each job's receipt, and leaves nothing behind. */
  method CheckJobs(found: Found, jobs: seq<JobRecord>) returns (ok: bool)
    ensures ok <==> JobsPass(found, jobs)
  {
    var receipts := found;
    for i := 0 to |jobs|
      invariant receipts == Popped(found, jobs[..i])
      invariant forall j: nat | j < i :: JobPasses(found, jobs, j)
    {
      var job := jobs[i];
      if job.claims.Some? && !(job.claims.value >= job.attempts >= 1) {
        assert !JobPasses(found, jobs, i);
        return false;
      }
      var remote := Lookup(receipts, job.id);
      receipts := receipts - {job.id};
      assert jobs[..i + 1] == jobs[..i] + [job];
      assert Ids(jobs[..i + 1]) == Ids(jobs[..i]) + {job.id};
      if job.status == Succeeded {
        if remote.None? || remote.value.0 != job.destination || remote.value.1.hash != job.hash
           || Some(remote.value.1.receipt) != job.receipt {
          assert !JobPasses(found, jobs, i);
          return false;
        }
      } else if remote.Some? || job.status !in {Blocked, Dead} {
        assert !JobPasses(found, jobs, i);
        return false;
      }
    }
    assert jobs[..|jobs|] == jobs;
    return receipts == map[];
  }

  predicate DistinctIds(jobs: seq<JobRecord>) {
    forall i, j :: 0 <= i < j < |jobs| ==> jobs[i].id != jobs[j].id
  }

  lemma FirstMention(found: Found, jobs: seq<JobRecord>, i: nat)
    requires DistinctIds(jobs) && i < |jobs|
    ensures Lookup(Popped(found, jobs[..i]), jobs[i].id) == Lookup(found, jobs[i].id)
  {
    forall job <- jobs[..i] ensures job.id != jobs[i].id {
      var j :| 0 <= j < i && jobs[..i][j] == job;
      assert jobs[j] == job;
    }
  }

  /** The popping loop says what it should: each job settled by the effect of its own key, and no
      effect without a job. */
  lemma JobsPassMeaning(found: Found, jobs: seq<JobRecord>)
    requires DistinctIds(jobs)
    ensures JobsPass(found, jobs) <==>
      && (forall job <- jobs :: ClaimsAddUp(job) && SettledBy(job, Lookup(found, job.id)))
      && found.Keys <= Ids(jobs)
  {
    forall i: nat | i < |jobs|
      ensures JobPasses(found, jobs, i) <==> ClaimsAddUp(jobs[i]) && SettledBy(jobs[i], Lookup(found, jobs[i].id))
    {
      FirstMention(found, jobs, i);
    }
    assert Popped(found, jobs) == map[] <==> found.Keys <= Ids(jobs) by {
      if Popped(found, jobs) == map[] {
        forall key <- found.Keys ensures key in Ids(jobs) { assert key !in Popped(found, jobs); }
      }
    }
    if forall i: nat | i < |jobs| :: JobPasses(found, jobs, i) {
      forall job <- jobs ensures ClaimsAddUp(job) && SettledBy(job, Lookup(found, job.id)) {
        var i: nat :| i < |jobs| && jobs[i] == job;
        assert JobPasses(found, jobs, i);
      }
    }
  }

  // ----- the whole check -----

  datatype RunRecord = RunRecord(grants: seq<PermitRecord>, lanes: seq<LaneRecord>, jobs: seq<JobRecord>,
                           requestsPerSecond: nat, clientConcurrency: nat, long: bool)

  function ByToken(ps: seq<PermitRecord>): map<Id, PermitRecord> {
    if ps == [] then map[] else ByToken(ps[..|ps| - 1])[ps[|ps| - 1].token := ps[|ps| - 1]]
  }

  predicate NoReplay(sent: seq<Id>) {
    forall i, j :: 0 <= i < j < |sent| ==> sent[i] != sent[j]
  }

  function Members(sent: seq<Id>): set<Id> { set token | token in sent }

  lemma MembersNext(sent: seq<Id>, token: Id)
    ensures Members(sent + [token]) == Members(sent) + {token}
    ensures NoReplay(sent + [token]) <==> NoReplay(sent) && token !in sent
  {
    var all := sent + [token];
    assert forall i | 0 <= i < |sent| :: all[i] == sent[i];
    if token in sent {
      var i :| 0 <= i < |sent| && sent[i] == token;
      assert all[i] == all[|sent|];
    } else if NoReplay(all) {
      assert forall i, j | 0 <= i < j < |sent| :: all[i] != all[j];
    }
  }

  /** Two lengths that differ exactly when something occurs twice. */
  lemma {:induction false} DuplicatesShow(sent: seq<Id>)
    ensures |Members(sent)| <= |sent| && (|Members(sent)| == |sent| <==> NoReplay(sent))
  {
    if sent != [] {
      hide NoReplay;
      var init, last := sent[..|sent| - 1], sent[|sent| - 1];
      assert sent == init + [last];
      DuplicatesShow(init);
      MembersNext(init, last);
      if last in init {
        assert Members(init) + {last} == Members(init);
      } else {
        assert last !in Members(init);
      }
    }
  }

  function TokensOf(ps: seq<PermitRecord>): seq<Id> { seq(|ps|, i requires 0 <= i < |ps| => ps[i].token) }

  lemma {:induction false} ByTokenKeys(ps: seq<PermitRecord>)
    ensures ByToken(ps).Keys == Members(TokensOf(ps))
  {
    if ps != [] {
      var init, last := ps[..|ps| - 1], ps[|ps| - 1];
      ByTokenKeys(init);
      assert TokensOf(ps) == TokensOf(init) + [last.token];
      MembersNext(TokensOf(init), last.token);
    }
  }

  lemma DuplicatePermits(ps: seq<PermitRecord>)
    ensures |ByToken(ps)| == |ps| <==> DistinctTokens(ps)
  {
    ByTokenKeys(ps);
    DuplicatesShow(TokensOf(ps));
    assert |ByToken(ps)| == |ByToken(ps).Keys|;
    assert NoReplay(TokensOf(ps)) <==> DistinctTokens(ps) by {
      assert forall i | 0 <= i < |ps| :: TokensOf(ps)[i] == ps[i].token;
    }
  }

  ghost predicate Acceptable(record: RunRecord) {
    && DistinctTokens(record.grants) && IssuedWithin(record.grants, record.requestsPerSecond)
    && AllCovered(ByToken(record.grants), record.lanes) && OneOfEachKey(record.lanes) && NoReplay(SentIn(record.lanes))
    && JobsPass(FoundIn(record.lanes), record.jobs)
    && (record.long ==> NetConcurrent(record.grants, record.clientConcurrency))
  }

  method Index(ps: seq<PermitRecord>) returns (grants: map<Id, PermitRecord>)
    ensures grants == ByToken(ps)
  {
    grants := map[];
    for i := 0 to |ps|
      invariant grants == ByToken(ps[..i])
    {
      assert ps[..i + 1][..i] == ps[..i];
      grants := grants[ps[i].token := ps[i]];
    }
    assert ps[..|ps|] == ps;
  }

  /** The tests of the check, in its order: it passes exactly the records that are acceptable. */
  method Check(record: RunRecord) returns (ok: bool)
    ensures ok <==> Acceptable(record)
  {
    hide DistinctTokens, IssuedWithin, AllCovered, OneOfEachKey, NoReplay, JobsPass, NetConcurrent, Concurrent;
    var grants := Index(record.grants);
    DuplicatePermits(record.grants);
    if |grants| != |record.grants| { return false; }
    var budget := CheckBudget(record.grants, record.requestsPerSecond);
    if !budget { return false; }
    var gathered, sent, found := Gather(grants, record.lanes);
    if !gathered { return false; }
    DuplicatesShow(sent);
    if |sent| != |Members(sent)| { return false; }
    var settled := CheckJobs(found, record.jobs);
    if !settled { return false; }
    if record.long {
      ok := CheckConcurrency(record.grants, record.clientConcurrency);
    } else {
      ok := true;
    }
  }

  // ----- the permit code passes -----

  lemma {:induction false} IssuedTokens(ps: seq<PermitRecord>, d: DestId, w: int, tokens: set<Id>)
    requires DistinctTokens(ps)
    requires forall p <- ps | Counted(p, d, w) :: p.token in tokens
    ensures Issued(ps, d, w) <= |tokens|
  {
    if ps != [] {
      var init, last := ps[..|ps| - 1], ps[|ps| - 1];
      assert ps == init + [last] && last in ps;
      forall p <- init ensures p in ps && p.token != last.token {
        var i :| 0 <= i < |init| && init[i] == p;
        assert ps[i] == p;
      }
      IssuedTokens(init, d, w, if Counted(last, d, w) then tokens - {last.token} else tokens);
    }
  }

  lemma {:induction false} ReplayBudget(cfg: Config, calls: seq<Call>)
    requires ValidConfig(cfg)
    ensures var c := Replay(cfg.destinations, calls).capacity;
      WithinBudget(cfg, c) && forall token <- c.requests :: c.requests[token].destination in cfg.destinations
  {
    if calls == [] {
      EmptyBudget(cfg);
    } else {
      var init, last := calls[..|calls| - 1], calls[|calls| - 1];
      ReplayBudget(cfg, init);
      hide Apply, WithinBudget, AcquireTx, ReleaseTx;
      CallBudget(cfg, Replay(cfg.destinations, init), last);
    }
  }

  lemma CallBudget(cfg: Config, log: Log, call: Call)
    requires ValidConfig(cfg) && WithinBudget(cfg, log.capacity)
    requires forall token <- log.capacity.requests :: log.capacity.requests[token].destination in cfg.destinations
    ensures var c := Apply(cfg.destinations, log, call).capacity;
      WithinBudget(cfg, c) && forall token <- c.requests :: c.requests[token].destination in cfg.destinations
  {
    hide WithinBudget;
    OnlyGrantsAreLogged(cfg.destinations, log, call);
    match call
    case Acquiring(d, kind, r, token) =>
      if d in cfg.destinations { AcquireKeepsBudget(cfg, log.capacity, d, kind, r, token); }
    case Releasing(d, token, failed, cooldown, at) =>
      ReleaseKeepsBudget(cfg, log.capacity, d, token, failed, cooldown, at);
  }

  /** The log of any calls at all, whatever the clock did, passes the tests on permits that do not
      look at times. */
  lemma LogsAreAccepted(cfg: Config, calls: seq<Call>, ps: seq<PermitRecord>, rate: nat)
    requires ValidConfig(cfg) && (forall d <- cfg.destinations :: cfg.destinations[d].requestsPerSecond <= rate)
    requires Recorded(Replay(cfg.destinations, calls).capacity, ps)
    ensures DistinctTokens(ps) && IssuedWithin(ps, rate)
  {
    var c := Replay(cfg.destinations, calls).capacity;
    ReplayBudget(cfg, calls);
    hide Replay, ValidConfig;
    forall d: DestId, w: int ensures Issued(ps, d, w) <= rate {
      IssuedTokens(ps, d, w, GrantsIn(c.requests, d, w));
      if d in cfg.destinations {
        assert WindowOk(cfg.destinations[d], c, d, w);
      } else {
        assert GrantsIn(c.requests, d, w) == {};
      }
    }
  }

  /** With a clock that does not run backwards, clients that keep to their permits and no skew on
      the unreleased ones, the log passes every test on permits. */
  lemma WellBehavedLogsAreAccepted(cfg: Config, start: Time, calls: seq<Call>, ps: seq<PermitRecord>, rate: nat,
                                   limit: nat)
    requires ValidConfig(cfg) && InGoodTime(cfg.destinations, start, calls) && Unskewed(Replay(cfg.destinations, calls))
    requires forall d <- cfg.destinations ::
      cfg.destinations[d].requestsPerSecond <= rate && cfg.destinations[d].concurrency <= limit
    requires Recorded(Replay(cfg.destinations, calls).capacity, ps)
    ensures DistinctTokens(ps) && IssuedWithin(ps, rate) && Concurrent(ps, limit) && NetConcurrent(ps, limit)
  {
    ForwardRecords(ps, limit);
    hide Replay, InGoodTime, Unskewed, Recorded, NetConcurrent;
    LogsAreAccepted(cfg, calls, ps, rate);
    PermitLogAccepted(cfg.destinations, start, calls, ps, limit);
  }
}
