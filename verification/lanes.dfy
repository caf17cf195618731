/** Snapshots over several receivers: one comparison per lane, and what it means when all of them
    are safe. */
module Lanes {
  import opened Schema
  import opened Operations
  import opened System
  import opened Steps
  import opened Intents
  import opened Outbox
  import opened Runs
  import opened Resumption
  import Acceptance
  import Fencing

  type LedgerRows = map<Id, Effect>

  datatype Snapshot =
    | Single(comparison: Comparison)
    | PerLane(lanes: map<Lane, Comparison>)
  {
    predicate Safe() {
      match this
      case Single(comparison) => comparison.safe
      case PerLane(lanes) => forall lane <- lanes :: lanes[lane].safe
    }
  }

  // ----- the snapshots as the program takes them -----

  function LaneComparison(cfg: Config, b: Business, readers: map<Lane, LedgerRows>, lane: Lane): Comparison
    requires lane in readers
  {
    Compare(cfg.digest, LaneJobs(b, lane), readers[lane])
  }

  function Compared(cfg: Config, b: Business, readers: map<Lane, LedgerRows>): map<Lane, Comparison> {
    map lane | lane in readers :: LaneComparison(cfg, b, readers, lane)
  }

  /** One comparison per registered destination plus the legacy ledger; raises unless exactly those
      readers are given. */
  method DestinationSnapshot(cfg: Config, b: Business, readers: map<Lane, LedgerRows>) returns (r: Option<Snapshot>)
    ensures r == if readers.Keys != LanesOf(cfg) then None else Some(PerLane(Compared(cfg, b, readers)))
  {
    hide Compare, Compared, LaneJobs, Reconciled, SeenIn, LanesOf;
    if readers.Keys != LanesOf(cfg) { return None; }
    var lanes: map<Lane, Comparison> := map[];
    var left := readers.Keys;
    while left != {}
      invariant left <= readers.Keys && lanes.Keys == readers.Keys - left
      invariant forall lane <- lanes :: lanes[lane] == LaneComparison(cfg, b, readers, lane)
      decreases left
    {
      var lane :| lane in left;
      var comparison := CompareReceipts(cfg.digest, LaneJobs(b, lane), readers[lane]);
      lanes := lanes[lane := comparison];
      left := left - {lane};
    }
    AllCompared(cfg, b, readers, lanes);
    return Some(PerLane(lanes));
  }

  lemma AllCompared(cfg: Config, b: Business, readers: map<Lane, LedgerRows>, lanes: map<Lane, Comparison>)
    requires lanes.Keys == readers.Keys
    requires forall lane <- lanes :: lanes[lane] == LaneComparison(cfg, b, readers, lane)
    ensures lanes == Compared(cfg, b, readers)
  {
    hide LaneComparison;
  }

  datatype Readers = OneReader(receipts: LedgerRows) | Each(readers: map<Lane, LedgerRows>)

  /** What `recovery_snapshot` gives, or nothing when it raises. */
  function SnapshotOf(cfg: Config, b: Business, readers: Readers): Option<Snapshot> {
    match readers
    case OneReader(receipts) =>
      if cfg.destinations != map[] then None else Some(Single(Compare(cfg.digest, AllJobs(b), receipts)))
    case Each(lanes) =>
      if lanes.Keys != LanesOf(cfg) then None else Some(PerLane(Compared(cfg, b, lanes)))
  }

  /** A single reader is enough only while no destination is registered. */
  method RecoverySnapshot(cfg: Config, b: Business, readers: Readers) returns (r: Option<Snapshot>)
    ensures r == SnapshotOf(cfg, b, readers)
  {
    match readers
    case Each(lanes) => r := DestinationSnapshot(cfg, b, lanes);
    case OneReader(receipts) =>
      if cfg.destinations != map[] { return None; }
      var comparison := CompareReceipts(cfg.digest, AllJobs(b), receipts);
      return Some(Single(comparison));
  }

  // ----- what safety over lanes means -----

  /** The ledgers as the readers see them. */
  function ReadersOf(cfg: Config, ledgers: Ledgers): map<Lane, LedgerRows> {
    map lane | lane in LanesOf(cfg) :: Effects(ledgers, lane)
  }

  ghost predicate AllSafe(cfg: Config, b: Business, ledgers: Ledgers) {
    forall lane <- LanesOf(cfg) :: Compare(cfg.digest, LaneJobs(b, lane), Effects(ledgers, lane)).safe
  }

  lemma SnapshotSafe(cfg: Config, b: Business, ledgers: Ledgers)
    ensures PerLane(Compared(cfg, b, ReadersOf(cfg, ledgers))).Safe() <==> AllSafe(cfg, b, ledgers)
  {
    hide Compare, LaneJobs;
    var lanes := Compared(cfg, b, ReadersOf(cfg, ledgers));
    assert lanes.Keys == LanesOf(cfg);
    forall lane <- lanes ensures lanes[lane] == Compare(cfg.digest, LaneJobs(b, lane), Effects(ledgers, lane)) {}
  }

  /** In a safe lane, every effect is that of a job of this very lane. */
  lemma SafeLaneOwnsItsEffects(cfg: Config, b: Business, ledgers: Ledgers, lane: Lane, key: Id)
    requires AllSafe(cfg, b, ledgers) && lane in LanesOf(cfg) && key in Effects(ledgers, lane)
    ensures key in b.jobs && LaneOf(b, key) == lane && EffectOk(cfg.digest, b, ledgers, lane, key)
    ensures Reconciled(cfg.digest, LaneJobs(b, lane), Effects(ledgers, lane), key)
  {
    SafeLaneReconciles(cfg, b, ledgers, lane, key);
    hide Compare, AllSafe, LanesOf;
  }

  /** Lane separation: when every lane is safe, a key has its effect in exactly the lane its job is
      routed to, so comparing lane by lane leaves at most one effect per key over all receivers. */
  lemma LaneSeparation(cfg: Config, b: Business, ledgers: Ledgers, key: Id)
    requires Local(cfg, b) && AllSafe(cfg, b, ledgers)
    ensures forall lane | lane in LanesOf(cfg) && key in Effects(ledgers, lane) :: key in b.jobs && lane == LaneOf(b, key)
    ensures forall a, c | a in LanesOf(cfg) && c in LanesOf(cfg) && key in Effects(ledgers, a) && key in Effects(ledgers, c) :: a == c
    ensures key in b.jobs && b.jobs[key].status == Succeeded ==>
      LaneOf(b, key) in LanesOf(cfg) && key in Effects(ledgers, LaneOf(b, key))
  {
    hide Compare, Effects;
    forall lane | lane in LanesOf(cfg) && key in Effects(ledgers, lane) ensures key in b.jobs && lane == LaneOf(b, key) {
      SafeLaneOwnsItsEffects(cfg, b, ledgers, lane, key);
    }
    if key in b.jobs && b.jobs[key].status == Succeeded {
      LaneIsConfigured(cfg, b, key);
      SafeLaneReconciles(cfg, b, ledgers, LaneOf(b, key), key);
    }
  }

  lemma LaneIsConfigured(cfg: Config, b: Business, id: Id)
    requires Local(cfg, b)
    ensures LaneOf(b, id) in LanesOf(cfg)
  {
  }

  lemma SafeLaneReconciles(cfg: Config, b: Business, ledgers: Ledgers, lane: Lane, key: Id)
    requires AllSafe(cfg, b, ledgers) && lane in LanesOf(cfg)
    ensures Reconciled(cfg.digest, LaneJobs(b, lane), Effects(ledgers, lane), key)
  {
    hide Compare, Reconciled, LaneJobs, LanesOf, Effects;
    SafeMeaning(cfg.digest, LaneJobs(b, lane), Effects(ledgers, lane));
  }

  lemma ReconciledSuccessOk(digest: Doc -> Hash, b: Business, ledgers: Ledgers, id: Id)
    requires id in b.jobs && Reconciled(digest, LaneJobs(b, LaneOf(b, id)), Effects(ledgers, LaneOf(b, id)), id)
    ensures SuccessOk(b, ledgers, id)
  {
  }

  lemma SafeSuccess(s: Sys, id: Id)
    requires Local(s.ctl.cfg, s.ctl.biz) && AllSafe(s.ctl.cfg, s.ctl.biz, s.ledgers) && id in s.ctl.biz.jobs
    ensures SuccessOk(s.ctl.biz, s.ledgers, id)
  {
    hide Local, AllSafe, Reconciled, LaneJobs, LanesOf, Effects, SuccessOk, LaneOf;
    var lane := LaneOf(s.ctl.biz, id);
    LaneIsConfigured(s.ctl.cfg, s.ctl.biz, id);
    SafeLaneReconciles(s.ctl.cfg, s.ctl.biz, s.ledgers, lane, id);
    ReconciledSuccessOk(s.ctl.cfg.digest, s.ctl.biz, s.ledgers, id);
  }

  /** A safe snapshot of all lanes of a quiescent system is the protocol's invariant, whatever state
      the control database was restored to. */
  lemma SafeLanesAreCross(s: Sys)
    requires Local(s.ctl.cfg, s.ctl.biz) && Scoped(s) && Quiescent(s) && AllSafe(s.ctl.cfg, s.ctl.biz, s.ledgers)
    ensures Cross(s)
  {
    hide Local, AllSafe, Scoped, EffectOk, SuccessOk, LanesOf;
    forall lane, key | key in Effects(s.ledgers, lane) ensures EffectOk(s.ctl.cfg.digest, s.ctl.biz, s.ledgers, lane, key) {
      InScope(s, lane, key);
      SafeLaneOwnsItsEffects(s.ctl.cfg, s.ctl.biz, s.ledgers, lane, key);
    }
    forall id <- s.ctl.biz.jobs ensures SuccessOk(s.ctl.biz, s.ledgers, id) { SafeSuccess(s, id); }
  }

  lemma InScope(s: Sys, lane: Lane, key: Id)
    requires Scoped(s) && key in Effects(s.ledgers, lane)
    ensures lane in LanesOf(s.ctl.cfg)
  {
  }

  // ----- deployment acceptance -----

  datatype Runtime = Runtime(snapshot: Snapshot, gate: Gate, safe: bool, gateNoted: bool)

  /** The stricter verdict: a closed gate is a finding of its own. */
  method RuntimeAcceptance(ctl: Control, readers: Readers) returns (r: Option<Runtime>)
    ensures r.None? <==> SnapshotOf(ctl.cfg, ctl.biz, readers).None?
    ensures r.Some? ==> Some(r.value.snapshot) == SnapshotOf(ctl.cfg, ctl.biz, readers)
    ensures r.Some? ==> r.value.gate == ctl.gate
    ensures r.Some? ==> (r.value.safe <==> r.value.snapshot.Safe() && ctl.gate.mode == Open)
    ensures r.Some? ==> (r.value.gateNoted <==> ctl.gate.mode == Closed)
  {
    var snapshot := RecoverySnapshot(ctl.cfg, ctl.biz, readers);
    if snapshot.None? { return None; }
    var result := Runtime(snapshot.value, ctl.gate, snapshot.value.Safe(), false);
    if ctl.gate.mode != Open {
      result := result.(safe := false, gateNoted := true);
    }
    return Some(result);
  }

  // ----- the independent checker reaches the same verdict -----

  /** A record taken from a run whose jobs are all routed and all over. */
  ghost predicate TakenFrom(s: Sys, found: Acceptance.Found, jobs: seq<Acceptance.JobRecord>) {
    var b := s.ctl.biz;
    && Acceptance.DistinctIds(jobs) && Acceptance.Ids(jobs) == b.jobs.Keys
    && (forall job <- jobs :: job.id in b.jobs && job.id in b.routes && JobRecorded(s, job))
    && (forall key <- found :: found[key].1.key == key && EffectRecorded(s, found[key]))
    && (forall lane, key | key in Effects(s.ledgers, lane) :: key in found)
  }

  predicate JobRecorded(s: Sys, job: Acceptance.JobRecord)
    requires job.id in s.ctl.biz.jobs && job.id in s.ctl.biz.routes
  {
    var row := s.ctl.biz.jobs[job.id];
    && job.status == row.status && row.status in {Succeeded, Blocked, Dead}
    && job.destination == s.ctl.biz.routes[job.id]
    && (row.mutation.Some? ==> job.hash == s.ctl.cfg.digest(OfMutation(row.mutation.value)))
    && job.receipt == (if row.remoteResult.Some? then Some(row.remoteResult.value.receipt) else None)
    && job.attempts == row.attempts
  }

  predicate EffectRecorded(s: Sys, at: (DestId, Acceptance.EffectRecord)) {
    var effects := Effects(s.ledgers, Routed(at.0));
    at.1.key in effects && effects[at.1.key].hash == at.1.hash && effects[at.1.key].receipt == at.1.receipt
  }

  lemma RecordedEffect(s: Sys, found: Acceptance.Found, jobs: seq<Acceptance.JobRecord>, key: Id)
    requires Cross(s) && TakenFrom(s, found, jobs) && key in found
    ensures key in s.ctl.biz.jobs && LaneOf(s.ctl.biz, key) == Routed(found[key].0)
    ensures EffectOk(s.ctl.cfg.digest, s.ctl.biz, s.ledgers, Routed(found[key].0), key)
  {
    assert EffectRecorded(s, found[key]);
    assert EffectOk(s.ctl.cfg.digest, s.ctl.biz, s.ledgers, Routed(found[key].0), key);
  }

  lemma SettledJob(s: Sys, found: Acceptance.Found, jobs: seq<Acceptance.JobRecord>, job: Acceptance.JobRecord)
    requires Cross(s) && TakenFrom(s, found, jobs) && job in jobs
    ensures Acceptance.SettledBy(job, Lookup(found, job.id)) <==>
      (job.id in Effects(s.ledgers, LaneOf(s.ctl.biz, job.id)) ==> job.status == Succeeded)
  {
    var id := job.id;
    assert JobRecorded(s, job);
    assert SuccessOk(s.ctl.biz, s.ledgers, id);
    if id in found {
      RecordedEffect(s, found, jobs, id);
      assert EffectRecorded(s, found[id]);
    }
  }

  lemma SafeKey(s: Sys, lane: Lane, key: Id)
    requires Cross(s) && (key in s.ctl.biz.jobs ==> s.ctl.biz.jobs[key].status in {Succeeded, Blocked, Dead})
    ensures Reconciled(s.ctl.cfg.digest, LaneJobs(s.ctl.biz, lane), Effects(s.ledgers, lane), key) <==>
      (key in Effects(s.ledgers, lane) ==> key in s.ctl.biz.jobs && s.ctl.biz.jobs[key].status == Succeeded)
  {
    if key in Effects(s.ledgers, lane) { assert EffectOk(s.ctl.cfg.digest, s.ctl.biz, s.ledgers, lane, key); }
    if key in s.ctl.biz.jobs { assert SuccessOk(s.ctl.biz, s.ledgers, key); }
  }

  ghost predicate NoStrayIn(s: Sys, lane: Lane) {
    forall key <- Effects(s.ledgers, lane) :: key in s.ctl.biz.jobs && s.ctl.biz.jobs[key].status == Succeeded
  }

  lemma SafeLane(s: Sys, lane: Lane)
    requires Cross(s) && forall id <- s.ctl.biz.jobs :: s.ctl.biz.jobs[id].status in {Succeeded, Blocked, Dead}
    ensures Compare(s.ctl.cfg.digest, LaneJobs(s.ctl.biz, lane), Effects(s.ledgers, lane)).safe <==> NoStrayIn(s, lane)
  {
    hide Cross, Compare, Reconciled, LaneJobs;
    SafeMeaning(s.ctl.cfg.digest, LaneJobs(s.ctl.biz, lane), Effects(s.ledgers, lane));
    forall key: Id
      ensures key in Effects(s.ledgers, lane) ==> key in s.ctl.biz.jobs
      ensures Reconciled(s.ctl.cfg.digest, LaneJobs(s.ctl.biz, lane), Effects(s.ledgers, lane), key) <==>
        (key in Effects(s.ledgers, lane) ==> key in s.ctl.biz.jobs && s.ctl.biz.jobs[key].status == Succeeded)
    {
      if key in Effects(s.ledgers, lane) { EffectHasJob(s, lane, key); }
      SafeKey(s, lane, key);
    }
  }

  lemma EffectHasJob(s: Sys, lane: Lane, key: Id)
    requires Cross(s) && key in Effects(s.ledgers, lane)
    ensures key in s.ctl.biz.jobs && LaneOf(s.ctl.biz, key) == lane
  {
    assert EffectOk(s.ctl.cfg.digest, s.ctl.biz, s.ledgers, lane, key);
  }

  lemma OverJobs(s: Sys, found: Acceptance.Found, jobs: seq<Acceptance.JobRecord>, id: Id)
    requires TakenFrom(s, found, jobs) && id in s.ctl.biz.jobs
    ensures s.ctl.biz.jobs[id].status in {Succeeded, Blocked, Dead}
    ensures exists job <- jobs :: job.id == id && job.status == s.ctl.biz.jobs[id].status
  {
    assert id in Acceptance.Ids(jobs);
    var job :| job in jobs && job.id == id;
    assert JobRecorded(s, job);
  }

  lemma RecordedClaims(cfg: Config, policy: Hash, start: Time, es: seq<Timed>, job: Acceptance.JobRecord)
    requires var s := From(cfg, policy, start, es);
      job.id in s.ctl.biz.jobs && job.id in s.ctl.biz.routes && JobRecorded(s, job)
    requires job.claims.Some? ==> job.claims.value == Fencing.ClaimsOf(Init(cfg, policy, start), es, job.id)
    ensures Acceptance.ClaimsAddUp(job)
  {
    Fencing.ClaimsCoverAttempts(cfg, policy, start, es, job.id);
  }

  /** Two judges, one verdict: in every reachable state whose jobs are routed and over, the lanes
      compare as safe exactly when the independent checker's pass over receipts and jobs succeeds. */
  lemma JudgesAgree(cfg: Config, policy: Hash, start: Time, es: seq<Timed>,
                    found: Acceptance.Found, jobs: seq<Acceptance.JobRecord>)
    requires TakenFrom(From(cfg, policy, start, es), found, jobs)
    requires forall job <- jobs :: job.claims.Some? ==>
      job.claims.value == Fencing.ClaimsOf(Init(cfg, policy, start), es, job.id)
    ensures var s := From(cfg, policy, start, es);
      Acceptance.JobsPass(found, jobs) <==> AllSafe(cfg, s.ctl.biz, s.ledgers)
  {
    var s := From(cfg, policy, start, es);
    FromSound(cfg, policy, start, es);
    hide From, Run, Compare, Local, JobRecorded;
    forall job <- jobs ensures Acceptance.ClaimsAddUp(job) { RecordedClaims(cfg, policy, start, es, job); }
    Acceptance.JobsPassMeaning(found, jobs);
    hide Acceptance.JobsPass;
    Verdict(s, found, jobs);
  }

  ghost predicate NoStrayEffects(s: Sys) {
    forall lane, key | key in Effects(s.ledgers, lane) :: key in s.ctl.biz.jobs && s.ctl.biz.jobs[key].status == Succeeded
  }

  predicate AllSettled(found: Acceptance.Found, jobs: seq<Acceptance.JobRecord>) {
    && (forall job <- jobs :: Acceptance.ClaimsAddUp(job) && Acceptance.SettledBy(job, Lookup(found, job.id)))
    && found.Keys <= Acceptance.Ids(jobs)
  }

  lemma Verdict(s: Sys, found: Acceptance.Found, jobs: seq<Acceptance.JobRecord>)
    requires Local(s.ctl.cfg, s.ctl.biz) && Cross(s) && TakenFrom(s, found, jobs)
    requires forall job <- jobs :: Acceptance.ClaimsAddUp(job)
    ensures AllSettled(found, jobs) <==> NoStrayEffects(s)
    ensures AllSafe(s.ctl.cfg, s.ctl.biz, s.ledgers) <==> NoStrayEffects(s)
  {
    CheckerVerdict(s, found, jobs);
    SnapshotVerdict(s, found, jobs);
  }

  lemma CheckerVerdict(s: Sys, found: Acceptance.Found, jobs: seq<Acceptance.JobRecord>)
    requires Cross(s) && TakenFrom(s, found, jobs) && forall job <- jobs :: Acceptance.ClaimsAddUp(job)
    ensures AllSettled(found, jobs) <==> NoStrayEffects(s)
  {
    hide Cross, Effects, JobRecorded, EffectRecorded, Acceptance.SettledBy;
    forall key <- found ensures key in Acceptance.Ids(jobs) { RecordedEffect(s, found, jobs, key); }
    forall job <- jobs
      ensures Acceptance.SettledBy(job, Lookup(found, job.id)) <==>
        (job.id in Effects(s.ledgers, LaneOf(s.ctl.biz, job.id)) ==> job.status == Succeeded)
    {
      SettledJob(s, found, jobs, job);
    }
    if forall job <- jobs :: Acceptance.SettledBy(job, Lookup(found, job.id)) {
      forall lane, key | key in Effects(s.ledgers, lane)
        ensures key in s.ctl.biz.jobs && s.ctl.biz.jobs[key].status == Succeeded
      {
        EffectHasJob(s, lane, key);
        OverJobs(s, found, jobs, key);
      }
    } else {
      var job :| job in jobs && !Acceptance.SettledBy(job, Lookup(found, job.id));
      OverJobs(s, found, jobs, job.id);
      StatusRecorded(s, job);
    }
  }

  lemma StatusRecorded(s: Sys, job: Acceptance.JobRecord)
    requires job.id in s.ctl.biz.jobs && job.id in s.ctl.biz.routes && JobRecorded(s, job)
    ensures job.status == s.ctl.biz.jobs[job.id].status
  {
  }

  /** Outside the configured lanes there is nothing. */
  lemma LanesCover(s: Sys)
    requires Scoped(s)
    ensures NoStrayEffects(s) <==> forall lane <- LanesOf(s.ctl.cfg) :: NoStrayIn(s, lane)
  {
    hide LanesOf, Effects;
    if forall lane <- LanesOf(s.ctl.cfg) :: NoStrayIn(s, lane) {
      forall lane, key | key in Effects(s.ledgers, lane)
        ensures key in s.ctl.biz.jobs && s.ctl.biz.jobs[key].status == Succeeded
      {
        assert lane in LanesOf(s.ctl.cfg) && NoStrayIn(s, lane);
      }
    }
  }

  lemma SafeLanes(s: Sys)
    requires Cross(s) && forall id <- s.ctl.biz.jobs :: s.ctl.biz.jobs[id].status in {Succeeded, Blocked, Dead}
    ensures AllSafe(s.ctl.cfg, s.ctl.biz, s.ledgers) <==> forall lane <- LanesOf(s.ctl.cfg) :: NoStrayIn(s, lane)
  {
    hide Cross, Compare, LaneJobs, LanesOf, Effects, NoStrayIn;
    forall lane <- LanesOf(s.ctl.cfg)
      ensures Compare(s.ctl.cfg.digest, LaneJobs(s.ctl.biz, lane), Effects(s.ledgers, lane)).safe <==> NoStrayIn(s, lane)
    {
      SafeLane(s, lane);
    }
  }

  lemma SnapshotVerdict(s: Sys, found: Acceptance.Found, jobs: seq<Acceptance.JobRecord>)
    requires Local(s.ctl.cfg, s.ctl.biz) && Cross(s) && TakenFrom(s, found, jobs)
    ensures AllSafe(s.ctl.cfg, s.ctl.biz, s.ledgers) <==> NoStrayEffects(s)
  {
    forall id <- s.ctl.biz.jobs ensures s.ctl.biz.jobs[id].status in {Succeeded, Blocked, Dead} { OverJobs(s, found, jobs, id); }
    SoundScoped(s);
    hide Cross, Local, TakenFrom, Scoped, AllSafe, NoStrayEffects, NoStrayIn, LanesOf;
    LanesCover(s);
    SafeLanes(s);
  }
}
