/** Read-only comparison of local intents with the receipts of the receivers. */
module Operations {
  import opened Schema

  // ----- sorted keys -----

  lemma GreatestExists(keys: set<Id>)
    requires keys != {}
    ensures exists m :: m in keys && forall k <- keys :: k <= m
  {
    var k :| k in keys;
    if keys != {k} {
      assert keys - {k} != {};
      GreatestExists(keys - {k});
      var m :| m in keys - {k} && forall j <- keys - {k} :: j <= m;
      var top := if m < k then k else m;
      forall j | j in keys ensures j <= top {
        assert j == k || j in keys - {k};
      }
    }
  }

  function Greatest(keys: set<Id>): (m: Id)
    requires keys != {}
    ensures m in keys && forall k <- keys :: k <= m
  {
    GreatestExists(keys);
    var m :| m in keys && forall k <- keys :: k <= m;
    m
  }

  predicate AscendingKeys(sorted: seq<Id>) { forall i, j :: 0 <= i < j < |sorted| ==> sorted[i] < sorted[j] }

  lemma AscendingNext(sorted: seq<Id>, top: Id)
    requires AscendingKeys(sorted) && forall k <- sorted :: k < top
    ensures AscendingKeys(sorted + [top])
  {
    forall i, j | 0 <= i < j < |sorted| + 1 ensures (sorted + [top])[i] < (sorted + [top])[j] {
      assert sorted[i] in sorted;
    }
  }

  function SortedKeys(keys: set<Id>): (sorted: seq<Id>)
    ensures |sorted| == |keys| && AscendingKeys(sorted)
    ensures forall k :: k in sorted <==> k in keys
  {
    if keys == {} then []
    else
      var top := Greatest(keys);
      var init := SortedKeys(keys - {top});
      AscendingNext(init, top);
      init + [top]
  }

  // ----- compare_receipts -----

  function SeenIn(receipts: map<Id, Effect>): map<Id, ReceiptView> {
    map key | key in receipts :: ReceiptView(receipts[key].hash, receipts[key].body, receipts[key].receipt)
  }

  function BodyFault(digest: Doc -> Hash, receipts: map<Id, Effect>, key: Id): Option<FindingKind> {
    if key in receipts && digest(OfMutation(receipts[key].body)) != receipts[key].hash then
      Some(ReceiptBodyHashConflict)
    else None
  }

  function RemoteFault(digest: Doc -> Hash, jobs: map<Id, JobView>, receipts: map<Id, Effect>, key: Id)
    : Option<FindingKind>
  {
    if key !in receipts then None
    else if key !in jobs then Some(RemoteAheadMissingIntent)
    else if jobs[key].mutation.None? || digest(OfMutation(jobs[key].mutation.value)) != receipts[key].hash then
      Some(IdentityConflict)
    else if jobs[key].status != Succeeded && !jobs[key].uncertain then Some(RemoteAheadNotReconcilable)
    else if jobs[key].status in {Dead, Blocked} then Some(TerminalIntentRequiresReview)
    else None
  }

  function LocalFault(jobs: map<Id, JobView>, receipts: map<Id, Effect>, key: Id): Option<FindingKind> {
    if key !in jobs || jobs[key].status != Succeeded then None
    else if key !in receipts then Some(AcknowledgedReceiptMissing)
    else if jobs[key].remoteResult.None? || jobs[key].remoteResult.value.receipt != receipts[key].receipt then
      Some(ReceiptIdentityChanged)
    else None
  }

  function BodyPass(digest: Doc -> Hash, receipts: map<Id, Effect>): Id -> Option<FindingKind> {
    (key: Id) => BodyFault(digest, receipts, key)
  }

  function RemotePass(digest: Doc -> Hash, jobs: map<Id, JobView>, receipts: map<Id,
                      Effect>): Id -> Option<FindingKind> {
    (key: Id) => RemoteFault(digest, jobs, receipts, key)
  }

  function LocalPass(jobs: map<Id, JobView>, receipts: map<Id, Effect>): Id -> Option<FindingKind> {
    (key: Id) => LocalFault(jobs, receipts, key)
  }

  /** One pass over sorted keys, appending a finding wherever there is a fault. */
  function Collect(keys: seq<Id>, fault: Id -> Option<FindingKind>): seq<Finding> {
    if keys == [] then []
    else
      var last := keys[|keys| - 1];
      Collect(keys[..|keys| - 1], fault) + (if fault(last).Some? then [Finding(last, fault(last).value)] else [])
  }

  lemma CollectNext(keys: seq<Id>, i: nat, fault: Id -> Option<FindingKind>)
    requires i < |keys|
    ensures Collect(keys[..i + 1], fault) ==
      Collect(keys[..i], fault) + (if fault(keys[i]).Some? then [Finding(keys[i], fault(keys[i]).value)] else [])
  {
    assert keys[..i + 1][..i] == keys[..i];
  }

  datatype Comparison = Comparison(safe: bool, findings: seq<Finding>, localIntents: nat, remoteEffects: nat,
                                   snapshotHash: Hash)

  function FindingsOf(digest: Doc -> Hash, jobs: map<Id, JobView>, receipts: map<Id, Effect>): seq<Finding> {
    Collect(SortedKeys(receipts.Keys), BodyPass(digest, receipts)) +
    Collect(SortedKeys(receipts.Keys), RemotePass(digest, jobs, receipts)) +
    Collect(SortedKeys(jobs.Keys), LocalPass(jobs, receipts))
  }

  function Compare(digest: Doc -> Hash, jobs: map<Id, JobView>, receipts: map<Id, Effect>): Comparison {
    var findings := FindingsOf(digest, jobs, receipts);
    Comparison(findings == [], findings, |jobs|, |receipts|, digest(OfSnapshot(jobs, SeenIn(receipts))))
  }

  lemma {:induction false} CollectMeaning(keys: seq<Id>, fault: Id -> Option<FindingKind>, finding: Finding)
    ensures finding in Collect(keys, fault) <==> finding.key in keys && fault(finding.key) == Some(finding.kind)
  {
    if keys != [] {
      var init, last := keys[..|keys| - 1], keys[|keys| - 1];
      CollectMeaning(init, fault, finding);
      assert keys == init + [last];
    }
  }

  /** A finding is reported exactly when one of the three passes has that fault at that key. */
  lemma FindingMeaning(digest: Doc -> Hash, jobs: map<Id, JobView>, receipts: map<Id, Effect>, finding: Finding)
    ensures finding in FindingsOf(digest, jobs, receipts) <==>
      || BodyFault(digest, receipts, finding.key) == Some(finding.kind)
      || RemoteFault(digest, jobs, receipts, finding.key) == Some(finding.kind)
      || LocalFault(jobs, receipts, finding.key) == Some(finding.kind)
  {
    CollectMeaning(SortedKeys(receipts.Keys), BodyPass(digest, receipts), finding);
    CollectMeaning(SortedKeys(receipts.Keys), RemotePass(digest, jobs, receipts), finding);
    CollectMeaning(SortedKeys(jobs.Keys), LocalPass(jobs, receipts), finding);
  }

  /** The two sides agree about one key, without mentioning how findings are produced. */
  ghost predicate Reconciled(digest: Doc -> Hash, jobs: map<Id, JobView>, receipts: map<Id, Effect>, key: Id) {
    && (key in receipts ==>
        && digest(OfMutation(receipts[key].body)) == receipts[key].hash
        && key in jobs && jobs[key].mutation.Some?
        && digest(OfMutation(jobs[key].mutation.value)) == receipts[key].hash
        && (jobs[key].status == Succeeded || (jobs[key].uncertain && jobs[key].status in {Ready, Leased, Retry})))
    && (key in jobs && jobs[key].status == Succeeded ==>
        && key in receipts && jobs[key].remoteResult.Some?
        && jobs[key].remoteResult.value.receipt == receipts[key].receipt)
  }

  predicate Faultless(digest: Doc -> Hash, jobs: map<Id, JobView>, receipts: map<Id, Effect>, key: Id) {
    && BodyFault(digest, receipts, key).None?
    && RemoteFault(digest, jobs, receipts, key).None?
    && LocalFault(jobs, receipts, key).None?
  }

  lemma FaultlessMeaning(digest: Doc -> Hash, jobs: map<Id, JobView>, receipts: map<Id, Effect>, key: Id)
    ensures Faultless(digest, jobs, receipts, key) <==> Reconciled(digest, jobs, receipts, key)
  {
  }

  lemma NoFindings(digest: Doc -> Hash, jobs: map<Id, JobView>, receipts: map<Id, Effect>, key: Id)
    requires FindingsOf(digest, jobs, receipts) == []
    ensures Faultless(digest, jobs, receipts, key)
  {
    if !Faultless(digest, jobs, receipts, key) {
      var kind :| (BodyFault(digest, receipts, key) == Some(kind) || RemoteFault(digest, jobs, receipts, key) == Some(kind)
                   || LocalFault(jobs, receipts, key) == Some(kind));
      FindingMeaning(digest, jobs, receipts, Finding(key, kind));
    }
  }

  /** `safe_to_resume` says exactly that the two sides agree about every key. */
  lemma SafeMeaning(digest: Doc -> Hash, jobs: map<Id, JobView>, receipts: map<Id, Effect>)
    ensures Compare(digest, jobs, receipts).safe <==> forall key :: Reconciled(digest, jobs, receipts, key)
  {
    var findings := FindingsOf(digest, jobs, receipts);
    if findings == [] {
      forall key ensures Reconciled(digest, jobs, receipts, key) {
        NoFindings(digest, jobs, receipts, key);
        FaultlessMeaning(digest, jobs, receipts, key);
      }
    } else {
      var f := findings[0];
      FindingMeaning(digest, jobs, receipts, f);
      FaultlessMeaning(digest, jobs, receipts, f.key);
      assert !Reconciled(digest, jobs, receipts, f.key);
    }
  }

  method BodyFindings(digest: Doc -> Hash, receipts: map<Id, Effect>, keys: seq<Id>) returns (findings: seq<Finding>)
    requires forall key <- keys :: key in receipts
    ensures findings == Collect(keys, BodyPass(digest, receipts))
  {
    findings := [];
    for i := 0 to |keys|
      invariant findings == Collect(keys[..i], BodyPass(digest, receipts))
    {
      var key := keys[i];
      CollectNext(keys, i, BodyPass(digest, receipts));
      if digest(OfMutation(receipts[key].body)) != receipts[key].hash {
        findings := findings + [Finding(key, ReceiptBodyHashConflict)];
      }
    }
    assert keys[..|keys|] == keys;
  }

  method RemoteFindings(digest: Doc -> Hash, jobs: map<Id, JobView>, receipts: map<Id, Effect>, keys: seq<Id>)
    returns (findings: seq<Finding>)
    requires forall key <- keys :: key in receipts
    ensures findings == Collect(keys, RemotePass(digest, jobs, receipts))
  {
    findings := [];
    for i := 0 to |keys|
      invariant findings == Collect(keys[..i], RemotePass(digest, jobs, receipts))
    {
      var key := keys[i];
      CollectNext(keys, i, RemotePass(digest, jobs, receipts));
      if key !in jobs {
        findings := findings + [Finding(key, RemoteAheadMissingIntent)];
      } else if jobs[key].mutation.None? || digest(OfMutation(jobs[key].mutation.value)) != receipts[key].hash {
        findings := findings + [Finding(key, IdentityConflict)];
      } else if jobs[key].status != Succeeded && !jobs[key].uncertain {
        findings := findings + [Finding(key, RemoteAheadNotReconcilable)];
      } else if jobs[key].status in {Dead, Blocked} {
        findings := findings + [Finding(key, TerminalIntentRequiresReview)];
      }
    }
    assert keys[..|keys|] == keys;
  }

  method LocalFindings(jobs: map<Id, JobView>, receipts: map<Id, Effect>, keys: seq<Id>)
    returns (findings: seq<Finding>)
    requires forall key <- keys :: key in jobs
    ensures findings == Collect(keys, LocalPass(jobs, receipts))
  {
    findings := [];
    for i := 0 to |keys|
      invariant findings == Collect(keys[..i], LocalPass(jobs, receipts))
    {
      var key := keys[i];
      CollectNext(keys, i, LocalPass(jobs, receipts));
      if jobs[key].status == Succeeded && key !in receipts {
        findings := findings + [Finding(key, AcknowledgedReceiptMissing)];
      }
      if jobs[key].status == Succeeded && key in receipts {
        var result := jobs[key].remoteResult;
        if result.None? || result.value.receipt != receipts[key].receipt {
          findings := findings + [Finding(key, ReceiptIdentityChanged)];
        }
      }
    }
    assert keys[..|keys|] == keys;
  }

  /** The comparison as the program runs it: three passes that append findings in key order. */
  method CompareReceipts(digest: Doc -> Hash, jobs: map<Id, JobView>, receipts: map<Id, Effect>)
    returns (comparison: Comparison)
    ensures comparison == Compare(digest, jobs, receipts)
    ensures comparison.localIntents == |jobs| && comparison.remoteEffects == |receipts|
    ensures comparison.snapshotHash == digest(OfSnapshot(jobs, SeenIn(receipts)))
    ensures comparison.safe <==> forall key :: Reconciled(digest, jobs, receipts, key)
  {
    SafeMeaning(digest, jobs, receipts);
    hide Reconciled;
    var bodies := BodyFindings(digest, receipts, SortedKeys(receipts.Keys));
    var ahead := RemoteFindings(digest, jobs, receipts, SortedKeys(receipts.Keys));
    var behind := LocalFindings(jobs, receipts, SortedKeys(jobs.Keys));
    var findings := bodies + ahead + behind;
    comparison := Comparison(findings == [], findings, |jobs|, |receipts|, digest(OfSnapshot(jobs, SeenIn(receipts))));
  }

  // ----- snapshots -----

  function Viewed(job: JobRow): JobView {
    JobView(job.status, job.mutation, job.uncertain, job.remoteResult)
  }

  function AllJobs(b: Business): map<Id, JobView> {
    map id | id in b.jobs :: Viewed(b.jobs[id])
  }

  function LaneJobs(b: Business, lane: Lane): map<Id, JobView> {
    map id | id in b.jobs && LaneOf(b, id) == lane :: Viewed(b.jobs[id])
  }

  function LanesOf(cfg: Config): set<Lane> {
    (set d | d in cfg.destinations :: Routed(d)) + {Legacy}
  }
}
