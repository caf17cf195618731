/** What a comparison finds, kind by kind and in which order, and which columns it is made from. */
module Evidence {
  import opened Schema
  import opened Operations

  /** The columns that recovery reads: all jobs with four columns each, all receipts with three. */
  lemma SnapshotColumns(b: Business, receipts: map<Id, Effect>)
    ensures AllJobs(b).Keys == b.jobs.Keys && SeenIn(receipts).Keys == receipts.Keys
    ensures forall id <- b.jobs ::
      AllJobs(b)[id] == JobView(b.jobs[id].status, b.jobs[id].mutation, b.jobs[id].uncertain, b.jobs[id].remoteResult)
    ensures forall key <- receipts ::
      SeenIn(receipts)[key] == ReceiptView(receipts[key].hash, receipts[key].body, receipts[key].receipt)
  {
  }

  /** The jobs of a lane are those with its route, or without any for the legacy receiver. */
  lemma LaneColumns(cfg: Config, b: Business, lane: Lane)
    ensures forall id: Id :: id in LaneJobs(b, lane) <==>
      id in b.jobs && (match lane case Legacy => id !in b.routes case Routed(d) => id in b.routes && b.routes[id] == d)
    ensures forall id <- LaneJobs(b, lane) :: id in AllJobs(b) && LaneJobs(b, lane)[id] == AllJobs(b)[id]
    ensures lane in LanesOf(cfg) <==> lane == Legacy || (lane.Routed? && lane.destination in cfg.destinations)
  {
  }

  /** The intent of the job is the one that the receipt is for. */
  predicate SameIntent(digest: Doc -> Hash, job: JobView, effect: Effect) {
    job.mutation.Some? && digest(OfMutation(job.mutation.value)) == effect.hash
  }

  /** When each kind of finding is reported for a key; no other kind ever is. */
  predicate Reason(digest: Doc -> Hash, jobs: map<Id, JobView>, receipts: map<Id, Effect>, f: Finding) {
    var here, there := f.key in jobs, f.key in receipts;
    match f.kind
    case ReceiptBodyHashConflict => there && digest(OfMutation(receipts[f.key].body)) != receipts[f.key].hash
    case RemoteAheadMissingIntent => there && !here
    case IdentityConflict => there && here && !SameIntent(digest, jobs[f.key], receipts[f.key])
    case RemoteAheadNotReconcilable =>
      && there && here && SameIntent(digest, jobs[f.key], receipts[f.key])
      && jobs[f.key].status != Succeeded && !jobs[f.key].uncertain
    case TerminalIntentRequiresReview =>
      && there && here && SameIntent(digest, jobs[f.key], receipts[f.key])
      && jobs[f.key].status in {Dead, Blocked} && jobs[f.key].uncertain
    case AcknowledgedReceiptMissing => here && !there && jobs[f.key].status == Succeeded
    case ReceiptIdentityChanged =>
      && here && there && jobs[f.key].status == Succeeded
      && (jobs[f.key].remoteResult.None? || jobs[f.key].remoteResult.value.receipt != receipts[f.key].receipt)
    case AuthorityRefreshMissing(_) => false
  }

  lemma FindingDecision(digest: Doc -> Hash, jobs: map<Id, JobView>, receipts: map<Id, Effect>, f: Finding)
    ensures f in FindingsOf(digest, jobs, receipts) <==> Reason(digest, jobs, receipts, f)
  {
    FindingMeaning(digest, jobs, receipts, f);
    hide FindingsOf;
  }

  // ----- the order of findings -----

  /** Altered bodies first, then what the receiver has, then what the control database has. */
  function PassOf(kind: FindingKind): nat {
    match kind
    case ReceiptBodyHashConflict => 0
    case RemoteAheadMissingIntent | IdentityConflict | RemoteAheadNotReconcilable | TerminalIntentRequiresReview => 1
    case AcknowledgedReceiptMissing | ReceiptIdentityChanged => 2
    case AuthorityRefreshMissing(_) => 3
  }

  predicate Reported(a: Finding, b: Finding) {
    PassOf(a.kind) < PassOf(b.kind) || (PassOf(a.kind) == PassOf(b.kind) && a.key < b.key)
  }

  predicate InOrder(findings: seq<Finding>) {
    forall i, j :: 0 <= i < j < |findings| ==> Reported(findings[i], findings[j])
  }

  predicate OfPass(findings: seq<Finding>, pass: nat) { forall f <- findings :: PassOf(f.kind) == pass }

  lemma {:induction false} CollectInOrder(keys: seq<Id>, fault: Id -> Option<FindingKind>, pass: nat)
    requires AscendingKeys(keys) && forall key <- keys :: fault(key).Some? ==> PassOf(fault(key).value) == pass
    ensures InOrder(Collect(keys, fault)) && OfPass(Collect(keys, fault), pass)
  {
    if keys != [] {
      var init, last := keys[..|keys| - 1], keys[|keys| - 1];
      CollectInOrder(init, fault, pass);
      var before := Collect(init, fault);
      forall f <- before ensures f.key < last {
        CollectMeaning(init, fault, f);
      }
    }
  }

  lemma Joined(a: seq<Finding>, b: seq<Finding>, pass: nat)
    requires InOrder(a) && InOrder(b) && OfPass(b, pass) && forall f <- a :: PassOf(f.kind) < pass
    ensures InOrder(a + b)
  {
    forall i, j | 0 <= i < j < |a + b| ensures Reported((a + b)[i], (a + b)[j]) {
      if i < |a| <= j { assert a[i] in a && b[j - |a|] in b; }
    }
  }

  /** The findings come pass by pass and by ascending key within a pass, hence each at most once. */
  lemma FindingsInOrder(digest: Doc -> Hash, jobs: map<Id, JobView>, receipts: map<Id, Effect>)
    ensures InOrder(FindingsOf(digest, jobs, receipts))
  {
    var remote, local := SortedKeys(receipts.Keys), SortedKeys(jobs.Keys);
    hide Collect, InOrder, OfPass, SortedKeys;
    CollectInOrder(remote, BodyPass(digest, receipts), 0);
    CollectInOrder(remote, RemotePass(digest, jobs, receipts), 1);
    CollectInOrder(local, LocalPass(jobs, receipts), 2);
    ThreeInOrder(Collect(remote, BodyPass(digest, receipts)), Collect(remote, RemotePass(digest, jobs, receipts)),
                 Collect(local, LocalPass(jobs, receipts)));
  }

  lemma ThreeInOrder(a: seq<Finding>, b: seq<Finding>, c: seq<Finding>)
    requires InOrder(a) && InOrder(b) && InOrder(c) && OfPass(a, 0) && OfPass(b, 1) && OfPass(c, 2)
    ensures InOrder(a + b + c)
  {
    Joined(a, b, 1);
    forall f <- a + b ensures PassOf(f.kind) < 2 {
      assert f in a || f in b;
    }
    Joined(a + b, c, 2);
  }

  /** Order and membership leave one comparison only. */
  lemma {:induction false} OneOrder(a: seq<Finding>, b: seq<Finding>)
    requires InOrder(a) && InOrder(b) && forall f :: f in a <==> f in b
    ensures a == b
  {
    if a != [] && b != [] {
      assert a[0] in b && b[0] in a;
      assert a[0] == b[0];
      forall f ensures f in a[1..] <==> f in b[1..] {
        Rest(a, f);
        Rest(b, f);
      }
      OneOrder(a[1..], b[1..]);
    } else if |a| != |b| {
      FirstIn(a, b);
      FirstIn(b, a);
      assert false;
    }
  }

  lemma FirstIn(a: seq<Finding>, b: seq<Finding>)
    requires forall f <- a :: f in b
    ensures a != [] ==> b != []
  {
    if a != [] { assert a[0] in b; }
  }

  lemma Rest(a: seq<Finding>, f: Finding)
    requires InOrder(a) && a != []
    ensures f in a[1..] <==> f in a && f != a[0]
  {
    assert a == [a[0]] + a[1..];
  }

  /** The whole comparison: any ordered list of just the findings that there is a reason for is its
      list, it is safe when that is empty, and it is bound to the columns that were read. */
  lemma ComparisonMeaning(digest: Doc -> Hash, jobs: map<Id, JobView>, receipts: map<Id, Effect>, findings: seq<Finding>)
    requires InOrder(findings) && forall f :: f in findings <==> Reason(digest, jobs, receipts, f)
    ensures Compare(digest, jobs, receipts) ==
      Comparison(findings == [], findings, |jobs|, |receipts|, digest(OfSnapshot(jobs, SeenIn(receipts))))
  {
    FindingsInOrder(digest, jobs, receipts);
    forall f ensures f in FindingsOf(digest, jobs, receipts) <==> f in findings {
      FindingDecision(digest, jobs, receipts, f);
    }
    hide FindingsOf, InOrder, Reason;
    OneOrder(findings, FindingsOf(digest, jobs, receipts));
  }
}
