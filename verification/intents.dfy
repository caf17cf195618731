/** What the control database keeps about its own rows, whatever receivers and network do:
    references, decisions, approvals, leases, and the link between an intent, the revision it
    was rendered at and the customer row.  Holds in every reachable state and in every backup. */
module Intents {
  import opened Schema
  import opened Policy
  import opened ServiceTx
  import opened CapacityTx
  import opened Receiver
  import opened WorkerTx
  import opened RecoveryTx
  import opened System
  import opened Steps

  // ----- the invariant -----

  predicate ApprovalOk(p: ProposalRow) {
    p.approval.Some? ==>
      && p.decision == NeedsApproval
      && p.approval.value.approver != p.actor
      && p.approval.value.until <= p.expiresAt
  }

  /** A proposal that was not denied is never ahead of its customer. */
  predicate ProposalOk(b: Business, id: Id)
    requires id in b.proposals
  {
    var p := b.proposals[id];
    && p.customer in b.customers
    && (p.decision != Deny ==> p.revision <= b.customers[p.customer].revision)
    && (p.decision == Allow ==> p.body.action == SyncProfile)
    && (p.decision == NeedsApproval ==> p.body.action == SendMarketing)
    && ApprovalOk(p)
  }

  /** The stored intent is what rendering gives for as long as the customer has not moved on. */
  predicate IntentOk(row: CustomerRow, p: ProposalRow, m: Mutation) {
    && m.customer == p.customer && m.action == p.body.action && m.revision == p.revision
    && (row.revision == p.revision ==> m == Render(row, p))
  }

  predicate JobOk(b: Business, id: Id)
    requires id in b.jobs
  {
    var job := b.jobs[id];
    && id in b.proposals && b.proposals[id].customer in b.customers
    && var p := b.proposals[id];
    && p.decision != Deny && (p.decision == NeedsApproval ==> p.approval.Some?)
    && (job.uncertain ==> job.mutation.Some?)
    && (job.status == Leased <==> job.leaseToken.Some?) && (job.leaseToken.Some? <==> job.leaseUntil.Some?)
    && (job.mutation.Some? ==> IntentOk(b.customers[p.customer], p, job.mutation.value))
  }

  ghost predicate Local(cfg: Config, b: Business) {
    && (forall id <- b.jobs :: JobOk(b, id))
    && (forall id <- b.proposals :: ProposalOk(b, id))
    && (forall key <- b.identities :: b.identities[key] in b.customers)
    && (forall id <- b.routes :: id in b.proposals && b.routes[id] in cfg.destinations)
  }

  // ----- elementary changes keep it -----

  lemma JobChange(cfg: Config, b: Business, id: Id, job: JobRow)
    requires Local(cfg, b) && JobOk(WithJob(b, id, job), id)
    ensures Local(cfg, WithJob(b, id, job))
  {
    var b' := WithJob(b, id, job);
    forall other <- b'.jobs ensures JobOk(b', other) {
      if other != id { assert JobOk(b, other); }
    }
    forall other <- b'.proposals ensures ProposalOk(b', other) { assert ProposalOk(b, other); }
  }

  /** Exceptions, events and capacity are not what the invariant is about. */
  lemma ApartFrom(cfg: Config, b: Business, b': Business)
    requires Local(cfg, b)
    requires b' == b.(exceptions := b'.exceptions, events := b'.events, capacity := b'.capacity)
    ensures Local(cfg, b')
  {
    forall id <- b'.jobs ensures JobOk(b', id) { assert JobOk(b, id); }
    forall id <- b'.proposals ensures ProposalOk(b', id) { assert ProposalOk(b, id); }
  }

  /** A customer row may change as long as its revision moves with it. */
  lemma CustomerChange(cfg: Config, b: Business, id: Id, row: CustomerRow)
    requires Local(cfg, b)
    requires id in b.customers ==> row == b.customers[id] || row.revision > b.customers[id].revision
    ensures Local(cfg, b.(customers := b.customers[id := row]))
  {
    var b' := b.(customers := b.customers[id := row]);
    forall job <- b'.jobs ensures JobOk(b', job) { assert JobOk(b, job) && ProposalOk(b, job); }
    forall p <- b'.proposals ensures ProposalOk(b', p) { assert ProposalOk(b, p); }
  }

  lemma IdentityChange(cfg: Config, b: Business, key: (Source, string), id: Id)
    requires Local(cfg, b) && id in b.customers
    ensures Local(cfg, b.(identities := b.identities[key := id]))
  {
    var b' := b.(identities := b.identities[key := id]);
    forall job <- b'.jobs ensures JobOk(b', job) { assert JobOk(b, job); }
    forall p <- b'.proposals ensures ProposalOk(b', p) { assert ProposalOk(b, p); }
  }

  /** A new proposal, or one that only gained an approval. */
  lemma ProposalChange(cfg: Config, b: Business, id: Id, p: ProposalRow)
    requires Local(cfg, b) && ProposalOk(b.(proposals := b.proposals[id := p]), id)
    requires id in b.proposals ==> p == b.proposals[id].(approval := p.approval) && p.approval.Some?
    ensures Local(cfg, b.(proposals := b.proposals[id := p]))
  {
    var b' := b.(proposals := b.proposals[id := p]);
    forall job <- b'.jobs ensures JobOk(b', job) { assert JobOk(b, job); }
    forall other <- b'.proposals ensures ProposalOk(b', other) {
      if other != id { assert ProposalOk(b, other); }
    }
  }

  lemma RouteChange(cfg: Config, b: Business, id: Id, destination: DestId)
    requires Local(cfg, b) && id in b.proposals && destination in cfg.destinations
    ensures Local(cfg, b.(routes := b.routes[id := destination]))
  {
    var b' := b.(routes := b.routes[id := destination]);
    forall job <- b'.jobs ensures JobOk(b', job) { assert JobOk(b, job); }
    forall p <- b'.proposals ensures ProposalOk(b', p) { assert ProposalOk(b, p); }
  }

  // ----- each transaction keeps it -----

  /** Either nothing an action depends on moved, or the revision did. */
  lemma ObserveMovesRevision(source: Source, event: SourceEvent, row: CustomerRow)
    ensures var row' := Observe(source, event, row);
      row'.revision == row.revision + 1 || row' == row
  {
    var admitted := Admitted(source, event, row);
    if field :| field in admitted {
      assert Observe(source, event, row).provenance[field] == Mark(source, event);
      assert Observe(source, event, row).provenance != row.provenance;
    } else {
      assert Observe(source, event, row).state == row.state;
      assert Observe(source, event, row).provenance == row.provenance;
    }
  }

  lemma IngestForKeeps(cfg: Config, b: Business, source: Source, event: SourceEvent, hash: Hash, id: Id, now: Time)
    requires Local(cfg, b)
    ensures Local(cfg, After(b, IngestFor(b, source, event, hash, id, now)))
  {
    if id in b.customers {
      ObserveMovesRevision(source, event, b.customers[id]);
      var row' := Observe(source, event, b.customers[id]);
      CustomerChange(cfg, b, id, row');
      ApartFrom(cfg, b.(customers := b.customers[id := row']), After(b, IngestFor(b, source, event, hash, id, now)));
    }
  }

  lemma IngestKeeps(cfg: Config, b: Business, source: Source, event: SourceEvent, newId: Id, now: Time)
    requires Local(cfg, b)
    ensures Local(cfg, After(b, IngestTx(cfg.digest, b, source, event, newId, now)))
  {
    var hash := cfg.digest(OfEvent(event));
    var b' := After(b, IngestTx(cfg.digest, b, source, event, newId, now));
    if (source, event.eventId) in b.events {
      ApartFrom(cfg, b, b');
    } else if (source, event.subject) in b.identities {
      IngestForKeeps(cfg, b, source, event, hash, b.identities[(source, event.subject)], now);
    } else if !Founds(b, source, event) {
      ApartFrom(cfg, b, b');
    } else if newId !in b.customers {
      var known := b.(customers := b.customers[newId := NEW_CUSTOMER]);
      CustomerChange(cfg, b, newId, NEW_CUSTOMER);
      IdentityChange(cfg, known, (source, event.subject), newId);
      var founded := known.(identities := known.identities[(source, event.subject) := newId]);
      assert founded == b.(customers := b.customers[newId := NEW_CUSTOMER],
                           identities := b.identities[(source, event.subject) := newId]);
      IngestForKeeps(cfg, founded, source, event, hash, newId, now);
    }
  }

  lemma LinkKeeps(cfg: Config, b: Business, command: LinkCommand)
    requires Local(cfg, b)
    ensures Local(cfg, After(b, LinkTx(b, command)))
  {
    if LinkTx(b, command).Commit? {
      IdentityChange(cfg, b, (command.source, command.subject), command.customer);
    }
  }

  lemma AdmittedDestination(cfg: Config, b: Business, owner: Option<Value>, now: Time)
    ensures Admit(cfg, b, owner, now).To? ==> Admit(cfg, b, owner, now).destination in cfg.destinations
  {
  }

  lemma ProposeKeeps(cfg: Config, policy: Hash, open: bool, b: Business, actor: string, command: Command, now: Time)
    requires Local(cfg, b)
    ensures Local(cfg, After(b, ProposeTx(cfg, policy, open, b, actor, command, now)))
  {
    var id := command.requestId;
    var tx := ProposeTx(cfg, policy, open, b, actor, command, now);
    if id in b.proposals {
      ApartFrom(cfg, b, After(b, tx));
    } else if open && tx.Commit? {
      var row := b.customers[command.customer];
      var ruling := RuleAction(command.action, row.state, row.revision, command.expectedRevision);
      var admission := if ruling.permission == Deny then Unrouted else Admit(cfg, b, Lookup(row.state, Owner), now);
      AdmittedDestination(cfg, b, Lookup(row.state, Owner), now);
      var p := ProposalRow(command.customer, actor, cfg.digest(OfCommand(command)), command, policy,
                           command.expectedRevision, ruling.permission, ruling.reason, now + PROPOSAL_TTL, None);
      var proposed := b.(proposals := b.proposals[id := p]);
      ProposalChange(cfg, b, id, p);
      if admission.To? { RouteChange(cfg, proposed, id, admission.destination); }
      var stored := Bound(proposed, id, admission);
      match ruling.permission
      case Allow => JobChange(cfg, stored, id, NewJob(now));
      case Deny => ApartFrom(cfg, stored, After(b, tx));
      case NeedsApproval =>
    }
  }

  lemma ApproveKeeps(cfg: Config, policy: Hash, open: bool, b: Business, actor: string, id: Id, expected: nat,
                     now: Time)
    requires Local(cfg, b)
    ensures Local(cfg, After(b, ApproveTx(policy, open, b, actor, id, expected, now)))
  {
    var tx := ApproveTx(policy, open, b, actor, id, expected, now);
    if tx.Commit? && tx.value.NowApproved? {
      var p := b.proposals[id];
      assert ProposalOk(b, id);
      var p' := p.(approval := Some(Approval(actor, tx.value.until)));
      ProposalChange(cfg, b, id, p');
      if id !in b.jobs { JobChange(cfg, b.(proposals := b.proposals[id := p']), id, NewJob(now)); }
    } else {
      ApartFrom(cfg, b, After(b, tx));
    }
  }

  lemma ResolveKeeps(cfg: Config, b: Business, index: nat, disposition: Disposition, now: Time)
    requires Local(cfg, b)
    ensures Local(cfg, After(b, ResolveTx(cfg, b, index, disposition, now)))
  {
    var tx := ResolveTx(cfg, b, index, disposition, now);
    if tx.Commit? {
      var noted := b.(exceptions := tx.biz.exceptions);
      ApartFrom(cfg, b, noted);
      if disposition == Requeue {
        var id := b.exceptions[index].subject.id;
        assert JobOk(noted, id);
        JobChange(cfg, noted, id, tx.biz.jobs[id]);
      }
    }
  }

  lemma ClaimKeeps(cfg: Config, b: Business, id: Id, token: Id, lease: Time, now: Time)
    requires Local(cfg, b)
    ensures Local(cfg, ClaimTx(b, id, token, lease, now))
  {
    if id in b.jobs {
      assert JobOk(b, id);
      JobChange(cfg, b, id, ClaimTx(b, id, token, lease, now).jobs[id]);
    }
  }

  lemma FinishKeeps(cfg: Config, b: Business, id: Id, token: Id, f: Finish, jitter: Time, now: Time)
    requires Local(cfg, b) && Settles(f)
    ensures Local(cfg, FinishTx(b, id, token, f, jitter, now))
  {
    if Holds(b, id, token) {
      assert JobOk(b, id);
      var settled := WithJob(b, id, FinishedJob(b.jobs[id], f, jitter, now));
      JobChange(cfg, b, id, FinishedJob(b.jobs[id], f, jitter, now));
      ApartFrom(cfg, settled, FinishTx(b, id, token, f, jitter, now));
    }
  }

  lemma DeferKeeps(cfg: Config, b: Business, id: Id, token: Id, now: Time)
    requires Local(cfg, b)
    ensures Local(cfg, DeferTx(b, id, token, false, now))
  {
    if Holds(b, id, token) {
      assert JobOk(b, id);
      JobChange(cfg, b, id, DeferTx(b, id, token, false, now).jobs[id]);
    }
  }

  /** Retry determinism: while the revision still matches, rendering again gives the stored
      intent, so a changed mutation is never found. */
  lemma RetryRendersTheSame(cfg: Config, policy: Hash, open: bool, b: Business, id: Id, token: Id, now: Time)
    requires Local(cfg, b)
    ensures Preparation(policy, open, b, id, token, now) != Objected(MutationChanged)
    ensures Preparation(policy, open, b, id, token, now).Authorized? ==>
      && id in b.jobs && id in b.proposals
      && (b.jobs[id].mutation.Some? ==>
          Preparation(policy, open, b, id, token, now) == Authorized(b.jobs[id].mutation.value))
  {
    if id in b.jobs { assert JobOk(b, id); }
  }

  lemma PrepareKeeps(cfg: Config, policy: Hash, open: bool, b: Business, id: Id, token: Id, now: Time)
    requires Local(cfg, b)
    ensures Local(cfg, PrepareTx(policy, open, b, id, token, now))
  {
    if Preparation(policy, open, b, id, token, now).Authorized? {
      assert JobOk(b, id);
      JobChange(cfg, b, id, PrepareTx(policy, open, b, id, token, now).jobs[id]);
    }
  }

  // ----- each step keeps it -----

  lemma FinishedKeeps(s: Sys, token: Id, f: Finish, jitter: Time)
    requires Local(s.ctl.cfg, s.ctl.biz) && token in s.workers && Settles(f)
    ensures Local(s.ctl.cfg, Finished(s, token, f, jitter).ctl.biz)
  {
    FinishKeeps(s.ctl.cfg, s.ctl.biz, s.workers[token].id, token, f, jitter, s.now);
  }

  lemma WorkerKeepsLocal(s: Sys, e: Event)
    requires Local(s.ctl.cfg, s.ctl.biz)
    requires OfWorker(e)
    ensures Act(s, e).ctl.cfg == s.ctl.cfg && Local(s.ctl.cfg, Act(s, e).ctl.biz)
  {
    var cfg, b := s.ctl.cfg, s.ctl.biz;
    hide Local;
    if e.Settle? || e.Misroute? {
      var f := FinishingStep(s, e);
      hide Act;
      if f.Some? { FinishedKeeps(s, e.token, f.value, e.jitter); }
    } else if e.Claim? {
      ClaimKeeps(cfg, b, e.id, e.token, e.lease, s.now);
    } else if e.Prepare? {
      if e.token in s.workers { PrepareKeeps(cfg, s.ctl.policy, IsOpen(s), b, s.workers[e.token].id, e.token, s.now); }
    } else if e.Defer? {
      if e.token in s.workers { DeferKeeps(cfg, b, s.workers[e.token].id, e.token, s.now); }
    } else {
      PassiveStep(s, e);
    }
  }

  lemma ActKeepsLocal(s: Sys, e: Event)
    requires Local(s.ctl.cfg, s.ctl.biz)
    ensures Act(s, e).ctl.cfg == s.ctl.cfg
    ensures Local(s.ctl.cfg, Act(s, e).ctl.biz)
  {
    var cfg, b := s.ctl.cfg, s.ctl.biz;
    hide Local;
    match e
    case Ingest(source, event, newId) => IngestKeeps(cfg, b, source, event, newId, s.now);
    case Link(link) => LinkKeeps(cfg, b, link);
    case Propose(actor, command) => ProposeKeeps(cfg, s.ctl.policy, IsOpen(s), b, actor, command, s.now);
    case Approve(actor, proposal, expected) => ApproveKeeps(cfg, s.ctl.policy, IsOpen(s), b, actor, proposal, expected, s.now);
    case Resolve(index, disposition) => ResolveKeeps(cfg, b, index, disposition, s.now);
    case Acquire(destination, kind, readings, token) => ApartFrom(cfg, b, Act(s, e).ctl.biz);
    case Release(destination, token, failed, cooldown) => ApartFrom(cfg, b, Act(s, e).ctl.biz);
    case Begin(_, _) =>
    case Verify(_, _, _, _) =>
    case ApproveProof(_, _, _, _) =>
    case Resume(_, _, _, _) =>
    case Deploy(_) =>
    case Deliver(_, _, _, _) =>
    case Lose(_) =>
    case PlanFailures(_, _, _) =>
    case _ => WorkerKeepsLocal(s, e);
  }

  lemma {:induction false} RunKeepsLocal(s: Sys, es: seq<Timed>)
    requires Local(s.ctl.cfg, s.ctl.biz)
    ensures Run(s, es).ctl.cfg == s.ctl.cfg
    ensures Local(s.ctl.cfg, Run(s, es).ctl.biz)
  {
    if es != [] {
      var init, last := es[..|es| - 1], es[|es| - 1];
      RunKeepsLocal(s, init);
      ActKeepsLocal(Run(s, init).(now := last.at), last.event);
    }
  }
}
