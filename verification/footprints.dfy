/** What each governed command may write, as far as the other parts of the system depend on it. */
module Footprints {
  import opened Schema
  import opened ServiceTx
  import opened Policy
  import CapacityTx

  lemma IngestForFootprint(b: Business, source: Source, event: SourceEvent, hash: Hash, id: Id, now: Time)
    ensures var b' := After(b, IngestFor(b, source, event, hash, id, now));
      b' == b.(customers := b'.customers, events := b'.events, exceptions := b'.exceptions)
  {
  }

  /** Source observations never touch proposals, work or routes. */
  lemma IngestFootprint(digest: Doc -> Hash, b: Business, source: Source, event: SourceEvent, newId: Id, now: Time)
    ensures var b' := After(b, IngestTx(digest, b, source, event, newId, now));
      b' == b.(customers := b'.customers, identities := b'.identities, events := b'.events, exceptions := b'.exceptions)
  {
    var hash := digest(OfEvent(event));
    if (source, event.eventId) in b.events {
    } else if (source, event.subject) in b.identities {
      IngestForFootprint(b, source, event, hash, b.identities[(source, event.subject)], now);
    } else if Founds(b, source, event) {
      var founded := b.(customers := b.customers[newId := NEW_CUSTOMER],
                        identities := b.identities[(source, event.subject) := newId]);
      IngestForFootprint(founded, source, event, hash, newId, now);
    }
  }

  /** Identity links write nothing but the link. */
  lemma LinkFootprint(b: Business, command: LinkCommand)
    ensures var b' := After(b, LinkTx(b, command));
      b' == b.(identities := b'.identities)
  {
  }

  predicate SameWork(b: Business, b': Business) {
    b'.proposals == b.proposals && b'.jobs == b.jobs && b'.routes == b.routes
  }

  /** One new proposal, with its route and its job decided in the same transaction. */
  predicate OneProposal(cfg: Config, b: Business, b': Business, id: Id, now: Time) {
    && id !in b.proposals && id in b'.proposals
    && b'.proposals == b.proposals[id := b'.proposals[id]]
    && var p := b'.proposals[id];
    && p.expiresAt == now + PROPOSAL_TTL && p.approval == None
    && b'.jobs == (if p.decision == Allow then b.jobs[id := NewJob(now)] else b.jobs)
    && (p.decision == Allow ==> id !in b.jobs)
    && (b'.routes == b.routes || (
          && p.decision != Deny && id !in b.routes && id in b'.routes
          && b'.routes == b.routes[id := b'.routes[id]]
          && b'.routes[id] in cfg.destinations && !CapacityTx.Overloaded(cfg, b, b'.routes[id], now)))
  }

  lemma AdmitMeaning(cfg: Config, b: Business, owner: Option<Value>, now: Time)
    ensures var a := CapacityTx.Admit(cfg, b, owner, now);
      a.To? ==> a.destination in cfg.destinations && !CapacityTx.Overloaded(cfg, b, a.destination, now)
  {
  }

  lemma SettledFootprint(cfg: Config, b: Business, id: Id, p: ProposalRow, admission: CapacityTx.Admission, now: Time)
    requires id !in b.proposals && p.expiresAt == now + PROPOSAL_TTL && p.approval == None
    requires p.decision == Allow ==> id !in b.jobs
    requires admission.To? ==>
      && p.decision != Deny && id !in b.routes
      && admission.destination in cfg.destinations && !CapacityTx.Overloaded(cfg, b, admission.destination, now)
    ensures var b' := Settled(b, id, p, admission, now);
      && b' == b.(proposals := b'.proposals, jobs := b'.jobs, routes := b'.routes, exceptions := b'.exceptions)
      && OneProposal(cfg, b, b', id, now)
  {
  }

  lemma DecideFootprint(cfg: Config, policy: Hash, b: Business, actor: string, command: Command, row: CustomerRow,
                        now: Time)
    requires command.requestId !in b.proposals
    ensures var b' := After(b, Decide(cfg, policy, b, actor, command, row, now));
      && b' == b.(proposals := b'.proposals, jobs := b'.jobs, routes := b'.routes, exceptions := b'.exceptions)
      && (b' == b || OneProposal(cfg, b, b', command.requestId, now))
  {
    var ruling := RuleAction(command.action, row.state, row.revision, command.expectedRevision);
    var admission := if ruling.permission == Deny then CapacityTx.Unrouted
                     else CapacityTx.Admit(cfg, b, Lookup(row.state, Owner), now);
    AdmitMeaning(cfg, b, Lookup(row.state, Owner), now);
    var tx := Decide(cfg, policy, b, actor, command, row, now);
    if tx.Commit? {
      var p := ProposalRow(command.customer, actor, cfg.digest(OfCommand(command)), command, policy,
                           command.expectedRevision, ruling.permission, ruling.reason,
                           now + PROPOSAL_TTL, None);
      SettledFootprint(cfg, b, command.requestId, p, admission, now);
      assert tx.biz == Settled(b, command.requestId, p, admission, now);
    }
  }

  lemma ProposeFootprint(cfg: Config, policy: Hash, open: bool, b: Business, actor: string, command: Command, now: Time)
    ensures var b' := After(b, ProposeTx(cfg, policy, open, b, actor, command, now));
      && b' == b.(proposals := b'.proposals, jobs := b'.jobs, routes := b'.routes, exceptions := b'.exceptions)
      && (SameWork(b, b') || (open && OneProposal(cfg, b, b', command.requestId, now)))
  {
    if open && command.customer in b.customers && command.requestId !in b.proposals {
      DecideFootprint(cfg, policy, b, actor, command, b.customers[command.customer], now);
    }
  }

  /** One approval on a live proposal that had none, and its job if there was none yet. */
  predicate OneApproval(b: Business, b': Business, actor: string, id: Id, now: Time) {
    && id in b.proposals && b.proposals[id].approval == None && b.proposals[id].decision == NeedsApproval
    && now < b.proposals[id].expiresAt && b.proposals[id].actor != actor
    && b'.routes == b.routes
    && b'.proposals == b.proposals[id := b.proposals[id].(approval :=
         Some(Approval(actor, Earlier(b.proposals[id].expiresAt, now + APPROVAL_TTL))))]
    && b'.jobs == (if id in b.jobs then b.jobs else b.jobs[id := NewJob(now)])
  }

  lemma ApproveFootprint(policy: Hash, open: bool, b: Business, actor: string, id: Id, expected: nat, now: Time)
    ensures var b' := After(b, ApproveTx(policy, open, b, actor, id, expected, now));
      && b' == b.(proposals := b'.proposals, jobs := b'.jobs, exceptions := b'.exceptions)
      && (SameWork(b, b') || (open && OneApproval(b, b', actor, id, now)))
  {
  }

  /** One dead job back to `Retry` with a new attempt budget, admitted by the backlog check. */
  predicate OneRequeue(cfg: Config, b: Business, b': Business, id: Id, now: Time) {
    && id in b.jobs && b.jobs[id].status == Dead
    && b'.proposals == b.proposals && b'.routes == b.routes
    && b'.jobs == b.jobs[id := b.jobs[id].(status := Retry, attempts := 0, availableAt := now)]
    && CapacityTx.Readmissible(cfg, b, id, now)
  }

  lemma ResolveFootprint(cfg: Config, b: Business, index: nat, disposition: Disposition, now: Time)
    ensures var b' := After(b, ResolveTx(cfg, b, index, disposition, now));
      && b' == b.(jobs := b'.jobs, exceptions := b'.exceptions)
      && (SameWork(b, b') || (index < |b.exceptions| && b.exceptions[index].subject.OfRow?
                              && OneRequeue(cfg, b, b', b.exceptions[index].subject.id, now)))
  {
  }
}
