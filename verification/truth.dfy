/** Customer state, provenance, the event log and the identity map agree with each other, and over
    a run they only move forward. */
module Truth {
  import opened Schema
  import opened Policy
  import opened ServiceTx
  import opened System
  import opened Steps
  import opened Intents
  import opened Footprints
  import opened Outbox
  import opened Runs
  import opened Authority

  // ----- agreement -----

  /** The event that a field's provenance names, and the value it carries. */
  predicate Carried(b: Business, id: Id, field: Field)
    requires id in b.customers && field in b.customers[id].provenance
  {
    var row := b.customers[id];
    var p := row.provenance[field];
    && p.source == OwnerOf(field)
    && (p.source, p.eventId) in b.events
    && var event := b.events[(p.source, p.eventId)].body;
    && event.eventId == p.eventId && event.subject == p.subject && event.sequence == p.sequence
    && field in event.attributes && field in row.state && row.state[field] == event.attributes[field]
    && (p.source, p.subject) in b.identities && b.identities[(p.source, p.subject)] == id
  }

  /** A field without provenance can only be the default stage of a new customer. */
  predicate Untouched(row: CustomerRow, field: Field) {
    field in row.state ==> field == Lifecycle && row.state[field] == AtStage(Lead)
  }

  predicate RowAgrees(b: Business, id: Id)
    requires id in b.customers
  {
    forall field: Field ::
      if field in b.customers[id].provenance then Carried(b, id, field) else Untouched(b.customers[id], field)
  }

  ghost predicate OneVoice(b: Business) {
    && (forall key <- b.identities :: b.identities[key] in b.customers)
    && (forall i, j | i in b.identities && j in b.identities && i.0 == j.0 && b.identities[i] == b.identities[j] :: i == j)
  }

  ghost predicate Agrees(b: Business) {
    OneVoice(b) && forall id <- b.customers :: RowAgrees(b, id)
  }

  // ----- forward movement -----

  predicate FieldForward(row: CustomerRow, row': CustomerRow, field: Field) {
    field in row.provenance ==>
      && field in row'.provenance
      && (|| row'.provenance[field].sequence > row.provenance[field].sequence
          || (row'.provenance[field] == row.provenance[field]
              && Lookup(row'.state, field) == Lookup(row.state, field)))
  }

  /** Sequences rise, the stage never falls, and nothing changes without the revision. */
  predicate RowForward(row: CustomerRow, row': CustomerRow) {
    && (forall field: Field :: FieldForward(row, row', field))
    && CurrentRank(row.state) <= CurrentRank(row'.state)
    && row.revision <= row'.revision
    && (row.revision == row'.revision ==> row == row')
  }

  ghost predicate Forward(b: Business, b': Business) {
    && (forall key <- b.events :: key in b'.events && b'.events[key] == b.events[key])
    && (forall key <- b.identities :: key in b'.identities && b'.identities[key] == b.identities[key])
    && (forall id <- b.customers :: id in b'.customers && RowForward(b.customers[id], b'.customers[id]))
  }

  lemma ForwardAgain(b: Business, b': Business, b'': Business)
    requires Forward(b, b') && Forward(b', b'')
    ensures Forward(b, b'')
  {
    forall id <- b.customers ensures id in b''.customers && RowForward(b.customers[id], b''.customers[id]) {
      var row, row', row'' := b.customers[id], b'.customers[id], b''.customers[id];
      assert RowForward(row, row') && RowForward(row', row'');
      forall field: Field ensures FieldForward(row, row'', field) {
        assert FieldForward(row, row', field) && FieldForward(row', row'', field);
      }
    }
  }

  // ----- observation -----

  lemma ObservedField(source: Source, event: SourceEvent, row: CustomerRow, field: Field)
    ensures var row' := Observe(source, event, row);
      if field in Admitted(source, event, row) then
        && field in row'.state && row'.state[field] == event.attributes[field]
        && field in row'.provenance && row'.provenance[field] == Mark(source, event)
        && source == OwnerOf(field)
        && (field in row.provenance ==> event.sequence > row.provenance[field].sequence)
        && (field == Lifecycle ==> CurrentRank(row.state) <= Rank(event.attributes[field]))
      else
        && Lookup(row'.state, field) == Lookup(row.state, field)
        && (field in row'.provenance <==> field in row.provenance)
        && (field in row.provenance ==> row'.provenance[field] == row.provenance[field])
  {
  }

  lemma ObserveForward(source: Source, event: SourceEvent, row: CustomerRow)
    ensures RowForward(row, Observe(source, event, row))
  {
    var row' := Observe(source, event, row);
    forall field: Field ensures FieldForward(row, row', field) { ObservedField(source, event, row, field); }
    ObservedField(source, event, row, Lifecycle);
    ObserveMovesRevision(source, event, row);
  }

  lemma ObservedAgrees(b: Business, b': Business, source: Source, event: SourceEvent, id: Id)
    requires id in b.customers && RowAgrees(b, id)
    requires (source, event.eventId) !in b.events && (source, event.subject) in b.identities
    requires b.identities[(source, event.subject)] == id
    requires b'.identities == b.identities && id in b'.customers && b'.customers[id] == Observe(source, event, b.customers[id])
    requires forall key <- b.events :: key in b'.events && b'.events[key] == b.events[key]
    requires (source, event.eventId) in b'.events && b'.events[(source, event.eventId)].body == event
    ensures RowAgrees(b', id)
  {
    forall field: Field
      ensures if field in b'.customers[id].provenance then Carried(b', id, field) else Untouched(b'.customers[id], field)
    {
      ObservedField(source, event, b.customers[id], field);
    }
  }

  lemma RowKept(b: Business, b': Business, id: Id)
    requires id in b.customers && RowAgrees(b, id)
    requires id in b'.customers && b'.customers[id] == b.customers[id]
    requires forall key <- b.events :: key in b'.events && b'.events[key] == b.events[key]
    requires forall key <- b.identities :: key in b'.identities && b'.identities[key] == b.identities[key]
    ensures RowAgrees(b', id)
  {
    forall field: Field
      ensures if field in b'.customers[id].provenance then Carried(b', id, field) else Untouched(b'.customers[id], field)
    {
      assert if field in b.customers[id].provenance then Carried(b, id, field) else Untouched(b.customers[id], field);
    }
  }

  lemma IngestForShape(b: Business, source: Source, event: SourceEvent, hash: Hash, id: Id, now: Time)
    requires id in b.customers
    ensures IngestFor(b, source, event, hash, id, now).Commit?
    ensures var b' := After(b, IngestFor(b, source, event, hash, id, now));
      && b'.identities == b.identities
      && b'.customers == b.customers[id := Observe(source, event, b.customers[id])]
      && (source, event.eventId) in b'.events && b'.events[(source, event.eventId)].body == event
      && b'.events == b.events[(source, event.eventId) := b'.events[(source, event.eventId)]]
  {
    hide Observe, Rulings, WithException;
    var row' := Observe(source, event, b.customers[id]);
    var updated := b.(customers := b.customers[id := row']);
    ExceptionApart(updated, FieldGovernance, OfRow(id));
    var noted := if forall field <- Rulings(source, event, b.customers[id]) ::
                      Rulings(source, event, b.customers[id])[field] == Accepted then updated
                 else WithException(updated, FieldGovernance, OfRow(id));
    var result := Processed(id, row'.revision, Rulings(source, event, b.customers[id]));
    assert IngestFor(b, source, event, hash, id, now) == Commit(Record(noted, source, event, hash, result, now), Recorded(result));
  }

  lemma ExceptionApart(b: Business, category: Category, subject: Subject)
    ensures WithException(b, category, subject) == b.(exceptions := WithException(b, category, subject).exceptions)
  {
  }

  lemma IngestForAgrees(b: Business, source: Source, event: SourceEvent, hash: Hash, id: Id, now: Time)
    requires Agrees(b) && (source, event.eventId) !in b.events
    requires (source, event.subject) in b.identities && b.identities[(source, event.subject)] == id
    ensures var b' := After(b, IngestFor(b, source, event, hash, id, now)); Agrees(b') && Forward(b, b')
  {
    IngestForShape(b, source, event, hash, id, now);
    hide IngestFor, Observe, RowForward, RowAgrees;
    var b' := After(b, IngestFor(b, source, event, hash, id, now));
    forall other <- b'.customers ensures RowAgrees(b', other) {
      if other == id { ObservedAgrees(b, b', source, event, id); } else { RowKept(b, b', other); }
    }
    forall other <- b.customers ensures RowForward(b.customers[other], b'.customers[other]) {
      SameRow(b.customers[other]);
      ObserveForward(source, event, b.customers[other]);
    }
  }

  lemma SameRow(row: CustomerRow)
    ensures RowForward(row, row)
  {
  }

  predicate Newcomer(b: Business, source: Source, event: SourceEvent, newId: Id) {
    && (source, event.eventId) !in b.events && (source, event.subject) !in b.identities
    && Founds(b, source, event) && newId !in b.customers
  }

  function FoundedFor(b: Business, source: Source, event: SourceEvent, newId: Id): Business {
    b.(customers := b.customers[newId := NEW_CUSTOMER],
       identities := b.identities[(source, event.subject) := newId])
  }

  lemma NewcomerTx(digest: Doc -> Hash, b: Business, source: Source, event: SourceEvent, newId: Id, now: Time)
    requires Newcomer(b, source, event, newId)
    ensures IngestTx(digest, b, source, event, newId, now) ==
      IngestFor(FoundedFor(b, source, event, newId), source, event, digest(OfEvent(event)), newId, now)
  {
    hide IngestFor, Founds;
  }

  lemma KnownTx(digest: Doc -> Hash, b: Business, source: Source, event: SourceEvent, newId: Id, now: Time)
    requires (source, event.eventId) !in b.events && (source, event.subject) in b.identities
    ensures IngestTx(digest, b, source, event, newId, now) ==
      IngestFor(b, source, event, digest(OfEvent(event)), b.identities[(source, event.subject)], now)
  {
    hide IngestFor, Founds;
  }

  lemma OtherwiseTx(digest: Doc -> Hash, b: Business, source: Source, event: SourceEvent, newId: Id, now: Time)
    requires !Newcomer(b, source, event, newId)
    requires (source, event.eventId) in b.events || (source, event.subject) !in b.identities
    ensures var b' := After(b, IngestTx(digest, b, source, event, newId, now));
      && b'.customers == b.customers && b'.identities == b.identities
      && forall key <- b.events :: key in b'.events && b'.events[key] == b.events[key]
  {
    hide IngestFor, Founds, ReviewCategory, Record;
    var tx := IngestTx(digest, b, source, event, newId, now);
    if (source, event.eventId) in b.events {
      assert After(b, tx) == b.(exceptions := After(b, tx).exceptions);
    } else if !Founds(b, source, event) {
      RecordKeeps(b, source, event, digest(OfEvent(event)), ReviewCategory(b, event), now);
    } else {
      assert tx.Rollback?;
    }
  }

  lemma RecordKeeps(b: Business, source: Source, event: SourceEvent, hash: Hash, category: Category, now: Time)
    requires (source, event.eventId) !in b.events
    ensures var b' := Record(WithException(b, category, OfText(event.subject)), source, event, hash, Review(category), now);
      && b'.customers == b.customers && b'.identities == b.identities
      && forall key <- b.events :: key in b'.events && b'.events[key] == b.events[key]
  {
  }

  lemma IngestAgrees(digest: Doc -> Hash, b: Business, source: Source, event: SourceEvent, newId: Id, now: Time)
    requires Agrees(b)
    ensures var b' := After(b, IngestTx(digest, b, source, event, newId, now)); Agrees(b') && Forward(b, b')
  {
    hide IngestTx, IngestFor, Forward, Agrees, After;
    var hash := digest(OfEvent(event));
    var b' := After(b, IngestTx(digest, b, source, event, newId, now));
    if Newcomer(b, source, event, newId) {
      NewcomerTx(digest, b, source, event, newId, now);
      var founded := FoundedFor(b, source, event, newId);
      FoundedAgrees(b, founded, (source, event.subject), newId);
      IngestForAgrees(founded, source, event, hash, newId, now);
      IngestForShape(founded, source, event, hash, newId, now);
      Committed(b, founded, IngestFor(founded, source, event, hash, newId, now));
      ForwardAgain(b, founded, b');
    } else if (source, event.eventId) !in b.events && (source, event.subject) in b.identities {
      KnownTx(digest, b, source, event, newId, now);
      IngestForAgrees(b, source, event, hash, b.identities[(source, event.subject)], now);
    } else {
      OtherwiseTx(digest, b, source, event, newId, now);
      SameCustomersForward(b, b');
    }
  }

  lemma Committed<T>(b: Business, b': Business, tx: Tx<T>)
    requires tx.Commit?
    ensures After(b, tx) == After(b', tx) == tx.biz
  {
  }

  lemma SameCustomersAgree(b: Business, b': Business)
    requires Agrees(b) && b'.customers == b.customers && b'.identities == b.identities
    requires forall key <- b.events :: key in b'.events && b'.events[key] == b.events[key]
    ensures Agrees(b')
  {
    hide RowAgrees;
    forall id <- b'.customers ensures RowAgrees(b', id) { RowKept(b, b', id); }
  }

  lemma SameCustomersForward(b: Business, b': Business)
    requires Agrees(b) && b'.customers == b.customers && b'.identities == b.identities
    requires forall key <- b.events :: key in b'.events && b'.events[key] == b.events[key]
    ensures Agrees(b') && Forward(b, b')
  {
    SameCustomersAgree(b, b');
    hide RowForward;
    forall id <- b.customers ensures RowForward(b.customers[id], b'.customers[id]) { SameRow(b.customers[id]); }
  }

  lemma FoundedAgrees(b: Business, founded: Business, key: (Source, string), newId: Id)
    requires Agrees(b) && key !in b.identities && newId !in b.customers
    requires founded == b.(customers := b.customers[newId := NEW_CUSTOMER], identities := b.identities[key := newId])
    ensures Agrees(founded) && Forward(b, founded)
  {
    forall id <- founded.customers ensures RowAgrees(founded, id) {
      if id != newId { RowKept(b, founded, id); }
    }
    forall id <- b.customers ensures RowForward(b.customers[id], founded.customers[id]) { SameRow(b.customers[id]); }
  }

  lemma LinkShape(b: Business, command: LinkCommand)
    requires LinkTx(b, command).Commit?
    ensures var key := (command.source, command.subject);
      && LinkTx(b, command).biz == b.(identities := b.identities[key := command.customer])
      && command.customer in b.customers && (key in b.identities ==> b.identities[key] == command.customer)
      && forall other <- b.identities | other.0 == key.0 && b.identities[other] == command.customer :: other == key
  {
    forall other <- b.identities | other.0 == command.source && b.identities[other] == command.customer
      ensures other == (command.source, command.subject)
    {
      assert other.1 == command.subject || SpokenFor(b, command.source, command.customer, command.subject);
    }
  }

  lemma LinkedOnce(b: Business, b': Business, key: (Source, string), id: Id)
    requires OneVoice(b) && id in b.customers && b'.customers == b.customers
    requires b'.identities == b.identities[key := id]
    requires forall other <- b.identities | other.0 == key.0 && b.identities[other] == id :: other == key
    ensures OneVoice(b')
  {
  }

  lemma LinkAgrees(b: Business, command: LinkCommand)
    requires Agrees(b)
    ensures var b' := After(b, LinkTx(b, command)); Agrees(b') && Forward(b, b')
  {
    var b' := After(b, LinkTx(b, command));
    if LinkTx(b, command).Commit? {
      LinkShape(b, command);
      hide LinkTx, RowAgrees, RowForward, OneVoice;
      LinkedOnce(b, b', (command.source, command.subject), command.customer);
      forall id <- b'.customers ensures RowAgrees(b', id) { RowKept(b, b', id); }
      forall id <- b.customers ensures RowForward(b.customers[id], b'.customers[id]) { SameRow(b.customers[id]); }
    } else {
      SameCustomersForward(b, b');
    }
  }

  // ----- every step, every run -----

  lemma OthersKeepIdentities(s: Sys, e: System.Event)
    requires !e.Ingest? && !e.Link?
    ensures Act(s, e).ctl.biz.identities == s.ctl.biz.identities
  {
    hide Act;
    StepWrites(s, e);
  }

  lemma ActAgrees(s: Sys, e: System.Event)
    requires Agrees(s.ctl.biz)
    ensures Agrees(Act(s, e).ctl.biz) && Forward(s.ctl.biz, Act(s, e).ctl.biz)
  {
    if e.Ingest? {
      IngestAgrees(s.ctl.cfg.digest, s.ctl.biz, e.source, e.event, e.newId, s.now);
    } else if e.Link? {
      LinkAgrees(s.ctl.biz, e.link);
    } else {
      hide Act, Agrees, Forward;
      OnlyIngestWritesTruth(s, e);
      OthersKeepIdentities(s, e);
      SameCustomersForward(s.ctl.biz, Act(s, e).ctl.biz);
    }
  }

  /** In every reachable state each field with provenance has the value of a stored event of its
      owning source, each identity speaks for one customer and each source speaks once; and from
      any point of a run to any later one, history is kept and only moves forward. */
  lemma {:induction false} TruthOverRuns(s: Sys, es: seq<Timed>)
    requires Agrees(s.ctl.biz)
    ensures Agrees(Run(s, es).ctl.biz) && Forward(s.ctl.biz, Run(s, es).ctl.biz)
  {
    if es == [] {
      forall row: CustomerRow ensures RowForward(row, row) { SameRow(row); }
    } else {
      var init, last := es[..|es| - 1], es[|es| - 1];
      TruthOverRuns(s, init);
      hide Act, Agrees, Forward;
      ActAgrees(Run(s, init).(now := last.at), last.event);
      ForwardAgain(s.ctl.biz, Run(s, init).ctl.biz, Run(s, es).ctl.biz);
    }
  }

  lemma EmptyAgrees(cfg: Config, policy: Hash, start: Time)
    ensures Agrees(Init(cfg, policy, start).ctl.biz)
  {
  }

  // ----- which fields have provenance -----

  /** The stored event was applied to the customer by the owner of the field, and carries it. */
  predicate Tells(b: Business, key: (Source, string), id: Id, field: Field)
    requires key in b.events
  {
    && key.0 == OwnerOf(field) && field in b.events[key].body.attributes
    && b.events[key].result.Processed? && b.events[key].result.customer == id
  }

  ghost predicate Told(b: Business, id: Id, field: Field) {
    exists key <- b.events :: Tells(b, key, id, field)
  }

  ghost predicate FieldTold(b: Business, id: Id, field: Field)
    requires id in b.customers
  {
    var row := b.customers[id];
    && (field in row.provenance <==> Told(b, id, field))
    && (field in row.state <==> field in row.provenance || field == Lifecycle)
  }

  /** For every customer: a field has provenance exactly when an event told it, and a value exactly
      when it has provenance or is the stage. */
  ghost predicate AllTold(b: Business) {
    && (forall id <- b.customers, field: Field :: FieldTold(b, id, field))
    && (forall key <- b.events :: b.events[key].result.Processed? ==> b.events[key].result.customer in b.customers)
  }

  /** An observation gives a field provenance exactly when it had it or the event is its owner's and
      carries it: a refusal as stale or as a regression presupposes provenance. */
  lemma ObservedProvenance(source: Source, event: SourceEvent, row: CustomerRow, field: Field)
    requires if field in row.provenance then field in row.state else Untouched(row, field)
    ensures var row' := Observe(source, event, row);
      && (field in row'.provenance <==> field in row.provenance || (source == OwnerOf(field) && field in event.attributes))
      && (field in row'.state <==> field in row.state || field in row'.provenance)
  {
    ObservedField(source, event, row, field);
    if field !in row.provenance && source == OwnerOf(field) && field in event.attributes {
      assert field == Lifecycle ==> CurrentRank(row.state) == 0;
      assert field in Admitted(source, event, row);
    }
  }

  /** A change of the event log by one event applied to `id`, or to nobody. */
  lemma ToldNext(b: Business, b': Business, key: (Source, string), id: Id, field: Field)
    requires key !in b.events && key in b'.events && b'.events == b.events[key := b'.events[key]]
    ensures Told(b', id, field) <==> Told(b, id, field) || Tells(b', key, id, field)
  {
    if Told(b, id, field) {
      var other :| other in b.events && Tells(b, other, id, field);
      assert Tells(b', other, id, field);
    }
    if Told(b', id, field) {
      var other :| other in b'.events && Tells(b', other, id, field);
      if other != key { assert Tells(b, other, id, field); }
    }
  }

  lemma KnownResult(b: Business, source: Source, event: SourceEvent, hash: Hash, id: Id, now: Time)
    requires id in b.customers
    ensures var b' := After(b, IngestFor(b, source, event, hash, id, now));
      && (source, event.eventId) in b'.events && b'.events[(source, event.eventId)].body == event
      && b'.events[(source, event.eventId)].result.Processed? && b'.events[(source, event.eventId)].result.customer == id
  {
    hide Observe, Rulings, WithException;
  }

  lemma IngestForTold(b: Business, source: Source, event: SourceEvent, hash: Hash, id: Id, now: Time)
    requires Agrees(b) && AllTold(b) && id in b.customers && (source, event.eventId) !in b.events
    ensures AllTold(After(b, IngestFor(b, source, event, hash, id, now)))
  {
    var b' := After(b, IngestFor(b, source, event, hash, id, now));
    var key := (source, event.eventId);
    IngestForShape(b, source, event, hash, id, now);
    KnownResult(b, source, event, hash, id, now);
    hide IngestFor, Observe, Told, OneVoice;
    forall other <- b'.customers, field: Field ensures FieldTold(b', other, field) {
      assert FieldTold(b, other, field);
      ToldNext(b, b', key, other, field);
      if other == id {
        assert RowAgrees(b, id);
        ObservedProvenance(source, event, b.customers[id], field);
      }
    }
  }

  lemma FoundedTold(b: Business, source: Source, event: SourceEvent, newId: Id)
    requires AllTold(b) && Newcomer(b, source, event, newId)
    ensures AllTold(FoundedFor(b, source, event, newId))
  {
    hide Founds;
    var founded := FoundedFor(b, source, event, newId);
    forall id <- founded.customers, field: Field ensures FieldTold(founded, id, field) {
      if id != newId { assert FieldTold(b, id, field); }
      assert Told(founded, id, field) <==> Told(b, id, field) by { SameTelling(b, founded, id, field); }
    }
  }

  lemma SameTelling(b: Business, b': Business, id: Id, field: Field)
    requires b'.events == b.events
    ensures Told(b', id, field) <==> Told(b, id, field)
  {
    assert forall key <- b.events :: Tells(b', key, id, field) <==> Tells(b, key, id, field);
  }

  /** Nothing is told by an event that goes to review, or is stored already. */
  lemma OtherwiseTold(digest: Doc -> Hash, b: Business, source: Source, event: SourceEvent, newId: Id, now: Time)
    requires AllTold(b) && !Newcomer(b, source, event, newId)
    requires (source, event.eventId) in b.events || (source, event.subject) !in b.identities
    ensures AllTold(After(b, IngestTx(digest, b, source, event, newId, now)))
  {
    OtherwiseTx(digest, b, source, event, newId, now);
    ReviewedOrSame(digest, b, source, event, newId, now);
    hide IngestTx, Founds, Told;
    var b' := After(b, IngestTx(digest, b, source, event, newId, now));
    forall id <- b'.customers, field: Field ensures FieldTold(b', id, field) {
      assert FieldTold(b, id, field);
      if b'.events == b.events {
        SameTelling(b, b', id, field);
      } else {
        ToldNext(b, b', (source, event.eventId), id, field);
      }
    }
  }

  lemma ReviewedOrSame(digest: Doc -> Hash, b: Business, source: Source, event: SourceEvent, newId: Id, now: Time)
    requires !Newcomer(b, source, event, newId)
    requires (source, event.eventId) in b.events || (source, event.subject) !in b.identities
    ensures var b', key := After(b, IngestTx(digest, b, source, event, newId, now)), (source, event.eventId);
      b'.events == b.events || (key !in b.events && key in b'.events && b'.events[key].result.Review?
                                && b'.events == b.events[key := b'.events[key]])
  {
    hide IngestFor, Founds, ReviewCategory;
  }

  lemma IngestTold(digest: Doc -> Hash, b: Business, source: Source, event: SourceEvent, newId: Id, now: Time)
    requires Agrees(b) && AllTold(b)
    ensures AllTold(After(b, IngestTx(digest, b, source, event, newId, now)))
  {
    hide IngestTx, IngestFor, Agrees, AllTold, After;
    var hash := digest(OfEvent(event));
    if Newcomer(b, source, event, newId) {
      NewcomerTx(digest, b, source, event, newId, now);
      var founded := FoundedFor(b, source, event, newId);
      FoundedTold(b, source, event, newId);
      FoundedAgrees(b, founded, (source, event.subject), newId);
      IngestForShape(founded, source, event, hash, newId, now);
      IngestForTold(founded, source, event, hash, newId, now);
      Committed(b, founded, IngestFor(founded, source, event, hash, newId, now));
    } else if (source, event.eventId) !in b.events && (source, event.subject) in b.identities {
      KnownTx(digest, b, source, event, newId, now);
      IdentityHasRow(b, (source, event.subject));
      IngestForTold(b, source, event, hash, b.identities[(source, event.subject)], now);
    } else {
      OtherwiseTold(digest, b, source, event, newId, now);
    }
  }

  lemma IdentityHasRow(b: Business, key: (Source, string))
    requires Agrees(b) && key in b.identities
    ensures b.identities[key] in b.customers
  {
  }

  lemma SameTold(b: Business, b': Business)
    requires AllTold(b) && b'.customers == b.customers && b'.events == b.events
    ensures AllTold(b')
  {
    forall id <- b'.customers, field: Field ensures FieldTold(b', id, field) {
      assert FieldTold(b, id, field);
      SameTelling(b, b', id, field);
    }
  }

  lemma ActTold(s: Sys, e: System.Event)
    requires Agrees(s.ctl.biz) && AllTold(s.ctl.biz)
    ensures AllTold(Act(s, e).ctl.biz)
  {
    if e.Ingest? {
      hide IngestTx, AllTold, Agrees;
      IngestTold(s.ctl.cfg.digest, s.ctl.biz, e.source, e.event, e.newId, s.now);
    } else {
      hide Act, AllTold, Agrees;
      OnlyIngestWritesTruth(s, e);
      SameTold(s.ctl.biz, Act(s, e).ctl.biz);
    }
  }

  /** Over any run: a field has provenance exactly when some stored event of its owner, applied to the
      customer, carries it; the stage always has a value, and any other field has one exactly when it
      has provenance. */
  lemma {:induction false} ProvenanceOverRuns(s: Sys, es: seq<Timed>)
    requires Agrees(s.ctl.biz) && AllTold(s.ctl.biz)
    ensures AllTold(Run(s, es).ctl.biz)
  {
    if es != [] {
      var init, last := es[..|es| - 1], es[|es| - 1];
      hide Act, Agrees, AllTold, Forward;
      ProvenanceOverRuns(s, init);
      TruthOverRuns(s, init);
      ActTold(Run(s, init).(now := last.at), last.event);
    }
  }

  predicate FullyProvenanced(row: CustomerRow) { forall field <- row.state :: field in row.provenance }

  /** In every reachable state a customer has a stage, no other field of its state can lack provenance,
      a field has provenance if and only if an event told it, and so all fields have it if and only if
      some CRM event that was applied to the customer carries a stage. */
  lemma WhenEveryFieldHasProvenance(cfg: Config, policy: Hash, start: Time, es: seq<Timed>, id: Id)
    requires id in From(cfg, policy, start, es).ctl.biz.customers
    ensures var b := From(cfg, policy, start, es).ctl.biz;
      && Lifecycle in b.customers[id].state
      && (forall field <- b.customers[id].state | field !in b.customers[id].provenance :: field == Lifecycle)
      && (forall field: Field :: field in b.customers[id].provenance <==> Told(b, id, field))
      && (FullyProvenanced(b.customers[id]) <==> Told(b, id, Lifecycle))
  {
    EmptyAgrees(cfg, policy, start);
    ProvenanceOverRuns(Init(cfg, policy, start), es);
    hide Run, Told, FullyProvenanced, AllTold;
    var b := From(cfg, policy, start, es).ctl.biz;
    RowTold(b, id);
  }

  lemma RowTold(b: Business, id: Id)
    requires AllTold(b) && id in b.customers
    ensures Lifecycle in b.customers[id].state
    ensures forall field <- b.customers[id].state | field !in b.customers[id].provenance :: field == Lifecycle
    ensures forall field: Field :: field in b.customers[id].provenance <==> Told(b, id, field)
    ensures FullyProvenanced(b.customers[id]) <==> Told(b, id, Lifecycle)
  {
    hide Told;
    forall field: Field
      ensures field in b.customers[id].provenance <==> Told(b, id, field)
      ensures field in b.customers[id].state <==> field in b.customers[id].provenance || field == Lifecycle
    {
      assert FieldTold(b, id, field);
    }
  }

  /** At its founding a customer has provenance for every field if and only if the founding event
      carries a stage. */
  lemma WhenFoundingHasProvenance(digest: Doc -> Hash, b: Business, source: Source, event: SourceEvent, newId: Id, now: Time)
    requires Newcomer(b, source, event, newId)
    ensures var b' := After(b, IngestTx(digest, b, source, event, newId, now));
      newId in b'.customers && (FullyProvenanced(b'.customers[newId]) <==> Lifecycle in event.attributes)
  {
    NewcomerTx(digest, b, source, event, newId, now);
    var founded := FoundedFor(b, source, event, newId);
    IngestForShape(founded, source, event, digest(OfEvent(event)), newId, now);
    hide IngestTx, IngestFor, Observe;
    forall field: Field
      ensures var row' := Observe(source, event, NEW_CUSTOMER);
        && (field in row'.provenance <==> source == OwnerOf(field) && field in event.attributes)
        && (field in row'.state <==> field in row'.provenance || field == Lifecycle)
    {
      ObservedProvenance(source, event, NEW_CUSTOMER, field);
    }
  }

  /** A witness: a customer founded by an event that carries no stage has the column's default. */
  lemma DefaultStageHasNoProvenance(digest: Doc -> Hash, now: Time)
    ensures var founding := SourceEvent("e", "s", 1, map[Email := Text("a@example.com")]);
      var b := After(NO_BUSINESS, IngestTx(digest, NO_BUSINESS, Crm, founding, 0, now));
      && 0 in b.customers && Lookup(b.customers[0].state, Lifecycle) == Some(AtStage(Lead))
      && Lifecycle !in b.customers[0].provenance
  {
    var founding := SourceEvent("e", "s", 1, map[Email := Text("a@example.com")]);
    assert Candidates(NO_BUSINESS, founding) == {};
    assert Newcomer(NO_BUSINESS, Crm, founding, 0);
    var founded := FoundedFor(NO_BUSINESS, Crm, founding, 0);
    NewcomerTx(digest, NO_BUSINESS, Crm, founding, 0, now);
    IngestForShape(founded, Crm, founding, digest(OfEvent(founding)), 0, now);
    hide IngestTx, IngestFor, Observe;
    ObservedField(Crm, founding, NEW_CUSTOMER, Lifecycle);
  }

  /** A matching email is a hint, never an identity: ingestion binds a subject to nobody but a
      customer that it founds with an email no one had. */
  lemma EmailNeverMerges(digest: Doc -> Hash, b: Business, source: Source, event: SourceEvent, newId: Id,
                         now: Time, key: (Source, string))
    requires var b' := After(b, IngestTx(digest, b, source, event, newId, now));
      key in b'.identities && key !in b.identities
    ensures var b' := After(b, IngestTx(digest, b, source, event, newId, now));
      && b'.identities[key] == newId && newId !in b.customers
      && source == Crm && Email in event.attributes
      && forall id <- b.customers :: Lookup(b.customers[id].state, Email) != Some(event.attributes[Email])
  {
    if Newcomer(b, source, event, newId) {
      NewcomerTx(digest, b, source, event, newId, now);
      var founded := FoundedFor(b, source, event, newId);
      hide IngestTx, IngestFor;
      IngestForShape(founded, source, event, digest(OfEvent(event)), newId, now);
      forall id <- b.customers ensures Lookup(b.customers[id].state, Email) != Some(event.attributes[Email]) {
        assert id !in Candidates(b, event);
      }
    } else if (source, event.eventId) !in b.events && (source, event.subject) in b.identities {
      KnownTx(digest, b, source, event, newId, now);
      hide IngestTx;
      KnownKeepsIdentities(b, source, event, digest(OfEvent(event)), b.identities[(source, event.subject)], now);
    } else {
      OtherwiseTx(digest, b, source, event, newId, now);
      hide IngestTx, IngestFor, Founds;
    }
  }

  lemma KnownKeepsIdentities(b: Business, source: Source, event: SourceEvent, hash: Hash, id: Id, now: Time)
    ensures After(b, IngestFor(b, source, event, hash, id, now)).identities == b.identities
  {
    if id in b.customers { IngestForShape(b, source, event, hash, id, now); }
    hide Observe, Rulings, WithException;
  }
}
