/** Deliveries of source events in any order, with repetitions and among deliveries of other
    sources: which observation of a field is the one that stays. */
module Delivery {
  import opened Schema
  import opened Policy
  import opened ServiceTx
  import opened Intents
  import opened Truth

  datatype Delivery = Delivery(source: Source, event: SourceEvent, newId: Id, at: Time)

  function Delivered(digest: Doc -> Hash, b: Business, d: Delivery): Business {
    After(b, IngestTx(digest, b, d.source, d.event, d.newId, d.at))
  }

  function DeliveredAll(digest: Doc -> Hash, b: Business, ds: seq<Delivery>): Business {
    if ds == [] then b else Delivered(digest, DeliveredAll(digest, b, ds[..|ds| - 1]), ds[|ds| - 1])
  }

  // ----- the deliveries that matter to one field of one customer -----

  /** The owner of `field` speaks of customer `id` as `subject`. */
  predicate Known(b: Business, id: Id, subject: string, field: Field) {
    (OwnerOf(field), subject) in b.identities && b.identities[(OwnerOf(field), subject)] == id
  }

  predicate Relevant(d: Delivery, subject: string, field: Field) {
    d.source == OwnerOf(field) && d.event.subject == subject && field in d.event.attributes
  }

  predicate Brings(ds: seq<Delivery>, subject: string, field: Field, event: SourceEvent) {
    exists d <- ds :: Relevant(d, subject, field) && d.event == event
  }

  /** New events of the owner: an event id names one payload and a sequence names one event. */
  predicate Orderly(b: Business, ds: seq<Delivery>, subject: string, field: Field) {
    && (forall d <- ds | Relevant(d, subject, field) :: (d.source, d.event.eventId) !in b.events)
    && (forall d, e | d in ds && e in ds && d.source == e.source == OwnerOf(field)
                      && d.event.eventId == e.event.eventId :: d.event == e.event)
    && (forall d, e | d in ds && e in ds && Relevant(d, subject, field) && Relevant(e, subject, field)
                      && d.event.sequence == e.event.sequence :: d.event == e.event)
  }

  predicate Latest(ds: seq<Delivery>, subject: string, field: Field, m: SourceEvent) {
    Brings(ds, subject, field, m) && forall d <- ds | Relevant(d, subject, field) :: d.event.sequence <= m.sequence
  }

  /** Newer than what the row already has. */
  predicate Newer(row: CustomerRow, field: Field, event: SourceEvent) {
    field in row.provenance ==> row.provenance[field].sequence < event.sequence
  }

  /** No stage on record and no newer stage among the deliveries is ahead of the one in `m`. */
  predicate Unsurpassed(row: CustomerRow, ds: seq<Delivery>, subject: string, m: SourceEvent)
    requires Lifecycle in m.attributes
  {
    && CurrentRank(row.state) <= Rank(m.attributes[Lifecycle])
    && forall d <- ds | Relevant(d, subject, Lifecycle) && Newer(row, Lifecycle, d.event) ::
         Rank(d.event.attributes[Lifecycle]) <= Rank(m.attributes[Lifecycle])
  }

  predicate Carries(row: CustomerRow, field: Field, m: SourceEvent) {
    && field in m.attributes
    && Lookup(row.state, field) == Some(m.attributes[field])
    && Lookup(row.provenance, field) == Some(Mark(OwnerOf(field), m))
  }

  predicate SameField(row: CustomerRow, row': CustomerRow, field: Field) {
    Lookup(row'.state, field) == Lookup(row.state, field) && Lookup(row'.provenance, field) == Lookup(row.provenance, field)
  }

  // ----- one delivery -----

  lemma ObserveOthers(source: Source, event: SourceEvent, row: CustomerRow, field: Field)
    requires source != OwnerOf(field) || field !in event.attributes || !Newer(row, field, event)
    ensures SameField(row, Observe(source, event, row), field)
  {
    ObservedField(source, event, row, field);
  }

  lemma ObserveOwner(event: SourceEvent, row: CustomerRow, field: Field)
    requires field in event.attributes && Newer(row, field, event)
    ensures var row' := Observe(OwnerOf(field), event, row);
      if field == Lifecycle && Rank(event.attributes[field]) < CurrentRank(row.state) then SameField(row, row', field)
      else Carries(row', field, event)
  {
    ObservedField(OwnerOf(field), event, row, field);
  }

  lemma KnownStep(digest: Doc -> Hash, b: Business, d: Delivery, id: Id, subject: string, field: Field)
    requires Agrees(b) && Known(b, id, subject, field)
    requires (d.source, d.event.eventId) !in b.events && (d.source, d.event.subject) in b.identities
    ensures var b' := Delivered(digest, b, d);
      && id in b'.customers && id in b.customers
      && (d.source, d.event.eventId) in b'.events
      && b'.events == b.events[(d.source, d.event.eventId) := b'.events[(d.source, d.event.eventId)]]
      && (Relevant(d, subject, field) ==> b'.customers[id] == Observe(d.source, d.event, b.customers[id]))
      && (!Relevant(d, subject, field) ==> SameField(b.customers[id], b'.customers[id], field))
  {
    KnownTx(digest, b, d.source, d.event, d.newId, d.at);
    var target := b.identities[(d.source, d.event.subject)];
    hide IngestTx, IngestFor, Observe, RowAgrees;
    IngestForShape(b, d.source, d.event, digest(OfEvent(d.event)), target, d.at);
    if !Relevant(d, subject, field) {
      if target == id { ObserveOthers(d.source, d.event, b.customers[id], field); }
    }
  }

  lemma NewcomerStep(digest: Doc -> Hash, b: Business, d: Delivery, id: Id)
    requires Newcomer(b, d.source, d.event, d.newId) && id in b.customers
    ensures var b' := Delivered(digest, b, d);
      && id in b'.customers && b'.customers[id] == b.customers[id]
      && (d.source, d.event.eventId) in b'.events
      && b'.events == b.events[(d.source, d.event.eventId) := b'.events[(d.source, d.event.eventId)]]
  {
    NewcomerTx(digest, b, d.source, d.event, d.newId, d.at);
    hide IngestTx, IngestFor, Observe, Founds;
    IngestForShape(FoundedFor(b, d.source, d.event, d.newId), d.source, d.event, digest(OfEvent(d.event)), d.newId, d.at);
  }

  lemma OtherwiseStep(digest: Doc -> Hash, b: Business, d: Delivery)
    requires !Newcomer(b, d.source, d.event, d.newId)
    requires (d.source, d.event.eventId) in b.events || (d.source, d.event.subject) !in b.identities
    ensures var b' := Delivered(digest, b, d);
      && b'.customers == b.customers
      && (forall key <- b'.events :: key in b.events || key == (d.source, d.event.eventId))
  {
    var tx := IngestTx(digest, b, d.source, d.event, d.newId, d.at);
    hide IngestFor, Founds, ReviewCategory;
    if (d.source, d.event.eventId) in b.events {
      assert After(b, tx) == b.(exceptions := After(b, tx).exceptions);
    } else if !Founds(b, d.source, d.event) {
    } else {
      assert tx.Rollback?;
    }
  }

  /** What one delivery does to one field: a new relevant event is observed, anything else leaves
      the field alone. */
  lemma OneDelivery(digest: Doc -> Hash, b: Business, d: Delivery, id: Id, subject: string, field: Field)
    requires Agrees(b) && Known(b, id, subject, field)
    ensures var b' := Delivered(digest, b, d);
      && Agrees(b') && Known(b', id, subject, field) && id in b.customers && id in b'.customers
      && (forall key <- b.events :: key in b'.events)
      && (forall key <- b'.events :: key in b.events || key == (d.source, d.event.eventId))
      && (Relevant(d, subject, field) ==> (d.source, d.event.eventId) in b'.events)
      && (if Relevant(d, subject, field) && (d.source, d.event.eventId) !in b.events
          then b'.customers[id] == Observe(d.source, d.event, b.customers[id])
          else SameField(b.customers[id], b'.customers[id], field))
  {
    IngestAgrees(digest, b, d.source, d.event, d.newId, d.at);
    hide IngestTx, Observe, Founds, Agrees, Forward, After, SameField;
    KnownStays(b, Delivered(digest, b, d), id, subject, field);
    hide Delivered;
    if Newcomer(b, d.source, d.event, d.newId) {
      NewcomerStep(digest, b, d, id);
      SameFieldItself(b.customers[id], field);
    } else if (d.source, d.event.eventId) !in b.events && (d.source, d.event.subject) in b.identities {
      KnownStep(digest, b, d, id, subject, field);
    } else {
      OtherwiseStep(digest, b, d);
      SameFieldItself(b.customers[id], field);
    }
  }

  lemma SameFieldItself(row: CustomerRow, field: Field)
    ensures SameField(row, row, field)
  {
  }

  lemma KnownStays(b: Business, b': Business, id: Id, subject: string, field: Field)
    requires Agrees(b) && Agrees(b') && Forward(b, b') && Known(b, id, subject, field)
    ensures Known(b', id, subject, field) && id in b.customers && id in b'.customers
    ensures forall key <- b.events :: key in b'.events
  {
  }

  // ----- any number of deliveries -----

  /** What the delivery `d` may be beside the latest one, `m`. */
  predicate Behind(row0: CustomerRow, d: Delivery, subject: string, field: Field, m: SourceEvent)
    requires field in m.attributes
  {
    Relevant(d, subject, field) ==>
      && (d.event == m || d.event.sequence < m.sequence)
      && (field == Lifecycle && Newer(row0, field, d.event) ==> Rank(d.event.attributes[field]) <= Rank(m.attributes[field]))
  }

  /** What is true of the field after some of the deliveries, `m` being the latest of all. */
  predicate Progress(row: CustomerRow, ds: seq<Delivery>, subject: string, field: Field, m: SourceEvent)
    requires field in m.attributes
  {
    if Brings(ds, subject, field, m) then Carries(row, field, m)
    else Newer(row, field, m) && (field == Lifecycle ==> CurrentRank(row.state) <= Rank(m.attributes[field]))
  }

  /** What is stored after some of the deliveries. */
  ghost predicate Stored(b0: Business, b: Business, ds: seq<Delivery>, id: Id, subject: string, field: Field) {
    && Agrees(b) && Forward(b0, b) && Known(b, id, subject, field)
    && (forall d <- ds | Relevant(d, subject, field) :: (d.source, d.event.eventId) in b.events)
    && (forall key <- b.events | key !in b0.events :: exists d <- ds :: key == (d.source, d.event.eventId))
  }

  lemma StoredStep(digest: Doc -> Hash, b0: Business, b: Business, ds: seq<Delivery>, d: Delivery, id: Id,
                   subject: string, field: Field)
    requires Stored(b0, b, ds, id, subject, field)
    ensures Stored(b0, Delivered(digest, b, d), ds + [d], id, subject, field)
  {
    var b' := Delivered(digest, b, d);
    IngestAgrees(digest, b, d.source, d.event, d.newId, d.at);
    OneDelivery(digest, b, d, id, subject, field);
    hide Agrees, Delivered;
    ForwardAgain(b0, b, b');
    hide Forward, SameField, Observe;
    forall key <- b'.events | key !in b0.events
      ensures exists e <- ds + [d] :: key == (e.source, e.event.eventId)
    {
      if key in b.events {
        var e :| e in ds && key == (e.source, e.event.eventId);
        assert e in ds + [d];
      } else {
        assert d in ds + [d];
      }
    }
  }

  lemma BringsNext(ds: seq<Delivery>, d: Delivery, subject: string, field: Field, m: SourceEvent)
    ensures Brings(ds + [d], subject, field, m) <==> Brings(ds, subject, field, m) || (Relevant(d, subject, field) && d.event == m)
  {
    if Brings(ds, subject, field, m) {
      var e :| e in ds && Relevant(e, subject, field) && e.event == m;
      assert e in ds + [d];
    } else if Relevant(d, subject, field) && d.event == m {
      assert d in ds + [d];
    }
  }

  /** A relevant event is stored exactly when some delivery of it has come before. */
  lemma StoredMeansBrought(b0: Business, b: Business, ds: seq<Delivery>, d: Delivery, id: Id, subject: string,
                           field: Field)
    requires Stored(b0, b, ds, id, subject, field) && Orderly(b0, ds + [d], subject, field) && Relevant(d, subject, field)
    requires (d.source, d.event.eventId) in b.events
    ensures Brings(ds, subject, field, d.event)
  {
    assert d in ds + [d];
    var e :| e in ds && (d.source, d.event.eventId) == (e.source, e.event.eventId);
    assert e in ds + [d];
  }

  lemma ProgressStep(row0: CustomerRow, row: CustomerRow, row': CustomerRow, ds: seq<Delivery>, d: Delivery,
                     subject: string, field: Field, m: SourceEvent)
    requires field in m.attributes && Progress(row, ds, subject, field, m)
    requires FieldForward(row0, row, field) && Behind(row0, d, subject, field, m)
    requires (Relevant(d, subject, field) && row' == Observe(d.source, d.event, row))
             || (SameField(row, row', field) && (Relevant(d, subject, field) ==> Brings(ds, subject, field, d.event)))
    ensures Progress(row', ds + [d], subject, field, m)
  {
    BringsNext(ds, d, subject, field, m);
    if Relevant(d, subject, field) && row' == Observe(d.source, d.event, row) {
      if Newer(row, field, d.event) { ObserveOwner(d.event, row, field); } else { ObserveOthers(d.source, d.event, row, field); }
    }
  }

  lemma {:induction false} AllDelivered(digest: Doc -> Hash, b0: Business, ds: seq<Delivery>, id: Id,
                                        subject: string, field: Field)
    requires Agrees(b0) && Known(b0, id, subject, field)
    ensures Stored(b0, DeliveredAll(digest, b0, ds), ds, id, subject, field)
  {
    if ds == [] {
      forall row: CustomerRow ensures RowForward(row, row) { SameRow(row); }
    } else {
      var init, last := ds[..|ds| - 1], ds[|ds| - 1];
      AllDelivered(digest, b0, init, id, subject, field);
      hide Stored, Delivered;
      StoredStep(digest, b0, DeliveredAll(digest, b0, init), init, last, id, subject, field);
      assert ds == init + [last];
    }
  }

  lemma StepForward(b0: Business, b: Business, id: Id, field: Field)
    requires Forward(b0, b) && id in b0.customers
    ensures id in b.customers && FieldForward(b0.customers[id], b.customers[id], field)
  {
    assert RowForward(b0.customers[id], b.customers[id]);
  }

  lemma WinsStep(digest: Doc -> Hash, b0: Business, b: Business, ds: seq<Delivery>, d: Delivery, id: Id,
                 subject: string, field: Field, m: SourceEvent)
    requires Stored(b0, b, ds, id, subject, field) && Orderly(b0, ds + [d], subject, field)
    requires id in b0.customers && id in b.customers && field in m.attributes
    requires Progress(b.customers[id], ds, subject, field, m) && Behind(b0.customers[id], d, subject, field, m)
    ensures var b' := Delivered(digest, b, d); id in b'.customers && Progress(b'.customers[id], ds + [d], subject, field, m)
  {
    hide Behind, Agrees, Delivered, Observe, Progress, SameField, FieldForward, Orderly, Brings, Forward;
    OneDelivery(digest, b, d, id, subject, field);
    StepForward(b0, b, id, field);
    if Relevant(d, subject, field) && (d.source, d.event.eventId) in b.events {
      StoredMeansBrought(b0, b, ds, d, id, subject, field);
    }
    ProgressStep(b0.customers[id], b.customers[id], Delivered(digest, b, d).customers[id], ds, d, subject, field, m);
  }

  lemma OrderlyPrefix(b: Business, ds: seq<Delivery>, d: Delivery, subject: string, field: Field)
    requires Orderly(b, ds + [d], subject, field)
    ensures Orderly(b, ds, subject, field)
  {
    assert forall e <- ds :: e in ds + [d];
  }

  lemma {:induction false} LatestWins(digest: Doc -> Hash, b0: Business, ds: seq<Delivery>, id: Id,
                                      subject: string, field: Field, m: SourceEvent)
    requires Agrees(b0) && Known(b0, id, subject, field) && id in b0.customers && field in m.attributes
    requires Orderly(b0, ds, subject, field) && Newer(b0.customers[id], field, m)
    requires field == Lifecycle ==> CurrentRank(b0.customers[id].state) <= Rank(m.attributes[field])
    requires forall d <- ds :: Behind(b0.customers[id], d, subject, field, m)
    ensures var b := DeliveredAll(digest, b0, ds);
      id in b.customers && Progress(b.customers[id], ds, subject, field, m)
  {
    if ds != [] {
      hide Behind, Agrees, Orderly, Stored, Delivered, Progress, Newer;
      var init, last := ds[..|ds| - 1], ds[|ds| - 1];
      assert ds == init + [last] && last in ds;
      OrderlyPrefix(b0, init, last, subject, field);
      assert forall d <- init :: d in ds;
      LatestWins(digest, b0, init, id, subject, field, m);
      AllDelivered(digest, b0, init, id, subject, field);
      WinsStep(digest, b0, DeliveredAll(digest, b0, init), init, last, id, subject, field, m);
    }
  }

  // ----- confluence -----

  lemma LatestBounds(b0: Business, ds: seq<Delivery>, id: Id, subject: string, field: Field, m: SourceEvent)
    requires id in b0.customers && Orderly(b0, ds, subject, field) && Latest(ds, subject, field, m)
    requires field == Lifecycle ==> field in m.attributes && Unsurpassed(b0.customers[id], ds, subject, m)
    ensures field in m.attributes && forall d <- ds :: Behind(b0.customers[id], d, subject, field, m)
  {
    var e :| e in ds && Relevant(e, subject, field) && e.event == m;
  }

  /** Confluence: after any list of deliveries, in any order, with repetitions, and among any other
      sources' events, a field has the value and the provenance of the latest event of its owner
      that carries it. For the stage this holds as long as no other stage is ahead of it. */
  lemma DeliveryConfluence(digest: Doc -> Hash, b0: Business, ds: seq<Delivery>, id: Id, subject: string,
                           field: Field, m: SourceEvent)
    requires Agrees(b0) && Known(b0, id, subject, field) && Orderly(b0, ds, subject, field)
    requires id in b0.customers && Latest(ds, subject, field, m) && Newer(b0.customers[id], field, m)
    requires field == Lifecycle ==> field in m.attributes && Unsurpassed(b0.customers[id], ds, subject, m)
    ensures var b := DeliveredAll(digest, b0, ds);
      id in b.customers && Carries(b.customers[id], field, m)
  {
    LatestBounds(b0, ds, id, subject, field, m);
    hide Agrees, Orderly;
    LatestWins(digest, b0, ds, id, subject, field, m);
  }

  /** Deliveries with nothing newer than what is on record change nothing. */
  lemma {:induction false} OlderChangesNothing(digest: Doc -> Hash, b0: Business, ds: seq<Delivery>, id: Id,
                                               subject: string, field: Field)
    requires Agrees(b0) && Known(b0, id, subject, field) && id in b0.customers
    requires forall d <- ds | Relevant(d, subject, field) :: !Newer(b0.customers[id], field, d.event)
    ensures var b := DeliveredAll(digest, b0, ds);
      id in b.customers && SameField(b0.customers[id], b.customers[id], field)
  {
    if ds != [] {
      hide Agrees, Delivered, Observe, Stored, SameField;
      var init, last := ds[..|ds| - 1], ds[|ds| - 1];
      assert ds == init + [last] && last in ds && forall d <- init :: d in ds;
      OlderChangesNothing(digest, b0, init, id, subject, field);
      AllDelivered(digest, b0, init, id, subject, field);
      OlderStep(digest, b0, DeliveredAll(digest, b0, init), init, last, id, subject, field);
    } else {
      SameFieldItself(b0.customers[id], field);
    }
  }

  lemma OlderStep(digest: Doc -> Hash, b0: Business, b: Business, ds: seq<Delivery>, d: Delivery, id: Id,
                  subject: string, field: Field)
    requires Stored(b0, b, ds, id, subject, field) && id in b0.customers && id in b.customers
    requires SameField(b0.customers[id], b.customers[id], field)
    requires Relevant(d, subject, field) ==> !Newer(b0.customers[id], field, d.event)
    ensures var b' := Delivered(digest, b, d); id in b'.customers && SameField(b0.customers[id], b'.customers[id], field)
  {
    hide Agrees, Delivered, Observe, Forward;
    OneDelivery(digest, b, d, id, subject, field);
    if Relevant(d, subject, field) { ObserveOthers(d.source, d.event, b.customers[id], field); }
  }

  lemma {:induction false} LatestExists(ds: seq<Delivery>, subject: string, field: Field)
    ensures (forall d <- ds :: !Relevant(d, subject, field)) || exists m :: Latest(ds, subject, field, m)
  {
    if ds != [] {
      var init, last := ds[..|ds| - 1], ds[|ds| - 1];
      assert ds == init + [last];
      LatestExists(init, subject, field);
      if m :| Latest(init, subject, field, m) {
        BringsNext(init, last, subject, field, m);
        BringsNext(init, last, subject, field, last.event);
        if Relevant(last, subject, field) && m.sequence < last.event.sequence {
          assert Latest(ds, subject, field, last.event);
        } else {
          assert Latest(ds, subject, field, m);
        }
      } else if Relevant(last, subject, field) {
        BringsNext(init, last, subject, field, last.event);
        assert Latest(ds, subject, field, last.event);
      }
    }
  }

  predicate SameNews(ds: seq<Delivery>, ds': seq<Delivery>, subject: string, field: Field) {
    && (forall d <- ds | Relevant(d, subject, field) :: Brings(ds', subject, field, d.event))
    && (forall d <- ds' | Relevant(d, subject, field) :: Brings(ds, subject, field, d.event))
  }

  /** Two lists of deliveries that bring the same events of the owner, in whatever order and
      number, leave the same value with the same provenance. */
  lemma OrderDoesNotMatter(digest: Doc -> Hash, b0: Business, ds: seq<Delivery>, ds': seq<Delivery>, id: Id,
                           subject: string, field: Field)
    requires Agrees(b0) && Known(b0, id, subject, field) && id in b0.customers && field != Lifecycle
    requires Orderly(b0, ds, subject, field) && Orderly(b0, ds', subject, field) && SameNews(ds, ds', subject, field)
    ensures var b, b' := DeliveredAll(digest, b0, ds), DeliveredAll(digest, b0, ds');
      id in b.customers && id in b'.customers && SameField(b.customers[id], b'.customers[id], field)
  {
    hide Agrees, Orderly, Known;
    LatestExists(ds, subject, field);
    if m :| Latest(ds, subject, field, m) && Newer(b0.customers[id], field, m) {
      SameLatest(ds, ds', subject, field, m);
      DeliveryConfluence(digest, b0, ds, id, subject, field, m);
      DeliveryConfluence(digest, b0, ds', id, subject, field, m);
    } else {
      OlderChangesNothing(digest, b0, ds, id, subject, field);
      OlderChangesNothing(digest, b0, ds', id, subject, field);
    }
  }

  lemma SameLatest(ds: seq<Delivery>, ds': seq<Delivery>, subject: string, field: Field, m: SourceEvent)
    requires SameNews(ds, ds', subject, field) && Latest(ds, subject, field, m)
    ensures Latest(ds', subject, field, m)
  {
    var e :| e in ds && Relevant(e, subject, field) && e.event == m;
    assert Brings(ds', subject, field, e.event);
    forall d <- ds' | Relevant(d, subject, field) ensures d.event.sequence <= m.sequence {
      var other :| other in ds && Relevant(other, subject, field) && other.event == d.event;
    }
  }

  // ----- the stage: exactly when the order does not matter -----

  predicate Shuffled(ds: seq<Delivery>, ds': seq<Delivery>) {
    (forall d <- ds :: d in ds') && (forall d <- ds' :: d in ds)
  }

  predicate EndsWith(digest: Doc -> Hash, b0: Business, ds: seq<Delivery>, id: Id, field: Field, m: SourceEvent) {
    var b := DeliveredAll(digest, b0, ds);
    id in b.customers && Carries(b.customers[id], field, m)
  }

  lemma {:induction false} DeliveredConcat(digest: Doc -> Hash, b: Business, d: Delivery, ds: seq<Delivery>)
    ensures DeliveredAll(digest, b, [d] + ds) == DeliveredAll(digest, Delivered(digest, b, d), ds)
  {
    hide Delivered;
    if ds == [] {
      assert [d] + ds == [d] && [d][..0] == [];
    } else {
      var all := [d] + ds;
      assert all[..|all| - 1] == [d] + ds[..|ds| - 1];
      DeliveredConcat(digest, b, d, ds[..|ds| - 1]);
    }
  }

  lemma StageNeverFalls(digest: Doc -> Hash, b0: Business, ds: seq<Delivery>, id: Id, subject: string)
    requires Agrees(b0) && Known(b0, id, subject, Lifecycle) && id in b0.customers
    ensures var b := DeliveredAll(digest, b0, ds);
      id in b.customers && CurrentRank(b0.customers[id].state) <= CurrentRank(b.customers[id].state)
  {
    AllDelivered(digest, b0, ds, id, subject, Lifecycle);
    assert RowForward(b0.customers[id], DeliveredAll(digest, b0, ds).customers[id]);
  }

  /** Once a later stage has been delivered, the latest event cannot bring its own stage back. */
  lemma AheadStays(digest: Doc -> Hash, b0: Business, ds: seq<Delivery>, d: Delivery, id: Id, subject: string,
                   m: SourceEvent)
    requires Agrees(b0) && Known(b0, id, subject, Lifecycle) && id in b0.customers && Lifecycle in m.attributes
    requires Relevant(d, subject, Lifecycle) && (d.source, d.event.eventId) !in b0.events
    requires Newer(b0.customers[id], Lifecycle, d.event)
    requires Rank(m.attributes[Lifecycle]) < Rank(d.event.attributes[Lifecycle])
    ensures !EndsWith(digest, b0, [d] + ds, id, Lifecycle, m)
  {
    hide Agrees, Delivered, Observe;
    OneDelivery(digest, b0, d, id, subject, Lifecycle);
    ObserveOwner(d.event, b0.customers[id], Lifecycle);
    DeliveredConcat(digest, b0, d, ds);
    StageNeverFalls(digest, Delivered(digest, b0, d), ds, id, subject);
  }

  /** The stage ends at the latest event in every order exactly when that event's stage is not
      behind the recorded one or that of any other newer event. */
  lemma StageConfluence(digest: Doc -> Hash, b0: Business, ds: seq<Delivery>, id: Id, subject: string, m: SourceEvent)
    requires Agrees(b0) && Known(b0, id, subject, Lifecycle) && id in b0.customers && Lifecycle in m.attributes
    requires Orderly(b0, ds, subject, Lifecycle) && Latest(ds, subject, Lifecycle, m) && Newer(b0.customers[id], Lifecycle, m)
    ensures (forall ds' | Shuffled(ds, ds') :: EndsWith(digest, b0, ds', id, Lifecycle, m))
      <==> Unsurpassed(b0.customers[id], ds, subject, m)
  {
    hide Agrees, Known;
    if Unsurpassed(b0.customers[id], ds, subject, m) {
      forall ds' | Shuffled(ds, ds') ensures EndsWith(digest, b0, ds', id, Lifecycle, m) {
        DeliveryConfluence(digest, b0, ds', id, subject, Lifecycle, m);
      }
    } else if CurrentRank(b0.customers[id].state) > Rank(m.attributes[Lifecycle]) {
      StageNeverFalls(digest, b0, ds, id, subject);
      assert Shuffled(ds, ds) && !EndsWith(digest, b0, ds, id, Lifecycle, m);
    } else {
      var d :| d in ds && Relevant(d, subject, Lifecycle) && Newer(b0.customers[id], Lifecycle, d.event)
               && Rank(d.event.attributes[Lifecycle]) > Rank(m.attributes[Lifecycle]);
      AheadStays(digest, b0, ds, d, id, subject, m);
      assert Shuffled(ds, [d] + ds);
    }
  }
}
