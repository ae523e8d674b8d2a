/** What holds in every reachable state: under any interleaving of gateways, relay replicas and
    consumers, with crashes, rollbacks, lost acknowledgements and redeliveries anywhere. */
module Guarantees {
  import opened Topics
  import opened Events
  import opened PointIds
  import opened Model
  import opened Invariant
  import opened WorkSteps
  import ObjectKeys

  /** The facts the theorems start from. */
  lemma Known(c: Config, s: State)
    requires ValidConfig(c) && Reachable(c, s)
    ensures Inv(c, s)
  {
    ReachableInv(c, s);
  }

  // ----- no event is lost ------------------------------------------------------------------

  lemma PublishedWasSent(c: Config, s: State, e: Id)
    requires Inv(c, s) && e in s.db.published
    ensures Sent(s.db.outbox, s.logs, e)
  {
    hide StoresInv, EventsInv, ResultsInv, VectorsInv, BusInv, WorkersInv, Sent, BatchOk;
  }

  lemma OffsetSafe(c: Config, s: State, g: Stage)
    requires Inv(c, s)
    ensures SafeFrom(s.logs.At(g), s.dlqs.At(g), s.db.ledger, g, s.committed.At(g))
  {
    hide StoresInv, EventsInv, ResultsInv, VectorsInv, RelayInv, WorkersInv, SafeFrom, MessagesOk, PositionsOk;
  }

  lemma SentMeansAccounted(log: Log, dlq: Log, ledger: set<Claim>, g: Stage, e: Id, from: nat)
    requires SafeFrom(log, dlq, ledger, g, from) && InLog(log, e, 0)
    ensures Accounted(log, dlq, ledger, g, e, from)
  {
    var i :| 0 <= i < |log| && log[i].eventId == e;
    assert i < from ==> Accounted(log, dlq, ledger, g, log[i].eventId, from);
  }

  /** Each committed outbox row is still unpublished, or claimed by its consumer group, or in its
      topic's DLQ, or in the log at or beyond the group's committed offset. */
  lemma NoEventIsLost(c: Config, s: State, e: Id)
    requires ValidConfig(c) && Reachable(c, s) && e in s.db.outbox
    ensures var g := s.db.outbox[e].payload.eventType;
            || e !in s.db.published
            || Claim(e, g) in s.db.ledger
            || (exists i :: 0 <= i < |s.dlqs.At(g)| && s.dlqs.At(g)[i].eventId == e)
            || (exists i :: s.committed.At(g) <= i < |s.logs.At(g)| && s.logs.At(g)[i].eventId == e)
  {
    hide Inv, SafeFrom;
    Known(c, s);
    hide Reachable;
    var g := s.db.outbox[e].payload.eventType;
    if e in s.db.published {
      PublishedWasSent(c, s, e);
      OffsetSafe(c, s, g);
      SentMeansAccounted(s.logs.At(g), s.dlqs.At(g), s.db.ledger, g, e, s.committed.At(g));
    }
  }

  // ----- exactly-once effects --------------------------------------------------------------

  lemma EventFacts(c: Config, s: State)
    requires Inv(c, s)
    ensures RowsUnique(s.db.outbox) && OneTrace(s.db.outbox) && Chained(s.db.outbox, s.db.ledger, s.db.views)
    ensures Rooted(s.db.jobs, s.db.outbox, s.db.views) && RowsOk(c, s.db.jobs, s.objects, s.db.outbox)
    ensures LedgerTyped(s.db.outbox, s.db.ledger)
  {
    hide StoresInv, ResultsInv, VectorsInv, BusInv, RelayInv, WorkersInv;
    hide RowsUnique, OneTrace, Chained, Rooted, RowsOk, LedgerTyped;
  }

  /** Every document has exactly one ingested event and at most one of each later stage; the next
      event exists exactly when the previous one is claimed, and the view row exactly when the
      enriched event is. */
  lemma EffectsHappenExactlyOnce(c: Config, s: State, d: Id)
    requires ValidConfig(c) && Reachable(c, s) && d in s.db.jobs
    ensures exists e :: IsRow(s.db.outbox, e, d, Ingested)
    ensures forall e, f, g :: IsRow(s.db.outbox, e, d, g) && IsRow(s.db.outbox, f, d, g) ==> e == f
    ensures forall e :: IsRow(s.db.outbox, e, d, Ingested) ==>
              (Claim(e, Ingested) in s.db.ledger <==> exists f :: IsRow(s.db.outbox, f, d, Extracted))
    ensures forall e :: IsRow(s.db.outbox, e, d, Extracted) ==>
              (Claim(e, Extracted) in s.db.ledger <==> exists f :: IsRow(s.db.outbox, f, d, Enriched))
    ensures forall e :: IsRow(s.db.outbox, e, d, Enriched) ==> (Claim(e, Enriched) in s.db.ledger <==> d in s.db.views)
  {
    Known(c, s);
    EventFacts(c, s);
    hide Inv, RowsOk, OneTrace, IsRow;
    assert Has(s.db.outbox, d, Ingested);
    forall e | IsRow(s.db.outbox, e, d, Ingested)
      ensures Claim(e, Ingested) in s.db.ledger <==> Has(s.db.outbox, d, Extracted)
    {
      assert Next(Ingested) == Extracted;
    }
    forall e | IsRow(s.db.outbox, e, d, Extracted)
      ensures Claim(e, Extracted) in s.db.ledger <==> Has(s.db.outbox, d, Enriched)
    {
      assert Next(Extracted) == Enriched;
    }
  }

  // ----- settled runs ----------------------------------------------------------------------

  /** Everything is published and every group's offset is at the end of its log. */
  predicate AtRest(s: State) {
    && (forall e :: e in s.db.outbox ==> e in s.db.published)
    && (forall g: Stage :: s.committed.At(g) == |s.logs.At(g)|)
  }

  lemma DlqNames(c: Config, s: State, g: Stage, e: Id, d: Id)
    requires Inv(c, s) && IsRow(s.db.outbox, e, d, g) && InLog(s.dlqs.At(g), e, 0)
    ensures DocumentIn(s.dlqs.At(g), d)
  {
    hide StoresInv, EventsInv, ResultsInv, VectorsInv, RelayInv, WorkersInv, OffsetsOk, PositionsOk;
    var i :| 0 <= i < |s.dlqs.At(g)| && s.dlqs.At(g)[i].eventId == e;
    assert DlqOk(c, s.db.outbox, g, s.dlqs.At(g));
    assert MessageOk(s.db.outbox, g, s.dlqs.At(g)[i]);
    assert s.dlqs.At(g)[i].Erased().documentId == s.dlqs.At(g)[i].documentId;
  }

  /** At rest, a document's event of a stage has been claimed or dead-lettered. */
  lemma DecidedAtRest(c: Config, s: State, e: Id, d: Id, g: Stage)
    requires ValidConfig(c) && Reachable(c, s) && AtRest(s) && IsRow(s.db.outbox, e, d, g)
    ensures Claim(e, g) in s.db.ledger || DocumentIn(s.dlqs.At(g), d)
  {
    NoEventIsLost(c, s, e);
    Known(c, s);
    hide Inv, DocumentIn;
    if Claim(e, g) !in s.db.ledger {
      DlqNames(c, s, g, e, d);
    }
  }

  lemma StatusFacts(c: Config, s: State, d: Id)
    requires Inv(c, s) && d in s.db.jobs
    ensures StatusOk(s.db.outbox, s.dlqs, d, s.db.jobs[d].status)
  {
    hide StoresInv, EventsInv, VectorsInv, BusInv, RelayInv, WorkersInv, StatusOk, ResultsOk, ViewsOk;
  }

  /** Following one document's chain of events: it ends in the read model or in a DLQ. */
  lemma ChainAtRest(c: Config, s: State, d: Id)
    requires ValidConfig(c) && Reachable(c, s) && AtRest(s) && d in s.db.jobs
    ensures DocumentIn(s.dlqs.At(Ingested), d) || Has(s.db.outbox, d, Extracted)
    ensures Has(s.db.outbox, d, Extracted) ==> DocumentIn(s.dlqs.At(Extracted), d) || Has(s.db.outbox, d, Enriched)
    ensures Has(s.db.outbox, d, Enriched) ==> DocumentIn(s.dlqs.At(Enriched), d) || d in s.db.views
  {
    hide Reachable, AtRest, DocumentIn, IsRow;
    EffectsHappenExactlyOnce(c, s, d);
    var e :| IsRow(s.db.outbox, e, d, Ingested);
    DecidedAtRest(c, s, e, d, Ingested);
    if Has(s.db.outbox, d, Extracted) {
      var f :| IsRow(s.db.outbox, f, d, Extracted);
      DecidedAtRest(c, s, f, d, Extracted);
    }
    if Has(s.db.outbox, d, Enriched) {
      var h :| IsRow(s.db.outbox, h, d, Enriched);
      DecidedAtRest(c, s, h, d, Enriched);
    }
  }

  /** At rest nothing is half done: every document is in the read model or has an event in a DLQ,
      and without an event in the first two DLQs its job is COMPLETED. */
  lemma SettledMeansComplete(c: Config, s: State, d: Id)
    requires ValidConfig(c) && Reachable(c, s) && AtRest(s) && d in s.db.jobs
    ensures d in s.db.views || exists g: Stage :: DocumentIn(s.dlqs.At(g), d)
    ensures DocumentIn(s.dlqs.ingested, d) || DocumentIn(s.dlqs.extracted, d) || s.db.jobs[d].status == Completed
  {
    hide Inv, Reachable, AtRest, DocumentIn, Has;
    ChainAtRest(c, s, d);
    KnownStatus(c, s, d);
    assert s.dlqs.At(Ingested) == s.dlqs.ingested && s.dlqs.At(Extracted) == s.dlqs.extracted;
  }

  lemma KnownStatus(c: Config, s: State, d: Id)
    requires ValidConfig(c) && Reachable(c, s) && d in s.db.jobs
    ensures StatusOk(s.db.outbox, s.dlqs, d, s.db.jobs[d].status)
    ensures Has(s.db.outbox, d, Enriched) ==> Has(s.db.outbox, d, Extracted)
  {
    hide Inv, Reachable, Has, StatusOk, RowsUnique, OneTrace, Chained, RowsOk, LedgerTyped;
    Known(c, s);
    StatusFacts(c, s, d);
    EventFacts(c, s);
  }

  // ----- status ----------------------------------------------------------------------------

  ghost predicate ClaimedBy(s: State, d: Id, g: Stage) {
    exists e :: IsRow(s.db.outbox, e, d, g) && Claim(e, g) in s.db.ledger
  }

  /** A job's committed status is explained by the ledger.  Away from FAILED, it is PENDING exactly
      while the ingested event is unclaimed, EXTRACTED exactly while the ingested event is claimed
      and the extracted one is not, COMPLETED exactly once both are; FAILED implies a dead-lettered
      event of the document; EXTRACTING and ENRICHING are never committed. */
  lemma StatusIsExplained(c: Config, s: State, d: Id)
    requires ValidConfig(c) && Reachable(c, s) && d in s.db.jobs
    ensures var st := s.db.jobs[d].status;
            && st != Extracting && st != Enriching
            && (st == Failed ==> DocumentIn(s.dlqs.ingested, d) || DocumentIn(s.dlqs.extracted, d))
            && (st != Failed ==>
                  && (st == Pending <==> !ClaimedBy(s, d, Ingested))
                  && (st == TextReady <==> ClaimedBy(s, d, Ingested) && !ClaimedBy(s, d, Extracted))
                  && (st == Completed <==> ClaimedBy(s, d, Ingested) && ClaimedBy(s, d, Extracted)))
  {
    EffectsHappenExactlyOnce(c, s, d);
    Known(c, s);
    StatusFacts(c, s, d);
    EventFacts(c, s);
    hide Inv, RowsOk, OneTrace, Chained, LedgerTyped, RowsUnique, DocumentIn, IsRow;
    var e :| IsRow(s.db.outbox, e, d, Ingested);
    assert ClaimedBy(s, d, Ingested) <==> Has(s.db.outbox, d, Extracted);
    assert ClaimedBy(s, d, Extracted) <==> Has(s.db.outbox, d, Enriched);
    assert Has(s.db.outbox, d, Enriched) ==> Has(s.db.outbox, d, Extracted);
  }

  // ----- read model ------------------------------------------------------------------------

  lemma ViewFacts(c: Config, s: State, d: Id)
    requires Inv(c, s) && d in s.db.views
    ensures d in s.db.jobs && ViewOk(s.db.jobs[d], s.db.views[d], d)
  {
    hide StoresInv, EventsInv, VectorsInv, BusInv, RelayInv, WorkersInv, StatusesOk, ResultsOk, ViewOk;
  }

  /** The read model never disagrees with the write model, nor with the document's one enriched
      event, however many attempts it took and whatever the LLM answered in the failed ones. */
  lemma ReadModelAgrees(c: Config, s: State, d: Id)
    requires ValidConfig(c) && Reachable(c, s) && d in s.db.views
    ensures d in s.db.jobs
    ensures var view := s.db.views[d];
            var job := s.db.jobs[d];
            && view.documentId == d && view.jobId == job.id && view.filename == Some(job.filename)
            && view.classification == job.classification && view.summary == job.summary
            && job.chunkCount == Some(view.chunkCount)
    ensures exists e :: IsRow(s.db.outbox, e, d, Enriched)
    ensures forall e :: IsRow(s.db.outbox, e, d, Enriched) ==>
              var p := s.db.outbox[e].payload.payload;
              var view := s.db.views[d];
              && p.DocumentEnriched? && p.jobId == view.jobId && p.viewFilename == view.filename
              && p.classification == view.classification && p.summary == view.summary && p.chunkCount == view.chunkCount
  {
    Known(c, s);
    ViewFacts(c, s, d);
    EventFacts(c, s);
    assert Has(s.db.outbox, d, Enriched) by {
      hide Inv, RowsOk, OneTrace, Chained, LedgerTyped, RowsUnique, Has;
    }
    EnrichedCount(c, s, d);
    hide Inv, OneTrace, Chained, LedgerTyped, RowsUnique, Covers, ChunksOf;
    forall e | IsRow(s.db.outbox, e, d, Enriched)
      ensures s.db.outbox[e].payload.payload == ExpectedPayload(c, s.objects, s.db.jobs[d], Enriched)
    {
      assert RowOk(c, s.db.jobs, s.objects, s.db.outbox[e], e);
    }
  }

  // ----- vector store ----------------------------------------------------------------------

  lemma PointFacts(c: Config, s: State, id: string)
    requires Inv(c, s) && id in s.points
    ensures PointOk(c, s.db.jobs, s.objects, s.db.outbox, id, s.points[id])
  {
    hide StoresInv, EventsInv, ResultsInv, BusInv, RelayInv, WorkersInv, PointOk, Indexed;
  }

  /** The stored points of a document never go beyond the chunks of its stored text, each under its
      own name with its own text. */
  lemma VectorsStayWithinTheText(c: Config, s: State, id: string)
    requires ValidConfig(c) && Reachable(c, s) && id in s.points
    ensures var p := s.points[id];
            && p.documentId in s.db.jobs && id == PointName(p.documentId, p.chunkIndex)
            && var chunks := ChunksOf(c, s.objects, s.db.jobs[p.documentId]);
               p.chunkIndex < |chunks| && p.text == chunks[p.chunkIndex]
  {
    hide Inv, Reachable, ChunksOf, Has;
    Known(c, s);
    PointFacts(c, s, id);
  }

  lemma IndexedOnceClaimed(c: Config, s: State, d: Id)
    requires ValidConfig(c) && Reachable(c, s) && d in s.db.jobs && ClaimedBy(s, d, Extracted)
    ensures Covers(s.points, d, |ChunksOf(c, s.objects, s.db.jobs[d])|)
  {
    hide Inv, Reachable, Covers, ChunksOf, IsRow;
    EffectsHappenExactlyOnce(c, s, d);
    assert Has(s.db.outbox, d, Enriched);
    Known(c, s);
    EnrichedCount(c, s, d);
  }

  /** Once the extracted event is claimed, a document's points are exactly the chunks of its stored
      text, point `i` carrying chunk `i`. */
  lemma VectorsAreCompleteOnceClaimed(c: Config, s: State, d: Id, i: nat)
    requires ValidConfig(c) && Reachable(c, s) && d in s.db.jobs && ClaimedBy(s, d, Extracted)
    ensures var chunks := ChunksOf(c, s.objects, s.db.jobs[d]);
            PointName(d, i) in s.points <==> i < |chunks|
    ensures var chunks := ChunksOf(c, s.objects, s.db.jobs[d]);
            i < |chunks| ==>
              && s.points[PointName(d, i)].documentId == d && s.points[PointName(d, i)].chunkIndex == i
              && s.points[PointName(d, i)].text == chunks[i]
  {
    hide Inv, Reachable, ChunksOf, ClaimedBy;
    IndexedOnceClaimed(c, s, d);
    var id := PointName(d, i);
    if id in s.points {
      VectorsStayWithinTheText(c, s, id);
      PointNameInjective(d, i, s.points[id].documentId, s.points[id].chunkIndex);
    }
  }

  /** The enriched event lists its document's point ids in chunk order, and counts them. */
  lemma VectorIdsAreListedInOrder(c: Config, s: State, e: Id, d: Id)
    requires ValidConfig(c) && Reachable(c, s) && IsRow(s.db.outbox, e, d, Enriched)
    ensures d in s.db.jobs
    ensures var p := s.db.outbox[e].payload.payload;
            var n := |ChunksOf(c, s.objects, s.db.jobs[d])|;
            && p.DocumentEnriched? && |p.vectorIds| == n && p.chunkCount == n
            && forall i :: 0 <= i < n ==> p.vectorIds[i] == PointName(d, i)
  {
    hide Inv, Reachable, ChunksOf, RowsUnique, OneTrace, Chained, LedgerTyped, Rooted;
    Known(c, s);
    EventFacts(c, s);
    assert RowOk(c, s.db.jobs, s.objects, s.db.outbox[e], e);
    JobFacts(c, s);
  }

  // ----- outbox rows -----------------------------------------------------------------------

  /** Every outbox row is addressed to its event's topic under its document's key, and named by its event
      and by the service that emits such events. */
  lemma RowsAreAddressed(c: Config, s: State, e: Id)
    requires ValidConfig(c) && Reachable(c, s) && e in s.db.outbox
    ensures var row := s.db.outbox[e];
            var m := row.payload;
            && row.eventId == e && m.eventId == e && row.topic == Pipeline(m.eventType)
            && row.aggregateId == m.documentId && row.key == m.documentId && m.attempt == 0
            && m.source == (match m.eventType case Ingested => "api-gateway" case Extracted => "extraction-worker"
                                              case Enriched => "enrichment-worker")
  {
    Known(c, s);
    EventFacts(c, s);
    assert RowOk(c, s.db.jobs, s.objects, s.db.outbox[e], e);
    hide Inv, Reachable, Chained, LedgerTyped, RowsUnique, Rooted, OneTrace, RowsOk, ExpectedPayload;
  }

  /** Every outbox row says of its document what the job row and the stored text say. */
  lemma RowsSayWhatIsSo(c: Config, s: State, e: Id)
    requires ValidConfig(c) && Reachable(c, s) && e in s.db.outbox
    ensures var m := s.db.outbox[e].payload;
            && m.documentId in s.db.jobs
            && var job := s.db.jobs[m.documentId];
               match m.payload {
                 case DocumentIngested(j, d, filename, contentType, sizeBytes, storageUri) =>
                   && m.eventType == Ingested && j == job.id && d == m.documentId && filename == job.filename
                   && contentType == job.contentType && sizeBytes == job.sizeBytes && storageUri == job.storageUri
                 case DocumentExtracted(j, d, textUri, textLength, pageCount, extractionMethod) =>
                   && m.eventType == Extracted && j == job.id && d == m.documentId && job.storageUri in s.objects
                   && var x := c.extract(job.filename, job.contentType, s.objects[job.storageUri]);
                      && textUri.owner == d && textUri.name == ObjectKeys.SafeName(job.filename + ".extracted.txt")
                      && textLength == |x.text| && pageCount == x.pageCount
                      && extractionMethod == x.extractionMethod
                 case DocumentEnriched(j, d, filename, classification, summary, chunkCount, vectorIds) =>
                   && m.eventType == Enriched && j == job.id && d == m.documentId && filename == Some(job.filename)
                   && classification == job.classification && summary == job.summary
                   && job.chunkCount == Some(chunkCount) && |vectorIds| == chunkCount
               }
  {
    hide Inv, Reachable, TextOk, PointNames, ChunksOf, ObjectKeys.SafeName, JobOk;
    Known(c, s);
    RowPayload(c, s, e);
    JobFacts(c, s);
    var m := s.db.outbox[e].payload;
    TextsInPlace(c, s, m.documentId);
    if m.eventType == Enriched {
      assert IsRow(s.db.outbox, e, m.documentId, Enriched);
      EnrichedCount(c, s, m.documentId);
    }
  }

  // ----- messages --------------------------------------------------------------------------

  lemma LogFacts(c: Config, s: State, g: Stage)
    requires Inv(c, s)
    ensures LogOk(c, s.db.outbox, g, s.logs.At(g)) && DlqOk(c, s.db.outbox, g, s.dlqs.At(g))
  {
    hide StoresInv, EventsInv, ResultsInv, VectorsInv, RelayInv, WorkersInv, LogOk, DlqOk, OffsetsOk, PositionsOk;
  }

  /** Erasing the retry counter, every message on a topic or DLQ is the envelope of the outbox row
      with its event id; attempts stay below the limit, and a dead letter has used the last one. */
  lemma MessagesAreTheirRows(c: Config, s: State, g: Stage, m: Envelope)
    requires ValidConfig(c) && Reachable(c, s) && (m in s.logs.At(g) || m in s.dlqs.At(g))
    ensures m.eventId in s.db.outbox && m.Erased() == s.db.outbox[m.eventId].payload
    ensures m in s.logs.At(g) ==> m.attempt < c.maxAttempts
    ensures m in s.dlqs.At(g) ==> m.attempt == c.maxAttempts - 1
  {
    Known(c, s);
    hide Inv;
    LogFacts(c, s, g);
  }

  /** Every message is of its topic's type, about a document with a job row, with that job's own
      data, and carries the correlation id of the document's ingested event. */
  lemma MessagesAreWellTyped(c: Config, s: State, g: Stage, m: Envelope)
    requires ValidConfig(c) && Reachable(c, s) && (m in s.logs.At(g) || m in s.dlqs.At(g))
    ensures m.eventType == g && m.payload.EventType() == g
    ensures m.documentId in s.db.jobs && m.payload.documentId == m.documentId
    ensures m.payload.jobId == s.db.jobs[m.documentId].id
    ensures forall e :: IsRow(s.db.outbox, e, m.documentId, Ingested) ==>
              s.db.outbox[e].payload.correlationId == m.correlationId
  {
    MessagesAreTheirRows(c, s, g, m);
    Known(c, s);
    LogFacts(c, s, g);
    EventFacts(c, s);
    JobFacts(c, s);
    hide Inv, Chained, LedgerTyped, RowsUnique, Rooted, LogOk, DlqOk;
    assert m.eventType == g by {
      assert LogOk(c, s.db.outbox, g, s.logs.At(g)) && DlqOk(c, s.db.outbox, g, s.dlqs.At(g));
      LogTyped(c, s.db.outbox, g, s.logs.At(g), s.dlqs.At(g), m);
    }
    assert RowOk(c, s.db.jobs, s.objects, s.db.outbox[m.eventId], m.eventId);
    assert m.Erased().payload == m.payload;
    assert m.Erased().documentId == m.documentId;
    assert m.Erased().eventType == m.eventType;
    assert m.Erased().correlationId == m.correlationId;
    assert s.db.jobs[m.documentId].documentId == m.documentId;
  }

  lemma LogTyped(c: Config, outbox: Outbox, g: Stage, log: Log, dlq: Log, m: Envelope)
    requires LogOk(c, outbox, g, log) && DlqOk(c, outbox, g, dlq) && (m in log || m in dlq)
    ensures m.eventType == g
  {
  }

  lemma JobFacts(c: Config, s: State)
    requires Inv(c, s)
    ensures forall d :: d in s.db.jobs ==> s.db.jobs[d].documentId == d
  {
    hide EventsInv, ResultsInv, VectorsInv, BusInv, RelayInv, WorkersInv, TextsOk, TextStored, OutboxMinted;
    forall d | d in s.db.jobs
      ensures s.db.jobs[d].documentId == d
    {
      assert JobOk(s.objects, s.minted, d, s.db.jobs);
    }
  }

  /** The handlers' type assertions never fire and their missing-job branch is never taken. */
  lemma HandlersSeeTheirOwnEvents(c: Config, s: State, w: nat)
    requires ValidConfig(c) && Reachable(c, s) && HasRecord(s, w)
    ensures Record(s, w).payload.EventType() == s.workers[w].stage
    ensures Record(s, w).payload.documentId in s.db.jobs && !s.workers[w].phase.NoJob?
  {
    var g := s.workers[w].stage;
    assert Record(s, w) in s.logs.At(g);
    hide Reachable;
    MessagesAreWellTyped(c, s, g, Record(s, w));
    Known(c, s);
    hide Inv;
    NoJobNever(c, s, w);
  }

  lemma TextsInPlace(c: Config, s: State, d: Id)
    requires Inv(c, s) && d in s.db.jobs
    ensures s.db.jobs[d].storageUri in s.objects
    ensures Has(s.db.outbox, d, Extracted) ==> TextUri(d, s.db.jobs[d].filename) in s.objects
    ensures TextOk(c, s.db.jobs, s.objects, d)
  {
    hide EventsInv, ResultsInv, VectorsInv, BusInv, RelayInv, WorkersInv, OutboxMinted, TextOk, Has, ExtractionOf;
    assert JobOk(s.objects, s.minted, d, s.db.jobs);
  }

  lemma RowPayload(c: Config, s: State, e: Id)
    requires Inv(c, s) && e in s.db.outbox
    ensures var m := s.db.outbox[e].payload;
            m.documentId in s.db.jobs && m.payload == ExpectedPayload(c, s.objects, s.db.jobs[m.documentId],
                                                                      m.eventType)
  {
    hide Inv, ExpectedPayload, Chained, LedgerTyped, RowsUnique, Rooted, OneTrace;
    EventFacts(c, s);
    assert RowOk(c, s.db.jobs, s.objects, s.db.outbox[e], e);
  }

  /** The bytes a handler needs are always in the store: an ingested event's upload, and for an
      extracted event exactly the encoded text of the extraction of that upload. */
  lemma InputsAreStored(c: Config, s: State, w: nat)
    requires ValidConfig(c) && Reachable(c, s) && HasRecord(s, w)
    ensures var p := Record(s, w).payload;
            && (p.DocumentIngested? ==> p.storageUri in s.objects)
            && (p.DocumentExtracted? ==>
                  && p.documentId in s.db.jobs && p.textUri in s.objects
                  && s.objects[p.textUri] == c.encode(ExtractionOf(c, s.objects, s.db.jobs[p.documentId]).text))
  {
    var m := Record(s, w);
    var g := s.workers[w].stage;
    assert m in s.logs.At(g);
    hide Reachable, Inv, ExtractionOf, TextUri;
    MessagesAreTheirRows(c, s, g, m);
    MessagesAreWellTyped(c, s, g, m);
    Known(c, s);
    RowPayload(c, s, m.eventId);
    assert m.Erased().payload == m.payload;
    assert m.Erased().eventType == m.eventType;
    assert m.Erased().documentId == m.documentId;
    var d := m.documentId;
    JobFacts(c, s);
    assert m.eventType == Extracted ==> IsRow(s.db.outbox, m.eventId, d, Extracted);
    TextsInPlace(c, s, d);
  }

  // ----- relay -----------------------------------------------------------------------------

  /** Batches locked at the same time are disjoint, and a row marked published has a copy on its topic. */
  lemma RelayReplicasAreSafe(c: Config, s: State)
    requires ValidConfig(c) && Reachable(c, s)
    ensures forall r, q, e :: r in s.relays && q in s.relays && e in s.relays[r].ids && e in s.relays[q].ids ==> r == q
    ensures forall e :: e in s.db.published ==>
              e in s.db.outbox && InLog(s.logs.At(s.db.outbox[e].payload.eventType), e, 0)
  {
    Known(c, s);
    hide StoresInv, EventsInv, ResultsInv, VectorsInv, BusInv, WorkersInv, BatchOk, InLog;
  }
}
