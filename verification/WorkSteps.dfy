/** The steps a consumer takes on one record keep the invariant. */
module WorkSteps {
  import opened Topics
  import opened Events
  import opened Model
  import opened Invariant
  import opened Frames
  import opened Commits
  import opened Preservation

  // ----- what the invariant says about the record being worked on --------------------------

  /** The record is a well-formed event of its stage, for a document that has a job. */
  predicate RecordOk(c: Config, s: State, w: nat)
    requires HasRecord(s, w)
  {
    var m := Record(s, w);
    var g := s.workers[w].stage;
    && m.documentId in s.db.jobs && s.db.jobs[m.documentId].documentId == m.documentId
    && m.payload == ExpectedPayload(c, s.objects, s.db.jobs[m.documentId], g)
    && IsRow(s.db.outbox, m.eventId, m.documentId, g)
    && MessageOk(s.db.outbox, g, m) && m.attempt < c.maxAttempts
    && s.db.outbox[m.eventId].payload.correlationId == m.correlationId
  }

  lemma RecordFromParts(c: Config, s: State, w: nat)
    requires MessagesOk(c, s.db.outbox, s.logs, s.dlqs) && RowsOk(c, s.db.jobs, s.objects, s.db.outbox)
    requires JobsOk(s.db.jobs, s.objects, s.minted) && HasRecord(s, w)
    ensures RecordOk(c, s, w)
  {
    var g := s.workers[w].stage;
    assert LogOk(c, s.db.outbox, g, s.logs.At(g));
    var m := Record(s, w);
    assert MessageOk(s.db.outbox, g, m);
    assert RowOk(c, s.db.jobs, s.objects, s.db.outbox[m.eventId], m.eventId);
    assert m.Erased().payload == m.payload;
    assert m.Erased().documentId == m.documentId;
    assert m.Erased().eventType == m.eventType;
    assert m.Erased().correlationId == m.correlationId;
    assert JobOk(s.objects, s.minted, m.documentId, s.db.jobs);
  }

  lemma RecordFacts(c: Config, s: State, w: nat)
    requires Inv(c, s) && HasRecord(s, w)
    ensures RecordOk(c, s, w)
  {
    hide ResultsInv, VectorsInv, RelayInv, WorkersInv, MessagesOk, RowsOk, JobsOk, RecordOk;
    hide TextsOk, TextStored, OutboxMinted, RowsUnique, OneTrace, LedgerTyped, Chained, Rooted, OffsetsOk, PositionsOk;
    RecordFromParts(c, s, w);
  }

  lemma WorkerFacts(c: Config, s: State, w: nat)
    requires Inv(c, s) && w in s.workers
    ensures WorkerOk(c, s, w, s.workers[w])
  {
    hide StoresInv, EventsInv, ResultsInv, VectorsInv, RelayInv, MessagesOk, OffsetsOk, PositionOk, PhaseOk, DrawOk,
      SameDraw, Contend;
  }

  lemma PhaseFacts(c: Config, s: State, w: nat)
    requires Inv(c, s) && w in s.workers
    ensures PhaseOk(c, s.db.jobs, s.objects, s.points, s.logs, s.dlqs, s.workers[w])
  {
    WorkerFacts(c, s, w);
    hide Inv, PositionOk, DrawOk, Contend, SameDraw, PhaseOk;
  }

  // ----- changing only the phase -----------------------------------------------------------

  lemma PhaseOkay(c: Config, s: State, w: nat, p: Phase)
    requires w in s.workers && WorkerOk(c, s, w, s.workers[w])
    requires PhaseOk(c, s.db.jobs, s.objects, s.points, s.logs, s.dlqs, s.workers[w].(phase := p))
    requires NeedsRecord(p) ==> HasRecord(s, w)
    requires HoldsClaim(p) ==> HoldsClaim(s.workers[w].phase)
    requires InTransaction(p) ==> InTransaction(s.workers[w].phase)
    ensures WorkerOk(c, s, w, s.workers[w].(phase := p))
  {
    hide PhaseOk, SafeFrom;
    var k := s.workers[w].(phase := p);
    forall v | v in s.workers && v != w
      ensures !Contend(s.logs, s.workers[v], k) && !SameDraw(s.workers[v], k)
    {
      assert !Contend(s.logs, s.workers[v], s.workers[w]) && !SameDraw(s.workers[v], s.workers[w]);
    }
  }

  /** The claim and the drawn id are kept, or given up with the transaction. */
  lemma PhaseInv(c: Config, s: State, w: nat, p: Phase)
    requires Inv(c, s) && w in s.workers
    requires PhaseOk(c, s.db.jobs, s.objects, s.points, s.logs, s.dlqs, s.workers[w].(phase := p))
    requires NeedsRecord(p) ==> HasRecord(s, w)
    requires HoldsClaim(p) ==> HoldsClaim(s.workers[w].phase)
    requires InTransaction(p) ==> InTransaction(s.workers[w].phase)
    ensures Inv(c, SetPhase(s, w, p))
  {
    hide Inv, PhaseOk, WorkerOk;
    WorkerFacts(c, s, w);
    PhaseOkay(c, s, w, p);
    WorkerUpdated(c, s, w, s.workers[w].(phase := p));
  }

  lemma ClaimOk(c: Config, s: State, w: nat)
    requires At(s, w, Opened) && WorkerOk(c, s, w, s.workers[w]) && ClaimOf(s, w) !in s.db.ledger && !KeyLocked(s, w)
    ensures WorkerOk(c, s, w, s.workers[w].(phase := Claimed))
  {
    hide SafeFrom;
    var k := s.workers[w].(phase := Claimed);
    forall v | v in s.workers && v != w
      ensures !Contend(s.logs, s.workers[v], k) && !SameDraw(s.workers[v], k)
    {
      assert !SameDraw(s.workers[v], s.workers[w]);
      if HoldsClaim(s.workers[v].phase) && HasRecord(s, v) && s.workers[v].stage == k.stage {
        assert Record(s, v).eventId != Record(s, w).eventId;
      }
    }
  }

  lemma ClaimInv(c: Config, s: State, w: nat)
    requires Inv(c, s) && At(s, w, Opened) && ClaimOf(s, w) !in s.db.ledger && !KeyLocked(s, w)
    ensures Inv(c, SetPhase(s, w, Claimed))
  {
    hide Inv, WorkerOk;
    WorkerFacts(c, s, w);
    ClaimOk(c, s, w);
    WorkerUpdated(c, s, w, s.workers[w].(phase := Claimed));
  }

  // ----- moving past a record --------------------------------------------------------------

  /** The worker can move on: its record's event is claimed, dead-lettered or further down. */
  predicate Dealt(s: State, w: nat)
    requires HasRecord(s, w)
  {
    var g := s.workers[w].stage;
    Accounted(s.logs.At(g), s.dlqs.At(g), s.db.ledger, g, Record(s, w).eventId, s.workers[w].pos + 1)
  }

  lemma AdvanceOk(c: Config, s: State, w: nat, p: Phase)
    requires HasRecord(s, w) && WorkerOk(c, s, w, s.workers[w]) && Dealt(s, w)
    requires p.Ready? || (p.DeadLettered? && DocumentIn(s.dlqs.At(s.workers[w].stage), p.documentId))
    ensures WorkerOk(c, s, w, s.workers[w].(pos := s.workers[w].pos + 1, phase := p))
  {
    var k := s.workers[w];
    hide DocumentIn;
    SafePast(s.logs.At(k.stage), s.dlqs.At(k.stage), s.db.ledger, k.stage, k.pos);
    hide SafeFrom;
  }

  lemma AdvanceInv(c: Config, s: State, w: nat, p: Phase)
    requires Inv(c, s) && HasRecord(s, w) && Dealt(s, w)
    requires p.Ready? || (p.DeadLettered? && DocumentIn(s.dlqs.At(s.workers[w].stage), p.documentId))
    ensures Inv(c, Advance(s, w, p))
  {
    hide Inv, WorkerOk, Dealt, DocumentIn;
    WorkerFacts(c, s, w);
    AdvanceOk(c, s, w, p);
    WorkerUpdated(c, s, w, s.workers[w].(pos := s.workers[w].pos + 1, phase := p));
  }

  lemma SucceedInv(c: Config, s: State, w: nat)
    requires Inv(c, s) && HasRecord(s, w) && Dealt(s, w)
    ensures Inv(c, Succeed(s, w))
  {
    hide Inv, Dealt;
    AdvanceInv(c, s, w, Ready);
    CountersFree(c, Advance(s, w, Ready), Succeed(s, w).flow, s.rollbacks);
  }

  lemma FailInv(c: Config, s: State, w: nat)
    requires Inv(c, s) && HasRecord(s, w)
    ensures Inv(c, Fail(c, s, w))
  {
    hide Inv;
    PhaseInv(c, s, w, Raised);
    CountersFree(c, SetPhase(s, w, Raised), Fail(c, s, w).flow, s.rollbacks);
  }

  // ----- claiming --------------------------------------------------------------------------

  lemma NoJobNever(c: Config, s: State, w: nat)
    requires Inv(c, s) && w in s.workers
    ensures !s.workers[w].phase.NoJob?
  {
    hide Inv;
    PhaseFacts(c, s, w);
  }

  lemma ClaimingInv(c: Config, s: State, step: Step)
    requires Inv(c, s) && IsClaimingStep(step) && ClaimingEnabled(c, s, step)
    ensures Inv(c, ApplyClaiming(c, s, step))
  {
    hide Inv;
    match step
    case InsertClaim(w) => ClaimInv(c, s, w);
    case SkipDuplicate(w) => SucceedInv(c, s, w);
    case LoadJob(w) =>
      RecordFacts(c, s, w);
      assert Record(s, w).payload.documentId == Record(s, w).documentId;
      PhaseInv(c, s, w, Loaded);
    case CommitNoJob(w, acked) => NoJobNever(c, s, w);
  }

  // ----- extraction ------------------------------------------------------------------------

  lemma SourceStored(c: Config, s: State, d: Id)
    requires Inv(c, s) && d in s.db.jobs
    ensures JobOk(s.objects, s.minted, d, s.db.jobs) && TextOk(c, s.db.jobs, s.objects, d)
    ensures Has(s.db.outbox, d, Extracted) ==> TextUri(d, s.db.jobs[d].filename) in s.objects
  {
    hide EventsInv, ResultsInv, VectorsInv, BusInv, RelayInv, WorkersInv, JobOk, TextOk, OutboxMinted;
    assert JobOk(s.objects, s.minted, d, s.db.jobs);
  }

  lemma SourcesElsewhere(c: Config, s: State, d: Id, u: Uri)
    requires Inv(c, s) && d in s.db.jobs && u == TextUri(d, s.db.jobs[d].filename)
    ensures forall x :: x in s.db.jobs ==> s.db.jobs[x].storageUri != u
    ensures forall x :: x in s.db.jobs && TextUri(x, s.db.jobs[x].filename) == u ==> x == d
  {
    hide EventsInv, ResultsInv, VectorsInv, BusInv, RelayInv, WorkersInv, TextsOk, OutboxMinted;
    forall x | x in s.db.jobs
      ensures s.db.jobs[x].storageUri != u
    {
      assert JobOk(s.objects, s.minted, x, s.db.jobs);
    }
  }

  lemma ParsedOk(c: Config, s: State, w: nat)
    requires HasRecord(s, w) && RecordOk(c, s, w) && s.workers[w].stage.Ingested?
    requires Record(s, w).payload.DocumentIngested?
    requires Record(s, w).payload.storageUri in s.objects
    ensures var p := Record(s, w).payload;
            PhaseOk(c, s.db.jobs, s.objects, s.points, s.logs, s.dlqs,
                    s.workers[w].(phase := Parsed(c.extract(p.filename, p.contentType, s.objects[p.storageUri]))))
  {
  }

  /** What a worker that has parsed its document knows. */
  lemma ParsedFacts(c: Config, s: State, w: nat)
    requires Inv(c, s) && HasRecord(s, w) && (s.workers[w].phase.Parsed? || s.workers[w].phase.TextSaved?)
    ensures var d := Record(s, w).documentId;
            && s.workers[w].stage.Ingested? && d in s.db.jobs
            && s.workers[w].phase.extraction == ExtractionOf(c, s.objects, s.db.jobs[d])
            && (s.workers[w].phase.TextSaved? ==> TextUri(d, s.db.jobs[d].filename) in s.objects)
  {
    hide Inv, ExtractionOf;
    PhaseFacts(c, s, w);
  }

  lemma SavedOk(c: Config, s: State, w: nat, u: Uri, x: Extraction)
    requires HasRecord(s, w) && RecordOk(c, s, w) && s.workers[w].stage.Ingested?
    requires var d := Record(s, w).documentId;
             u == TextUri(d, s.db.jobs[d].filename) && u in s.objects && x == ExtractionOf(c, s.objects, s.db.jobs[d])
    ensures PhaseOk(c, s.db.jobs, s.objects, s.points, s.logs, s.dlqs, s.workers[w].(phase := TextSaved(x)))
  {
  }

  lemma SaveTextInv(c: Config, s: State, w: nat)
    requires Inv(c, s) && HasRecord(s, w) && s.workers[w].phase.Parsed? && Record(s, w).payload.DocumentIngested?
    ensures var p := Record(s, w).payload;
            var x := s.workers[w].phase.extraction;
            Inv(c, SetPhase(s.(objects := s.objects[TextUri(p.documentId, p.filename) := c.encode(x.text)]), w,
                            TextSaved(x)))
  {
    RecordFacts(c, s, w);
    ParsedFacts(c, s, w);
    var d := Record(s, w).documentId;
    var x := s.workers[w].phase.extraction;
    var u := TextUri(d, s.db.jobs[d].filename);
    assert Record(s, w).payload.documentId == d && Record(s, w).payload.filename == s.db.jobs[d].filename;
    var s1 := s.(objects := s.objects[u := c.encode(x.text)]);
    hide Inv, ExtractionOf, TextUri, RecordOk;
    SourcesElsewhere(c, s, d, u);
    ObjectPut(c, s, u, c.encode(x.text));
    SavedPhase(c, s1, w, u, x);
    PhaseInv(c, s1, w, TextSaved(x));
  }

  /** After the write the extraction is still what the stored bytes determine. */
  lemma SavedPhase(c: Config, s: State, w: nat, u: Uri, x: Extraction)
    requires Inv(c, s) && HasRecord(s, w) && s.workers[w].phase == Parsed(x) && Record(s, w).documentId in s.db.jobs
    requires u == TextUri(Record(s, w).documentId, s.db.jobs[Record(s, w).documentId].filename) && u in s.objects
    ensures PhaseOk(c, s.db.jobs, s.objects, s.points, s.logs, s.dlqs, s.workers[w].(phase := TextSaved(x)))
  {
    RecordFacts(c, s, w);
    ParsedFacts(c, s, w);
    hide Inv;
    SavedOk(c, s, w, u, x);
  }

  /** Raising first and committing then: the order in which a handler's transaction is shown
      to keep the invariant. */
  lemma Overwrite(c: Config, s: State, w: nat, db: Db, acked: bool)
    requires HasRecord(s, w)
    ensures var s2 := SetPhase(s, w, Raised).(db := db);
            AfterCommit(c, s, w, db, acked) == if acked then Succeed(s2, w) else Fail(c, s2, w)
  {
    var s2 := SetPhase(s, w, Raised).(db := db);
    assert s2.workers[w := s2.workers[w].(pos := s.workers[w].pos + 1, phase := Ready)]
        == s.workers[w := s.workers[w].(pos := s.workers[w].pos + 1, phase := Ready)];
    assert s2.workers[w := s2.workers[w].(phase := Raised)] == s.workers[w := s.workers[w].(phase := Raised)];
  }

  /** Once its claim is committed, a record can be passed. */
  lemma CommittedInv(c: Config, s: State, w: nat, db: Db, acked: bool)
    requires HasRecord(s, w) && ClaimOf(s, w) in db.ledger
    requires Inv(c, SetPhase(s, w, Raised).(db := db))
    ensures Inv(c, AfterCommit(c, s, w, db, acked))
  {
    hide Inv;
    Overwrite(c, s, w, db, acked);
    var s2 := SetPhase(s, w, Raised).(db := db);
    if acked {
      assert Record(s2, w) == Record(s, w) && Dealt(s2, w);
      SucceedInv(c, s2, w);
    } else {
      FailInv(c, s2, w);
    }
  }

  /** With its own transaction set aside, nobody else holds a worker's key or its drawn id. */
  lemma Alone(c: Config, s: State, w: nat)
    requires HasRecord(s, w) && WorkerOk(c, s, w, s.workers[w]) && HoldsClaim(s.workers[w].phase)
    ensures Unheld(SetPhase(s, w, Raised), ClaimOf(s, w)) && Undrawn(SetPhase(s, w, Raised), s.workers[w].draw)
    ensures ClaimOf(s, w) !in s.db.ledger && s.workers[w].draw in s.minted && s.workers[w].draw !in s.db.outbox
  {
    hide PositionOk, PhaseOk;
    var s1 := SetPhase(s, w, Raised);
    forall v | v in s1.workers && v != w
      ensures Holding(s1.logs, s1.workers[v]) ==> KeyOf(s1.logs, s1.workers[v]) != ClaimOf(s, w)
      ensures InTransaction(s1.workers[v].phase) ==> s1.workers[v].draw != s.workers[w].draw
    {
      assert !Contend(s.logs, s.workers[v], s.workers[w]) && !SameDraw(s.workers[v], s.workers[w]);
    }
  }

  lemma SetAside(c: Config, s: State, w: nat)
    requires Inv(c, s) && HasRecord(s, w) && HoldsClaim(s.workers[w].phase)
    ensures var s1 := SetPhase(s, w, Raised);
            Inv(c, s1) && Unheld(s1, ClaimOf(s, w)) && Undrawn(s1, s.workers[w].draw)
    ensures ClaimOf(s, w) !in s.db.ledger && s.workers[w].draw in s.minted && s.workers[w].draw !in s.db.outbox
  {
    hide Inv, WorkerOk, Unheld, Undrawn;
    WorkerFacts(c, s, w);
    Alone(c, s, w);
    PhaseInv(c, s, w, Raised);
  }

  lemma ExtractionEmits(c: Config, s: State, w: nat, at: int)
    requires HasRecord(s, w) && RecordOk(c, s, w) && s.workers[w].stage.Ingested? && s.workers[w].phase.TextSaved?
    requires Record(s, w).payload.DocumentIngested? && Record(s, w).payload.documentId in s.db.jobs
    requires s.workers[w].phase.extraction == ExtractionOf(c, s.objects, s.db.jobs[Record(s, w).documentId])
    requires TextUri(Record(s, w).documentId, s.db.jobs[Record(s, w).documentId].filename) in s.objects
    requires ClaimOf(s, w) !in s.db.ledger && s.workers[w].draw !in s.db.outbox
    ensures Emits(c, SetPhase(s, w, Raised), ExtractionDb(s, w, at), Record(s, w).eventId, Record(s, w).documentId,
                  Ingested,
                  s.workers[w].draw)
  {
  }

  lemma ExtractionInv(c: Config, s: State, w: nat, at: int, acked: bool)
    requires Inv(c, s) && HasRecord(s, w) && s.workers[w].phase.TextSaved? && Record(s, w).payload.DocumentIngested?
    requires Record(s, w).payload.documentId in s.db.jobs
    ensures Inv(c, AfterCommit(c, s, w, ExtractionDb(s, w, at), acked))
  {
    RecordFacts(c, s, w);
    ParsedFacts(c, s, w);
    SetAside(c, s, w);
    ExtractionEmits(c, s, w, at);
    assert ClaimOf(s, w) in ExtractionDb(s, w, at).ledger;
    hide Inv, Emits, Unheld, Undrawn, ExtractionDb, RecordOk;
    Emitted(c, SetPhase(s, w, Raised), ExtractionDb(s, w, at), Record(s, w).eventId, Record(s, w).documentId, Ingested,
            s.workers[w].draw);
    CommittedInv(c, s, w, ExtractionDb(s, w, at), acked);
  }

  lemma ExtractionStepInv(c: Config, s: State, step: Step)
    requires Inv(c, s) && IsExtractionStep(step) && ExtractionEnabled(c, s, step)
    ensures Inv(c, ApplyExtraction(c, s, step))
  {
    hide Inv;
    match step
    case Parse(w) =>
      RecordFacts(c, s, w);
      ParsedOk(c, s, w);
      hide RecordOk, PhaseOk;
      var p := Record(s, w).payload;
      PhaseInv(c, s, w, Parsed(c.extract(p.filename, p.contentType, s.objects[p.storageUri])));
    case SaveText(w) => SaveTextInv(c, s, w);
    case CommitExtraction(w, at, acked) => ExtractionInv(c, s, w, at, acked);
  }

  // ----- enrichment ------------------------------------------------------------------------

  lemma ChunkedOk(c: Config, s: State, w: nat)
    requires ValidConfig(c) && HasRecord(s, w) && RecordOk(c, s, w) && s.workers[w].stage.Extracted?
    requires Record(s, w).payload.DocumentExtracted? && Record(s, w).payload.textUri in s.objects
    requires TextOk(c, s.db.jobs, s.objects, Record(s, w).documentId)
    ensures PhaseOk(c, s.db.jobs, s.objects, s.points, s.logs, s.dlqs,
                    s.workers[w].(phase := Chunked(c.chunk(c.decode(s.objects[Record(s, w).payload.textUri])))))
  {
    var d := Record(s, w).documentId;
    assert Record(s, w).payload.textUri == TextUri(d, s.db.jobs[d].filename);
  }

  lemma ReadChunksInv(c: Config, s: State, w: nat)
    requires ValidConfig(c) && Inv(c, s) && At(s, w, Loaded) && s.workers[w].stage.Extracted?
    requires Record(s, w).payload.DocumentExtracted? && Record(s, w).payload.textUri in s.objects
    ensures Inv(c, SetPhase(s, w, Chunked(c.chunk(c.decode(s.objects[Record(s, w).payload.textUri])))))
  {
    RecordFacts(c, s, w);
    SourceStored(c, s, Record(s, w).documentId);
    ChunkedOk(c, s, w);
    hide Inv, RecordOk, PhaseOk, JobOk, TextOk, ValidConfig;
    PhaseInv(c, s, w, Chunked(c.chunk(c.decode(s.objects[Record(s, w).payload.textUri]))));
  }

  lemma EmbedInv(c: Config, s: State, w: nat, vectors: seq<Vector>)
    requires Inv(c, s) && HasRecord(s, w) && s.workers[w].phase.Chunked? && |vectors| == |s.workers[w].phase.chunks|
    ensures Inv(c, SetPhase(s, w, Upserting(s.workers[w].phase.chunks, vectors, 0)))
  {
    hide Inv;
    PhaseFacts(c, s, w);
    hide ChunksOf;
    PhaseInv(c, s, w, Upserting(s.workers[w].phase.chunks, vectors, 0));
  }

  /** What an upserting worker knows. */
  lemma UpsertingFacts(c: Config, s: State, w: nat)
    requires Inv(c, s) && HasRecord(s, w) && s.workers[w].phase.Upserting?
    ensures var d := Record(s, w).documentId;
            var p := s.workers[w].phase;
            && s.workers[w].stage.Extracted? && d in s.db.jobs
            && p.texts == ChunksOf(c, s.objects, s.db.jobs[d]) && p.done <= |p.texts| == |p.vectors|
            && Covers(s.points, d, p.done)
  {
    hide Inv, Covers, ChunksOf;
    PhaseFacts(c, s, w);
  }

  lemma UpsertInv(c: Config, s: State, w: nat, upto: nat)
    requires Inv(c, s) && HasRecord(s, w) && s.workers[w].phase.Upserting?
    requires s.workers[w].phase.done < upto <= |s.workers[w].phase.texts| == |s.workers[w].phase.vectors|
    ensures var p := s.workers[w].phase;
            Inv(c, SetPhase(s.(points := PutPoints(s.points, Record(s, w).payload.documentId, p.texts, p.vectors,
                                                   p.done, upto)),
                            w, p.(done := upto)))
  {
    RecordFacts(c, s, w);
    UpsertingFacts(c, s, w);
    var d := Record(s, w).documentId;
    var p := s.workers[w].phase;
    assert Record(s, w).payload.documentId == d;
    assert Has(s.db.outbox, d, Extracted);
    hide Inv, RecordOk, Has, ChunksOf, PutPoints, Covers;
    var s1 := s.(points := PutPoints(s.points, d, p.texts, p.vectors, p.done, upto));
    PutPointsGrow(s.points, d, p.texts, p.vectors, p.done, upto);
    PointsPut(c, s, d, p.texts, p.vectors, p.done, upto);
    UpsertedOk(c, s, w, d, upto);
    PhaseInv(c, s1, w, p.(done := upto));
  }

  lemma UpsertedOk(c: Config, s: State, w: nat, d: Id, upto: nat)
    requires HasRecord(s, w) && s.workers[w].stage.Extracted? && s.workers[w].phase.Upserting?
    requires d == Record(s, w).documentId
    requires d in s.db.jobs && s.workers[w].phase.texts == ChunksOf(c, s.objects, s.db.jobs[d])
    requires s.workers[w].phase.done <= upto <= |s.workers[w].phase.texts| == |s.workers[w].phase.vectors|
    requires Covers(s.points, d, s.workers[w].phase.done)
    ensures var p := s.workers[w].phase;
            PhaseOk(c, s.db.jobs, s.objects, PutPoints(s.points, d, p.texts, p.vectors, p.done, upto), s.logs, s.dlqs,
                    s.workers[w].(phase := p.(done := upto)))
  {
    var p := s.workers[w].phase;
    PutPointsGrow(s.points, d, p.texts, p.vectors, p.done, upto);
  }

  lemma EnrichmentEmits(c: Config, s: State, w: nat, classification: string, summary: string, at: int)
    requires HasRecord(s, w) && RecordOk(c, s, w) && s.workers[w].stage.Extracted? && s.workers[w].phase.Upserting?
    requires Record(s, w).payload.documentId in s.db.jobs
    requires s.workers[w].phase.texts == ChunksOf(c, s.objects, s.db.jobs[Record(s, w).documentId])
    requires Covers(s.points, Record(s, w).documentId, |s.workers[w].phase.texts|)
    requires ClaimOf(s, w) !in s.db.ledger && s.workers[w].draw !in s.db.outbox
    ensures Emits(c, SetPhase(s, w, Raised), EnrichmentDb(s, w, classification, summary, at), Record(s, w).eventId,
                  Record(s, w).documentId, Extracted, s.workers[w].draw)
  {
  }

  lemma EnrichmentInv(c: Config, s: State, w: nat, classification: string, summary: string, at: int, acked: bool)
    requires Inv(c, s) && HasRecord(s, w) && s.workers[w].phase.Upserting?
    requires s.workers[w].phase.done == |s.workers[w].phase.texts| && Record(s, w).payload.documentId in s.db.jobs
    ensures Inv(c, AfterCommit(c, s, w, EnrichmentDb(s, w, classification, summary, at), acked))
  {
    RecordFacts(c, s, w);
    UpsertingFacts(c, s, w);
    SetAside(c, s, w);
    EnrichmentEmits(c, s, w, classification, summary, at);
    var db := EnrichmentDb(s, w, classification, summary, at);
    assert ClaimOf(s, w) in db.ledger;
    hide Inv, Emits, Unheld, Undrawn, EnrichmentDb, RecordOk, Covers;
    Emitted(c, SetPhase(s, w, Raised), db, Record(s, w).eventId, Record(s, w).documentId, Extracted, s.workers[w].draw);
    CommittedInv(c, s, w, db, acked);
  }

  lemma EnrichedCount(c: Config, s: State, d: Id)
    requires Inv(c, s) && d in s.db.jobs && Has(s.db.outbox, d, Enriched)
    ensures s.db.jobs[d].chunkCount == Some(|ChunksOf(c, s.objects, s.db.jobs[d])|)
    ensures Covers(s.points, d, |ChunksOf(c, s.objects, s.db.jobs[d])|)
  {
    hide StoresInv, EventsInv, BusInv, RelayInv, WorkersInv, StatusesOk, ViewsOk, PointsOk, Has;
  }

  lemma ProjectionProjects(c: Config, s: State, w: nat)
    requires HasRecord(s, w) && RecordOk(c, s, w) && s.workers[w].stage.Enriched?
    requires Record(s, w).payload.DocumentEnriched?
    requires var job := s.db.jobs[Record(s, w).documentId];
             job.chunkCount == Some(|ChunksOf(c, s.objects, job)|)
    ensures Projects(SetPhase(s, w, Raised), ProjectionDb(s, w), Record(s, w).eventId, Record(s, w).documentId)
  {
  }

  lemma ProjectionInv(c: Config, s: State, w: nat, acked: bool)
    requires Inv(c, s) && At(s, w, Claimed) && s.workers[w].stage.Enriched? && Record(s, w).payload.DocumentEnriched?
    ensures Inv(c, AfterCommit(c, s, w, ProjectionDb(s, w), acked))
  {
    RecordFacts(c, s, w);
    assert Has(s.db.outbox, Record(s, w).documentId, Enriched);
    SetAside(c, s, w);
    EnrichedCount(c, s, Record(s, w).documentId);
    ProjectionProjects(c, s, w);
    var db := ProjectionDb(s, w);
    assert ClaimOf(s, w) in db.ledger;
    hide Inv, Projects, Unheld, Undrawn, ProjectionDb, RecordOk, Has, Covers;
    Projected(c, SetPhase(s, w, Raised), db, Record(s, w).eventId, Record(s, w).documentId);
    CommittedInv(c, s, w, db, acked);
  }

  lemma EnrichmentStepInv(c: Config, s: State, step: Step)
    requires ValidConfig(c) && Inv(c, s) && IsEnrichmentStep(step) && EnrichmentEnabled(c, s, step)
    ensures Inv(c, ApplyEnrichment(c, s, step))
  {
    hide Inv, ValidConfig, EnrichmentDb, ProjectionDb, PutPoints;
    match step
    case ReadChunks(w) => ReadChunksInv(c, s, w);
    case Embed(w, vectors) => EmbedInv(c, s, w, vectors);
    case Upsert(w, upto) => UpsertInv(c, s, w, upto);
    case CommitEnrichment(w, classification, summary, at, acked) => EnrichmentInv(c, s, w, classification, summary, at,
                                                                                  acked);
    case CommitProjection(w, acked) => ProjectionInv(c, s, w, acked);
  }

  // ----- failure ---------------------------------------------------------------------------

  lemma RequeueInv(c: Config, s: State, w: nat)
    requires Inv(c, s) && At(s, w, Raised) && !Exhausted(c, Record(s, w))
    ensures var g := s.workers[w].stage;
            Inv(c, Advance(s.(logs := s.logs.With(g, s.logs.At(g) + [Record(s, w).NextAttempt()])), w, Ready))
  {
    var g := s.workers[w].stage;
    var m := Record(s, w);
    RecordFacts(c, s, w);
    assert m.NextAttempt().Erased() == m.Erased();
    var log := s.logs.At(g) + [m.NextAttempt()];
    var s1 := s.(logs := s.logs.With(g, log));
    assert log[|s.logs.At(g)|].eventId == m.eventId;
    assert Record(s1, w) == m && Dealt(s1, w);
    hide Inv, RecordOk, Dealt;
    LogAppended(c, s, g, m.NextAttempt());
    AdvanceInv(c, s1, w, Ready);
  }

  lemma DeadLetterInv(c: Config, s: State, w: nat)
    requires Inv(c, s) && At(s, w, Raised) && Exhausted(c, Record(s, w))
    ensures var g := s.workers[w].stage;
            Inv(c, Advance(s.(dlqs := s.dlqs.With(g, s.dlqs.At(g) + [Record(s, w)])), w,
                           DeadLettered(Record(s, w).documentId)))
  {
    var g := s.workers[w].stage;
    var m := Record(s, w);
    RecordFacts(c, s, w);
    var dlq := s.dlqs.At(g) + [m];
    var s1 := s.(dlqs := s.dlqs.With(g, dlq));
    assert dlq[|s.dlqs.At(g)|] == m;
    assert Dealt(s1, w) && DocumentIn(s1.dlqs.At(g), m.documentId);
    hide Inv, RecordOk, Dealt, DocumentIn;
    DlqAppended(c, s, g, m);
    AdvanceInv(c, s1, w, DeadLettered(m.documentId));
  }

  lemma MarkFailedMarks(s: State, d: Id, message: string)
    requires d in s.db.jobs && (DocumentIn(s.dlqs.ingested, d) || DocumentIn(s.dlqs.extracted, d))
    ensures MarksFailed(s, MarkFailedDb(s.db, d, message), d)
  {
    hide DocumentIn;
  }

  lemma MarkFailedInv(c: Config, s: State, w: nat, message: string)
    requires Inv(c, s) && w in s.workers && s.workers[w].phase.DeadLettered? && !s.workers[w].stage.Enriched?
    ensures Inv(c, SetPhase(s.(db := MarkFailedDb(s.db, s.workers[w].phase.documentId, message)), w, Ready))
  {
    hide Inv, DocumentIn, MarksFailed;
    var d := s.workers[w].phase.documentId;
    PhaseFacts(c, s, w);
    if d in s.db.jobs {
      MarkFailedMarks(s, d, message);
      hide MarkFailedDb;
      Marked(c, s, MarkFailedDb(s.db, d, message), d);
    }
    PhaseInv(c, s.(db := MarkFailedDb(s.db, d, message)), w, Ready);
  }

  lemma FailureInv(c: Config, s: State, step: Step)
    requires Inv(c, s) && IsFailureStep(step) && FailureEnabled(c, s, step)
    ensures Inv(c, ApplyFailure(c, s, step))
  {
    hide Inv, MarkFailedDb;
    match step
    case Raise(w) => FailInv(c, s, w);
    case Requeue(w) => RequeueInv(c, s, w);
    case DeadLetterRecord(w) => DeadLetterInv(c, s, w);
    case MarkFailed(w, message) => MarkFailedInv(c, s, w, message);
    case SkipMarkFailed(w) => PhaseInv(c, s, w, Ready);
  }

  // ----- every step, every run -------------------------------------------------------------

  lemma StepInv(c: Config, s: State, step: Step)
    requires ValidConfig(c) && Inv(c, s) && Enabled(c, s, step)
    ensures Inv(c, Apply(c, s, step))
  {
    hide Inv, ValidConfig;
    hide GatewayEnabled, RelayEnabled, MembershipEnabled, ClaimingEnabled, ExtractionEnabled, EnrichmentEnabled,
      FailureEnabled;
    hide ApplyGateway, ApplyRelay, ApplyMembership, ApplyClaiming, ApplyExtraction, ApplyEnrichment, ApplyFailure;
    if IsGatewayStep(step) { GatewayInv(c, s, step); }
    else if IsRelayStep(step) { RelayStepInv(c, s, step); }
    else if IsMembershipStep(step) { MembershipInv(c, s, step); }
    else if IsClaimingStep(step) { ClaimingInv(c, s, step); }
    else if IsExtractionStep(step) { ExtractionStepInv(c, s, step); }
    else if IsEnrichmentStep(step) { EnrichmentStepInv(c, s, step); }
    else { FailureInv(c, s, step); }
  }

  /** The invariant holds along every run that starts from a state satisfying it. */
  lemma {:induction false} RunInv(c: Config, s: State, steps: seq<Step>)
    requires ValidConfig(c) && Inv(c, s) && Run(c, s, steps).Some?
    ensures Inv(c, Run(c, s, steps).value)
  {
    hide Inv, Enabled, Apply;
    if steps != [] {
      RunInv(c, s, steps[..|steps| - 1]);
      StepInv(c, Run(c, s, steps[..|steps| - 1]).value, steps[|steps| - 1]);
    }
  }

  lemma ReachableInv(c: Config, s: State)
    requires ValidConfig(c) && Reachable(c, s)
    ensures Inv(c, s)
  {
    InitInv(c);
    hide Inv;
    var steps :| Run(c, Init(), steps) == Some(s);
    RunInv(c, Init(), steps);
  }
}
