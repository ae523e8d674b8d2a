/** What an upload decides: a document whose base name a storage URI cannot carry, or whose bytes
    `extract_text` refuses, is never extracted however often it is tried. */
module Uploads {
  import opened Topics
  import opened Events
  import opened Model
  import opened Invariant
  import opened Frames
  import opened Commits
  import opened WorkSteps
  import opened History
  import Guarantees
  import ObjectKeys

  // ----- the two names of a document -------------------------------------------------------

  const TEXT_SUFFIX := ".extracted.txt"

  lemma LastSegmentOne(path: string, ch: char)
    requires ch != '/'
    ensures ObjectKeys.LastSegment(path + [ch]) == ObjectKeys.LastSegment(path) + [ch]
  {
    assert (path + [ch])[..|path|] == path;
  }

  lemma {:induction false} LastSegmentAppend(path: string, tail: string)
    requires '/' !in tail
    ensures ObjectKeys.LastSegment(path + tail) == ObjectKeys.LastSegment(path) + tail
    decreases |tail|
  {
    hide ObjectKeys.LastSegment;
    if tail == "" {
      assert path + tail == path;
    } else {
      var last := |tail| - 1;
      assert path + tail == (path + tail[..last]) + [tail[last]] && tail == tail[..last] + [tail[last]];
      LastSegmentAppend(path, tail[..last]);
      LastSegmentOne(path + tail[..last], tail[last]);
    }
  }

  /** If the upload can be read back, so can the extracted text. */
  lemma TextNameIsClean(filename: string)
    requires ObjectKeys.IsCleanName(ObjectKeys.SafeName(filename))
    ensures ObjectKeys.IsCleanName(ObjectKeys.SafeName(filename + TEXT_SUFFIX))
  {
    var segment := ObjectKeys.LastSegment(filename);
    SuffixIsClean();
    LastSegmentAppend(filename, TEXT_SUFFIX);
    SegmentIsClean(filename);
    SafeNameOf(filename + TEXT_SUFFIX, segment + TEXT_SUFFIX);
    hide ObjectKeys.SafeName, ObjectKeys.LastSegment;
  }

  lemma SuffixIsClean()
    ensures ObjectKeys.IsCleanName(TEXT_SUFFIX) && '/' !in TEXT_SUFFIX && |TEXT_SUFFIX| > 1
  {
  }

  lemma SafeNameOf(filename: string, segment: string)
    requires ObjectKeys.LastSegment(filename) == segment && segment != "" && segment != "."
    ensures ObjectKeys.SafeName(filename) == segment
  {
    hide ObjectKeys.LastSegment;
  }

  lemma SegmentIsClean(filename: string)
    requires ObjectKeys.IsCleanName(ObjectKeys.SafeName(filename))
    ensures ObjectKeys.IsCleanName(ObjectKeys.LastSegment(filename))
  {
    var segment := ObjectKeys.LastSegment(filename);
    if segment != "" && segment != "." {
      SafeNameOf(filename, segment);
    }
  }

  /** The document's base name survives the trip through a URI. */
  predicate Clean(job: Job) {
    ObjectKeys.IsCleanName(ObjectKeys.SafeName(job.filename))
  }

  /** ... and `extract_text` makes something of its bytes. */
  predicate Usable(c: Config, objects: Objects, job: Job) {
    && Clean(job)
    && c.parses(job.filename, job.contentType, if job.storageUri in objects then objects[job.storageUri] else [])
  }

  /** Extraction has read and parsed the bytes. */
  predicate HasRead(p: Phase) {
    p.Parsed? || p.TextSaved?
  }

  predicate UsableRecord(c: Config, s: State, w: nat)
    requires HasRecord(s, w)
  {
    Record(s, w).documentId in s.db.jobs ==> Usable(c, s.objects, s.db.jobs[Record(s, w).documentId])
  }

  ghost predicate UploadsInv(c: Config, s: State) {
    && (forall d :: d in s.db.jobs ==> s.db.jobs[d].storageUri.name == ObjectKeys.SafeName(s.db.jobs[d].filename))
    && (forall d :: d in s.db.jobs && Has(s.db.outbox, d, Extracted) ==> Usable(c, s.objects, s.db.jobs[d]))
    && (forall w :: HasRecord(s, w) && HasRead(s.workers[w].phase) ==> UsableRecord(c, s, w))
  }

  /** Rows of extracted events are old, or of a usable upload. */
  ghost predicate NewRowsUsable(c: Config, s: State, t: State) {
    forall e :: e in t.db.outbox && e !in s.db.outbox && t.db.outbox[e].payload.eventType == Extracted ==>
      t.db.outbox[e].payload.documentId in s.db.jobs && Usable(c, s.objects,
                                                               s.db.jobs[t.db.outbox[e].payload.documentId])
  }

  /** Consumers that have read their bytes had read them before, or are at a usable upload. */
  ghost predicate NewReadersUsable(c: Config, s: State, t: State) {
    forall w :: w in t.workers && HasRead(t.workers[w].phase) ==>
      && w in s.workers && t.workers[w].stage == s.workers[w].stage && t.workers[w].pos == s.workers[w].pos
      && HasRecord(s, w) && (HasRead(s.workers[w].phase) || UsableRecord(c, s, w))
  }

  lemma OldRows(c: Config, s: State, t: State, d: Id)
    requires Grows(s, t) && NewRowsUsable(c, s, t) && Has(t.db.outbox, d, Extracted) && d in s.db.jobs
    ensures Has(s.db.outbox, d, Extracted) || Usable(c, s.objects, s.db.jobs[d])
  {
    hide Usable, PerGrows, JobsKeepIdentity, ObjectsGrow, NewJobsAreFresh;
    var e :| IsRow(t.db.outbox, e, d, Extracted);
    if e in s.db.outbox {
      assert IsRow(s.db.outbox, e, d, Extracted);
    }
  }

  lemma SameIdentities(s: State, t: State)
    requires Grows(s, t)
    ensures forall d :: d in s.db.jobs ==> d in t.db.jobs && SameIdentity(s.db.jobs[d], t.db.jobs[d])
  {
    hide PerGrows, OutboxGrows, ObjectsGrow, NewJobsAreFresh;
  }

  lemma SameRecords(s: State, t: State, w: nat)
    requires Grows(s, t) && HasRecord(s, w) && w in t.workers
    requires t.workers[w].stage == s.workers[w].stage && t.workers[w].pos == s.workers[w].pos
    ensures HasRecord(t, w) && Record(t, w) == Record(s, w)
  {
    assert s.logs.At(s.workers[w].stage) <= t.logs.At(s.workers[w].stage);
  }

  lemma RecordHasJob(c: Config, s: State, w: nat)
    requires Inv(c, s) && HasRecord(s, w)
    ensures Record(s, w).documentId in s.db.jobs
  {
    hide Inv;
    RecordFacts(c, s, w);
  }

  lemma SourceIsStored(c: Config, s: State, d: Id)
    requires Inv(c, s) && d in s.db.jobs
    ensures s.db.jobs[d].storageUri in s.objects
  {
    hide Inv;
    Guarantees.TextsInPlace(c, s, d);
  }

  /** Name, content type and bytes of an upload never change, so neither does its being usable. */
  lemma UsableKept(c: Config, s: State, t: State, d: Id)
    requires Inv(c, s) && Grows(s, t) && d in s.db.jobs
    ensures d in t.db.jobs && Usable(c, t.objects, t.db.jobs[d]) == Usable(c, s.objects, s.db.jobs[d])
  {
    hide Inv, ObjectKeys.SafeName, ObjectKeys.IsCleanName;
    SourceIsStored(c, s, d);
    SameIdentities(s, t);
    SameObject(s, t, s.db.jobs[d].storageUri);
    hide Grows;
  }

  lemma SameObject(s: State, t: State, u: Uri)
    requires Grows(s, t) && u in s.objects
    ensures u in t.objects && t.objects[u] == s.objects[u]
  {
    hide PerGrows, OutboxGrows, JobsKeepIdentity, NewJobsAreFresh;
  }

  lemma UploadsKept(c: Config, s: State, t: State)
    requires Inv(c, s) && UploadsInv(c, s) && Grows(s, t) && t.db.jobs.Keys == s.db.jobs.Keys
    requires NewRowsUsable(c, s, t) && NewReadersUsable(c, s, t)
    ensures UploadsInv(c, t)
  {
    hide Inv, Grows, Record, Usable, ObjectKeys.SafeName;
    SameIdentities(s, t);
    forall d | d in t.db.jobs && Has(t.db.outbox, d, Extracted)
      ensures Usable(c, t.objects, t.db.jobs[d])
    {
      OldRows(c, s, t, d);
      UsableKept(c, s, t, d);
    }
    forall w | HasRecord(t, w) && HasRead(t.workers[w].phase)
      ensures UsableRecord(c, t, w)
    {
      SameRecords(s, t, w);
      RecordHasJob(c, s, w);
      assert UsableRecord(c, s, w);
      UsableKept(c, s, t, Record(s, w).documentId);
    }
  }

  // ----- step by step ----------------------------------------------------------------------

  /** Moving to any phase but a reading one. */
  lemma PhaseUploads(c: Config, s: State, s1: State, w: nat, p: Phase)
    requires ReadersPlaced(s) && w in s.workers && s1.workers == s.workers && !HasRead(p)
    ensures NewReadersUsable(c, s, SetPhase(s1, w, p))
  {
    hide UsableRecord, Record;
  }

  lemma SameRows(c: Config, s: State, t: State)
    requires t.db.outbox == s.db.outbox
    ensures NewRowsUsable(c, s, t)
  {
  }

  lemma CommitUploads(c: Config, s: State, w: nat, db: Db, acked: bool)
    requires ReadersPlaced(s) && HasRecord(s, w)
    ensures NewReadersUsable(c, s, AfterCommit(c, s, w, db, acked)) && AfterCommit(c, s, w, db, acked).db == db
  {
  }

  /** Consumers that have read their bytes stand at a record. */
  predicate ReadersPlaced(s: State) {
    forall w :: w in s.workers && HasRead(s.workers[w].phase) ==> HasRecord(s, w)
  }

  lemma ReadersArePlaced(c: Config, s: State)
    requires Inv(c, s)
    ensures ReadersPlaced(s)
  {
    hide Inv;
    forall w | w in s.workers && HasRead(s.workers[w].phase)
      ensures HasRecord(s, w)
    {
      ReaderPlaced(c, s, w);
    }
  }

  lemma ReaderPlaced(c: Config, s: State, w: nat)
    requires Inv(c, s) && w in s.workers && HasRead(s.workers[w].phase)
    ensures HasRecord(s, w)
  {
    hide Inv;
    PhaseFacts(c, s, w);
  }

  lemma RelayUploads(c: Config, s: State, step: Step)
    requires ReadersPlaced(s) && IsRelayStep(step) && RelayEnabled(c, s, step)
    ensures NewRowsUsable(c, s, ApplyRelay(c, s, step)) && NewReadersUsable(c, s, ApplyRelay(c, s, step))
  {
    hide Lockable, Bump, Usable;
  }

  lemma MembershipUploads(c: Config, s: State, step: Step)
    requires ReadersPlaced(s) && IsMembershipStep(step) && MembershipEnabled(c, s, step)
    ensures NewRowsUsable(c, s, ApplyMembership(c, s, step)) && NewReadersUsable(c, s, ApplyMembership(c, s, step))
  {
    hide Fresh, Usable;
  }

  lemma ClaimingUploads(c: Config, s: State, step: Step)
    requires ReadersPlaced(s) && IsClaimingStep(step) && ClaimingEnabled(c, s, step)
    ensures NewRowsUsable(c, s, ApplyClaiming(c, s, step)) && NewReadersUsable(c, s, ApplyClaiming(c, s, step))
  {
    hide KeyLocked, Usable, NewReadersUsable, NewRowsUsable;
    var t := ApplyClaiming(c, s, step);
    SameRows(c, s, t);
    match step
    case InsertClaim(w) => PhaseUploads(c, s, s, w, Claimed);
    case SkipDuplicate(w) => CommitUploads(c, s, w, s.db, true);
    case LoadJob(w) => PhaseUploads(c, s, s, w, t.workers[w].phase);
    case CommitNoJob(w, acked) => CommitUploads(c, s, w, WithClaim(s, w), acked);
  }

  lemma EnrichmentUploads(c: Config, s: State, step: Step)
    requires ReadersPlaced(s) && IsEnrichmentStep(step) && EnrichmentEnabled(c, s, step)
    ensures NewRowsUsable(c, s, ApplyEnrichment(c, s, step)) && NewReadersUsable(c, s, ApplyEnrichment(c, s, step))
  {
    hide PutPoints, Usable, NewReadersUsable, NewRowsUsable;
    var t := ApplyEnrichment(c, s, step);
    match step
    case ReadChunks(w) =>
      PhaseUploads(c, s, s, w, t.workers[w].phase);
      SameRows(c, s, t);
    case Embed(w, vectors) =>
      PhaseUploads(c, s, s, w, t.workers[w].phase);
      SameRows(c, s, t);
    case Upsert(w, upto) =>
      PhaseUploads(c, s, s.(points := t.points), w, t.workers[w].phase);
      SameRows(c, s, t);
    case CommitEnrichment(w, classification, summary, at, acked) =>
      hide AfterCommit;
      CommitUploads(c, s, w, EnrichmentDb(s, w, classification, summary, at), acked);
      EnrichedRow(c, s, t, w, classification, summary, at);
    case CommitProjection(w, acked) =>
      hide AfterCommit;
      CommitUploads(c, s, w, ProjectionDb(s, w), acked);
      SameRows(c, s, t);
  }

  lemma EnrichedRow(c: Config, s: State, t: State, w: nat, classification: string, summary: string, at: int)
    requires HasRecord(s, w) && s.workers[w].phase.Upserting? && Record(s, w).payload.documentId in s.db.jobs
    requires t.db == EnrichmentDb(s, w, classification, summary, at)
    ensures NewRowsUsable(c, s, t)
  {
    hide Usable;
  }

  lemma FailureUploads(c: Config, s: State, step: Step)
    requires ReadersPlaced(s) && IsFailureStep(step) && FailureEnabled(c, s, step)
    ensures NewRowsUsable(c, s, ApplyFailure(c, s, step)) && NewReadersUsable(c, s, ApplyFailure(c, s, step))
  {
    hide Usable, Truncate;
  }

  /** Reading is where the name matters. */
  lemma ParseUsable(c: Config, s: State, w: nat)
    requires Inv(c, s) && UploadsInv(c, s) && ExtractionEnabled(c, s, Parse(w))
    ensures UsableRecord(c, s, w)
  {
    hide Inv;
    RecordFacts(c, s, w);
    var d := Record(s, w).documentId;
    assert Record(s, w).payload.storageUri == s.db.jobs[d].storageUri;
  }

  lemma SavedTextUsable(c: Config, s: State, w: nat)
    requires Inv(c, s) && UploadsInv(c, s) && HasRecord(s, w) && HasRead(s.workers[w].phase)
    requires Record(s, w).payload.DocumentIngested?
    ensures var d := Record(s, w).payload.documentId;
            d in s.db.jobs && Usable(c, s.objects, s.db.jobs[d])
  {
    hide Inv, Usable, Has;
    RecordFacts(c, s, w);
    assert UsableRecord(c, s, w);
    assert Record(s, w).payload.documentId == Record(s, w).documentId;
  }

  lemma ExtractedRow(s: State, w: nat, at: int)
    requires HasRecord(s, w) && s.workers[w].phase.TextSaved? && Record(s, w).payload.DocumentIngested?
    requires Record(s, w).payload.documentId in s.db.jobs
    ensures var outbox := ExtractionDb(s, w, at).outbox;
            forall e :: e in outbox && e !in s.db.outbox ==>
              outbox[e].payload.documentId == Record(s, w).payload.documentId
  {
  }

  lemma ExtractionUploads(c: Config, s: State, step: Step)
    requires Inv(c, s) && UploadsInv(c, s) && ReadersPlaced(s) && IsExtractionStep(step)
    requires ExtractionEnabled(c, s, step)
    ensures NewRowsUsable(c, s, ApplyExtraction(c, s, step)) && NewReadersUsable(c, s, ApplyExtraction(c, s, step))
  {
    hide Inv, UploadsInv, Usable, TextUri;
    match step
    case Parse(w) => ParseUsable(c, s, w);
    case SaveText(w) =>
    case CommitExtraction(w, at, acked) =>
      SavedTextUsable(c, s, w);
      ExtractedRow(s, w, at);
      hide AfterCommit, ExtractionDb;
      CommitUploads(c, s, w, ExtractionDb(s, w, at), acked);
  }

  lemma NoRowsWithoutJob(c: Config, s: State, d: Id)
    requires Inv(c, s) && d !in s.db.jobs
    ensures forall e :: e in s.db.outbox ==> s.db.outbox[e].payload.documentId != d
  {
    hide Inv;
    Guarantees.EventFacts(c, s);
    hide RowsUnique, OneTrace, Chained, Rooted, LedgerTyped, ExpectedPayload;
    forall e | e in s.db.outbox
      ensures s.db.outbox[e].payload.documentId != d
    {
      assert RowOk(c, s.db.jobs, s.objects, s.db.outbox[e], e);
    }
  }

  lemma IngestUploads(c: Config, s: State, t: State, d: Id)
    requires Inv(c, s) && UploadsInv(c, s) && d !in s.db.jobs && t.workers == s.workers && t.logs == s.logs
    requires t.objects == s.objects
    requires d in t.db.jobs && t.db.jobs == s.db.jobs[d := t.db.jobs[d]]
    requires t.db.jobs[d].storageUri.name == ObjectKeys.SafeName(t.db.jobs[d].filename)
    requires forall e, x :: IsRow(t.db.outbox, e, x, Extracted) ==> IsRow(s.db.outbox, e, x, Extracted)
    ensures UploadsInv(c, t)
  {
    hide Inv, Usable, ObjectKeys.SafeName, Record, IsRow;
    NoExtractedRow(c, s, d);
    forall x | x in t.db.jobs && Has(t.db.outbox, x, Extracted)
      ensures Usable(c, t.objects, t.db.jobs[x])
    {
      assert Has(s.db.outbox, x, Extracted);
    }
    forall w | HasRecord(t, w) && HasRead(t.workers[w].phase)
      ensures UsableRecord(c, t, w)
    {
      SameRecord(s, t, w);
      RecordHasJob(c, s, w);
      assert HasRecord(s, w) && UsableRecord(c, s, w);
    }
  }

  lemma SameRecord(s: State, t: State, w: nat)
    requires HasRecord(t, w) && t.workers == s.workers && t.logs == s.logs
    ensures HasRecord(s, w) && Record(s, w) == Record(t, w)
  {
  }

  lemma NoExtractedRow(c: Config, s: State, d: Id)
    requires Inv(c, s) && d !in s.db.jobs
    ensures !Has(s.db.outbox, d, Extracted)
  {
    hide Inv;
    NoRowsWithoutJob(c, s, d);
  }

  lemma GatewayUploads(c: Config, s: State, step: Step)
    requires Inv(c, s) && UploadsInv(c, s) && IsGatewayStep(step) && GatewayEnabled(c, s, step)
    ensures UploadsInv(c, ApplyGateway(c, s, step))
  {
    hide Inv, Usable, ObjectKeys.SafeName;
    match step
    case SaveUpload(owner, name, data) =>
      var t := ApplyGateway(c, s, step);
      GatewayGrows(c, s, step);
      ReadersArePlaced(c, s);
      hide UploadsInv, Grows;
      UploadsKept(c, s, t);
    case Ingest(jobId, documentId, eventId, correlationId, filename, contentType, sizeBytes, storageUri, at) =>
      var ids := [jobId, documentId, eventId, correlationId];
      assert ids[1] == documentId;
      Unminted(c, s, documentId);
      hide UploadsInv, Has, Fresh;
      IngestUploads(c, s, ApplyGateway(c, s, step), documentId);
  }

  lemma StepUploads(c: Config, s: State, step: Step)
    requires ValidConfig(c) && Inv(c, s) && UploadsInv(c, s) && Enabled(c, s, step)
    ensures UploadsInv(c, Apply(c, s, step))
  {
    hide Inv, UploadsInv, Grows, NewRowsUsable, NewReadersUsable, ReadersPlaced;
    hide GatewayEnabled, RelayEnabled, MembershipEnabled, ClaimingEnabled, ExtractionEnabled, EnrichmentEnabled,
      FailureEnabled;
    hide ApplyGateway, ApplyRelay, ApplyMembership, ApplyClaiming, ApplyExtraction, ApplyEnrichment, ApplyFailure;
    ReadersArePlaced(c, s);
    StepGrows(c, s, step);
    if IsGatewayStep(step) {
      GatewayUploads(c, s, step);
    } else {
      NoNewJobs(c, s, step);
      if IsRelayStep(step) { RelayUploads(c, s, step); }
      else if IsMembershipStep(step) { MembershipUploads(c, s, step); }
      else if IsClaimingStep(step) { ClaimingUploads(c, s, step); }
      else if IsExtractionStep(step) { ExtractionUploads(c, s, step); }
      else if IsEnrichmentStep(step) { EnrichmentUploads(c, s, step); }
      else { FailureUploads(c, s, step); }
      UploadsKept(c, s, Apply(c, s, step));
    }
  }

  lemma {:induction false} RunUploads(c: Config, steps: seq<Step>)
    requires ValidConfig(c) && Run(c, Init(), steps).Some?
    ensures UploadsInv(c, Run(c, Init(), steps).value)
  {
    hide Inv, Enabled, Apply;
    if steps != [] {
      hide UploadsInv;
      var last := |steps| - 1;
      RunUploads(c, steps[..last]);
      InitInv(c);
      RunInv(c, Init(), steps[..last]);
      StepUploads(c, Run(c, Init(), steps[..last]).value, steps[last]);
    }
  }

  lemma UploadsHold(c: Config, s: State)
    requires ValidConfig(c) && Reachable(c, s)
    ensures UploadsInv(c, s)
  {
    hide Inv, Run, UploadsInv;
    var steps :| Run(c, Init(), steps) == Some(s);
    RunUploads(c, steps);
  }

  // ----- the theorems ----------------------------------------------------------------------

  /** A document whose base name holds `?`, `#`, a tab or a line break, or whose bytes `extract_text`
      refuses, is never extracted, however often it is retried; once everything is at rest its ingested
      event is dead-lettered. */
  lemma UnusableUploadsAreDeadLettered(c: Config, s: State, d: Id)
    requires ValidConfig(c) && Reachable(c, s) && d in s.db.jobs && !Usable(c, s.objects, s.db.jobs[d])
    ensures !Has(s.db.outbox, d, Extracted) && d !in s.db.views && s.db.jobs[d].status != Completed
    ensures Guarantees.AtRest(s) ==> DocumentIn(s.dlqs.At(Ingested), d)
  {
    hide Inv, Reachable, DocumentIn, Has, Usable, Guarantees.AtRest;
    UploadsHold(c, s);
    Guarantees.KnownStatus(c, s, d);
    ReachableInv(c, s);
    Guarantees.EventFacts(c, s);
    hide RowsUnique, OneTrace, Chained, LedgerTyped, RowsOk;
    if Guarantees.AtRest(s) {
      Guarantees.ChainAtRest(c, s, d);
    }
  }

  ghost predicate AllUsable(c: Config, s: State) {
    forall d :: d in s.db.jobs ==> Usable(c, s.objects, s.db.jobs[d])
  }

  /** What is in the system stays usable, as long as nothing is uploaded. */
  lemma AllStayUsable(c: Config, s: State, t: State)
    requires Inv(c, s) && AllUsable(c, s) && Grows(s, t) && t.db.jobs.Keys == s.db.jobs.Keys
    ensures AllUsable(c, t)
  {
    hide Inv, Grows, Usable;
    forall d | d in t.db.jobs
      ensures Usable(c, t.objects, t.db.jobs[d])
    {
      UsableKept(c, s, t, d);
    }
  }

  lemma RecordUris(c: Config, s: State, w: nat)
    requires Inv(c, s) && HasRecord(s, w)
    ensures Record(s, w).documentId in s.db.jobs
    ensures var m := Record(s, w);
            var job := s.db.jobs[m.documentId];
            && (m.payload.DocumentIngested? ==>
                  && m.payload.storageUri == job.storageUri && m.payload.filename == job.filename
                  && m.payload.contentType == job.contentType)
            && (m.payload.DocumentExtracted? ==> m.payload.textUri == TextUri(m.documentId, job.filename))
  {
    hide Inv, TextUri;
    RecordFacts(c, s, w);
  }

  lemma TextUriIsClean(d: Id, job: Job)
    requires Clean(job)
    ensures ObjectKeys.IsCleanName(TextUri(d, job.filename).name)
  {
    hide ObjectKeys.SafeName, ObjectKeys.IsCleanName;
    TextNameIsClean(job.filename);
  }

  /** With usable uploads, a handler can read what its message points at, and extract it. */
  lemma UsableDocumentsAreReadable(c: Config, s: State, w: nat)
    requires ValidConfig(c) && Reachable(c, s) && HasRecord(s, w) && AllUsable(c, s)
    ensures var p := Record(s, w).payload;
            && (p.DocumentIngested? ==> Extractable(c, s.objects, p))
            && (p.DocumentExtracted? ==> Readable(s.objects, p.textUri))
  {
    hide Reachable, Inv, TextUri, ObjectKeys.IsCleanName, ObjectKeys.SafeName;
    UploadsHold(c, s);
    ReachableInv(c, s);
    RecordUris(c, s, w);
    Guarantees.InputsAreStored(c, s, w);
    var d := Record(s, w).documentId;
    TextUriIsClean(d, s.db.jobs[d]);
  }
}
