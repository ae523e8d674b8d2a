/** The document pipeline as one transition system.

    A state holds everything that survives a crash (database tables, topic logs, committed
    offsets, stored objects, vector points) and everything that does not (consumer positions,
    open transactions, relay batches).  A step is one effect of one process; between any two
    steps of a process every other process may move, and any process may crash. */
module Model {
  import opened Topics
  import opened Events
  import opened PointIds
  import ObjectKeys

  type Bytes = ObjectKeys.Bytes
  type Vector = seq<real>

  /** One value for each stage. */
  datatype Per<T> = Per(ingested: T, extracted: T, enriched: T) {
    function At(g: Stage): T {
      match g
      case Ingested => ingested
      case Extracted => extracted
      case Enriched => enriched
    }

    function With(g: Stage, value: T): (r: Per<T>)
      ensures r.At(g) == value && (forall h :: h != g ==> r.At(h) == At(h))
    {
      match g
      case Ingested => this.(ingested := value)
      case Extracted => this.(extracted := value)
      case Enriched => this.(enriched := value)
    }
  }

  // ----- rows ----------------------------------------------------------------------------

  datatype Status = Pending | Extracting | TextReady | Enriching | Completed | Failed

  datatype Job = Job(id: Id, documentId: Id, filename: string, contentType: string, sizeBytes: nat,
                     storageUri: Uri, status: Status, error: Option<string>,
                     classification: Option<string>, summary: Option<string>, chunkCount: Option<nat>)

  datatype OutboxEvent = OutboxEvent(eventId: Id, aggregateId: Id, topic: Topic, key: Id,
                                     payload: Envelope, createdAt: int)

  datatype DocumentView = DocumentView(documentId: Id, jobId: Id, filename: Option<string>,
                                       classification: Option<string>, summary: Option<string>, chunkCount: nat)

  /** A row of the dedup ledger; its two columns are unique together. */
  datatype Claim = Claim(eventId: Id, group: Stage)

  /** The committed tables.  `published` holds the outbox rows whose `published_at` is set. */
  datatype Db = Db(jobs: map<Id, Job>, outbox: map<Id, OutboxEvent>, published: set<Id>,
                   ledger: set<Claim>, views: map<Id, DocumentView>)

  datatype Extraction = Extraction(text: string, pageCount: nat, extractionMethod: string)

  datatype Point = Point(documentId: Id, chunkIndex: nat, text: string, vector: Vector)

  // ----- processes -------------------------------------------------------------------------

  /** Where a consumer is with the record at its position. */
  datatype Phase =
    | Ready                                    // waiting for the record at `pos`
    | Opened                                   // transaction open, nothing claimed
    | Claimed                                  // ledger row inserted, not committed
    | NoJob                                    // ... and the document has no job row
    | Loaded                                   // ... and the job row is loaded
    | Parsed(extraction: Extraction)           // extraction: bytes read and parsed
    | TextSaved(extraction: Extraction)        // extraction: text object written
    | Chunked(chunks: seq<string>)             // enrichment: text read and split
    | Upserting(texts: seq<string>, vectors: seq<Vector>, done: nat)  // enrichment: `done` points written
    | Raised                                   // the work failed; nothing published yet
    | DeadLettered(documentId: Id)             // on the DLQ; the failure callback is still to run

  /** A running consumer.  `draw` is the UUID its next emitted event will carry. */
  datatype Worker = Worker(stage: Stage, pos: nat, draw: Id, phase: Phase)

  /** A relay's open batch: the locked rows, and how many of them are published. */
  datatype Batch = Batch(ids: seq<Id>, sent: nat)

  /** Counters of one stage: relay publishes, the worker metrics `retries_total`, `dlq_total` and
      `events_processed_total`, and the requeues and dead-letters a crash kept from being published. */
  datatype Flow = Flow(relayed: nat, retries: nat, deadLetters: nat, failed: nat, succeeded: nat,
                       lostRetries: nat, lostDeadLetters: nat)

  datatype State = State(
    db: Db,
    logs: Per<seq<Envelope>>,
    dlqs: Per<seq<Envelope>>,
    committed: Per<nat>,
    objects: map<Uri, Bytes>,
    points: map<string, Point>,
    workers: map<nat, Worker>,
    relays: map<nat, Batch>,
    minted: set<Id>,          // every UUID drawn so far
    rollbacks: map<Id, nat>,  // rolled-back relay batches, per row
    flow: Per<Flow>)

  /** The exceptions a handler can end in. */
  datatype Error =
    | AssertionError | DatabaseError | StorageError | ExtractionError | EmbeddingError | VectorStoreError | LlmError
    | ValueError

  /** Fixed parameters: settings, and the library functions the code treats as given. */
  datatype Config = Config(
    maxAttempts: nat,
    relayBatch: nat,
    upsertBatch: nat,
    parses: (string, string, Bytes) -> bool,            // whether `extract_text` returns, or raises
    extract: (string, string, Bytes) -> Extraction,     // what it returns
    encode: string -> Bytes,
    decode: Bytes -> string,
    chunk: string -> seq<string>,
    describe: (Error, Envelope) -> string)              // `repr` of what is raised for a message

  ghost predicate ValidConfig(c: Config) {
    && 1 <= c.maxAttempts && 1 <= c.relayBatch && 1 <= c.upsertBatch
    && forall text :: c.decode(c.encode(text)) == text
  }

  const API_GATEWAY := "api-gateway"
  const EXTRACTION_WORKER := "extraction-worker"
  const ENRICHMENT_WORKER := "enrichment-worker"

  function NoFlow(): Flow {
    Flow(0, 0, 0, 0, 0, 0, 0)
  }

  function Init(): State {
    State(Db(map[], map[], {}, {}, map[]), Per([], [], []), Per([], [], []), Per(0, 0, 0),
          map[], map[], map[], map[], {}, map[], Per(NoFlow(), NoFlow(), NoFlow()))
  }

  // ----- reading a state -------------------------------------------------------------------

  /** The worker exists and its record is in the log. */
  predicate HasRecord(s: State, w: nat) {
    w in s.workers && s.workers[w].pos < |s.logs.At(s.workers[w].stage)|
  }

  function Record(s: State, w: nat): Envelope
    requires HasRecord(s, w)
  {
    s.logs.At(s.workers[w].stage)[s.workers[w].pos]
  }

  predicate HoldsClaim(p: Phase) {
    p.Claimed? || p.NoJob? || p.Loaded? || p.Parsed? || p.TextSaved? || p.Chunked? || p.Upserting?
  }

  predicate InTransaction(p: Phase) {
    p.Opened? || HoldsClaim(p)
  }

  predicate NeedsRecord(p: Phase) {
    InTransaction(p) || p.Raised?
  }

  /** Another open transaction has inserted the same ledger key. */
  predicate KeyLocked(s: State, w: nat)
    requires HasRecord(s, w)
  {
    exists v :: v in s.workers && v != w && HoldsClaim(s.workers[v].phase) && HasRecord(s, v)
      && s.workers[v].stage == s.workers[w].stage && Record(s, v).eventId == Record(s, w).eventId
  }

  function TextUri(documentId: Id, filename: string): Uri {
    Uri(documentId, ObjectKeys.SafeName(filename + ".extracted.txt"))
  }

  /** The object is there and its URI leads back to it: `parse_uri` cuts awkward names short. */
  predicate Readable(objects: map<Uri, Bytes>, u: Uri) {
    u in objects && ObjectKeys.IsCleanName(u.name)
  }

  /** The bytes an ingested event points at can be read, and `extract_text` makes something of them. */
  predicate Extractable(c: Config, objects: map<Uri, Bytes>, p: Payload)
    requires p.DocumentIngested?
  {
    Readable(objects, p.storageUri) && c.parses(p.filename, p.contentType, objects[p.storageUri])
  }

  function Truncate(text: string, n: nat): string {
    if |text| <= n then text else text[..n]
  }

  // ----- steps -----------------------------------------------------------------------------

  datatype Step =
    // gateway
    | SaveUpload(owner: Id, name: string, data: Bytes)
    | Ingest(jobId: Id, documentId: Id, eventId: Id, correlationId: Id, filename: string, contentType: string,
             sizeBytes: nat, storageUri: Uri, at: int)
    // relay
    | RelayLock(r: nat, ids: seq<Id>)
    | RelayPublish(r: nat)
    | RelayCommit(r: nat)
    | RelayRollback(r: nat)
    // consumer life cycle
    | Join(w: nat, stage: Stage)
    | Crash(w: nat)
    | CommitOffset(w: nat)
    // one record
    | Deliver(w: nat, draw: Id)
    | InsertClaim(w: nat)
    | SkipDuplicate(w: nat)
    | LoadJob(w: nat)
    | CommitNoJob(w: nat, acked: bool)
    | Parse(w: nat)
    | SaveText(w: nat)
    | CommitExtraction(w: nat, at: int, acked: bool)
    | ReadChunks(w: nat)
    | Embed(w: nat, vectors: seq<Vector>)
    | Upsert(w: nat, upto: nat)
    | CommitEnrichment(w: nat, classification: string, summary: string, at: int, acked: bool)
    | CommitProjection(w: nat, acked: bool)
    | Raise(w: nat)
    | Requeue(w: nat)
    | DeadLetterRecord(w: nat)
    | MarkFailed(w: nat, message: string)
    | SkipMarkFailed(w: nat)

  // ----- effects ---------------------------------------------------------------------------

  function SetPhase(s: State, w: nat, p: Phase): State
    requires w in s.workers
  {
    s.(workers := s.workers[w := s.workers[w].(phase := p)])
  }

  /** The record is dealt with: the consumer moves past it. */
  function Advance(s: State, w: nat, p: Phase): State
    requires w in s.workers
  {
    s.(workers := s.workers[w := s.workers[w].(pos := s.workers[w].pos + 1, phase := p)])
  }

  predicate Exhausted(c: Config, m: Envelope) {
    m.attempt + 1 >= c.maxAttempts
  }

  /** The work returned normally. */
  function Succeed(s: State, w: nat): State
    requires w in s.workers
  {
    var g := s.workers[w].stage;
    var f := s.flow.At(g);
    Advance(s.(flow := s.flow.With(g, f.(succeeded := f.succeeded + 1))), w, Ready)
  }

  /** The work raised: its transaction is gone and the failure is counted. */
  function Fail(c: Config, s: State, w: nat): State
    requires HasRecord(s, w)
  {
    var g := s.workers[w].stage;
    var f := s.flow.At(g).(failed := s.flow.At(g).failed + 1);
    var counted :=
      if Exhausted(c, Record(s, w)) then f.(deadLetters := f.deadLetters + 1) else f.(retries := f.retries + 1);
    SetPhase(s.(flow := s.flow.With(g, counted)), w, Raised)
  }

  /** COMMIT took effect; the acknowledgement may still be lost, which the worker sees as a failure. */
  function AfterCommit(c: Config, s: State, w: nat, db: Db, acked: bool): State
    requires HasRecord(s, w)
  {
    if acked then Succeed(s.(db := db), w) else Fail(c, s.(db := db), w)
  }

  function RowFor(envelope: Envelope, at: int): OutboxEvent {
    OutboxEvent(envelope.eventId, envelope.documentId, TopicFor(envelope), envelope.documentId, envelope, at)
  }

  function Enqueue(db: Db, envelope: Envelope, at: int): Db {
    db.(outbox := db.outbox[envelope.eventId := RowFor(envelope, at)])
  }

  function ClaimOf(s: State, w: nat): Claim
    requires HasRecord(s, w)
  {
    Claim(Record(s, w).eventId, s.workers[w].stage)
  }

  function WithClaim(s: State, w: nat): Db
    requires HasRecord(s, w)
  {
    s.db.(ledger := s.db.ledger + {ClaimOf(s, w)})
  }

  function NewJob(jobId: Id, documentId: Id, filename: string, contentType: string, sizeBytes: nat,
        storageUri: Uri): Job {
    Job(jobId, documentId, filename, contentType, sizeBytes, storageUri, Pending, None, None, None, None)
  }

  function IngestedEvent(job: Job, eventId: Id, correlationId: Id): Envelope {
    MakeEvent(DocumentIngested(job.id, job.documentId, job.filename, job.contentType, job.sizeBytes, job.storageUri),
              API_GATEWAY, eventId, correlationId)
  }

  function ExtractedEvent(job: Job, m: Envelope, x: Extraction, draw: Id): Envelope
    requires m.payload.DocumentIngested?
  {
    MakeEvent(DocumentExtracted(job.id, m.payload.documentId, TextUri(m.payload.documentId, m.payload.filename),
                                |x.text|, x.pageCount, x.extractionMethod),
              EXTRACTION_WORKER, draw, m.correlationId)
  }

  function EnrichedEvent(job: Job, m: Envelope, n: nat, classification: string, summary: string, draw: Id): Envelope {
    MakeEvent(DocumentEnriched(job.id, m.payload.documentId, Some(job.filename), Some(classification), Some(summary),
                               n, PointNames(m.payload.documentId, n)),
              ENRICHMENT_WORKER, draw, m.correlationId)
  }

  /** The extraction transaction: claim, outgoing event, job status. */
  function ExtractionDb(s: State, w: nat, at: int): Db
    requires HasRecord(s, w) && s.workers[w].phase.TextSaved? && Record(s, w).payload.DocumentIngested?
    requires Record(s, w).payload.documentId in s.db.jobs
  {
    var m := Record(s, w);
    var d := m.payload.documentId;
    var db := WithClaim(s, w);
    Enqueue(db, ExtractedEvent(db.jobs[d], m, s.workers[w].phase.extraction, s.workers[w].draw), at)
      .(jobs := db.jobs[d := db.jobs[d].(status := TextReady)])
  }

  /** The enrichment transaction: claim, outgoing event, results and status on the job. */
  function EnrichmentDb(s: State, w: nat, classification: string, summary: string, at: int): Db
    requires HasRecord(s, w) && s.workers[w].phase.Upserting?
    requires Record(s, w).payload.documentId in s.db.jobs
  {
    var m := Record(s, w);
    var d := m.payload.documentId;
    var n := |s.workers[w].phase.texts|;
    var db := WithClaim(s, w);
    Enqueue(db, EnrichedEvent(db.jobs[d], m, n, classification, summary, s.workers[w].draw), at)
      .(jobs := db.jobs[d := db.jobs[d].(classification := Some(classification), summary := Some(summary),
                                          chunkCount := Some(n), status := Completed)])
  }

  /** The projection transaction: claim and upsert of the view row. */
  function ProjectionDb(s: State, w: nat): Db
    requires HasRecord(s, w) && Record(s, w).payload.DocumentEnriched?
  {
    var p := Record(s, w).payload;
    var db := WithClaim(s, w);
    db.(views := db.views[p.documentId := DocumentView(p.documentId, p.jobId, p.viewFilename, p.classification,
                                                        p.summary, p.chunkCount)])
  }

  /** `_mark_failed`: a missing job is left alone. */
  function MarkFailedDb(db: Db, d: Id, message: string): Db {
    if d in db.jobs then
      db.(jobs := db.jobs[d := db.jobs[d].(status := Failed, error := Some(Truncate(message, 2000)))])
    else db
  }

  /** Points `lo` to `hi` of one document written over the store. */
  function PutPoints(points: map<string, Point>, d: Id, texts: seq<string>, vectors: seq<Vector>, lo: nat, hi: nat)
    : map<string, Point>
    requires lo <= hi <= |texts| == |vectors|
    decreases hi
  {
    if lo == hi then points
    else PutPoints(points, d, texts, vectors, lo, hi - 1)
           [PointName(d, hi - 1) := Point(d, hi - 1, texts[hi - 1], vectors[hi - 1])]
  }

  function Bump(counts: map<Id, nat>, ids: seq<Id>): map<Id, nat> {
    map e | e in counts.Keys + (set i | i in ids) ::
      (if e in counts then counts[e] else 0) + (if e in ids then 1 else 0)
  }

  // ----- transitions -----------------------------------------------------------------------

  predicate Fresh(s: State, ids: seq<Id>) {
    && (forall i :: 0 <= i < |ids| ==> ids[i] !in s.minted)
    && (forall i, j :: 0 <= i < j < |ids| ==> ids[i] != ids[j])
  }

  function Mint(s: State, ids: seq<Id>): State {
    s.(minted := s.minted + (set i | i in ids))
  }

  predicate At(s: State, w: nat, p: Phase) {
    HasRecord(s, w) && s.workers[w].phase == p
  }

  predicate InBatch(relays: map<nat, Batch>, e: Id) {
    exists r :: r in relays && e in relays[r].ids
  }

  /** Rows a relay could still lock: unpublished and in no open batch. */
  function Unlocked(outbox: map<Id, OutboxEvent>, published: set<Id>, relays: map<nat, Batch>): set<Id> {
    set e | e in outbox && e !in published && !InBatch(relays, e)
  }

  predicate Lockable(c: Config, s: State, ids: seq<Id>) {
    && 0 < |ids| <= c.relayBatch
    && (forall i, j :: 0 <= i < j < |ids| ==> ids[i] != ids[j])
    && (forall i :: 0 <= i < |ids| ==> ids[i] in s.db.outbox && ids[i] !in s.db.published && !InBatch(s.relays, ids[i]))
  }

  predicate IsGatewayStep(step: Step) {
    step.SaveUpload? || step.Ingest?
  }

  predicate GatewayEnabled(c: Config, s: State, step: Step)
    requires IsGatewayStep(step)
  {
    match step
    case SaveUpload(owner, name, data) => data != [] && Fresh(s, [owner])
    case Ingest(jobId, documentId, eventId, correlationId, filename, _, _, storageUri, _) =>
      Fresh(s, [jobId, documentId, eventId, correlationId])
      && storageUri in s.objects && storageUri.owner !in s.db.jobs && storageUri.name == ObjectKeys.SafeName(filename)
  }

  function ApplyGateway(c: Config, s: State, step: Step): State
    requires IsGatewayStep(step) && GatewayEnabled(c, s, step)
  {
    match step
    case SaveUpload(owner, name, data) =>
      Mint(s, [owner]).(objects := s.objects[Uri(owner, ObjectKeys.SafeName(name)) := data])
    case Ingest(jobId, documentId, eventId, correlationId, filename, contentType, sizeBytes, storageUri, at) =>
      var job := NewJob(jobId, documentId, filename, contentType, sizeBytes, storageUri);
      Mint(s, [jobId, documentId, eventId, correlationId])
        .(db := Enqueue(s.db.(jobs := s.db.jobs[documentId := job]), IngestedEvent(job, eventId, correlationId), at))
  }

  predicate IsRelayStep(step: Step) {
    step.RelayLock? || step.RelayPublish? || step.RelayCommit? || step.RelayRollback?
  }

  predicate RelayEnabled(c: Config, s: State, step: Step)
    requires IsRelayStep(step)
  {
    match step
    case RelayLock(r, ids) => r !in s.relays && Lockable(c, s, ids)
    case RelayPublish(r) =>
      r in s.relays && s.relays[r].sent < |s.relays[r].ids| && s.relays[r].ids[s.relays[r].sent] in s.db.outbox
    case RelayCommit(r) => r in s.relays && s.relays[r].sent == |s.relays[r].ids|
    case RelayRollback(r) => r in s.relays
  }

  function ApplyRelay(c: Config, s: State, step: Step): State
    requires IsRelayStep(step) && RelayEnabled(c, s, step)
  {
    match step
    case RelayLock(r, ids) => s.(relays := s.relays[r := Batch(ids, 0)])
    case RelayPublish(r) =>
      var batch := s.relays[r];
      var row := s.db.outbox[batch.ids[batch.sent]];
      var g := row.topic.stage;
      s.(logs := s.logs.With(g, s.logs.At(g) + [row.payload]),
         relays := s.relays[r := batch.(sent := batch.sent + 1)],
         flow := s.flow.With(g, s.flow.At(g).(relayed := s.flow.At(g).relayed + 1)))
    case RelayCommit(r) =>
      s.(db := s.db.(published := s.db.published + (set e | e in s.relays[r].ids)), relays := s.relays - {r})
    case RelayRollback(r) =>
      s.(rollbacks := Bump(s.rollbacks, s.relays[r].ids), relays := s.relays - {r})
  }

  predicate IsMembershipStep(step: Step) {
    step.Join? || step.Crash? || step.CommitOffset? || step.Deliver?
  }

  predicate MembershipEnabled(c: Config, s: State, step: Step)
    requires IsMembershipStep(step)
  {
    match step
    case Join(w, _) => w !in s.workers
    case Crash(w) => w in s.workers
    case CommitOffset(w) => w in s.workers && s.workers[w].phase.Ready?
    case Deliver(w, draw) => At(s, w, Ready) && Fresh(s, [draw])
  }

  function ApplyMembership(c: Config, s: State, step: Step): State
    requires IsMembershipStep(step) && MembershipEnabled(c, s, step)
  {
    match step
    case Join(w, g) => s.(workers := s.workers[w := Worker(g, s.committed.At(g), "", Ready)])
    case Crash(w) =>
      var g := s.workers[w].stage;
      var f := s.flow.At(g);
      var lost :=
        if At(s, w, Raised) then
          if Exhausted(c, Record(s, w)) then f.(lostDeadLetters := f.lostDeadLetters + 1)
          else f.(lostRetries := f.lostRetries + 1)
        else f;
      s.(workers := s.workers - {w}, flow := s.flow.With(g, lost))
    case CommitOffset(w) => s.(committed := s.committed.With(s.workers[w].stage, s.workers[w].pos))
    case Deliver(w, draw) =>
      Mint(s, [draw]).(workers := s.workers[w := s.workers[w].(draw := draw, phase := Opened)])
  }

  predicate IsClaimingStep(step: Step) {
    step.InsertClaim? || step.SkipDuplicate? || step.LoadJob? || step.CommitNoJob?
  }

  predicate ClaimingEnabled(c: Config, s: State, step: Step)
    requires IsClaimingStep(step)
  {
    match step
    case InsertClaim(w) =>
      At(s, w, Opened) && Record(s, w).payload.EventType() == s.workers[w].stage
      && ClaimOf(s, w) !in s.db.ledger && !KeyLocked(s, w)
    case SkipDuplicate(w) =>
      At(s, w, Opened) && Record(s, w).payload.EventType() == s.workers[w].stage && ClaimOf(s, w) in s.db.ledger
    case LoadJob(w) => At(s, w, Claimed) && !s.workers[w].stage.Enriched?
    case CommitNoJob(w, _) => At(s, w, NoJob)
  }

  function ApplyClaiming(c: Config, s: State, step: Step): State
    requires IsClaimingStep(step) && ClaimingEnabled(c, s, step)
  {
    match step
    case InsertClaim(w) => SetPhase(s, w, Claimed)
    case SkipDuplicate(w) => Succeed(s, w)
    case LoadJob(w) => SetPhase(s, w, if Record(s, w).payload.documentId in s.db.jobs then Loaded else NoJob)
    case CommitNoJob(w, acked) => AfterCommit(c, s, w, WithClaim(s, w), acked)
  }

  predicate IsExtractionStep(step: Step) {
    step.Parse? || step.SaveText? || step.CommitExtraction?
  }

  predicate ExtractionEnabled(c: Config, s: State, step: Step)
    requires IsExtractionStep(step)
  {
    match step
    case Parse(w) =>
      At(s, w, Loaded) && s.workers[w].stage.Ingested? && Record(s, w).payload.DocumentIngested?
      && Extractable(c, s.objects, Record(s, w).payload)
    case SaveText(w) =>
      HasRecord(s, w) && s.workers[w].phase.Parsed? && Record(s, w).payload.DocumentIngested?
    case CommitExtraction(w, _, _) =>
      HasRecord(s, w) && s.workers[w].phase.TextSaved? && Record(s, w).payload.DocumentIngested?
      && Record(s, w).payload.documentId in s.db.jobs
  }

  function ApplyExtraction(c: Config, s: State, step: Step): State
    requires IsExtractionStep(step) && ExtractionEnabled(c, s, step)
  {
    match step
    case Parse(w) =>
      var p := Record(s, w).payload;
      SetPhase(s, w, Parsed(c.extract(p.filename, p.contentType, s.objects[p.storageUri])))
    case SaveText(w) =>
      var p := Record(s, w).payload;
      var x := s.workers[w].phase.extraction;
      SetPhase(s.(objects := s.objects[TextUri(p.documentId, p.filename) := c.encode(x.text)]), w, TextSaved(x))
    case CommitExtraction(w, at, acked) => AfterCommit(c, s, w, ExtractionDb(s, w, at), acked)
  }

  predicate IsEnrichmentStep(step: Step) {
    step.ReadChunks? || step.Embed? || step.Upsert? || step.CommitEnrichment? || step.CommitProjection?
  }

  predicate EnrichmentEnabled(c: Config, s: State, step: Step)
    requires IsEnrichmentStep(step)
  {
    match step
    case ReadChunks(w) =>
      At(s, w, Loaded) && s.workers[w].stage.Extracted? && Record(s, w).payload.DocumentExtracted?
      && Readable(s.objects, Record(s, w).payload.textUri)
    case Embed(w, vectors) =>
      HasRecord(s, w) && s.workers[w].phase.Chunked? && |vectors| == |s.workers[w].phase.chunks|
    case Upsert(w, upto) =>
      HasRecord(s, w) && s.workers[w].phase.Upserting?
      && s.workers[w].phase.done < upto <= |s.workers[w].phase.texts| == |s.workers[w].phase.vectors|
      && upto <= s.workers[w].phase.done + c.upsertBatch
    case CommitEnrichment(w, _, _, _, _) =>
      HasRecord(s, w) && s.workers[w].phase.Upserting? && s.workers[w].phase.done == |s.workers[w].phase.texts|
      && Record(s, w).payload.documentId in s.db.jobs
    case CommitProjection(w, _) =>
      At(s, w, Claimed) && s.workers[w].stage.Enriched? && Record(s, w).payload.DocumentEnriched?
  }

  function ApplyEnrichment(c: Config, s: State, step: Step): State
    requires IsEnrichmentStep(step) && EnrichmentEnabled(c, s, step)
  {
    match step
    case ReadChunks(w) => SetPhase(s, w, Chunked(c.chunk(c.decode(s.objects[Record(s, w).payload.textUri]))))
    case Embed(w, vectors) => SetPhase(s, w, Upserting(s.workers[w].phase.chunks, vectors, 0))
    case Upsert(w, upto) =>
      var p := s.workers[w].phase;
      SetPhase(s.(points := PutPoints(s.points, Record(s, w).payload.documentId, p.texts, p.vectors, p.done, upto)),
               w, p.(done := upto))
    case CommitEnrichment(w, classification, summary, at, acked) =>
      AfterCommit(c, s, w, EnrichmentDb(s, w, classification, summary, at), acked)
    case CommitProjection(w, acked) => AfterCommit(c, s, w, ProjectionDb(s, w), acked)
  }

  predicate IsFailureStep(step: Step) {
    step.Raise? || step.Requeue? || step.DeadLetterRecord? || step.MarkFailed? || step.SkipMarkFailed?
  }

  predicate FailureEnabled(c: Config, s: State, step: Step)
    requires IsFailureStep(step)
  {
    match step
    case Raise(w) => HasRecord(s, w) && InTransaction(s.workers[w].phase)
    case Requeue(w) => At(s, w, Raised) && !Exhausted(c, Record(s, w))
    case DeadLetterRecord(w) => At(s, w, Raised) && Exhausted(c, Record(s, w))
    case MarkFailed(w, _) =>
      w in s.workers && s.workers[w].phase.DeadLettered? && !s.workers[w].stage.Enriched?
    case SkipMarkFailed(w) => w in s.workers && s.workers[w].phase.DeadLettered?
  }

  function ApplyFailure(c: Config, s: State, step: Step): State
    requires IsFailureStep(step) && FailureEnabled(c, s, step)
  {
    match step
    case Raise(w) => Fail(c, s, w)
    case Requeue(w) =>
      var g := s.workers[w].stage;
      Advance(s.(logs := s.logs.With(g, s.logs.At(g) + [Record(s, w).NextAttempt()])), w, Ready)
    case DeadLetterRecord(w) =>
      var g := s.workers[w].stage;
      Advance(s.(dlqs := s.dlqs.With(g, s.dlqs.At(g) + [Record(s, w)])), w, DeadLettered(Record(s, w).documentId))
    case MarkFailed(w, message) => SetPhase(s.(db := MarkFailedDb(s.db, s.workers[w].phase.documentId, message)), w,
                                            Ready)
    case SkipMarkFailed(w) => SetPhase(s, w, Ready)
  }

  predicate Enabled(c: Config, s: State, step: Step) {
    if IsGatewayStep(step) then GatewayEnabled(c, s, step)
    else if IsRelayStep(step) then RelayEnabled(c, s, step)
    else if IsMembershipStep(step) then MembershipEnabled(c, s, step)
    else if IsClaimingStep(step) then ClaimingEnabled(c, s, step)
    else if IsExtractionStep(step) then ExtractionEnabled(c, s, step)
    else if IsEnrichmentStep(step) then EnrichmentEnabled(c, s, step)
    else FailureEnabled(c, s, step)
  }

  function Apply(c: Config, s: State, step: Step): State
    requires Enabled(c, s, step)
  {
    if IsGatewayStep(step) then ApplyGateway(c, s, step)
    else if IsRelayStep(step) then ApplyRelay(c, s, step)
    else if IsMembershipStep(step) then ApplyMembership(c, s, step)
    else if IsClaimingStep(step) then ApplyClaiming(c, s, step)
    else if IsExtractionStep(step) then ApplyExtraction(c, s, step)
    else if IsEnrichmentStep(step) then ApplyEnrichment(c, s, step)
    else ApplyFailure(c, s, step)
  }

  // ----- runs --------------------------------------------------------------------------------

  /** The state a run of steps ends in; nothing if some step is not enabled when its turn comes. */
  function Run(c: Config, s: State, steps: seq<Step>): Option<State> {
    if steps == [] then Some(s)
    else
      var before := Run(c, s, steps[..|steps| - 1]);
      if before.Some? && Enabled(c, before.value, steps[|steps| - 1])
      then Some(Apply(c, before.value, steps[|steps| - 1]))
      else None
  }

  ghost predicate Reachable(c: Config, s: State) {
    exists steps :: Run(c, Init(), steps) == Some(s)
  }
}
