/** The inductive invariant of the pipeline.  Each part speaks only of the components it needs,
    so a step that leaves those components alone keeps the part for free. */
module Invariant {
  import opened Topics
  import opened Events
  import opened PointIds
  import opened Model

  type Jobs = map<Id, Job>
  type Outbox = map<Id, OutboxEvent>
  type Objects = map<Uri, Bytes>
  type Points = map<string, Point>
  type Log = seq<Envelope>
  type Workers = map<nat, Worker>

  // ----- what a document's stored bytes determine ------------------------------------------

  /** The extraction of a job's stored bytes. */
  function ExtractionOf(c: Config, objects: Objects, job: Job): Extraction {
    c.extract(job.filename, job.contentType, if job.storageUri in objects then objects[job.storageUri] else [])
  }

  function ChunksOf(c: Config, objects: Objects, job: Job): seq<string> {
    c.chunk(ExtractionOf(c, objects, job).text)
  }

  /** The one payload a document's event of each stage can have. */
  function ExpectedPayload(c: Config, objects: Objects, job: Job, g: Stage): Payload {
    match g
    case Ingested =>
      DocumentIngested(job.id, job.documentId, job.filename, job.contentType, job.sizeBytes, job.storageUri)
    case Extracted =>
      var x := ExtractionOf(c, objects, job);
      DocumentExtracted(job.id, job.documentId, TextUri(job.documentId, job.filename), |x.text|, x.pageCount,
                        x.extractionMethod)
    case Enriched =>
      var n := |ChunksOf(c, objects, job)|;
      DocumentEnriched(job.id, job.documentId, Some(job.filename), job.classification, job.summary, n,
                       PointNames(job.documentId, n))
  }

  // ----- jobs and objects ------------------------------------------------------------------

  predicate JobOk(objects: Objects, minted: set<Id>, d: Id, jobs: Jobs)
    requires d in jobs
  {
    && jobs[d].documentId == d && d in minted
    && jobs[d].storageUri in objects && jobs[d].storageUri.owner !in jobs
  }

  predicate JobsOk(jobs: Jobs, objects: Objects, minted: set<Id>) {
    && (forall d :: d in jobs ==> JobOk(objects, minted, d, jobs))
    && (forall u :: u in objects ==> u.owner in minted)
  }

  /** A text object, once written, holds exactly the document's extracted text. */
  predicate TextOk(c: Config, jobs: Jobs, objects: Objects, d: Id)
    requires d in jobs
  {
    var u := TextUri(d, jobs[d].filename);
    u in objects ==> objects[u] == c.encode(ExtractionOf(c, objects, jobs[d]).text)
  }

  predicate TextsOk(c: Config, jobs: Jobs, objects: Objects) {
    forall d :: d in jobs ==> TextOk(c, jobs, objects, d)
  }

  // ----- outbox ----------------------------------------------------------------------------

  predicate IsRow(outbox: Outbox, e: Id, d: Id, g: Stage) {
    e in outbox && outbox[e].payload.documentId == d && outbox[e].payload.eventType == g
  }

  ghost predicate Has(outbox: Outbox, d: Id, g: Stage) {
    exists e :: IsRow(outbox, e, d, g)
  }

  /** The service that emits the events of a stage. */
  function SourceOf(g: Stage): string {
    match g
    case Ingested => API_GATEWAY
    case Extracted => EXTRACTION_WORKER
    case Enriched => ENRICHMENT_WORKER
  }

  predicate RowOk(c: Config, jobs: Jobs, objects: Objects, row: OutboxEvent, e: Id) {
    var m := row.payload;
    && row == RowFor(m, row.createdAt) && m.eventId == e && m.attempt == 0 && m.source == SourceOf(m.eventType)
    && m.documentId in jobs
    && m.payload == ExpectedPayload(c, objects, jobs[m.documentId], m.eventType)
  }

  predicate RowsOk(c: Config, jobs: Jobs, objects: Objects, outbox: Outbox) {
    forall e :: e in outbox ==> RowOk(c, jobs, objects, outbox[e], e)
  }

  predicate OutboxMinted(outbox: Outbox, minted: set<Id>) {
    forall e :: e in outbox ==> e in minted
  }

  /** A document has at most one row of each stage. */
  ghost predicate RowsUnique(outbox: Outbox) {
    forall e, f, d, g :: IsRow(outbox, e, d, g) && IsRow(outbox, f, d, g) ==> e == f
  }

  /** All of a document's events carry one correlation id. */
  predicate OneTrace(outbox: Outbox) {
    forall e, f :: e in outbox && f in outbox && outbox[e].payload.documentId == outbox[f].payload.documentId
      ==> outbox[e].payload.correlationId == outbox[f].payload.correlationId
  }

  function Next(g: Stage): Stage {
    match g case Ingested => Extracted case Extracted => Enriched case Enriched => Enriched
  }

  // ----- ledger, views, status -------------------------------------------------------------

  predicate LedgerTyped(outbox: Outbox, ledger: set<Claim>) {
    forall cl :: cl in ledger ==> cl.eventId in outbox && outbox[cl.eventId].payload.eventType == cl.group
  }

  /** An event is claimed exactly when the event it leads to has been emitted. */
  ghost predicate Chained(outbox: Outbox, ledger: set<Claim>, views: map<Id, DocumentView>) {
    && (forall e, d, g :: IsRow(outbox, e, d, g) && !g.Enriched? ==>
          (Claim(e, g) in ledger <==> Has(outbox, d, Next(g))))
    && (forall e, d :: IsRow(outbox, e, d, Enriched) ==> (Claim(e, Enriched) in ledger <==> d in views))
  }

  /** Events exist only in chain order, and every job has its first event. */
  ghost predicate Rooted(jobs: Jobs, outbox: Outbox, views: map<Id, DocumentView>) {
    && (forall d :: d in jobs ==> Has(outbox, d, Ingested))
    && (forall d :: Has(outbox, d, Enriched) ==> Has(outbox, d, Extracted))
    && (forall d :: d in views ==> d in jobs && Has(outbox, d, Enriched))
  }

  predicate InLog(log: Log, e: Id, from: nat) {
    exists i :: from <= i < |log| && log[i].eventId == e
  }

  predicate DocumentIn(log: Log, d: Id) {
    exists i :: 0 <= i < |log| && log[i].documentId == d
  }

  ghost predicate StatusOk(outbox: Outbox, dlqs: Per<Log>, d: Id, status: Status) {
    match status
    case Pending => !Has(outbox, d, Extracted)
    case TextReady => Has(outbox, d, Extracted) && !Has(outbox, d, Enriched)
    case Completed => Has(outbox, d, Enriched)
    case Failed => DocumentIn(dlqs.ingested, d) || DocumentIn(dlqs.extracted, d)
    case Extracting => false
    case Enriching => false
  }

  ghost predicate StatusesOk(jobs: Jobs, outbox: Outbox, dlqs: Per<Log>) {
    forall d :: d in jobs ==> StatusOk(outbox, dlqs, d, jobs[d].status)
  }

  /** The results on an enriched job, and the view row when there is one. */
  ghost predicate ResultsOk(c: Config, jobs: Jobs, objects: Objects, outbox: Outbox) {
    forall d :: d in jobs && Has(outbox, d, Enriched) ==>
      jobs[d].chunkCount == Some(|ChunksOf(c, objects, jobs[d])|)
  }

  predicate ViewOk(job: Job, view: DocumentView, d: Id) {
    && view.documentId == d && view.jobId == job.id && view.filename == Some(job.filename)
    && view.classification == job.classification && view.summary == job.summary
    && job.chunkCount == Some(view.chunkCount)
  }

  predicate ViewsOk(jobs: Jobs, views: map<Id, DocumentView>) {
    forall d :: d in views ==> d in jobs && ViewOk(jobs[d], views[d], d)
  }

  // ----- vector store ----------------------------------------------------------------------

  ghost predicate PointOk(c: Config, jobs: Jobs, objects: Objects, outbox: Outbox, id: string, p: Point) {
    && id == PointName(p.documentId, p.chunkIndex)
    && p.documentId in jobs && Has(outbox, p.documentId, Extracted)
    && p.chunkIndex < |ChunksOf(c, objects, jobs[p.documentId])|
    && p.text == ChunksOf(c, objects, jobs[p.documentId])[p.chunkIndex]
  }

  ghost predicate PointsOk(c: Config, jobs: Jobs, objects: Objects, outbox: Outbox, points: Points) {
    forall id :: id in points ==> PointOk(c, jobs, objects, outbox, id, points[id])
  }

  predicate Covers(points: Points, d: Id, n: nat) {
    forall i :: 0 <= i < n ==> PointName(d, i) in points
  }

  ghost predicate Indexed(c: Config, jobs: Jobs, objects: Objects, outbox: Outbox, points: Points) {
    forall d :: d in jobs && Has(outbox, d, Enriched) ==> Covers(points, d, |ChunksOf(c, objects, jobs[d])|)
  }

  // ----- messages --------------------------------------------------------------------------

  /** A message is its outbox row's envelope, retry counter aside. */
  predicate MessageOk(outbox: Outbox, g: Stage, m: Envelope) {
    m.eventId in outbox && m.Erased() == outbox[m.eventId].payload && m.eventType == g
  }

  predicate LogOk(c: Config, outbox: Outbox, g: Stage, log: Log) {
    forall i :: 0 <= i < |log| ==> MessageOk(outbox, g, log[i]) && log[i].attempt < c.maxAttempts
  }

  predicate DlqOk(c: Config, outbox: Outbox, g: Stage, dlq: Log) {
    forall i :: 0 <= i < |dlq| ==> MessageOk(outbox, g, dlq[i]) && dlq[i].attempt == c.maxAttempts - 1
  }

  predicate MessagesOk(c: Config, outbox: Outbox, logs: Per<Log>, dlqs: Per<Log>) {
    forall g: Stage :: LogOk(c, outbox, g, logs.At(g)) && DlqOk(c, outbox, g, dlqs.At(g))
  }

  /** The event is claimed, dead-lettered, or still to be read at or after `from`. */
  predicate Accounted(log: Log, dlq: Log, ledger: set<Claim>, g: Stage, e: Id, from: nat) {
    Claim(e, g) in ledger || InLog(dlq, e, 0) || InLog(log, e, from)
  }

  /** Nothing before `from` would be lost by starting to read there. */
  predicate SafeFrom(log: Log, dlq: Log, ledger: set<Claim>, g: Stage, from: nat) {
    && from <= |log|
    && forall i :: 0 <= i < from ==> Accounted(log, dlq, ledger, g, log[i].eventId, from)
  }

  predicate OffsetsOk(logs: Per<Log>, dlqs: Per<Log>, ledger: set<Claim>, committed: Per<nat>) {
    forall g: Stage :: SafeFrom(logs.At(g), dlqs.At(g), ledger, g, committed.At(g))
  }

  predicate PositionOk(logs: Per<Log>, dlqs: Per<Log>, ledger: set<Claim>, k: Worker) {
    && SafeFrom(logs.At(k.stage), dlqs.At(k.stage), ledger, k.stage, k.pos)
    && (NeedsRecord(k.phase) ==> k.pos < |logs.At(k.stage)|)
  }

  predicate PositionsOk(logs: Per<Log>, dlqs: Per<Log>, ledger: set<Claim>, workers: Workers) {
    forall w :: w in workers ==> PositionOk(logs, dlqs, ledger, workers[w])
  }

  // ----- relays ----------------------------------------------------------------------------

  predicate Sent(outbox: Outbox, logs: Per<Log>, e: Id) {
    e in outbox && InLog(logs.At(outbox[e].payload.eventType), e, 0)
  }

  predicate BatchOk(outbox: Outbox, published: set<Id>, logs: Per<Log>, b: Batch) {
    && b.sent <= |b.ids|
    && (forall i, j :: 0 <= i < j < |b.ids| ==> b.ids[i] != b.ids[j])
    && (forall i :: 0 <= i < |b.ids| ==> b.ids[i] in outbox && b.ids[i] !in published)
    && (forall i :: 0 <= i < b.sent ==> Sent(outbox, logs, b.ids[i]))
  }

  predicate RelaysOk(outbox: Outbox, published: set<Id>, logs: Per<Log>, relays: map<nat, Batch>) {
    && (forall r :: r in relays ==> BatchOk(outbox, published, logs, relays[r]))
    && (forall e :: e in published ==> Sent(outbox, logs, e))
  }

  predicate BatchesDisjoint(relays: map<nat, Batch>) {
    forall r, q, e :: r in relays && q in relays && e in relays[r].ids && e in relays[q].ids ==> r == q
  }

  // ----- open transactions -----------------------------------------------------------------

  function RecordOf(logs: Per<Log>, k: Worker): Envelope
    requires k.pos < |logs.At(k.stage)|
  {
    logs.At(k.stage)[k.pos]
  }

  /** The worker's open transaction has inserted its record's ledger key. */
  predicate Holding(logs: Per<Log>, k: Worker) {
    HoldsClaim(k.phase) && k.pos < |logs.At(k.stage)|
  }

  function KeyOf(logs: Per<Log>, k: Worker): Claim
    requires Holding(logs, k)
  {
    Claim(RecordOf(logs, k).eventId, k.stage)
  }

  predicate Contend(logs: Per<Log>, a: Worker, b: Worker) {
    Holding(logs, a) && Holding(logs, b) && KeyOf(logs, a) == KeyOf(logs, b)
  }

  /** A held ledger key is unclaimed, and held once. */
  predicate LocksOk(logs: Per<Log>, ledger: set<Claim>, workers: Workers) {
    && (forall w :: w in workers && Holding(logs, workers[w]) ==> KeyOf(logs, workers[w]) !in ledger)
    && (forall v, w :: v in workers && w in workers && Contend(logs, workers[v], workers[w]) ==> v == w)
  }

  predicate DrawOk(outbox: Outbox, minted: set<Id>, k: Worker) {
    InTransaction(k.phase) ==> k.draw in minted && k.draw !in outbox
  }

  predicate SameDraw(a: Worker, b: Worker) {
    InTransaction(a.phase) && InTransaction(b.phase) && a.draw == b.draw
  }

  /** UUIDs drawn by open transactions are unused and different. */
  predicate DrawsOk(outbox: Outbox, minted: set<Id>, workers: Workers) {
    && (forall w :: w in workers ==> DrawOk(outbox, minted, workers[w]))
    && (forall v, w :: v in workers && w in workers && SameDraw(workers[v], workers[w]) ==> v == w)
  }

  /** What a worker in the middle of a record has established. */
  predicate PhaseOk(c: Config, jobs: Jobs, objects: Objects, points: Points, logs: Per<Log>, dlqs: Per<Log>,
        k: Worker) {
    match k.phase
    case Ready => true
    case Opened => true
    case Claimed => true
    case NoJob => false
    case Loaded => !k.stage.Enriched?
    case Parsed(x) =>
      k.stage.Ingested? && k.pos < |logs.ingested| && logs.ingested[k.pos].documentId in jobs
      && x == ExtractionOf(c, objects, jobs[logs.ingested[k.pos].documentId])
    case TextSaved(x) =>
      k.stage.Ingested? && k.pos < |logs.ingested| && logs.ingested[k.pos].documentId in jobs
      && x == ExtractionOf(c, objects, jobs[logs.ingested[k.pos].documentId])
      && TextUri(logs.ingested[k.pos].documentId, jobs[logs.ingested[k.pos].documentId].filename) in objects
    case Chunked(chunks) =>
      k.stage.Extracted? && k.pos < |logs.extracted| && logs.extracted[k.pos].documentId in jobs
      && chunks == ChunksOf(c, objects, jobs[logs.extracted[k.pos].documentId])
    case Upserting(texts, vectors, done) =>
      k.stage.Extracted? && k.pos < |logs.extracted| && logs.extracted[k.pos].documentId in jobs
      && texts == ChunksOf(c, objects, jobs[logs.extracted[k.pos].documentId])
      && done <= |texts| == |vectors| && Covers(points, logs.extracted[k.pos].documentId, done)
    case Raised => true
    case DeadLettered(d) => DocumentIn(dlqs.At(k.stage), d)
  }

  predicate PhasesOk(c: Config, jobs: Jobs, objects: Objects, points: Points, logs: Per<Log>, dlqs: Per<Log>,
        workers: Workers) {
    forall w :: w in workers ==> PhaseOk(c, jobs, objects, points, logs, dlqs, workers[w])
  }

  /** The text object of a document is in place as soon as its extracted event exists. */
  ghost predicate TextStored(jobs: Jobs, objects: Objects, outbox: Outbox) {
    forall d :: d in jobs && Has(outbox, d, Extracted) ==> TextUri(d, jobs[d].filename) in objects
  }

  // ----- the whole invariant ---------------------------------------------------------------

  ghost predicate StoresInv(c: Config, db: Db, objects: Objects, minted: set<Id>) {
    && JobsOk(db.jobs, objects, minted)
    && TextsOk(c, db.jobs, objects)
    && TextStored(db.jobs, objects, db.outbox)
    && OutboxMinted(db.outbox, minted)
  }

  ghost predicate EventsInv(c: Config, db: Db, objects: Objects) {
    && RowsOk(c, db.jobs, objects, db.outbox)
    && RowsUnique(db.outbox)
    && OneTrace(db.outbox)
    && LedgerTyped(db.outbox, db.ledger)
    && Chained(db.outbox, db.ledger, db.views)
    && Rooted(db.jobs, db.outbox, db.views)
  }

  ghost predicate ResultsInv(c: Config, db: Db, objects: Objects, dlqs: Per<Log>) {
    && StatusesOk(db.jobs, db.outbox, dlqs)
    && ResultsOk(c, db.jobs, objects, db.outbox)
    && ViewsOk(db.jobs, db.views)
  }

  ghost predicate VectorsInv(c: Config, db: Db, objects: Objects, points: Points) {
    && PointsOk(c, db.jobs, objects, db.outbox, points)
    && Indexed(c, db.jobs, objects, db.outbox, points)
  }

  predicate BusInv(c: Config, db: Db, logs: Per<Log>, dlqs: Per<Log>, committed: Per<nat>, workers: Workers) {
    && MessagesOk(c, db.outbox, logs, dlqs)
    && OffsetsOk(logs, dlqs, db.ledger, committed)
    && PositionsOk(logs, dlqs, db.ledger, workers)
  }

  predicate RelayInv(db: Db, logs: Per<Log>, relays: map<nat, Batch>) {
    && RelaysOk(db.outbox, db.published, logs, relays)
    && BatchesDisjoint(relays)
  }

  predicate WorkersInv(c: Config, s: State) {
    && LocksOk(s.logs, s.db.ledger, s.workers)
    && DrawsOk(s.db.outbox, s.minted, s.workers)
    && PhasesOk(c, s.db.jobs, s.objects, s.points, s.logs, s.dlqs, s.workers)
  }

  ghost predicate Inv(c: Config, s: State) {
    && StoresInv(c, s.db, s.objects, s.minted)
    && EventsInv(c, s.db, s.objects)
    && ResultsInv(c, s.db, s.objects, s.dlqs)
    && VectorsInv(c, s.db, s.objects, s.points)
    && BusInv(c, s.db, s.logs, s.dlqs, s.committed, s.workers)
    && RelayInv(s.db, s.logs, s.relays)
    && WorkersInv(c, s)
  }

  lemma InitInv(c: Config)
    requires ValidConfig(c)
    ensures Inv(c, Init())
  {
  }
}
