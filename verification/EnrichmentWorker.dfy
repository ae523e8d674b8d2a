/** The enrichment worker's handler: split the stored text, embed it, upsert the vectors, ask the LLM,
    emit `documents.enriched` through the outbox and complete the job. */
module EnrichmentWorker {
  import opened Topics
  import opened Events
  import opened PointIds
  import opened Model
  import opened Replay
  import opened Sessions
  import opened Invariant
  import opened Commits
  import opened History
  import opened Infrastructure
  import opened Tallies
  import opened Handling
  import opened VectorStore
  import opened Embedding
  import opened LanguageModel

  // ----- the protocol steps the handler takes ---------------------------------------------------

  lemma ReadEnabled(c: Config, s: State, w: nat)
    requires At(s, w, Loaded) && s.workers[w].stage.Extracted? && Record(s, w).payload.DocumentExtracted?
    requires Readable(s.objects, Record(s, w).payload.textUri)
    ensures Enabled(c, s, ReadChunks(w))
    ensures Apply(c, s, ReadChunks(w)) ==
              SetPhase(s, w, Chunked(c.chunk(c.decode(s.objects[Record(s, w).payload.textUri]))))
  {
  }

  /** The writes the handler has staged by its end. */
  function EnrichmentWrites(m: Envelope, job: Job, n: nat, classification: string, summary: string, draw: Id, at: int)
    : seq<Write>
  {
    var d := m.payload.documentId;
    [InsertClaimRow(Claim(m.eventId, Extracted)), SetStatus(d, Enriching),
     InsertOutbox(RowFor(EnrichedEvent(job, m, n, classification, summary, draw), at)),
     SetResults(d, classification, summary, n), SetStatus(d, Completed)]
  }

  /** What the five writes come to. */
  lemma FiveInAll(db: Db, claim: Claim, d: Id, row: OutboxEvent, classification: string, summary: string, n: nat)
    requires d in db.jobs
    ensures ApplyWrites(db, [InsertClaimRow(claim), SetStatus(d, Enriching), InsertOutbox(row),
                             SetResults(d, classification, summary, n), SetStatus(d, Completed)])
         == db.(ledger := db.ledger + {claim}, outbox := db.outbox[row.eventId := row],
                jobs := db.jobs[d := db.jobs[d].(classification := Some(classification), summary := Some(summary),
                                                  chunkCount := Some(n), status := Completed)])
  {
    var early := db.jobs[d].(status := Enriching);
    var later := early.(classification := Some(classification), summary := Some(summary), chunkCount := Some(n));
    FiveWrites(db, InsertClaimRow(claim), SetStatus(d, Enriching), InsertOutbox(row),
               SetResults(d, classification, summary, n),
               SetStatus(d, Completed));
    FourWrites(db, InsertClaimRow(claim), SetStatus(d, Enriching), InsertOutbox(row), SetResults(d, classification,
          summary, n));
    assert db.jobs[d := early][d := later][d := later.(status := Completed)]
        == db.jobs[d := later.(status := Completed)];
  }

  lemma EnrichmentDbIs(s: State, w: nat, k: Worker, m: Envelope, job: Job, texts: seq<string>, vectors: seq<Vector>,
                       classification: string, summary: string, at: int)
    requires Busy(s, w, k, m) && k.phase == Upserting(texts, vectors, |texts|) && k.stage.Extracted?
    requires Is(s, m.payload.documentId, job)
    ensures ApplyWrites(s.db, EnrichmentWrites(m, job, |texts|, classification, summary, k.draw, at))
         == EnrichmentDb(s, w, classification, summary, at)
  {
    hide ApplyWrites;
    FiveInAll(s.db, Claim(m.eventId, Extracted), m.payload.documentId,
              RowFor(EnrichedEvent(job, m, |texts|, classification, summary, k.draw), at), classification, summary,
                    |texts|);
    assert EnrichedEvent(job, m, |texts|, classification, summary, k.draw)
        == EnrichedEvent(s.db.jobs[m.payload.documentId], m, |texts|, classification, summary, k.draw);
  }

  lemma CommitsEnabled(c: Config, s: State, w: nat, classification: string, summary: string, at: int, acked: bool)
    requires HasRecord(s, w) && s.workers[w].phase.Upserting? && s.workers[w].phase.done == |s.workers[w].phase.texts|
    requires Record(s, w).payload.documentId in s.db.jobs
    ensures Enabled(c, s, CommitEnrichment(w, classification, summary, at, acked))
    ensures Apply(c, s, CommitEnrichment(w, classification, summary, at, acked))
         == AfterCommit(c, s, w, EnrichmentDb(s, w, classification, summary, at), acked)
  {
    hide EnrichmentDb, AfterCommit;
  }

  /** Together they are the protocol's enrichment transaction. */
  lemma EnrichmentReady(c: Config, s: State, w: nat, k: Worker, m: Envelope, job: Job, texts: seq<string>,
        vectors: seq<Vector>,
                        classification: string, summary: string, at: int)
    requires Busy(s, w, k, m) && k.phase == Upserting(texts, vectors, |texts|) && k.stage.Extracted?
    requires Is(s, m.payload.documentId, job)
    ensures CommitReady(c, s, w, EnrichmentWrites(m, job, |texts|, classification, summary, k.draw, at),
                        CommitEnrichment(w, classification, summary, at, true))
  {
    EnrichmentDbIs(s, w, k, m, job, texts, vectors, classification, summary, at);
    assert ClaimOf(s, w) in EnrichmentDb(s, w, classification, summary, at).ledger;
    hide Enabled, Apply, ApplyWrites, EnrichmentWrites, EnrichmentDb, AfterCommit, CommitReady;
    CommitsEnabled(c, s, w, classification, summary, at, true);
    CommitsEnabled(c, s, w, classification, summary, at, false);
    ReadyEitherWay(c, s, w, EnrichmentWrites(m, job, |texts|, classification, summary, k.draw, at),
                   CommitEnrichment(w, classification, summary, at, true), EnrichmentDb(s, w, classification, summary,
                         at));
  }

  /** The chunks of the text an extracted event points at. */
  function ChunksFor(c: Config, objects: Objects, p: Payload): seq<string>
    requires p.DocumentExtracted? && p.textUri in objects
  {
    c.chunk(c.decode(objects[p.textUri]))
  }

  /** The text read earlier is still the stored one, and the job loaded earlier has the same id and name. */
  lemma SameWrites(c: Config, s: State, t: State, m: Envelope, job: Job, classification: string, summary: string,
        draw: Id, at: int)
    requires m.payload.DocumentExtracted? && m.payload.textUri in s.objects && Grows(s, t)
    requires Is(t, m.payload.documentId, job)
    ensures m.payload.documentId in t.db.jobs && m.payload.textUri in t.objects
    ensures EnrichmentWrites(m, job, |ChunksFor(c, s.objects, m.payload)|, classification, summary, draw, at)
         == EnrichmentWrites(m, t.db.jobs[m.payload.documentId], |ChunksFor(c, t.objects, m.payload)|,
                             classification, summary, draw, at)
  {
    hide JobsKeepIdentity, OutboxGrows, NewJobsAreFresh, PointNames;
  }

  lemma StillStored(s: State, t: State, u: Uri)
    requires Grows(s, t) && u in s.objects
    ensures u in t.objects && t.objects[u] == s.objects[u]
  {
    hide JobsKeepIdentity, OutboxGrows, NewJobsAreFresh;
  }

  /** Why an embedding can fail when no other call does: a batch that was refused, or limited twice,
      or a reply with too few vectors. */
  ghost predicate EmbeddingFails(provider: Provider, n: nat, chunks: seq<string>, error: Error) {
    var vectors := Whole(provider, n, chunks).vectors;
    || (error == EmbeddingError && vectors.None?)
    || (error == ValueError && vectors.Some? && |vectors.value| != |chunks|)
  }

  lemma PatienceEmbeds(provider: Provider, n: nat, chunks: seq<string>, error: Error)
    requires Complete(provider) && Patient(provider)
    ensures !EmbeddingFails(provider, n, chunks, error)
  {
    hide Whole, Complete, Patient;
    CallsAreBounded(provider, n, chunks);
    OneVectorEach(provider, n, chunks);
  }

  /** Why a handler can fail when no call does and nothing obstructs it: what the providers answered
      about the stored text, counting the embedder's calls from `n` and the LLM's from `q`. */
  ghost predicate ProvidersFail(c: Config, objects: Objects, p: Payload, provider: Provider, n: nat, oracle: Oracle,
                                q: nat, error: Error) {
    && p.DocumentExtracted? && p.textUri in objects
    && (EmbeddingFails(provider, n, c.chunk(c.decode(objects[p.textUri])), error)
        || (error == LlmError && oracle(q, c.decode(objects[p.textUri])).None?))
  }

  /** The LLM was asked about the stored text: a refusal ends the handler, an answer is what it stages. */
  ghost predicate Heeds(c: Config, objects: Objects, p: Payload, oracle: Oracle, q: nat, outcome: Outcome, step: Step) {
    && p.DocumentExtracted? && p.textUri in objects
    && match oracle(q, c.decode(objects[p.textUri])) {
         case None => outcome == Threw(LlmError)
         case Some(answer) =>
           && outcome.Returned? && step.CommitEnrichment?
           && step.classification == answer.classification && step.summary == answer.summary
       }
  }

  /** The document's job and its enriched event `e` hold this answer, each part in its own field. */
  predicate HoldsAnswer(db: Db, d: Id, e: Id, answer: EnrichmentResult) {
    && d in db.jobs && db.jobs[d].status == Completed
    && db.jobs[d].classification == Some(answer.classification) && db.jobs[d].summary == Some(answer.summary)
    && e in db.outbox
    && var p := db.outbox[e].payload.payload;
       && p.DocumentEnriched? && p.documentId == d
       && p.classification == Some(answer.classification) && p.summary == Some(answer.summary)
  }

  /** Once the five writes are committed, the answer is where it belongs. */
  lemma AnswerIsHeld(db: Db, m: Envelope, n: nat, answer: EnrichmentResult, draw: Id, at: int)
    requires m.payload.documentId in db.jobs
    ensures var writes := EnrichmentWrites(m, db.jobs[m.payload.documentId], n, answer.classification, answer.summary,
                                           draw, at);
            HoldsAnswer(ApplyWrites(db, writes), m.payload.documentId, draw, answer)
  {
    hide ApplyWrites, PointNames;
    var d := m.payload.documentId;
    FiveInAll(db, Claim(m.eventId, Extracted), d,
              RowFor(EnrichedEvent(db.jobs[d], m, n, answer.classification, answer.summary, draw), at),
              answer.classification, answer.summary, n);
  }

  // ----- the handler ----------------------------------------------------------------------------

  /** Processes one extracted event.  The LLM is asked once, about the stored text, by every handler that
      enriches, and its answer is what is staged, each part in its place.  With an embedder that answers
      every text it never fails on a length mismatch; left alone with providers that get every batch
      through and never refuse it returns. */
  method HandleExtracted(cluster: Cluster, embedder: OpenAIEmbedder, llm: AnthropicLLM, w: nat, k: Worker, m: Envelope,
        session: Session)
    returns (outcome: Outcome, step: Step)
    requires cluster.Valid() && Busy(cluster.Now(), w, k, m) && k.phase == Opened && k.stage == Extracted
    requires session.Valid() && session.staged == []
    modifies cluster, session, embedder, llm
    ensures cluster.Valid() && Quietly(cluster.c, cluster.calm, w, old(cluster.history), cluster.history)
    ensures Grows(old(cluster.Now()), cluster.Now())
    ensures AtWork(cluster.Now(), w, k, m)
    ensures Complete(embedder.provider) ==> outcome != Threw(ValueError)
    ensures outcome.Returned? ==> CommitReady(cluster.c, cluster.Now(), w, session.staged, step)
    ensures outcome.Returned? ==> step.SkipDuplicate? || step.CommitNoJob? || step.CommitEnrichment?
    ensures outcome.Returned? && step.CommitEnrichment? ==>
              && m.payload.DocumentExtracted? && m.payload.documentId in cluster.db.jobs
              && m.payload.textUri in cluster.objects
              && session.staged == EnrichmentWrites(m, cluster.db.jobs[m.payload.documentId],
                                                    |ChunksFor(cluster.c, cluster.objects, m.payload)|,
                                                    step.classification, step.summary, k.draw, step.at)
    ensures old(llm.calls) <= llm.calls <= old(llm.calls) + 1
    ensures outcome.Returned? ==> (step.CommitEnrichment? <==> llm.calls == old(llm.calls) + 1)
    ensures llm.calls == old(llm.calls) + 1 ==>
              Heeds(cluster.c, cluster.objects, m.payload, llm.oracle, old(llm.calls), outcome, step)
    ensures cluster.calm && outcome.Threw? ==>
              || Provokes(cluster.c, old(cluster.Now()), w, outcome.error)
              || ProvidersFail(cluster.c, old(cluster.objects), m.payload, embedder.provider, old(embedder.calls),
                               llm.oracle, old(llm.calls), outcome.error)
    ensures cluster.calm && !Obstructed(cluster.c, old(cluster.Now()), w)
            && Complete(embedder.provider) && Patient(embedder.provider) && Willing(llm.oracle) ==>
              outcome.Returned?
    ensures cluster.calm && outcome.Returned? ==>
              var claimed := Claim(m.eventId, Extracted) in old(cluster.db.ledger);
              var known := m.payload.documentId in old(cluster.db.jobs);
              (step.SkipDuplicate? <==> claimed) && (step.CommitNoJob? <==> !claimed && !known)
  {
    hide Inv, Run, TallyBy, Foreign, Enabled, Apply, Grows, Keeps, Busy, Is, CommitReady, AtWork, EnrichmentWrites,
      Complete, Patient, EmbeddingFails, Heeds, KeyLocked;
    ghost var start := cluster.Now();
    BusyFacts(start, w, k, m);
    step := SkipDuplicate(w);
    StillAtWork(start, w, k, m, Opened) by { assert k.(phase := Opened) == k; }
    GrowsItself(start);
    if !m.payload.DocumentExtracted? {
      return Threw(AssertionError), step;
    }
    var first;
    outcome, first := ClaimEvent(cluster, w, k, m, session);
    if outcome.Threw? || !first {
      StillAtWork(cluster.Now(), w, k, m, Opened) by { assert k.(phase := Opened) == k; }
      return;
    }
    ghost var claimed := cluster.Now();
    var row;
    outcome, row := LoadJobRow(cluster, w, k.(phase := Claimed), m);
    GrowsTrans(start, claimed, cluster.Now());
    if outcome.Threw? {
      StillAtWork(cluster.Now(), w, k, m, Claimed);
      return;
    }
    if row.None? {
      BusyFacts(cluster.Now(), w, k.(phase := NoJob), m);
      NoJobReady(cluster.c, cluster.Now(), w);
      StillAtWork(cluster.Now(), w, k, m, NoJob);
      step := CommitNoJob(w, true);
      return;
    }
    session.Add(SetStatus(m.payload.documentId, Enriching));
    ghost var loaded := cluster.Now();
    ghost var n := embedder.calls;
    outcome, step := EnrichText(cluster, embedder, llm, w, k, m, row.value, session);
    GrowsTrans(start, loaded, cluster.Now());
    if outcome.Threw? && Complete(embedder.provider) && Patient(embedder.provider)
       && m.payload.textUri in loaded.objects {
      PatienceEmbeds(embedder.provider, n, ChunksFor(cluster.c, loaded.objects, m.payload), outcome.error);
    }
  }

  /** Past the guard, with the job at hand. */
  method EnrichText(cluster: Cluster, embedder: OpenAIEmbedder, llm: AnthropicLLM, w: nat, k: Worker, m: Envelope,
        job: Job, session: Session)
    returns (outcome: Outcome, step: Step)
    requires cluster.Valid() && Busy(cluster.Now(), w, k.(phase := Loaded), m) && k.stage == Extracted
    requires m.payload.DocumentExtracted? && Is(cluster.Now(), m.payload.documentId, job) && session.Valid()
    requires session.staged == [InsertClaimRow(Claim(m.eventId, Extracted)), SetStatus(m.payload.documentId, Enriching)]
    modifies cluster, session, embedder, llm
    ensures cluster.Valid() && Quietly(cluster.c, cluster.calm, w, old(cluster.history), cluster.history)
    ensures Grows(old(cluster.Now()), cluster.Now())
    ensures AtWork(cluster.Now(), w, k, m)
    ensures Complete(embedder.provider) ==> outcome != Threw(ValueError)
    ensures outcome.Returned? ==>
              CommitReady(cluster.c, cluster.Now(), w, session.staged, step) && step.CommitEnrichment?
    ensures outcome.Returned? ==>
              && m.payload.documentId in cluster.db.jobs && m.payload.textUri in cluster.objects
              && session.staged == EnrichmentWrites(m, cluster.db.jobs[m.payload.documentId],
                                                    |ChunksFor(cluster.c, cluster.objects, m.payload)|,
                                                    step.classification, step.summary, k.draw, step.at)
    ensures old(llm.calls) <= llm.calls <= old(llm.calls) + 1
    ensures outcome.Returned? ==> llm.calls == old(llm.calls) + 1
    ensures llm.calls == old(llm.calls) + 1 ==>
              Heeds(cluster.c, cluster.objects, m.payload, llm.oracle, old(llm.calls), outcome, step)
    ensures cluster.calm && outcome.Threw? ==>
              || (outcome.error == StorageError && !Readable(old(cluster.objects), m.payload.textUri))
              || ProvidersFail(cluster.c, old(cluster.objects), m.payload, embedder.provider, old(embedder.calls),
                               llm.oracle, old(llm.calls), outcome.error)
  {
    hide Inv, Run, TallyBy, Foreign, Enabled, Apply, Grows, Keeps, Busy, Is, CommitReady, AtWork, ApplyWrites,
      EnrichmentWrites, Complete, Patient, EmbeddingFails;
    ghost var start := cluster.Now();
    step := CommitEnrichment(w, "", "", 0, true);
    var text, chunks;
    outcome, text, chunks := ReadText(cluster, w, k, m, job);
    if outcome.Threw? {
      return;
    }
    ghost var split := cluster.Now();
    var vectors, ids;
    outcome, vectors, ids := EmbedAndUpsert(cluster, embedder, w, k, m, job, chunks);
    GrowsTrans(start, split, cluster.Now());
    if outcome.Threw? {
      return;
    }
    ghost var stored := cluster.Now();
    GrowsItself(stored);
    var failed := Await(cluster, w, k.(phase := Upserting(chunks, vectors, |chunks|)), m, job, stored);
    GrowsTrans(start, stored, cluster.Now());
    GrowsTrans(split, stored, cluster.Now());
    StillAtWork(cluster.Now(), w, k, m, Upserting(chunks, vectors, |chunks|));
    if failed {
      return Threw(LlmError), step;
    }
    StillStored(split, cluster.Now(), m.payload.textUri);
    var answer := llm.Enrich(text);
    if answer.None? {
      return Threw(LlmError), step;
    }
    var result := answer.value;
    var at := EmitEnriched(session, m, job, |chunks|, ids, result.classification, result.summary, k.draw);
    SameWrites(cluster.c, split, cluster.Now(), m, job, result.classification, result.summary, k.draw, at);
    EnrichmentReady(cluster.c, cluster.Now(), w, k.(phase := Upserting(chunks, vectors, |chunks|)), m, job, chunks,
                    vectors, result.classification, result.summary, at);
    return Returned, CommitEnrichment(w, result.classification, result.summary, at, true);
  }

  /** The outgoing event, the results and the final status, staged behind the claim. */
  method EmitEnriched(session: Session, m: Envelope, job: Job, n: nat, ids: seq<string>, classification: string,
        summary: string,
                      draw: Id) returns (at: int)
    requires session.Valid() && ids == PointNames(m.payload.documentId, n)
    requires session.staged == [InsertClaimRow(Claim(m.eventId, Extracted)), SetStatus(m.payload.documentId, Enriching)]
    modifies session
    ensures session.staged == EnrichmentWrites(m, job, n, classification, summary, draw, at)
  {
    var d := m.payload.documentId;
    at := *;       // the row's `created_at`
    var enriched := MakeEvent(DocumentEnriched(job.id, d, Some(job.filename), Some(classification), Some(summary), n,
                                               ids),
                              ENRICHMENT_WORKER, draw, m.correlationId);
    session.Add(InsertOutbox(RowFor(enriched, at)));
    session.Add(SetResults(d, classification, summary, n));
    session.Add(SetStatus(d, Completed));
  }

  method ReadText(cluster: Cluster, w: nat, k: Worker, m: Envelope, job: Job)
    returns (outcome: Outcome, text: string, chunks: seq<string>)
    requires cluster.Valid() && Busy(cluster.Now(), w, k.(phase := Loaded), m) && k.stage == Extracted
    requires m.payload.DocumentExtracted? && Is(cluster.Now(), m.payload.documentId, job)
    modifies cluster
    ensures cluster.Valid() && Quietly(cluster.c, cluster.calm, w, old(cluster.history), cluster.history)
    ensures Grows(old(cluster.Now()), cluster.Now())
    ensures outcome.Threw? ==> AtWork(cluster.Now(), w, k, m) && outcome.error == StorageError
    ensures outcome.Returned? ==>
              && Busy(cluster.Now(), w, k.(phase := Chunked(chunks)), m) && Is(cluster.Now(), m.payload.documentId, job)
              && m.payload.textUri in cluster.objects && text == cluster.c.decode(cluster.objects[m.payload.textUri])
              && chunks == cluster.c.chunk(text)
    ensures cluster.calm ==>
              && SameStores(old(cluster.Now()), cluster.Now())
              && (outcome.Threw? <==> !Readable(old(cluster.objects), m.payload.textUri))
  {
    hide Inv, Run, TallyBy, Foreign, Enabled, Apply, Grows, Keeps, Busy, Is, AtWork;
    ghost var start := cluster.Now();
    var p := m.payload;
    GrowsItself(start);
    text, chunks := "", [];
    var failed := Await(cluster, w, k.(phase := Loaded), m, job, start);
    StillAtWork(cluster.Now(), w, k, m, Loaded);
    BusyFacts(cluster.Now(), w, k.(phase := Loaded), m);
    var data := cluster.ReadObject(p.textUri);
    if failed || data.None? {
      return Threw(StorageError), text, chunks;
    }
    text := cluster.c.decode(data.value);
    chunks := cluster.c.chunk(text);
    outcome := Returned;
    ghost var read := cluster.Now();
    ReadEnabled(cluster.c, read, w);
    BusyIn(read, w, k.(phase := Loaded), m, Chunked(chunks));
    cluster.Local(ReadChunks(w));
    StillIs(read, cluster.Now(), p.documentId, job);
    GrowsTrans(start, read, cluster.Now());
  }

  /** One vector a chunk, and one point a vector. */
  method EmbedAndUpsert(cluster: Cluster, embedder: OpenAIEmbedder, w: nat, k: Worker, m: Envelope, job: Job,
        chunks: seq<string>)
    returns (outcome: Outcome, vectors: seq<Vector>, ids: seq<string>)
    requires cluster.Valid() && Busy(cluster.Now(), w, k.(phase := Chunked(chunks)), m)
    requires Is(cluster.Now(), m.payload.documentId, job)
    modifies cluster, embedder
    ensures cluster.Valid() && Quietly(cluster.c, cluster.calm, w, old(cluster.history), cluster.history)
    ensures Grows(old(cluster.Now()), cluster.Now())
    ensures outcome.Threw? ==> AtWork(cluster.Now(), w, k, m)
    ensures Complete(embedder.provider) ==> outcome != Threw(ValueError)
    ensures outcome.Returned? ==>
              && ids == PointNames(m.payload.documentId, |chunks|) && Is(cluster.Now(), m.payload.documentId, job)
              && Busy(cluster.Now(), w, k.(phase := Upserting(chunks, vectors, |chunks|)), m)
              && old(embedder.calls) <= embedder.calls
              && Whole(embedder.provider, old(embedder.calls), chunks) == Answer(Some(vectors),
                                                                                 embedder.calls - old(embedder.calls))
    ensures cluster.calm && outcome.Threw? ==>
              EmbeddingFails(embedder.provider, old(embedder.calls), chunks, outcome.error)
    ensures cluster.calm && outcome.Returned? ==>
              && |vectors| == |chunks|
              && cluster.points == PutPoints(old(cluster.points), m.payload.documentId, chunks, vectors, 0, |chunks|)
  {
    hide Inv, Run, TallyBy, Foreign, Enabled, Apply, Grows, Keeps, Busy, Is, AtWork, Complete, Whole;
    ghost var start := cluster.Now();
    GrowsItself(start);
    vectors, ids := [], [];
    var failed := Await(cluster, w, k.(phase := Chunked(chunks)), m, job, start);
    ghost var ready := cluster.Now();
    StillAtWork(ready, w, k, m, Chunked(chunks));
    if failed {
      return Threw(EmbeddingError), vectors, ids;
    }
    ghost var n := embedder.calls;
    var embedded := embedder.Embed(chunks);
    if embedded.None? {
      return Threw(EmbeddingError), vectors, ids;
    }
    vectors := embedded.value;
    if Complete(embedder.provider) {
      OneVectorEach(embedder.provider, n, chunks);
    }
    outcome, ids := UpsertChunks(cluster, w, k, m, job, chunks, vectors);
    GrowsTrans(start, ready, cluster.Now());
  }

  /** With an embedder that answers by one model, chunk `i` is stored under its own id with its own
      text and its own embedding, whichever batches were retried. */
  lemma ChunksKeepTheirVectors(provider: Provider, model: string -> Vector, n: nat, store: Points, d: Id,
        chunks: seq<string>, i: nat)
    requires Faithful(provider, model) && i < |chunks| && Whole(provider, n, chunks).vectors.Some?
    ensures |Whole(provider, n, chunks).vectors.value| == |chunks|
    ensures var stored := PutPoints(store, d, chunks, Whole(provider, n, chunks).vectors.value, 0, |chunks|);
            PointName(d, i) in stored && stored[PointName(d, i)] == Point(d, i, chunks[i], model(chunks[i]))
  {
    BatchingIsElementwise(provider, model, n, chunks);
    EachChunkUnderItsName(store, d, chunks, Whole(provider, n, chunks).vectors.value, 0, |chunks|, i);
  }
}
