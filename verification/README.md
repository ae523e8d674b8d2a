# DocStream pipeline: verified model

DocStream takes an uploaded document through three stages, ingested, extracted and enriched, over
a message bus. Each stage has a worker that claims an event in a ledger, does its work, and emits
the next event through a transactional outbox; a relay publishes outbox rows; failed work goes back
to its own topic with a raised attempt counter or, after the last attempt, to a dead-letter topic
(DLQ). A projector keeps a read model, and a query service searches the vectors. The promise is
exactly-once effects out of at-least-once parts. No single function gives it; this project proves it
of all of them together.

## How it is built

Two layers, and the proof that the second only does what the first allows.

1. **The protocol** (`Model.dfy`). One state holds what survives a crash (tables, topic logs,
   committed offsets, stored objects, vector points) and what does not (consumer positions, open
   transactions, relay batches). A `Step` is one effect of one process. Steps are split so that a
   crash, a rollback or another process can fall into every gap: between publish and mark, between a
   vector batch and the database commit, between that commit and the offset commit, between a
   requeue or dead letter and the offset commit. Any number of relays and consumers per group may
   run, and interleave in any way. `Invariant.dfy` states the inductive invariant; `Frames`,
   `Commits`, `Preservation` and `WorkSteps` prove that every step keeps it. `Guarantees`, `History`,
   `Replay`, `Termination`, `Settling`, `Completion`, `Uploads`, `StoredObjects`, `Grounding`, `Tallies`
   and `Accounting` hold the theorems about all reachable states and all runs.
2. **The code** (`Sessions`, `Infrastructure`, `Gateway`, `OutboxRelay`, `ExtractionWorker`,
   `EnrichmentWorker`, `ProjectionWorker`, `VectorStore`, `Embedding`, `LanguageModel`, `Metrics`,
   `Consumers`, `Retrieval`, and `S3Storage` in `ObjectKeys`). These are methods with the loops, branches and error
   exits of the source, over mutable objects. The shared services are one `Cluster` object. Each service call
   changes one store by what the caller hands over, and names the protocol step it is; its
   precondition is that this step is enabled and has exactly that effect on the stores. Before each
   call, `Yield` runs an arbitrary sequence of steps of all the other processes, and every call may
   fail, before its effect or after it. `Cluster.Valid()` says the current state is the end of a run of
   the protocol from the empty system, so a method that keeps it has all the guarantees of layer 1 at
   every point where it could be interrupted: a crash is the code stopping between two calls.

A cluster created with `calm` set is one in which nobody else moves and no call fails. Contracts under
`calm` say what the code does when left alone: the handlers return, and the record is claimed, unless
something stands in the way: a key held by another open transaction, bytes under a name that cannot be
read back, bytes `extract_text` refuses, or an embedding or LLM provider that refuses. They also say
which error each of these ends in.

## What was found

- Two kinds of upload are accepted and can never be processed. One has a base name holding `?`, `#`, a
  tab or a line break: the bytes are stored, but `parse_uri` cuts the name short, so every attempt to
  read them fails. The other has bytes `extract_text` raises on, as it may for a PDF
  (`src/docstream/extraction/text.py:20-52`). Each such document ends in the dead-letter topic of the
  first stage (`Uploads.UnusableUploadsAreDeadLettered`), and these are the only ones: without
  failures, all documents can complete if and only if no upload is of either kind
  (`Completion.EverythingCanComplete`). The first kind exists with the `s3` backend only; the default
  `local` one (`src/docstream/common/config.py:73`) percent-encodes the name and decodes it again.
- The over-fetch of a search restricted to one document can miss its relevant hits; the exact
  condition is in `Retrieval.BoundedIsIdealWhen`.

## What is assumed

- Fresh UUIDs are distinct. The id of the event a handler may emit is reserved when the record is
  delivered; the gateway draws its ids just before it uses them.
- The claim insert meets `IntegrityError` only if the key is in the committed ledger or earlier in the
  same transaction. Another open transaction holding the key makes the insert wait; waiting is
  others moving, and giving up is a database error.
- `COMMIT` is atomic. It may fail without effect, or take effect with its acknowledgement lost, in
  which case the worker treats the work as failed.
- Postgres behaviour for the relay's query: locked rows are skipped.
- `extract_text` and `chunk_text` are deterministic, with fixed configuration, and decoding undoes
  encoding. Whether `extract_text` raises depends on file name, content type and bytes alone (`parses`,
  false also for a text that cannot be encoded). The LLM may answer differently on every call, or not
  at all; the text of an exception depends on its kind and on the message it was raised for.
- Storage is the `s3` backend, which services in separate containers need.
- Services take keys, rows and messages of any size. Where a run is said to exist, the embedding and
  LLM providers answer in it.
- `max_attempts`, the relay's batch size and the upsert batch size are at least 1.
- Each topic is one append-only log, which every consumer of its group reads whole.
- Objects are keyed by key prefix and base name, and reading one finds it only if its base name is
  clean. That this is what the URI strings do is proved, not assumed
  (`StoredObjects.ReadsFindTheReadable`).
- The vector store keeps one point per id, ids are UUIDv5 values without collisions (section 5.5 of
  RFC 9562), and a query returns the exact top of a ranking. Scores and vectors are over the reals.
- The relay's publish count and the per-stage totals of the protocol state grow with the effect they
  count. The counters of a worker process are an object of their own, increased where the code does.

## Where code and comments differ

The code was followed in each case.

- `src/docstream/enrichment/qdrant_store.py:8-13` says point ids are `document_id:index`; the code
  derives a UUID from that string (lines 35-44).
- `src/docstream/extraction/worker.py:101-105` and `src/docstream/enrichment/worker.py:130-134` speak
  of a time before retries and dead letters; the callback now runs only after a dead letter.
- `src/docstream/common/retry.py:17-20` says a failed attempt has always rolled back. When only a
  commit's acknowledgement is lost it has not; the requeued copy is then skipped as a duplicate, and
  the theorems cover this.
- `src/docstream/query/retrieval.py:80` says the over-fetch keeps the document filter from starving
  the result. `Retrieval.OverFetchCanStarve` shows it can still starve, and
  `Retrieval.BoundedIsIdealWhen` says exactly when it does not.

Naming: a `Stage` stands for an event type, its topic and its consumer group together, and
`JobStatus.EXTRACTED` is called `TextReady`, since `Extracted` is a stage.

## Model

| member | source | states |
|---|---|---|
| WorkSteps.StepInv | src/docstream/enrichment/worker.py:74-115 | Every step of every process, whatever the interleaving, keeps the whole inductive invariant over tables, outbox, ledger, logs, offsets, objects, points and open transactions. |
| WorkSteps.ReachableInv | src/docstream/common/messaging.py:51-57 | The invariant holds in every state any run can reach from the empty system. |
| Guarantees.NoEventIsLost | src/docstream/common/retry.py:67-102 | In every reachable state each outbox row is unpublished, or claimed by its group, or in its topic's DLQ, or in the log at or beyond the group's committed offset. |
| Guarantees.EffectsHappenExactlyOnce | src/docstream/db/idempotency.py:33-47 | Every document has exactly one ingested event and at most one of each later stage; the next event exists if and only if the previous one is claimed, and the view row if and only if the enriched event is. |
| Guarantees.SettledMeansComplete | src/docstream/projection/worker.py:41-64 | When all rows are published and all offsets are at the log ends, every document is in the read model or has an event in a DLQ, and without one in the first two DLQs its job is COMPLETED. |
| Guarantees.StatusIsExplained | src/docstream/db/models.py:42-48 | Away from FAILED, a committed status is PENDING, EXTRACTED or COMPLETED exactly according to which of the document's events are claimed; FAILED implies a dead-lettered event; EXTRACTING and ENRICHING are never committed. |
| Guarantees.ReadModelAgrees | src/docstream/projection/worker.py:55-64 | Each view row equals its document's job row and its enriched event in every copied field, so no failed attempt's LLM answer leaks out. |
| Guarantees.VectorsStayWithinTheText | src/docstream/enrichment/qdrant_store.py:84-99 | Every stored point lies under its own name, within its document's chunks, and holds that chunk's text. |
| Guarantees.VectorsAreCompleteOnceClaimed | src/docstream/enrichment/worker.py:87-105 | Once the extracted event is claimed, a document's points are exactly its chunks: point `i` exists if and only if chunk `i` does, and carries it. |
| Guarantees.VectorIdsAreListedInOrder | src/docstream/enrichment/worker.py:91-110 | The enriched event lists exactly the point ids of the document's chunks, in chunk order, and counts them. |
| Guarantees.MessagesAreTheirRows | src/docstream/common/retry.py:79-102 | Erasing the attempt counter, every message on a topic or DLQ is its outbox row's envelope; attempts stay below the limit, and dead letters have used the last one. |
| Guarantees.MessagesAreWellTyped | src/docstream/db/outbox.py:19-45 | Every message has its topic's payload type, names a document with a job row, carries that job's id, and the correlation id of the document's ingested event. |
| Guarantees.HandlersSeeTheirOwnEvents | src/docstream/extraction/worker.py:49-62 | The handlers' type assertions never fire and their missing-job branch is never taken. |
| Guarantees.InputsAreStored | src/docstream/enrichment/worker.py:87-88 | The bytes a handler reads are always stored under their prefix and base name: the upload, and for an extracted event exactly the encoded text extracted from that upload. |
| Guarantees.RowsAreAddressed | src/docstream/db/outbox.py:30-45 | Every outbox row carries its event's id, goes to its event's topic under its document as key and aggregate, and names the service that emits such events. |
| Guarantees.RowsSayWhatIsSo | src/docstream/db/outbox.py:30-45 | Every outbox row's payload agrees field by field with the job row and with what `extract_text` makes of the stored upload. |
| StoredObjects.ReadsFindTheReadable | src/docstream/storage/s3.py:56-64 | In every reachable state, reading a stored object by its URI string finds its bytes if the base name is clean, and no key at all otherwise. |
| StoredObjects.SavingRepresents | src/docstream/storage/s3.py:56-59 | A put under the object's key keeps the bucket and the protocol's objects in step. |
| Uploads.UnusableUploadsAreDeadLettered | src/docstream/extraction/worker.py:64-67 | A document whose base name a URI cannot carry, or whose bytes `extract_text` raises on, is never extracted, projected or completed, and at rest its ingested event is dead-lettered. |
| Uploads.TextNameIsClean | src/docstream/extraction/worker.py:68-70 | If the upload can be read back, so can the extracted text, for every file name with its slashes and dots. |
| Uploads.UsableDocumentsAreReadable | src/docstream/extraction/worker.py:66-66 | Without such uploads, what a message points at can be read, and the upload extracted. |
| Guarantees.RelayReplicasAreSafe | src/docstream/db/outbox.py:48-65 | Batches locked at the same time are disjoint, and a row marked published has a copy on its topic. |
| History.RunGrows | src/docstream/db/models.py:146-168 | Along every run no claim is withdrawn, no event or stored object altered, no log shortened, and a job keeps the identity it was created with. |
| History.ClaimCommitsAtMostOnce | src/docstream/db/idempotency.py:24-47 | Over any interleaving of committing, failing and crashing workers, the work for one event and group commits at most once in the whole run. |
| History.ClaimIsFreeAgain | src/docstream/db/idempotency.py:13-15 | After an attempt that raised or crashed, any other consumer waiting at a copy of the event can insert the claim at once. |
| Replay.InterruptionsLeaveNoTrace | src/docstream/enrichment/qdrant_store.py:81-101 | Any number of upsert runs stopped anywhere, followed by one full run, leave exactly the store one full run leaves. |
| Replay.BatchesCompose | src/docstream/enrichment/qdrant_store.py:94-99 | Upserting batch after batch is upserting once. |
| Replay.OtherDocumentsUntouched | src/docstream/enrichment/qdrant_store.py:84-99 | An upsert leaves every point of every other document as it was. |
| Termination.CalmStepBurns | src/docstream/common/topics.py:19-23 | With any number of consumers in each group, and without crashes, publish failures and new uploads, every step leaves a weighted measure over unpublished rows and readings still to come no larger, and every relay-row or consume step makes it smaller. |
| Termination.SettlingBound | src/docstream/common/retry.py:79-102 | Whatever was processed before, once `n` fresh jobs are all that is unpublished and everything published is read, a calm run takes at most `n` times the weight of an ingested row in relay-row and consume steps, whatever the handlers' outcomes; the weight depends on attempts and consumers only. |
| Termination.OneConsumerEach | src/docstream/common/topics.py:19-23 | With one consumer per group that weight is exactly `3*(max_attempts+1)`. |
| Settling.EveryCalmRunEnds | src/docstream/common/retry.py:79-102 | However many consumers there are, no schedule goes on for ever calmly: any endless one crashes, uploads, rolls back or makes an offset commit that commits nothing new somewhere. |
| Settling.EveryCalmRunSettles | src/docstream/projection/worker.py:103-123 | With a consumer for each stage, wherever a calm run stops for want of a step, everything is published, read and committed, and every document is in the read model or a DLQ. |
| Settling.FreshJobsSettleWithinTheBound | src/docstream/gateway/relay.py:79-90 | `n` fresh jobs settle, and within the bound, `3*n*(max_attempts+1)` relay-row and consume steps when each group has one consumer: it holds for every calm run, and those that cannot go on end at rest with every document decided. |
| Settling.EveryDocumentSettles | src/docstream/projection/worker.py:103-123 | From every reachable state with a consumer for each stage such a run to rest exists. |
| Completion.FlawlessRunsComplete | src/docstream/enrichment/worker.py:74-115 | A calm run without raising handlers and lost acknowledgements, from a state with nothing dead-lettered or about to be, that comes to rest leaves every job COMPLETED and in the read model. |
| Completion.EveryFlawlessRunCompletes | src/docstream/enrichment/worker.py:74-115 | With a consumer for each stage and no unusable upload, wherever such a run stops for want of a flawless step, every document is complete. |
| Completion.EverythingCanComplete | src/docstream/storage/s3.py:86-101 | From a healthy state with a consumer for each stage, a flawless run that completes every document exists if and only if every base name can be carried by a URI and `extract_text` returns on every upload. |
| Accounting.FlowIsConserved | src/docstream/common/retry.py:79-102 | Log length is relay publishes plus retries and DLQ length is dead letters, once nothing waits to be published and no crash kept a publish from happening; failures are retries plus dead letters. |
| Accounting.MetricsAddUp | src/docstream/common/retry.py:66-97 | Over any run, the tallies of all consumers, which their metrics objects hold, add up to the stage's counts of returned and failed invocations, retries and dead letters. |
| Tallies.CountersAddUp | src/docstream/common/retry.py:66-97 | Each invocation that ran to an outcome is counted by exactly one consumer. |
| Accounting.PublishCountIsBounded | src/docstream/gateway/relay.py:35-57 | A row is published at most once more than the number of its rolled-back batches, at least once if marked, and exactly once if no batch with it was rolled back. |
| Sessions.MarkProcessed | src/docstream/db/idempotency.py:33-47 | True exactly when neither the committed ledger nor this transaction has the claim; false leaves every earlier staged write in place; both are the guard of the interleaving theorem. |
| Sessions.GuardGrantsOnce | src/docstream/db/idempotency.py:24-47 | For any interleaving of any number of transactions, each staging writes and calling the guard: once it has answered true in one that goes on to commit, it answers false to every later call for the same event and group, in any transaction. |
| Sessions.RollbackReleases | src/docstream/db/idempotency.py:13-15 | Right after the transaction holding a claim is rolled back, the guard answers true to whichever open transaction asks, without waiting. |
| Infrastructure.Cluster.Yield | src/docstream/common/messaging.py:51-57 | Whatever steps the others take, the state stays reachable, everything committed only grows, and the caller's own place is untouched. |
| Infrastructure.Cluster.Commit | src/docstream/extraction/worker.py:148-150 | All staged writes take effect at once, as one protocol step. |
| Gateway.CreateIngestionJob | src/docstream/gateway/service.py:22-59 | Stages a PENDING job with the given name, type, size and URI and no results, under four different fresh ids, and its one ingested event, in one session. |
| Gateway.IngestDocument | src/docstream/gateway/app.py:60-89 | An empty upload changes nothing; when the transaction lands, the bytes are stored and job and first event recorded together; both carry the file name and content type the client gave, or `document.bin` and `application/octet-stream` where it gave none, and the size of the bytes; an accepted upload has landed, and a lost acknowledgement is an error after landing. |
| OutboxRelay.FetchUnpublished | src/docstream/db/outbox.py:48-61 | Returns as many pending rows as the limit allows, distinct, in `created_at` order, none newer than a row left behind. |
| OutboxRelay.PublishRow | src/docstream/gateway/relay.py:51-54 | One row is published to its own topic, and left alone one publish is the only effect. |
| OutboxRelay.DrainOnce | src/docstream/gateway/relay.py:35-57 | A successful call marks every row of its batch; left alone it appends the batch's messages in order, marks exactly them, and releases the locks. |
| OutboxRelay.RunRelay | src/docstream/gateway/relay.py:60-93 | Left alone, `n` pending rows are published exactly once each, in `created_at` order, in `ceil(n / batch_size)` non-empty batches; errors are rolled back and never lose a mark. |
| OutboxRelay.ProgressOn | src/docstream/gateway/relay.py:44-57 | One more batch continues the order without repeats and takes all that is left up to the limit. |
| Handling.ClaimEvent | src/docstream/extraction/worker.py:53-55 | The guard at the top of a handler: a first sighting is staged and held, a duplicate stages nothing and is ready to commit. |
| ExtractionWorker.HandleIngested | src/docstream/extraction/worker.py:43-92 | When it returns, committing its session is exactly one protocol commit; the staged writes are the claim, the statuses and the one extracted event of the stored bytes; left alone it fails only if the key is held, the name cannot be read back or `extract_text` raises. |
| ExtractionWorker.ExtractionReady | src/docstream/extraction/worker.py:64-86 | The staged writes are the protocol's extraction transaction although others moved since the job was loaded. |
| EnrichmentWorker.HandleExtracted | src/docstream/enrichment/worker.py:49-121 | The same for enrichment: claim, statuses, the enriched event and the results together. A handler that enriches has asked the LLM exactly once, about the decoded stored text, and stages its answer, classification and summary each in its place; a refusal is raised. Left alone it fails only for what obstructs it or what the providers answer, with the error that goes with it, and returns whenever they never refuse. |
| EnrichmentWorker.EnrichmentReady | src/docstream/enrichment/worker.py:85-115 | The staged writes are the protocol's enrichment transaction although others moved since the job was loaded. |
| EnrichmentWorker.EmbedAndUpsert | src/docstream/enrichment/worker.py:90-93 | One vector a chunk and one point a vector, the ids in chunk order; left alone it throws exactly when the embedder's specification yields nothing, or the wrong number of vectors. |
| EnrichmentWorker.ChunksKeepTheirVectors | src/docstream/enrichment/worker.py:88-93 | Chunk `i` is stored under its own id with its own text and its own embedding, whichever batches were retried. |
| VectorStore.UpsertChunks | src/docstream/enrichment/qdrant_store.py:66-101 | A length mismatch writes nothing and is the only cause of that error; otherwise the ids come back in chunk order and, left alone, exactly the document's points are written, in one request for every full batch and one for the rest. |
| VectorStore.SliceWrites | src/docstream/enrichment/qdrant_store.py:85-99 | Sending a slice of the point list writes exactly those chunks. |
| ProjectionWorker.HandleEnriched | src/docstream/projection/worker.py:41-71 | A first sighting stages the claim and a view row that is the event's data whatever the row held before; a duplicate stages nothing. |
| Consumers.Work | src/docstream/extraction/worker.py:147-150 | A normal return means the work is committed and the event claimed; if the LLM was asked, the job row and the enriched event then hold the two parts of its answer about the stored text, each in its own field; an error leaves the consumer at the record; either way exactly one invocation is tallied; left alone an error is explained by an obstruction or a provider's answer, and without one it returns, at every stage. |
| Consumers.MarkJobFailed | src/docstream/extraction/worker.py:100-115 | The failure callback swallows its errors: it leaves the tables as they stood when it ended, but for FAILED and the message on the job, if there is one and the update landed; the stored error is the whole message when it fits 2000 characters and its first 2000 otherwise; left alone it lands. |
| Consumers.ProcessWithRetry | src/docstream/common/retry.py:47-110 | Handled means claimed, requeued means attempts are left and the raised copy is on the topic, dead-lettered means they are used up and the message is on the DLQ; a failed publish ends the consumer; the process's metrics grow by exactly that outcome and keep agreeing with its history; left alone and unobstructed, the record is handled, and a dead-lettered job holds the text of the very error the work ended in, cut to 2000 characters. |
| Consumers.RunWorker | src/docstream/enrichment/worker.py:210-247 | Every record moved past, from the committed offset on, is claimed, requeued or dead-lettered, and the metrics tally exactly the invocations ended; left alone, the committed offset is the position and each poll takes one record, and with nothing in its way every record taken ends up claimed. |
| Embedding.OpenAIEmbedder.Embed | src/docstream/enrichment/embedding.py:57-82 | The loop gives the result of the batch-by-batch specification and uses exactly its number of calls. |
| Embedding.BatchingIsElementwise | src/docstream/enrichment/embedding.py:65-77 | Whenever it succeeds, batched embedding is embedding each text alone, in order. |
| Embedding.CallsAreBounded | src/docstream/enrichment/embedding.py:66-75 | At most `2*ceil(n/20)` calls, at least `ceil(n/20)` when the texts get through, and success whenever no batch is limited twice or refused. |
| Embedding.OnlyLimitsAreRetried | src/docstream/enrichment/embedding.py:66-75 | A provider that never limits its rate is called for every twenty texts once at most, and any other refusal of the first batch fails the whole embedding after that one call. |
| Retrieval.FilterKeepsTheRelevant | src/docstream/query/retrieval.py:23-49 | On a ranking the filter keeps exactly the hits above the floor and the relative cutoff, and they are its first ones. |
| Retrieval.CutoffsInNumbers | src/docstream/query/retrieval.py:41-49 | In numbers: hit `i` of a ranking is kept if and only if its score is at least the floor and, with a positive cutoff, at least the best score times the cutoff; a missing score counts as 0. |
| Retrieval.BestIsKept | src/docstream/query/retrieval.py:31-36 | A cutoff up to 1 never drops a best hit that clears the floor and does not score below 0. |
| Retrieval.CutoffIsRelative | src/docstream/query/retrieval.py:31-36 | Without a floor, scores larger or smaller by a positive factor keep the same places: the cutoff adapts to the query. |
| Retrieval.FilterOfTake | src/docstream/query/retrieval.py:93-99 | Filtering by relevance and cutting a ranking short can be done in either order. |
| Retrieval.BoundedIsIdealCut | src/docstream/query/retrieval.py:80-99 | The bounded answer is the ideal one cut to the fetched hits of the document, so always a prefix of it. |
| Retrieval.BoundedIsIdealWhen | src/docstream/query/retrieval.py:80-99 | The two are equal if and only if the fetch holds `limit` hits of the document or no hit of the document ranked behind it passes the cutoffs. |
| Retrieval.BoundedIsIdealAnyway | src/docstream/query/retrieval.py:81-83 | Without a document, and when the fetch covers the collection, they are always equal. |
| Retrieval.FourTimesTheLimit | src/docstream/query/retrieval.py:80-85 | A search in one named document looks at `4*limit` points: with `limit` hits of the document among them the answer is the ideal one, with fewer it has no more than those, with none it is empty. |
| Retrieval.NoOverFetch | src/docstream/query/retrieval.py:81-82 | Any other search depends on the first `limit` points alone. |
| Retrieval.OverFetchCanStarve | src/docstream/query/retrieval.py:80-85 | Concrete rankings on which the document filter loses the answer, one with the over-fetch and one with an empty document id. |
| Retrieval.BoundedFromAll | src/docstream/query/retrieval.py:80-99 | Every hit answered is one of the ranking, and of the document asked for, in whatever order it is ranked. |
| Retrieval.Retrieve | src/docstream/query/retrieval.py:52-101 | A blank question finds nothing without a call; otherwise every hit reports a point of the ranking, score and payload, and is of the document asked for. On points ranked by score the result is a prefix of the ideal answer, equal to it exactly when the fetch missed no relevant hit it needed; without a document it is exactly the first points, up to the limit, whose scores are at least the floor and the cutoff's share of the best. |
| Retrieval.Search | src/docstream/enrichment/qdrant_store.py:104-136 | Hit `i` carries the score of point `i` of the ranking and each payload field, or nothing where there is no payload, for the first `limit` points. |
| Grounding.HitsQuoteStoredText | src/docstream/enrichment/qdrant_store.py:121-136 | In every reachable state a hit over the stored points names a document with a job, its text is the chunk with its index of that document's stored text, and its score is the one that chunk was ranked by. |
| Grounding.AnswersQuoteStoredText | src/docstream/query/retrieval.py:80-101 | So does everything a search answers with, restricted to the document asked for, and each hit reports a stored point of the ranking. |
| PointIds.PointNameInjective | src/docstream/enrichment/qdrant_store.py:35-44 | The string behind a point id determines the document and the chunk index, for all documents and indices. |
| PointIds.PointNameReads | src/docstream/enrichment/qdrant_store.py:35-44 | The string is the document id, a colon and the chunk's own index in decimal without leading zeros. |
| ObjectKeys.KeysAreIsolated | src/docstream/storage/s3.py:86-89 | Two saves share a key if and only if document id and base name agree. |
| ObjectKeys.BaseNameBehind | src/docstream/storage/s3.py:86-89 | A file name is found behind any directories before it. |
| ObjectKeys.BaseNameBefore | src/docstream/storage/s3.py:86-89 | A slash or a slash and a single dot at the end of a file name does not change its base name. |
| ObjectKeys.ParseSavedUri | src/docstream/storage/s3.py:91-101 | What parsing a saved URI gives for any file name, clean or not. |
| ObjectKeys.UriRoundTrip | src/docstream/storage/s3.py:56-64 | Parsing a saved URI gives back bucket and key if and only if the base name is free of `?`, `#` and the characters `urlparse` strips (sections 3.3 to 3.5 of RFC 3986). |
| ObjectKeys.CleanNamesAre | src/docstream/storage/s3.py:91-101 | The clean base names, character by character. |
| ObjectKeys.QuestionMarkBreaksTheRoundTrip | src/docstream/storage/s3.py:91-101 | A file name with a question mark for which it does not. |
| ObjectKeys.OtherSchemesAreRefused | src/docstream/storage/s3.py:94-96 | A URI of any other scheme is refused as not an S3 URI, whatever follows. |
| ObjectKeys.BucketAndKeyAreNeeded | src/docstream/storage/s3.py:97-101 | A URI without a bucket, or without a key, is refused as malformed. |
| ObjectKeys.SavedBytesSurvive | src/docstream/storage/s3.py:56-64 | Reading a saved URI gives the saved bytes after any saves under other keys. |
| ObjectKeys.S3Storage.SaveSync | src/docstream/storage/s3.py:56-64 | Every other key is unchanged; reading the returned URI gives the saved bytes for a clean base name, and for any other name whatever the bucket held before under the key that is left of it. |
| Topics.DlqTopicLaws | src/docstream/common/topics.py:29-37 | Dead-lettering a name is idempotent, and says exactly when two names share a dead-letter topic. |
| Topics.NamesAreDistinct | src/docstream/common/topics.py:14-43 | The three topics and their three dead-letter topics have six different names. |
| Topics.TopicNames | src/docstream/common/topics.py:14-43 | What the topics and their dead-letter topics are called. |

## Left out

- FastAPI apps, schemas, HTTP metrics, the health server and logging: transport and plumbing.
- Client internals of aiokafka, SQLAlchemy, boto3 and Qdrant: they appear only by contract.
- Topic partitions: the provisioning scripts create three per topic; the model has one log per topic, which each consumer of a group reads whole, so order across partitions and offsets per partition are not shown, and the settling bound for several consumers is larger than theirs.
- `ensure_collection` and `ensure_bucket`: start-up calls that create what is missing.
- `chunk_text` and PDF extraction: uninterpreted functions of their inputs.
- Prompts, the cut of long texts before they are sent, reply parsing and answer generation: the LLM is asked about a text and answers with any two strings, or not at all.
- JSON serialization of envelopes: the envelope value itself travels.
- Time, backoff and poll sleeps, and timestamps other than the outbox ordering.
- `RelaySettings.max_attempts` and `OutboxEvent.attempts`: no code enforces them.
- Column-by-column ORM updates: assignments to a loaded row appear as staged writes of the session, which take effect at the commit.
- Stop events and endless loops: the relay and worker loops run for a given number of polls.
- Negative limits of `retrieve`: the search endpoint forbids them, the ask endpoint does not check, and Python slicing would then count from the end.
- `best` scores recorded as metrics during retrieval, and file names attached to hits afterwards.
- COMPLETED is not claimed to be final: the failure callback of a late duplicate writes FAILED over it.
- An event may be dead-lettered and also claimed through another copy, and the LLM may be asked again for an event whose earlier attempt failed; neither is excluded.
- Migrations, deployment files, `FakeEmbedder` and `FakeLLM`: configuration and test aids.
