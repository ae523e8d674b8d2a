/** The vector store client: batched upserts under deterministic ids. */
module VectorStore {
  import opened Events
  import opened PointIds
  import opened Model
  import opened Invariant
  import opened Replay
  import opened History
  import opened Infrastructure
  import opened Tallies
  import opened Handling

  /** One point per chunk, in chunk order. */
  function PointsOf(d: Id, texts: seq<string>, vectors: seq<Vector>): (points: seq<Point>)
    requires |texts| == |vectors|
    ensures |points| == |texts|
  {
    seq(|texts|, i requires 0 <= i < |texts| => Point(d, i, texts[i], vectors[i]))
  }

  /** Sending a slice of the list writes exactly those chunks. */
  lemma {:induction false} SliceWrites(store: Points, d: Id, texts: seq<string>, vectors: seq<Vector>, lo: nat, hi: nat)
    requires lo <= hi <= |texts| == |vectors|
    ensures Overwritten(store, PointsOf(d, texts, vectors)[lo..hi]) == PutPoints(store, d, texts, vectors, lo, hi)
    decreases hi
  {
    var all := PointsOf(d, texts, vectors);
    if lo < hi {
      assert all[lo..hi][..hi - lo - 1] == all[lo..hi - 1] && all[lo..hi][hi - lo - 1] == all[hi - 1];
      SliceWrites(store, d, texts, vectors, lo, hi - 1);
    }
  }

  lemma EmbedEnabled(c: Config, s: State, w: nat, chunks: seq<string>, vectors: seq<Vector>)
    requires At(s, w, Chunked(chunks)) && |vectors| == |chunks|
    ensures Enabled(c, s, Embed(w, vectors))
    ensures Apply(c, s, Embed(w, vectors)) == SetPhase(s, w, Upserting(chunks, vectors, 0))
  {
  }

  lemma UpsertEnabled(c: Config, s: State, w: nat, texts: seq<string>, vectors: seq<Vector>, done: nat, upto: nat)
    requires At(s, w, Upserting(texts, vectors, done)) && done < upto <= |texts| == |vectors|
    requires upto <= done + c.upsertBatch
    ensures Enabled(c, s, Upsert(w, upto))
    ensures var stored := PutPoints(s.points, Record(s, w).payload.documentId, texts, vectors, done, upto);
            Apply(c, s, Upsert(w, upto)) == SetPhase(s.(points := stored), w, Upserting(texts, vectors, upto))
  {
    hide PutPoints;
  }

  lemma BusyPast(s: State, w: nat, k: Worker, m: Envelope, job: Job, stored: Points, p: Phase)
    requires Busy(s, w, k, m) && Is(s, m.payload.documentId, job)
    ensures var t := SetPhase(s.(points := stored), w, p);
            Busy(t, w, k.(phase := p), m) && Is(t, m.payload.documentId, job) && SameStores(t, s.(points := stored))
  {
  }

  /** After the embedding, `sent` requests: each takes the store to the next multiple of the batch size, or
      to the end. */
  ghost predicate Batched(before: seq<Step>, after: seq<Step>, w: nat, n: nat, size: nat, sent: nat) {
    && before <= after && |after| == |before| + 1 + sent && after[|before|].Embed?
    && forall i :: 1 <= i <= sent ==> after[|before| + i] == Upsert(w, BatchEnd(i, size, n))
  }

  /** One request for every full batch, and one for what is left. */
  ghost predicate FullBatches(before: seq<Step>, after: seq<Step>, w: nat, n: nat, size: nat) {
    |before| < |after|
    && var sent := |after| - |before| - 1;
       Batched(before, after, w, n, size, sent) && n <= sent * size && (0 < sent ==> (sent - 1) * size < n)
  }

  function BatchEnd(i: nat, size: nat, n: nat): nat {
    if i * size < n then i * size else n
  }

  lemma NextEnd(i: nat, size: nat, n: nat)
    requires BatchEnd(i, size, n) < n && 1 <= size
    ensures BatchEnd(i + 1, size, n) == if BatchEnd(i, size, n) + size < n then BatchEnd(i, size, n) + size else n
    ensures i * size < n
  {
    assert (i + 1) * size == i * size + size;
  }

  lemma BatchedMore(before: seq<Step>, after: seq<Step>, w: nat, n: nat, size: nat, sent: nat, end: nat)
    requires Batched(before, after, w, n, size, sent) && end == BatchEnd(sent + 1, size, n)
    ensures Batched(before, after + [Upsert(w, end)], w, n, size, sent + 1)
  {
    hide BatchEnd;
  }

  /** Upserts one point per chunk and returns their ids in chunk order.  Nothing is sent when the
      lengths differ; a failure part-way leaves the batches already sent.  Left alone it sends as few
      batches as the batch size allows. */
  method UpsertChunks(cluster: Cluster, w: nat, k: Worker, m: Envelope, job: Job, chunks: seq<string>,
        vectors: seq<Vector>)
    returns (outcome: Outcome, ids: seq<string>)
    requires cluster.Valid() && Busy(cluster.Now(), w, k.(phase := Chunked(chunks)), m)
    requires Is(cluster.Now(), m.payload.documentId, job)
    modifies cluster
    ensures cluster.Valid() && Quietly(cluster.c, cluster.calm, w, old(cluster.history), cluster.history)
    ensures Grows(old(cluster.Now()), cluster.Now())
    ensures |chunks| != |vectors| <==> outcome == Threw(ValueError)
    ensures outcome == Threw(ValueError) ==> cluster.Now() == old(cluster.Now())
    ensures outcome.Threw? ==> AtWork(cluster.Now(), w, k, m)
    ensures outcome.Returned? ==>
              && ids == PointNames(m.payload.documentId, |chunks|) && Is(cluster.Now(), m.payload.documentId, job)
              && Busy(cluster.Now(), w, k.(phase := Upserting(chunks, vectors, |chunks|)), m)
    ensures cluster.calm && |chunks| == |vectors| ==>
              FullBatches(old(cluster.history), cluster.history, w, |chunks|, cluster.c.upsertBatch)
    ensures cluster.calm && |chunks| == |vectors| ==>
              && outcome.Returned? && cluster.db == old(cluster.db)
              && cluster.points == PutPoints(old(cluster.points), m.payload.documentId, chunks, vectors, 0, |chunks|)
  {
    hide Inv, Run, TallyBy, Foreign, Enabled, Apply, Grows, Busy, Is, AtWork, PutPoints, Overwritten, PointsOf;
    ghost var start := cluster.Now();
    GrowsItself(start);
    StillAtWork(start, w, k, m, Chunked(chunks));
    ids := [];
    if |chunks| != |vectors| {
      return Threw(ValueError), ids;
    }
    var d := m.payload.documentId;
    var n := |chunks|;
    ids := PointNames(d, n);
    var points := PointsOf(d, chunks, vectors);
    BusyFacts(start, w, k.(phase := Chunked(chunks)), m);
    EmbedEnabled(cluster.c, start, w, chunks, vectors);
    BusyIn(start, w, k.(phase := Chunked(chunks)), m, Upserting(chunks, vectors, 0));
    cluster.Local(Embed(w, vectors));
    StillIs(start, cluster.Now(), d, job);
    NothingPut(start.points, d, chunks, vectors);
    var at := 0;
    ghost var sent: nat := 0;
    while at < n
      invariant at <= n && cluster.Valid()
      invariant at == BatchEnd(sent, cluster.c.upsertBatch, n)
      invariant sent > 0 ==> (sent - 1) * cluster.c.upsertBatch < n
      invariant cluster.calm ==>
                  Batched(old(cluster.history), cluster.history, w, n, cluster.c.upsertBatch, sent)
      invariant Quietly(cluster.c, cluster.calm, w, old(cluster.history), cluster.history)
      invariant Grows(start, cluster.Now())
      invariant Busy(cluster.Now(), w, k.(phase := Upserting(chunks, vectors, at)), m) && Is(cluster.Now(), d, job)
      invariant cluster.calm ==>
                cluster.db == start.db && cluster.points == PutPoints(start.points, d, chunks, vectors, 0, at)
    {
      var end := if at + cluster.c.upsertBatch < n then at + cluster.c.upsertBatch else n;
      NextEnd(sent, cluster.c.upsertBatch, n);
      if cluster.calm {
        BatchedMore(old(cluster.history), cluster.history, w, n, cluster.c.upsertBatch, sent, end);
      }
      var failed := UpsertBatch(cluster, w, k, m, job, chunks, vectors, at, end, points[at..end], start);
      if failed {
        return Threw(VectorStoreError), ids;
      }
      at := end;
      sent := sent + 1;
    }
    outcome := Returned;
  }

  lemma NothingPut(store: Points, d: Id, texts: seq<string>, vectors: seq<Vector>)
    requires |texts| == |vectors|
    ensures PutPoints(store, d, texts, vectors, 0, 0) == store
  {
  }

  method UpsertBatch(cluster: Cluster, w: nat, k: Worker, m: Envelope, job: Job, chunks: seq<string>,
        vectors: seq<Vector>,
                     at: nat, end: nat, batch: seq<Point>, ghost start: State) returns (failed: bool)
    requires cluster.Valid() && Busy(cluster.Now(), w, k.(phase := Upserting(chunks, vectors, at)), m)
    requires Is(cluster.Now(), m.payload.documentId, job) && Grows(start, cluster.Now())
    requires at < end <= |chunks| == |vectors| && end <= at + cluster.c.upsertBatch
    requires batch == PointsOf(m.payload.documentId, chunks, vectors)[at..end]
    requires cluster.calm ==>
               cluster.db == start.db && cluster.points == PutPoints(start.points, m.payload.documentId, chunks,
                                                                     vectors, 0, at)
    modifies cluster
    ensures cluster.Valid() && Quietly(cluster.c, cluster.calm, w, old(cluster.history), cluster.history)
    ensures Grows(start, cluster.Now())
    ensures failed ==> AtWork(cluster.Now(), w, k, m)
    ensures !failed ==>
              Busy(cluster.Now(), w, k.(phase := Upserting(chunks, vectors, end)), m) && Is(cluster.Now(),
                                                                                            m.payload.documentId, job)
    ensures cluster.calm ==> cluster.history == old(cluster.history) + [Upsert(w, end)]
    ensures cluster.calm ==>
              && !failed && cluster.db == start.db
              && cluster.points == PutPoints(start.points, m.payload.documentId, chunks, vectors, 0, end)
  {
    hide Inv, Run, TallyBy, Foreign, Enabled, Apply, Grows, Busy, Is, AtWork, PutPoints, Overwritten, PointsOf;
    var d := m.payload.documentId;
    failed := Await(cluster, w, k.(phase := Upserting(chunks, vectors, at)), m, job, start);
    ghost var ready := cluster.Now();
    StillAtWork(ready, w, k, m, Upserting(chunks, vectors, at));
    if failed {
      return;
    }
    BusyFacts(ready, w, k.(phase := Upserting(chunks, vectors, at)), m);
    UpsertEnabled(cluster.c, ready, w, chunks, vectors, at, end);
    SliceWrites(ready.points, d, chunks, vectors, at, end);
    BusyPast(ready, w, k.(phase := Upserting(chunks, vectors, at)), m, job,
             PutPoints(ready.points, d, chunks, vectors, at, end), Upserting(chunks, vectors, end));
    cluster.Sound();
    GrowsByStep(cluster.c, start, ready, Upsert(w, end));
    cluster.UpsertPoints(batch, Upsert(w, end));
    StillAtWork(cluster.Now(), w, k, m, Upserting(chunks, vectors, end));
    if cluster.calm {
      BatchesCompose(start.points, d, chunks, vectors, 0, at, end);
    }
    failed := cluster.Fails();      // the response may be lost
  }
}
