/** The query side meets the pipeline: what a search returns is text of stored documents. */
module Grounding {
  import opened Events
  import opened Model
  import opened Invariant
  import opened Retrieval
  import Guarantees

  /** The ranking lists stored points, each with the payload it was upserted with. */
  ghost predicate RanksStored(ranking: Ranking, points: Points) {
    forall vector, i :: 0 <= i < |ranking(vector)| ==> IsStored(ranking(vector)[i], points)
  }

  predicate IsStored(hit: ScoredPoint, points: Points) {
    exists id :: id in points
      && hit.payload == Some(PointPayload(Some(points[id].documentId), Some(points[id].chunkIndex),
                                          Some(points[id].text)))
  }

  /** The hit quotes a document that has a job, and is the chunk with its index of that document's text. */
  predicate Quotes(c: Config, s: State, h: Hit) {
    && h.documentId.Some? && h.chunkIndex.Some? && h.text.Some? && h.documentId.value in s.db.jobs
    && var chunks := ChunksOf(c, s.objects, s.db.jobs[h.documentId.value]);
       h.chunkIndex.value < |chunks| && h.text.value == chunks[h.chunkIndex.value]
  }

  /** In every reachable state, every hit over the stored points is a chunk of its document's stored text,
      at its own index and with the score that chunk was ranked by, however far enrichment has got and
      whatever attempts were interrupted. */
  lemma HitsQuoteStoredText(c: Config, s: State, ranking: Ranking, vector: Vector, i: nat)
    requires ValidConfig(c) && Reachable(c, s) && RanksStored(ranking, s.points) && i < |ranking(vector)|
    ensures var h := HitsOf(ranking(vector))[i];
            Quotes(c, s, h) && h.score == ranking(vector)[i].score
  {
    hide Reachable, ChunksOf;
    assert IsStored(ranking(vector)[i], s.points);
    var id :| id in s.points
      && ranking(vector)[i].payload == Some(PointPayload(Some(s.points[id].documentId), Some(s.points[id].chunkIndex),
                                                         Some(s.points[id].text)));
    Guarantees.VectorsStayWithinTheText(c, s, id);
  }

  lemma RankedAreStored(ranking: Ranking, points: Points, vector: Vector, i: nat)
    requires RanksStored(ranking, points) && i < |ranking(vector)|
    ensures IsStored(ranking(vector)[i], points)
  {
  }

  /** So does everything a search answers with, and of the document asked for. */
  lemma AnswersQuoteStoredText(c: Config, s: State, ranking: Ranking, vector: Vector, limit: nat, d: Option<Id>,
                               minScore: real, relativeCutoff: real)
    requires ValidConfig(c) && Reachable(c, s) && RanksStored(ranking, s.points)
    ensures forall h :: h in Bounded(HitsOf(ranking(vector)), limit, d, minScore, relativeCutoff) ==>
              && Quotes(c, s, h) && (d.Some? ==> h.documentId == d)
              && exists p :: p in ranking(vector) && IsStored(p, s.points) && Reports(h, p)
  {
    hide Reachable, RanksStored, Quotes, Bounded;
    BoundedFromAll(HitsOf(ranking(vector)), limit, d, minScore, relativeCutoff);
    forall h | h in Bounded(HitsOf(ranking(vector)), limit, d, minScore, relativeCutoff)
      ensures Quotes(c, s, h) && exists p :: p in ranking(vector) && IsStored(p, s.points) && Reports(h, p)
    {
      var i :| 0 <= i < |ranking(vector)| && HitsOf(ranking(vector))[i] == h;
      HitsQuoteStoredText(c, s, ranking, vector, i);
      HitsReport(ranking(vector));
      RankedAreStored(ranking, s.points, vector, i);
      assert ranking(vector)[i] in ranking(vector);
    }
  }
}
