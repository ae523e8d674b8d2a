/** Retrieval: a bounded fetch, a client-side filter, relevance cutoffs and truncation, against the
    obvious unbounded version. */
module Retrieval {
  import opened Events
  import opened Model
  import opened Embedding

  /** What a point's payload may hold; any key can be missing. */
  datatype PointPayload = PointPayload(documentId: Option<Id>, chunkIndex: Option<nat>, text: Option<string>)

  datatype ScoredPoint = ScoredPoint(payload: Option<PointPayload>, score: Option<real>)

  datatype Hit = Hit(documentId: Option<Id>, chunkIndex: Option<nat>, text: Option<string>, score: Option<real>)

  /** The whole collection, ranked for a query vector. */
  type Ranking = Vector -> seq<ScoredPoint>

  function HitOf(p: ScoredPoint): Hit {
    match p.payload
    case None => Hit(None, None, None, p.score)
    case Some(payload) => Hit(payload.documentId, payload.chunkIndex, payload.text, p.score)
  }

  function HitsOf(points: seq<ScoredPoint>): (hits: seq<Hit>)
    ensures |hits| == |points|
  {
    seq(|points|, i requires 0 <= i < |points| => HitOf(points[i]))
  }

  function Score(h: Hit): real {
    if h.score.None? then 0.0 else h.score.value
  }

  predicate Descending(hits: seq<Hit>) {
    forall i, j :: 0 <= i <= j < |hits| ==> Score(hits[i]) >= Score(hits[j])
  }

  function Take<T>(s: seq<T>, n: nat): (r: seq<T>)
    ensures r <= s && |r| == if n < |s| then n else |s|
  {
    if n < |s| then s[..n] else s
  }

  // ----- the relevance filter ----------------------------------------------------------------

  function AtLeast(hits: seq<Hit>, threshold: real): seq<Hit> {
    if hits == [] then []
    else
      var last := |hits| - 1;
      AtLeast(hits[..last], threshold) + if Score(hits[last]) >= threshold then [hits[last]] else []
  }

  /** A fraction of the best hit's score. */
  function Threshold(best: Hit, relativeCutoff: real): real {
    Score(best) * relativeCutoff
  }

  function FilterByRelevance(hits: seq<Hit>, minScore: real, relativeCutoff: real): seq<Hit> {
    var kept := AtLeast(hits, minScore);
    if relativeCutoff > 0.0 && kept != [] then AtLeast(kept, Threshold(kept[0], relativeCutoff)) else kept
  }

  /** In a ranking, the hits at or above a threshold come first. */
  lemma {:induction false} AtLeastIsPrefix(hits: seq<Hit>, threshold: real)
    requires Descending(hits)
    ensures AtLeast(hits, threshold) <= hits
    ensures forall i :: 0 <= i < |hits| ==> (Score(hits[i]) >= threshold <==> i < |AtLeast(hits, threshold)|)
  {
    if hits != [] {
      AtLeastIsPrefix(hits[..|hits| - 1], threshold);
    }
  }

  /** Relevant: above the floor, and close enough to the best hit. */
  predicate Passes(h: Hit, best: Hit, minScore: real, relativeCutoff: real) {
    Score(h) >= minScore && (relativeCutoff > 0.0 ==> Score(h) >= Threshold(best, relativeCutoff))
  }

  predicate Relevant(hits: seq<Hit>, i: nat, minScore: real, relativeCutoff: real)
    requires i < |hits|
  {
    Passes(hits[i], hits[0], minScore, relativeCutoff)
  }

  lemma TwoCutoffs(hits: seq<Hit>, a: real, b: real)
    requires Descending(hits)
    ensures AtLeast(AtLeast(hits, a), b) <= hits
    ensures forall i :: 0 <= i < |hits| ==>
              (Score(hits[i]) >= a && Score(hits[i]) >= b <==> i < |AtLeast(AtLeast(hits, a), b)|)
  {
    hide AtLeast;
    AtLeastIsPrefix(hits, a);
    AtLeastIsPrefix(AtLeast(hits, a), b);
  }

  /** On a ranking, the filter keeps exactly the relevant hits, and they are its first ones. */
  lemma FilterKeepsTheRelevant(hits: seq<Hit>, minScore: real, relativeCutoff: real)
    requires Descending(hits)
    ensures FilterByRelevance(hits, minScore, relativeCutoff) <= hits
    ensures forall i :: 0 <= i < |hits| ==>
              (Relevant(hits, i, minScore, relativeCutoff) <==> i < |FilterByRelevance(hits, minScore, relativeCutoff)|)
  {
    hide AtLeast, Descending, Threshold;
    AtLeastIsPrefix(hits, minScore);
    var kept := AtLeast(hits, minScore);
    if relativeCutoff > 0.0 && kept != [] {
      assert kept[0] == hits[0];
      TwoCutoffs(hits, minScore, Threshold(kept[0], relativeCutoff));
    }
  }

  /** The hits' scores as plain numbers; a missing score counts as 0. */
  predicate Graded(hits: seq<Hit>, scores: seq<real>) {
    && |hits| == |scores|
    && forall i :: 0 <= i < |hits| ==> hits[i].score == Some(scores[i]) || (hits[i].score.None? && scores[i] == 0.0)
  }

  predicate Falling(scores: seq<real>) {
    forall i, j :: 0 <= i <= j < |scores| ==> scores[i] >= scores[j]
  }

  /** At least the floor and, with a positive cutoff, at least that fraction of the best score. */
  predicate InReach(scores: seq<real>, i: nat, minScore: real, relativeCutoff: real)
    requires i < |scores|
  {
    scores[i] >= minScore && (relativeCutoff > 0.0 ==> scores[i] >= scores[0] * relativeCutoff)
  }

  predicate Scaled(scores: seq<real>, larger: seq<real>, factor: real) {
    |larger| == |scores| && forall i :: 0 <= i < |scores| ==> larger[i] == factor * scores[i]
  }

  lemma GradesRank(hits: seq<Hit>, scores: seq<real>)
    requires Graded(hits, scores) && Falling(scores)
    ensures Descending(hits) && forall i :: 0 <= i < |hits| ==> Score(hits[i]) == scores[i]
  {
  }

  /** What the two cutoffs come to, in numbers: a ranking keeps its first hits, those in reach. */
  lemma CutoffsInNumbers(hits: seq<Hit>, scores: seq<real>, minScore: real, relativeCutoff: real)
    requires Graded(hits, scores) && Falling(scores)
    ensures FilterByRelevance(hits, minScore, relativeCutoff) <= hits
    ensures forall i :: 0 <= i < |hits| ==>
              (InReach(scores, i, minScore, relativeCutoff) <==>
                 i < |FilterByRelevance(hits, minScore, relativeCutoff)|)
  {
    GradesRank(hits, scores);
    FilterKeepsTheRelevant(hits, minScore, relativeCutoff);
    hide FilterByRelevance, Descending, Score, Graded, Falling;
    forall i | 0 <= i < |hits|
      ensures i < |FilterByRelevance(hits, minScore, relativeCutoff)| <==> InReach(scores, i, minScore, relativeCutoff)
    {
      assert Relevant(hits, i, minScore, relativeCutoff) <==> InReach(scores, i, minScore, relativeCutoff);
    }
  }

  /** The best hit stays whenever it clears the floor: a cutoff up to 1 never drops a best score that is
      not negative. */
  lemma BestIsKept(hits: seq<Hit>, scores: seq<real>, minScore: real, relativeCutoff: real)
    requires Graded(hits, scores) && Falling(scores) && hits != []
    requires relativeCutoff <= 1.0 && scores[0] >= 0.0 && scores[0] >= minScore
    ensures FilterByRelevance(hits, minScore, relativeCutoff) != []
    ensures FilterByRelevance(hits, minScore, relativeCutoff)[0] == hits[0]
  {
    CutoffsInNumbers(hits, scores, minScore, relativeCutoff);
    assert relativeCutoff > 0.0 ==> scores[0] * relativeCutoff <= scores[0] * 1.0;
    assert InReach(scores, 0, minScore, relativeCutoff);
    hide FilterByRelevance, Graded, Falling;
  }

  lemma ScaledComparison(a: real, b: real, cutoff: real, factor: real)
    requires factor > 0.0
    ensures factor * a >= factor * b * cutoff <==> a >= b * cutoff
  {
    assert factor * b * cutoff == factor * (b * cutoff);
    if a >= b * cutoff {
      assert factor * (a - b * cutoff) >= 0.0;
    } else {
      assert factor * (b * cutoff - a) > 0.0;
    }
  }

  lemma ScaledPlace(scores: seq<real>, larger: seq<real>, factor: real, i: nat, relativeCutoff: real)
    requires Scaled(scores, larger, factor) && factor > 0.0 && i < |scores|
    ensures InReach(scores, i, 0.0, relativeCutoff) <==> InReach(larger, i, 0.0, relativeCutoff)
  {
    assert larger[i] == factor * scores[i] && larger[0] == factor * scores[0];
    hide Scaled;
    ScaledComparison(scores[i], 0.0, 1.0, factor);
    ScaledComparison(scores[i], scores[0], relativeCutoff, factor);
  }

  lemma ScaledFalls(scores: seq<real>, larger: seq<real>, factor: real)
    requires Falling(scores) && Scaled(scores, larger, factor) && factor > 0.0
    ensures Falling(larger)
  {
    forall i, j | 0 <= i <= j < |larger|
      ensures larger[i] >= larger[j]
    {
      ScaledComparison(scores[i], scores[j], 1.0, factor);
    }
  }

  lemma LengthKept(scores: seq<real>, larger: seq<real>, factor: real)
    requires Scaled(scores, larger, factor)
    ensures |larger| == |scores|
  {
  }

  /** The relative cutoff adapts to the query: without a floor, scores a positive factor larger or
      smaller keep the same places. */
  lemma CutoffIsRelative(hits: seq<Hit>, scores: seq<real>, scaled: seq<Hit>, larger: seq<real>, factor: real,
                         relativeCutoff: real)
    requires Graded(hits, scores) && Falling(scores) && Graded(scaled, larger)
    requires Scaled(scores, larger, factor) && factor > 0.0
    ensures FilterByRelevance(hits, 0.0, relativeCutoff) <= hits
    ensures FilterByRelevance(scaled, 0.0, relativeCutoff) <= scaled
    ensures |FilterByRelevance(scaled, 0.0, relativeCutoff)| == |FilterByRelevance(hits, 0.0, relativeCutoff)|
  {
    hide FilterByRelevance, Falling, Scaled, InReach;
    ScaledFalls(scores, larger, factor);
    CutoffsInNumbers(hits, scores, 0.0, relativeCutoff);
    CutoffsInNumbers(scaled, larger, 0.0, relativeCutoff);
    assert |larger| == |scores| by { LengthKept(scores, larger, factor); }
    var a, b := |FilterByRelevance(hits, 0.0, relativeCutoff)|, |FilterByRelevance(scaled, 0.0, relativeCutoff)|;
    if a != b {
      var i := if a < b then a else b;
      ScaledPlace(scores, larger, factor, i, relativeCutoff);
    }
  }

  /** Filtering a ranking and cutting it short can be done in either order. */
  lemma FilterOfTake(hits: seq<Hit>, n: nat, minScore: real, relativeCutoff: real)
    requires Descending(hits)
    ensures FilterByRelevance(Take(hits, n), minScore, relativeCutoff)
         == Take(FilterByRelevance(hits, minScore, relativeCutoff), n)
  {
    var short := Take(hits, n);
    FilterKeepsTheRelevant(hits, minScore, relativeCutoff);
    FilterKeepsTheRelevant(short, minScore, relativeCutoff);
    var a := FilterByRelevance(short, minScore, relativeCutoff);
    var b := FilterByRelevance(hits, minScore, relativeCutoff);
    hide FilterByRelevance;
    if |a| < |short| {
      assert !Relevant(short, |a|, minScore, relativeCutoff) && !Relevant(hits, |a|, minScore, relativeCutoff);
    }
    if |b| < |short| {
      assert !Relevant(hits, |b|, minScore, relativeCutoff) && !Relevant(short, |b|, minScore, relativeCutoff);
    }
    SamePrefix(hits, a, Take(b, n));
  }

  lemma SamePrefix(hits: seq<Hit>, a: seq<Hit>, b: seq<Hit>)
    requires a <= hits && b <= hits
    requires |a| == |b|
    ensures a == b
  {
  }

  // ----- one document ------------------------------------------------------------------------

  function OfDocument(hits: seq<Hit>, d: Option<Id>): seq<Hit> {
    if d.None? then hits
    else if hits == [] then []
    else
      var last := |hits| - 1;
      OfDocument(hits[..last], d) + if hits[last].documentId == d then [hits[last]] else []
  }

  lemma {:induction false} OfDocumentKeepsOrder(hits: seq<Hit>, d: Option<Id>)
    requires Descending(hits)
    ensures Descending(OfDocument(hits, d))
    ensures forall h :: h in OfDocument(hits, d) ==> h in hits && (d.Some? ==> h.documentId == d)
  {
    if d.Some? && hits != [] {
      var last := |hits| - 1;
      OfDocumentKeepsOrder(hits[..last], d);
      forall h | h in OfDocument(hits[..last], d)
        ensures Score(h) >= Score(hits[last])
      {
        var i :| 0 <= i < last && hits[i] == h;
      }
    }
  }

  /** A document's hits among the first `n` are its first hits. */
  lemma {:induction false} OfDocumentTake(hits: seq<Hit>, n: nat, d: Option<Id>)
    ensures OfDocument(Take(hits, n), d) <= OfDocument(hits, d)
    decreases |hits|
  {
    if d.Some? && n < |hits| {
      var last := |hits| - 1;
      OfDocumentTake(hits[..last], n, d);
      assert Take(hits[..last], n) == Take(hits, n);
    }
  }

  predicate Matches(h: Hit, d: Option<Id>) {
    d.None? || h.documentId == d
  }

  lemma {:induction false} OfDocumentMembers(hits: seq<Hit>, d: Option<Id>)
    ensures forall h :: h in OfDocument(hits, d) <==> h in hits && Matches(h, d)
  {
    if d.Some? && hits != [] {
      var last := |hits| - 1;
      OfDocumentMembers(hits[..last], d);
      assert forall h :: h in hits <==> h in hits[..last] || h == hits[last];
    }
  }

  lemma {:induction false} OfDocumentSplits(a: seq<Hit>, b: seq<Hit>, d: Option<Id>)
    ensures OfDocument(a + b, d) == OfDocument(a, d) + OfDocument(b, d)
    decreases |b|
  {
    if b == [] {
      assert a + b == a;
    } else if d.Some? {
      assert (a + b)[..|a + b| - 1] == a + b[..|b| - 1];
      OfDocumentSplits(a, b[..|b| - 1], d);
    }
  }

  // ----- bounded against unbounded -----------------------------------------------------------

  /** Rank everything, keep the document's hits, filter by relevance, take `limit`. */
  function Ideal(all: seq<Hit>, limit: nat, d: Option<Id>, minScore: real, relativeCutoff: real): seq<Hit> {
    Take(FilterByRelevance(OfDocument(all, d), minScore, relativeCutoff), limit)
  }

  /** How many hits are fetched: four times the limit for a non-empty document id. */
  function Fetch(limit: nat, d: Option<Id>): nat {
    if d.Some? && d.value != "" then limit * 4 else limit
  }

  /** The same on the bounded fetch. */
  function Bounded(all: seq<Hit>, limit: nat, d: Option<Id>, minScore: real, relativeCutoff: real): seq<Hit> {
    Take(FilterByRelevance(OfDocument(Take(all, Fetch(limit, d)), d), minScore, relativeCutoff), limit)
  }

  lemma {:induction false} AtLeastFrom(hits: seq<Hit>, threshold: real)
    ensures forall h :: h in AtLeast(hits, threshold) ==> h in hits
  {
    if hits != [] {
      AtLeastFrom(hits[..|hits| - 1], threshold);
    }
  }

  lemma FilterFrom(hits: seq<Hit>, minScore: real, relativeCutoff: real)
    ensures forall h :: h in FilterByRelevance(hits, minScore, relativeCutoff) ==> h in hits
  {
    hide AtLeast;
    var kept := AtLeast(hits, minScore);
    AtLeastFrom(hits, minScore);
    if relativeCutoff > 0.0 && kept != [] {
      AtLeastFrom(kept, Threshold(kept[0], relativeCutoff));
    }
  }

  /** Nothing is made up, and nothing of another document gets through, in whatever order it is ranked. */
  lemma BoundedFromAll(all: seq<Hit>, limit: nat, d: Option<Id>, minScore: real, relativeCutoff: real)
    ensures forall h :: h in Bounded(all, limit, d, minScore, relativeCutoff) ==> h in all && Matches(h, d)
  {
    hide FilterByRelevance, OfDocument;
    var fetched := Take(all, Fetch(limit, d));
    TakeFrom(all, Fetch(limit, d));
    OfDocumentMembers(fetched, d);
    FilterFrom(OfDocument(fetched, d), minScore, relativeCutoff);
    TakeFrom(FilterByRelevance(OfDocument(fetched, d), minScore, relativeCutoff), limit);
  }

  lemma TakeFrom<T>(s: seq<T>, n: nat)
    ensures forall x :: x in Take(s, n) ==> x in s
  {
  }

  /** Some hit of the document ranked behind the fetch passes the cutoffs set by the document's best. */
  predicate MissesARelevantHit(all: seq<Hit>, limit: nat, d: Option<Id>, minScore: real, relativeCutoff: real) {
    var mine := OfDocument(all, d);
    mine != [] && exists i :: Fetch(limit, d) <= i < |all| && Matches(all[i], d) && Passes(all[i], mine[0], minScore,
                                                                                           relativeCutoff)
  }

  /** The bounded answer is the ideal one cut to the hits of the document that were fetched. */
  lemma BoundedIsIdealCut(all: seq<Hit>, limit: nat, d: Option<Id>, minScore: real, relativeCutoff: real)
    requires Descending(all)
    ensures Bounded(all, limit, d, minScore, relativeCutoff)
         == Take(Ideal(all, limit, d, minScore, relativeCutoff), |OfDocument(Take(all, Fetch(limit, d)), d)|)
  {
    assert d.None? ==> OfDocument(Take(all, limit), d) == Take(all, limit);
    hide FilterByRelevance, OfDocument, Descending, Relevant;
    var mine := OfDocument(all, d);
    var fetched := OfDocument(Take(all, Fetch(limit, d)), d);
    OfDocumentKeepsOrder(all, d);
    OfDocumentTake(all, Fetch(limit, d), d);
    assert fetched == Take(mine, |fetched|);
    FilterOfTake(mine, |fetched|, minScore, relativeCutoff);
  }

  /** In a ranking cut after `n`, more than `n` hits pass exactly when one behind the cut does. */
  lemma MoreThanFetched(mine: seq<Hit>, n: nat, minScore: real, relativeCutoff: real)
    requires Descending(mine) && n <= |mine|
    ensures |FilterByRelevance(mine, minScore, relativeCutoff)| > n <==>
              exists h :: h in mine[n..] && Passes(h, mine[0], minScore, relativeCutoff)
  {
    hide FilterByRelevance, Descending, Passes;
    var kept := FilterByRelevance(mine, minScore, relativeCutoff);
    FilterKeepsTheRelevant(mine, minScore, relativeCutoff);
    if |kept| > n {
      assert Relevant(mine, n, minScore, relativeCutoff) && mine[n..][0] == mine[n];
      assert mine[n] in mine[n..];
    }
    if h :| h in mine[n..] && Passes(h, mine[0], minScore, relativeCutoff) {
      var j :| 0 <= j < |mine[n..]| && mine[n..][j] == h;
      assert mine[n + j] == h && Relevant(mine, n + j, minScore, relativeCutoff);
    }
  }

  /** The hits of the document behind the fetch, seen in the whole ranking. */
  lemma BehindTheFetch(all: seq<Hit>, n: nat, d: Option<Id>)
    ensures |OfDocument(Take(all, n), d)| <= |OfDocument(all, d)|
    ensures var behind := OfDocument(all, d)[|OfDocument(Take(all, n), d)|..];
            forall h :: h in behind <==> Matches(h, d) && exists i :: n <= i < |all| && all[i] == h
  {
    var rest := if n < |all| then all[n..] else [];
    assert all == Take(all, n) + rest;
    OfDocumentSplits(Take(all, n), rest, d);
    OfDocumentMembers(rest, d);
    hide OfDocument;
    var behind := OfDocument(all, d)[|OfDocument(Take(all, n), d)|..];
    assert behind == OfDocument(rest, d);
    forall h
      ensures h in rest <==> exists i :: n <= i < |all| && all[i] == h
    {
      if h in rest {
        var j :| 0 <= j < |rest| && rest[j] == h;
        assert all[n + j] == h;
      }
      if i :| n <= i < |all| && all[i] == h {
        assert rest[i - n] == h;
      }
    }
  }

  /** The bounded answer is the ideal one if and only if the fetch holds `limit` hits of the document,
      or no hit of the document behind it is relevant. */
  lemma BoundedIsIdealWhen(all: seq<Hit>, limit: nat, d: Option<Id>, minScore: real, relativeCutoff: real)
    requires Descending(all)
    ensures Bounded(all, limit, d, minScore, relativeCutoff) == Ideal(all, limit, d, minScore, relativeCutoff) <==>
              || limit <= |OfDocument(Take(all, Fetch(limit, d)), d)|
              || !MissesARelevantHit(all, limit, d, minScore, relativeCutoff)
  {
    var mine := OfDocument(all, d);
    var n := |OfDocument(Take(all, Fetch(limit, d)), d)|;
    BoundedIsIdealCut(all, limit, d, minScore, relativeCutoff);
    OfDocumentKeepsOrder(all, d);
    BehindTheFetch(all, Fetch(limit, d), d);
    MoreThanFetched(mine, n, minScore, relativeCutoff);
    hide FilterByRelevance, OfDocument, Descending, Passes, Matches, Bounded;
    var behind := mine[n..];
    if h :| h in behind && Passes(h, mine[0], minScore, relativeCutoff) {
      var i :| Fetch(limit, d) <= i < |all| && all[i] == h;
      assert MissesARelevantHit(all, limit, d, minScore, relativeCutoff);
    }
    if MissesARelevantHit(all, limit, d, minScore, relativeCutoff) {
      var i :| Fetch(limit, d) <= i < |all| && Matches(all[i], d) && Passes(all[i], mine[0], minScore, relativeCutoff);
      assert all[i] in behind;
    }
  }

  /** Without a document the two always agree, and so they do when the fetch covers the collection. */
  lemma BoundedIsIdealAnyway(all: seq<Hit>, limit: nat, d: Option<Id>, minScore: real, relativeCutoff: real)
    requires Descending(all) && (d.None? || |all| <= Fetch(limit, d))
    ensures Bounded(all, limit, d, minScore, relativeCutoff) == Ideal(all, limit, d, minScore, relativeCutoff)
  {
    BoundedIsIdealWhen(all, limit, d, minScore, relativeCutoff);
  }

  /** What the over-fetch is worth.  A search in one named document looks at the first `4 * limit` points:
      with `limit` hits of the document among them the answer is the ideal one, with none it is empty. */
  lemma FourTimesTheLimit(all: seq<Hit>, limit: nat, d: Id, minScore: real, relativeCutoff: real)
    requires Descending(all) && d != ""
    ensures limit <= |OfDocument(Take(all, 4 * limit), Some(d))| ==>
              Bounded(all, limit, Some(d), minScore, relativeCutoff) == Ideal(all, limit, Some(d), minScore,
                                                                              relativeCutoff)
    ensures (forall i :: 0 <= i < |all| && i < 4 * limit ==> all[i].documentId != Some(d)) ==>
              Bounded(all, limit, Some(d), minScore, relativeCutoff) == []
    ensures |OfDocument(Take(all, 4 * limit), Some(d))| < limit ==>
              |Bounded(all, limit, Some(d), minScore, relativeCutoff)| <= |OfDocument(Take(all, 4 * limit), Some(d))|
  {
    hide FilterByRelevance, OfDocument, Descending, MissesARelevantHit, Ideal;
    BoundedIsIdealWhen(all, limit, Some(d), minScore, relativeCutoff);
    BoundedIsIdealCut(all, limit, Some(d), minScore, relativeCutoff);
    if forall i :: 0 <= i < |all| && i < 4 * limit ==> all[i].documentId != Some(d) {
      NoneOfDocument(Take(all, 4 * limit), Some(d));
    }
  }

  /** Every other search looks at the first `limit` points only; in a document without a name, which the
      code also does not over-fetch for, the answer is made of hits among them. */
  lemma NoOverFetch(all: seq<Hit>, limit: nat, d: Option<Id>, minScore: real, relativeCutoff: real)
    requires d.None? || d.value == ""
    ensures forall h :: h in Bounded(all, limit, d, minScore, relativeCutoff) ==> h in Take(all, limit)
    ensures forall more :: Take(more, limit) == Take(all, limit) ==>
              Bounded(more, limit, d, minScore, relativeCutoff) == Bounded(all, limit, d, minScore, relativeCutoff)
  {
    hide FilterByRelevance, OfDocument;
    BoundedFromAll(Take(all, limit), limit, d, minScore, relativeCutoff);
    assert Take(Take(all, limit), limit) == Take(all, limit);
  }

  /** The over-fetch is not always enough: a fetch full of better hits of other documents hides the
      wanted one behind it, and a limit of one comes back empty. */
  lemma Starved(others: seq<Hit>, wanted: Hit, d: Option<Id>)
    requires d.Some? && wanted.documentId == d && Score(wanted) >= 0.0
    requires forall h :: h in others ==> h.documentId != d && Score(h) >= Score(wanted)
    requires Descending(others) && |others| == Fetch(1, d)
    ensures var all := others + [wanted];
            Descending(all) && Bounded(all, 1, d, 0.0, 0.0) == [] && Ideal(all, 1, d, 0.0, 0.0) == all[|others|..]
  {
    var all := others + [wanted];
    NoneOfDocument(others, d);
    assert all[..|all| - 1] == others && Take(all, |others|) == others && all[|others|..] == [wanted];
    assert OfDocument(all, d) == [wanted];
    OnlyHit(wanted);
    hide FilterByRelevance, OfDocument, Descending;
  }

  lemma OnlyHit(h: Hit)
    requires Score(h) >= 0.0
    ensures FilterByRelevance([h], 0.0, 0.0) == [h] && FilterByRelevance([], 0.0, 0.0) == []
  {
    assert [h][..0] == [];
    assert AtLeast([h], 0.0) == AtLeast([], 0.0) + [h];
  }

  lemma {:induction false} NoneOfDocument(hits: seq<Hit>, d: Option<Id>)
    requires d.Some? && forall h :: h in hits ==> h.documentId != d
    ensures OfDocument(hits, d) == []
  {
    if hits != [] {
      NoneOfDocument(hits[..|hits| - 1], d);
    }
  }

  const OTHER := Hit(Some("a"), Some(0), Some("x"), Some(0.9))
  const WANTED := Hit(Some("b"), Some(0), Some("y"), Some(0.8))
  const UNNAMED := Hit(Some(""), Some(0), Some("z"), Some(0.8))

  /** Four hits of another document are enough; for an empty document id, which filters without
      over-fetching, one is. */
  lemma OverFetchCanStarve()
    ensures Bounded([OTHER, OTHER, OTHER, OTHER, WANTED], 1, Some("b"), 0.0, 0.0) == []
    ensures Ideal([OTHER, OTHER, OTHER, OTHER, WANTED], 1, Some("b"), 0.0, 0.0) == [WANTED]
    ensures Bounded([OTHER, UNNAMED], 1, Some(""), 0.0, 0.0) == []
    ensures Ideal([OTHER, UNNAMED], 1, Some(""), 0.0, 0.0) == [UNNAMED]
  {
    hide Bounded, Ideal;
    Starved([OTHER, OTHER, OTHER, OTHER], WANTED, Some("b"));
    assert [OTHER, OTHER, OTHER, OTHER] + [WANTED] == [OTHER, OTHER, OTHER, OTHER, WANTED];
    assert [OTHER, OTHER, OTHER, OTHER, WANTED][4..] == [WANTED];
    Starved([OTHER], UNNAMED, Some(""));
    assert [OTHER] + [UNNAMED] == [OTHER, UNNAMED];
    assert [OTHER, UNNAMED][1..] == [UNNAMED];
  }

  // ----- the code ----------------------------------------------------------------------------

  /** The characters Python's `str.strip` removes. */
  predicate IsSpace(ch: char) {
    var n := ch as int;
    || 0x09 <= n <= 0x0D || 0x1C <= n <= 0x20 || n == 0x85 || n == 0xA0 || n == 0x1680
    || 0x2000 <= n <= 0x200A || n == 0x2028 || n == 0x2029 || n == 0x202F || n == 0x205F || n == 0x3000
  }

  predicate Blank(question: string) {
    forall i :: 0 <= i < |question| ==> IsSpace(question[i])
  }

  /** Nothing but the code points Unicode counts as white space, or as separating lines, fields and records. */
  predicate SaysNothing(question: string) {
    forall ch :: ch in question ==>
      ch as int in {9, 10, 11, 12, 13, 28, 29, 30, 31, 32, 133, 160, 5760, 8192, 8193, 8194, 8195, 8196, 8197, 8198,
                    8199, 8200, 8201, 8202, 8232, 8233, 8239, 8287, 12288}
  }

  lemma SpacesAre(ch: char)
    ensures IsSpace(ch) <==>
              ch as int in {9, 10, 11, 12, 13, 28, 29, 30, 31, 32, 133, 160, 5760, 8192, 8193, 8194, 8195, 8196, 8197,
                            8198, 8199, 8200, 8201, 8202, 8232, 8233, 8239, 8287, 12288}
  {
  }

  lemma BlankSaysNothing(question: string)
    ensures Blank(question) <==> SaysNothing(question)
  {
    hide IsSpace;
    if Blank(question) {
      forall ch | ch in question
        ensures IsSpace(ch)
      {
        var i :| 0 <= i < |question| && question[i] == ch;
      }
    }
    forall ch | ch in question {
      SpacesAre(ch);
    }
    if SaysNothing(question) {
      forall i | 0 <= i < |question|
        ensures IsSpace(question[i])
      {
        SpacesAre(question[i]);
        assert question[i] in question;
      }
    }
  }

  /** The hit carries the point's score and whatever its payload holds. */
  predicate Reports(hit: Hit, point: ScoredPoint) {
    && hit.score == point.score
    && (point.payload.None? ==> hit.documentId.None? && hit.chunkIndex.None? && hit.text.None?)
    && (point.payload.Some? ==>
          && hit.documentId == point.payload.value.documentId && hit.chunkIndex == point.payload.value.chunkIndex
          && hit.text == point.payload.value.text)
  }

  /** The points come best first. */
  predicate Ranked(points: seq<ScoredPoint>) {
    forall i, j :: 0 <= i <= j < |points| ==> NotBelow(points[i].score, points[j].score)
  }

  /** At least as good, where a missing score counts as 0. */
  predicate NotBelow(a: Option<real>, b: Option<real>) {
    match (a, b)
    case (Some(x), Some(y)) => x >= y
    case (Some(x), None) => x >= 0.0
    case (None, Some(y)) => 0.0 >= y
    case (None, None) => true
  }

  lemma HitsReport(points: seq<ScoredPoint>)
    ensures forall i :: 0 <= i < |points| ==> Reports(HitsOf(points)[i], points[i])
    ensures Ranked(points) ==> Descending(HitsOf(points))
  {
  }

  /** The `limit` best points, as plain hits. */
  method Search(ranking: Ranking, vector: Vector, limit: nat) returns (results: seq<Hit>)
    ensures results == Take(HitsOf(ranking(vector)), limit)
    ensures |results| == if limit < |ranking(vector)| then limit else |ranking(vector)|
    ensures forall i :: 0 <= i < |results| ==> Reports(results[i], ranking(vector)[i])
  {
    var response := Take(ranking(vector), limit);
    results := [];
    var i := 0;
    while i < |response|
      invariant i <= |response| && |results| == i
      invariant forall j :: 0 <= j < i ==> results[j] == HitOf(response[j])
    {
      results := results + [HitOf(response[i])];
      i := i + 1;
    }
    assert results == HitsOf(response);
    HitsReport(ranking(vector));
  }

  function Number(score: Option<real>): real {
    match score
    case None => 0.0
    case Some(x) => x
  }

  /** The point scores at least the floor and, with a positive cutoff, at least that fraction of the best. */
  predicate Worthy(points: seq<ScoredPoint>, i: nat, minScore: real, relativeCutoff: real)
    requires i < |points|
  {
    && Number(points[i].score) >= minScore
    && (relativeCutoff > 0.0 ==> Number(points[i].score) >= Number(points[0].score) * relativeCutoff)
  }

  /** The answer lists the first points of the ranking: those that are worthy, up to the limit. */
  predicate AnswersInNumbers(hits: seq<Hit>, points: seq<ScoredPoint>, limit: nat, minScore: real,
                             relativeCutoff: real) {
    && |hits| <= |points| && (forall i :: 0 <= i < |hits| ==> Reports(hits[i], points[i]))
    && forall i :: 0 <= i < |points| ==>
         (i < |hits| <==> i < limit && Worthy(points, i, minScore, relativeCutoff))
  }

  lemma IdealInNumbers(points: seq<ScoredPoint>, limit: nat, minScore: real, relativeCutoff: real)
    requires Ranked(points)
    ensures AnswersInNumbers(Ideal(HitsOf(points), limit, None, minScore, relativeCutoff), points, limit, minScore,
                             relativeCutoff)
  {
    HitsReport(points);
    var hits := HitsOf(points);
    FilterInNumbers(points, minScore, relativeCutoff);
    assert OfDocument(hits, None) == hits;
    hide FilterByRelevance, Reports, Ranked, OfDocument, HitsOf, Worthy;
  }

  lemma FilterInNumbers(points: seq<ScoredPoint>, minScore: real, relativeCutoff: real)
    requires Ranked(points)
    ensures var kept := FilterByRelevance(HitsOf(points), minScore, relativeCutoff);
            && kept <= HitsOf(points)
            && forall i :: 0 <= i < |points| ==> (Worthy(points, i, minScore, relativeCutoff) <==> i < |kept|)
  {
    var scores := Numbers(points);
    NumbersGrade(points);
    hide FilterByRelevance, Graded, Falling, Ranked, Number, InReach, HitOf;
    CutoffsInNumbers(HitsOf(points), scores, minScore, relativeCutoff);
    forall i | 0 <= i < |points|
      ensures Worthy(points, i, minScore, relativeCutoff)
         <==> i < |FilterByRelevance(HitsOf(points), minScore, relativeCutoff)|
    {
      WorthyInReach(points, i, minScore, relativeCutoff);
    }
  }

  function Numbers(points: seq<ScoredPoint>): (scores: seq<real>)
    ensures |scores| == |points|
  {
    seq(|points|, i requires 0 <= i < |points| => Number(points[i].score))
  }

  lemma NumbersGrade(points: seq<ScoredPoint>)
    ensures Graded(HitsOf(points), Numbers(points))
    ensures Ranked(points) ==> Falling(Numbers(points))
  {
  }

  lemma WorthyInReach(points: seq<ScoredPoint>, i: nat, minScore: real, relativeCutoff: real)
    requires i < |points|
    ensures Worthy(points, i, minScore, relativeCutoff) <==> InReach(Numbers(points), i, minScore, relativeCutoff)
  {
    assert Numbers(points)[i] == Number(points[i].score) && Numbers(points)[0] == Number(points[0].score);
  }

  /** The chunks relevant to a question; nothing when embedding it fails.  A blank question finds
      nothing without a call. */
  method Retrieve(embedder: OpenAIEmbedder, ranking: Ranking, question: string, limit: nat, documentId: Option<Id>,
                  minScore: real, relativeCutoff: real) returns (result: Option<seq<Hit>>,
                                                                 ghost vectors: Option<seq<Vector>>)
    modifies embedder
    ensures SaysNothing(question) ==> result == Some([]) && embedder.calls == old(embedder.calls)
    ensures !SaysNothing(question) ==> vectors == Whole(embedder.provider, old(embedder.calls), [question]).vectors
    ensures !SaysNothing(question) ==> (result.None? <==> vectors.None?)
    ensures !SaysNothing(question) && vectors == Some([]) ==> result == Some([])
    ensures !SaysNothing(question) && vectors.Some? && vectors.value != [] ==>
              forall h :: h in result.value ==>
                Matches(h, documentId) && exists p :: p in ranking(vectors.value[0]) && Reports(h, p)
    ensures !SaysNothing(question) && vectors.Some? && vectors.value != [] && documentId.None?
            && Ranked(ranking(vectors.value[0])) ==>
              AnswersInNumbers(result.value, ranking(vectors.value[0]), limit, minScore, relativeCutoff)
    ensures !SaysNothing(question) && vectors.Some? && vectors.value != [] && Ranked(ranking(vectors.value[0])) ==>
              var all := HitsOf(ranking(vectors.value[0]));
              var ideal := Ideal(all, limit, documentId, minScore, relativeCutoff);
              && result.value <= ideal && |result.value| <= limit
              && (result.value == ideal <==>
                    || limit <= |OfDocument(Take(all, Fetch(limit, documentId)), documentId)|
                    || !MissesARelevantHit(all, limit, documentId, minScore, relativeCutoff))
              && (documentId.None? ==> result.value == ideal)
  {
    BlankSaysNothing(question);
    hide SaysNothing;
    vectors := Some([]);
    if Blank(question) {
      return Some([]), vectors;
    }
    var embedded := embedder.Embed([question]);
    vectors := embedded;
    if embedded.None? {
      return None, vectors;
    }
    if embedded.value == [] {
      return Some([]), vectors;
    }
    var vector := embedded.value[0];
    var hits := Search(ranking, vector, Fetch(limit, documentId));
    ghost var all := HitsOf(ranking(vector));
    if documentId.Some? {
      hits := OfDocument(hits, documentId);
    }
    hits := FilterByRelevance(hits, minScore, relativeCutoff);
    var kept := Take(hits, limit);
    BoundedFromAll(all, limit, documentId, minScore, relativeCutoff);
    HitsReport(ranking(vector));
    assert kept == Bounded(all, limit, documentId, minScore, relativeCutoff);
    forall h | h in kept
      ensures exists p :: p in ranking(vector) && Reports(h, p)
    {
      var i :| 0 <= i < |all| && all[i] == h;
      assert ranking(vector)[i] in ranking(vector);
    }
    if Ranked(ranking(vector)) {
      if documentId.None? {
        IdealInNumbers(ranking(vector), limit, minScore, relativeCutoff);
      }
      BoundedIsIdealCut(all, limit, documentId, minScore, relativeCutoff);
      BoundedIsIdealWhen(all, limit, documentId, minScore, relativeCutoff);
      if documentId.None? {
        BoundedIsIdealAnyway(all, limit, documentId, minScore, relativeCutoff);
      }
    }
    return Some(kept), vectors;
  }
}
