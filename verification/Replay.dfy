/** Replaying vector upserts: deterministic point ids make interrupted runs harmless. */
module Replay {
  import opened Events
  import opened PointIds
  import opened Model
  import opened Invariant

  /** Writing to a store is merging what is written to an empty one. */
  lemma {:induction false} PutPointsMerges(points: Points, d: Id, texts: seq<string>, vectors: seq<Vector>, lo: nat,
        hi: nat)
    requires lo <= hi <= |texts| == |vectors|
    ensures PutPoints(points, d, texts, vectors, lo, hi) == points + PutPoints(map[], d, texts, vectors, lo, hi)
    decreases hi
  {
    if lo < hi {
      PutPointsMerges(points, d, texts, vectors, lo, hi - 1);
    }
  }

  /** Exactly the ids of chunks `lo` to `hi` are written. */
  lemma {:induction false} WrittenKeys(d: Id, texts: seq<string>, vectors: seq<Vector>, lo: nat, hi: nat)
    requires lo <= hi <= |texts| == |vectors|
    ensures forall id ::
              id in PutPoints(map[], d, texts, vectors, lo, hi) <==> exists i :: lo <= i < hi && id == PointName(d, i)
    decreases hi
  {
    if lo < hi {
      WrittenKeys(d, texts, vectors, lo, hi - 1);
    }
  }

  /** Chunk `i` ends up under its own id, with its own text and vector. */
  lemma {:induction false} EachChunkUnderItsName(points: Points, d: Id, texts: seq<string>, vectors: seq<Vector>,
        lo: nat, hi: nat, i: nat)
    requires lo <= i < hi <= |texts| == |vectors|
    ensures var stored := PutPoints(points, d, texts, vectors, lo, hi);
            PointName(d, i) in stored && stored[PointName(d, i)] == Point(d, i, texts[i], vectors[i])
    decreases hi
  {
    PointNameInjective(d, i, d, hi - 1);
    if i < hi - 1 {
      EachChunkUnderItsName(points, d, texts, vectors, lo, hi - 1, i);
    }
  }

  /** Batches compose: writing up to `mid` and then on to `hi` is writing once. */
  lemma {:induction false} BatchesCompose(points: Points, d: Id, texts: seq<string>, vectors: seq<Vector>, lo: nat,
        mid: nat, hi: nat)
    requires lo <= mid <= hi <= |texts| == |vectors|
    ensures PutPoints(PutPoints(points, d, texts, vectors, lo, mid), d, texts, vectors, mid, hi)
         == PutPoints(points, d, texts, vectors, lo, hi)
    decreases hi
  {
    if mid < hi {
      BatchesCompose(points, d, texts, vectors, lo, mid, hi - 1);
    }
  }

  /** One run over a document that stopped after `upto` points, with that run's own vectors. */
  datatype Attempt = Attempt(vectors: seq<Vector>, upto: nat)

  predicate Fits(texts: seq<string>, attempts: seq<Attempt>) {
    forall a :: a in attempts ==> a.upto <= |texts| == |a.vectors|
  }

  /** The store after a series of interrupted runs. */
  function AfterAttempts(points: Points, d: Id, texts: seq<string>, attempts: seq<Attempt>): Points
    requires Fits(texts, attempts)
  {
    if attempts == [] then points
    else
      var last := attempts[|attempts| - 1];
      assert last in attempts;
      PutPoints(AfterAttempts(points, d, texts, attempts[..|attempts| - 1]), d, texts, last.vectors, 0, last.upto)
  }

  lemma MergeSubsumed(a: Points, b: Points, c: Points)
    requires forall id :: id in b ==> id in c
    ensures (a + b) + c == a + c
  {
  }

  lemma FullRunOverwrites(points: Points, d: Id, texts: seq<string>, a: Attempt, vectors: seq<Vector>)
    requires a.upto <= |texts| == |a.vectors| == |vectors|
    ensures PutPoints(PutPoints(points, d, texts, a.vectors, 0, a.upto), d, texts, vectors, 0, |texts|)
         == PutPoints(points, d, texts, vectors, 0, |texts|)
  {
    var n := |texts|;
    PutPointsMerges(points, d, texts, a.vectors, 0, a.upto);
    PutPointsMerges(PutPoints(points, d, texts, a.vectors, 0, a.upto), d, texts, vectors, 0, n);
    PutPointsMerges(points, d, texts, vectors, 0, n);
    WrittenKeys(d, texts, a.vectors, 0, a.upto);
    WrittenKeys(d, texts, vectors, 0, n);
    var partial := PutPoints(map[], d, texts, a.vectors, 0, a.upto);
    var full := PutPoints(map[], d, texts, vectors, 0, n);
    hide PutPoints;
    MergeSubsumed(points, partial, full);
  }

  /** Any number of runs interrupted anywhere, followed by one full run, leaves exactly the store a
      single full run leaves. */
  lemma {:induction false} InterruptionsLeaveNoTrace(points: Points, d: Id, texts: seq<string>,
        attempts: seq<Attempt>, vectors: seq<Vector>)
    requires Fits(texts, attempts) && |vectors| == |texts|
    ensures PutPoints(AfterAttempts(points, d, texts, attempts), d, texts, vectors, 0, |texts|)
         == PutPoints(points, d, texts, vectors, 0, |texts|)
  {
    if attempts != [] {
      var last := attempts[|attempts| - 1];
      assert last in attempts;
      FullRunOverwrites(AfterAttempts(points, d, texts, attempts[..|attempts| - 1]), d, texts, last, vectors);
      InterruptionsLeaveNoTrace(points, d, texts, attempts[..|attempts| - 1], vectors);
    }
  }

  /** The points of other documents are untouched, whatever their ids look like. */
  lemma OtherDocumentsUntouched(points: Points, d: Id, texts: seq<string>, vectors: seq<Vector>, lo: nat, hi: nat,
        e: Id, j: nat)
    requires lo <= hi <= |texts| == |vectors| && e != d
    ensures var after := PutPoints(points, d, texts, vectors, lo, hi);
            && (PointName(e, j) in after <==> PointName(e, j) in points)
            && (PointName(e, j) in points ==> after[PointName(e, j)] == points[PointName(e, j)])
  {
    PutPointsMerges(points, d, texts, vectors, lo, hi);
    WrittenKeys(d, texts, vectors, lo, hi);
    forall i: nat
      ensures PointName(d, i) != PointName(e, j)
    {
      PointNameInjective(d, i, e, j);
    }
  }
}
