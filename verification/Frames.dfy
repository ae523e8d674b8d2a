/** How the invariant survives a change of one component. */
module Frames {
  import opened Topics
  import opened Events
  import opened PointIds
  import opened Model
  import opened Invariant

  // ----- consumers -------------------------------------------------------------------------

  /** What an updated worker entry must satisfy on its own. */
  predicate WorkerOk(c: Config, s: State, w: nat, k: Worker) {
    && PositionOk(s.logs, s.dlqs, s.db.ledger, k)
    && PhaseOk(c, s.db.jobs, s.objects, s.points, s.logs, s.dlqs, k)
    && DrawOk(s.db.outbox, s.minted, k)
    && (Holding(s.logs, k) ==> KeyOf(s.logs, k) !in s.db.ledger)
    && (forall v :: v in s.workers && v != w ==> !Contend(s.logs, s.workers[v], k) && !SameDraw(s.workers[v], k))
  }

  lemma WorkerUpdated(c: Config, s: State, w: nat, k: Worker)
    requires Inv(c, s) && WorkerOk(c, s, w, k)
    ensures Inv(c, s.(workers := s.workers[w := k]))
  {
    hide StoresInv, EventsInv, ResultsInv, VectorsInv, RelayInv, MessagesOk, OffsetsOk;
    hide SafeFrom, PhaseOk, KeyOf;
    var after := s.workers[w := k];
    assert PositionsOk(s.logs, s.dlqs, s.db.ledger, after);
    assert LocksOk(s.logs, s.db.ledger, after);
    assert DrawsOk(s.db.outbox, s.minted, after);
    assert PhasesOk(c, s.db.jobs, s.objects, s.points, s.logs, s.dlqs, after);
  }

  lemma WorkerRemoved(c: Config, s: State, w: nat)
    requires Inv(c, s)
    ensures Inv(c, s.(workers := s.workers - {w}))
  {
  }

  /** A record that is claimed, dead-lettered or requeued can be passed. */
  lemma SafePast(log: Log, dlq: Log, ledger: set<Claim>, g: Stage, pos: nat)
    requires SafeFrom(log, dlq, ledger, g, pos) && pos < |log|
    requires Accounted(log, dlq, ledger, g, log[pos].eventId, pos + 1)
    ensures SafeFrom(log, dlq, ledger, g, pos + 1)
  {
    forall i | 0 <= i < pos + 1
      ensures Accounted(log, dlq, ledger, g, log[i].eventId, pos + 1)
    {
      if i < pos && !(Claim(log[i].eventId, g) in ledger || InLog(dlq, log[i].eventId, 0)) {
        var j :| pos <= j < |log| && log[j].eventId == log[i].eventId;
      }
    }
  }

  // ----- logs ------------------------------------------------------------------------------

  lemma AccountedGrows(log: Log, dlq: Log, ledger: set<Claim>, log': Log, dlq': Log, ledger': set<Claim>, g: Stage,
        e: Id, from: nat)
    requires log <= log' && dlq <= dlq' && ledger <= ledger'
    requires Accounted(log, dlq, ledger, g, e, from)
    ensures Accounted(log', dlq', ledger', g, e, from)
  {
    if InLog(dlq, e, 0) {
      var i :| 0 <= i < |dlq| && dlq[i].eventId == e;
      assert dlq'[i] == dlq[i];
    } else if InLog(log, e, from) {
      var i :| from <= i < |log| && log[i].eventId == e;
      assert log'[i] == log[i];
    }
  }

  lemma SafeFromGrows(log: Log, dlq: Log, ledger: set<Claim>, log': Log, dlq': Log, ledger': set<Claim>, g: Stage,
        from: nat)
    requires log <= log' && dlq <= dlq' && ledger <= ledger'
    requires SafeFrom(log, dlq, ledger, g, from)
    ensures SafeFrom(log', dlq', ledger', g, from)
  {
    forall i | 0 <= i < from
      ensures Accounted(log', dlq', ledger', g, log'[i].eventId, from)
    {
      assert log'[i] == log[i];
      AccountedGrows(log, dlq, ledger, log', dlq', ledger', g, log[i].eventId, from);
    }
  }

  predicate PerGrows(a: Per<Log>, b: Per<Log>) {
    forall g: Stage :: a.At(g) <= b.At(g)
  }

  lemma OffsetsGrow(logs: Per<Log>, dlqs: Per<Log>, ledger: set<Claim>, logs': Per<Log>, dlqs': Per<Log>,
        ledger': set<Claim>,
                    committed: Per<nat>)
    requires PerGrows(logs, logs') && PerGrows(dlqs, dlqs') && ledger <= ledger'
    requires OffsetsOk(logs, dlqs, ledger, committed)
    ensures OffsetsOk(logs', dlqs', ledger', committed)
  {
    forall g: Stage
      ensures SafeFrom(logs'.At(g), dlqs'.At(g), ledger', g, committed.At(g))
    {
      assert SafeFrom(logs.At(g), dlqs.At(g), ledger, g, committed.At(g));
      SafeFromGrows(logs.At(g), dlqs.At(g), ledger, logs'.At(g), dlqs'.At(g), ledger', g, committed.At(g));
    }
  }

  lemma PositionsGrow(logs: Per<Log>, dlqs: Per<Log>, ledger: set<Claim>, logs': Per<Log>, dlqs': Per<Log>,
        ledger': set<Claim>,
                      workers: Workers)
    requires PerGrows(logs, logs') && PerGrows(dlqs, dlqs') && ledger <= ledger'
    requires PositionsOk(logs, dlqs, ledger, workers)
    ensures PositionsOk(logs', dlqs', ledger', workers)
  {
    forall w | w in workers
      ensures PositionOk(logs', dlqs', ledger', workers[w])
    {
      var k := workers[w];
      assert PositionOk(logs, dlqs, ledger, k);
      assert logs.At(k.stage) <= logs'.At(k.stage);
      SafeFromGrows(logs.At(k.stage), dlqs.At(k.stage), ledger, logs'.At(k.stage), dlqs'.At(k.stage), ledger',
            k.stage, k.pos);
    }
  }

  lemma RelaysGrow(outbox: Outbox, published: set<Id>, logs: Per<Log>, logs': Per<Log>, relays: map<nat, Batch>)
    requires PerGrows(logs, logs') && RelaysOk(outbox, published, logs, relays)
    ensures RelaysOk(outbox, published, logs', relays)
  {
    forall e | Sent(outbox, logs, e)
      ensures Sent(outbox, logs', e)
    {
      var g := outbox[e].payload.eventType;
      var i :| 0 <= i < |logs.At(g)| && logs.At(g)[i].eventId == e;
      assert logs.At(g) <= logs'.At(g);
      assert logs'.At(g)[i] == logs.At(g)[i];
    }
    forall r | r in relays
      ensures BatchOk(outbox, published, logs', relays[r])
    {
      assert BatchOk(outbox, published, logs, relays[r]);
    }
  }

  /** In a growing log a busy worker still sees the same record. */
  lemma SameRecord(logs: Per<Log>, logs': Per<Log>, k: Worker)
    requires PerGrows(logs, logs')
    ensures k.pos < |logs.At(k.stage)| ==>
              (k.pos < |logs'.At(k.stage)| && RecordOf(logs', k) == RecordOf(logs, k))
  {
    assert logs.At(k.stage) <= logs'.At(k.stage);
  }

  lemma LocksGrow(dlqs: Per<Log>, ledger: set<Claim>, logs: Per<Log>, logs': Per<Log>, workers: Workers)
    requires PerGrows(logs, logs') && PositionsOk(logs, dlqs, ledger, workers) && LocksOk(logs, ledger, workers)
    ensures LocksOk(logs', ledger, workers)
  {
    forall w | w in workers && Holding(logs', workers[w])
      ensures Holding(logs, workers[w]) && KeyOf(logs', workers[w]) == KeyOf(logs, workers[w])
    {
      assert PositionOk(logs, dlqs, ledger, workers[w]);
      SameRecord(logs, logs', workers[w]);
    }
  }

  lemma PhasesGrow(c: Config, jobs: Jobs, objects: Objects, points: Points, logs: Per<Log>, dlqs: Per<Log>,
        logs': Per<Log>,
                   dlqs': Per<Log>, workers: Workers)
    requires PerGrows(logs, logs') && PerGrows(dlqs, dlqs')
    requires PhasesOk(c, jobs, objects, points, logs, dlqs, workers)
    ensures PhasesOk(c, jobs, objects, points, logs', dlqs', workers)
  {
    assert logs.At(Ingested) <= logs'.At(Ingested) && logs.At(Extracted) <= logs'.At(Extracted);
    forall w | w in workers
      ensures PhaseOk(c, jobs, objects, points, logs', dlqs', workers[w])
    {
      var k := workers[w];
      assert PhaseOk(c, jobs, objects, points, logs, dlqs, k);
      if k.phase.DeadLettered? {
        DocumentInGrows(dlqs.At(k.stage), dlqs'.At(k.stage), k.phase.documentId);
      }
    }
  }

  lemma DocumentInGrows(dlq: Log, dlq': Log, d: Id)
    requires dlq <= dlq'
    ensures DocumentIn(dlq, d) ==> DocumentIn(dlq', d)
  {
    if DocumentIn(dlq, d) {
      var i :| 0 <= i < |dlq| && dlq[i].documentId == d;
      assert dlq'[i] == dlq[i];
    }
  }

  lemma LogAppended(c: Config, s: State, g: Stage, m: Envelope)
    requires Inv(c, s) && MessageOk(s.db.outbox, g, m) && m.attempt < c.maxAttempts
    ensures Inv(c, s.(logs := s.logs.With(g, s.logs.At(g) + [m])))
  {
    hide StoresInv, EventsInv, ResultsInv, VectorsInv, OffsetsOk, PositionsOk, RelaysOk, LocksOk, DrawsOk, PhasesOk;
    var logs' := s.logs.With(g, s.logs.At(g) + [m]);
    assert PerGrows(s.logs, logs');
    assert MessagesOk(c, s.db.outbox, logs', s.dlqs);
    OffsetsGrow(s.logs, s.dlqs, s.db.ledger, logs', s.dlqs, s.db.ledger, s.committed);
    PositionsGrow(s.logs, s.dlqs, s.db.ledger, logs', s.dlqs, s.db.ledger, s.workers);
    RelaysGrow(s.db.outbox, s.db.published, s.logs, logs', s.relays);
    LocksGrow(s.dlqs, s.db.ledger, s.logs, logs', s.workers);
    PhasesGrow(c, s.db.jobs, s.objects, s.points, s.logs, s.dlqs, logs', s.dlqs, s.workers);
  }

  lemma StatusesGrow(jobs: Jobs, outbox: Outbox, dlqs: Per<Log>, dlqs': Per<Log>)
    requires PerGrows(dlqs, dlqs') && StatusesOk(jobs, outbox, dlqs)
    ensures StatusesOk(jobs, outbox, dlqs')
  {
    assert dlqs.At(Ingested) <= dlqs'.At(Ingested) && dlqs.At(Extracted) <= dlqs'.At(Extracted);
    forall d | d in jobs
      ensures StatusOk(outbox, dlqs', d, jobs[d].status)
    {
      DocumentInGrows(dlqs.ingested, dlqs'.ingested, d);
      DocumentInGrows(dlqs.extracted, dlqs'.extracted, d);
    }
  }

  lemma DlqAppended(c: Config, s: State, g: Stage, m: Envelope)
    requires Inv(c, s) && MessageOk(s.db.outbox, g, m) && m.attempt == c.maxAttempts - 1
    ensures Inv(c, s.(dlqs := s.dlqs.With(g, s.dlqs.At(g) + [m])))
  {
    hide StoresInv, EventsInv, VectorsInv, RelayInv, StatusesOk, OffsetsOk, PositionsOk, LocksOk, DrawsOk, PhasesOk;
    var dlqs' := s.dlqs.With(g, s.dlqs.At(g) + [m]);
    assert PerGrows(s.dlqs, dlqs');
    assert MessagesOk(c, s.db.outbox, s.logs, dlqs');
    StatusesGrow(s.db.jobs, s.db.outbox, s.dlqs, dlqs');
    OffsetsGrow(s.logs, s.dlqs, s.db.ledger, s.logs, dlqs', s.db.ledger, s.committed);
    PositionsGrow(s.logs, s.dlqs, s.db.ledger, s.logs, dlqs', s.db.ledger, s.workers);
    PhasesGrow(c, s.db.jobs, s.objects, s.points, s.logs, s.dlqs, s.logs, dlqs', s.workers);
  }

  // ----- identifiers -----------------------------------------------------------------------

  lemma Minted(c: Config, s: State, ids: set<Id>)
    requires Inv(c, s)
    ensures Inv(c, s.(minted := s.minted + ids))
  {
    forall d | d in s.db.jobs
      ensures JobOk(s.objects, s.minted + ids, d, s.db.jobs)
    {
      assert JobOk(s.objects, s.minted, d, s.db.jobs);
    }
  }

  // ----- stores ----------------------------------------------------------------------------

  /** The bytes the jobs were created from are untouched. */
  predicate SameSources(jobs: Jobs, objects: Objects, objects': Objects) {
    forall d :: d in jobs ==>
      jobs[d].storageUri in objects && jobs[d].storageUri in objects'
      && objects'[jobs[d].storageUri] == objects[jobs[d].storageUri]
  }

  lemma EventsKeepObjects(c: Config, db: Db, objects: Objects, objects': Objects)
    requires SameSources(db.jobs, objects, objects') && EventsInv(c, db, objects)
    ensures EventsInv(c, db, objects')
  {
    forall e | e in db.outbox
      ensures RowOk(c, db.jobs, objects', db.outbox[e], e)
    {
      assert RowOk(c, db.jobs, objects, db.outbox[e], e);
    }
  }

  lemma VectorsKeepObjects(c: Config, db: Db, objects: Objects, objects': Objects, points: Points)
    requires SameSources(db.jobs, objects, objects') && VectorsInv(c, db, objects, points)
    ensures VectorsInv(c, db, objects', points)
  {
    forall id | id in points
      ensures PointOk(c, db.jobs, objects', db.outbox, id, points[id])
    {
      assert PointOk(c, db.jobs, objects, db.outbox, id, points[id]);
    }
    forall d | d in db.jobs && Has(db.outbox, d, Enriched)
      ensures Covers(points, d, |ChunksOf(c, objects', db.jobs[d])|)
    {
      assert Covers(points, d, |ChunksOf(c, objects, db.jobs[d])|);
    }
  }

  lemma PhasesKeepObjects(c: Config, jobs: Jobs, objects: Objects, objects': Objects, points: Points, logs: Per<Log>,
                          dlqs: Per<Log>, workers: Workers)
    requires SameSources(jobs, objects, objects') && objects.Keys <= objects'.Keys
    requires PhasesOk(c, jobs, objects, points, logs, dlqs, workers)
    ensures PhasesOk(c, jobs, objects', points, logs, dlqs, workers)
  {
    forall w | w in workers
      ensures PhaseOk(c, jobs, objects', points, logs, dlqs, workers[w])
    {
      assert PhaseOk(c, jobs, objects, points, logs, dlqs, workers[w]);
    }
  }

  lemma StoresKeepObjects(c: Config, db: Db, objects: Objects, minted: set<Id>, u: Uri, data: Bytes)
    requires StoresInv(c, db, objects, minted) && u.owner in minted
    requires SameSources(db.jobs, objects, objects[u := data])
    requires forall d :: d in db.jobs && TextUri(d, db.jobs[d].filename) == u ==>
               data == c.encode(ExtractionOf(c, objects, db.jobs[d]).text)
    ensures StoresInv(c, db, objects[u := data], minted)
  {
    var objects' := objects[u := data];
    forall d | d in db.jobs
      ensures JobOk(objects', minted, d, db.jobs) && TextOk(c, db.jobs, objects', d)
    {
      assert JobOk(objects, minted, d, db.jobs) && TextOk(c, db.jobs, objects, d);
    }
  }

  /** Writing an object that no job was created from, and that can only be a text object if it
      holds the right text. */
  lemma ObjectPut(c: Config, s: State, u: Uri, data: Bytes)
    requires Inv(c, s) && u.owner in s.minted
    requires forall d :: d in s.db.jobs ==> s.db.jobs[d].storageUri != u
    requires forall d :: d in s.db.jobs && TextUri(d, s.db.jobs[d].filename) == u ==>
               data == c.encode(ExtractionOf(c, s.objects, s.db.jobs[d]).text)
    ensures Inv(c, s.(objects := s.objects[u := data]))
  {
    hide SameSources, TextUri, ExtractionOf;
    var objects' := s.objects[u := data];
    SourcesApart(c, s, u, data);
    hide StoresInv, EventsInv, VectorsInv, BusInv, RelayInv, StatusesOk, ResultsOk, ViewsOk, LocksOk, DrawsOk, PhasesOk;
    StoresKeepObjects(c, s.db, s.objects, s.minted, u, data);
    EventsKeepObjects(c, s.db, s.objects, objects');
    ResultsKeepObjects(c, s.db, s.objects, objects', s.dlqs);
    VectorsKeepObjects(c, s.db, s.objects, objects', s.points);
    PhasesKeepObjects(c, s.db.jobs, s.objects, objects', s.points, s.logs, s.dlqs, s.workers);
  }

  lemma SourcesApart(c: Config, s: State, u: Uri, data: Bytes)
    requires Inv(c, s) && forall d :: d in s.db.jobs ==> s.db.jobs[d].storageUri != u
    ensures SameSources(s.db.jobs, s.objects, s.objects[u := data])
  {
    hide EventsInv, ResultsInv, VectorsInv, BusInv, RelayInv, WorkersInv, TextsOk, TextStored, OutboxMinted;
    forall d | d in s.db.jobs
      ensures s.db.jobs[d].storageUri in s.objects
    {
      assert JobOk(s.objects, s.minted, d, s.db.jobs);
    }
  }

  lemma ResultsKeepObjects(c: Config, db: Db, objects: Objects, objects': Objects, dlqs: Per<Log>)
    requires SameSources(db.jobs, objects, objects') && ResultsInv(c, db, objects, dlqs)
    ensures ResultsInv(c, db, objects', dlqs)
  {
  }

  // ----- points ----------------------------------------------------------------------------

  /** Every point of `a` is still there in `b`, possibly with another vector. */
  predicate PointsGrow(a: Points, b: Points) {
    forall id :: id in a ==> id in b
  }

  lemma PhasesKeepPoints(c: Config, jobs: Jobs, objects: Objects, points: Points, points': Points, logs: Per<Log>,
                         dlqs: Per<Log>, workers: Workers)
    requires PointsGrow(points, points') && PhasesOk(c, jobs, objects, points, logs, dlqs, workers)
    ensures PhasesOk(c, jobs, objects, points', logs, dlqs, workers)
  {
    forall w | w in workers
      ensures PhaseOk(c, jobs, objects, points', logs, dlqs, workers[w])
    {
      assert PhaseOk(c, jobs, objects, points, logs, dlqs, workers[w]);
    }
  }

  lemma {:induction false} PutPointsGrow(points: Points, d: Id, texts: seq<string>, vectors: seq<Vector>, lo: nat,
        hi: nat)
    requires lo <= hi <= |texts| == |vectors|
    ensures PointsGrow(points, PutPoints(points, d, texts, vectors, lo, hi))
    ensures forall i :: lo <= i < hi ==> PointName(d, i) in PutPoints(points, d, texts, vectors, lo, hi)
    decreases hi
  {
    if lo < hi {
      PutPointsGrow(points, d, texts, vectors, lo, hi - 1);
    }
  }

  lemma {:induction false} PutPointsOk(c: Config, jobs: Jobs, objects: Objects, outbox: Outbox, points: Points, d: Id,
                                       texts: seq<string>, vectors: seq<Vector>, lo: nat, hi: nat)
    requires PointsOk(c, jobs, objects, outbox, points)
    requires d in jobs && Has(outbox, d, Extracted) && texts == ChunksOf(c, objects, jobs[d])
    requires lo <= hi <= |texts| == |vectors|
    ensures PointsOk(c, jobs, objects, outbox, PutPoints(points, d, texts, vectors, lo, hi))
    decreases hi
  {
    if lo < hi {
      PutPointsOk(c, jobs, objects, outbox, points, d, texts, vectors, lo, hi - 1);
    }
  }

  lemma PointsPut(c: Config, s: State, d: Id, texts: seq<string>, vectors: seq<Vector>, lo: nat, hi: nat)
    requires Inv(c, s) && d in s.db.jobs && Has(s.db.outbox, d, Extracted)
    requires texts == ChunksOf(c, s.objects, s.db.jobs[d])
    requires lo <= hi <= |texts| == |vectors|
    ensures Inv(c, s.(points := PutPoints(s.points, d, texts, vectors, lo, hi)))
  {
    hide StoresInv, EventsInv, ResultsInv, BusInv, RelayInv, LocksOk, DrawsOk, PhasesOk, PointsOk, PutPoints;
    var points' := PutPoints(s.points, d, texts, vectors, lo, hi);
    PutPointsGrow(s.points, d, texts, vectors, lo, hi);
    PutPointsOk(c, s.db.jobs, s.objects, s.db.outbox, s.points, d, texts, vectors, lo, hi);
    PhasesKeepPoints(c, s.db.jobs, s.objects, s.points, points', s.logs, s.dlqs, s.workers);
    forall e | e in s.db.jobs && Has(s.db.outbox, e, Enriched)
      ensures Covers(points', e, |ChunksOf(c, s.objects, s.db.jobs[e])|)
    {
      assert Covers(s.points, e, |ChunksOf(c, s.objects, s.db.jobs[e])|);
    }
  }

  // ----- relays ----------------------------------------------------------------------------

  lemma BatchUpdated(c: Config, s: State, r: nat, b: Batch)
    requires Inv(c, s) && BatchOk(s.db.outbox, s.db.published, s.logs, b)
    requires forall q, e :: q in s.relays && q != r && e in s.relays[q].ids ==> e !in b.ids
    ensures Inv(c, s.(relays := s.relays[r := b]))
  {
    hide StoresInv, EventsInv, ResultsInv, VectorsInv, BusInv, LocksOk, DrawsOk, PhasesOk, BatchOk, Sent;
  }

  lemma BatchRemoved(c: Config, s: State, r: nat)
    requires Inv(c, s)
    ensures Inv(c, s.(relays := s.relays - {r}))
  {
    hide StoresInv, EventsInv, ResultsInv, VectorsInv, BusInv, LocksOk, DrawsOk, PhasesOk, BatchOk, Sent;
  }
}
