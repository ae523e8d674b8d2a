/** How the invariant survives the transactions that change the tables. */
module Commits {
  import opened Topics
  import opened Events
  import opened Model
  import opened Invariant
  import opened Frames

  predicate OutboxGrows(a: Outbox, b: Outbox) {
    forall e :: e in a ==> e in b && b[e] == a[e]
  }

  lemma MessagesKeepOutbox(c: Config, outbox: Outbox, outbox': Outbox, logs: Per<Log>, dlqs: Per<Log>)
    requires OutboxGrows(outbox, outbox') && MessagesOk(c, outbox, logs, dlqs)
    ensures MessagesOk(c, outbox', logs, dlqs)
  {
    forall g: Stage
      ensures LogOk(c, outbox', g, logs.At(g)) && DlqOk(c, outbox', g, dlqs.At(g))
    {
      assert LogOk(c, outbox, g, logs.At(g)) && DlqOk(c, outbox, g, dlqs.At(g));
    }
  }

  lemma RelaysKeepOutbox(outbox: Outbox, outbox': Outbox, published: set<Id>, logs: Per<Log>, relays: map<nat, Batch>)
    requires OutboxGrows(outbox, outbox') && RelaysOk(outbox, published, logs, relays)
    ensures RelaysOk(outbox', published, logs, relays)
  {
    forall e | Sent(outbox, logs, e)
      ensures Sent(outbox', logs, e)
    {
    }
    forall r | r in relays
      ensures BatchOk(outbox', published, logs, relays[r])
    {
      assert BatchOk(outbox, published, logs, relays[r]);
    }
  }

  lemma BusGrows(c: Config, s: State, db: Db)
    requires BusInv(c, s.db, s.logs, s.dlqs, s.committed, s.workers) && RelayInv(s.db, s.logs, s.relays)
    requires OutboxGrows(s.db.outbox, db.outbox) && s.db.ledger <= db.ledger && db.published == s.db.published
    ensures BusInv(c, db, s.logs, s.dlqs, s.committed, s.workers)
    ensures RelayInv(db, s.logs, s.relays)
  {
    hide MessagesOk, OffsetsOk, PositionsOk, RelaysOk, BatchesDisjoint, OutboxGrows;
    MessagesKeepOutbox(c, s.db.outbox, db.outbox, s.logs, s.dlqs);
    OffsetsGrow(s.logs, s.dlqs, s.db.ledger, s.logs, s.dlqs, db.ledger, s.committed);
    PositionsGrow(s.logs, s.dlqs, s.db.ledger, s.logs, s.dlqs, db.ledger, s.workers);
    RelaysKeepOutbox(s.db.outbox, db.outbox, s.db.published, s.logs, s.relays);
  }

  /** Everything a job row is created with; later transactions never change it. */
  predicate SameIdentity(a: Job, b: Job) {
    && a.id == b.id && a.documentId == b.documentId && a.filename == b.filename && a.contentType == b.contentType
    && a.sizeBytes == b.sizeBytes && a.storageUri == b.storageUri
  }

  predicate SameResults(a: Job, b: Job) {
    a.classification == b.classification && a.summary == b.summary && a.chunkCount == b.chunkCount
  }

  predicate JobsKeepIdentity(a: Jobs, b: Jobs) {
    forall d :: d in a ==> d in b && SameIdentity(a[d], b[d])
  }

  /** No open transaction holds the key, and none is about to use the id. */
  predicate Unheld(s: State, cl: Claim) {
    forall w :: w in s.workers && Holding(s.logs, s.workers[w]) ==> KeyOf(s.logs, s.workers[w]) != cl
  }

  predicate Undrawn(s: State, e: Id) {
    forall w :: w in s.workers && InTransaction(s.workers[w].phase) ==> s.workers[w].draw != e
  }

  lemma PhasesKeepJobs(c: Config, jobs: Jobs, jobs': Jobs, objects: Objects, points: Points, logs: Per<Log>,
        dlqs: Per<Log>,
                       workers: Workers)
    requires JobsKeepIdentity(jobs, jobs') && PhasesOk(c, jobs, objects, points, logs, dlqs, workers)
    ensures PhasesOk(c, jobs', objects, points, logs, dlqs, workers)
  {
    forall w | w in workers
      ensures PhaseOk(c, jobs', objects, points, logs, dlqs, workers[w])
    {
      assert PhaseOk(c, jobs, objects, points, logs, dlqs, workers[w]);
    }
  }

  lemma LocksKeep(s: State, db: Db, cl: Claim)
    requires LocksOk(s.logs, s.db.ledger, s.workers) && db.ledger <= s.db.ledger + {cl} && Unheld(s, cl)
    ensures LocksOk(s.logs, db.ledger, s.workers)
  {
    hide KeyOf, Holding;
  }

  lemma DrawsKeep(s: State, db: Db, e: Id)
    requires DrawsOk(s.db.outbox, s.minted, s.workers) && db.outbox.Keys <= s.db.outbox.Keys + {e} && Undrawn(s, e)
    ensures DrawsOk(db.outbox, s.minted, s.workers)
  {
  }

  lemma WorkersKeep(c: Config, s: State, db: Db, cl: Claim, e: Id)
    requires WorkersInv(c, s) && JobsKeepIdentity(s.db.jobs, db.jobs)
    requires db.ledger == s.db.ledger || (db.ledger == s.db.ledger + {cl} && Unheld(s, cl))
    requires db.outbox == s.db.outbox || (db.outbox.Keys <= s.db.outbox.Keys + {e} && Undrawn(s, e))
    ensures WorkersInv(c, s.(db := db))
  {
    hide LocksOk, DrawsOk, PhasesOk, Undrawn, Unheld, JobsKeepIdentity;
    if db.ledger != s.db.ledger {
      LocksKeep(s, db, cl);
    }
    if db.outbox != s.db.outbox {
      DrawsKeep(s, db, e);
    }
    PhasesKeepJobs(c, s.db.jobs, db.jobs, s.objects, s.points, s.logs, s.dlqs, s.workers);
  }

  // ----- emitting the next event -----------------------------------------------------------

  /** A handler's transaction: it claims `e`, stores the event `f` that `e` leads to and updates
      the job of document `d`. */
  predicate Emits(c: Config, s: State, db: Db, e: Id, d: Id, g: Stage, f: Id) {
    && !g.Enriched? && IsRow(s.db.outbox, e, d, g) && Claim(e, g) !in s.db.ledger && f !in s.db.outbox
    && f in db.outbox && db.outbox == s.db.outbox[f := db.outbox[f]] && IsRow(db.outbox, f, d, Next(g))
    && db.outbox[f].payload.correlationId == s.db.outbox[e].payload.correlationId
    && db.ledger == s.db.ledger + {Claim(e, g)} && db.views == s.db.views && db.published == s.db.published
    && d in s.db.jobs && d in db.jobs && db.jobs == s.db.jobs[d := db.jobs[d]] && SameIdentity(s.db.jobs[d], db.jobs[d])
    && RowOk(c, db.jobs, s.objects, db.outbox[f], f)
    && (g.Ingested? ==> SameResults(s.db.jobs[d], db.jobs[d]) && db.jobs[d].status.TextReady?
                        && TextUri(d, s.db.jobs[d].filename) in s.objects)
    && (g.Extracted? ==> db.jobs[d].status.Completed?
                         && db.jobs[d].chunkCount == Some(|ChunksOf(c, s.objects, s.db.jobs[d])|)
                         && Covers(s.points, d, |ChunksOf(c, s.objects, s.db.jobs[d])|))
  }

  lemma HasAfter(outbox: Outbox, outbox': Outbox, f: Id)
    requires f in outbox' && f !in outbox && outbox' == outbox[f := outbox'[f]]
    ensures OutboxGrows(outbox, outbox')
    ensures forall d, g {:trigger Has(outbox', d, g)} {:trigger Has(outbox, d, g)} ::
              Has(outbox', d, g) <==>
                (Has(outbox, d, g) || (d == outbox'[f].payload.documentId && g == outbox'[f].payload.eventType))
    ensures forall e, d, g {:trigger IsRow(outbox', e, d, g)} {:trigger IsRow(outbox, e, d, g)} ::
              IsRow(outbox', e, d, g) <==>
                (IsRow(outbox, e, d,
                       g) || (e == f && d == outbox'[f].payload.documentId && g == outbox'[f].payload.eventType))
  {
    forall d, g | Has(outbox, d, g)
      ensures Has(outbox', d, g)
    {
      var e :| IsRow(outbox, e, d, g);
      assert IsRow(outbox', e, d, g);
    }
    assert IsRow(outbox', f, outbox'[f].payload.documentId, outbox'[f].payload.eventType);
    forall d, g | Has(outbox', d, g) && !(d == outbox'[f].payload.documentId && g == outbox'[f].payload.eventType)
      ensures Has(outbox, d, g)
    {
      var e :| IsRow(outbox', e, d, g);
      assert IsRow(outbox, e, d, g);
    }
  }

  /** Unclaimed means not yet emitted. */
  lemma NotYetEmitted(c: Config, s: State, db: Db, e: Id, d: Id, g: Stage, f: Id)
    requires EventsInv(c, s.db, s.objects) && Emits(c, s, db, e, d, g, f)
    ensures !Has(s.db.outbox, d, Next(g)) && Claim(f, Next(g)) !in s.db.ledger
    ensures d !in s.db.views && !Has(s.db.outbox, d, Enriched)
  {
    hide RowsOk, OneTrace, RowOk;
  }

  lemma EmitRows(c: Config, s: State, db: Db, e: Id, d: Id, g: Stage, f: Id)
    requires EventsInv(c, s.db, s.objects) && Emits(c, s, db, e, d, g, f)
    requires !Has(s.db.outbox, d, Next(g)) && !Has(s.db.outbox, d, Enriched)
    ensures RowsOk(c, db.jobs, s.objects, db.outbox)
  {
    hide Chained, Rooted, RowsUnique, OneTrace, LedgerTyped;
    forall x | x in db.outbox && x != f
      ensures RowOk(c, db.jobs, s.objects, db.outbox[x], x)
    {
      assert RowOk(c, s.db.jobs, s.objects, s.db.outbox[x], x);
      var m := s.db.outbox[x].payload;
      assert IsRow(s.db.outbox, x, m.documentId, m.eventType);
      assert SameIdentity(s.db.jobs[m.documentId], db.jobs[m.documentId]);
    }
  }

  /** The plain consequences of `Emits`. */
  lemma EmitFacts(c: Config, s: State, db: Db, e: Id, d: Id, g: Stage, f: Id)
    requires Emits(c, s, db, e, d, g, f)
    ensures OutboxGrows(s.db.outbox, db.outbox) && db.outbox.Keys <= s.db.outbox.Keys + {f}
    ensures db.ledger == s.db.ledger + {Claim(e, g)} && db.views == s.db.views && db.published == s.db.published
    ensures JobsKeepIdentity(s.db.jobs, db.jobs) && db.jobs.Keys == s.db.jobs.Keys
    ensures !g.Enriched? && IsRow(s.db.outbox, e, d, g) && f !in s.db.outbox
    ensures IsRow(db.outbox, f, d, Next(g)) && db.outbox == s.db.outbox[f := db.outbox[f]]
    ensures db.outbox[f].payload.correlationId == s.db.outbox[e].payload.correlationId
    ensures d in s.db.jobs
    ensures g.Ingested? ==> TextUri(d, s.db.jobs[d].filename) in s.objects
    ensures g.Extracted? ==> Covers(s.points, d, |ChunksOf(c, s.objects, s.db.jobs[d])|)
  {
    hide RowOk, Covers, ChunksOf, TextUri, IsRow, SameResults;
  }

  lemma EmitChain(c: Config, s: State, db: Db, e: Id, d: Id, g: Stage, f: Id)
    requires EventsInv(c, s.db, s.objects) && Emits(c, s, db, e, d, g, f)
    ensures EventsInv(c, db, s.objects)
  {
    NotYetEmitted(c, s, db, e, d, g, f);
    EmitRows(c, s, db, e, d, g, f);
    EmitFacts(c, s, db, e, d, g, f);
    hide Emits, RowsOk, RowsUnique, OneTrace, LedgerTyped, Chained, Rooted, Has;
    EmitUnique(s.db.outbox, db.outbox, d, g, f);
    EmitTrace(s.db.outbox, db.outbox, e, d, g, f);
    EmitTyped(s.db.outbox, s.db.ledger, db.outbox, e, d, g, f);
    EmitChained(s.db.outbox, s.db.ledger, s.db.views, db.outbox, e, d, g, f);
    EmitRooted(s.db.jobs, s.db.outbox, s.db.views, db.jobs, db.outbox, e, d, g, f);
  }

  lemma EmitUnique(outbox: Outbox, outbox': Outbox, d: Id, g: Stage, f: Id)
    requires RowsUnique(outbox) && !Has(outbox, d, Next(g))
    requires f !in outbox && IsRow(outbox', f, d, Next(g)) && outbox' == outbox[f := outbox'[f]]
    ensures RowsUnique(outbox')
  {
    HasAfter(outbox, outbox', f);
  }

  lemma EmitTrace(outbox: Outbox, outbox': Outbox, e: Id, d: Id, g: Stage, f: Id)
    requires OneTrace(outbox) && IsRow(outbox, e, d, g)
    requires f !in outbox && IsRow(outbox', f, d, Next(g)) && outbox' == outbox[f := outbox'[f]]
    requires outbox'[f].payload.correlationId == outbox[e].payload.correlationId
    ensures OneTrace(outbox')
  {
  }

  lemma EmitTyped(outbox: Outbox, ledger: set<Claim>, outbox': Outbox, e: Id, d: Id, g: Stage, f: Id)
    requires LedgerTyped(outbox, ledger) && IsRow(outbox, e, d, g)
    requires f !in outbox && IsRow(outbox', f, d, Next(g)) && outbox' == outbox[f := outbox'[f]]
    ensures LedgerTyped(outbox', ledger + {Claim(e, g)})
  {
  }

  lemma EmitRooted(jobs: Jobs, outbox: Outbox, views: map<Id, DocumentView>, jobs': Jobs, outbox': Outbox, e: Id,
        d: Id, g: Stage,
                   f: Id)
    requires Rooted(jobs, outbox, views) && IsRow(outbox, e, d, g) && !g.Enriched? && jobs'.Keys == jobs.Keys
    requires f !in outbox && IsRow(outbox', f, d, Next(g)) && outbox' == outbox[f := outbox'[f]]
    ensures Rooted(jobs', outbox', views)
  {
    HasAfter(outbox, outbox', f);
    assert Has(outbox, d, g);
  }

  lemma EmitChained(outbox: Outbox, ledger: set<Claim>, views: map<Id, DocumentView>, outbox': Outbox, e: Id, d: Id,
        g: Stage, f: Id)
    requires Chained(outbox, ledger, views) && RowsUnique(outbox) && !g.Enriched?
    requires IsRow(outbox, e, d, g) && f !in outbox && IsRow(outbox', f, d, Next(g))
    requires outbox' == outbox[f := outbox'[f]]
    requires !Has(outbox, d, Next(g)) && Claim(f, Next(g)) !in ledger && d !in views && !Has(outbox, d, Enriched)
    ensures Chained(outbox', ledger + {Claim(e, g)}, views)
  {
    HasAfter(outbox, outbox', f);
  }

  lemma EmitStores(c: Config, s: State, db: Db, e: Id, d: Id, g: Stage, f: Id)
    requires StoresInv(c, s.db, s.objects, s.minted) && Emits(c, s, db, e, d, g, f) && f in s.minted
    ensures StoresInv(c, db, s.objects, s.minted)
  {
    EmitFacts(c, s, db, e, d, g, f);
    hide Emits, Has, OutboxGrows;
    HasAfter(s.db.outbox, db.outbox, f);
    forall x | x in db.jobs
      ensures JobOk(s.objects, s.minted, x, db.jobs) && TextOk(c, db.jobs, s.objects, x)
    {
      assert JobOk(s.objects, s.minted, x, s.db.jobs) && TextOk(c, s.db.jobs, s.objects, x);
    }
  }

  lemma EmitStatuses(c: Config, s: State, db: Db, e: Id, d: Id, g: Stage, f: Id)
    requires StatusesOk(s.db.jobs, s.db.outbox, s.dlqs) && Emits(c, s, db, e, d, g, f)
    requires !Has(s.db.outbox, d, Enriched)
    ensures StatusesOk(db.jobs, db.outbox, s.dlqs)
  {
    hide Has, RowOk, Covers, DocumentIn;
    HasAfter(s.db.outbox, db.outbox, f);
    forall x | x in db.jobs
      ensures StatusOk(db.outbox, s.dlqs, x, db.jobs[x].status)
    {
      assert StatusOk(s.db.outbox, s.dlqs, x, s.db.jobs[x].status);
    }
  }

  lemma EmitCounts(c: Config, s: State, db: Db, e: Id, d: Id, g: Stage, f: Id)
    requires ResultsOk(c, s.db.jobs, s.objects, s.db.outbox) && Emits(c, s, db, e, d, g, f)
    requires !Has(s.db.outbox, d, Enriched)
    ensures ResultsOk(c, db.jobs, s.objects, db.outbox)
  {
    hide Has, RowOk, Covers;
    HasAfter(s.db.outbox, db.outbox, f);
    forall x | x in db.jobs && Has(db.outbox, x, Enriched)
      ensures db.jobs[x].chunkCount == Some(|ChunksOf(c, s.objects, db.jobs[x])|)
    {
      if x != d {
        assert ResultsOk(c, s.db.jobs, s.objects, s.db.outbox) && Has(s.db.outbox, x, Enriched);
      }
    }
  }

  lemma EmitViews(s: State, db: Db, c: Config, e: Id, d: Id, g: Stage, f: Id)
    requires ViewsOk(s.db.jobs, s.db.views) && Emits(c, s, db, e, d, g, f) && d !in s.db.views
    ensures ViewsOk(db.jobs, db.views)
  {
    hide RowOk, Covers, IsRow;
    forall x | x in db.views
      ensures x in db.jobs && ViewOk(db.jobs[x], db.views[x], x)
    {
      assert ViewOk(s.db.jobs[x], s.db.views[x], x);
    }
  }

  lemma EmitResults(c: Config, s: State, db: Db, e: Id, d: Id, g: Stage, f: Id)
    requires EventsInv(c, s.db, s.objects) && ResultsInv(c, s.db, s.objects, s.dlqs) && Emits(c, s, db, e, d, g, f)
    ensures ResultsInv(c, db, s.objects, s.dlqs)
  {
    NotYetEmitted(c, s, db, e, d, g, f);
    hide EventsInv, StatusesOk, ResultsOk, ViewsOk, Emits, Has;
    EmitStatuses(c, s, db, e, d, g, f);
    EmitCounts(c, s, db, e, d, g, f);
    EmitViews(s, db, c, e, d, g, f);
  }

  lemma SameChunks(c: Config, jobs: Jobs, jobs': Jobs, objects: Objects)
    requires JobsKeepIdentity(jobs, jobs')
    ensures forall d :: d in jobs ==> d in jobs' && ChunksOf(c, objects, jobs'[d]) == ChunksOf(c, objects, jobs[d])
  {
  }

  lemma PointsKeep(c: Config, jobs: Jobs, jobs': Jobs, objects: Objects, outbox: Outbox, outbox': Outbox,
        points: Points)
    requires JobsKeepIdentity(jobs, jobs') && PointsOk(c, jobs, objects, outbox, points)
    requires forall d :: Has(outbox, d, Extracted) ==> Has(outbox', d, Extracted)
    ensures PointsOk(c, jobs', objects, outbox', points)
  {
    SameChunks(c, jobs, jobs', objects);
    hide ChunksOf, JobsKeepIdentity, Has;
    forall id | id in points
      ensures PointOk(c, jobs', objects, outbox', id, points[id])
    {
      assert PointOk(c, jobs, objects, outbox, id, points[id]);
    }
  }

  lemma EmitVectors(c: Config, s: State, db: Db, e: Id, d: Id, g: Stage, f: Id)
    requires VectorsInv(c, s.db, s.objects, s.points) && Emits(c, s, db, e, d, g, f)
    ensures VectorsInv(c, db, s.objects, s.points)
  {
    EmitFacts(c, s, db, e, d, g, f);
    SameChunks(c, s.db.jobs, db.jobs, s.objects);
    hide Emits, Has, Covers, OutboxGrows, JobsKeepIdentity, ChunksOf, PointsOk;
    HasAfter(s.db.outbox, db.outbox, f);
    PointsKeep(c, s.db.jobs, db.jobs, s.objects, s.db.outbox, db.outbox, s.points);
    forall x | x in db.jobs && Has(db.outbox, x, Enriched)
      ensures Covers(s.points, x, |ChunksOf(c, s.objects, db.jobs[x])|)
    {
      if x != d {
        assert Has(s.db.outbox, x, Enriched);
      }
    }
  }

  lemma Emitted(c: Config, s: State, db: Db, e: Id, d: Id, g: Stage, f: Id)
    requires Inv(c, s) && Emits(c, s, db, e, d, g, f) && f in s.minted
    requires Unheld(s, Claim(e, g)) && Undrawn(s, f)
    ensures Inv(c, s.(db := db))
  {
    EmitFacts(c, s, db, e, d, g, f);
    hide Emits, StoresInv, EventsInv, ResultsInv, VectorsInv, BusInv, RelayInv, WorkersInv;
    hide OutboxGrows, JobsKeepIdentity, Unheld, Undrawn, IsRow;
    EmitStores(c, s, db, e, d, g, f);
    EmitChain(c, s, db, e, d, g, f);
    EmitResults(c, s, db, e, d, g, f);
    EmitVectors(c, s, db, e, d, g, f);
    BusGrows(c, s, db);
    WorkersKeep(c, s, db, Claim(e, g), f);
  }

  // ----- a new job and its first event -----------------------------------------------------

  /** The gateway's transaction: job `d` and its ingested event `e`. */
  predicate Creates(s: State, db: Db, d: Id, e: Id) {
    && d !in s.db.jobs && d in s.minted && e !in s.db.outbox && e in s.minted
    && (forall u :: u in s.objects ==> u.owner != d)
    && d in db.jobs && db.jobs == s.db.jobs[d := db.jobs[d]] && e in db.outbox
    && db.outbox == s.db.outbox[e := db.outbox[e]]
    && db.ledger == s.db.ledger && db.views == s.db.views && db.published == s.db.published
    && db.jobs[d].documentId == d && db.jobs[d].storageUri in s.objects && db.jobs[d].storageUri.owner !in s.db.jobs
    && db.jobs[d].status.Pending?
    && IsRow(db.outbox, e, d, Ingested)
    && db.outbox[e] == RowFor(IngestedEvent(db.jobs[d], e, db.outbox[e].payload.correlationId), db.outbox[e].createdAt)
  }

  /** A document without a job has no rows, points or view. */
  lemma Unknown(c: Config, s: State, d: Id)
    requires EventsInv(c, s.db, s.objects) && d !in s.db.jobs
    ensures forall g :: !Has(s.db.outbox, d, g)
    ensures d !in s.db.views
  {
    hide RowsUnique, OneTrace, LedgerTyped, Chained;
    forall x | x in s.db.outbox
      ensures s.db.outbox[x].payload.documentId in s.db.jobs
    {
      assert RowOk(c, s.db.jobs, s.objects, s.db.outbox[x], x);
    }
  }

  lemma CreateStores(c: Config, s: State, db: Db, d: Id, e: Id)
    requires StoresInv(c, s.db, s.objects, s.minted) && Creates(s, db, d, e)
    requires forall g :: !Has(s.db.outbox, d, g)
    ensures StoresInv(c, db, s.objects, s.minted)
  {
    hide Has;
    HasAfter(s.db.outbox, db.outbox, e);
    forall x | x in db.jobs
      ensures JobOk(s.objects, s.minted, x, db.jobs) && TextOk(c, db.jobs, s.objects, x)
    {
      if x != d {
        assert JobOk(s.objects, s.minted, x, s.db.jobs) && TextOk(c, s.db.jobs, s.objects, x);
      }
    }
  }

  lemma CreateRows(c: Config, s: State, db: Db, d: Id, e: Id)
    requires RowsOk(c, s.db.jobs, s.objects, s.db.outbox) && Creates(s, db, d, e)
    ensures RowsOk(c, db.jobs, s.objects, db.outbox)
  {
    forall x | x in db.outbox && x != e
      ensures RowOk(c, db.jobs, s.objects, db.outbox[x], x)
    {
      assert RowOk(c, s.db.jobs, s.objects, s.db.outbox[x], x);
    }
  }

  lemma CreateUnique(outbox: Outbox, outbox': Outbox, d: Id, e: Id)
    requires RowsUnique(outbox) && OneTrace(outbox) && (forall g :: !Has(outbox, d, g))
    requires e !in outbox && IsRow(outbox', e, d, Ingested) && outbox' == outbox[e := outbox'[e]]
    ensures RowsUnique(outbox') && OneTrace(outbox')
  {
    HasAfter(outbox, outbox', e);
    forall x | x in outbox
      ensures outbox[x].payload.documentId != d
    {
      HasRow(outbox, x);
    }
  }

  lemma CreateChained(outbox: Outbox, ledger: set<Claim>, views: map<Id, DocumentView>, outbox': Outbox, d: Id, e: Id)
    requires Chained(outbox, ledger, views) && LedgerTyped(outbox, ledger) && (forall g :: !Has(outbox, d, g))
    requires e !in outbox && IsRow(outbox', e, d, Ingested) && outbox' == outbox[e := outbox'[e]]
    ensures Chained(outbox', ledger, views) && LedgerTyped(outbox', ledger)
  {
    HasAfter(outbox, outbox', e);
  }

  lemma CreateRooted(jobs: Jobs, outbox: Outbox, views: map<Id, DocumentView>, jobs': Jobs, outbox': Outbox, d: Id,
        e: Id)
    requires Rooted(jobs, outbox, views) && jobs'.Keys == jobs.Keys + {d}
    requires e !in outbox && IsRow(outbox', e, d, Ingested) && outbox' == outbox[e := outbox'[e]]
    ensures Rooted(jobs', outbox', views)
  {
    HasAfter(outbox, outbox', e);
  }

  lemma CreateEvents(c: Config, s: State, db: Db, d: Id, e: Id)
    requires EventsInv(c, s.db, s.objects) && Creates(s, db, d, e)
    requires forall g :: !Has(s.db.outbox, d, g)
    ensures EventsInv(c, db, s.objects)
  {
    CreateRows(c, s, db, d, e);
    CreateFacts(s, db, d, e);
    hide Creates, RowsOk, RowsUnique, OneTrace, LedgerTyped, Chained, Rooted, Has, IsRow;
    CreateUnique(s.db.outbox, db.outbox, d, e);
    CreateChained(s.db.outbox, s.db.ledger, s.db.views, db.outbox, d, e);
    CreateRooted(s.db.jobs, s.db.outbox, s.db.views, db.jobs, db.outbox, d, e);
  }

  lemma HasRow(outbox: Outbox, x: Id)
    requires x in outbox
    ensures Has(outbox, outbox[x].payload.documentId, outbox[x].payload.eventType)
  {
    assert IsRow(outbox, x, outbox[x].payload.documentId, outbox[x].payload.eventType);
  }

  lemma CreateResults(c: Config, s: State, db: Db, d: Id, e: Id)
    requires ResultsInv(c, s.db, s.objects, s.dlqs) && Creates(s, db, d, e)
    requires forall g :: !Has(s.db.outbox, d, g)
    ensures ResultsInv(c, db, s.objects, s.dlqs)
  {
    hide Has, DocumentIn;
    HasAfter(s.db.outbox, db.outbox, e);
    forall x | x in db.jobs
      ensures StatusOk(db.outbox, s.dlqs, x, db.jobs[x].status)
    {
      if x != d {
        assert StatusOk(s.db.outbox, s.dlqs, x, s.db.jobs[x].status);
      }
    }
  }

  lemma CreateVectors(c: Config, s: State, db: Db, d: Id, e: Id)
    requires VectorsInv(c, s.db, s.objects, s.points) && Creates(s, db, d, e)
    requires forall g :: !Has(s.db.outbox, d, g)
    ensures VectorsInv(c, db, s.objects, s.points)
  {
    hide Has, Covers;
    HasAfter(s.db.outbox, db.outbox, e);
    forall id | id in s.points
      ensures PointOk(c, db.jobs, s.objects, db.outbox, id, s.points[id])
    {
      assert PointOk(c, s.db.jobs, s.objects, s.db.outbox, id, s.points[id]);
    }
  }

  lemma CreateFacts(s: State, db: Db, d: Id, e: Id)
    requires Creates(s, db, d, e)
    ensures OutboxGrows(s.db.outbox, db.outbox) && db.outbox.Keys <= s.db.outbox.Keys + {e}
    ensures db.ledger == s.db.ledger && db.published == s.db.published && JobsKeepIdentity(s.db.jobs, db.jobs)
    ensures d !in s.db.jobs && db.jobs.Keys == s.db.jobs.Keys + {d} && db.views == s.db.views
    ensures e !in s.db.outbox && IsRow(db.outbox, e, d, Ingested) && db.outbox == s.db.outbox[e := db.outbox[e]]
  {
  }

  lemma Created(c: Config, s: State, db: Db, d: Id, e: Id)
    requires Inv(c, s) && Creates(s, db, d, e) && Undrawn(s, e)
    ensures Inv(c, s.(db := db))
  {
    CreateFacts(s, db, d, e);
    hide Creates, StoresInv, EventsInv, ResultsInv, VectorsInv, BusInv, RelayInv, WorkersInv;
    hide OutboxGrows, JobsKeepIdentity, Undrawn;
    Unknown(c, s, d);
    CreateStores(c, s, db, d, e);
    CreateEvents(c, s, db, d, e);
    CreateResults(c, s, db, d, e);
    CreateVectors(c, s, db, d, e);
    BusGrows(c, s, db);
    WorkersKeep(c, s, db, Claim(e, Ingested), e);
  }

  // ----- projecting ------------------------------------------------------------------------

  /** The projector's transaction for the enriched event `e` of document `d`. */
  predicate Projects(s: State, db: Db, e: Id, d: Id) {
    && IsRow(s.db.outbox, e, d, Enriched) && d in s.db.jobs && d in db.views
    && db == s.db.(ledger := s.db.ledger + {Claim(e, Enriched)}, views := s.db.views[d := db.views[d]])
    && ViewOk(s.db.jobs[d], db.views[d], d)
  }

  lemma ProjectEvents(c: Config, s: State, db: Db, e: Id, d: Id)
    requires EventsInv(c, s.db, s.objects) && Projects(s, db, e, d)
    ensures EventsInv(c, db, s.objects)
  {
    hide RowsOk, OneTrace, ViewOk;
    assert Has(s.db.outbox, d, Enriched);
    assert Chained(db.outbox, db.ledger, db.views);
  }

  lemma ProjectViews(s: State, db: Db, e: Id, d: Id)
    requires ViewsOk(s.db.jobs, s.db.views) && Projects(s, db, e, d)
    ensures ViewsOk(db.jobs, db.views)
  {
    hide ViewOk;
  }

  lemma ProjectFacts(s: State, db: Db, e: Id, d: Id)
    requires Projects(s, db, e, d)
    ensures db.jobs == s.db.jobs && db.outbox == s.db.outbox && db.published == s.db.published
    ensures db.ledger == s.db.ledger + {Claim(e, Enriched)}
    ensures OutboxGrows(s.db.outbox, db.outbox) && JobsKeepIdentity(s.db.jobs, db.jobs)
  {
  }

  lemma ProjectResults(c: Config, s: State, db: Db, e: Id, d: Id)
    requires ResultsInv(c, s.db, s.objects, s.dlqs) && Projects(s, db, e, d)
    ensures ResultsInv(c, db, s.objects, s.dlqs)
  {
    ProjectFacts(s, db, e, d);
    ProjectViews(s, db, e, d);
    hide Projects, StatusesOk, ResultsOk, ViewsOk;
  }

  lemma SameTables(c: Config, s: State, db: Db)
    requires StoresInv(c, s.db, s.objects, s.minted) && VectorsInv(c, s.db, s.objects, s.points)
    requires db.jobs == s.db.jobs && db.outbox == s.db.outbox
    ensures StoresInv(c, db, s.objects, s.minted) && VectorsInv(c, db, s.objects, s.points)
  {
    hide JobsOk, TextsOk, TextStored, OutboxMinted, PointsOk, Indexed;
  }

  lemma Projected(c: Config, s: State, db: Db, e: Id, d: Id)
    requires Inv(c, s) && Projects(s, db, e, d) && Unheld(s, Claim(e, Enriched))
    ensures Inv(c, s.(db := db))
  {
    ProjectFacts(s, db, e, d);
    hide Projects, StoresInv, EventsInv, ResultsInv, VectorsInv, BusInv, RelayInv, WorkersInv;
    hide OutboxGrows, JobsKeepIdentity, Unheld;
    SameTables(c, s, db);
    ProjectEvents(c, s, db, e, d);
    ProjectResults(c, s, db, e, d);
    BusGrows(c, s, db);
    WorkersKeep(c, s, db, Claim(e, Enriched), e);
  }

  // ----- marking a job failed --------------------------------------------------------------

  /** Only status and error of one job change, to FAILED. */
  predicate MarksFailed(s: State, db: Db, d: Id) {
    && d in s.db.jobs && d in db.jobs && db == s.db.(jobs := s.db.jobs[d := db.jobs[d]])
    && SameIdentity(s.db.jobs[d], db.jobs[d]) && SameResults(s.db.jobs[d], db.jobs[d]) && db.jobs[d].status.Failed?
    && (DocumentIn(s.dlqs.ingested, d) || DocumentIn(s.dlqs.extracted, d))
  }

  lemma MarkedStores(c: Config, s: State, db: Db, d: Id)
    requires StoresInv(c, s.db, s.objects, s.minted) && MarksFailed(s, db, d)
    ensures StoresInv(c, db, s.objects, s.minted)
  {
    hide Has, DocumentIn;
    forall x | x in db.jobs
      ensures JobOk(s.objects, s.minted, x, db.jobs) && TextOk(c, db.jobs, s.objects, x)
    {
      assert JobOk(s.objects, s.minted, x, s.db.jobs) && TextOk(c, s.db.jobs, s.objects, x);
    }
  }

  lemma MarkedEvents(c: Config, s: State, db: Db, d: Id)
    requires EventsInv(c, s.db, s.objects) && MarksFailed(s, db, d)
    ensures EventsInv(c, db, s.objects)
  {
    hide Has, DocumentIn, RowsUnique, OneTrace, LedgerTyped, Chained;
    forall x | x in db.outbox
      ensures RowOk(c, db.jobs, s.objects, db.outbox[x], x)
    {
      assert RowOk(c, s.db.jobs, s.objects, s.db.outbox[x], x);
    }
  }

  lemma MarkedResults(c: Config, s: State, db: Db, d: Id)
    requires ResultsInv(c, s.db, s.objects, s.dlqs) && MarksFailed(s, db, d)
    ensures ResultsInv(c, db, s.objects, s.dlqs)
  {
    hide Has, DocumentIn;
    forall x | x in db.jobs
      ensures StatusOk(db.outbox, s.dlqs, x, db.jobs[x].status)
    {
      assert StatusOk(s.db.outbox, s.dlqs, x, s.db.jobs[x].status);
    }
  }

  lemma MarkedVectors(c: Config, s: State, db: Db, d: Id)
    requires VectorsInv(c, s.db, s.objects, s.points) && MarksFailed(s, db, d)
    ensures VectorsInv(c, db, s.objects, s.points)
  {
    hide Has, Covers, DocumentIn;
    forall id | id in s.points
      ensures PointOk(c, db.jobs, s.objects, db.outbox, id, s.points[id])
    {
      assert PointOk(c, s.db.jobs, s.objects, s.db.outbox, id, s.points[id]);
    }
  }

  lemma MarkedFacts(s: State, db: Db, d: Id)
    requires MarksFailed(s, db, d)
    ensures db.outbox == s.db.outbox && db.published == s.db.published && db.ledger == s.db.ledger
    ensures db.views == s.db.views && JobsKeepIdentity(s.db.jobs, db.jobs) && OutboxGrows(s.db.outbox, db.outbox)
  {
    hide DocumentIn;
  }

  lemma Marked(c: Config, s: State, db: Db, d: Id)
    requires Inv(c, s) && MarksFailed(s, db, d)
    ensures Inv(c, s.(db := db))
  {
    MarkedFacts(s, db, d);
    hide MarksFailed, StoresInv, EventsInv, ResultsInv, VectorsInv, BusInv, RelayInv, WorkersInv;
    hide JobsKeepIdentity, OutboxGrows;
    MarkedStores(c, s, db, d);
    MarkedEvents(c, s, db, d);
    MarkedResults(c, s, db, d);
    MarkedVectors(c, s, db, d);
    BusGrows(c, s, db);
    WorkersKeep(c, s, db, Claim("", Ingested), "");
  }
}
