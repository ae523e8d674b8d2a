/** Every step keeps the invariant, so every reachable state satisfies it. */
module Preservation {
  import opened Topics
  import opened Events
  import opened Model
  import opened Invariant
  import opened Frames
  import opened Commits
  import ObjectKeys

  // ----- counters and history do not matter ------------------------------------------------

  lemma CountersFree(c: Config, s: State, flow: Per<Flow>, rollbacks: map<Id, nat>)
    requires Inv(c, s)
    ensures Inv(c, s.(flow := flow, rollbacks := rollbacks))
  {
    hide StoresInv, EventsInv, ResultsInv, VectorsInv, BusInv, RelayInv, LocksOk, DrawsOk, PhasesOk;
  }

  lemma MintedInv(c: Config, s: State, ids: seq<Id>)
    requires Inv(c, s)
    ensures Inv(c, Mint(s, ids))
  {
    hide Inv;
    Minted(c, s, set i | i in ids);
  }

  // ----- gateway ---------------------------------------------------------------------------

  lemma UploadOwner(c: Config, s: State, owner: Id, u: Uri)
    requires StoresInv(c, s.db, s.objects, s.minted) && owner !in s.minted && u.owner == owner
    ensures forall d :: d in s.db.jobs ==> s.db.jobs[d].storageUri != u && TextUri(d, s.db.jobs[d].filename) != u
  {
    hide TextsOk, TextStored, OutboxMinted;
    forall d | d in s.db.jobs
      ensures s.db.jobs[d].storageUri != u && d != owner
    {
      assert JobOk(s.objects, s.minted, d, s.db.jobs);
    }
  }

  lemma UploadInv(c: Config, s: State, u: Uri, data: Bytes)
    requires Inv(c, s) && u.owner !in s.minted
    ensures Inv(c, Mint(s, [u.owner]).(objects := s.objects[u := data]))
  {
    UploadOwner(c, s, u.owner, u);
    hide Inv;
    MintedInv(c, s, [u.owner]);
    assert u.owner in [u.owner];
    ObjectPut(c, Mint(s, [u.owner]), u, data);
  }

  lemma FreshUndrawn(s: State, e: Id)
    requires DrawsOk(s.db.outbox, s.minted, s.workers) && e !in s.minted
    ensures Undrawn(s, e)
  {
  }

  lemma IngestCreates(c: Config, s: State, job: Job, e: Id, correlationId: Id, at: int, ids: seq<Id>)
    requires StoresInv(c, s.db, s.objects, s.minted) && job.documentId !in s.minted && e !in s.minted
    requires job.documentId in ids && e in ids && job.status.Pending?
    requires job.storageUri in s.objects && job.storageUri.owner !in s.db.jobs
    ensures Creates(Mint(s, ids),
                    Enqueue(s.db.(jobs := s.db.jobs[job.documentId := job]), IngestedEvent(job, e, correlationId), at),
                    job.documentId, e)
  {
    hide TextsOk, TextStored;
    assert forall d :: d in s.db.jobs ==> JobOk(s.objects, s.minted, d, s.db.jobs);
  }

  lemma IngestInv(c: Config, s: State, job: Job, e: Id, correlationId: Id, at: int, ids: seq<Id>)
    requires Inv(c, s) && job.documentId !in s.minted && e !in s.minted
    requires job.documentId in ids && e in ids && job.status.Pending?
    requires job.storageUri in s.objects && job.storageUri.owner !in s.db.jobs
    ensures Inv(c, Mint(s, ids).(db := Enqueue(s.db.(jobs := s.db.jobs[job.documentId := job]),
                                               IngestedEvent(job, e, correlationId), at)))
  {
    FreshUndrawn(s, e);
    IngestCreates(c, s, job, e, correlationId, at, ids);
    hide Inv, Creates;
    MintedInv(c, s, ids);
    Created(c, Mint(s, ids),
            Enqueue(s.db.(jobs := s.db.jobs[job.documentId := job]), IngestedEvent(job, e, correlationId), at),
            job.documentId, e);
  }

  lemma GatewayInv(c: Config, s: State, step: Step)
    requires Inv(c, s) && IsGatewayStep(step) && GatewayEnabled(c, s, step)
    ensures Inv(c, ApplyGateway(c, s, step))
  {
    hide Inv;
    match step
    case SaveUpload(owner, name, data) =>
      assert [owner][0] !in s.minted;
      UploadInv(c, s, Uri(owner, ObjectKeys.SafeName(name)), data);
    case Ingest(jobId, documentId, eventId, correlationId, filename, contentType, sizeBytes, storageUri, at) =>
      var ids := [jobId, documentId, eventId, correlationId];
      assert ids[1] == documentId && ids[2] == eventId;
      IngestInv(c, s, NewJob(jobId, documentId, filename, contentType, sizeBytes, storageUri), eventId, correlationId,
            at, ids);
  }

  // ----- relay -----------------------------------------------------------------------------

  lemma LockInv(c: Config, s: State, r: nat, ids: seq<Id>)
    requires Inv(c, s) && r !in s.relays && Lockable(c, s, ids)
    ensures Inv(c, s.(relays := s.relays[r := Batch(ids, 0)]))
  {
    forall q, e | q in s.relays && e in s.relays[q].ids
      ensures e !in ids
    {
      assert InBatch(s.relays, e);
    }
    hide Inv;
    BatchUpdated(c, s, r, Batch(ids, 0));
  }

  lemma RowMessage(c: Config, s: State, e: Id)
    requires RowsOk(c, s.db.jobs, s.objects, s.db.outbox) && e in s.db.outbox
    ensures var m := s.db.outbox[e].payload;
            MessageOk(s.db.outbox, m.eventType,
                      m) && m.attempt == 0 && m.eventId == e && s.db.outbox[e].topic == Pipeline(m.eventType)
  {
    assert RowOk(c, s.db.jobs, s.objects, s.db.outbox[e], e);
  }

  lemma RowMessageIn(c: Config, s: State, e: Id)
    requires Inv(c, s) && e in s.db.outbox
    ensures var m := s.db.outbox[e].payload;
            MessageOk(s.db.outbox, m.eventType,
                      m) && m.attempt == 0 && m.eventId == e && s.db.outbox[e].topic == Pipeline(m.eventType)
  {
    hide StoresInv, ResultsInv, VectorsInv, BusInv, RelayInv, WorkersInv, RowsOk, RowsUnique, OneTrace, LedgerTyped,
      Chained, Rooted;
    RowMessage(c, s, e);
  }

  lemma SentAfterAppend(outbox: Outbox, logs: Per<Log>, e: Id)
    requires e in outbox && outbox[e].payload.eventId == e
    ensures var g := outbox[e].payload.eventType;
            Sent(outbox, logs.With(g, logs.At(g) + [outbox[e].payload]), e)
  {
    var g := outbox[e].payload.eventType;
    var log := logs.At(g) + [outbox[e].payload];
    assert log[|logs.At(g)|].eventId == e;
  }

  lemma BatchGrows(s: State, r: nat)
    requires RelayInv(s.db, s.logs, s.relays) && r in s.relays && s.relays[r].sent < |s.relays[r].ids|
    requires Sent(s.db.outbox, s.logs, s.relays[r].ids[s.relays[r].sent])
    ensures BatchOk(s.db.outbox, s.db.published, s.logs, s.relays[r].(sent := s.relays[r].sent + 1))
    ensures forall q, x :: q in s.relays && q != r && x in s.relays[q].ids ==> x !in s.relays[r].ids
  {
    hide Sent;
    assert BatchOk(s.db.outbox, s.db.published, s.logs, s.relays[r]);
  }

  lemma PublishInv(c: Config, s: State, r: nat, e: Id, g: Stage)
    requires ValidConfig(c) && Inv(c, s) && r in s.relays && s.relays[r].sent < |s.relays[r].ids|
    requires e == s.relays[r].ids[s.relays[r].sent] && e in s.db.outbox && g == s.db.outbox[e].topic.stage
    ensures Inv(c, s.(logs := s.logs.With(g, s.logs.At(g) + [s.db.outbox[e].payload]),
                      relays := s.relays[r := s.relays[r].(sent := s.relays[r].sent + 1)]))
  {
    hide Inv, BatchOk, Sent, MessageOk;
    RowMessageIn(c, s, e);
    SentAfterAppend(s.db.outbox, s.logs, e);
    var s1 := s.(logs := s.logs.With(g, s.logs.At(g) + [s.db.outbox[e].payload]));
    LogAppended(c, s, g, s.db.outbox[e].payload);
    BatchGrowsIn(c, s1, r);
    BatchUpdated(c, s1, r, s.relays[r].(sent := s.relays[r].sent + 1));
  }

  lemma BatchGrowsIn(c: Config, s: State, r: nat)
    requires Inv(c, s) && r in s.relays && s.relays[r].sent < |s.relays[r].ids|
    requires Sent(s.db.outbox, s.logs, s.relays[r].ids[s.relays[r].sent])
    ensures BatchOk(s.db.outbox, s.db.published, s.logs, s.relays[r].(sent := s.relays[r].sent + 1))
    ensures forall q, x :: q in s.relays && q != r && x in s.relays[q].ids ==> x !in s.relays[r].ids
  {
    hide StoresInv, EventsInv, ResultsInv, VectorsInv, BusInv, RelayInv, WorkersInv, BatchOk, Sent;
    BatchGrows(s, r);
  }

  lemma PublishedAdded(c: Config, s: State, ids: set<Id>)
    requires Inv(c, s) && (forall e :: e in ids ==> Sent(s.db.outbox, s.logs, e))
    requires forall r, e :: r in s.relays && e in s.relays[r].ids ==> e !in ids
    ensures Inv(c, s.(db := s.db.(published := s.db.published + ids)))
  {
    hide JobsOk, TextsOk, TextStored, OutboxMinted, RowsOk, RowsUnique, OneTrace, LedgerTyped, Chained, Rooted;
    hide StatusesOk, ResultsOk, ViewsOk, PointsOk, Indexed, MessagesOk, OffsetsOk, PositionsOk, LocksOk, DrawsOk,
      PhasesOk, Sent;
    forall r | r in s.relays
      ensures BatchOk(s.db.outbox, s.db.published + ids, s.logs, s.relays[r])
    {
      assert BatchOk(s.db.outbox, s.db.published, s.logs, s.relays[r]);
    }
  }

  lemma BatchSent(s: State, r: nat)
    requires RelayInv(s.db, s.logs, s.relays) && r in s.relays && s.relays[r].sent == |s.relays[r].ids|
    ensures forall e :: e in s.relays[r].ids ==> Sent(s.db.outbox, s.logs, e)
    ensures forall q, e :: q in s.relays && q != r && e in s.relays[q].ids ==> e !in s.relays[r].ids
  {
    hide Sent;
    assert BatchOk(s.db.outbox, s.db.published, s.logs, s.relays[r]);
  }

  lemma PublishedInv(c: Config, s: State, r: nat)
    requires Inv(c, s) && r in s.relays && s.relays[r].sent == |s.relays[r].ids|
    ensures Inv(c,
                s.(db := s.db.(published := s.db.published + (set e | e in s.relays[r].ids)), relays := s.relays - {r}))
  {
    BatchSent(s, r);
    hide Inv, Sent;
    BatchRemoved(c, s, r);
    PublishedAdded(c, s.(relays := s.relays - {r}), set e | e in s.relays[r].ids);
  }

  lemma RelayStepInv(c: Config, s: State, step: Step)
    requires ValidConfig(c) && Inv(c, s) && IsRelayStep(step) && RelayEnabled(c, s, step)
    ensures Inv(c, ApplyRelay(c, s, step))
  {
    hide Inv, Lockable, Bump, ValidConfig;
    match step
    case RelayLock(r, ids) => LockInv(c, s, r, ids);
    case RelayPublish(r) =>
      var b := s.relays[r];
      var e := b.ids[b.sent];
      var g := s.db.outbox[e].topic.stage;
      PublishInv(c, s, r, e, g);
      CountersFree(c, s.(logs := s.logs.With(g, s.logs.At(g) + [s.db.outbox[e].payload]),
                         relays := s.relays[r := b.(sent := b.sent + 1)]),
                   ApplyRelay(c, s, step).flow, s.rollbacks);
    case RelayCommit(r) => PublishedInv(c, s, r);
    case RelayRollback(r) =>
      BatchRemoved(c, s, r);
      CountersFree(c, s.(relays := s.relays - {r}), s.flow, Bump(s.rollbacks, s.relays[r].ids));
  }

  // ----- consumer life cycle ---------------------------------------------------------------

  lemma JoinInv(c: Config, s: State, w: nat, g: Stage)
    requires Inv(c, s) && w !in s.workers
    ensures Inv(c, s.(workers := s.workers[w := Worker(g, s.committed.At(g), "", Ready)]))
  {
    assert SafeFrom(s.logs.At(g), s.dlqs.At(g), s.db.ledger, g, s.committed.At(g));
    hide Inv, SafeFrom;
    WorkerUpdated(c, s, w, Worker(g, s.committed.At(g), "", Ready));
  }

  lemma OffsetInv(c: Config, s: State, w: nat)
    requires Inv(c, s) && w in s.workers
    ensures Inv(c, s.(committed := s.committed.With(s.workers[w].stage, s.workers[w].pos)))
  {
    hide StoresInv, EventsInv, ResultsInv, VectorsInv, RelayInv, MessagesOk, LocksOk, DrawsOk, PhasesOk, SafeFrom;
    assert PositionOk(s.logs, s.dlqs, s.db.ledger, s.workers[w]);
  }

  lemma OpenedOk(c: Config, s: State, w: nat, draw: Id)
    requires Inv(c, s) && HasRecord(s, w) && draw !in s.minted
    ensures WorkerOk(c, Mint(s, [draw]), w, s.workers[w].(draw := draw, phase := Opened))
  {
    hide StoresInv, EventsInv, ResultsInv, VectorsInv, RelayInv, MessagesOk, OffsetsOk, LocksOk, PhasesOk;
    assert PositionOk(s.logs, s.dlqs, s.db.ledger, s.workers[w]);
    assert draw in [draw];
    hide SafeFrom;
    assert draw !in s.db.outbox by {
      DrawUnused(c, s, draw);
    }
  }

  lemma DrawUnused(c: Config, s: State, draw: Id)
    requires Inv(c, s) && draw !in s.minted
    ensures draw !in s.db.outbox
  {
    hide EventsInv, ResultsInv, VectorsInv, BusInv, RelayInv, WorkersInv, JobsOk, TextsOk, TextStored;
  }

  lemma OpenedInv(c: Config, s: State, w: nat, draw: Id)
    requires Inv(c, s) && HasRecord(s, w) && draw !in s.minted
    ensures Inv(c, Mint(s, [draw]).(workers := s.workers[w := s.workers[w].(draw := draw, phase := Opened)]))
  {
    hide Inv, WorkerOk;
    OpenedOk(c, s, w, draw);
    MintedInv(c, s, [draw]);
    WorkerUpdated(c, Mint(s, [draw]), w, s.workers[w].(draw := draw, phase := Opened));
  }

  lemma MembershipInv(c: Config, s: State, step: Step)
    requires Inv(c, s) && IsMembershipStep(step) && MembershipEnabled(c, s, step)
    ensures Inv(c, ApplyMembership(c, s, step))
  {
    hide Inv;
    match step
    case Join(w, g) => JoinInv(c, s, w, g);
    case Crash(w) =>
      WorkerRemoved(c, s, w);
      CountersFree(c, s.(workers := s.workers - {w}), ApplyMembership(c, s, step).flow, s.rollbacks);
    case CommitOffset(w) => OffsetInv(c, s, w);
    case Deliver(w, draw) =>
      assert [draw][0] !in s.minted;
      OpenedInv(c, s, w, draw);
  }
}
