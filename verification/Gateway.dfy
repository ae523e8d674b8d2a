/** The ingestion gateway: store the uploaded bytes, then record the job and its first event in one
    transaction. */
module Gateway {
  import opened Topics
  import opened Events
  import opened Model
  import opened Sessions
  import opened Invariant
  import opened History
  import opened Infrastructure
  import ObjectKeys

  datatype IngestResult = Accepted(jobId: Id, documentId: Id, status: Status) | EmptyFile | ServerError

  /** `file.filename or "document.bin"`: a missing or an empty name gives the default. */
  function OrElse(value: Option<string>, default: string): (r: string)
    ensures default != "" ==> r != ""
  {
    if value.Some? && value.value != "" then value.value else default
  }

  lemma SaveEnabled(c: Config, s: State, owner: Id, name: string, data: Bytes)
    requires data != [] && owner !in s.minted
    ensures Enabled(c, s, SaveUpload(owner, name, data))
    ensures var t := Apply(c, s, SaveUpload(owner, name, data));
            && SameStores(t, s.(objects := s.objects[Uri(owner, ObjectKeys.SafeName(name)) := data]))
            && t.minted == s.minted + {owner}
  {
    assert [owner][0] == owner;
    assert (set i | i in [owner]) == {owner};
  }

  lemma IngestEnabled(c: Config, s: State, job: Job, eventId: Id, correlationId: Id, at: int)
    requires job == NewJob(job.id, job.documentId, job.filename, job.contentType, job.sizeBytes, job.storageUri)
    requires job.id !in s.minted && job.documentId !in s.minted && eventId !in s.minted && correlationId !in s.minted
    requires |{job.id, job.documentId, eventId, correlationId}| == 4
    requires job.storageUri in s.objects && job.storageUri.owner !in s.db.jobs
    requires job.storageUri.name == ObjectKeys.SafeName(job.filename)
    ensures var step := IngestStep(job, eventId, correlationId, at);
            && Enabled(c, s, step)
            && SameStores(Apply(c, s, step),
                          s.(db := Enqueue(s.db.(jobs := s.db.jobs[job.documentId := job]),
                                           IngestedEvent(job, eventId, correlationId), at)))
  {
    hide ObjectKeys.SafeName;
    FourDiffer(job.id, job.documentId, eventId, correlationId);
    var ids := [job.id, job.documentId, eventId, correlationId];
    assert Fresh(s, ids);
    hide Fresh;
  }

  lemma FourDiffer(a: Id, b: Id, p: Id, q: Id)
    requires |{a, b, p, q}| == 4
    ensures a != b && a != p && a != q && b != p && b != q && p != q
  {
    assert a == b ==> {a, b, p, q} == {a, p, q};
    assert a == p ==> {a, b, p, q} == {a, b, q};
    assert a == q ==> {a, b, p, q} == {a, b, p};
    assert b == p ==> {a, b, p, q} == {a, b, q};
    assert b == q ==> {a, b, p, q} == {a, b, p};
    assert p == q ==> {a, b, p, q} == {a, b, p};
  }

  function IngestStep(job: Job, eventId: Id, correlationId: Id, at: int): Step {
    Ingest(job.id, job.documentId, eventId, correlationId, job.filename, job.contentType, job.sizeBytes,
           job.storageUri, at)
  }

  lemma IngestWrites(db: Db, job: Job, envelope: Envelope, at: int)
    ensures ApplyWrites(db, [InsertJob(job), InsertOutbox(RowFor(envelope, at))])
         == Enqueue(db.(jobs := db.jobs[job.documentId := job]), envelope, at)
  {
    assert [InsertJob(job),
            InsertOutbox(RowFor(envelope, at))] == [InsertJob(job)] + [InsertOutbox(RowFor(envelope, at))];
    ApplyWritesAppend(db, [InsertJob(job)], InsertOutbox(RowFor(envelope, at)));
    assert [InsertJob(job)] == [] + [InsertJob(job)];
    ApplyWritesAppend(db, [], InsertJob(job));
  }

  /** A job nothing has happened to yet. */
  predicate Untouched(job: Job) {
    job.status == Pending && job.error.None? && job.classification.None? && job.summary.None? && job.chunkCount.None?
  }

  /** The row announces the job, field by field, and is addressed by its document. */
  predicate Announces(row: OutboxEvent, job: Job, eventId: Id, correlationId: Id) {
    && row.eventId == eventId && row.topic == Pipeline(Ingested)
    && row.aggregateId == job.documentId && row.key == job.documentId
    && row.payload.eventId == eventId && row.payload.correlationId == correlationId
    && row.payload.eventType == Ingested && row.payload.documentId == job.documentId
    && row.payload.attempt == 0 && row.payload.source == "api-gateway"
    && var p := row.payload.payload;
       && p.DocumentIngested? && p.jobId == job.id && p.documentId == job.documentId
       && p.filename == job.filename && p.contentType == job.contentType
       && p.sizeBytes == job.sizeBytes && p.storageUri == job.storageUri
  }

  /** Stages the job row and its ingested event; the caller commits. */
  method CreateIngestionJob(cluster: Cluster, session: Session, filename: string, contentType: string, sizeBytes: nat,
        storageUri: Uri)
    returns (job: Job, eventId: Id, correlationId: Id, at: int)
    requires session.Valid() && session.staged == []
    modifies session
    ensures job == NewJob(job.id, job.documentId, filename, contentType, sizeBytes, storageUri)
    ensures job.filename == filename && job.contentType == contentType && job.sizeBytes == sizeBytes
    ensures job.storageUri == storageUri && Untouched(job)
    ensures session.staged == [InsertJob(job), InsertOutbox(RowFor(IngestedEvent(job, eventId, correlationId), at))]
    ensures job.id !in cluster.minted && job.documentId !in cluster.minted
    ensures eventId !in cluster.minted && correlationId !in cluster.minted
    ensures |{job.id, job.documentId, eventId, correlationId}| == 4
  {
    var jobId := cluster.NewId({});
    var documentId := cluster.NewId({jobId});
    job := NewJob(jobId, documentId, filename, contentType, sizeBytes, storageUri);
    session.Add(InsertJob(job));
    eventId := cluster.NewId({jobId, documentId});
    correlationId := cluster.NewId({jobId, documentId, eventId});
    at := *;       // the row's `created_at`
    var envelope := MakeEvent(DocumentIngested(jobId, documentId, filename, contentType, sizeBytes, storageUri),
                              API_GATEWAY, eventId, correlationId);
    session.Add(InsertOutbox(RowFor(envelope, at)));
  }

  /** Nobody else creates a job under an id drawn before. */
  lemma OwnerStaysFree(s: State, t: State, uri: Uri, data: Bytes)
    requires Grows(s, t) && uri in s.objects && s.objects[uri] == data && uri.owner in s.minted
    requires uri.owner !in s.db.jobs
    ensures uri in t.objects && t.objects[uri] == data && uri.owner !in t.db.jobs
  {
  }

  lemma UndrawnIsNoJob(c: Config, s: State, owner: Id)
    requires Inv(c, s) && owner !in s.minted
    ensures owner !in s.db.jobs
  {
    hide Inv;
    Unminted(c, s, owner);
  }

  /** A job and its one ingested event, as the transaction leaves them. */
  predicate JobQueued(s: State, job: Job, eventId: Id, correlationId: Id) {
    && job.documentId in s.db.jobs && s.db.jobs[job.documentId] == job
    && eventId in s.db.outbox && Announces(s.db.outbox[eventId], job, eventId, correlationId)
  }

  lemma QueuedTogether(s: State, db: Db, job: Job, eventId: Id, correlationId: Id, at: int)
    requires var recorded := db.(jobs := db.jobs[job.documentId := job]);
             s.db == Enqueue(recorded, IngestedEvent(job, eventId, correlationId), at)
    ensures JobQueued(s, job, eventId, correlationId)
  {
  }

  /** What the client sent about the file is what is recorded, unless it sent nothing. */
  predicate KeepsSent(sent: Option<string>, recorded: string, otherwise: string) {
    && (sent.Some? && sent.value != "" ==> recorded == sent.value)
    && (sent.None? || sent.value == "" ==> recorded == otherwise)
  }

  /** `POST /documents`.  When the transaction lands, the bytes are stored and the job and its first
      event recorded together, with the file name and type the client gave; an accepted upload has landed,
      an empty one changes nothing.  An error can follow a commit that landed and whose acknowledgement
      was lost. */
  method IngestDocument(cluster: Cluster, filename: Option<string>, contentType: Option<string>, data: Bytes)
    returns (result: IngestResult, ghost landed: bool, ghost job: Job, ghost eventId: Id, ghost correlationId: Id)
    requires cluster.Valid()
    modifies cluster
    ensures cluster.Valid() && old(cluster.history) <= cluster.history && Grows(old(cluster.Now()), cluster.Now())
    ensures result.EmptyFile? <==> data == []
    ensures data == [] ==> cluster.Now() == old(cluster.Now())
    ensures cluster.calm && data != [] ==> result.Accepted?
    ensures result.Accepted? ==>
              landed && job.id == result.jobId && job.documentId == result.documentId && job.status == result.status
    ensures landed ==>
              && KeepsSent(filename, job.filename, "document.bin")
              && KeepsSent(contentType, job.contentType, "application/octet-stream")
              && job.sizeBytes == |data| && Untouched(job)
              && job.storageUri in cluster.objects && cluster.objects[job.storageUri] == data
              && job.storageUri.name == ObjectKeys.SafeName(job.filename)
              && job.documentId !in old(cluster.db.jobs) && JobQueued(cluster.Now(), job, eventId, correlationId)
  {
    hide Inv, Run, Enabled, Apply, Grows, Keeps, ApplyWrites;
    ghost var start := cluster.Now();
    GrowsItself(start);
    result, landed, eventId, correlationId := ServerError, false, "", "";
    job := NewJob("", "", "", "", 0, Uri("", ""));
    if data == [] {
      result := EmptyFile;
      return;
    }
    var name := OrElse(filename, "document.bin");
    var stored, storageUri := StoreUpload(cluster, name, data);
    ghost var saved := cluster.Now();
    if !stored {
      return;
    }
    cluster.Yield(Client);
    ghost var s := cluster.Now();
    GrowsTrans(start, saved, s);
    OwnerStaysFree(saved, s, storageUri, data);
    cluster.Sound();
    var session := new Session();
    var row, e, trace, at := CreateIngestionJob(cluster, session, name, OrElse(contentType,
          "application/octet-stream"), |data|, storageUri);
    job, eventId, correlationId := row, e, trace;
    UndrawnIsNoJob(cluster.c, s, job.documentId);
    StillNoJob(start, s, job.documentId);
    var recorded;
    recorded, landed := CommitIngestion(cluster, session, row, e, trace, at, start);
    if recorded {
      result := Accepted(row.id, row.documentId, row.status);
    }
  }

  /** The request's COMMIT: job and event together, or neither; the caller hears of it or not. */
  method CommitIngestion(cluster: Cluster, session: Session, job: Job, eventId: Id, correlationId: Id, at: int,
        ghost start: State)
    returns (recorded: bool, ghost landed: bool)
    requires cluster.Valid() && Grows(start, cluster.Now())
    requires job == NewJob(job.id, job.documentId, job.filename, job.contentType, job.sizeBytes, job.storageUri)
    requires session.staged == [InsertJob(job), InsertOutbox(RowFor(IngestedEvent(job, eventId, correlationId), at))]
    requires job.id !in cluster.minted && job.documentId !in cluster.minted
    requires eventId !in cluster.minted && correlationId !in cluster.minted
    requires |{job.id, job.documentId, eventId, correlationId}| == 4
    requires job.storageUri in cluster.objects && job.storageUri.owner !in cluster.db.jobs
    requires job.storageUri.name == ObjectKeys.SafeName(job.filename)
    modifies cluster, session
    ensures cluster.Valid() && old(cluster.history) <= cluster.history && Grows(start, cluster.Now())
    ensures recorded ==> landed
    ensures cluster.calm ==> recorded
    ensures cluster.objects == old(cluster.objects)
    ensures if landed then JobQueued(cluster.Now(), job, eventId, correlationId) else cluster.db == old(cluster.db)
  {
    hide Inv, Run, Enabled, Apply, Grows, ApplyWrites, JobQueued;
    ghost var s := cluster.Now();
    var failed := cluster.Fails();
    recorded, landed := false, false;
    if failed {
      session.Rollback();
      return;
    }
    IngestWrites(s.db, job, IngestedEvent(job, eventId, correlationId), at);
    IngestEnabled(cluster.c, s, job, eventId, correlationId, at);
    cluster.Sound();
    GrowsByStep(cluster.c, start, s, IngestStep(job, eventId, correlationId, at));
    cluster.Commit(session.staged, IngestStep(job, eventId, correlationId, at));
    QueuedTogether(cluster.Now(), s.db, job, eventId, correlationId, at);
    landed := true;
    var lost := cluster.Fails();      // the acknowledgement may be lost
    recorded := !lost;
  }

  lemma StillNoJob(s: State, t: State, d: Id)
    requires Grows(s, t) && d !in t.db.jobs
    ensures d !in s.db.jobs
  {
  }

  /** The bytes go first, under a provisional id of their own. */
  method StoreUpload(cluster: Cluster, name: string, data: Bytes) returns (stored: bool, uri: Uri)
    requires cluster.Valid() && data != []
    modifies cluster
    ensures cluster.Valid() && old(cluster.history) <= cluster.history && Grows(old(cluster.Now()), cluster.Now())
    ensures cluster.calm ==> stored
    ensures stored ==>
              && uri in cluster.objects && cluster.objects[uri] == data
              && uri.owner in cluster.minted && uri.owner !in cluster.db.jobs && uri.name == ObjectKeys.SafeName(name)
  {
    hide Inv, Run, Enabled, Apply, Grows, Keeps;
    ghost var start := cluster.Now();
    cluster.Yield(Client);
    ghost var s := cluster.Now();
    var provisional := cluster.NewId({});
    uri := Uri(provisional, ObjectKeys.SafeName(name));
    var failed := cluster.Fails();
    stored := !failed;
    if stored {
      cluster.Sound();
      UndrawnIsNoJob(cluster.c, s, provisional);
      SaveEnabled(cluster.c, s, provisional, name, data);
      GrowsByStep(cluster.c, start, s, SaveUpload(provisional, name, data));
      cluster.PutObject(uri, data, SaveUpload(provisional, name, data));
      failed := cluster.Fails();      // the response may be lost
      stored := !failed;
    }
  }
}
