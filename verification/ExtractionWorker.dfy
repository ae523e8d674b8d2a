/** The extraction worker's handler: read the stored bytes, parse them, store the text, emit
    `documents.extracted` through the outbox. */
module ExtractionWorker {
  import opened Topics
  import opened Events
  import opened Model
  import opened Sessions
  import opened Invariant
  import opened Commits
  import opened History
  import opened Infrastructure
  import opened Tallies
  import opened Handling

  // ----- the protocol steps the handler takes ---------------------------------------------------

  lemma ParseEnabled(c: Config, s: State, w: nat)
    requires At(s, w, Loaded) && s.workers[w].stage.Ingested? && Record(s, w).payload.DocumentIngested?
    requires Extractable(c, s.objects, Record(s, w).payload)
    ensures Enabled(c, s, Parse(w))
    ensures var p := Record(s, w).payload;
            Apply(c, s, Parse(w)) == SetPhase(s, w,
                                              Parsed(c.extract(p.filename, p.contentType, s.objects[p.storageUri])))
  {
  }

  lemma SaveTextEnabled(c: Config, s: State, w: nat, x: Extraction)
    requires At(s, w, Parsed(x)) && Record(s, w).payload.DocumentIngested?
    ensures Enabled(c, s, SaveText(w))
    ensures var p := Record(s, w).payload;
            var stored := s.objects[TextUri(p.documentId, p.filename) := c.encode(x.text)];
            Apply(c, s, SaveText(w)) == SetPhase(s.(objects := stored), w, TextSaved(x))
  {
  }

  lemma SavedText(s: State, w: nat, k: Worker, m: Envelope, uri: Uri, data: Bytes, p: Phase)
    requires Busy(s, w, k, m)
    ensures var t := SetPhase(s.(objects := s.objects[uri := data]), w, p);
            Busy(t, w, k.(phase := p), m) && t.db == s.db
            && SameStores(t, s.(objects := s.objects[uri := data]))
  {
  }

  /** The writes the handler has staged by its end. */
  function ExtractionWrites(m: Envelope, job: Job, x: Extraction, draw: Id, at: int): seq<Write>
    requires m.payload.DocumentIngested?
  {
    var d := m.payload.documentId;
    [InsertClaimRow(Claim(m.eventId, Ingested)), SetStatus(d, Extracting),
     InsertOutbox(RowFor(ExtractedEvent(job, m, x, draw), at)), SetStatus(d, TextReady)]
  }

  lemma ExtractionDbIs(s: State, w: nat, k: Worker, m: Envelope, job: Job, x: Extraction, at: int)
    requires Busy(s, w, k, m) && k.phase == TextSaved(x) && k.stage.Ingested? && m.payload.DocumentIngested?
    requires Is(s, m.payload.documentId, job)
    ensures ApplyWrites(s.db, ExtractionWrites(m, job, x, k.draw, at)) == ExtractionDb(s, w, at)
  {
    hide ApplyWrites;
    FourInAll(s.db, Claim(m.eventId, Ingested), m.payload.documentId, RowFor(ExtractedEvent(job, m, x, k.draw), at),
              Extracting, TextReady);
    assert ExtractedEvent(job, m, x, k.draw) == ExtractedEvent(s.db.jobs[m.payload.documentId], m, x, k.draw);
  }

  lemma CommitsEnabled(c: Config, s: State, w: nat, at: int, acked: bool)
    requires HasRecord(s, w) && s.workers[w].phase.TextSaved? && Record(s, w).payload.DocumentIngested?
    requires Record(s, w).payload.documentId in s.db.jobs
    ensures Enabled(c, s, CommitExtraction(w, at, acked))
    ensures Apply(c, s, CommitExtraction(w, at, acked)) == AfterCommit(c, s, w, ExtractionDb(s, w, at), acked)
  {
    hide ExtractionDb, AfterCommit;
  }

  /** Together they are the protocol's extraction transaction, even though others moved since the job
      was loaded. */
  lemma ExtractionReady(c: Config, s: State, w: nat, k: Worker, m: Envelope, job: Job, x: Extraction, at: int)
    requires Busy(s, w, k, m) && k.phase == TextSaved(x) && k.stage.Ingested? && m.payload.DocumentIngested?
    requires Is(s, m.payload.documentId, job)
    ensures CommitReady(c, s, w, ExtractionWrites(m, job, x, k.draw, at), CommitExtraction(w, at, true))
  {
    ExtractionDbIs(s, w, k, m, job, x, at);
    assert ClaimOf(s, w) in ExtractionDb(s, w, at).ledger;
    hide Enabled, Apply, ApplyWrites, ExtractionWrites, ExtractionDb, AfterCommit, CommitReady;
    CommitsEnabled(c, s, w, at, true);
    CommitsEnabled(c, s, w, at, false);
    ReadyEitherWay(c, s, w, ExtractionWrites(m, job, x, k.draw, at), CommitExtraction(w, at, true), ExtractionDb(s, w,
          at));
  }

  /** The extraction of the bytes an ingested event points at. */
  function ExtractionFor(c: Config, objects: Objects, p: Payload): Extraction
    requires p.DocumentIngested? && p.storageUri in objects
  {
    c.extract(p.filename, p.contentType, objects[p.storageUri])
  }

  /** The bytes read earlier are still the stored ones, and the job loaded earlier has the same id. */
  lemma SameWrites(c: Config, s: State, t: State, m: Envelope, job: Job, draw: Id, at: int)
    requires m.payload.DocumentIngested? && m.payload.storageUri in s.objects && Grows(s, t)
    requires Is(t, m.payload.documentId, job)
    ensures m.payload.documentId in t.db.jobs && m.payload.storageUri in t.objects
    ensures ExtractionWrites(m, job, ExtractionFor(c, s.objects, m.payload), draw, at)
         == ExtractionWrites(m, t.db.jobs[m.payload.documentId], ExtractionFor(c, t.objects, m.payload), draw, at)
  {
    hide JobsKeepIdentity, OutboxGrows, NewJobsAreFresh;
  }

  // ----- the handler ----------------------------------------------------------------------------

  /** Processes one ingested event.  When it returns, committing the session is one of the protocol's
      three commits for the record; when it throws, its transaction is still open. */
  method HandleIngested(cluster: Cluster, w: nat, k: Worker, m: Envelope, session: Session)
    returns (outcome: Outcome, step: Step)
    requires cluster.Valid() && Busy(cluster.Now(), w, k, m) && k.phase == Opened && k.stage == Ingested
    requires session.Valid() && session.staged == []
    modifies cluster, session
    ensures cluster.Valid() && Quietly(cluster.c, cluster.calm, w, old(cluster.history), cluster.history)
    ensures Grows(old(cluster.Now()), cluster.Now())
    ensures AtWork(cluster.Now(), w, k, m)
    ensures outcome.Returned? ==> CommitReady(cluster.c, cluster.Now(), w, session.staged, step)
    ensures outcome.Returned? ==> step.SkipDuplicate? || step.CommitNoJob? || step.CommitExtraction?
    ensures outcome.Returned? && step.CommitExtraction? ==>
              && m.payload.DocumentIngested? && m.payload.documentId in cluster.db.jobs
              && m.payload.storageUri in cluster.objects
              && session.staged == ExtractionWrites(m, cluster.db.jobs[m.payload.documentId],
                                                    ExtractionFor(cluster.c, cluster.objects,
                                                                  m.payload), k.draw, step.at)
    ensures cluster.calm && outcome.Threw? ==> Provokes(cluster.c, old(cluster.Now()), w, outcome.error)
    ensures cluster.calm && outcome.Returned? ==>
              var claimed := Claim(m.eventId, Ingested) in old(cluster.db.ledger);
              var known := m.payload.documentId in old(cluster.db.jobs);
              (step.SkipDuplicate? <==> claimed) && (step.CommitNoJob? <==> !claimed && !known)
  {
    hide Inv, Run, TallyBy, Foreign, Enabled, Apply, Grows, Keeps, Busy, Is, CommitReady, AtWork;
    ghost var start := cluster.Now();
    step := SkipDuplicate(w);
    StillAtWork(start, w, k, m, Opened) by { assert k.(phase := Opened) == k; }
    GrowsItself(start);
    if !m.payload.DocumentIngested? {
      return Threw(AssertionError), step;
    }
    var first;
    outcome, first := ClaimEvent(cluster, w, k, m, session);
    if outcome.Threw? || !first {
      StillAtWork(cluster.Now(), w, k, m, Opened) by { assert k.(phase := Opened) == k; }
      return;
    }
    ghost var claimed := cluster.Now();
    var row;
    outcome, row := LoadJobRow(cluster, w, k.(phase := Claimed), m);
    GrowsTrans(start, claimed, cluster.Now());
    if outcome.Threw? {
      StillAtWork(cluster.Now(), w, k, m, Claimed);
      return;
    }
    if row.None? {
      BusyFacts(cluster.Now(), w, k.(phase := NoJob), m);
      NoJobReady(cluster.c, cluster.Now(), w);
      StillAtWork(cluster.Now(), w, k, m, NoJob);
      step := CommitNoJob(w, true);
      return;
    }
    session.Add(SetStatus(m.payload.documentId, Extracting));
    ghost var loaded := cluster.Now();
    outcome, step := ExtractText(cluster, w, k, m, row.value, session);
    GrowsTrans(start, loaded, cluster.Now());
  }

  /** Past the guard, with the job at hand. */
  method ExtractText(cluster: Cluster, w: nat, k: Worker, m: Envelope, job: Job, session: Session)
    returns (outcome: Outcome, step: Step)
    requires cluster.Valid() && Busy(cluster.Now(), w, k.(phase := Loaded), m) && k.stage == Ingested
    requires m.payload.DocumentIngested? && Is(cluster.Now(), m.payload.documentId, job) && session.Valid()
    requires session.staged == [InsertClaimRow(Claim(m.eventId, Ingested)), SetStatus(m.payload.documentId, Extracting)]
    modifies cluster, session
    ensures cluster.Valid() && Quietly(cluster.c, cluster.calm, w, old(cluster.history), cluster.history)
    ensures Grows(old(cluster.Now()), cluster.Now())
    ensures AtWork(cluster.Now(), w, k, m)
    ensures outcome.Returned? ==>
              CommitReady(cluster.c, cluster.Now(), w, session.staged, step) && step.CommitExtraction?
    ensures outcome.Returned? ==>
              && m.payload.documentId in cluster.db.jobs && m.payload.storageUri in cluster.objects
              && session.staged == ExtractionWrites(m, cluster.db.jobs[m.payload.documentId],
                                                    ExtractionFor(cluster.c, cluster.objects,
                                                                  m.payload), k.draw, step.at)
    ensures cluster.calm ==> (outcome.Threw? <==> !Extractable(cluster.c, old(cluster.objects), m.payload))
    ensures cluster.calm && outcome.Threw? ==>
              outcome.error == if Readable(old(cluster.objects), m.payload.storageUri) then ExtractionError
                               else StorageError
  {
    hide Inv, Run, TallyBy, Foreign, Enabled, Apply, Grows, Keeps, Busy, Is, CommitReady, AtWork, ApplyWrites,
      ExtractionWrites;
    ghost var start := cluster.Now();
    var p := m.payload;
    var x;
    step := CommitExtraction(w, 0, true);
    outcome, x := ReadAndParse(cluster, w, k, m, job);
    if outcome.Threw? {
      return;
    }
    ghost var parsed := cluster.Now();
    var uri;
    outcome, uri := StoreText(cluster, w, k, m, job, x);
    GrowsTrans(start, parsed, cluster.Now());
    if outcome.Threw? {
      return;
    }
    ghost var stored := cluster.Now();
    GrowsItself(stored);
    var failed := Await(cluster, w, k.(phase := TextSaved(x)), m, job, stored);
    GrowsTrans(start, stored, cluster.Now());
    GrowsTrans(parsed, stored, cluster.Now());
    StillAtWork(cluster.Now(), w, k, m, TextSaved(x));
    if failed {
      return Threw(DatabaseError), step;
    }
    var at := EmitExtracted(session, m, job, x, uri, k.draw);
    SameWrites(cluster.c, parsed, cluster.Now(), m, job, k.draw, at);
    ExtractionReady(cluster.c, cluster.Now(), w, k.(phase := TextSaved(x)), m, job, x, at);
    return Returned, CommitExtraction(w, at, true);
  }

  /** The outgoing event and the final status, staged behind the claim. */
  method EmitExtracted(session: Session, m: Envelope, job: Job, x: Extraction, uri: Uri, draw: Id) returns (at: int)
    requires m.payload.DocumentIngested? && session.Valid() && uri == TextUri(m.payload.documentId, m.payload.filename)
    requires session.staged == [InsertClaimRow(Claim(m.eventId, Ingested)), SetStatus(m.payload.documentId, Extracting)]
    modifies session
    ensures session.staged == ExtractionWrites(m, job, x, draw, at)
  {
    var d := m.payload.documentId;
    at := *;       // the row's `created_at`
    var extracted := MakeEvent(DocumentExtracted(job.id, d, uri, |x.text|, x.pageCount, x.extractionMethod),
                               EXTRACTION_WORKER, draw, m.correlationId);
    session.Add(InsertOutbox(RowFor(extracted, at)));
    session.Add(SetStatus(d, TextReady));
  }

  method ReadAndParse(cluster: Cluster, w: nat, k: Worker, m: Envelope, job: Job)
    returns (outcome: Outcome, x: Extraction)
    requires cluster.Valid() && Busy(cluster.Now(), w, k.(phase := Loaded), m) && k.stage == Ingested
    requires m.payload.DocumentIngested? && Is(cluster.Now(), m.payload.documentId, job)
    modifies cluster
    ensures cluster.Valid() && Quietly(cluster.c, cluster.calm, w, old(cluster.history), cluster.history)
    ensures Grows(old(cluster.Now()), cluster.Now())
    ensures outcome.Threw? ==> AtWork(cluster.Now(), w, k, m)
    ensures outcome.Returned? ==>
              && Busy(cluster.Now(), w, k.(phase := Parsed(x)), m) && Is(cluster.Now(), m.payload.documentId, job)
              && m.payload.storageUri in cluster.objects && x == ExtractionFor(cluster.c, cluster.objects, m.payload)
    ensures cluster.calm ==> (outcome.Threw? <==> !Extractable(cluster.c, old(cluster.objects), m.payload))
    ensures cluster.calm && outcome.Threw? ==>
              outcome.error == if Readable(old(cluster.objects), m.payload.storageUri) then ExtractionError
                               else StorageError
  {
    hide Inv, Run, TallyBy, Foreign, Enabled, Apply, Grows, Keeps, Busy, Is, AtWork;
    ghost var start := cluster.Now();
    var p := m.payload;
    GrowsItself(start);
    x := Extraction("", 0, "");
    var failed := Await(cluster, w, k.(phase := Loaded), m, job, start);
    StillAtWork(cluster.Now(), w, k, m, Loaded);
    BusyFacts(cluster.Now(), w, k.(phase := Loaded), m);
    var data := cluster.ReadObject(p.storageUri);
    if failed || data.None? {
      return Threw(StorageError), x;
    }
    if !cluster.c.parses(p.filename, p.contentType, data.value) {
      return Threw(ExtractionError), x;
    }
    x := cluster.c.extract(p.filename, p.contentType, data.value);
    outcome := Returned;
    ghost var read := cluster.Now();
    ParseEnabled(cluster.c, read, w);
    BusyIn(read, w, k.(phase := Loaded), m, Parsed(x));
    cluster.Local(Parse(w));
    StillIs(read, cluster.Now(), p.documentId, job);
    GrowsTrans(start, read, cluster.Now());
  }

  method StoreText(cluster: Cluster, w: nat, k: Worker, m: Envelope, job: Job, x: Extraction)
    returns (outcome: Outcome, uri: Uri)
    requires cluster.Valid() && Busy(cluster.Now(), w, k.(phase := Parsed(x)), m) && k.stage == Ingested
    requires m.payload.DocumentIngested? && Is(cluster.Now(), m.payload.documentId, job)
    modifies cluster
    ensures cluster.Valid() && Quietly(cluster.c, cluster.calm, w, old(cluster.history), cluster.history)
    ensures Grows(old(cluster.Now()), cluster.Now())
    ensures outcome.Threw? ==> AtWork(cluster.Now(), w, k, m)
    ensures outcome.Returned? ==>
              && Busy(cluster.Now(), w, k.(phase := TextSaved(x)), m) && Is(cluster.Now(), m.payload.documentId, job)
              && uri == TextUri(m.payload.documentId, m.payload.filename)
              && uri in cluster.objects && cluster.objects[uri] == cluster.c.encode(x.text)
    ensures cluster.calm ==> outcome.Returned?
  {
    hide Inv, Run, TallyBy, Foreign, Enabled, Apply, Grows, Keeps, Busy, Is, AtWork;
    ghost var start := cluster.Now();
    var p := m.payload;
    GrowsItself(start);
    outcome, uri := Threw(StorageError), TextUri(p.documentId, p.filename);
    var failed := Await(cluster, w, k.(phase := Parsed(x)), m, job, start);
    StillAtWork(cluster.Now(), w, k, m, Parsed(x));
    if failed {
      return;
    }
    ghost var parsed := cluster.Now();
    GrowsItself(parsed);
    BusyFacts(parsed, w, k.(phase := Parsed(x)), m);
    SaveTextEnabled(cluster.c, parsed, w, x);
    SavedText(parsed, w, k.(phase := Parsed(x)), m, uri, cluster.c.encode(x.text), TextSaved(x));
    cluster.Sound();
    GrowsByStep(cluster.c, start, parsed, SaveText(w));
    GrowsByStep(cluster.c, parsed, parsed, SaveText(w));
    cluster.PutObject(uri, cluster.c.encode(x.text), SaveText(w));
    StillIs(parsed, cluster.Now(), p.documentId, job);
    StillAtWork(cluster.Now(), w, k, m, TextSaved(x));
    failed := cluster.Fails();      // the response may be lost
    outcome := if failed then Threw(StorageError) else Returned;
  }
}
