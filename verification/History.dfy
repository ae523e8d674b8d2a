/** What holds along a run, between one state and a later one. */
module History {
  import ObjectKeys
  import opened Topics
  import opened Events
  import opened Model
  import opened Invariant
  import opened Frames
  import opened Commits
  import opened WorkSteps

  // ----- runs ------------------------------------------------------------------------------

  lemma {:induction false} RunAppend(c: Config, s: State, steps: seq<Step>, step: Step)
    requires Run(c, s, steps).Some?
    ensures Run(c, s, steps + [step]) ==
              if Enabled(c, Run(c, s, steps).value, step) then Some(Apply(c, Run(c, s, steps).value, step)) else None
  {
    hide Enabled, Apply;
    assert (steps + [step])[..|steps|] == steps;
  }

  lemma {:induction false} RunSplit(c: Config, s: State, a: seq<Step>, b: seq<Step>)
    requires Run(c, s, a + b).Some?
    ensures Run(c, s, a).Some? && Run(c, Run(c, s, a).value, b) == Run(c, s, a + b)
    decreases |b|
  {
    hide Enabled, Apply;
    if b == [] {
      assert a + b == a;
    } else {
      assert (a + b)[..|a + b| - 1] == a + b[..|b| - 1];
      RunSplit(c, s, a, b[..|b| - 1]);
    }
  }

  lemma {:induction false} RunJoin(c: Config, s: State, a: seq<Step>, b: seq<Step>)
    requires Run(c, s, a).Some? && Run(c, Run(c, s, a).value, b).Some?
    ensures Run(c, s, a + b) == Run(c, Run(c, s, a).value, b)
    decreases |b|
  {
    hide Enabled, Apply;
    if b == [] {
      assert a + b == a;
    } else {
      assert (a + b)[..|a + b| - 1] == a + b[..|b| - 1];
      RunJoin(c, s, a, b[..|b| - 1]);
    }
  }

  // ----- what only grows -------------------------------------------------------------------

  predicate ObjectsGrow(a: Objects, b: Objects) {
    forall u :: u in a ==> u in b && b[u] == a[u]
  }

  /** Jobs are only created under new ids. */
  predicate NewJobsAreFresh(s: State, t: State) {
    forall d :: d in t.db.jobs && d !in s.db.jobs ==> d !in s.minted
  }

  /** Jobs keep their identity, events and stored objects are never altered or removed, logs only
      grow and no claim is ever withdrawn. */
  ghost predicate Grows(s: State, t: State) {
    && JobsKeepIdentity(s.db.jobs, t.db.jobs) && OutboxGrows(s.db.outbox, t.db.outbox)
    && s.db.published <= t.db.published && s.db.ledger <= t.db.ledger && s.db.views.Keys <= t.db.views.Keys
    && PerGrows(s.logs, t.logs) && PerGrows(s.dlqs, t.dlqs)
    && ObjectsGrow(s.objects, t.objects) && NewJobsAreFresh(s, t)
    && s.points.Keys <= t.points.Keys && s.minted <= t.minted
  }

  lemma GrowsTrans(s: State, t: State, u: State)
    requires Grows(s, t) && Grows(t, u)
    ensures Grows(s, u)
  {
    forall g: Stage
      ensures s.logs.At(g) <= u.logs.At(g) && s.dlqs.At(g) <= u.dlqs.At(g)
    {
      assert s.logs.At(g) <= t.logs.At(g) <= u.logs.At(g);
      assert s.dlqs.At(g) <= t.dlqs.At(g) <= u.dlqs.At(g);
    }
  }

  lemma SameGrows(s: State, t: State)
    requires t.db == s.db && t.logs == s.logs && t.dlqs == s.dlqs && t.objects == s.objects && t.points == s.points
    requires s.minted <= t.minted
    ensures Grows(s, t)
  {
  }

  lemma DbGrows(s: State, t: State, db: Db)
    requires JobsKeepIdentity(s.db.jobs, db.jobs) && OutboxGrows(s.db.outbox, db.outbox)
    requires s.db.published <= db.published && s.db.ledger <= db.ledger && s.db.views.Keys <= db.views.Keys
    requires forall d :: d in db.jobs && d !in s.db.jobs ==> d !in s.minted
    requires t.db == db && t.logs == s.logs && t.dlqs == s.dlqs && t.objects == s.objects && t.points == s.points
    requires s.minted <= t.minted
    ensures Grows(s, t)
  {
    hide JobsKeepIdentity, OutboxGrows;
  }

  lemma Unminted(c: Config, s: State, e: Id)
    requires Inv(c, s) && e !in s.minted
    ensures e !in s.db.outbox && e !in s.db.jobs
  {
    hide EventsInv, ResultsInv, VectorsInv, BusInv, RelayInv, WorkersInv, TextsOk, TextStored;
    assert e in s.db.jobs ==> JobOk(s.objects, s.minted, e, s.db.jobs);
  }

  lemma NewJobGrows(db: Db, d: Id, job: Job, envelope: Envelope, at: int)
    requires d !in db.jobs && envelope.eventId !in db.outbox
    ensures var after := Enqueue(db.(jobs := db.jobs[d := job]), envelope, at);
            JobsKeepIdentity(db.jobs, after.jobs) && OutboxGrows(db.outbox, after.outbox)
  {
  }

  lemma NewObject(c: Config, s: State, u: Uri, data: Bytes)
    requires Inv(c, s) && u.owner !in s.minted
    ensures ObjectsGrow(s.objects, s.objects[u := data])
  {
    hide EventsInv, ResultsInv, VectorsInv, BusInv, RelayInv, WorkersInv, TextsOk, TextStored, OutboxMinted, JobOk;
  }

  lemma TextFacts(c: Config, s: State, d: Id)
    requires Inv(c, s) && d in s.db.jobs
    ensures TextOk(c, s.db.jobs, s.objects, d)
  {
    hide EventsInv, ResultsInv, VectorsInv, BusInv, RelayInv, WorkersInv, JobsOk, TextStored, OutboxMinted, TextOk;
  }

  lemma RecordName(c: Config, s: State, w: nat)
    requires Inv(c, s) && HasRecord(s, w) && Record(s, w).payload.DocumentIngested?
    ensures var d := Record(s, w).documentId;
            && d in s.db.jobs && Record(s, w).payload.documentId == d
            && Record(s, w).payload.filename == s.db.jobs[d].filename
  {
    hide Inv;
    RecordFacts(c, s, w);
  }

  /** A second extraction of the same document writes the bytes that are already there. */
  lemma SameText(c: Config, s: State, w: nat)
    requires Inv(c, s) && HasRecord(s, w) && s.workers[w].phase.Parsed? && Record(s, w).payload.DocumentIngested?
    ensures var p := Record(s, w).payload;
            ObjectsGrow(s.objects,
                        s.objects[TextUri(p.documentId, p.filename) := c.encode(s.workers[w].phase.extraction.text)])
  {
    hide Inv, ExtractionOf, TextUri;
    RecordName(c, s, w);
    ParsedFacts(c, s, w);
    TextFacts(c, s, Record(s, w).documentId);
  }

  lemma GatewayGrows(c: Config, s: State, step: Step)
    requires Inv(c, s) && IsGatewayStep(step) && GatewayEnabled(c, s, step)
    ensures Grows(s, ApplyGateway(c, s, step))
  {
    hide Inv;
    match step
    case SaveUpload(owner, name, data) =>
      assert [owner][0] == owner;
      NewObject(c, s, Uri(owner, ObjectKeys.SafeName(name)), data);
      hide ObjectsGrow;
    case Ingest(jobId, documentId, eventId, correlationId, filename, contentType, sizeBytes, storageUri, at) =>
      var ids := [jobId, documentId, eventId, correlationId];
      assert ids[1] == documentId && ids[2] == eventId;
      Unminted(c, s, documentId);
      Unminted(c, s, eventId);
      var job := NewJob(jobId, documentId, filename, contentType, sizeBytes, storageUri);
      NewJobGrows(s.db, documentId, job, IngestedEvent(job, eventId, correlationId), at);
      hide JobsKeepIdentity, OutboxGrows, Fresh;
      DbGrows(s, ApplyGateway(c, s, step), ApplyGateway(c, s, step).db);
  }

  lemma RelayGrows(c: Config, s: State, step: Step)
    requires IsRelayStep(step) && RelayEnabled(c, s, step)
    ensures Grows(s, ApplyRelay(c, s, step))
  {
    hide Lockable, Bump;
    match step
    case RelayLock(r, ids) => SameGrows(s, ApplyRelay(c, s, step));
    case RelayPublish(r) =>
    case RelayCommit(r) => DbGrows(s, ApplyRelay(c, s, step), ApplyRelay(c, s, step).db);
    case RelayRollback(r) => SameGrows(s, ApplyRelay(c, s, step));
  }

  /** A commit writes its own tables and nothing else. */
  lemma CommitGrows(c: Config, s: State, w: nat, db: Db, acked: bool)
    requires HasRecord(s, w)
    requires JobsKeepIdentity(s.db.jobs, db.jobs) && OutboxGrows(s.db.outbox, db.outbox)
    requires s.db.published <= db.published && s.db.ledger <= db.ledger && s.db.views.Keys <= db.views.Keys
    requires db.jobs.Keys == s.db.jobs.Keys
    ensures Grows(s, AfterCommit(c, s, w, db, acked))
  {
    hide JobsKeepIdentity, OutboxGrows;
    DbGrows(s, AfterCommit(c, s, w, db, acked), db);
  }

  lemma ClaimingGrows(c: Config, s: State, step: Step)
    requires IsClaimingStep(step) && ClaimingEnabled(c, s, step)
    ensures Grows(s, ApplyClaiming(c, s, step))
  {
    hide KeyLocked;
    match step
    case InsertClaim(w) => SameGrows(s, ApplyClaiming(c, s, step));
    case SkipDuplicate(w) => SameGrows(s, ApplyClaiming(c, s, step));
    case LoadJob(w) => SameGrows(s, ApplyClaiming(c, s, step));
    case CommitNoJob(w, acked) => CommitGrows(c, s, w, WithClaim(s, w), acked);
  }

  lemma ExtractionDbGrows(s: State, w: nat, at: int)
    requires HasRecord(s, w) && s.workers[w].phase.TextSaved? && Record(s, w).payload.DocumentIngested?
    requires Record(s, w).payload.documentId in s.db.jobs && s.workers[w].draw !in s.db.outbox
    ensures var db := ExtractionDb(s, w, at);
            && JobsKeepIdentity(s.db.jobs, db.jobs) && OutboxGrows(s.db.outbox, db.outbox)
            && db.published == s.db.published && s.db.ledger <= db.ledger && db.views == s.db.views
            && db.jobs.Keys == s.db.jobs.Keys
  {
  }

  lemma EnrichmentDbGrows(s: State, w: nat, classification: string, summary: string, at: int)
    requires HasRecord(s, w) && s.workers[w].phase.Upserting?
    requires Record(s, w).payload.documentId in s.db.jobs && s.workers[w].draw !in s.db.outbox
    ensures var db := EnrichmentDb(s, w, classification, summary, at);
            && JobsKeepIdentity(s.db.jobs, db.jobs) && OutboxGrows(s.db.outbox, db.outbox)
            && db.published == s.db.published && s.db.ledger <= db.ledger && db.views == s.db.views
            && db.jobs.Keys == s.db.jobs.Keys
  {
  }

  lemma SavedGrows(s: State, t: State)
    requires t == s.(objects := t.objects, workers := t.workers) && ObjectsGrow(s.objects, t.objects)
    ensures Grows(s, t)
  {
  }

  lemma DrawUnused(c: Config, s: State, w: nat)
    requires Inv(c, s) && HasRecord(s, w) && HoldsClaim(s.workers[w].phase)
    ensures s.workers[w].draw !in s.db.outbox
  {
    hide Inv, Undrawn, Unheld;
    SetAside(c, s, w);
  }

  lemma ExtractionGrows(c: Config, s: State, step: Step)
    requires Inv(c, s) && IsExtractionStep(step) && ExtractionEnabled(c, s, step)
    ensures Grows(s, ApplyExtraction(c, s, step))
  {
    hide Inv, ObjectsGrow, Grows, AfterCommit, Undrawn, Unheld, ExtractionDb, TextUri;
    match step
    case Parse(w) => SameGrows(s, ApplyExtraction(c, s, step));
    case SaveText(w) =>
      SameText(c, s, w);
      SavedGrows(s, ApplyExtraction(c, s, step));
    case CommitExtraction(w, at, acked) =>
      DrawUnused(c, s, w);
      ExtractionDbGrows(s, w, at);
      hide JobsKeepIdentity, OutboxGrows;
      CommitGrows(c, s, w, ExtractionDb(s, w, at), acked);
  }

  lemma EnrichmentGrows(c: Config, s: State, step: Step)
    requires Inv(c, s) && IsEnrichmentStep(step) && EnrichmentEnabled(c, s, step)
    ensures Grows(s, ApplyEnrichment(c, s, step))
  {
    hide Inv, Unheld, Undrawn;
    match step
    case ReadChunks(w) => SameGrows(s, ApplyEnrichment(c, s, step));
    case Embed(w, vectors) => SameGrows(s, ApplyEnrichment(c, s, step));
    case Upsert(w, upto) =>
      var p := s.workers[w].phase;
      PutPointsGrow(s.points, Record(s, w).payload.documentId, p.texts, p.vectors, p.done, upto);
    case CommitEnrichment(w, classification, summary, at, acked) =>
      SetAside(c, s, w);
      EnrichmentDbGrows(s, w, classification, summary, at);
      hide EnrichmentDb, JobsKeepIdentity, OutboxGrows;
      CommitGrows(c, s, w, EnrichmentDb(s, w, classification, summary, at), acked);
    case CommitProjection(w, acked) => CommitGrows(c, s, w, ProjectionDb(s, w), acked);
  }

  lemma FailureGrows(c: Config, s: State, step: Step)
    requires IsFailureStep(step) && FailureEnabled(c, s, step)
    ensures Grows(s, ApplyFailure(c, s, step))
  {
    match step
    case Raise(w) => SameGrows(s, ApplyFailure(c, s, step));
    case Requeue(w) =>
    case DeadLetterRecord(w) =>
    case MarkFailed(w, message) => DbGrows(s, ApplyFailure(c, s, step),
                                           MarkFailedDb(s.db, s.workers[w].phase.documentId, message));
    case SkipMarkFailed(w) => SameGrows(s, ApplyFailure(c, s, step));
  }

  lemma StepGrows(c: Config, s: State, step: Step)
    requires Inv(c, s) && Enabled(c, s, step)
    ensures Grows(s, Apply(c, s, step))
  {
    hide Inv, Grows;
    hide GatewayEnabled, RelayEnabled, ClaimingEnabled, ExtractionEnabled, EnrichmentEnabled, FailureEnabled;
    hide ApplyGateway, ApplyRelay, ApplyClaiming, ApplyExtraction, ApplyEnrichment, ApplyFailure;
    if IsGatewayStep(step) { GatewayGrows(c, s, step); }
    else if IsRelayStep(step) { RelayGrows(c, s, step); }
    else if IsMembershipStep(step) { SameGrows(s, Apply(c, s, step)); }
    else if IsClaimingStep(step) { ClaimingGrows(c, s, step); }
    else if IsExtractionStep(step) { ExtractionGrows(c, s, step); }
    else if IsEnrichmentStep(step) { EnrichmentGrows(c, s, step); }
    else { FailureGrows(c, s, step); }
  }

  /** Along every run nothing committed is undone: ledger progress never goes backwards, events are
      immutable, and a job keeps the identity it was created with. */
  lemma {:induction false} RunGrows(c: Config, s: State, steps: seq<Step>)
    requires ValidConfig(c) && Inv(c, s) && Run(c, s, steps).Some?
    ensures Grows(s, Run(c, s, steps).value)
  {
    hide Inv, Enabled, Apply;
    if steps == [] {
      SameGrows(s, s);
    } else {
      var before := Run(c, s, steps[..|steps| - 1]).value;
      RunInv(c, s, steps[..|steps| - 1]);
      RunGrows(c, s, steps[..|steps| - 1]);
      StepGrows(c, before, steps[|steps| - 1]);
      hide Grows;
      GrowsTrans(s, before, Apply(c, before, steps[|steps| - 1]));
    }
  }

  // ----- unused ids ------------------------------------------------------------------------

  ghost function Longest(ids: set<Id>): (n: nat)
    ensures forall i :: i in ids ==> |i| <= n
    decreases ids
  {
    if ids == {} then 0
    else
      var i :| i in ids;
      var n := Longest(ids - {i});
      assert forall j :: j in ids ==> j == i || j in ids - {i};
      if |i| > n then |i| else n
  }

  /** A UUID nobody has drawn can always be found. */
  lemma UndrawnId(minted: set<Id>) returns (id: Id)
    ensures id !in minted
  {
    id := seq(Longest(minted) + 1, _ => '0');
  }

  // ----- who creates jobs --------------------------------------------------------------------

  lemma CommitSameJobs(c: Config, s: State, w: nat, db: Db, acked: bool)
    requires HasRecord(s, w) && db.jobs.Keys == s.db.jobs.Keys
    ensures AfterCommit(c, s, w, db, acked).db.jobs.Keys == s.db.jobs.Keys
  {
  }

  lemma ClaimingSameJobs(c: Config, s: State, step: Step)
    requires IsClaimingStep(step) && ClaimingEnabled(c, s, step)
    ensures ApplyClaiming(c, s, step).db.jobs.Keys == s.db.jobs.Keys
  {
    hide KeyLocked;
    if step.CommitNoJob? {
      CommitSameJobs(c, s, step.w, WithClaim(s, step.w), step.acked);
    }
  }

  lemma ExtractionSameJobs(c: Config, s: State, step: Step)
    requires IsExtractionStep(step) && ExtractionEnabled(c, s, step)
    ensures ApplyExtraction(c, s, step).db.jobs.Keys == s.db.jobs.Keys
  {
    hide AfterCommit;
    if step.CommitExtraction? {
      CommitSameJobs(c, s, step.w, ExtractionDb(s, step.w, step.at), step.acked);
    }
  }

  lemma EnrichmentSameJobs(c: Config, s: State, step: Step)
    requires IsEnrichmentStep(step) && EnrichmentEnabled(c, s, step)
    ensures ApplyEnrichment(c, s, step).db.jobs.Keys == s.db.jobs.Keys
  {
    hide AfterCommit, PutPoints;
    if step.CommitEnrichment? {
      CommitSameJobs(c, s, step.w, EnrichmentDb(s, step.w, step.classification, step.summary, step.at), step.acked);
    } else if step.CommitProjection? {
      CommitSameJobs(c, s, step.w, ProjectionDb(s, step.w), step.acked);
    }
  }

  /** Only the gateway creates jobs. */
  lemma NoNewJobs(c: Config, s: State, step: Step)
    requires Enabled(c, s, step) && !IsGatewayStep(step)
    ensures Apply(c, s, step).db.jobs.Keys == s.db.jobs.Keys
  {
    hide ClaimingEnabled, ExtractionEnabled, EnrichmentEnabled, FailureEnabled, Lockable, Bump;
    hide ApplyClaiming, ApplyExtraction, ApplyEnrichment, ApplyFailure;
    if IsClaimingStep(step) { ClaimingSameJobs(c, s, step); }
    else if IsExtractionStep(step) { ExtractionSameJobs(c, s, step); }
    else if IsEnrichmentStep(step) { EnrichmentSameJobs(c, s, step); }
    else if IsFailureStep(step) { FailureSameJobs(c, s, step); }
  }

  lemma FailureSameJobs(c: Config, s: State, step: Step)
    requires IsFailureStep(step) && FailureEnabled(c, s, step)
    ensures ApplyFailure(c, s, step).db.jobs.Keys == s.db.jobs.Keys
  {
  }

  // ----- a claim commits once --------------------------------------------------------------

  /** The ledger row a step commits, if it is a handler's COMMIT. */
  function CommittedClaim(s: State, step: Step): Option<Claim> {
    match step
    case CommitNoJob(w, _) => if HasRecord(s, w) then Some(ClaimOf(s, w)) else None
    case CommitExtraction(w, _, _) => if HasRecord(s, w) then Some(ClaimOf(s, w)) else None
    case CommitEnrichment(w, _, _, _, _) => if HasRecord(s, w) then Some(ClaimOf(s, w)) else None
    case CommitProjection(w, _) => if HasRecord(s, w) then Some(ClaimOf(s, w)) else None
    case _ => None
  }

  lemma CommitClaims(c: Config, s: State, step: Step)
    requires Inv(c, s) && Enabled(c, s, step) && CommittedClaim(s, step).Some?
    ensures CommittedClaim(s, step).value !in s.db.ledger
    ensures CommittedClaim(s, step).value in Apply(c, s, step).db.ledger
  {
    hide Inv, Unheld, Undrawn;
    SetAside(c, s, step.w);
  }

  /** For any interleaving of committing, failing and crashing workers, the work for one event and
      consumer group commits at most once in the whole run, even when the first commit's
      acknowledgement was lost. */
  lemma ClaimCommitsAtMostOnce(c: Config, steps: seq<Step>, i: nat, j: nat)
    requires ValidConfig(c) && i < j < |steps| && Run(c, Init(), steps).Some?
    ensures Run(c, Init(), steps[..i]).Some? && Run(c, Init(), steps[..j]).Some?
    ensures var a := CommittedClaim(Run(c, Init(), steps[..i]).value, steps[i]);
            var b := CommittedClaim(Run(c, Init(), steps[..j]).value, steps[j]);
            a.Some? && b.Some? ==> a.value != b.value
  {
    hide Inv, Enabled, Apply, CommittedClaim, Run, Init;
    StepAt(c, steps, i);
    StepAt(c, steps, j);
    var si := Run(c, Init(), steps[..i]).value;
    var sj := Run(c, Init(), steps[..j]).value;
    LedgerBetween(c, steps, i + 1, j);
    if CommittedClaim(si, steps[i]).Some? && CommittedClaim(sj, steps[j]).Some? {
      CommitClaims(c, si, steps[i]);
      CommitClaims(c, sj, steps[j]);
    }
  }

  /** The step of a run at one place, and the states around it. */
  lemma StepAt(c: Config, steps: seq<Step>, i: nat)
    requires ValidConfig(c) && i < |steps| && Run(c, Init(), steps).Some?
    ensures Run(c, Init(), steps[..i]).Some? && Inv(c, Run(c, Init(), steps[..i]).value)
    ensures Enabled(c, Run(c, Init(), steps[..i]).value, steps[i])
    ensures Run(c, Init(), steps[..i + 1]) == Some(Apply(c, Run(c, Init(), steps[..i]).value, steps[i]))
  {
    hide Inv, Enabled, Apply, Init;
    InitInv(c);
    RunPrefix(c, steps, i);
    RunPrefix(c, steps, i + 1);
    RunInv(c, Init(), steps[..i]);
    assert steps[..i + 1][..i] == steps[..i] && steps[..i + 1][i] == steps[i];
  }

  /** From one place of a run to a later one the ledger only grows. */
  lemma LedgerBetween(c: Config, steps: seq<Step>, i: nat, j: nat)
    requires ValidConfig(c) && i <= j <= |steps| && Run(c, Init(), steps).Some?
    ensures Run(c, Init(), steps[..i]).Some? && Run(c, Init(), steps[..j]).Some?
    ensures Run(c, Init(), steps[..i]).value.db.ledger <= Run(c, Init(), steps[..j]).value.db.ledger
  {
    hide Inv, Enabled, Apply, Init, Run;
    InitInv(c);
    RunPrefix(c, steps, i);
    RunPrefix(c, steps, j);
    RunInv(c, Init(), steps[..i]);
    assert steps[..j] == steps[..i] + steps[i..j];
    RunSplit(c, Init(), steps[..i], steps[i..j]);
    RunGrows(c, Run(c, Init(), steps[..i]).value, steps[i..j]);
    hide JobsKeepIdentity, OutboxGrows, PerGrows, ObjectsGrow, NewJobsAreFresh;
  }

  /** A failed or crashed attempt gives its claim back: any other consumer waiting at a copy of the
      event can insert the ledger row at once. */
  lemma ClaimIsFreeAgain(c: Config, s: State, w: nat, step: Step, v: nat)
    requires ValidConfig(c) && Reachable(c, s) && HasRecord(s, w) && HoldsClaim(s.workers[w].phase)
    requires step == Raise(w) || step == Crash(w)
    requires v != w && HasRecord(s, v) && s.workers[v].phase == Opened && ClaimOf(s, v) == ClaimOf(s, w)
    ensures Enabled(c, s, step) && Enabled(c, Apply(c, s, step), InsertClaim(v))
  {
    hide Reachable, KeyLocked, Enabled, Apply;
    HeldAlone(c, s, w, v);
    AttemptOver(c, s, w, step);
    KeyFreed(s, Apply(c, s, step), w, v);
    InsertPossible(c, Apply(c, s, step), v);
  }

  lemma AttemptOver(c: Config, s: State, w: nat, step: Step)
    requires HasRecord(s, w) && HoldsClaim(s.workers[w].phase) && (step == Raise(w) || step == Crash(w))
    ensures Enabled(c, s, step)
    ensures var t := Apply(c, s, step);
            && t.db == s.db && t.logs == s.logs && (w in t.workers ==> t.workers[w].phase.Raised?)
            && (forall u :: u != w ==>
                  (u in t.workers <==> u in s.workers) && (u in t.workers ==> t.workers[u] == s.workers[u]))
  {
  }

  lemma InsertPossible(c: Config, s: State, v: nat)
    requires At(s, v, Opened) && Record(s, v).payload.EventType() == s.workers[v].stage
    requires ClaimOf(s, v) !in s.db.ledger && !KeyLocked(s, v)
    ensures Enabled(c, s, InsertClaim(v))
  {
    hide KeyLocked;
  }

  lemma KeyFreed(s: State, t: State, w: nat, v: nat)
    requires t.logs == s.logs && v != w && HasRecord(s, w) && HasRecord(s, v) && ClaimOf(s, v) == ClaimOf(s, w)
    requires v in t.workers && t.workers[v] == s.workers[v]
    requires forall u :: u in t.workers && u != w ==> u in s.workers && t.workers[u] == s.workers[u]
    requires w in t.workers ==> t.workers[w].phase.Raised?
    requires forall u :: u in s.workers && u != w && HasRecord(s, u) && HoldsClaim(s.workers[u].phase) ==>
              ClaimOf(s, u) != ClaimOf(s, w)
    ensures HasRecord(t, v) && ClaimOf(t, v) == ClaimOf(s, v) && !KeyLocked(t, v)
  {
    forall u | u in t.workers && u != v && HoldsClaim(t.workers[u].phase) && HasRecord(t, u)
      ensures !(t.workers[u].stage == t.workers[v].stage && Record(t, u).eventId == Record(t, v).eventId)
    {
      assert ClaimOf(s, u) != ClaimOf(s, w);
    }
  }

  lemma HeldAlone(c: Config, s: State, w: nat, v: nat)
    requires ValidConfig(c) && Reachable(c, s) && HasRecord(s, w) && HoldsClaim(s.workers[w].phase) && HasRecord(s, v)
    ensures ClaimOf(s, w) !in s.db.ledger && Record(s, v).payload.EventType() == s.workers[v].stage
    ensures forall u :: u in s.workers && u != w && HasRecord(s, u) && HoldsClaim(s.workers[u].phase) ==>
              ClaimOf(s, u) != ClaimOf(s, w)
  {
    hide Reachable, Inv;
    ReachableInv(c, s);
    HeldUnclaimed(c, s, w);
    RecordTyped(c, s, v);
    OnlyHolder(c, s, w);
  }

  lemma HeldUnclaimed(c: Config, s: State, w: nat)
    requires Inv(c, s) && HasRecord(s, w) && HoldsClaim(s.workers[w].phase)
    ensures ClaimOf(s, w) !in s.db.ledger
  {
    hide Inv, Unheld, Undrawn;
    SetAside(c, s, w);
  }

  lemma RecordTyped(c: Config, s: State, v: nat)
    requires Inv(c, s) && HasRecord(s, v)
    ensures Record(s, v).payload.EventType() == s.workers[v].stage
  {
    hide Inv;
    RecordFacts(c, s, v);
  }

  lemma OnlyHolder(c: Config, s: State, w: nat)
    requires Inv(c, s) && HasRecord(s, w) && HoldsClaim(s.workers[w].phase)
    ensures forall u :: u in s.workers && u != w && HasRecord(s, u) && HoldsClaim(s.workers[u].phase) ==>
              ClaimOf(s, u) != ClaimOf(s, w)
  {
    hide StoresInv, EventsInv, ResultsInv, VectorsInv, BusInv, RelayInv, DrawsOk, PhasesOk;
    forall u | u in s.workers && u != w && HasRecord(s, u) && HoldsClaim(s.workers[u].phase)
      ensures ClaimOf(s, u) != ClaimOf(s, w)
    {
      assert Holding(s.logs, s.workers[u]) && Holding(s.logs, s.workers[w]);
      assert KeyOf(s.logs, s.workers[u]) == ClaimOf(s, u) && KeyOf(s.logs, s.workers[w]) == ClaimOf(s, w);
      assert Contend(s.logs, s.workers[u], s.workers[w]) <==> ClaimOf(s, u) == ClaimOf(s, w);
    }
  }

  lemma RunPrefix(c: Config, steps: seq<Step>, i: nat)
    requires i <= |steps| && Run(c, Init(), steps).Some?
    ensures Run(c, Init(), steps[..i]).Some?
  {
    hide Enabled, Apply;
    assert steps == steps[..i] + steps[i..];
    RunSplit(c, Init(), steps[..i], steps[i..]);
  }
}
