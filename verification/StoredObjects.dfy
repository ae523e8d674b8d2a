/** The protocol's objects, keyed by owner and base name, are the object store's, addressed by strings. */
module StoredObjects {
  import opened Events
  import opened Model
  import opened Invariant
  import opened Commits
  import opened WorkSteps
  import opened History
  import Keys = ObjectKeys

  // ----- one object for each owner ---------------------------------------------------------

  /** Every key prefix has one object: an upload under its provisional id, or a document's text. */
  ghost predicate Tidy(s: State) {
    && (forall u, v :: u in s.objects && v in s.objects && u.owner == v.owner ==> u == v)
    && (forall u :: u in s.objects && u.owner in s.db.jobs ==> u == TextUri(u.owner, s.db.jobs[u.owner].filename))
  }

  lemma CommitSameObjects(c: Config, s: State, w: nat, db: Db, acked: bool)
    requires HasRecord(s, w)
    ensures AfterCommit(c, s, w, db, acked).objects == s.objects
  {
  }

  lemma ClaimingSameObjects(c: Config, s: State, step: Step)
    requires IsClaimingStep(step) && ClaimingEnabled(c, s, step)
    ensures ApplyClaiming(c, s, step).objects == s.objects
  {
    hide KeyLocked;
    if step.CommitNoJob? {
      CommitSameObjects(c, s, step.w, WithClaim(s, step.w), step.acked);
    }
  }

  lemma ExtractionSameObjects(c: Config, s: State, step: Step)
    requires IsExtractionStep(step) && ExtractionEnabled(c, s, step) && !step.SaveText?
    ensures ApplyExtraction(c, s, step).objects == s.objects
  {
    hide AfterCommit, ExtractionDb;
    if step.CommitExtraction? {
      CommitSameObjects(c, s, step.w, ExtractionDb(s, step.w, step.at), step.acked);
    }
  }

  lemma EnrichmentSameObjects(c: Config, s: State, step: Step)
    requires IsEnrichmentStep(step) && EnrichmentEnabled(c, s, step)
    ensures ApplyEnrichment(c, s, step).objects == s.objects
  {
    hide AfterCommit, EnrichmentDb, ProjectionDb, PutPoints;
    if step.CommitEnrichment? {
      CommitSameObjects(c, s, step.w, EnrichmentDb(s, step.w, step.classification, step.summary, step.at), step.acked);
    } else if step.CommitProjection? {
      CommitSameObjects(c, s, step.w, ProjectionDb(s, step.w), step.acked);
    }
  }

  lemma SameObjects(c: Config, s: State, step: Step)
    requires Enabled(c, s, step) && !IsGatewayStep(step) && !step.SaveText?
    ensures Apply(c, s, step).objects == s.objects
  {
    hide ClaimingEnabled, ExtractionEnabled, EnrichmentEnabled, FailureEnabled, Lockable, Bump;
    hide ApplyClaiming, ApplyExtraction, ApplyEnrichment, ApplyFailure;
    if IsClaimingStep(step) { ClaimingSameObjects(c, s, step); }
    else if IsExtractionStep(step) { ExtractionSameObjects(c, s, step); }
    else if IsEnrichmentStep(step) { EnrichmentSameObjects(c, s, step); }
    else if IsFailureStep(step) { FailureSameObjects(c, s, step); }
  }

  lemma FailureSameObjects(c: Config, s: State, step: Step)
    requires IsFailureStep(step) && FailureEnabled(c, s, step)
    ensures ApplyFailure(c, s, step).objects == s.objects
  {
    hide MarkFailedDb;
  }

  lemma TidyKept(s: State, t: State)
    requires Tidy(s) && Grows(s, t) && t.db.jobs.Keys == s.db.jobs.Keys && t.objects == s.objects
    ensures Tidy(t)
  {
    hide OutboxGrows, ObjectsGrow, NewJobsAreFresh, TextUri;
  }

  lemma OwnersMinted(c: Config, s: State)
    requires Inv(c, s)
    ensures forall u :: u in s.objects ==> u.owner in s.minted
    ensures forall d :: d in s.db.jobs ==> d in s.minted
  {
    hide EventsInv, ResultsInv, VectorsInv, BusInv, RelayInv, WorkersInv, TextsOk, TextStored, OutboxMinted;
    assert forall d :: d in s.db.jobs ==> JobOk(s.objects, s.minted, d, s.db.jobs);
  }

  lemma GatewayTidy(c: Config, s: State, step: Step)
    requires Inv(c, s) && Tidy(s) && IsGatewayStep(step) && GatewayEnabled(c, s, step)
    ensures Tidy(ApplyGateway(c, s, step))
  {
    hide Inv, TextUri, Keys.SafeName, Tidy;
    OwnersMinted(c, s);
    match step
    case SaveUpload(owner, name, data) =>
      assert [owner][0] == owner;
      UploadTidy(s, ApplyGateway(c, s, step), Uri(owner, Keys.SafeName(name)), data);
    case Ingest(jobId, documentId, eventId, correlationId, filename, contentType, sizeBytes, storageUri, at) =>
      var ids := [jobId, documentId, eventId, correlationId];
      assert ids[1] == documentId;
      IngestTidy(s, ApplyGateway(c, s, step), documentId);
      hide Fresh;
  }

  lemma UploadTidy(s: State, t: State, u: Uri, data: Bytes)
    requires Tidy(s) && t.db.jobs == s.db.jobs && t.objects == s.objects[u := data] && u.owner !in s.db.jobs
    requires forall v :: v in s.objects ==> v.owner != u.owner
    ensures Tidy(t)
  {
    hide TextUri;
  }

  lemma IngestTidy(s: State, t: State, d: Id)
    requires Tidy(s) && t.objects == s.objects && d in t.db.jobs && t.db.jobs == s.db.jobs[d := t.db.jobs[d]]
    requires forall v :: v in s.objects ==> v.owner != d
    ensures Tidy(t)
  {
    hide TextUri;
  }

  lemma SaveTextTidy(c: Config, s: State, w: nat)
    requires Inv(c, s) && Tidy(s) && ExtractionEnabled(c, s, SaveText(w))
    ensures Tidy(ApplyExtraction(c, s, SaveText(w)))
  {
    hide Inv, TextUri;
    RecordName(c, s, w);
    var p := Record(s, w).payload;
    assert TextUri(p.documentId, p.filename).owner == p.documentId by { TextOwner(p.documentId, p.filename); }
  }

  lemma TextOwner(d: Id, filename: string)
    ensures TextUri(d, filename).owner == d
  {
  }

  lemma StepTidy(c: Config, s: State, step: Step)
    requires ValidConfig(c) && Inv(c, s) && Tidy(s) && Enabled(c, s, step)
    ensures Tidy(Apply(c, s, step))
  {
    hide Inv, Tidy, Grows;
    if IsGatewayStep(step) {
      hide GatewayEnabled, ApplyGateway;
      GatewayTidy(c, s, step);
    } else if step.SaveText? {
      hide ExtractionEnabled, ApplyExtraction;
      SaveTextTidy(c, s, step.w);
    } else {
      hide Enabled, Apply;
      StepGrows(c, s, step);
      NoNewJobs(c, s, step);
      SameObjects(c, s, step);
      TidyKept(s, Apply(c, s, step));
    }
  }

  lemma {:induction false} RunTidy(c: Config, steps: seq<Step>)
    requires ValidConfig(c) && Run(c, Init(), steps).Some?
    ensures Tidy(Run(c, Init(), steps).value)
  {
    hide Inv, Enabled, Apply;
    if steps != [] {
      hide Tidy;
      var last := |steps| - 1;
      RunTidy(c, steps[..last]);
      InitInv(c);
      RunInv(c, Init(), steps[..last]);
      StepTidy(c, Run(c, Init(), steps[..last]).value, steps[last]);
    }
  }

  // ----- the bucket behind it --------------------------------------------------------------

  function KeyOfObject(u: Uri): string {
    u.owner + "/" + u.name
  }

  /** The bucket holds the protocol's objects under their keys, and nothing else. */
  ghost predicate Represents(bucket: string, store: Keys.Objects, objects: Objects) {
    && (forall u :: u in objects ==> (bucket, KeyOfObject(u)) in store && store[(bucket, KeyOfObject(u))] == objects[u])
    && (forall k :: (bucket, k) in store ==> exists u :: u in objects && k == KeyOfObject(u))
  }

  /** Ids are rendered UUIDs. */
  ghost predicate OwnersAreUuids(objects: Objects) {
    forall u :: u in objects ==> Keys.IsUuidText(u.owner)
  }

  lemma KeyOfObjectInjective(u: Uri, v: Uri)
    requires Keys.IsUuidText(u.owner) && Keys.IsUuidText(v.owner)
    ensures KeyOfObject(u) == KeyOfObject(v) ==> u == v
  {
    if KeyOfObject(u) == KeyOfObject(v) {
      Keys.FirstSlashSplits(u.owner, u.name, v.owner, v.name);
    }
  }

  /** Putting an object under its key keeps the two in step. */
  lemma SavingRepresents(bucket: string, store: Keys.Objects, objects: Objects, u: Uri, data: Bytes)
    requires Represents(bucket, store, objects) && OwnersAreUuids(objects) && Keys.IsUuidText(u.owner)
    ensures Represents(bucket, store[(bucket, KeyOfObject(u)) := data], objects[u := data])
  {
    var store' := store[(bucket, KeyOfObject(u)) := data];
    var objects' := objects[u := data];
    forall v | v in objects'
      ensures (bucket, KeyOfObject(v)) in store' && store'[(bucket, KeyOfObject(v))] == objects'[v]
    {
      KeyOfObjectInjective(u, v);
    }
    forall k | (bucket, k) in store'
      ensures exists v :: v in objects' && k == KeyOfObject(v)
    {
      if k == KeyOfObject(u) {
        assert u in objects';
      } else {
        var v :| v in objects && k == KeyOfObject(v);
        assert v in objects';
      }
    }
  }

  /** In every reachable state, reading a stored object's URI finds its bytes if its base name is clean
      and no key at all otherwise: what the protocol calls readable is what the URI strings can reach. */
  lemma ReadsFindTheReadable(c: Config, s: State, bucket: string, store: Keys.Objects, u: Uri)
    requires ValidConfig(c) && Reachable(c, s) && u in s.objects
    requires Keys.IsBucketName(bucket) && OwnersAreUuids(s.objects) && Represents(bucket, store, s.objects)
    ensures Keys.ReadFrom(store, Keys.UriOf(bucket, KeyOfObject(u))) ==
              if Readable(s.objects, u) then Keys.Ok(s.objects[u]) else Keys.Err(Keys.NoSuchKey)
  {
    var steps :| Run(c, Init(), steps) == Some(s);
    hide Run;
    RunTidy(c, steps);
    Keys.ParseSavedUri(bucket, u.owner, u.name);
    var v := Uri(u.owner, Keys.Survives(u.name));
    hide Keys.Survives, Keys.ParseUri, Keys.UriOf;
    forall x | x in s.objects && KeyOfObject(x) == KeyOfObject(v)
      ensures x == v && x == u
    {
      KeyOfObjectInjective(v, x);
    }
  }
}
