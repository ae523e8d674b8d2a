/** When nothing fails, everything completes: a run without crashes, raising handlers and lost
    acknowledgements can always be continued until every document is enriched and in the read model,
    unless an upload itself stands in the way. */
module Completion {
  import opened Topics
  import opened Events
  import opened Model
  import opened Invariant
  import opened WorkSteps
  import opened History
  import opened Termination
  import opened Settling
  import opened Uploads
  import Guarantees

  // ----- flawless runs ---------------------------------------------------------------------

  predicate LosesAcknowledgement(step: Step) {
    || (step.CommitNoJob? && !step.acked) || (step.CommitExtraction? && !step.acked)
    || (step.CommitEnrichment? && !step.acked) || (step.CommitProjection? && !step.acked)
  }

  /** Calm, and no handler raises or loses its commit's acknowledgement. */
  predicate Flawless(step: Step) {
    Calm(step) && !step.Raise? && !LosesAcknowledgement(step)
  }

  predicate FlawlessRun(steps: seq<Step>) {
    forall i :: 0 <= i < |steps| ==> Flawless(steps[i])
  }

  /** Nothing is dead-lettered, and no failure is about to be. */
  predicate Healthy(c: Config, s: State) {
    && (forall g: Stage :: s.dlqs.At(g) == [])
    && (forall w :: w in s.workers && At(s, w, Raised) ==> !Exhausted(c, Record(s, w)))
  }

  /** Failures waiting to be published in `t` were waiting in `s`, and the DLQs are as they were. */
  predicate NothingNewRaised(s: State, t: State) {
    && t.dlqs == s.dlqs
    && (forall w :: w in t.workers && t.workers[w].phase.Raised? ==> w in s.workers && t.workers[w] == s.workers[w])
  }

  lemma SucceedRaisesNothing(c: Config, s: State, w: nat, db: Db)
    requires HasRecord(s, w)
    ensures NothingNewRaised(s, AfterCommit(c, s, w, db, true))
  {
  }

  lemma PhaseRaisesNothing(s: State, s1: State, w: nat, p: Phase)
    requires w in s.workers && s1.workers == s.workers && s1.dlqs == s.dlqs && !p.Raised?
    ensures NothingNewRaised(s, SetPhase(s1, w, p))
  {
  }

  lemma MembershipRaisesNothing(c: Config, s: State, step: Step)
    requires IsMembershipStep(step) && MembershipEnabled(c, s, step) && Calm(step)
    ensures NothingNewRaised(s, ApplyMembership(c, s, step))
  {
    hide Fresh;
  }

  lemma RelayRaisesNothing(c: Config, s: State, step: Step)
    requires IsRelayStep(step) && RelayEnabled(c, s, step)
    ensures NothingNewRaised(s, ApplyRelay(c, s, step))
  {
    hide Lockable, Bump;
  }

  lemma ClaimingRaisesNothing(c: Config, s: State, step: Step)
    requires IsClaimingStep(step) && ClaimingEnabled(c, s, step) && Flawless(step)
    ensures NothingNewRaised(s, ApplyClaiming(c, s, step))
  {
    hide KeyLocked, NothingNewRaised;
    match step
    case InsertClaim(w) => PhaseRaisesNothing(s, s, w, Claimed);
    case SkipDuplicate(w) => SucceedRaisesNothing(c, s, w, s.db);
    case LoadJob(w) => PhaseRaisesNothing(s, s, w, ApplyClaiming(c, s, step).workers[w].phase);
    case CommitNoJob(w, acked) => SucceedRaisesNothing(c, s, w, WithClaim(s, w));
  }

  lemma ExtractionRaisesNothing(c: Config, s: State, step: Step)
    requires IsExtractionStep(step) && ExtractionEnabled(c, s, step) && Flawless(step)
    ensures NothingNewRaised(s, ApplyExtraction(c, s, step))
  {
    hide NothingNewRaised, ExtractionDb, TextUri;
    var t := ApplyExtraction(c, s, step);
    match step
    case Parse(w) => PhaseRaisesNothing(s, s, w, t.workers[w].phase);
    case SaveText(w) => PhaseRaisesNothing(s, s.(objects := t.objects), w, t.workers[w].phase);
    case CommitExtraction(w, at, acked) =>
      hide AfterCommit;
      SucceedRaisesNothing(c, s, w, ExtractionDb(s, w, at));
  }

  lemma EnrichmentRaisesNothing(c: Config, s: State, step: Step)
    requires IsEnrichmentStep(step) && EnrichmentEnabled(c, s, step) && Flawless(step)
    ensures NothingNewRaised(s, ApplyEnrichment(c, s, step))
  {
    hide NothingNewRaised, EnrichmentDb, ProjectionDb, PutPoints;
    var t := ApplyEnrichment(c, s, step);
    match step
    case ReadChunks(w) => PhaseRaisesNothing(s, s, w, t.workers[w].phase);
    case Embed(w, vectors) => PhaseRaisesNothing(s, s, w, t.workers[w].phase);
    case Upsert(w, upto) => PhaseRaisesNothing(s, s.(points := t.points), w, t.workers[w].phase);
    case CommitEnrichment(w, classification, summary, at, acked) =>
      hide AfterCommit;
      SucceedRaisesNothing(c, s, w, EnrichmentDb(s, w, classification, summary, at));
    case CommitProjection(w, acked) =>
      hide AfterCommit;
      SucceedRaisesNothing(c, s, w, ProjectionDb(s, w));
  }

  lemma FailureRaisesNothing(c: Config, s: State, step: Step)
    requires IsFailureStep(step) && FailureEnabled(c, s, step) && !step.Raise? && !step.DeadLetterRecord?
    ensures NothingNewRaised(s, ApplyFailure(c, s, step))
  {
    hide MarkFailedDb;
  }

  lemma StaysHealthy(c: Config, s: State, t: State)
    requires Healthy(c, s) && NothingNewRaised(s, t) && Grows(s, t)
    requires forall w :: w in s.workers && s.workers[w].phase.Raised? ==> HasRecord(s, w)
    ensures Healthy(c, t)
  {
    forall w | w in t.workers && At(t, w, Raised)
      ensures !Exhausted(c, Record(t, w))
    {
      SameRecordThen(s, t, w);
    }
  }

  lemma SameRecordThen(s: State, t: State, w: nat)
    requires Grows(s, t) && HasRecord(s, w) && w in t.workers && t.workers[w] == s.workers[w]
    ensures HasRecord(t, w) && Record(t, w) == Record(s, w)
  {
    assert s.logs.At(s.workers[w].stage) <= t.logs.At(s.workers[w].stage);
  }

  lemma RaisedHaveRecords(c: Config, s: State)
    requires Inv(c, s)
    ensures forall w :: w in s.workers && s.workers[w].phase.Raised? ==> HasRecord(s, w)
  {
    hide Inv;
    forall w | w in s.workers && s.workers[w].phase.Raised?
      ensures HasRecord(s, w)
    {
      PlaceFacts(c, s, w);
    }
  }

  lemma FlawlessStepKeepsHealth(c: Config, s: State, step: Step)
    requires Inv(c, s) && Healthy(c, s) && Enabled(c, s, step) && Flawless(step)
    ensures Healthy(c, Apply(c, s, step))
  {
    RaisedHaveRecords(c, s);
    assert !step.DeadLetterRecord?;
    StepGrows(c, s, step);
    hide Inv, Healthy, NothingNewRaised, Grows;
    hide RelayEnabled, MembershipEnabled, ClaimingEnabled, ExtractionEnabled, EnrichmentEnabled, FailureEnabled;
    hide ApplyRelay, ApplyMembership, ApplyClaiming, ApplyExtraction, ApplyEnrichment, ApplyFailure;
    if IsRelayStep(step) { RelayRaisesNothing(c, s, step); }
    else if IsMembershipStep(step) { MembershipRaisesNothing(c, s, step); }
    else if IsClaimingStep(step) { ClaimingRaisesNothing(c, s, step); }
    else if IsExtractionStep(step) { ExtractionRaisesNothing(c, s, step); }
    else if IsEnrichmentStep(step) { EnrichmentRaisesNothing(c, s, step); }
    else { FailureRaisesNothing(c, s, step); }
    StaysHealthy(c, s, Apply(c, s, step));
  }

  lemma {:induction false} FlawlessRunKeepsHealth(c: Config, s: State, steps: seq<Step>)
    requires ValidConfig(c) && Inv(c, s) && Healthy(c, s) && FlawlessRun(steps) && Run(c, s, steps).Some?
    ensures Healthy(c, Run(c, s, steps).value)
  {
    hide Inv, Healthy, Enabled, Apply, Flawless;
    if steps != [] {
      var last := |steps| - 1;
      FlawlessRunKeepsHealth(c, s, steps[..last]);
      RunInv(c, s, steps[..last]);
      FlawlessStepKeepsHealth(c, Run(c, s, steps[..last]).value, steps[last]);
    }
  }

  // ----- what a flawless run comes to ------------------------------------------------------

  /** Every job is COMPLETED and in the read model. */
  ghost predicate AllComplete(s: State) {
    forall d :: d in s.db.jobs ==> s.db.jobs[d].status == Completed && d in s.db.views
  }

  lemma NothingDeadLettered(c: Config, s: State, g: Stage, d: Id)
    requires Healthy(c, s)
    ensures !DocumentIn(s.dlqs.At(g), d)
  {
  }

  /** A flawless run that comes to rest has completed every document. */
  lemma FlawlessRunsComplete(c: Config, s: State, steps: seq<Step>)
    requires ValidConfig(c) && Reachable(c, s) && Healthy(c, s)
    requires FlawlessRun(steps) && Run(c, s, steps).Some? && Quiet(Run(c, s, steps).value)
    ensures AllComplete(Run(c, s, steps).value)
  {
    hide Inv, Reachable, Healthy, FlawlessRun, Quiet, DocumentIn, Guarantees.AtRest, Run;
    var t := Run(c, s, steps).value;
    ReachableInv(c, s);
    FlawlessRunKeepsHealth(c, s, steps);
    ReachableOnward(c, s, steps);
    QuietIsAtRest(t);
    forall d | d in t.db.jobs
      ensures t.db.jobs[d].status == Completed && d in t.db.views
    {
      Guarantees.SettledMeansComplete(c, t, d);
      forall g: Stage {
        NothingDeadLettered(c, t, g, d);
      }
      assert t.dlqs.At(Ingested) == t.dlqs.ingested && t.dlqs.At(Extracted) == t.dlqs.extracted;
    }
  }

  // ----- such a run exists -----------------------------------------------------------------

  /** Nobody is in the middle of work on a claimed record. */
  predicate NobodyHolds(s: State) {
    forall w :: w in s.workers ==> !HoldsClaim(s.workers[w].phase)
  }

  lemma OpenedCanMove(c: Config, s: State, w: nat) returns (step: Step)
    requires Inv(c, s) && NobodyHolds(s) && At(s, w, Opened)
    ensures Flawless(step) && IsClaimingStep(step) && ClaimingEnabled(c, s, step)
  {
    hide Inv, HoldsClaim;
    RecordTyped(c, s, w);
    step := if ClaimOf(s, w) in s.db.ledger then SkipDuplicate(w) else InsertClaim(w);
  }

  /** The open transaction's next effect, when nothing goes wrong. */
  lemma ClaimedCanMove(c: Config, s: State, w: nat) returns (step: Step)
    requires ValidConfig(c) && Reachable(c, s) && AllUsable(c, s) && HasRecord(s, w)
    requires s.workers[w].phase.Claimed? || s.workers[w].phase.Loaded?
    ensures Flawless(step) && Enabled(c, s, step) && !step.CommitOffset?
  {
    hide Inv, Reachable, Readable, Extractable, AllUsable;
    ReachableInv(c, s);
    RecordTyped(c, s, w);
    PhaseFacts(c, s, w);
    UsableDocumentsAreReadable(c, s, w);
    var g := s.workers[w].stage;
    if s.workers[w].phase.Claimed? {
      step := if g.Enriched? then CommitProjection(w, true) else LoadJob(w);
    } else {
      step := if g.Ingested? then Parse(w) else ReadChunks(w);
    }
  }

  lemma ExtractionCanMove(c: Config, s: State, w: nat) returns (step: Step)
    requires Inv(c, s) && HasRecord(s, w) && (s.workers[w].phase.Parsed? || s.workers[w].phase.TextSaved?)
    ensures Flawless(step) && IsExtractionStep(step) && ExtractionEnabled(c, s, step)
  {
    hide Inv;
    RecordTyped(c, s, w);
    ParsedFacts(c, s, w);
    RecordName(c, s, w) by { assert Record(s, w).payload.DocumentIngested?; }
    step := if s.workers[w].phase.Parsed? then SaveText(w) else CommitExtraction(w, 0, true);
  }

  lemma EnrichmentCanMove(c: Config, s: State, w: nat) returns (step: Step)
    requires ValidConfig(c) && Inv(c, s) && HasRecord(s, w)
    requires s.workers[w].phase.Chunked? || s.workers[w].phase.Upserting?
    ensures Flawless(step) && IsEnrichmentStep(step) && EnrichmentEnabled(c, s, step)
  {
    hide Inv, Covers, ChunksOf;
    PhaseFacts(c, s, w);
    RecordDocument(c, s, w);
    match s.workers[w].phase
    case Chunked(chunks) =>
      var vectors := seq(|chunks|, _ => []);
      step := Embed(w, vectors);
    case Upserting(texts, vectors, done) =>
      step := if done < |texts| then Upsert(w, done + 1) else CommitEnrichment(w, "", "", 0, true);
  }

  lemma RecordDocument(c: Config, s: State, w: nat)
    requires Inv(c, s) && HasRecord(s, w)
    ensures Record(s, w).payload.documentId in s.db.jobs
  {
    hide Inv;
    RecordFacts(c, s, w);
  }

  /** A worker in the middle of work on a claimed record has a flawless step to take. */
  lemma HolderCanMove(c: Config, s: State, w: nat) returns (step: Step)
    requires ValidConfig(c) && Reachable(c, s) && Healthy(c, s) && AllUsable(c, s)
    requires w in s.workers && HoldsClaim(s.workers[w].phase)
    ensures Flawless(step) && Enabled(c, s, step) && !step.CommitOffset?
  {
    hide Inv, Reachable, AllUsable, ExtractionEnabled, EnrichmentEnabled;
    ReachableInv(c, s);
    PlaceFacts(c, s, w);
    NotParked(c, s, w);
    match s.workers[w].phase
    case Claimed => step := ClaimedCanMove(c, s, w);
    case Loaded => step := ClaimedCanMove(c, s, w);
    case Parsed(_) => step := ExtractionCanMove(c, s, w);
    case TextSaved(_) => step := ExtractionCanMove(c, s, w);
    case Chunked(_) => step := EnrichmentCanMove(c, s, w);
    case Upserting(_, _, _) => step := EnrichmentCanMove(c, s, w);
  }

  /** While no claim is held, any other busy worker has a flawless step to take; and so has one at an
      unread record. */
  lemma OtherCanMove(c: Config, s: State, w: nat) returns (step: Step)
    requires ValidConfig(c) && Inv(c, s) && Healthy(c, s) && NobodyHolds(s) && w in s.workers && !AtEnd(s, w)
    ensures Flawless(step) && Enabled(c, s, step) && !Idle(s, step)
  {
    hide Inv, ClaimingEnabled, HoldsClaim;
    if s.workers[w].phase.Ready? {
      step := WorkerCanMove(c, s, w);
    } else {
      PlaceFacts(c, s, w);
      NotParked(c, s, w);
      step := AttemptCanMove(c, s, w);
    }
  }

  lemma AttemptCanMove(c: Config, s: State, w: nat) returns (step: Step)
    requires ValidConfig(c) && Inv(c, s) && Healthy(c, s) && NobodyHolds(s) && w in s.workers
    requires !s.workers[w].phase.Ready? && !s.workers[w].phase.DeadLettered?
    requires NeedsRecord(s.workers[w].phase) ==> HasRecord(s, w)
    ensures Flawless(step) && Enabled(c, s, step) && !step.CommitOffset?
  {
    hide Inv, ClaimingEnabled;
    if s.workers[w].phase.Opened? {
      step := OpenedCanMove(c, s, w);
    } else {
      step := Requeue(w);
    }
  }

  lemma NotParked(c: Config, s: State, w: nat)
    requires Inv(c, s) && Healthy(c, s) && w in s.workers
    ensures !s.workers[w].phase.NoJob? && !s.workers[w].phase.DeadLettered?
  {
    hide Inv;
    PhaseFacts(c, s, w);
  }

  /** Until all is at rest some flawless step, not idle, can be taken. */
  lemma FlawlessStepExists(c: Config, s: State, crew: Per<nat>) returns (step: Step)
    requires ValidConfig(c) && Reachable(c, s) && Staffed(s, crew) && Manned(crew) && Healthy(c, s) && AllUsable(c, s)
    requires !Quiet(s)
    ensures Flawless(step) && Enabled(c, s, step) && !Idle(s, step)
  {
    hide Inv, Enabled, Reachable, Healthy, AllUsable, AtEnd, HoldsClaim, Staffed, Manned;
    ReachableInv(c, s);
    if s.relays != map[] || exists e :: e in s.db.outbox && e !in s.db.published {
      step := RelayCanMove(c, s);
    } else if w :| w in s.workers && HoldsClaim(s.workers[w].phase) {
      step := HolderCanMove(c, s, w);
    } else if w :| w in s.workers && !AtEnd(s, w) {
      step := OtherCanMove(c, s, w);
    } else {
      var g: Stage :| s.committed.At(g) != |s.logs.At(g)|;
      step := OffsetCanMove(c, s, crew, g);
    }
  }

  lemma StillUsable(c: Config, s: State, step: Step)
    requires Inv(c, s) && AllUsable(c, s) && Enabled(c, s, step) && !IsGatewayStep(step)
    ensures AllUsable(c, Apply(c, s, step))
  {
    hide Inv, Enabled, Apply, Grows, AllUsable;
    StepGrows(c, s, step);
    NoNewJobs(c, s, step);
    AllStayUsable(c, s, Apply(c, s, step));
  }

  lemma {:induction false} SettlesFlawlessly(c: Config, s: State, crew: Per<nat>) returns (steps: seq<Step>)
    requires ValidConfig(c) && Reachable(c, s) && Staffed(s, crew) && Manned(crew) && Healthy(c, s) && AllUsable(c, s)
    ensures FlawlessRun(steps) && Run(c, s, steps).Some? && Quiet(Run(c, s, steps).value)
    decreases Work(c, s, crew), Overhead(s), Left(s)
  {
    hide Inv, Reachable, Staffed, Manned, Healthy, AllUsable, Work, Overhead, Left, Quiet, Enabled, Apply, Idle;
    if Quiet(s) {
      steps := [];
    } else {
      var step := FlawlessStepExists(c, s, crew);
      ReachableInv(c, s);
      CalmStepsGetCloser(c, s, crew, step);
      FlawlessStepKeepsHealth(c, s, step);
      StillUsable(c, s, step);
      OneStepOn(c, s, step);
      var rest := SettlesFlawlessly(c, Apply(c, s, step), crew);
      steps := [step] + rest;
      RunJoin(c, s, [step], rest);
    }
  }

  lemma {:induction false} RunStaysUsable(c: Config, s: State, steps: seq<Step>)
    requires ValidConfig(c) && Inv(c, s) && AllUsable(c, s) && FlawlessRun(steps) && Run(c, s, steps).Some?
    ensures AllUsable(c, Run(c, s, steps).value)
  {
    hide Inv, AllUsable, Enabled, Apply;
    if steps != [] {
      var last := |steps| - 1;
      RunStaysUsable(c, s, steps[..last]);
      RunInv(c, s, steps[..last]);
      StillUsable(c, Run(c, s, steps[..last]).value, steps[last]);
    }
  }

  /** Flawless runs cannot help completing: wherever one stops for want of a flawless step, every
      document is complete.  (That it stops is `EveryCalmRunEnds`.) */
  lemma EveryFlawlessRunCompletes(c: Config, s: State, crew: Per<nat>, steps: seq<Step>)
    requires ValidConfig(c) && Reachable(c, s) && Staffed(s, crew) && Manned(crew) && Healthy(c, s) && AllUsable(c, s)
    requires FlawlessRun(steps) && Run(c, s, steps).Some?
    requires var t := Run(c, s, steps).value;
             forall step :: Flawless(step) && Enabled(c, t, step) ==> Idle(t, step)
    ensures AllComplete(Run(c, s, steps).value)
  {
    hide Inv, Reachable, Staffed, Manned, Healthy, AllUsable, AllComplete, Enabled, Apply, Quiet, Idle, Work;
    var t := Run(c, s, steps).value;
    ReachableInv(c, s);
    ReachableOnward(c, s, steps);
    FlawlessRunKeepsHealth(c, s, steps);
    RunStaysUsable(c, s, steps);
    CalmRunBurns(c, s, crew, steps);
    if !Quiet(t) {
      var step := FlawlessStepExists(c, t, crew);
    }
    FlawlessRunsComplete(c, s, steps);
  }

  lemma CompleteMeansUsable(c: Config, s: State, steps: seq<Step>)
    requires ValidConfig(c) && Reachable(c, s) && Run(c, s, steps).Some? && AllComplete(Run(c, s, steps).value)
    ensures AllUsable(c, s)
  {
    hide Inv, Reachable, Run, Usable, Grows, Has;
    var t := Run(c, s, steps).value;
    ReachableInv(c, s);
    ReachableOnward(c, s, steps);
    RunGrows(c, s, steps);
    forall d | d in s.db.jobs
      ensures Usable(c, s.objects, s.db.jobs[d])
    {
      UsableKept(c, s, t, d);
      if !Usable(c, t.objects, t.db.jobs[d]) {
        UnusableUploadsAreDeadLettered(c, t, d);
      }
    }
  }

  /** From a healthy state with a consumer for each stage, a flawless run that completes every document
      exists if and only if every upload is usable: its base name can be carried by a storage URI and
      `extract_text` makes something of its bytes. */
  lemma EverythingCanComplete(c: Config, s: State, crew: Per<nat>)
    requires ValidConfig(c) && Reachable(c, s) && Staffed(s, crew) && Manned(crew) && Healthy(c, s)
    ensures AllUsable(c, s) <==>
            exists steps :: FlawlessRun(steps) && Run(c, s, steps).Some? && AllComplete(Run(c, s, steps).value)
  {
    hide Inv, Reachable, Staffed, Manned, Healthy, AllUsable, AllComplete, Run, FlawlessRun, Quiet;
    if AllUsable(c, s) {
      var steps := SettlesFlawlessly(c, s, crew);
      FlawlessRunsComplete(c, s, steps);
    }
    if steps :| FlawlessRun(steps) && Run(c, s, steps).Some? && AllComplete(Run(c, s, steps).value) {
      CompleteMeansUsable(c, s, steps);
    }
  }
}
