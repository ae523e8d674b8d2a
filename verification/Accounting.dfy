/** Conservation: what the counters say about the logs, and how often a row can be published. */
module Accounting {
  import opened Topics
  import opened Events
  import opened Model
  import opened Invariant
  import opened Frames
  import opened Commits
  import opened Preservation
  import opened WorkSteps
  import opened History
  import opened Tallies
  import Termination

  // ----- failures still owed to the bus ----------------------------------------------------

  /** The worker's attempt has failed and is counted, but not yet requeued or dead-lettered. */
  predicate Owes(c: Config, s: State, w: nat, g: Stage, dead: bool) {
    At(s, w, Raised) && s.workers[w].stage == g && Exhausted(c, Record(s, w)) == dead
  }

  function Owing(c: Config, s: State, g: Stage, dead: bool): set<nat> {
    set w | w in s.workers && Owes(c, s, w, g, dead)
  }

  /** Every failure was counted as a retry or a dead-letter; every counted retry and every relay
      publish is a record of the log, but for the requeues still owed or lost in a crash; and every
      counted dead-letter is on the DLQ, with the same exceptions. */
  predicate FlowAt(c: Config, s: State, g: Stage) {
    var f := s.flow.At(g);
    && f.failed == f.retries + f.deadLetters
    && |s.logs.At(g)| + f.lostRetries + |Owing(c, s, g, false)| == f.relayed + f.retries
    && |s.dlqs.At(g)| + f.lostDeadLetters + |Owing(c, s, g, true)| == f.deadLetters
  }

  predicate FlowOk(c: Config, s: State) {
    forall g: Stage :: FlowAt(c, s, g)
  }

  /** Everybody but `w` is where they were. */
  ghost predicate OnlyWorker(s: State, t: State, w: nat) {
    && PerGrows(s.logs, t.logs)
    && (forall v :: v != w ==> (v in t.workers <==> v in s.workers))
    && (forall v :: v != w && v in s.workers ==> t.workers[v] == s.workers[v])
  }

  predicate RecordsPresent(s: State) {
    forall w :: w in s.workers && NeedsRecord(s.workers[w].phase) ==> HasRecord(s, w)
  }

  lemma RecordsArePresent(c: Config, s: State)
    requires Inv(c, s)
    ensures RecordsPresent(s)
  {
    hide StoresInv, EventsInv, ResultsInv, VectorsInv, RelayInv, WorkersInv, MessagesOk, OffsetsOk, SafeFrom;
    forall w | w in s.workers && NeedsRecord(s.workers[w].phase)
      ensures HasRecord(s, w)
    {
      assert PositionOk(s.logs, s.dlqs, s.db.ledger, s.workers[w]);
    }
  }

  lemma OthersOwe(c: Config, s: State, t: State, w: nat, g: Stage, dead: bool)
    requires RecordsPresent(s) && OnlyWorker(s, t, w)
    ensures Owing(c, t, g, dead) - {w} == Owing(c, s, g, dead) - {w}
  {
    forall v | v != w
      ensures Owes(c, t, v, g, dead) <==> Owes(c, s, v, g, dead)
    {
      if v in s.workers && s.workers[v].phase.Raised? {
        assert HasRecord(s, v);
        assert s.logs.At(s.workers[v].stage) <= t.logs.At(s.workers[v].stage);
      }
    }
  }

  lemma CountOwing(c: Config, s: State, w: nat, g: Stage, dead: bool)
    ensures |Owing(c, s, g, dead)| == |Owing(c, s, g, dead) - {w}| + (if Owes(c, s, w, g, dead) then 1 else 0)
  {
    var all := Owing(c, s, g, dead);
    if Owes(c, s, w, g, dead) {
      assert all == (all - {w}) + {w};
    } else {
      assert all == all - {w};
    }
  }

  /** How the number owed changes when only `w` moves. */
  lemma OwingChange(c: Config, s: State, t: State, w: nat, g: Stage)
    requires RecordsPresent(s) && OnlyWorker(s, t, w)
    ensures forall dead :: |Owing(c, t, g, dead)| + (if Owes(c, s, w, g, dead) then 1 else 0)
                        == |Owing(c, s, g, dead)| + (if Owes(c, t, w, g, dead) then 1 else 0)
  {
    hide Owing, Owes, RecordsPresent, OnlyWorker;
    forall dead
      ensures |Owing(c, t, g, dead)| + (if Owes(c, s, w, g, dead) then 1 else 0)
           == |Owing(c, s, g, dead)| + (if Owes(c, t, w, g, dead) then 1 else 0)
    {
      OthersOwe(c, s, t, w, g, dead);
      CountOwing(c, s, w, g, dead);
      CountOwing(c, t, w, g, dead);
    }
  }

  /** The worker neither owed nor owes anything, and no counter of ours moved. */
  lemma QuietFlow(c: Config, s: State, t: State, w: nat)
    requires RecordsPresent(s) && OnlyWorker(s, t, w) && FlowOk(c, s)
    requires t.logs == s.logs && t.dlqs == s.dlqs
    requires forall g: Stage :: t.flow.At(g) == s.flow.At(g).(succeeded := t.flow.At(g).succeeded)
    requires w in s.workers ==> !s.workers[w].phase.Raised?
    requires w in t.workers ==> !t.workers[w].phase.Raised?
    ensures FlowOk(c, t)
  {
    hide Owing, RecordsPresent, OnlyWorker;
    forall g: Stage
      ensures FlowAt(c, t, g)
    {
      assert FlowAt(c, s, g);
      OwingChange(c, s, t, w, g);
    }
  }

  lemma PhaseFlow(c: Config, s: State, s1: State, w: nat, p: Phase)
    requires RecordsPresent(s) && FlowOk(c, s) && w in s.workers && !s.workers[w].phase.Raised? && !p.Raised?
    requires s1.workers == s.workers && s1.logs == s.logs && s1.dlqs == s.dlqs && s1.flow == s.flow
    ensures FlowOk(c, SetPhase(s1, w, p))
  {
    hide FlowOk, RecordsPresent;
    QuietFlow(c, s, SetPhase(s1, w, p), w);
  }

  /** A failure is counted and owed. */
  lemma FailFlow(c: Config, s: State, w: nat)
    requires RecordsPresent(s) && FlowOk(c, s) && HasRecord(s, w) && !s.workers[w].phase.Raised?
    ensures FlowOk(c, Fail(c, s, w))
  {
    var t := Fail(c, s, w);
    assert OnlyWorker(s, t, w);
    assert Record(t, w) == Record(s, w);
    hide Owing, RecordsPresent, OnlyWorker;
    forall g: Stage
      ensures FlowAt(c, t, g)
    {
      assert FlowAt(c, s, g);
      OwingChange(c, s, t, w, g);
    }
  }

  lemma RequeueFlow(c: Config, s: State, w: nat)
    requires RecordsPresent(s) && FlowOk(c, s) && At(s, w, Raised) && !Exhausted(c, Record(s, w))
    ensures var h := s.workers[w].stage;
            FlowOk(c, Advance(s.(logs := s.logs.With(h, s.logs.At(h) + [Record(s, w).NextAttempt()])), w, Ready))
  {
    var h := s.workers[w].stage;
    var t := Advance(s.(logs := s.logs.With(h, s.logs.At(h) + [Record(s, w).NextAttempt()])), w, Ready);
    assert OnlyWorker(s, t, w);
    hide Owing, RecordsPresent, OnlyWorker;
    forall g: Stage
      ensures FlowAt(c, t, g)
    {
      assert FlowAt(c, s, g);
      OwingChange(c, s, t, w, g);
    }
  }

  lemma DeadLetterFlow(c: Config, s: State, w: nat)
    requires RecordsPresent(s) && FlowOk(c, s) && At(s, w, Raised) && Exhausted(c, Record(s, w))
    ensures var h := s.workers[w].stage;
            FlowOk(c, Advance(s.(dlqs := s.dlqs.With(h, s.dlqs.At(h) + [Record(s, w)])), w,
                              DeadLettered(Record(s, w).documentId)))
  {
    var h := s.workers[w].stage;
    var t := Advance(s.(dlqs := s.dlqs.With(h, s.dlqs.At(h) + [Record(s, w)])), w, DeadLettered(Record(s,
          w).documentId));
    assert OnlyWorker(s, t, w);
    hide Owing, RecordsPresent, OnlyWorker;
    forall g: Stage
      ensures FlowAt(c, t, g)
    {
      assert FlowAt(c, s, g);
      OwingChange(c, s, t, w, g);
    }
  }

  lemma CrashFlow(c: Config, s: State, step: Step)
    requires RecordsPresent(s) && FlowOk(c, s) && step.Crash? && MembershipEnabled(c, s, step)
    ensures FlowOk(c, ApplyMembership(c, s, step))
  {
    var w := step.w;
    var t := ApplyMembership(c, s, step);
    assert OnlyWorker(s, t, w);
    assert s.workers[w].phase.Raised? ==> At(s, w, Raised);
    hide Owing, RecordsPresent, OnlyWorker;
    forall g: Stage
      ensures FlowAt(c, t, g)
    {
      assert FlowAt(c, s, g);
      OwingChange(c, s, t, w, g);
    }
  }

  lemma PublishFlow(c: Config, s: State, step: Step)
    requires RecordsPresent(s) && FlowOk(c, s) && step.RelayPublish? && RelayEnabled(c, s, step)
    ensures FlowOk(c, ApplyRelay(c, s, step))
  {
    var t := ApplyRelay(c, s, step);
    var w := 0;
    assert OnlyWorker(s, t, w);
    SameOwes(c, s, t, w);
    hide Owing, RecordsPresent, OnlyWorker, Owes;
    forall g: Stage
      ensures FlowAt(c, t, g)
    {
      assert FlowAt(c, s, g);
      OwingChange(c, s, t, w, g);
    }
  }

  lemma SameOwes(c: Config, s: State, t: State, w: nat)
    requires RecordsPresent(s) && PerGrows(s.logs, t.logs) && t.workers == s.workers
    ensures forall g, dead :: Owes(c, t, w, g, dead) <==> Owes(c, s, w, g, dead)
  {
    if w in s.workers && s.workers[w].phase.Raised? {
      assert HasRecord(s, w);
      assert s.logs.At(s.workers[w].stage) <= t.logs.At(s.workers[w].stage);
    }
  }

  lemma CommitFlow(c: Config, s: State, w: nat, db: Db, acked: bool)
    requires RecordsPresent(s) && FlowOk(c, s) && HasRecord(s, w) && !s.workers[w].phase.Raised?
    ensures FlowOk(c, AfterCommit(c, s, w, db, acked))
  {
    hide Owing;
    if acked {
      QuietFlow(c, s, AfterCommit(c, s, w, db, acked), w);
    } else {
      DbFlow(c, s, db);
      FailFlow(c, s.(db := db), w);
    }
  }

  lemma DbFlow(c: Config, s: State, db: Db)
    requires RecordsPresent(s) && FlowOk(c, s)
    ensures RecordsPresent(s.(db := db)) && FlowOk(c, s.(db := db))
  {
    var t := s.(db := db);
    forall g: Stage
      ensures FlowAt(c, t, g)
    {
      assert FlowAt(c, s, g);
      assert Owing(c, t, g, false) == Owing(c, s, g, false) && Owing(c, t, g, true) == Owing(c, s, g, true);
    }
  }

  /** Workers, logs and counters untouched. */
  lemma StillFlow(c: Config, s: State, t: State)
    requires FlowOk(c, s) && t.workers == s.workers && t.logs == s.logs && t.dlqs == s.dlqs && t.flow == s.flow
    ensures FlowOk(c, t)
  {
    forall g: Stage
      ensures FlowAt(c, t, g)
    {
      assert FlowAt(c, s, g);
      assert Owing(c, t, g, false) == Owing(c, s, g, false) && Owing(c, t, g, true) == Owing(c, s, g, true);
    }
  }

  lemma GatewayFlow(c: Config, s: State, step: Step)
    requires RecordsPresent(s) && FlowOk(c, s) && IsGatewayStep(step) && GatewayEnabled(c, s, step)
    ensures FlowOk(c, ApplyGateway(c, s, step))
  {
    hide FlowOk, RecordsPresent, Owing, KeyLocked, Lockable, Bump, PutPoints, ExtractionDb, EnrichmentDb, ProjectionDb;
    var t := ApplyGateway(c, s, step);
    match step
    case SaveUpload(_, _, _) => StillFlow(c, s, t);
    case Ingest(_, _, _, _, _, _, _, _, _) => StillFlow(c, s, t);
  }

  lemma RelayFlow(c: Config, s: State, step: Step)
    requires RecordsPresent(s) && FlowOk(c, s) && IsRelayStep(step) && RelayEnabled(c, s, step)
    ensures FlowOk(c, ApplyRelay(c, s, step))
  {
    hide FlowOk, RecordsPresent, Owing, KeyLocked, Lockable, Bump, PutPoints, ExtractionDb, EnrichmentDb, ProjectionDb;
    var t := ApplyRelay(c, s, step);
    match step
    case RelayLock(_, _) => StillFlow(c, s, t);
    case RelayPublish(_) => PublishFlow(c, s, step);
    case RelayCommit(_) => StillFlow(c, s, t);
    case RelayRollback(_) => StillFlow(c, s, t);
  }

  lemma MembershipFlow(c: Config, s: State, step: Step)
    requires RecordsPresent(s) && FlowOk(c, s) && IsMembershipStep(step) && MembershipEnabled(c, s, step)
    ensures FlowOk(c, ApplyMembership(c, s, step))
  {
    hide FlowOk, RecordsPresent, Owing, KeyLocked, Lockable, Bump, PutPoints, ExtractionDb, EnrichmentDb, ProjectionDb;
    var t := ApplyMembership(c, s, step);
    match step
    case Join(w, _) => QuietFlow(c, s, t, w);
    case Crash(_) => CrashFlow(c, s, step);
    case CommitOffset(w) => StillFlow(c, s, t);
    case Deliver(w, _) => QuietFlow(c, s, t, w);
  }

  lemma ClaimingFlow(c: Config, s: State, step: Step)
    requires RecordsPresent(s) && FlowOk(c, s) && IsClaimingStep(step) && ClaimingEnabled(c, s, step)
    ensures FlowOk(c, ApplyClaiming(c, s, step))
  {
    hide FlowOk, RecordsPresent, Owing, KeyLocked, Lockable, Bump, PutPoints, ExtractionDb, EnrichmentDb, ProjectionDb;
    var t := ApplyClaiming(c, s, step);
    match step
    case InsertClaim(w) => PhaseFlow(c, s, s, w, Claimed);
    case SkipDuplicate(w) => QuietFlow(c, s, t, w);
    case LoadJob(w) => PhaseFlow(c, s, s, w, t.workers[w].phase);
    case CommitNoJob(w, acked) => CommitFlow(c, s, w, WithClaim(s, w), acked);
  }

  lemma ExtractionFlow(c: Config, s: State, step: Step)
    requires RecordsPresent(s) && FlowOk(c, s) && IsExtractionStep(step) && ExtractionEnabled(c, s, step)
    ensures FlowOk(c, ApplyExtraction(c, s, step))
  {
    hide FlowOk, RecordsPresent, Owing, KeyLocked, Lockable, Bump, PutPoints, ExtractionDb, EnrichmentDb, ProjectionDb;
    var t := ApplyExtraction(c, s, step);
    match step
    case Parse(w) => PhaseFlow(c, s, s, w, t.workers[w].phase);
    case SaveText(w) => PhaseFlow(c, s, s.(objects := t.objects), w, t.workers[w].phase);
    case CommitExtraction(w, at, acked) => CommitFlow(c, s, w, ExtractionDb(s, w, at), acked);
  }

  lemma EnrichmentFlow(c: Config, s: State, step: Step)
    requires RecordsPresent(s) && FlowOk(c, s) && IsEnrichmentStep(step) && EnrichmentEnabled(c, s, step)
    ensures FlowOk(c, ApplyEnrichment(c, s, step))
  {
    hide FlowOk, RecordsPresent, Owing, KeyLocked, Lockable, Bump, PutPoints, ExtractionDb, EnrichmentDb, ProjectionDb;
    var t := ApplyEnrichment(c, s, step);
    match step
    case ReadChunks(w) => PhaseFlow(c, s, s, w, t.workers[w].phase);
    case Embed(w, _) => PhaseFlow(c, s, s, w, t.workers[w].phase);
    case Upsert(w, _) => PhaseFlow(c, s, s.(points := t.points), w, t.workers[w].phase);
    case CommitEnrichment(w, cl, su, at, acked) => CommitFlow(c, s, w, EnrichmentDb(s, w, cl, su, at), acked);
    case CommitProjection(w, acked) => CommitFlow(c, s, w, ProjectionDb(s, w), acked);
  }

  lemma FailureFlow(c: Config, s: State, step: Step)
    requires RecordsPresent(s) && FlowOk(c, s) && IsFailureStep(step) && FailureEnabled(c, s, step)
    ensures FlowOk(c, ApplyFailure(c, s, step))
  {
    hide FlowOk, RecordsPresent, Owing, KeyLocked, Lockable, Bump, PutPoints, ExtractionDb, EnrichmentDb, ProjectionDb;
    var t := ApplyFailure(c, s, step);
    match step
    case Raise(w) => FailFlow(c, s, w);
    case Requeue(w) => RequeueFlow(c, s, w);
    case DeadLetterRecord(w) => DeadLetterFlow(c, s, w);
    case MarkFailed(w, _) => PhaseFlow(c, s, s.(db := t.db), w, Ready);
    case SkipMarkFailed(w) => PhaseFlow(c, s, s, w, Ready);
  }

  lemma StepFlow(c: Config, s: State, step: Step)
    requires RecordsPresent(s) && FlowOk(c, s) && Enabled(c, s, step)
    ensures FlowOk(c, Apply(c, s, step))
  {
    hide FlowOk, RecordsPresent;
    hide GatewayEnabled, RelayEnabled, MembershipEnabled, ClaimingEnabled, ExtractionEnabled, EnrichmentEnabled,
      FailureEnabled;
    hide ApplyGateway, ApplyRelay, ApplyMembership, ApplyClaiming, ApplyExtraction, ApplyEnrichment, ApplyFailure;
    if IsGatewayStep(step) { GatewayFlow(c, s, step); }
    else if IsRelayStep(step) { RelayFlow(c, s, step); }
    else if IsMembershipStep(step) { MembershipFlow(c, s, step); }
    else if IsClaimingStep(step) { ClaimingFlow(c, s, step); }
    else if IsExtractionStep(step) { ExtractionFlow(c, s, step); }
    else if IsEnrichmentStep(step) { EnrichmentFlow(c, s, step); }
    else { FailureFlow(c, s, step); }
  }

  lemma {:induction false} RunFlow(c: Config, steps: seq<Step>)
    requires ValidConfig(c) && Run(c, Init(), steps).Some?
    ensures FlowOk(c, Run(c, Init(), steps).value)
  {
    if steps == [] {
      assert forall g: Stage :: FlowAt(c, Init(), g);
    } else {
      hide Inv, FlowOk, RecordsPresent, Enabled, Apply;
      RunFlow(c, steps[..|steps| - 1]);
      InitInv(c);
      RunInv(c, Init(), steps[..|steps| - 1]);
      RecordsArePresent(c, Run(c, Init(), steps[..|steps| - 1]).value);
      StepFlow(c, Run(c, Init(), steps[..|steps| - 1]).value, steps[|steps| - 1]);
    }
  }

  /** The metrics and the logs agree in every reachable state.  When no publish was lost in a crash
      and no failure is waiting to be published: log length is relay publishes plus
      `retries_total`, DLQ length is `dlq_total`, and every failure is one or the other. */
  lemma FlowIsConserved(c: Config, s: State, g: Stage)
    requires ValidConfig(c) && Reachable(c, s)
    ensures var f := s.flow.At(g);
            f.failed == f.retries + f.deadLetters
    ensures var f := s.flow.At(g);
            |s.logs.At(g)| <= f.relayed + f.retries && |s.dlqs.At(g)| <= f.deadLetters
    ensures var f := s.flow.At(g);
            f.lostRetries == f.lostDeadLetters == 0 && (forall w :: w in s.workers ==> !s.workers[w].phase.Raised?) ==>
              (|s.logs.At(g)| == f.relayed + f.retries && |s.dlqs.At(g)| == f.deadLetters)
  {
    var steps :| Run(c, Init(), steps) == Some(s);
    hide Run;
    RunFlow(c, steps);
    assert FlowAt(c, s, g);
    if forall w :: w in s.workers ==> !s.workers[w].phase.Raised? {
      assert Owing(c, s, g, false) == {} && Owing(c, s, g, true) == {};
    }
  }

  /** A stage's counters, as the metrics have them. */
  function Ended(s: State, g: Stage): Tally {
    var f := s.flow.At(g);
    Tally(f.succeeded, f.failed, f.retries, f.deadLetters)
  }

  /** What one step adds to the counters of stage `g`. */
  function Added(c: Config, s: State, step: Step, g: Stage): Tally {
    if IsOutcome(step) && HasRecord(s, step.w) && s.workers[step.w].stage == g then
      if Returns(step) then SUCCESS else FailureOf(c, Record(s, step.w))
    else NOTHING
  }

  lemma CommitEnds(c: Config, s: State, w: nat, db: Db, acked: bool, g: Stage)
    requires HasRecord(s, w)
    ensures Ended(AfterCommit(c, s, w, db, acked), g) ==
              if s.workers[w].stage != g then Ended(s, g)
              else Ended(s, g).Plus(if acked then SUCCESS else FailureOf(c, Record(s, w)))
  {
  }

  lemma RelayEnds(c: Config, s: State, step: Step, g: Stage)
    requires IsRelayStep(step) && RelayEnabled(c, s, step)
    ensures Ended(ApplyRelay(c, s, step), g) == Ended(s, g)
  {
    hide Lockable, Bump;
  }

  lemma GatewayEnds(c: Config, s: State, step: Step, g: Stage)
    requires IsGatewayStep(step) && GatewayEnabled(c, s, step)
    ensures Ended(ApplyGateway(c, s, step), g) == Ended(s, g)
  {
    hide Fresh;
  }

  lemma MembershipEnds(c: Config, s: State, step: Step, g: Stage)
    requires IsMembershipStep(step) && MembershipEnabled(c, s, step)
    ensures Ended(ApplyMembership(c, s, step), g) == Ended(s, g)
  {
    hide Fresh;
  }

  lemma ClaimingEnds(c: Config, s: State, step: Step, g: Stage)
    requires IsClaimingStep(step) && ClaimingEnabled(c, s, step)
    ensures Ended(ApplyClaiming(c, s, step), g) == Ended(s, g).Plus(Added(c, s, step, g))
  {
    hide KeyLocked, AfterCommit;
    if step.CommitNoJob? {
      CommitEnds(c, s, step.w, WithClaim(s, step.w), step.acked, g);
    }
  }

  lemma ExtractionEnds(c: Config, s: State, step: Step, g: Stage)
    requires IsExtractionStep(step) && ExtractionEnabled(c, s, step)
    ensures Ended(ApplyExtraction(c, s, step), g) == Ended(s, g).Plus(Added(c, s, step, g))
  {
    hide ExtractionDb, AfterCommit;
    if step.CommitExtraction? {
      CommitEnds(c, s, step.w, ExtractionDb(s, step.w, step.at), step.acked, g);
    }
  }

  lemma EnrichmentEnds(c: Config, s: State, step: Step, g: Stage)
    requires IsEnrichmentStep(step) && EnrichmentEnabled(c, s, step)
    ensures Ended(ApplyEnrichment(c, s, step), g) == Ended(s, g).Plus(Added(c, s, step, g))
  {
    hide EnrichmentDb, ProjectionDb, AfterCommit, PutPoints;
    if step.CommitEnrichment? {
      CommitEnds(c, s, step.w, EnrichmentDb(s, step.w, step.classification, step.summary, step.at), step.acked, g);
    } else if step.CommitProjection? {
      CommitEnds(c, s, step.w, ProjectionDb(s, step.w), step.acked, g);
    }
  }

  lemma FailureEnds(c: Config, s: State, step: Step, g: Stage)
    requires IsFailureStep(step) && FailureEnabled(c, s, step)
    ensures Ended(ApplyFailure(c, s, step), g) == Ended(s, g).Plus(Added(c, s, step, g))
  {
    hide MarkFailedDb;
  }

  lemma StepEnds(c: Config, s: State, step: Step, g: Stage)
    requires Enabled(c, s, step)
    ensures Ended(Apply(c, s, step), g) == Ended(s, g).Plus(Added(c, s, step, g))
  {
    hide Ended;
    hide GatewayEnabled, RelayEnabled, MembershipEnabled, ClaimingEnabled, ExtractionEnabled, EnrichmentEnabled,
      FailureEnabled;
    hide ApplyGateway, ApplyRelay, ApplyMembership, ApplyClaiming, ApplyExtraction, ApplyEnrichment, ApplyFailure;
    if IsGatewayStep(step) { GatewayEnds(c, s, step, g); }
    else if IsRelayStep(step) { RelayEnds(c, s, step, g); }
    else if IsMembershipStep(step) { MembershipEnds(c, s, step, g); }
    else if IsClaimingStep(step) { ClaimingEnds(c, s, step, g); }
    else if IsExtractionStep(step) { ExtractionEnds(c, s, step, g); }
    else if IsEnrichmentStep(step) { EnrichmentEnds(c, s, step, g); }
    else { FailureEnds(c, s, step, g); }
  }

  /** Over any run, the counters of every stage say how many handler invocations returned, how many
      failed, and how many of those were retried or dead-lettered; one interrupted by a crash counts
      as neither. */
  lemma {:induction false} OutcomesAreCounted(c: Config, steps: seq<Step>, g: Stage)
    requires Run(c, Init(), steps).Some?
    ensures Ended(Run(c, Init(), steps).value, g) == TallyAll(c, steps).At(g)
  {
    hide Enabled, Apply;
    if steps != [] {
      var last := |steps| - 1;
      var before := Run(c, Init(), steps[..last]).value;
      OutcomesAreCounted(c, steps[..last], g);
      StepEnds(c, before, steps[last], g);
      CountingIsAdding(c, before, steps[last], TallyAll(c, steps[..last]), g);
    }
  }

  /** The counters of the worker processes, added up over all of them, are the stage's metrics. */
  lemma MetricsAddUp(c: Config, steps: seq<Step>, n: nat, g: Stage)
    requires Run(c, Init(), steps).Some?
    requires forall i :: 0 <= i < |steps| && IsOutcome(steps[i]) ==> steps[i].w < n
    ensures Ended(Run(c, Init(), steps).value, g) == TallyBelow(c, steps, n).At(g)
  {
    hide Run, TallyBelow, TallyAll, Ended, IsOutcome;
    OutcomesAreCounted(c, steps, g);
    CountersAddUp(c, steps, n);
  }

  lemma CountingIsAdding(c: Config, s: State, step: Step, p: Per<Tally>, g: Stage)
    ensures Counting(c, s, step, p).At(g) == p.At(g).Plus(Added(c, s, step, g))
  {
    hide FailureOf, Record;
  }

  // ----- how often a row is published ------------------------------------------------------

  /** Copies of the event that came from the relay: a requeue always has a higher attempt. */
  function Copies(log: Log, e: Id): nat {
    if log == [] then 0
    else Copies(log[..|log| - 1], e) + (if log[|log| - 1].eventId == e && log[|log| - 1].attempt == 0 then 1 else 0)
  }

  function RollbacksOf(rollbacks: map<Id, nat>, e: Id): nat {
    if e in rollbacks then rollbacks[e] else 0
  }

  /** The row is marked published, or its copy is out and the mark not yet committed. */
  predicate Marked(s: State, e: Id) {
    e in s.db.published || Termination.SentInBatch(s.relays, e)
  }

  predicate CopiesAt(s: State, e: Id)
    requires e in s.db.outbox
  {
    var n := Copies(s.logs.At(s.db.outbox[e].payload.eventType), e);
    var mark := if Marked(s, e) then 1 else 0;
    mark <= n <= RollbacksOf(s.rollbacks, e) + mark
  }

  predicate CopiesOk(s: State) {
    forall e :: e in s.db.outbox ==> CopiesAt(s, e)
  }

  lemma CopiesAppend(log: Log, m: Envelope, e: Id)
    ensures Copies(log + [m], e) == Copies(log, e) + (if m.eventId == e && m.attempt == 0 then 1 else 0)
  {
    assert (log + [m])[..|log|] == log;
  }

  lemma {:induction false} NoCopies(c: Config, outbox: Outbox, g: Stage, log: Log, e: Id)
    requires LogOk(c, outbox, g, log) && e !in outbox
    ensures Copies(log, e) == 0
  {
    if log != [] {
      assert MessageOk(outbox, g, log[|log| - 1]);
      assert LogOk(c, outbox, g, log[..|log| - 1]);
      NoCopies(c, outbox, g, log[..|log| - 1], e);
    }
  }

  /** Nothing the count depends on changed, but for new rows. */
  lemma StillCopies(c: Config, s: State, t: State)
    requires CopiesOk(s) && MessagesOk(c, s.db.outbox, s.logs, s.dlqs)
    requires RelayInv(s.db, s.logs, s.relays)
    requires forall e :: e in s.db.outbox ==> e in t.db.outbox && t.db.outbox[e] == s.db.outbox[e]
    requires t.logs == s.logs && t.relays == s.relays && t.db.published == s.db.published && t.rollbacks == s.rollbacks
    ensures CopiesOk(t)
  {
    forall e | e in t.db.outbox
      ensures CopiesAt(t, e)
    {
      if e in s.db.outbox {
        assert CopiesAt(s, e);
      } else {
        var g := t.db.outbox[e].payload.eventType;
        assert LogOk(c, s.db.outbox, g, s.logs.At(g));
        NoCopies(c, s.db.outbox, g, s.logs.At(g), e);
        UnmarkedUnknown(s, e);
      }
    }
  }

  lemma UnmarkedUnknown(s: State, e: Id)
    requires RelayInv(s.db, s.logs, s.relays) && e !in s.db.outbox
    ensures !Marked(s, e)
  {
    forall r, i | r in s.relays && 0 <= i < s.relays[r].sent && i < |s.relays[r].ids|
      ensures s.relays[r].ids[i] != e
    {
      assert BatchOk(s.db.outbox, s.db.published, s.logs, s.relays[r]);
    }
  }

  lemma PublishCopies(s: State, step: Step)
    requires CopiesOk(s) && RelayInv(s.db, s.logs, s.relays) && step.RelayPublish?
    requires forall e :: e in s.db.outbox ==>
               (s.db.outbox[e].payload.eventId == e && s.db.outbox[e].payload.attempt == 0
                && s.db.outbox[e].topic.stage == s.db.outbox[e].payload.eventType)
    requires step.r in s.relays && s.relays[step.r].sent < |s.relays[step.r].ids|
             && s.relays[step.r].ids[s.relays[step.r].sent] in s.db.outbox
    ensures var b := s.relays[step.r];
            var row := s.db.outbox[b.ids[b.sent]];
            var g := row.topic.stage;
            CopiesOk(s.(logs := s.logs.With(g, s.logs.At(g) + [row.payload]),
                        relays := s.relays[step.r := b.(sent := b.sent + 1)]))
  {
    var b := s.relays[step.r];
    var f := b.ids[b.sent];
    var g := s.db.outbox[f].topic.stage;
    var relays := s.relays[step.r := b.(sent := b.sent + 1)];
    var t := s.(logs := s.logs.With(g, s.logs.At(g) + [s.db.outbox[f].payload]), relays := relays);
    Termination.PublishUnsent(s, step.r);
    hide RelayInv;
    forall e | e in t.db.outbox
      ensures CopiesAt(t, e)
    {
      assert CopiesAt(s, e);
      CopiesAppend(s.logs.At(g), s.db.outbox[f].payload, e);
      assert e in s.db.outbox && (e in Termination.Unsent(s.db.outbox, s.db.published, s.relays) <==> !Marked(s, e));
      assert e in Termination.Unsent(s.db.outbox, s.db.published, relays) <==> !Marked(t, e);
    }
  }

  lemma CommitCopies(s: State, r: nat)
    requires CopiesOk(s) && r in s.relays && s.relays[r].sent == |s.relays[r].ids|
    ensures CopiesOk(s.(db := s.db.(published := s.db.published + (set e | e in s.relays[r].ids)),
                        relays := s.relays - {r}))
  {
    var t := s.(db := s.db.(published := s.db.published + (set e | e in s.relays[r].ids)), relays := s.relays - {r});
    Termination.CommitUnsent(s, r);
    forall e | e in t.db.outbox
      ensures CopiesAt(t, e)
    {
      assert CopiesAt(s, e);
      assert e in Termination.Unsent(s.db.outbox, s.db.published, s.relays) <==> !Marked(s, e);
      assert e in Termination.Unsent(t.db.outbox, t.db.published, t.relays) <==> !Marked(t, e);
    }
  }

  lemma RollbackCopies(s: State, r: nat)
    requires CopiesOk(s) && r in s.relays
    ensures CopiesOk(s.(rollbacks := Bump(s.rollbacks, s.relays[r].ids), relays := s.relays - {r}))
  {
    var ids := s.relays[r].ids;
    var t := s.(rollbacks := Bump(s.rollbacks, ids), relays := s.relays - {r});
    forall e | e in t.db.outbox
      ensures CopiesAt(t, e)
    {
      assert CopiesAt(s, e);
      BumpCounts(s.rollbacks, ids, e);
      RollbackMarks(s, r, e);
    }
  }

  lemma BumpCounts(rollbacks: map<Id, nat>, ids: seq<Id>, e: Id)
    ensures RollbacksOf(Bump(rollbacks, ids), e) == RollbacksOf(rollbacks, e) + (if e in ids then 1 else 0)
  {
  }

  lemma RollbackMarks(s: State, r: nat, e: Id)
    requires r in s.relays
    ensures Termination.SentInBatch(s.relays - {r}, e) ==> Termination.SentInBatch(s.relays, e)
    ensures Termination.SentInBatch(s.relays, e) && e !in s.relays[r].ids ==> Termination.SentInBatch(s.relays - {r}, e)
  {
    var relays := s.relays - {r};
    if Termination.SentInBatch(relays, e) {
      var q, i :| q in relays && 0 <= i < relays[q].sent && i < |relays[q].ids| && relays[q].ids[i] == e;
      assert q in s.relays && s.relays[q] == relays[q];
    }
    if Termination.SentInBatch(s.relays, e) && e !in s.relays[r].ids {
      var q, i :| q in s.relays && 0 <= i < s.relays[q].sent && i < |s.relays[q].ids| && s.relays[q].ids[i] == e;
      assert q in relays && relays[q] == s.relays[q];
    }
  }

  lemma RequeueCopies(s: State, g: Stage, m: Envelope)
    requires CopiesOk(s) && 0 < m.attempt
    ensures CopiesOk(s.(logs := s.logs.With(g, s.logs.At(g) + [m])))
  {
    var t := s.(logs := s.logs.With(g, s.logs.At(g) + [m]));
    forall e | e in t.db.outbox
      ensures CopiesAt(t, e)
    {
      assert CopiesAt(s, e);
      CopiesAppend(s.logs.At(g), m, e);
    }
  }

  lemma RowFacts(c: Config, s: State)
    requires Inv(c, s)
    ensures forall e :: e in s.db.outbox ==>
               (s.db.outbox[e].payload.eventId == e && s.db.outbox[e].payload.attempt == 0
                && s.db.outbox[e].topic.stage == s.db.outbox[e].payload.eventType)
  {
    hide Inv, MessageOk;
    forall e | e in s.db.outbox
      ensures s.db.outbox[e].payload.eventId == e && s.db.outbox[e].payload.attempt == 0
      ensures s.db.outbox[e].topic.stage == s.db.outbox[e].payload.eventType
    {
      RowMessageIn(c, s, e);
    }
  }

  lemma BusFacts(c: Config, s: State)
    requires Inv(c, s)
    ensures MessagesOk(c, s.db.outbox, s.logs, s.dlqs) && RelayInv(s.db, s.logs, s.relays)
  {
    hide StoresInv, EventsInv, ResultsInv, VectorsInv, RelayInv, WorkersInv, MessagesOk, OffsetsOk, PositionsOk;
  }

  lemma RelayStepCopies(c: Config, s: State, step: Step)
    requires Inv(c, s) && CopiesOk(s) && IsRelayStep(step) && RelayEnabled(c, s, step)
    ensures CopiesOk(ApplyRelay(c, s, step))
  {
    hide Inv, RelayInv, Lockable, CopiesOk, MessagesOk, Bump;
    RowFacts(c, s);
    BusFacts(c, s);
    match step
    case RelayLock(r, ids) => LockCopies(s, r, ids);
    case RelayPublish(r) =>
      PublishCopies(s, step);
      hide CopiesOk;
      SameCopies(s.(logs := ApplyRelay(c, s, step).logs, relays := ApplyRelay(c, s, step).relays), ApplyRelay(c, s,
            step));
    case RelayCommit(r) => CommitCopies(s, r);
    case RelayRollback(r) => RollbackCopies(s, r);
  }

  lemma LockCopies(s: State, r: nat, ids: seq<Id>)
    requires CopiesOk(s) && r !in s.relays
    ensures CopiesOk(s.(relays := s.relays[r := Batch(ids, 0)]))
  {
    var t := s.(relays := s.relays[r := Batch(ids, 0)]);
    Termination.LockUnsent(s, r, ids);
    forall e | e in t.db.outbox
      ensures CopiesAt(t, e)
    {
      assert CopiesAt(s, e);
      assert e in Termination.Unsent(s.db.outbox, s.db.published, s.relays) <==> !Marked(s, e);
      assert e in Termination.Unsent(t.db.outbox, t.db.published, t.relays) <==> !Marked(t, e);
    }
  }

  lemma SameCopies(s: State, t: State)
    requires CopiesOk(s) && t.db == s.db && t.logs == s.logs && t.relays == s.relays && t.rollbacks == s.rollbacks
    ensures CopiesOk(t)
  {
    forall e | e in t.db.outbox
      ensures CopiesAt(t, e)
    {
      assert CopiesAt(s, e);
    }
  }

  lemma FailureCopies(c: Config, s: State, step: Step)
    requires CopiesOk(s) && IsFailureStep(step) && FailureEnabled(c, s, step)
    requires MessagesOk(c, s.db.outbox, s.logs, s.dlqs) && RelayInv(s.db, s.logs, s.relays)
    ensures CopiesOk(ApplyFailure(c, s, step))
  {
    hide CopiesOk, MessagesOk, RelayInv;
    if step.Requeue? {
      var g := s.workers[step.w].stage;
      var m := Record(s, step.w).NextAttempt();
      RequeueCopies(s, g, m);
      SameCopies(s.(logs := s.logs.With(g, s.logs.At(g) + [m])), ApplyFailure(c, s, step));
    } else {
      StillCopies(c, s, ApplyFailure(c, s, step));
    }
  }

  lemma RowsStay(s: State, t: State)
    requires Grows(s, t)
    ensures forall e :: e in s.db.outbox ==> e in t.db.outbox && t.db.outbox[e] == s.db.outbox[e]
  {
    hide PerGrows, JobsKeepIdentity, ObjectsGrow, NewJobsAreFresh;
  }

  lemma StepCopies(c: Config, s: State, step: Step)
    requires Inv(c, s) && CopiesOk(s) && Enabled(c, s, step)
    ensures CopiesOk(Apply(c, s, step))
  {
    hide Inv, CopiesOk, MessagesOk, RelayInv, Grows;
    hide GatewayEnabled, RelayEnabled, MembershipEnabled, ClaimingEnabled, ExtractionEnabled, EnrichmentEnabled,
      FailureEnabled;
    hide ApplyGateway, ApplyRelay, ApplyMembership, ApplyClaiming, ApplyExtraction, ApplyEnrichment, ApplyFailure;
    BusFacts(c, s);
    StepGrows(c, s, step);
    RowsStay(s, Apply(c, s, step));
    if IsRelayStep(step) {
      RelayStepCopies(c, s, step);
    } else if IsFailureStep(step) {
      FailureCopies(c, s, step);
    } else {
      StillBus(c, s, step);
      StillCopies(c, s, Apply(c, s, step));
    }
  }

  predicate SameBus(s: State, t: State) {
    t.logs == s.logs && t.relays == s.relays && t.db.published == s.db.published && t.rollbacks == s.rollbacks
  }

  lemma CommitBus(c: Config, s: State, w: nat, db: Db, acked: bool)
    requires HasRecord(s, w) && db.published == s.db.published
    ensures SameBus(s, AfterCommit(c, s, w, db, acked))
  {
  }

  lemma WorkPublishesNothing(s: State, w: nat, classification: string, summary: string, at: int)
    requires HasRecord(s, w) && Record(s, w).payload.documentId in s.db.jobs
    ensures s.workers[w].phase.TextSaved? && Record(s, w).payload.DocumentIngested? ==>
              ExtractionDb(s, w, at).published == s.db.published
    ensures s.workers[w].phase.Upserting? ==>
              EnrichmentDb(s, w, classification, summary, at).published == s.db.published
  {
  }

  lemma ExtractionBus(c: Config, s: State, step: Step)
    requires IsExtractionStep(step) && ExtractionEnabled(c, s, step)
    ensures SameBus(s, ApplyExtraction(c, s, step))
  {
    hide ExtractionDb;
    if step.CommitExtraction? {
      WorkPublishesNothing(s, step.w, "", "", step.at);
      CommitBus(c, s, step.w, ExtractionDb(s, step.w, step.at), step.acked);
    }
  }

  lemma EnrichmentBus(c: Config, s: State, step: Step)
    requires IsEnrichmentStep(step) && EnrichmentEnabled(c, s, step)
    ensures SameBus(s, ApplyEnrichment(c, s, step))
  {
    hide PutPoints, EnrichmentDb;
    if step.CommitEnrichment? {
      WorkPublishesNothing(s, step.w, step.classification, step.summary, step.at);
      CommitBus(c, s, step.w, EnrichmentDb(s, step.w, step.classification, step.summary, step.at), step.acked);
    }
  }

  lemma GatewayBus(c: Config, s: State, step: Step)
    requires IsGatewayStep(step) && GatewayEnabled(c, s, step)
    ensures SameBus(s, ApplyGateway(c, s, step))
  {
    hide Fresh;
  }

  lemma ClaimingBus(c: Config, s: State, step: Step)
    requires IsClaimingStep(step) && ClaimingEnabled(c, s, step)
    ensures SameBus(s, ApplyClaiming(c, s, step))
  {
    hide KeyLocked;
    if step.CommitNoJob? {
      CommitBus(c, s, step.w, WithClaim(s, step.w), step.acked);
    }
  }

  /** Only the relay and the requeue touch what the count depends on. */
  lemma StillBus(c: Config, s: State, step: Step)
    requires Enabled(c, s, step) && !IsRelayStep(step) && !IsFailureStep(step)
    ensures SameBus(s, Apply(c, s, step))
  {
    hide GatewayEnabled, ClaimingEnabled, ExtractionEnabled, EnrichmentEnabled;
    hide ApplyGateway, ApplyClaiming, ApplyExtraction, ApplyEnrichment;
    if IsGatewayStep(step) {
      GatewayBus(c, s, step);
    } else if IsClaimingStep(step) {
      ClaimingBus(c, s, step);
    } else if IsExtractionStep(step) {
      ExtractionBus(c, s, step);
    } else if IsEnrichmentStep(step) {
      EnrichmentBus(c, s, step);
    }
  }

  lemma {:induction false} RunCopies(c: Config, steps: seq<Step>)
    requires ValidConfig(c) && Run(c, Init(), steps).Some?
    ensures CopiesOk(Run(c, Init(), steps).value)
  {
    hide Inv, Enabled, Apply;
    if steps != [] {
      hide CopiesOk;
      RunCopies(c, steps[..|steps| - 1]);
      InitInv(c);
      RunInv(c, Init(), steps[..|steps| - 1]);
      StepCopies(c, Run(c, Init(), steps[..|steps| - 1]).value, steps[|steps| - 1]);
    }
  }

  /** However many relay replicas run and roll back: a row is published at most once more than the
      number of rolled-back batches it was in, and at least once when it is marked published. */
  lemma PublishCountIsBounded(c: Config, s: State, e: Id)
    requires ValidConfig(c) && Reachable(c, s) && e in s.db.outbox
    ensures var n := Copies(s.logs.At(s.db.outbox[e].payload.eventType), e);
            && n <= RollbacksOf(s.rollbacks, e) + 1
            && (e in s.db.published ==> 1 <= n)
            && (e in s.db.published && e !in s.rollbacks ==> n == 1)
  {
    var steps :| Run(c, Init(), steps) == Some(s);
    hide Run;
    RunCopies(c, steps);
    assert CopiesAt(s, e);
  }
}
