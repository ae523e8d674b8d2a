/** Crash-free runs get somewhere: every step that is not an idle offset commit lowers a
    lexicographic rank, some such step is possible until all is settled, and so a settled state is
    always within reach. */
module Settling {
  import opened Topics
  import opened Events
  import opened Model
  import opened Invariant
  import opened WorkSteps
  import opened History
  import opened Termination
  import opened Sums
  import Guarantees

  // ----- the rank --------------------------------------------------------------------------

  function PhaseRank(p: Phase): nat {
    match p
    case DeadLettered(_) => 11
    case Ready => 10
    case Opened => 9
    case Claimed => 8
    case NoJob => 7
    case Loaded => 7
    case Parsed(_) => 6
    case Chunked(_) => 6
    case TextSaved(_) => 5
    case Upserting(_, _, _) => 5
    case Raised => 1
  }

  function Remaining(p: Phase): nat {
    match p
    case Upserting(texts, _, done) => if done <= |texts| then |texts| - done else 0
    case _ => 0
  }

  function WorkerRank(committed: Per<nat>, k: Worker): nat {
    PhaseRank(k.phase) + (if committed.At(k.stage) < k.pos then 1 else 0)
  }

  function Ranks(committed: Per<nat>, workers: Workers): map<nat, nat> {
    map w | w in workers :: WorkerRank(committed, workers[w])
  }

  function Remainders(workers: Workers): map<nat, nat> {
    map w | w in workers :: Remaining(workers[w].phase)
  }

  ghost function Overhead(s: State): nat {
    Total(Ranks(s.committed, s.workers)) + 2 * |Unlocked(s.db.outbox, s.db.published, s.relays)| + |s.relays|
  }

  ghost function Left(s: State): nat {
    Total(Remainders(s.workers))
  }

  /** `t` is strictly closer to rest than `s`. */
  ghost predicate Closer(c: Config, crew: Per<nat>, s: State, t: State) {
    || Work(c, t, crew) < Work(c, s, crew)
    || (Work(c, t, crew) == Work(c, s, crew)
        && (Overhead(t) < Overhead(s) || (Overhead(t) == Overhead(s) && Left(t) < Left(s))))
  }

  /** An offset commit that commits nothing new. */
  predicate Idle(s: State, step: Step) {
    step.CommitOffset? && step.w in s.workers && s.workers[step.w].pos <= s.committed.At(s.workers[step.w].stage)
  }

  // ----- cardinalities ---------------------------------------------------------------------

  lemma SmallerSet(a: set<Id>, b: set<Id>, e: Id)
    requires a <= b && e in b && e !in a
    ensures |a| < |b|
  {
    Subset(a, b - {e});
  }

  lemma {:induction false} Subset(a: set<Id>, b: set<Id>)
    requires a <= b
    ensures |a| <= |b|
    decreases a
  {
    if a != {} {
      var x :| x in a;
      Subset(a - {x}, b - {x});
    }
  }

  // ----- one worker changes ----------------------------------------------------------------

  /** Only worker `w` changed, and not its place. */
  predicate SamePlace(s: State, t: State, w: nat) {
    && w in s.workers && w in t.workers && t.workers == s.workers[w := t.workers[w]]
    && t.workers[w].stage == s.workers[w].stage && t.workers[w].pos == s.workers[w].pos && t.committed == s.committed
  }

  lemma RanksFall(s: State, t: State, w: nat)
    requires SamePlace(s, t, w)
    ensures PhaseRank(t.workers[w].phase) <= PhaseRank(s.workers[w].phase) ==>
              Total(Ranks(t.committed, t.workers)) + PhaseRank(s.workers[w].phase) - PhaseRank(t.workers[w].phase)
                <= Total(Ranks(s.committed, s.workers))
    ensures PhaseRank(t.workers[w].phase) == PhaseRank(s.workers[w].phase) ==>
              Ranks(t.committed, t.workers) == Ranks(s.committed, s.workers)
    ensures Remaining(t.workers[w].phase) < Remaining(s.workers[w].phase) ==> Left(t) < Left(s)
  {
    hide Total, PhaseRank, Remaining;
    var p, q := s.workers[w].phase, t.workers[w].phase;
    if PhaseRank(q) <= PhaseRank(p) {
      TotalFalls(Ranks(s.committed, s.workers), Ranks(t.committed, t.workers), w, PhaseRank(p) - PhaseRank(q));
    }
    if Remaining(q) < Remaining(p) {
      TotalFalls(Remainders(s.workers), Remainders(t.workers), w, 1);
    }
  }

  /** Only worker `w` changed phase; nothing else the rank looks at did, but for at most `extra`
      new rows to lock. */
  lemma PhaseRanks(s: State, t: State, w: nat, extra: nat)
    requires SamePlace(s, t, w) && t.relays == s.relays
    requires |Unlocked(t.db.outbox, t.db.published, t.relays)|
          <= |Unlocked(s.db.outbox, s.db.published, s.relays)| + extra
    ensures PhaseRank(t.workers[w].phase) + 2 * extra < PhaseRank(s.workers[w].phase) ==> Overhead(t) < Overhead(s)
    ensures (PhaseRank(t.workers[w].phase) == PhaseRank(s.workers[w].phase)
             && Remaining(t.workers[w].phase) < Remaining(s.workers[w].phase)
             && Unlocked(t.db.outbox, t.db.published, t.relays) == Unlocked(s.db.outbox, s.db.published, s.relays)) ==>
              (Overhead(t) == Overhead(s) && Left(t) < Left(s))
  {
    hide Unlocked, Total, PhaseRank, Remaining, Ranks;
    RanksFall(s, t, w);
  }

  /** An offset further on is committed: one lag less, and no other consumer lags more. */
  lemma OffsetRanks(s: State, w: nat)
    requires w in s.workers && s.committed.At(s.workers[w].stage) < s.workers[w].pos
    ensures Overhead(s.(committed := s.committed.With(s.workers[w].stage, s.workers[w].pos))) < Overhead(s)
  {
    hide Unlocked, Total, PhaseRank;
    var committed := s.committed.With(s.workers[w].stage, s.workers[w].pos);
    TotalFalls(Ranks(s.committed, s.workers), Ranks(committed, s.workers), w, 1);
  }

  lemma LockRanks(c: Config, s: State, r: nat, ids: seq<Id>)
    requires r !in s.relays && Lockable(c, s, ids)
    ensures Overhead(s.(relays := s.relays[r := Batch(ids, 0)])) < Overhead(s)
  {
    var relays := s.relays[r := Batch(ids, 0)];
    var before := Unlocked(s.db.outbox, s.db.published, s.relays);
    var after := Unlocked(s.db.outbox, s.db.published, relays);
    assert !InBatch(s.relays, ids[0]);
    assert ids[0] in before;
    assert ids[0] !in after by {
      assert ids[0] in relays[r].ids;
    }
    forall e | InBatch(s.relays, e)
      ensures InBatch(relays, e)
    {
      var q :| q in s.relays && e in s.relays[q].ids;
      assert q in relays && relays[q] == s.relays[q];
    }
    SmallerSet(after, before, ids[0]);
    assert |relays| == |s.relays| + 1;
  }

  lemma MarkRanks(s: State, r: nat)
    requires r in s.relays
    ensures Overhead(s.(db := s.db.(published := s.db.published + (set e | e in s.relays[r].ids)),
                        relays := s.relays - {r}))
          < Overhead(s)
  {
    var relays := s.relays - {r};
    var published := s.db.published + (set e | e in s.relays[r].ids);
    var before := Unlocked(s.db.outbox, s.db.published, s.relays);
    var after := Unlocked(s.db.outbox, published, relays);
    forall e | InBatch(s.relays, e) && e !in s.relays[r].ids
      ensures InBatch(relays, e)
    {
      var q :| q in s.relays && e in s.relays[q].ids;
      assert q in relays && relays[q] == s.relays[q];
    }
    Subset(after, before);
    assert |relays| == |s.relays| - 1 by {
      assert s.relays == relays[r := s.relays[r]];
    }
  }

  lemma EmitUnlocks(outbox: Outbox, outbox': Outbox, published: set<Id>, relays: map<nat, Batch>, f: Id)
    requires f in outbox' && outbox' == outbox[f := outbox'[f]]
    ensures |Unlocked(outbox', published, relays)| <= |Unlocked(outbox, published, relays)| + 1
  {
    var before := Unlocked(outbox, published, relays);
    Subset(Unlocked(outbox', published, relays), before + {f});
    Subset(before, before + {f});
    assert |before + {f}| <= |before| + 1;
  }

  // ----- every calm step gets closer -------------------------------------------------------

  /** A phase change that leaves rows and relays alone. */
  lemma LowerPhase(c: Config, s: State, s1: State, crew: Per<nat>, w: nat, p: Phase)
    requires Staffed(s, crew) && w in s.workers && s1.workers == s.workers && s1.committed == s.committed
    requires s1.relays == s.relays
    requires s1.logs == s.logs && s1.db.outbox == s.db.outbox && s1.db.published == s.db.published
    requires s1.db.ledger == s.db.ledger
    requires PhaseRank(p) < PhaseRank(s.workers[w].phase)
          || (PhaseRank(p) == PhaseRank(s.workers[w].phase) && Remaining(p) < Remaining(s.workers[w].phase))
    ensures Closer(c, crew, s, SetPhase(s1, w, p))
  {
    hide Work, Staffed, Overhead, Left, Unlocked, PhaseRank, Remaining;
    PhaseWork(c, s, s1, crew, w, p);
    PhaseRanks(s, SetPhase(s1, w, p), w, 0);
  }

  /** A commit whose acknowledgement is lost: the row it emitted is paid for by the phases skipped. */
  lemma LostAckRanks(c: Config, s: State, w: nat, db: Db, emits: bool)
    requires HasRecord(s, w) && CommitShape(s, w, db, emits) && 3 < PhaseRank(s.workers[w].phase)
    ensures Overhead(AfterCommit(c, s, w, db, false)) < Overhead(s)
  {
    hide Unlocked, Overhead;
    if emits {
      EmitUnlocks(s.db.outbox, db.outbox, s.db.published, s.relays, s.workers[w].draw);
    }
    PhaseRanks(s, AfterCommit(c, s, w, db, false), w, 1);
  }

  lemma CommitCloser(c: Config, s: State, crew: Per<nat>, w: nat, db: Db, acked: bool, emits: bool)
    requires Inv(c, s) && Staffed(s, crew) && HasRecord(s, w) && HoldsClaim(s.workers[w].phase)
    requires CommitShape(s, w, db, emits)
    ensures Closer(c, crew, s, AfterCommit(c, s, w, db, acked))
  {
    hide Inv, Work, Staffed, Overhead, CommitShape;
    HandlerBurns(c, s, crew, w, db, acked, emits);
    if !acked {
      LostAckRanks(c, s, w, db, emits);
    }
  }

  lemma RelayCloser(c: Config, s: State, crew: Per<nat>, step: Step)
    requires Inv(c, s) && Staffed(s, crew) && IsRelayStep(step) && Calm(step) && RelayEnabled(c, s, step)
    ensures Closer(c, crew, s, ApplyRelay(c, s, step))
  {
    hide Inv, Work, Staffed, Overhead, Lockable;
    RelayBurns(c, s, crew, step);
    match step
    case RelayLock(r, ids) => LockRanks(c, s, r, ids);
    case RelayPublish(r) =>
    case RelayCommit(r) => MarkRanks(s, r);
  }

  lemma MembershipCloser(c: Config, s: State, crew: Per<nat>, step: Step)
    requires Inv(c, s) && Staffed(s, crew) && IsMembershipStep(step) && Calm(step) && MembershipEnabled(c, s, step)
    requires !Idle(s, step)
    ensures Closer(c, crew, s, ApplyMembership(c, s, step))
  {
    hide Inv, Work, Overhead, Unlocked;
    SameWork(c, s, ApplyMembership(c, s, step), crew);
    match step
    case CommitOffset(w) => OffsetRanks(s, w);
    case Deliver(w, draw) =>
      hide Fresh;
      PhaseRanks(s, ApplyMembership(c, s, step), w, 0);
  }

  lemma ClaimingCloser(c: Config, s: State, crew: Per<nat>, step: Step)
    requires Inv(c, s) && Staffed(s, crew) && IsClaimingStep(step) && ClaimingEnabled(c, s, step)
    ensures Closer(c, crew, s, ApplyClaiming(c, s, step))
  {
    hide Inv, Work, Staffed, Overhead, Left, KeyLocked, Closer;
    match step
    case InsertClaim(w) => LowerPhase(c, s, s, crew, w, Claimed);
    case SkipDuplicate(w) =>
      AttemptBelow(c, s, w);
      SucceedBurns(c, s, crew, w);
      LessWork(c, crew, s, Succeed(s, w));
    case LoadJob(w) => LowerPhase(c, s, s, crew, w,
                                  if Record(s, w).payload.documentId in s.db.jobs then Loaded else NoJob);
    case CommitNoJob(w, acked) => CommitCloser(c, s, crew, w, WithClaim(s, w), acked, false);
  }

  lemma LessWork(c: Config, crew: Per<nat>, s: State, t: State)
    requires Work(c, t, crew) + 1 <= Work(c, s, crew)
    ensures Closer(c, crew, s, t)
  {
    hide Work, Overhead, Left;
  }

  lemma ParseCloser(c: Config, s: State, crew: Per<nat>, w: nat)
    requires Inv(c, s) && Staffed(s, crew) && ExtractionEnabled(c, s, Parse(w))
    ensures Closer(c, crew, s, ApplyExtraction(c, s, Parse(w)))
  {
    hide Inv, Work, Staffed, Overhead, Left, Closer;
    LowerPhase(c, s, s, crew, w, ApplyExtraction(c, s, Parse(w)).workers[w].phase);
  }

  lemma ExtractionCloser(c: Config, s: State, crew: Per<nat>, step: Step)
    requires Inv(c, s) && Staffed(s, crew) && IsExtractionStep(step) && ExtractionEnabled(c, s, step)
    ensures Closer(c, crew, s, ApplyExtraction(c, s, step))
  {
    hide Inv, Work, Staffed, Overhead, Left, Closer, ExtractionDb, CommitShape, ExtractionOf, AfterCommit, TextUri;
    match step
    case Parse(w) => ParseCloser(c, s, crew, w);
    case SaveText(w) =>
      LowerPhase(c, s, s.(objects := ApplyExtraction(c, s, step).objects), crew, w,
            TextSaved(s.workers[w].phase.extraction));
    case CommitExtraction(w, at, acked) =>
      ParsedFacts(c, s, w);
      ExtractionShape(s, w, at);
      CommitCloser(c, s, crew, w, ExtractionDb(s, w, at), acked, true);
  }

  lemma EnrichmentCloser(c: Config, s: State, crew: Per<nat>, step: Step)
    requires Inv(c, s) && Staffed(s, crew) && IsEnrichmentStep(step) && EnrichmentEnabled(c, s, step)
    ensures Closer(c, crew, s, ApplyEnrichment(c, s, step))
  {
    hide Inv, Work, Staffed, Overhead, Left, Closer, PutPoints, ChunksOf, Covers, EnrichmentDb, ProjectionDb,
      CommitShape;
    match step
    case ReadChunks(w) => LowerPhase(c, s, s, crew, w, ApplyEnrichment(c, s, step).workers[w].phase);
    case Embed(w, vectors) => LowerPhase(c, s, s, crew, w, Upserting(s.workers[w].phase.chunks, vectors, 0));
    case Upsert(w, upto) =>
      LowerPhase(c, s, s.(points := ApplyEnrichment(c, s, step).points), crew, w, s.workers[w].phase.(done := upto));
    case CommitEnrichment(w, classification, summary, at, acked) =>
      UpsertingFacts(c, s, w);
      EnrichmentShape(s, w, classification, summary, at);
      CommitCloser(c, s, crew, w, EnrichmentDb(s, w, classification, summary, at), acked, true);
    case CommitProjection(w, acked) =>
      ProjectionShape(s, w);
      CommitCloser(c, s, crew, w, ProjectionDb(s, w), acked, false);
  }

  lemma FailureCloser(c: Config, s: State, crew: Per<nat>, step: Step)
    requires Inv(c, s) && Staffed(s, crew) && IsFailureStep(step) && FailureEnabled(c, s, step)
    ensures Closer(c, crew, s, ApplyFailure(c, s, step))
  {
    hide Inv, Work, Staffed, Overhead, Left, Closer, MarkFailedDb;
    match step
    case Raise(w) => LowerPhase(c, s, s.(flow := ApplyFailure(c, s, step).flow), crew, w, Raised);
    case Requeue(w) =>
      FailureBurns(c, s, crew, step);
      LessWork(c, crew, s, ApplyFailure(c, s, step));
    case DeadLetterRecord(w) =>
      FailureBurns(c, s, crew, step);
      LessWork(c, crew, s, ApplyFailure(c, s, step));
    case MarkFailed(w, message) =>
      SameRows(s.db, s.workers[w].phase.documentId, message);
      LowerPhase(c, s, s.(db := MarkFailedDb(s.db, s.workers[w].phase.documentId, message)), crew, w, Ready);
    case SkipMarkFailed(w) => LowerPhase(c, s, s, crew, w, Ready);
  }

  lemma SameRows(db: Db, d: Id, message: string)
    ensures var after := MarkFailedDb(db, d, message);
            after.outbox == db.outbox && after.published == db.published && after.ledger == db.ledger
  {
  }

  /** Every calm step except an idle offset commit is strictly closer to rest: no crash-free run
      goes on for ever. */
  lemma CalmStepsGetCloser(c: Config, s: State, crew: Per<nat>, step: Step)
    requires Inv(c, s) && Staffed(s, crew) && Calm(step) && Enabled(c, s, step) && !Idle(s, step)
    ensures Staffed(Apply(c, s, step), crew) && Closer(c, crew, s, Apply(c, s, step))
  {
    hide Inv, Work, Staffed, Closer;
    hide RelayEnabled, MembershipEnabled, ClaimingEnabled, ExtractionEnabled, EnrichmentEnabled, FailureEnabled;
    hide ApplyGateway, ApplyRelay, ApplyMembership, ApplyClaiming, ApplyExtraction, ApplyEnrichment, ApplyFailure;
    CalmStepBurns(c, s, crew, step);
    if IsRelayStep(step) { RelayCloser(c, s, crew, step); }
    else if IsMembershipStep(step) { MembershipCloser(c, s, crew, step); }
    else if IsClaimingStep(step) { ClaimingCloser(c, s, crew, step); }
    else if IsExtractionStep(step) { ExtractionCloser(c, s, crew, step); }
    else if IsEnrichmentStep(step) { EnrichmentCloser(c, s, crew, step); }
    else { FailureCloser(c, s, crew, step); }
  }

  // ----- some step is always possible ------------------------------------------------------

  /** Nothing is left to do: consumers idle at the end of their logs, the offsets committed, no batch
      open, no row unpublished. */
  predicate Quiet(s: State) {
    && (forall w :: w in s.workers ==> AtEnd(s, w)) && (forall g: Stage :: s.committed.At(g) == |s.logs.At(g)|)
    && s.relays == map[] && (forall e :: e in s.db.outbox ==> e in s.db.published)
  }

  predicate AtEnd(s: State, w: nat)
    requires w in s.workers
  {
    s.workers[w].phase.Ready? && s.workers[w].pos == |s.logs.At(s.workers[w].stage)|
  }

  /** Every stage has a consumer. */
  predicate Manned(crew: Per<nat>) {
    forall g: Stage :: 1 <= crew.At(g)
  }

  lemma PlaceFacts(c: Config, s: State, w: nat)
    requires Inv(c, s) && w in s.workers
    ensures s.workers[w].pos <= |s.logs.At(s.workers[w].stage)| && (NeedsRecord(s.workers[w].phase) ==> HasRecord(s, w))
  {
    hide Inv;
    WorkerFacts(c, s, w);
    hide PhaseOk, DrawOk, Contend, SameDraw;
  }

  lemma StepOfPhase(c: Config, s: State, w: nat) returns (step: Step)
    requires w in s.workers && !s.workers[w].phase.Ready? && (NeedsRecord(s.workers[w].phase) ==> HasRecord(s, w))
    ensures IsFailureStep(step) && FailureEnabled(c, s, step)
  {
    var k := s.workers[w];
    if InTransaction(k.phase) {
      step := Raise(w);
    } else if k.phase.Raised? {
      step := if Exhausted(c, Record(s, w)) then DeadLetterRecord(w) else Requeue(w);
    } else {
      step := SkipMarkFailed(w);
    }
  }

  /** A worker that is not waiting at the end of its log has a step to take. */
  lemma WorkerCanMove(c: Config, s: State, w: nat) returns (step: Step)
    requires Inv(c, s) && w in s.workers && !AtEnd(s, w)
    ensures Calm(step) && Enabled(c, s, step) && !Idle(s, step)
    ensures s.workers[w].phase.Ready? ==> IsMembershipStep(step)
  {
    hide Inv, FailureEnabled;
    PlaceFacts(c, s, w);
    if !s.workers[w].phase.Ready? {
      step := StepOfPhase(c, s, w);
    } else {
      var draw := UndrawnId(s.minted);
      step := Deliver(w, draw);
    }
  }

  /** With all consumers waiting at the end, one of a stage whose end is not committed can commit it. */
  lemma OffsetCanMove(c: Config, s: State, crew: Per<nat>, g: Stage) returns (step: Step)
    requires Inv(c, s) && Staffed(s, crew) && Manned(crew)
    requires (forall w :: w in s.workers ==> AtEnd(s, w)) && s.committed.At(g) != |s.logs.At(g)|
    ensures IsMembershipStep(step) && Calm(step) && Enabled(c, s, step) && !Idle(s, step)
  {
    hide Inv;
    var w :| w in ReadersOf(s.workers, g) by {
      assert |ReadersOf(s.workers, g)| >= 1;
    }
    OffsetInLog(c, s, g);
    step := CommitOffset(w);
  }

  lemma OffsetInLog(c: Config, s: State, g: Stage)
    requires Inv(c, s)
    ensures s.committed.At(g) <= |s.logs.At(g)|
  {
    hide StoresInv, EventsInv, ResultsInv, VectorsInv, RelayInv, WorkersInv, MessagesOk, PositionsOk, Accounted;
    assert SafeFrom(s.logs.At(g), s.dlqs.At(g), s.db.ledger, g, s.committed.At(g));
  }

  lemma RelayCanMove(c: Config, s: State) returns (step: Step)
    requires ValidConfig(c) && Inv(c, s) && (s.relays != map[] || exists e :: e in s.db.outbox && e !in s.db.published)
    ensures IsRelayStep(step) && Calm(step) && Enabled(c, s, step) && !Idle(s, step)
  {
    hide Inv;
    if s.relays != map[] {
      var r :| r in s.relays;
      RelayFacts(c, s);
      assert BatchOk(s.db.outbox, s.db.published, s.logs, s.relays[r]);
      step := if s.relays[r].sent < |s.relays[r].ids| then RelayPublish(r) else RelayCommit(r);
    } else {
      var e :| e in s.db.outbox && e !in s.db.published;
      assert Lockable(c, s, [e]);
      step := RelayLock(0, [e]);
    }
  }

  /** Until everything is settled, some calm step that is not idle can be taken. */
  lemma NeverStuck(c: Config, s: State, crew: Per<nat>) returns (step: Step)
    requires ValidConfig(c) && Inv(c, s) && Staffed(s, crew) && Manned(crew) && !Quiet(s)
    ensures Calm(step) && Enabled(c, s, step) && !Idle(s, step)
  {
    hide Inv, Enabled, Idle, AtEnd, Staffed, Manned;
    if s.relays != map[] || exists e :: e in s.db.outbox && e !in s.db.published {
      step := RelayCanMove(c, s);
    } else if w :| w in s.workers && !AtEnd(s, w) {
      step := WorkerCanMove(c, s, w);
    } else {
      var g: Stage :| s.committed.At(g) != |s.logs.At(g)|;
      step := OffsetCanMove(c, s, crew, g);
    }
  }

  // ----- every calm run settles ------------------------------------------------------------

  /** An endless schedule: from `states(i)` each step leads to `states(i + 1)`, calmly and never idly. */
  ghost predicate Goes(c: Config, steps: nat -> Step, states: nat -> State, i: nat) {
    && Calm(steps(i)) && Enabled(c, states(i), steps(i)) && !Idle(states(i), steps(i))
    && states(i + 1) == Apply(c, states(i), steps(i))
  }

  ghost function CrewOf(s: State): (crew: Per<nat>)
    ensures Staffed(s, crew)
  {
    Per(|ReadersOf(s.workers, Ingested)|, |ReadersOf(s.workers, Extracted)|, |ReadersOf(s.workers, Enriched)|)
  }

  lemma {:induction false} NoEndlessRun(c: Config, crew: Per<nat>, steps: nat -> Step, states: nat -> State, i: nat)
    requires ValidConfig(c) && Inv(c, states(i)) && Staffed(states(i), crew)
    requires forall j: nat :: Goes(c, steps, states, j)
    ensures false
    decreases Work(c, states(i), crew), Overhead(states(i)), Left(states(i))
  {
    hide Inv, Staffed, Work, Overhead, Left, Calm, Enabled, Apply, Idle;
    assert Goes(c, steps, states, i);
    CalmStepsGetCloser(c, states(i), crew, steps(i));
    StepInv(c, states(i), steps(i));
    NoEndlessRun(c, crew, steps, states, i + 1);
  }

  /** However the processes are scheduled, the calm steps run out: any endless schedule crashes,
      uploads, rolls back or only idles somewhere. */
  lemma EveryCalmRunEnds(c: Config, steps: nat -> Step, states: nat -> State)
    requires ValidConfig(c) && Reachable(c, states(0))
    ensures exists i: nat :: !Goes(c, steps, states, i)
  {
    hide Inv, Staffed, Goes, Reachable;
    ReachableInv(c, states(0));
    var crew := CrewOf(states(0));
    if forall i: nat :: Goes(c, steps, states, i) {
      NoEndlessRun(c, crew, steps, states, 0);
    }
  }

  /** No calm step is left but offset commits that commit nothing new. */
  ghost predicate Exhaustive(c: Config, s: State) {
    forall step :: Calm(step) && Enabled(c, s, step) ==> Idle(s, step)
  }

  /** Every document is in the read model or has a dead-lettered event. */
  ghost predicate AllDecided(s: State) {
    forall d :: d in s.db.jobs ==> d in s.db.views || exists g: Stage :: DocumentIn(s.dlqs.At(g), d)
  }

  lemma QuietIsAtRest(s: State)
    requires Quiet(s)
    ensures Guarantees.AtRest(s)
  {
  }

  lemma ReachableOnward(c: Config, s: State, steps: seq<Step>)
    requires Reachable(c, s) && Run(c, s, steps).Some?
    ensures Reachable(c, Run(c, s, steps).value)
  {
    hide Enabled, Apply;
    var before :| Run(c, Init(), before) == Some(s);
    RunJoin(c, Init(), before, steps);
  }

  lemma QuietMeansDecided(c: Config, s: State)
    requires ValidConfig(c) && Reachable(c, s) && Quiet(s)
    ensures AllDecided(s)
  {
    hide Reachable, Quiet, DocumentIn, Guarantees.AtRest;
    QuietIsAtRest(s);
    forall d | d in s.db.jobs
      ensures d in s.db.views || exists g: Stage :: DocumentIn(s.dlqs.At(g), d)
    {
      Guarantees.SettledMeansComplete(c, s, d);
    }
  }

  /** Wherever a calm run stops for want of a step, it stops at rest with every document decided. */
  lemma EveryCalmRunSettles(c: Config, s: State, crew: Per<nat>, steps: seq<Step>)
    requires ValidConfig(c) && Reachable(c, s) && Staffed(s, crew) && Manned(crew)
    requires CalmRun(steps) && Run(c, s, steps).Some? && Exhaustive(c, Run(c, s, steps).value)
    ensures Quiet(Run(c, s, steps).value) && AllDecided(Run(c, s, steps).value)
  {
    hide Inv, Staffed, Manned, Quiet, CalmRun, Enabled, Apply, Calm, Idle, Reachable, Work, AllDecided;
    var t := Run(c, s, steps).value;
    ReachableInv(c, s);
    RunInv(c, s, steps);
    CalmRunBurns(c, s, crew, steps);
    ReachableOnward(c, s, steps);
    if !Quiet(t) {
      var step := NeverStuck(c, t, crew);
    }
    QuietMeansDecided(c, t);
  }

  /** From every reachable state with a consumer for each stage, such a run exists. */
  lemma {:induction false} EveryDocumentSettles(c: Config, s: State, crew: Per<nat>) returns (steps: seq<Step>)
    requires ValidConfig(c) && Reachable(c, s) && Staffed(s, crew) && Manned(crew)
    ensures CalmRun(steps) && Run(c, s, steps).Some?
    ensures Quiet(Run(c, s, steps).value) && AllDecided(Run(c, s, steps).value)
    decreases Work(c, s, crew), Overhead(s), Left(s)
  {
    hide Inv, Staffed, Manned, Work, Overhead, Left, Quiet, Calm, Enabled, Apply, Idle, Reachable, AllDecided;
    ReachableInv(c, s);
    if Quiet(s) {
      steps := [];
      QuietMeansDecided(c, s);
    } else {
      var step := NeverStuck(c, s, crew);
      CalmStepsGetCloser(c, s, crew, step);
      OneStepOn(c, s, step);
      var rest := EveryDocumentSettles(c, Apply(c, s, step), crew);
      steps := [step] + rest;
      RunJoin(c, s, [step], rest);
    }
  }

  lemma OneStepOn(c: Config, s: State, step: Step)
    requires Reachable(c, s) && Enabled(c, s, step)
    ensures Run(c, s, [step]) == Some(Apply(c, s, step)) && Reachable(c, Apply(c, s, step))
  {
    hide Enabled, Apply, Reachable;
    assert [step][..0] == [];
    ReachableOnward(c, s, [step]);
  }

  /** `n` fresh jobs settle, and within `n` times the weight of one in relay publishes and record
      outcomes: that bounds every calm run, and those that cannot go on end at rest. */
  lemma FreshJobsSettleWithinTheBound(c: Config, s: State, crew: Per<nat>, n: nat, steps: seq<Step>)
    requires ValidConfig(c) && Reachable(c, s) && Staffed(s, crew) && Manned(crew) && FreshBatch(s, n)
    requires CalmRun(steps) && Run(c, s, steps).Some?
    ensures Progress(steps) <= n * RowWeight(c, crew, Ingested)
    ensures crew == Per(1, 1, 1) ==> Progress(steps) <= n * (3 * (c.maxAttempts + 1))
    ensures Exhaustive(c, Run(c, s, steps).value) ==>
              Quiet(Run(c, s, steps).value) && AllDecided(Run(c, s, steps).value)
  {
    hide Inv, Staffed, Manned, Quiet, CalmRun, Reachable, FreshBatch, AllDecided, Exhaustive, RowWeight;
    ReachableInv(c, s);
    SettlingBound(c, s, crew, n, steps);
    OneConsumerEach(c);
    if Exhaustive(c, Run(c, s, steps).value) {
      EveryCalmRunSettles(c, s, crew, steps);
    }
  }
}
