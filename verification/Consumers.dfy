/** The consumer side of every worker: run the work in its transaction, then succeed, requeue or
    dead-letter, then commit the offset. */
module Consumers {
  import opened Topics
  import opened Events
  import opened Model
  import opened Sessions
  import opened Invariant
  import opened Frames
  import opened Commits
  import opened WorkSteps
  import opened History
  import opened Infrastructure
  import opened Handling
  import opened ExtractionWorker
  import opened EnrichmentWorker
  import opened ProjectionWorker
  import opened Embedding
  import opened LanguageModel
  import opened Tallies
  import opened Metrics
  import opened Uploads

  // ----- the work, in one transaction -----------------------------------------------------------

  /** The consumer has moved past the record `k` stood at. */
  predicate Past(s: State, w: nat, k: Worker) {
    w in s.workers && s.workers[w] == k.(pos := k.pos + 1, phase := Ready)
  }

  lemma RaiseEnabled(c: Config, s: State, w: nat, k: Worker, m: Envelope)
    requires AtWork(s, w, k, m)
    ensures Enabled(c, s, Raise(w)) && Apply(c, s, Raise(w)) == Fail(c, s, w)
  {
    hide Fail;
  }

  lemma FailLeaves(c: Config, s: State, db: Db, w: nat, k: Worker, m: Envelope)
    requires AtWork(s, w, k, m)
    ensures var t := Fail(c, s.(db := db), w);
            SameStores(t, s.(db := db)) && Busy(t, w, k.(phase := Raised), m)
  {
  }

  lemma SucceedLeaves(s: State, db: Db, w: nat, k: Worker, m: Envelope)
    requires AtWork(s, w, k, m)
    ensures var t := Succeed(s.(db := db), w);
            SameStores(t, s.(db := db)) && Past(t, w, k)
  {
  }

  /** Along the history consumer `w` ended exactly one invocation, for message `m`; in a calm cluster
      nobody else moved. */
  ghost predicate Tallied(c: Config, calm: bool, w: nat, k: Worker, m: Envelope, returned: bool,
                          history: seq<Step>, after: seq<Step>) {
    && history <= after
    && TallyBy(c, after, w) == Bumped(TallyBy(c, history, w), k.stage, if returned then SUCCESS else FailureOf(c, m))
    && (calm ==> Foreign(after, Consumer(w)) == Foreign(history, Consumer(w)))
  }

  lemma CountOutcome(c: Config, s: State, w: nat, k: Worker, m: Envelope, step: Step, p: Per<Tally>)
    requires AtWork(s, w, k, m) && IsOutcome(step) && step.w == w
    ensures Counting(c, s, step, p) == Bumped(p, k.stage, if Returns(step) then SUCCESS else FailureOf(c, m))
    ensures Actor(step) == Consumer(w)
  {
    hide Bumped, FailureOf;
  }

  /** The transaction is rolled back, whatever it had staged. */
  method RollBack(cluster: Cluster, w: nat, k: Worker, m: Envelope, session: Session)
    requires cluster.Valid() && AtWork(cluster.Now(), w, k, m)
    modifies cluster, session
    ensures cluster.Valid()
    ensures Tallied(cluster.c, cluster.calm, w, k, m, false, old(cluster.history), cluster.history)
    ensures Grows(old(cluster.Now()), cluster.Now())
    ensures Busy(cluster.Now(), w, k.(phase := Raised), m) && session.staged == []
    ensures SameStores(old(cluster.Now()), cluster.Now())
  {
    hide Inv, Run, Counting, Bumped, FailureOf, TallyBy, Foreign, Enabled, Apply, Grows, Busy, AtWork, Fail;
    ghost var s := cluster.Now();
    session.Rollback();
    RaiseEnabled(cluster.c, s, w, k, m);
    CountOutcome(cluster.c, s, w, k, m, Raise(w), TallyBy(cluster.c, cluster.history, w));
    FailLeaves(cluster.c, s, s.db, w, k, m);
    GrowsItself(s);
    cluster.Sound();
    GrowsByStep(cluster.c, s, s, Raise(w));
    cluster.Local(Raise(w));
  }

  lemma ReadyFacts(c: Config, s: State, w: nat, writes: seq<Write>, step: Step, k: Worker, m: Envelope)
    requires CommitReady(c, s, w, writes, step) && AtWork(s, w, k, m)
    ensures Claim(m.eventId, k.stage) in ApplyWrites(s.db, writes).ledger
    ensures Enabled(c, s, step) && Apply(c, s, step) == Succeed(s.(db := ApplyWrites(s.db, writes)), w)
    ensures Enabled(c, s, Unacked(step))
    ensures Apply(c, s, Unacked(step)) == Fail(c, s.(db := ApplyWrites(s.db, writes)), w)
    ensures IsOutcome(step) && step.w == w && Returns(step)
    ensures IsOutcome(Unacked(step)) && Unacked(step).w == w && !Returns(Unacked(step))
  {
    hide Enabled, Apply, ApplyWrites, Succeed, Fail;
  }

  /** The embedder answers every text and gets every batch through, and the LLM never refuses. */
  ghost predicate Capable(embedder: OpenAIEmbedder, llm: AnthropicLLM) {
    Complete(embedder.provider) && Patient(embedder.provider) && Willing(llm.oracle)
  }

  /** Why the work on a record can fail when no call does: what obstructs the handler, or what the
      providers answer, counting the embedder's calls from `n` and the LLM's from `q`. */
  ghost predicate Explains(c: Config, s: State, w: nat, provider: Provider, n: nat, oracle: Oracle, q: nat,
                           error: Error)
    requires HasRecord(s, w)
  {
    || Provokes(c, s, w, error)
    || (s.workers[w].stage.Extracted?
        && ProvidersFail(c, s.objects, Record(s, w).payload, provider, n, oracle, q, error))
  }

  /** The LLM's answer to its call `q`, made about the text the message points at, has been recorded. */
  ghost predicate AnswerRecorded(c: Config, s: State, k: Worker, m: Envelope, oracle: Oracle, q: nat) {
    && k.stage.Extracted? && m.payload.DocumentExtracted? && m.payload.textUri in s.objects
    && var answer := oracle(q, c.decode(s.objects[m.payload.textUri]));
       answer.Some? && HoldsAnswer(s.db, m.payload.documentId, k.draw, answer.value)
  }

  /** The session holds what an answered call of the LLM asks for. */
  ghost predicate AnswerStaged(c: Config, s: State, k: Worker, m: Envelope, oracle: Oracle, q: nat,
                               writes: seq<Write>) {
    AnswerRecorded(c, s.(db := ApplyWrites(s.db, writes)), k, m, oracle, q)
  }

  lemma HeededIsStaged(c: Config, s: State, k: Worker, m: Envelope, oracle: Oracle, q: nat, writes: seq<Write>,
                       step: Step)
    requires k.stage.Extracted? && Heeds(c, s.objects, m.payload, oracle, q, Returned, step)
    requires m.payload.documentId in s.db.jobs
    requires writes == EnrichmentWrites(m, s.db.jobs[m.payload.documentId], |ChunksFor(c, s.objects, m.payload)|,
                                        step.classification, step.summary, k.draw, step.at)
    ensures AnswerStaged(c, s, k, m, oracle, q, writes)
  {
    hide EnrichmentWrites, ApplyWrites, HoldsAnswer;
    var answer := oracle(q, c.decode(s.objects[m.payload.textUri])).value;
    AnswerIsHeld(s.db, m, |ChunksFor(c, s.objects, m.payload)|, answer, k.draw, step.at);
  }

  /** Runs the group's handler and commits.  A failed COMMIT may or may not have taken effect. */
  method Work(cluster: Cluster, embedder: OpenAIEmbedder, llm: AnthropicLLM, w: nat, k: Worker, m: Envelope)
    returns (outcome: Outcome)
    requires cluster.Valid() && Busy(cluster.Now(), w, k, m) && k.phase == Opened
    modifies cluster, embedder, llm
    ensures cluster.Valid()
    ensures Tallied(cluster.c, cluster.calm, w, k, m, outcome.Returned?, old(cluster.history), cluster.history)
    ensures Grows(old(cluster.Now()), cluster.Now())
    ensures outcome.Returned? ==> Past(cluster.Now(), w, k) && Claim(m.eventId, k.stage) in cluster.db.ledger
    ensures outcome.Threw? ==> Busy(cluster.Now(), w, k.(phase := Raised), m)
    ensures old(llm.calls) <= llm.calls <= old(llm.calls) + 1
    ensures outcome.Returned? && old(llm.calls) < llm.calls ==>
              AnswerRecorded(cluster.c, cluster.Now(), k, m, llm.oracle, old(llm.calls))
    ensures cluster.calm && outcome.Threw? ==>
              Explains(cluster.c, old(cluster.Now()), w, embedder.provider, old(embedder.calls), llm.oracle,
                       old(llm.calls), outcome.error)
    ensures cluster.calm && !Obstructed(cluster.c, old(cluster.Now()), w)
            && (k.stage.Extracted? ==> Capable(embedder, llm)) ==>
              outcome.Returned?
  {
    hide Inv, Run, Counting, Bumped, FailureOf, Obstructed, Provokes, ProvidersFail, Complete, Patient, Willing,
      TallyBy, Foreign, Enabled, Apply, Grows, Busy, AtWork, Fail, Succeed, CommitReady, ApplyWrites, Past, Heeds,
      AnswerRecorded, AnswerStaged, EnrichmentWrites;
    BusyFacts(cluster.Now(), w, k, m);
    ghost var start := cluster.Now();
    var session := new Session();
    var step;
    match k.stage {
      case Ingested => outcome, step := HandleIngested(cluster, w, k, m, session);
      case Extracted => outcome, step := HandleExtracted(cluster, embedder, llm, w, k, m, session);
      case Enriched => outcome, step := HandleEnriched(cluster, w, k, m, session);
    }
    ghost var s := cluster.Now();
    if outcome.Threw? {
      if cluster.calm {
        NotProvoked(cluster.c, start, w, outcome.error);
      }
      RollBack(cluster, w, k, m, session);
    } else {
      if old(llm.calls) < llm.calls {
        HeedsFacts(cluster.c, s.objects, m.payload, llm.oracle, old(llm.calls), step);
        HeededIsStaged(cluster.c, s, k, m, llm.oracle, old(llm.calls), session.staged, step);
      }
      ghost var writes := session.staged;
      outcome := EndTransaction(cluster, w, k, m, session, step);
      if outcome.Returned? && old(llm.calls) < llm.calls {
        StagedIsRecorded(cluster.c, s, cluster.Now(), k, m, llm.oracle, old(llm.calls), writes);
      }
    }
    GrowsTrans(start, s, cluster.Now());
  }

  lemma NotProvoked(c: Config, s: State, w: nat, error: Error)
    requires HasRecord(s, w)
    ensures !Obstructed(c, s, w) ==> !Provokes(c, s, w, error)
  {
    if Provokes(c, s, w, error) {
      ProvokedMeansObstructed(c, s, w, error);
    }
    hide Obstructed, Provokes;
  }

  lemma HeedsFacts(c: Config, objects: Objects, p: Payload, oracle: Oracle, q: nat, step: Step)
    requires Heeds(c, objects, p, oracle, q, Returned, step)
    ensures step.CommitEnrichment? && p.DocumentExtracted? && p.textUri in objects
  {
  }

  lemma StagedIsRecorded(c: Config, s: State, t: State, k: Worker, m: Envelope, oracle: Oracle, q: nat,
                         writes: seq<Write>)
    requires AnswerStaged(c, s, k, m, oracle, q, writes)
    requires t.db == ApplyWrites(s.db, writes) && t.objects == s.objects
    ensures AnswerRecorded(c, t, k, m, oracle, q)
  {
    hide ApplyWrites, HoldsAnswer;
  }

  /** COMMIT, or ROLLBACK when it is refused; a lost acknowledgement looks like a refusal. */
  method EndTransaction(cluster: Cluster, w: nat, k: Worker, m: Envelope, session: Session, done: Step)
    returns (outcome: Outcome)
    requires cluster.Valid() && AtWork(cluster.Now(), w, k, m)
    requires CommitReady(cluster.c, cluster.Now(), w, session.staged, done)
    modifies cluster, session
    ensures cluster.Valid() && Grows(old(cluster.Now()), cluster.Now())
    ensures Tallied(cluster.c, cluster.calm, w, k, m, outcome.Returned?, old(cluster.history), cluster.history)
    ensures outcome.Returned? ==> Past(cluster.Now(), w, k) && Claim(m.eventId, k.stage) in cluster.db.ledger
    ensures outcome.Returned? ==>
              cluster.db == ApplyWrites(old(cluster.db), old(session.staged)) && cluster.objects == old(cluster.objects)
    ensures outcome.Threw? ==> Busy(cluster.Now(), w, k.(phase := Raised), m)
    ensures cluster.calm ==> outcome.Returned?
  {
    hide Inv, Run, Counting, Bumped, FailureOf, TallyBy, Foreign, Enabled, Apply, Grows, Busy, AtWork, CommitReady,
      ApplyWrites, Past;
    ghost var s := cluster.Now();
    GrowsItself(s);
    var refused := cluster.Fails();
    if refused {
      RollBack(cluster, w, k, m, session);
      return Threw(DatabaseError);
    }
    var lost := cluster.Fails();
    var step := if lost then Unacked(done) else done;
    outcome := if lost then Threw(DatabaseError) else Returned;
    ReadyToCommit(cluster.c, s, w, session.staged, step, lost, k, m);
    CountOutcome(cluster.c, s, w, k, m, step, TallyBy(cluster.c, cluster.history, w));
    cluster.Sound();
    GrowsByStep(cluster.c, s, s, step);
    cluster.Commit(session.staged, step);
  }

  lemma ReadyToCommit(c: Config, s: State, w: nat, writes: seq<Write>, step: Step, lost: bool, k: Worker, m: Envelope)
    requires AtWork(s, w, k, m)
    requires if lost then exists done :: step == Unacked(done) && CommitReady(c, s, w, writes, done)
             else CommitReady(c, s, w, writes, step)
    ensures Enabled(c, s, step) && SameStores(Apply(c, s, step), s.(db := ApplyWrites(s.db, writes)))
    ensures Claim(m.eventId, k.stage) in ApplyWrites(s.db, writes).ledger
    ensures if lost then Busy(Apply(c, s, step), w, k.(phase := Raised), m) else Past(Apply(c, s, step), w, k)
    ensures IsOutcome(step) && step.w == w && Returns(step) == !lost
  {
    hide Enabled, Apply, AtWork, Fail, Succeed, CommitReady, ApplyWrites, Unacked, SameStores;
    if lost {
      var done :| step == Unacked(done) && CommitReady(c, s, w, writes, done);
      ReadyFacts(c, s, w, writes, done, k, m);
      FailLeaves(c, s, ApplyWrites(s.db, writes), w, k, m);
    } else {
      ReadyFacts(c, s, w, writes, step, k, m);
      SucceedLeaves(s, ApplyWrites(s.db, writes), w, k, m);
    }
  }

  // ----- retry or dead-letter -------------------------------------------------------------------

  datatype Disposition = Handled | Requeued | DeadLetteredTo | Died

  lemma RequeueEnabled(c: Config, s: State, w: nat, k: Worker, m: Envelope)
    requires Busy(s, w, k.(phase := Raised), m) && m.attempt + 1 < c.maxAttempts
    ensures Enabled(c, s, Requeue(w))
    ensures var t := Apply(c, s, Requeue(w));
            SameStores(t, Appended(s, Pipeline(k.stage), m.NextAttempt())) && Past(t, w, k)
  {
  }

  lemma DeadLetterEnabled(c: Config, s: State, w: nat, k: Worker, m: Envelope)
    requires Busy(s, w, k.(phase := Raised), m) && m.attempt + 1 >= c.maxAttempts
    ensures Enabled(c, s, DeadLetterRecord(w))
    ensures var t := Apply(c, s, DeadLetterRecord(w));
            SameStores(t, Appended(s, DeadLetter(k.stage), m)) && Parked(t, w, k, m.documentId)
  {
  }

  lemma CrashEnabled(c: Config, s: State, w: nat)
    requires w in s.workers
    ensures Enabled(c, s, Crash(w)) && SameStores(Apply(c, s, Crash(w)), s) && w !in Apply(c, s, Crash(w)).workers
  {
  }

  /** Dead-lettered, with the failure callback still to run. */
  predicate Parked(s: State, w: nat, k: Worker, d: Id) {
    w in s.workers && s.workers[w] == k.(pos := k.pos + 1, phase := DeadLettered(d))
  }

  lemma StillParked(s: State, t: State, w: nat, k: Worker, d: Id)
    requires Parked(s, w, k, d) && Keeps(Consumer(w), s, t)
    ensures Parked(t, w, k, d)
  {
  }

  lemma SkipEnabled(c: Config, s: State, w: nat, k: Worker, d: Id)
    requires Parked(s, w, k, d)
    ensures Enabled(c, s, SkipMarkFailed(w))
    ensures var t := Apply(c, s, SkipMarkFailed(w)); SameStores(t, s) && Past(t, w, k)
  {
  }

  lemma MarkEnabled(c: Config, s: State, w: nat, k: Worker, d: Id, message: string)
    requires Parked(s, w, k, d) && !k.stage.Enriched?
    ensures Enabled(c, s, MarkFailed(w, message))
    ensures var t := Apply(c, s, MarkFailed(w, message));
            SameStores(t, s.(db := MarkFailedDb(s.db, d, message))) && Past(t, w, k)
  {
    hide MarkFailedDb;
  }

  lemma MarkFailedWrites(db: Db, d: Id, message: string)
    ensures ApplyWrites(db, if d in db.jobs then [SetStatus(d, Failed), SetError(d, Truncate(message, 2000))] else [])
         == MarkFailedDb(db, d, message)
  {
    if d in db.jobs {
      TwoWrites(db, SetStatus(d, Failed), SetError(d, Truncate(message, 2000)));
      var failed := db.jobs[d].(status := Failed);
      assert db.jobs[d := failed][d := failed.(error := Some(Truncate(message, 2000)))]
          == db.jobs[d := failed.(error := Some(Truncate(message, 2000)))];
    }
  }

  /** The stored error is the message as far as 2000 characters go: all of it when it fits. */
  predicate IsCutOf(error: Option<string>, message: string) {
    && error.Some? && error.value <= message
    && |error.value| == if 2000 < |message| then 2000 else |message|
  }

  /** Status and message of an existing job; a missing one is left alone. */
  method StageFailure(session: Session, db: Db, d: Id, message: string)
    requires session.Valid() && session.staged == []
    modifies session
    ensures ApplyWrites(db, session.staged) == MarkFailedDb(db, d, message)
  {
    if d in db.jobs {
      session.Add(SetStatus(d, Failed));
      session.Add(SetError(d, Truncate(message, 2000)));
    }
    assert session.staged == if d in db.jobs then [SetStatus(d, Failed), SetError(d, Truncate(message, 2000))] else [];
    MarkFailedWrites(db, d, message);
    hide ApplyWrites, MarkFailedDb;
  }

  /** The best-effort FAILED update, in its own transaction: every error in it is swallowed.  If it lands,
      whether or not that is acknowledged, it marks exactly the document's job, as the tables stood when
      it committed. */
  method MarkJobFailed(cluster: Cluster, w: nat, k: Worker, d: Id, message: string)
    returns (ghost landed: bool, ghost tables: Db)
    requires cluster.Valid() && Parked(cluster.Now(), w, k, d) && !k.stage.Enriched?
    modifies cluster
    ensures cluster.Valid() && Quietly(cluster.c, cluster.calm, w, old(cluster.history), cluster.history)
    ensures Grows(old(cluster.Now()), cluster.Now())
    ensures Past(cluster.Now(), w, k)
    ensures cluster.db == if landed then MarkFailedDb(tables, d, message) else tables
    ensures cluster.calm ==> landed && tables == old(cluster.db)
    ensures landed && d in cluster.db.jobs ==>
              cluster.db.jobs[d].status == Failed && IsCutOf(cluster.db.jobs[d].error, message)
  {
    hide Inv, Run, TallyBy, Foreign, Enabled, Apply, Grows, Keeps, Parked, Past, MarkFailedDb, ApplyWrites, Truncate;
    ghost var start := cluster.Now();
    cluster.Yield(Consumer(w));
    ghost var s := cluster.Now();
    StillParked(start, s, w, k, d);
    cluster.Sound();
    var failed := cluster.Fails();
    landed, tables := !failed, s.db;
    if failed {
      SkipEnabled(cluster.c, s, w, k, d);
      GrowsByStep(cluster.c, start, s, SkipMarkFailed(w));
      cluster.Local(SkipMarkFailed(w));
      return;
    }
    var session := new Session();
    StageFailure(session, cluster.db, d, message);
    MarkEnabled(cluster.c, s, w, k, d, message);
    GrowsByStep(cluster.c, start, s, MarkFailed(w, message));
    MarkedFailed(s.db, d, message);
    cluster.Commit(session.staged, MarkFailed(w, message));
  }

  lemma MarkedFailed(db: Db, d: Id, message: string)
    ensures var after := MarkFailedDb(db, d, message);
            d in after.jobs ==> after.jobs[d].status == Failed && IsCutOf(after.jobs[d].error, message)
  {
  }

  /** What became of a message the consumer moved past. */
  predicate Dealt(s: State, g: Stage, m: Envelope) {
    || Claim(m.eventId, g) in s.db.ledger
    || m.NextAttempt() in s.logs.At(g)
    || m in s.dlqs.At(g)
  }

  lemma StillDealt(s: State, t: State, g: Stage, m: Envelope)
    requires Dealt(s, g, m) && Grows(s, t)
    ensures Dealt(t, g, m)
  {
    assert s.logs.At(g) <= t.logs.At(g) && s.dlqs.At(g) <= t.dlqs.At(g);
  }

  /** Runs the work; a failure goes back to the message's own topic with its counter raised, or, once
      the attempts are used up, to the dead-letter topic and marks the job failed.  A publish that
      fails ends the consumer with nothing lost: its position is not committed.  The process's
      metrics, started at `base`, count exactly the invocations the consumer has ended. */
  method ProcessWithRetry(cluster: Cluster, embedder: OpenAIEmbedder, llm: AnthropicLLM, metrics: WorkerMetrics,
        w: nat, k: Worker, m: Envelope, ghost base: Per<Tally>)
    returns (disposition: Disposition, ghost ended: Outcome)
    requires cluster.Valid() && Busy(cluster.Now(), w, k, m) && k.phase == Opened
    requires TallyBy(cluster.c, cluster.history, w) == Sum(base, metrics.counts)
    modifies cluster, embedder, llm, metrics
    ensures cluster.Valid() && old(cluster.history) <= cluster.history && Grows(old(cluster.Now()), cluster.Now())
    ensures TallyBy(cluster.c, cluster.history, w) == Sum(base, metrics.counts)
    ensures metrics.counts
         == Bumped(old(metrics.counts), k.stage, if disposition.Handled? then SUCCESS else FailureOf(cluster.c, m))
    ensures cluster.calm ==> Foreign(cluster.history, Consumer(w)) == Foreign(old(cluster.history), Consumer(w))
    ensures disposition.Died? ==> w !in cluster.workers && !cluster.calm
    ensures !disposition.Died? ==> Past(cluster.Now(), w, k)
    ensures cluster.calm && !Obstructed(cluster.c, old(cluster.Now()), w)
            && (k.stage.Extracted? ==> Capable(embedder, llm)) ==>
              disposition.Handled?
    ensures disposition.Handled? <==> ended.Returned?
    ensures cluster.calm && ended.Threw? ==>
              Explains(cluster.c, old(cluster.Now()), w, embedder.provider, old(embedder.calls), llm.oracle,
                       old(llm.calls), ended.error)
    ensures cluster.calm && disposition.DeadLetteredTo? && !k.stage.Enriched? && m.documentId in cluster.db.jobs ==>
              && cluster.db.jobs[m.documentId].status == Failed
              && IsCutOf(cluster.db.jobs[m.documentId].error, cluster.c.describe(ended.error, m))
    ensures old(llm.calls) <= llm.calls <= old(llm.calls) + 1
    ensures disposition.Handled? && old(llm.calls) < llm.calls ==>
              AnswerRecorded(cluster.c, cluster.Now(), k, m, llm.oracle, old(llm.calls))
    ensures disposition.Handled? ==> Claim(m.eventId, k.stage) in cluster.db.ledger
    ensures disposition.Requeued? ==>
              m.attempt + 1 < cluster.c.maxAttempts && m.NextAttempt() in cluster.logs.At(k.stage)
    ensures disposition.DeadLetteredTo? ==> m.attempt + 1 >= cluster.c.maxAttempts && m in cluster.dlqs.At(k.stage)
  {
    hide Inv, Run, TallyBy, Foreign, Enabled, Apply, Grows, Keeps, Busy, Past, Parked, Bumped, Sum, Obstructed, Capable,
      Explains, AnswerRecorded, IsCutOf;
    ghost var start := cluster.Now();
    ghost var counts := metrics.counts;
    var outcome := Work(cluster, embedder, llm, w, k, m);
    ghost var worked := cluster.Now();
    ended := outcome;
    if outcome.Returned? {
      metrics.IncSucceeded(k.stage);
      SumBumped(base, counts, k.stage, SUCCESS);
      return Handled, ended;
    }
    metrics.IncFailed(k.stage);
    SumBumped(base, counts, k.stage, FailureOf(cluster.c, m));
    if m.attempt + 1 >= cluster.c.maxAttempts {
      metrics.IncDlq(k.stage);
      BumpedTwice(counts, k.stage, Tally(0, 1, 0, 0), Tally(0, 0, 0, 1));
      disposition := DeadLetterMessage(cluster, w, k, m, outcome.error);
    } else {
      metrics.IncRetries(k.stage);
      BumpedTwice(counts, k.stage, Tally(0, 1, 0, 0), Tally(0, 0, 1, 0));
      disposition := RequeueMessage(cluster, w, k, m);
    }
    GrowsTrans(start, worked, cluster.Now());
  }

  /** The last attempt failed: to the dead-letter topic, and on to the failure callback. */
  method DeadLetterMessage(cluster: Cluster, w: nat, k: Worker, m: Envelope, error: Error)
    returns (disposition: Disposition)
    requires cluster.Valid() && Busy(cluster.Now(), w, k.(phase := Raised), m) && m.attempt + 1 >= cluster.c.maxAttempts
    modifies cluster
    ensures cluster.Valid() && Quietly(cluster.c, cluster.calm, w, old(cluster.history), cluster.history)
    ensures Grows(old(cluster.Now()), cluster.Now())
    ensures disposition == Died || disposition == DeadLetteredTo
    ensures disposition.Died? ==> w !in cluster.workers && !cluster.calm
    ensures disposition.DeadLetteredTo? ==> Past(cluster.Now(), w, k) && m in cluster.dlqs.At(k.stage)
    ensures cluster.calm && !k.stage.Enriched? && m.documentId in cluster.db.jobs ==>
              && cluster.db.jobs[m.documentId].status == Failed
              && IsCutOf(cluster.db.jobs[m.documentId].error, cluster.c.describe(error, m))
  {
    hide Inv, Run, TallyBy, Foreign, Enabled, Apply, Grows, Keeps, Busy, Past, Parked;
    ghost var start := cluster.Now();
    var alive := BeforePublish(cluster, w, k, m);
    if !alive {
      return Died;
    }
    ghost var s := cluster.Now();
    DeadLetterEnabled(cluster.c, s, w, k, m);
    cluster.Sound();
    GrowsByStep(cluster.c, start, s, DeadLetterRecord(w));
    cluster.Publish(DeadLetter(k.stage), m, DeadLetterRecord(w));
    ghost var parked := cluster.Now();
    assert m in parked.dlqs.At(k.stage);
    alive := AwaitAcknowledgement(cluster, w);
    if !alive {
      GrowsTrans(start, parked, cluster.Now());
      return Died;
    }
    OnDlq(cluster, w, k, m, error);
    GrowsTrans(start, parked, cluster.Now());
    DlqKeeps(parked, cluster.Now(), k.stage, m);
    return DeadLetteredTo;
  }

  /** Attempts are left: back to the message's own topic. */
  method RequeueMessage(cluster: Cluster, w: nat, k: Worker, m: Envelope) returns (disposition: Disposition)
    requires cluster.Valid() && Busy(cluster.Now(), w, k.(phase := Raised), m) && m.attempt + 1 < cluster.c.maxAttempts
    modifies cluster
    ensures cluster.Valid() && Quietly(cluster.c, cluster.calm, w, old(cluster.history), cluster.history)
    ensures Grows(old(cluster.Now()), cluster.Now())
    ensures disposition == Died || disposition == Requeued
    ensures disposition.Died? ==> w !in cluster.workers && !cluster.calm
    ensures disposition.Requeued? ==> Past(cluster.Now(), w, k) && m.NextAttempt() in cluster.logs.At(k.stage)
  {
    hide Inv, Run, TallyBy, Foreign, Enabled, Apply, Grows, Keeps, Busy, Past;
    ghost var start := cluster.Now();
    var alive := BeforePublish(cluster, w, k, m);
    if !alive {
      return Died;
    }
    ghost var s := cluster.Now();
    RequeueEnabled(cluster.c, s, w, k, m);
    cluster.Sound();
    GrowsByStep(cluster.c, start, s, Requeue(w));
    cluster.Publish(Pipeline(k.stage), m.NextAttempt(), Requeue(w));
    ghost var requeued := cluster.Now();
    alive := AwaitAcknowledgement(cluster, w);
    GrowsTrans(start, requeued, cluster.Now());
    return if alive then Requeued else Died;
  }

  /** The broker's acknowledgement may be lost after the message is on the topic; the consumer does not
      survive that either. */
  method AwaitAcknowledgement(cluster: Cluster, w: nat) returns (alive: bool)
    requires cluster.Valid() && w in cluster.workers
    modifies cluster
    ensures cluster.Valid() && Quietly(cluster.c, cluster.calm, w, old(cluster.history), cluster.history)
    ensures Grows(old(cluster.Now()), cluster.Now())
    ensures if alive then cluster.Now() == old(cluster.Now()) else w !in cluster.workers
    ensures cluster.calm ==> alive
  {
    hide Inv, Run, TallyBy, Foreign, Enabled, Apply, Grows;
    ghost var s := cluster.Now();
    GrowsItself(s);
    var lost := cluster.Fails();
    if lost {
      CrashEnabled(cluster.c, s, w);
      cluster.Sound();
      GrowsByStep(cluster.c, s, s, Crash(w));
      cluster.Local(Crash(w));
    }
    alive := !lost;
  }

  /** Others move, and the publish may fail, which the consumer does not survive. */
  method BeforePublish(cluster: Cluster, w: nat, k: Worker, m: Envelope) returns (alive: bool)
    requires cluster.Valid() && Busy(cluster.Now(), w, k.(phase := Raised), m)
    modifies cluster
    ensures cluster.Valid() && Quietly(cluster.c, cluster.calm, w, old(cluster.history), cluster.history)
    ensures Grows(old(cluster.Now()), cluster.Now())
    ensures if alive then Busy(cluster.Now(), w, k.(phase := Raised), m) else w !in cluster.workers
    ensures cluster.calm ==> alive && cluster.Now() == old(cluster.Now())
  {
    hide Inv, Run, TallyBy, Foreign, Enabled, Apply, Grows, Keeps, Busy;
    ghost var start := cluster.Now();
    cluster.Yield(Consumer(w));
    ghost var s := cluster.Now();
    StillBusy(start, s, w, k.(phase := Raised), m);
    BusyFacts(s, w, k.(phase := Raised), m);
    var failed := cluster.Fails();
    if failed {
      CrashEnabled(cluster.c, s, w);
      cluster.Sound();
      GrowsByStep(cluster.c, start, s, Crash(w));
      cluster.Local(Crash(w));
    }
    alive := !failed;
  }

  lemma DlqKeeps(s: State, t: State, g: Stage, m: Envelope)
    requires Grows(s, t) && m in s.dlqs.At(g)
    ensures m in t.dlqs.At(g)
  {
    assert s.dlqs.At(g) <= t.dlqs.At(g);
  }

  /** The callback after a dead letter; the projector has none. */
  method OnDlq(cluster: Cluster, w: nat, k: Worker, m: Envelope, error: Error)
    requires cluster.Valid() && Parked(cluster.Now(), w, k, m.documentId)
    modifies cluster
    ensures cluster.Valid() && Quietly(cluster.c, cluster.calm, w, old(cluster.history), cluster.history)
    ensures Grows(old(cluster.Now()), cluster.Now())
    ensures Past(cluster.Now(), w, k)
    ensures cluster.calm ==>
              cluster.db == if k.stage.Enriched? then old(cluster.db) else MarkFailedDb(old(cluster.db), m.documentId,
                                                                                        cluster.c.describe(error, m))
    ensures cluster.calm && !k.stage.Enriched? && m.documentId in cluster.db.jobs ==>
              && cluster.db.jobs[m.documentId].status == Failed
              && IsCutOf(cluster.db.jobs[m.documentId].error, cluster.c.describe(error, m))
  {
    hide Inv, Run, TallyBy, Foreign, Enabled, Apply, Grows, Parked, Past, MarkFailedDb;
    if k.stage.Enriched? {
      ghost var s := cluster.Now();
      GrowsItself(s);
      cluster.Sound();
      SkipEnabled(cluster.c, s, w, k, m.documentId);
      GrowsByStep(cluster.c, s, s, SkipMarkFailed(w));
      cluster.Local(SkipMarkFailed(w));
    } else {
      ghost var landed, tables := MarkJobFailed(cluster, w, k, m.documentId, cluster.c.describe(error, m));
    }
  }

  // ----- the consume/commit loop ----------------------------------------------------------------

  lemma JoinEnabled(c: Config, s: State, w: nat, g: Stage)
    requires w !in s.workers
    ensures Enabled(c, s, Join(w, g))
    ensures Apply(c, s, Join(w, g)) == s.(workers := s.workers[w := Worker(g, s.committed.At(g), "", Ready)])
  {
  }

  lemma DeliverEnabled(c: Config, s: State, w: nat, draw: Id)
    requires At(s, w, Ready) && draw !in s.minted
    ensures Enabled(c, s, Deliver(w, draw))
    ensures var t := Apply(c, s, Deliver(w, draw));
            && SameStores(t, s) && t.minted == s.minted + {draw}
            && Busy(t, w, s.workers[w].(draw := draw, phase := Opened), Record(s, w))
  {
    assert [draw][0] == draw;
    assert (set i | i in [draw]) == {draw};
  }

  lemma OffsetEnabled(c: Config, s: State, w: nat)
    requires w in s.workers && s.workers[w].phase.Ready?
    ensures Enabled(c, s, CommitOffset(w))
    ensures Apply(c, s, CommitOffset(w)) == s.(committed := s.committed.With(s.workers[w].stage, s.workers[w].pos))
  {
  }

  /** Everything from `from` up to the consumer's position is dealt with. */
  ghost predicate Covered(s: State, g: Stage, from: nat, upto: nat) {
    upto <= |s.logs.At(g)| && forall i :: from <= i < upto ==> Dealt(s, g, s.logs.At(g)[i])
  }

  lemma StillCovered(s: State, t: State, g: Stage, from: nat, upto: nat)
    requires Covered(s, g, from, upto) && Grows(s, t)
    ensures Covered(t, g, from, upto)
  {
    hide Grows, Dealt;
    assert s.logs.At(g) <= t.logs.At(g) by { assert PerGrows(s.logs, t.logs) by { LogsGrow(s, t); } }
    forall i | from <= i < upto
      ensures Dealt(t, g, t.logs.At(g)[i])
    {
      StillDealt(s, t, g, s.logs.At(g)[i]);
    }
  }

  lemma LogsGrow(s: State, t: State)
    requires Grows(s, t)
    ensures PerGrows(s.logs, t.logs)
  {
  }

  lemma CoveredOneMore(s: State, t: State, w: nat, g: Stage, k: Worker, m: Envelope, from: nat)
    requires Covered(s, g, from, k.pos) && Busy(s, w, k, m) && k.stage == g && Grows(s, t) && Dealt(t, g, m)
    ensures Covered(t, g, from, k.pos + 1)
  {
    StillCovered(s, t, g, from, k.pos);
    LogsGrow(s, t);
    assert s.logs.At(g) <= t.logs.At(g);
    hide Grows, Dealt;
  }

  /** The consumer waits for its next record at `pos`. */
  predicate Waiting(s: State, w: nat, g: Stage, pos: nat) {
    w in s.workers && s.workers[w].stage == g && s.workers[w].pos == pos && s.workers[w].phase == Ready
  }

  lemma StillWaiting(s: State, t: State, w: nat, g: Stage, pos: nat)
    requires Waiting(s, w, g, pos) && Keeps(Consumer(w), s, t)
    ensures Waiting(t, w, g, pos)
  {
  }

  /** Every record from `from` up to the position is claimed for the group. */
  ghost predicate AllClaimed(s: State, g: Stage, from: nat, upto: nat) {
    upto <= |s.logs.At(g)| && forall i :: from <= i < upto ==> Claim(s.logs.At(g)[i].eventId, g) in s.db.ledger
  }

  lemma StillClaimed(s: State, t: State, g: Stage, from: nat, upto: nat)
    requires AllClaimed(s, g, from, upto) && Grows(s, t)
    ensures AllClaimed(t, g, from, upto)
  {
    LogsGrow(s, t);
    assert s.logs.At(g) <= t.logs.At(g);
    hide PerGrows, OutboxGrows, JobsKeepIdentity, ObjectsGrow, NewJobsAreFresh;
  }

  lemma OneMoreClaimed(s: State, t: State, w: nat, k: Worker, m: Envelope, from: nat)
    requires AllClaimed(s, k.stage, from, k.pos) && Busy(s, w, k, m) && Grows(s, t)
    requires Claim(m.eventId, k.stage) in t.db.ledger
    ensures AllClaimed(t, k.stage, from, k.pos + 1)
  {
    StillClaimed(s, t, k.stage, from, k.pos);
    LogsGrow(s, t);
    assert s.logs.At(k.stage) <= t.logs.At(k.stage);
    hide Grows;
  }

  /** Nothing in the state stands in the consumer's way: no other consumer of its group holds a claim,
      and every upload is usable. */
  ghost predicate Unhindered(c: Config, s: State, w: nat, g: Stage) {
    && AllUsable(c, s)
    && (forall v :: v in s.workers && v != w && s.workers[v].stage == g ==> !HoldsClaim(s.workers[v].phase))
  }

  /** A consumer moving alone does not get in its own way. */
  lemma StillUnhindered(c: Config, history: seq<Step>, after: seq<Step>, s: State, t: State, w: nat, g: Stage)
    requires ValidConfig(c)
    requires Run(c, Init(), history) == Some(s) && Run(c, Init(), after) == Some(t) && history <= after
    requires Foreign(after, Consumer(w)) == Foreign(history, Consumer(w)) && Grows(s, t)
    ensures Unhindered(c, s, w, g) ==> Unhindered(c, t, w, g)
  {
    hide Inv, Run, Foreign, Grows, AllUsable;
    InitInv(c);
    RunInv(c, Init(), history);
    OnlyMine(c, history, after, w, w + 1);
    forall v | v in t.workers && v != w
      ensures v in s.workers && t.workers[v] == s.workers[v]
    {
      OnlyMine(c, history, after, w, v);
    }
    if AllUsable(c, s) {
      AllStayUsable(c, s, t);
    }
  }

  lemma UnhinderedIsUnobstructed(c: Config, s: State, w: nat, k: Worker, m: Envelope)
    requires ValidConfig(c) && Reachable(c, s) && Busy(s, w, k, m) && Unhindered(c, s, w, k.stage)
    ensures !Obstructed(c, s, w)
  {
    hide Reachable, Inv, Readable, Extractable, AllUsable;
    ReachableInv(c, s);
    RecordTyped(c, s, w);
    UsableDocumentsAreReadable(c, s, w);
  }

  /** The next record, with a transaction about to be opened for it. */
  method FetchNext(cluster: Cluster, w: nat, g: Stage, ghost from: nat, pos: nat)
    returns (got: bool, k: Worker, m: Envelope)
    requires cluster.Valid() && Waiting(cluster.Now(), w, g, pos) && Covered(cluster.Now(), g, from, pos)
    modifies cluster
    ensures cluster.Valid() && Quietly(cluster.c, cluster.calm, w, old(cluster.history), cluster.history)
    ensures Grows(old(cluster.Now()), cluster.Now())
    ensures Covered(cluster.Now(), g, from, pos)
    ensures if got then Busy(cluster.Now(), w, k, m) && k.phase == Opened && k.stage == g && k.pos == pos
            else Waiting(cluster.Now(), w, g, pos)
    ensures cluster.calm ==> SameStores(old(cluster.Now()), cluster.Now()) && (got <==> pos < |old(cluster.logs.At(g))|)
  {
    hide Inv, Run, TallyBy, Foreign, Enabled, Apply, Grows, Keeps, Busy, Covered, Waiting;
    ghost var start := cluster.Now();
    cluster.Yield(Consumer(w));
    ghost var s := cluster.Now();
    StillWaiting(start, s, w, g, pos);
    StillCovered(start, s, g, from, pos);
    WaitingFacts(s, w, g, pos);
    got, k, m := false, Worker(g, pos, "", Ready), MakeEvent(DocumentEnriched("", "", None, None, None, 0, []), "", "",
                                                             "");
    if pos >= |cluster.logs.At(g)| {
      return;
    }
    got, m := true, cluster.logs.At(g)[pos];
    var draw := cluster.NewId({});
    DeliverEnabled(cluster.c, s, w, draw);
    cluster.Sound();
    GrowsByStep(cluster.c, start, s, Deliver(w, draw));
    cluster.Local(Deliver(w, draw));
    ghost var open := cluster.Now();
    GrowsNow(s, open);
    StillCovered(s, open, g, from, pos);
    DeliveredFacts(cluster.c, s, open, w, draw, m);
    k := cluster.workers[w];
  }

  /** One record: fetch, process, commit the offset after it.  Dies with the position uncommitted
      when a publish or the offset commit fails. */
  method ConsumeOne(cluster: Cluster, embedder: OpenAIEmbedder, llm: AnthropicLLM, metrics: WorkerMetrics, w: nat,
        g: Stage, ghost from: nat, pos: nat, ghost base: Per<Tally>)
    returns (alive: bool, upto: nat)
    requires cluster.Valid() && Waiting(cluster.Now(), w, g, pos) && Covered(cluster.Now(), g, from, pos)
    requires TallyBy(cluster.c, cluster.history, w) == Sum(base, metrics.counts)
    requires cluster.calm ==> cluster.committed.At(g) == pos
    modifies cluster, embedder, llm, metrics
    ensures cluster.Valid() && old(cluster.history) <= cluster.history && Grows(old(cluster.Now()), cluster.Now())
    ensures TallyBy(cluster.c, cluster.history, w) == Sum(base, metrics.counts)
    ensures cluster.calm ==> Foreign(cluster.history, Consumer(w)) == Foreign(old(cluster.history), Consumer(w))
    ensures Covered(cluster.Now(), g, from, upto) && pos <= upto <= pos + 1
    ensures if alive then Waiting(cluster.Now(), w, g, upto) else w !in cluster.workers
    ensures cluster.calm ==>
              && alive && cluster.committed.At(g) == upto
              && upto == if pos < |old(cluster.logs.At(g))| then pos + 1 else pos
    ensures cluster.calm && Unhindered(cluster.c, old(cluster.Now()), w, g) && (g.Extracted? ==> Capable(embedder, llm))
            && AllClaimed(old(cluster.Now()), g, from, pos) ==>
              AllClaimed(cluster.Now(), g, from, upto)
  {
    hide Inv, Run, TallyBy, Foreign, Enabled, Apply, Grows, Keeps, Busy, Past, Covered, Waiting, Dealt, Unhindered,
      AllClaimed, Obstructed, Capable, Sum;
    ghost var start := cluster.Now();
    var got, k, m := FetchNext(cluster, w, g, from, pos);
    alive, upto := true, pos;
    ghost var open := cluster.Now();
    if !got {
      if AllClaimed(start, g, from, pos) {
        StillClaimed(start, open, g, from, pos);
      }
      return;
    }
    if cluster.calm && Unhindered(cluster.c, start, w, g) {
      StillUnhindered(cluster.c, old(cluster.history), cluster.history, start, open, w, g);
      cluster.Sound();
      UnhinderedIsUnobstructed(cluster.c, open, w, k, m);
    }
    var disposition, ended := ProcessWithRetry(cluster, embedder, llm, metrics, w, k, m, base);
    ghost var t := cluster.Now();
    GrowsTrans(start, open, t);
    if disposition.Died? {
      StillCovered(open, t, g, from, pos);
      return false, pos;
    }
    DealtBy(t, g, m);
    CoveredOneMore(open, t, w, g, k, m, from);
    upto := pos + 1;
    PastWaiting(t, w, k);
    alive := CommitPosition(cluster, w, g, upto);
    GrowsTrans(start, t, cluster.Now());
    StillCovered(t, cluster.Now(), g, from, upto);
    if disposition.Handled? && AllClaimed(start, g, from, pos) {
      StillClaimed(start, open, g, from, pos);
      OneMoreClaimed(open, t, w, k, m, from);
      StillClaimed(t, cluster.Now(), g, from, upto);
    }
  }

  lemma WaitingFacts(s: State, w: nat, g: Stage, pos: nat)
    requires Waiting(s, w, g, pos)
    ensures w in s.workers && s.workers[w].stage == g && s.workers[w].pos == pos && s.workers[w].phase == Ready
    ensures pos < |s.logs.At(g)| ==> HasRecord(s, w) && Record(s, w) == s.logs.At(g)[pos]
  {
  }

  lemma GrowsNow(s: State, t: State)
    requires SameStores(s, t) && s.minted <= t.minted
    ensures Grows(s, t)
  {
    SameGrows(s, t);
  }

  lemma DeliveredFacts(c: Config, s: State, t: State, w: nat, draw: Id, m: Envelope)
    requires At(s, w, Ready) && Record(s, w) == m
    requires Busy(t, w, s.workers[w].(draw := draw, phase := Opened), m)
    ensures w in t.workers && Busy(t, w, t.workers[w], m) && t.workers[w].phase == Opened
    ensures t.workers[w].pos == s.workers[w].pos && t.workers[w].stage == s.workers[w].stage
  {
  }

  lemma DealtBy(s: State, g: Stage, m: Envelope)
    requires Claim(m.eventId, g) in s.db.ledger || m.NextAttempt() in s.logs.At(g) || m in s.dlqs.At(g)
    ensures Dealt(s, g, m)
  {
  }

  lemma PastWaiting(s: State, w: nat, k: Worker)
    requires Past(s, w, k)
    ensures Waiting(s, w, k.stage, k.pos + 1)
  {
  }

  method CommitPosition(cluster: Cluster, w: nat, g: Stage, pos: nat) returns (alive: bool)
    requires cluster.Valid() && Waiting(cluster.Now(), w, g, pos)
    modifies cluster
    ensures cluster.Valid() && Quietly(cluster.c, cluster.calm, w, old(cluster.history), cluster.history)
    ensures Grows(old(cluster.Now()), cluster.Now())
    ensures if alive then Waiting(cluster.Now(), w, g, pos) else w !in cluster.workers
    ensures cluster.calm ==> alive
    ensures alive ==> cluster.committed.At(g) == pos
  {
    hide Inv, Run, TallyBy, Foreign, Enabled, Apply, Grows, Keeps, Waiting;
    ghost var start := cluster.Now();
    cluster.Yield(Consumer(w));
    ghost var s := cluster.Now();
    StillWaiting(start, s, w, g, pos);
    WaitingFacts(s, w, g, pos);
    cluster.Sound();
    var failed := cluster.Fails();
    if failed {
      CrashEnabled(cluster.c, s, w);
      GrowsByStep(cluster.c, start, s, Crash(w));
      cluster.Local(Crash(w));
      return false;
    }
    OffsetEnabled(cluster.c, s, w);
    GrowsByStep(cluster.c, start, s, CommitOffset(w));
    cluster.CommitOffset(g, pos, CommitOffset(w));
    WaitingStill(s, cluster.Now(), w, g, pos);
    ghost var committed := cluster.Now();
    WaitingFacts(committed, w, g, pos);
    alive := AwaitAcknowledgement(cluster, w);
    GrowsTrans(start, committed, cluster.Now());
  }

  lemma WaitingStill(s: State, t: State, w: nat, g: Stage, pos: nat)
    requires Waiting(s, w, g, pos) && t.workers == s.workers
    ensures Waiting(t, w, g, pos)
  {
  }

  /** The worker loop, for at most `rounds` polls, from the group's committed offset.  Every record it
      moved past has been claimed, requeued or dead-lettered before its offset was committed, and its
      metrics say exactly which invocations it ended.  Left alone with nothing in its way, it claims
      every record it moves past. */
  method RunWorker(cluster: Cluster, embedder: OpenAIEmbedder, llm: AnthropicLLM, metrics: WorkerMetrics, w: nat,
        g: Stage, rounds: nat)
    returns (alive: bool, ghost from: nat, upto: nat)
    requires cluster.Valid() && w !in cluster.workers && metrics.counts == Per(NOTHING, NOTHING, NOTHING)
    modifies cluster, embedder, llm, metrics
    ensures cluster.Valid() && old(cluster.history) <= cluster.history && Grows(old(cluster.Now()), cluster.Now())
    ensures TallyBy(cluster.c, cluster.history, w) == Sum(TallyBy(cluster.c, old(cluster.history), w), metrics.counts)
    ensures from <= upto && Covered(cluster.Now(), g, from, upto)
    ensures alive <==> w in cluster.workers
    ensures cluster.calm ==> alive && from == old(cluster.committed.At(g)) && cluster.committed.At(g) == upto
    ensures cluster.calm && old(cluster.committed.At(g)) + rounds <= |old(cluster.logs.At(g))| ==> upto == from + rounds
    ensures cluster.calm && Unhindered(cluster.c, old(cluster.Now()), w, g)
            && (g.Extracted? ==> Capable(embedder, llm)) ==>
              AllClaimed(cluster.Now(), g, from, upto)
  {
    hide Inv, Run, TallyBy, Foreign, Enabled, Apply, Grows, Keeps, Covered, Waiting, Unhindered, AllClaimed, Capable,
      Sum;
    ghost var start := cluster.Now();
    ghost var base := TallyBy(cluster.c, cluster.history, w);
    SumNothing(base);
    from, upto := JoinGroup(cluster, w, g);
    alive := true;
    NothingToClaim(cluster.Now(), g, from);
    var round := 0;
    while round < rounds && alive
      invariant round <= rounds && from <= upto
      invariant cluster.Valid() && old(cluster.history) <= cluster.history && Grows(start, cluster.Now())
      invariant TallyBy(cluster.c, cluster.history, w) == Sum(base, metrics.counts)
      invariant cluster.calm ==> Foreign(cluster.history, Consumer(w)) == Foreign(old(cluster.history), Consumer(w))
      invariant Covered(cluster.Now(), g, from, upto)
      invariant if alive then Waiting(cluster.Now(), w, g, upto) else w !in cluster.workers
      invariant cluster.calm ==> alive && from == start.committed.At(g) && cluster.committed.At(g) == upto
      invariant cluster.calm && start.committed.At(g) + rounds <= |start.logs.At(g)| ==> upto == from + round
      invariant cluster.calm && Unhindered(cluster.c, start, w, g) && (g.Extracted? ==> Capable(embedder, llm)) ==>
                  AllClaimed(cluster.Now(), g, from, upto)
    {
      ghost var before := cluster.Now();
      LogLonger(start, before, g);
      if cluster.calm {
        StillUnhindered(cluster.c, old(cluster.history), cluster.history, start, before, w, g);
      }
      alive, upto := ConsumeOne(cluster, embedder, llm, metrics, w, g, from, upto, base);
      GrowsTrans(start, before, cluster.Now());
      round := round + 1;
    }
    if alive {
      WaitingFacts(cluster.Now(), w, g, upto);
    }
  }

  /** The consumer joins its group at the committed offset. */
  method JoinGroup(cluster: Cluster, w: nat, g: Stage) returns (ghost from: nat, upto: nat)
    requires cluster.Valid() && w !in cluster.workers
    modifies cluster
    ensures cluster.Valid() && Quietly(cluster.c, cluster.calm, w, old(cluster.history), cluster.history)
    ensures Grows(old(cluster.Now()), cluster.Now())
    ensures from == upto == cluster.committed.At(g) && Waiting(cluster.Now(), w, g, upto)
    ensures Covered(cluster.Now(), g, from, upto)
    ensures cluster.calm ==> SameStores(old(cluster.Now()), cluster.Now())
  {
    hide Inv, Run, TallyBy, Foreign, Enabled, Apply, Grows, Keeps, Covered, Waiting;
    ghost var start := cluster.Now();
    cluster.Yield(Consumer(w));
    ghost var s := cluster.Now();
    NotMember(start, s, w);
    cluster.Sound();
    JoinEnabled(cluster.c, s, w, g);
    GrowsByStep(cluster.c, start, s, Join(w, g));
    cluster.Local(Join(w, g));
    upto := cluster.committed.At(g);
    from := upto;
    Joined(cluster.c, s, cluster.Now(), w, g);
  }

  lemma SumNothing(p: Per<Tally>)
    ensures Sum(p, Per(NOTHING, NOTHING, NOTHING)) == p
  {
  }

  lemma NothingToClaim(s: State, g: Stage, from: nat)
    requires Covered(s, g, from, from)
    ensures AllClaimed(s, g, from, from)
  {
  }

  lemma NotMember(s: State, t: State, w: nat)
    requires Keeps(Consumer(w), s, t) && w !in s.workers
    ensures w !in t.workers
  {
  }

  lemma LogLonger(s: State, t: State, g: Stage)
    requires Grows(s, t)
    ensures |s.logs.At(g)| <= |t.logs.At(g)|
  {
    assert s.logs.At(g) <= t.logs.At(g);
  }

  lemma Joined(c: Config, s: State, t: State, w: nat, g: Stage)
    requires Inv(c, s) && t == s.(workers := s.workers[w := Worker(g, s.committed.At(g), "", Ready)])
    ensures Waiting(t, w, g, s.committed.At(g)) && Covered(t, g, s.committed.At(g), s.committed.At(g))
  {
    hide StoresInv, EventsInv, ResultsInv, VectorsInv, RelayInv, WorkersInv, MessagesOk, PositionsOk, Dealt;
    assert SafeFrom(s.logs.At(g), s.dlqs.At(g), s.db.ledger, g, s.committed.At(g));
  }
}
