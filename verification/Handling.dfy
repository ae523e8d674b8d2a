/** What the three handlers share: the consumer's place in the protocol, the guard at the top of a
    handler, loading the job, and what it takes for the handler's transaction to be committed. */
module Handling {
  import opened Topics
  import opened Events
  import opened Model
  import opened Sessions
  import opened Invariant
  import opened Frames
  import opened Commits
  import opened History
  import opened Infrastructure
  import opened Tallies

  datatype Outcome = Returned | Threw(error: Error)

  // ----- a consumer at its record -------------------------------------------------------------

  /** Consumer `w` stands as `k` says, at message `m`. */
  predicate Busy(s: State, w: nat, k: Worker, m: Envelope) {
    HasRecord(s, w) && s.workers[w] == k && Record(s, w) == m
  }

  lemma StillBusy(s: State, t: State, w: nat, k: Worker, m: Envelope)
    requires Busy(s, w, k, m) && Keeps(Consumer(w), s, t) && Grows(s, t)
    ensures Busy(t, w, k, m)
  {
    assert s.logs.At(k.stage) <= t.logs.At(k.stage);
  }

  /** The consumer moved to another phase and nothing else changed. */
  lemma BusyIn(s: State, w: nat, k: Worker, m: Envelope, p: Phase)
    requires Busy(s, w, k, m)
    ensures Busy(SetPhase(s, w, p), w, k.(phase := p), m) && SameStores(SetPhase(s, w, p), s)
    ensures Grows(s, SetPhase(s, w, p))
  {
    SameGrows(s, SetPhase(s, w, p));
  }

  /** The handler is somewhere in its work, with its transaction open. */
  predicate AtWork(s: State, w: nat, k: Worker, m: Envelope) {
    && HasRecord(s, w) && Record(s, w) == m && InTransaction(s.workers[w].phase)
    && s.workers[w] == k.(phase := s.workers[w].phase)
  }

  /** What can stop a handler when no call fails: the wrong event type, a key held by an open
      transaction, or bytes that are missing, stored under a name that cannot be read back, or refused by
      `extract_text`. */
  predicate Obstructed(c: Config, s: State, w: nat)
    requires HasRecord(s, w)
  {
    var p := Record(s, w).payload;
    || p.EventType() != s.workers[w].stage
    || KeyLocked(s, w)
    || (p.DocumentIngested? && !Extractable(c, s.objects, p))
    || (p.DocumentExtracted? && !Readable(s.objects, p.textUri))
  }

  /** Which of these it is that makes the handler raise `error`. */
  predicate Provokes(c: Config, s: State, w: nat, error: Error)
    requires HasRecord(s, w)
  {
    var p := Record(s, w).payload;
    match error
    case AssertionError => p.EventType() != s.workers[w].stage
    case DatabaseError => KeyLocked(s, w)
    case StorageError =>
      || (p.DocumentIngested? && !Readable(s.objects, p.storageUri))
      || (p.DocumentExtracted? && !Readable(s.objects, p.textUri))
    case ExtractionError =>
      p.DocumentIngested? && Readable(s.objects, p.storageUri)
      && !c.parses(p.filename, p.contentType, s.objects[p.storageUri])
    case _ => false
  }

  lemma LockProvokes(c: Config, s: State, w: nat)
    requires HasRecord(s, w) && KeyLocked(s, w)
    ensures Provokes(c, s, w, DatabaseError)
  {
    hide KeyLocked;
  }

  lemma ProvokedMeansObstructed(c: Config, s: State, w: nat, error: Error)
    requires HasRecord(s, w) && Provokes(c, s, w, error)
    ensures Obstructed(c, s, w)
  {
    hide KeyLocked;
  }

  // ----- commits ------------------------------------------------------------------------------

  /** The same commit with its acknowledgement lost; an empty transaction has nothing to lose, so
      for it this is an ordinary failure. */
  function Unacked(step: Step): Step {
    match step
    case CommitNoJob(w, _) => CommitNoJob(w, false)
    case CommitExtraction(w, at, _) => CommitExtraction(w, at, false)
    case CommitEnrichment(w, classification, summary, at, _) => CommitEnrichment(w, classification, summary, at, false)
    case CommitProjection(w, _) => CommitProjection(w, false)
    case SkipDuplicate(w) => Raise(w)
    case _ => step
  }

  /** Committing `writes` is exactly the protocol step `step`, and leaves the event claimed. */
  ghost predicate CommitReady(c: Config, s: State, w: nat, writes: seq<Write>, step: Step) {
    && HasRecord(s, w) && InTransaction(s.workers[w].phase)
    && ClaimOf(s, w) in ApplyWrites(s.db, writes).ledger
    && IsOutcome(step) && step.w == w && Returns(step)
    && IsOutcome(Unacked(step)) && Unacked(step).w == w && !Returns(Unacked(step))
    && Enabled(c, s, step) && Apply(c, s, step) == Succeed(s.(db := ApplyWrites(s.db, writes)), w)
    && Enabled(c, s, Unacked(step)) && Apply(c, s, Unacked(step)) == Fail(c, s.(db := ApplyWrites(s.db, writes)), w)
  }

  /** Both ways a COMMIT of these writes can come back. */
  lemma ReadyEitherWay(c: Config, s: State, w: nat, writes: seq<Write>, step: Step, db: Db)
    requires HasRecord(s, w) && InTransaction(s.workers[w].phase) && db == ApplyWrites(s.db, writes)
    requires ClaimOf(s, w) in db.ledger
    requires IsOutcome(step) && step.w == w && Returns(step)
    requires IsOutcome(Unacked(step)) && Unacked(step).w == w && !Returns(Unacked(step))
    requires Enabled(c, s, step) && Apply(c, s, step) == AfterCommit(c, s, w, db, true)
    requires Enabled(c, s, Unacked(step)) && Apply(c, s, Unacked(step)) == AfterCommit(c, s, w, db, false)
    ensures CommitReady(c, s, w, writes, step)
  {
    hide Enabled, Apply, ApplyWrites, Succeed, Fail, Unacked;
  }

  lemma NoWrites(db: Db)
    ensures ApplyWrites(db, []) == db
  {
  }

  lemma OneWrite(db: Db, a: Write)
    ensures ApplyWrites(db, [a]) == ApplyWrite(db, a)
  {
    assert [a] == [] + [a];
    ApplyWritesAppend(db, [], a);
  }

  lemma TwoWrites(db: Db, a: Write, b: Write)
    ensures ApplyWrites(db, [a, b]) == ApplyWrite(ApplyWrite(db, a), b)
  {
    assert [a, b] == [a] + [b];
    ApplyWritesAppend(db, [a], b);
    OneWrite(db, a);
  }

  lemma FourWrites(db: Db, a: Write, b: Write, p: Write, q: Write)
    ensures ApplyWrites(db, [a, b, p, q]) == ApplyWrite(ApplyWrite(ApplyWrite(ApplyWrite(db, a), b), p), q)
  {
    assert [a, b, p] == [a, b] + [p] && [a, b, p, q] == [a, b, p] + [q];
    ApplyWritesAppend(db, [a, b], p);
    ApplyWritesAppend(db, [a, b, p], q);
    TwoWrites(db, a, b);
  }

  lemma FiveWrites(db: Db, a: Write, b: Write, p: Write, q: Write, r: Write)
    ensures ApplyWrites(db, [a, b, p, q, r]) == ApplyWrite(ApplyWrites(db, [a, b, p, q]), r)
  {
    assert [a, b, p, q, r] == [a, b, p, q] + [r];
    ApplyWritesAppend(db, [a, b, p, q], r);
  }

  /** What the four writes come to. */
  lemma FourInAll(db: Db, claim: Claim, d: Id, row: OutboxEvent, early: Status, late: Status)
    requires d in db.jobs
    ensures ApplyWrites(db, [InsertClaimRow(claim), SetStatus(d, early), InsertOutbox(row), SetStatus(d, late)])
         == db.(ledger := db.ledger + {claim}, outbox := db.outbox[row.eventId := row],
                jobs := db.jobs[d := db.jobs[d].(status := late)])
  {
    FourWrites(db, InsertClaimRow(claim), SetStatus(d, early), InsertOutbox(row), SetStatus(d, late));
    assert db.jobs[d := db.jobs[d].(status := early)][d := db.jobs[d].(status := late)]
        == db.jobs[d := db.jobs[d].(status := late)];
  }

  lemma DuplicateReady(c: Config, s: State, w: nat)
    requires At(s, w, Opened) && Record(s, w).payload.EventType() == s.workers[w].stage && ClaimOf(s, w) in s.db.ledger
    ensures CommitReady(c, s, w, [], SkipDuplicate(w))
  {
    NoWrites(s.db);
  }

  lemma NoJobReady(c: Config, s: State, w: nat)
    requires At(s, w, NoJob)
    ensures CommitReady(c, s, w, [InsertClaimRow(ClaimOf(s, w))], CommitNoJob(w, true))
  {
    OneWrite(s.db, InsertClaimRow(ClaimOf(s, w)));
  }

  // ----- the top of a handler -----------------------------------------------------------------

  /** The guard: on a first sighting the ledger row is staged and its key held; on a duplicate
      nothing is staged.  Waiting for another transaction's key may be given up. */
  method ClaimEvent(cluster: Cluster, w: nat, k: Worker, m: Envelope, session: Session)
    returns (outcome: Outcome, first: bool)
    requires cluster.Valid() && Busy(cluster.Now(), w, k, m) && k.phase == Opened
    requires m.payload.EventType() == k.stage && session.Valid() && session.staged == []
    modifies cluster, session
    ensures cluster.Valid() && Quietly(cluster.c, cluster.calm, w, old(cluster.history), cluster.history)
    ensures Grows(old(cluster.Now()), cluster.Now())
    ensures session.Valid()
    ensures outcome.Threw? ==> outcome.error != ValueError && Busy(cluster.Now(), w, k, m)
    ensures outcome.Returned? ==> (first <==> Claim(m.eventId, k.stage) !in cluster.db.ledger)
    ensures cluster.calm ==> SameStores(old(cluster.Now()), cluster.Now())
    ensures cluster.calm && outcome.Threw? ==> Provokes(cluster.c, old(cluster.Now()), w, outcome.error)
    ensures outcome.Returned? && !first ==>
              && Busy(cluster.Now(), w, k, m)
              && CommitReady(cluster.c, cluster.Now(), w, session.staged, SkipDuplicate(w))
    ensures outcome.Returned? && first ==>
              && Busy(cluster.Now(), w, k.(phase := Claimed), m)
              && session.staged == [InsertClaimRow(Claim(m.eventId, k.stage))]
  {
    hide Inv, Run, TallyBy, Foreign, Enabled, Apply, Grows, Keeps, Busy, CommitReady, KeyLocked, Provokes;
    ghost var start := cluster.Now();
    cluster.Yield(Consumer(w));
    BusyFacts(start, w, k, m);
    StillBusy(start, cluster.Now(), w, k, m);
    BusyFacts(cluster.Now(), w, k, m);
    first := false;
    outcome := Threw(DatabaseError);
    var failed := cluster.Fails();
    if failed || KeyLocked(cluster.Now(), w) {
      if KeyLocked(cluster.Now(), w) {
        LockProvokes(cluster.c, cluster.Now(), w);
      }
      return;
    }
    NoWrites(cluster.db);
    first := MarkProcessed(session, cluster.db, m.eventId, k.stage);
    outcome := Returned;
    ghost var ready := cluster.Now();
    if first {
      ClaimEnabled(cluster.c, ready, w);
      BusyIn(ready, w, k, m, Claimed);
      cluster.Local(InsertClaim(w));
      GrowsTrans(start, ready, cluster.Now());
    } else {
      DuplicateReady(cluster.c, ready, w);
    }
  }

  lemma BusyFacts(s: State, w: nat, k: Worker, m: Envelope)
    requires Busy(s, w, k, m)
    ensures HasRecord(s, w) && s.workers[w] == k && Record(s, w) == m
  {
  }

  lemma ClaimEnabled(c: Config, s: State, w: nat)
    requires At(s, w, Opened) && Record(s, w).payload.EventType() == s.workers[w].stage
    requires ClaimOf(s, w) !in s.db.ledger && !KeyLocked(s, w)
    ensures Enabled(c, s, InsertClaim(w)) && Apply(c, s, InsertClaim(w)) == SetPhase(s, w, Claimed)
  {
    hide KeyLocked;
  }

  /** The job row of the message's document, or nothing when there is none. */
  method LoadJobRow(cluster: Cluster, w: nat, k: Worker, m: Envelope) returns (outcome: Outcome, row: Option<Job>)
    requires cluster.Valid() && Busy(cluster.Now(), w, k, m) && k.phase == Claimed && !k.stage.Enriched?
    modifies cluster
    ensures cluster.Valid() && Quietly(cluster.c, cluster.calm, w, old(cluster.history), cluster.history)
    ensures Grows(old(cluster.Now()), cluster.Now())
    ensures outcome.Threw? ==> outcome.error != ValueError && Busy(cluster.Now(), w, k, m)
    ensures outcome.Returned? ==> (row.Some? <==> m.payload.documentId in cluster.db.jobs)
    ensures cluster.calm ==> outcome.Returned? && SameStores(old(cluster.Now()), cluster.Now())
    ensures outcome.Returned? && row.None? ==> Busy(cluster.Now(), w, k.(phase := NoJob), m)
    ensures outcome.Returned? && row.Some? ==>
              Busy(cluster.Now(), w, k.(phase := Loaded), m) && Is(cluster.Now(), m.payload.documentId, row.value)
  {
    hide Inv, Run, TallyBy, Foreign, Enabled, Apply, Grows, Keeps, Busy, Is;
    ghost var start := cluster.Now();
    cluster.Yield(Consumer(w));
    StillBusy(start, cluster.Now(), w, k, m);
    BusyFacts(cluster.Now(), w, k, m);
    outcome, row := Threw(DatabaseError), None;
    var failed := cluster.Fails();
    if failed {
      return;
    }
    outcome := Returned;
    ghost var ready := cluster.Now();
    var d := m.payload.documentId;
    if d in cluster.db.jobs {
      row := Some(cluster.db.jobs[d]);
    }
    LoadEnabled(cluster.c, ready, w);
    BusyIn(ready, w, k, m, if row.Some? then Loaded else NoJob);
    cluster.Local(LoadJob(w));
    IsItself(cluster.Now(), d);
    GrowsTrans(start, ready, cluster.Now());
  }

  lemma LoadEnabled(c: Config, s: State, w: nat)
    requires At(s, w, Claimed) && !s.workers[w].stage.Enriched?
    ensures Enabled(c, s, LoadJob(w))
    ensures Apply(c, s, LoadJob(w))
         == SetPhase(s, w, if Record(s, w).payload.documentId in s.db.jobs then Loaded else NoJob)
  {
  }

  /** The row loaded earlier is still the document's job, apart from status and results. */
  predicate Is(s: State, d: Id, job: Job) {
    d in s.db.jobs && SameIdentity(s.db.jobs[d], job)
  }

  lemma IsItself(s: State, d: Id)
    ensures d in s.db.jobs ==> Is(s, d, s.db.jobs[d])
  {
  }

  lemma StillIs(s: State, t: State, d: Id, job: Job)
    requires Is(s, d, job) && Grows(s, t)
    ensures Is(t, d, job)
  {
    hide PerGrows, OutboxGrows;
  }

  lemma StillAtWork(s: State, w: nat, k: Worker, m: Envelope, p: Phase)
    requires Busy(s, w, k.(phase := p), m) && InTransaction(p)
    ensures AtWork(s, w, k, m)
  {
  }

  /** Waiting for an external call: others move, and the call may fail. */
  method Await(cluster: Cluster, w: nat, k: Worker, m: Envelope, job: Job, ghost start: State) returns (failed: bool)
    requires cluster.Valid() && Busy(cluster.Now(), w, k, m) && Is(cluster.Now(), m.payload.documentId, job)
    requires Grows(start, cluster.Now())
    modifies cluster
    ensures cluster.Valid() && Quietly(cluster.c, cluster.calm, w, old(cluster.history), cluster.history)
    ensures Grows(start, cluster.Now())
    ensures Busy(cluster.Now(), w, k, m) && Is(cluster.Now(), m.payload.documentId, job)
    ensures cluster.calm ==> !failed && cluster.Now() == old(cluster.Now()) && cluster.history == old(cluster.history)
  {
    hide Inv, Run, TallyBy, Foreign, Enabled, Apply, Grows, Keeps, Busy, Is;
    ghost var before := cluster.Now();
    cluster.Yield(Consumer(w));
    StillBusy(before, cluster.Now(), w, k, m);
    StillIs(before, cluster.Now(), m.payload.documentId, job);
    GrowsTrans(start, before, cluster.Now());
    failed := cluster.Fails();
  }
}
