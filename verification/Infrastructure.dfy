/** The shared services every process works against: database, broker, object store, vector store.

    Each call changes one store by what the caller hands over and names the protocol step it is; the
    call may be made only where that step has exactly this effect on the stores.  So code that keeps
    to these contracts only ever produces runs of the protocol, and every guarantee proved of all
    runs holds of it.  Between two calls of a process, `Yield` lets all the others move. */
module Infrastructure {
  import opened Topics
  import opened Events
  import opened PointIds
  import opened Model
  import opened Sessions
  import opened Invariant
  import opened WorkSteps
  import opened History
  import opened Tallies

  // ----- who moves -------------------------------------------------------------------------

  datatype Process = Client | Relay(r: nat) | Consumer(w: nat)

  function Actor(step: Step): Process {
    if IsGatewayStep(step) then Client else if IsRelayStep(step) then Relay(step.r) else Consumer(step.w)
  }

  /** Nothing happened to the process's own state. */
  predicate Keeps(me: Process, s: State, t: State) {
    match me
    case Client => true
    case Relay(r) => (r in s.relays <==> r in t.relays) && (r in s.relays ==> t.relays[r] == s.relays[r])
    case Consumer(w) => (w in s.workers <==> w in t.workers) && (w in s.workers ==> t.workers[w] == s.workers[w])
  }

  lemma RelayKeeps(c: Config, s: State, step: Step, me: Process)
    requires IsRelayStep(step) && RelayEnabled(c, s, step) && me != Relay(step.r)
    ensures Keeps(me, s, ApplyRelay(c, s, step))
  {
    hide Lockable, Bump;
  }

  lemma MembershipKeeps(c: Config, s: State, step: Step, me: Process)
    requires IsMembershipStep(step) && MembershipEnabled(c, s, step) && me != Consumer(step.w)
    ensures Keeps(me, s, ApplyMembership(c, s, step))
  {
    hide Fresh;
  }

  lemma CommitKeeps(c: Config, s: State, w: nat, db: Db, acked: bool, me: Process)
    requires HasRecord(s, w) && me != Consumer(w)
    ensures Keeps(me, s, AfterCommit(c, s, w, db, acked))
  {
  }

  lemma ClaimingKeeps(c: Config, s: State, step: Step, me: Process)
    requires IsClaimingStep(step) && ClaimingEnabled(c, s, step) && me != Consumer(step.w)
    ensures Keeps(me, s, ApplyClaiming(c, s, step))
  {
    hide KeyLocked;
    match step
    case InsertClaim(w) =>
    case SkipDuplicate(w) =>
    case LoadJob(w) =>
    case CommitNoJob(w, acked) =>
      hide AfterCommit;
      CommitKeeps(c, s, w, WithClaim(s, w), acked, me);
  }

  lemma ExtractionKeeps(c: Config, s: State, step: Step, me: Process)
    requires IsExtractionStep(step) && ExtractionEnabled(c, s, step) && me != Consumer(step.w)
    ensures Keeps(me, s, ApplyExtraction(c, s, step))
  {
    match step
    case Parse(w) =>
    case SaveText(w) =>
    case CommitExtraction(w, at, acked) =>
      hide ExtractionDb, AfterCommit;
      CommitKeeps(c, s, w, ExtractionDb(s, w, at), acked, me);
  }

  lemma EnrichmentKeeps(c: Config, s: State, step: Step, me: Process)
    requires IsEnrichmentStep(step) && EnrichmentEnabled(c, s, step) && me != Consumer(step.w)
    ensures Keeps(me, s, ApplyEnrichment(c, s, step))
  {
    hide PutPoints;
    match step
    case ReadChunks(w) =>
    case Embed(w, vectors) =>
    case Upsert(w, upto) =>
    case CommitEnrichment(w, classification, summary, at, acked) =>
      hide EnrichmentDb, AfterCommit;
      CommitKeeps(c, s, w, EnrichmentDb(s, w, classification, summary, at), acked, me);
    case CommitProjection(w, acked) =>
      hide ProjectionDb, AfterCommit;
      CommitKeeps(c, s, w, ProjectionDb(s, w), acked, me);
  }

  lemma FailureKeeps(c: Config, s: State, step: Step, me: Process)
    requires IsFailureStep(step) && FailureEnabled(c, s, step) && me != Consumer(step.w)
    ensures Keeps(me, s, ApplyFailure(c, s, step))
  {
    hide MarkFailedDb;
  }

  /** A step leaves every process but its own alone. */
  lemma OthersKeep(c: Config, s: State, step: Step, me: Process)
    requires Enabled(c, s, step) && Actor(step) != me
    ensures Keeps(me, s, Apply(c, s, step))
  {
    hide Keeps, GatewayEnabled, RelayEnabled, MembershipEnabled, ClaimingEnabled, ExtractionEnabled,
      EnrichmentEnabled, FailureEnabled;
    hide ApplyGateway, ApplyRelay, ApplyMembership, ApplyClaiming, ApplyExtraction, ApplyEnrichment, ApplyFailure;
    if IsGatewayStep(step) { GatewayKeeps(c, s, step, me); }
    else if IsRelayStep(step) { RelayKeeps(c, s, step, me); }
    else if IsMembershipStep(step) { MembershipKeeps(c, s, step, me); }
    else if IsClaimingStep(step) { ClaimingKeeps(c, s, step, me); }
    else if IsExtractionStep(step) { ExtractionKeeps(c, s, step, me); }
    else if IsEnrichmentStep(step) { EnrichmentKeeps(c, s, step, me); }
    else { FailureKeeps(c, s, step, me); }
  }

  lemma GatewayKeeps(c: Config, s: State, step: Step, me: Process)
    requires IsGatewayStep(step) && GatewayEnabled(c, s, step)
    ensures Keeps(me, s, ApplyGateway(c, s, step))
  {
    hide Fresh, Keeps, Enqueue, NewJob, IngestedEvent;
    SameProcessTable(me, s, ApplyGateway(c, s, step));
  }

  lemma SameProcessTable(me: Process, s: State, t: State)
    requires s.workers == t.workers && s.relays == t.relays
    ensures Keeps(me, s, t)
  {
  }

  /** How many steps of a history are not the process's own. */
  function Foreign(history: seq<Step>, me: Process): nat {
    if history == [] then 0
    else Foreign(history[..|history| - 1], me) + if Actor(history[|history| - 1]) == me then 0 else 1
  }

  lemma ForeignAppend(history: seq<Step>, step: Step, me: Process)
    ensures Foreign(history + [step], me) == Foreign(history, me) + if Actor(step) == me then 0 else 1
  {
    assert (history + [step])[..|history|] == history;
  }

  /** What one more step does to the history and to what is counted of it. */
  ghost predicate Recorded(c: Config, before: State, history: seq<Step>, step: Step, after: seq<Step>) {
    && after == history + [step]
    && (forall w :: TallyBy(c, after, w) ==
          if IsOutcome(step) && step.w == w then Counting(c, before, step,
                                                          TallyBy(c, history, w)) else TallyBy(c, history, w))
    && (forall me :: Foreign(after, me) == Foreign(history, me) + if Actor(step) == me then 0 else 1)
  }

  /** The history went on without consumer `w` ending an invocation, and in a calm cluster without
      anybody else. */
  ghost predicate Quietly(c: Config, calm: bool, w: nat, history: seq<Step>, after: seq<Step>) {
    && history <= after && TallyBy(c, after, w) == TallyBy(c, history, w)
    && (calm ==> Foreign(after, Consumer(w)) == Foreign(history, Consumer(w)))
  }

  // ----- effects on the stores -------------------------------------------------------------

  predicate SameStores(s: State, t: State) {
    && s.db == t.db && s.logs == t.logs && s.dlqs == t.dlqs && s.committed == t.committed
    && s.objects == t.objects && s.points == t.points
  }

  function Appended(s: State, topic: Topic, message: Envelope): State {
    match topic
    case Pipeline(g) => s.(logs := s.logs.With(g, s.logs.At(g) + [message]))
    case DeadLetter(g) => s.(dlqs := s.dlqs.With(g, s.dlqs.At(g) + [message]))
  }

  /** Each point written under its own id, later ones over earlier ones. */
  function Overwritten(store: Points, batch: seq<Point>): Points {
    if batch == [] then store
    else
      var last := batch[|batch| - 1];
      Overwritten(store, batch[..|batch| - 1])[PointName(last.documentId, last.chunkIndex) := last]
  }

  // ----- the services ----------------------------------------------------------------------

  class Cluster {
    const c: Config
    const calm: bool     // no other process moves and no call fails

    var db: Db
    var logs: Per<seq<Envelope>>
    var dlqs: Per<seq<Envelope>>
    var committed: Per<nat>
    var objects: map<Uri, Bytes>
    var points: map<string, Point>

    // the process table: where every consumer and relay stands
    var workers: map<nat, Worker>
    var relays: map<nat, Batch>
    var minted: set<Id>
    var rollbacks: map<Id, nat>
    var flow: Per<Flow>

    ghost var history: seq<Step>

    function Now(): State
      reads this
    {
      State(db, logs, dlqs, committed, objects, points, workers, relays, minted, rollbacks, flow)
    }

    /** The state is the one the recorded history leads to. */
    ghost predicate Valid()
      reads this
    {
      ValidConfig(c) && Run(c, Init(), history) == Some(Now())
    }

    constructor (c: Config, calm: bool)
      requires ValidConfig(c)
      ensures Valid() && history == [] && this.c == c && this.calm == calm && Now() == Init()
    {
      var s := Init();
      this.c, this.calm := c, calm;
      db, logs, dlqs, committed, objects, points := s.db, s.logs, s.dlqs, s.committed, s.objects, s.points;
      workers, relays, minted, rollbacks, flow := s.workers, s.relays, s.minted, s.rollbacks, s.flow;
      history := [];
    }

    lemma Sound()
      requires Valid()
      ensures Reachable(c, Now()) && Inv(c, Now())
    {
      hide Inv, Run;
      ReachableInv(c, Now());
    }

    /** The process-table half of a step; the caller has done the stores. */
    method Note(step: Step, before: State)
      requires ValidConfig(c) && Run(c, Init(), history) == Some(before)
      requires Enabled(c, before, step) && SameStores(Apply(c, before, step), Now())
      modifies this
      ensures Valid() && Now() == Apply(c, before, step) && Recorded(c, before, old(history), step, history)
    {
      hide Enabled, Apply, Run, TallyBy, Counting, Foreign, Actor;
      RunAppend(c, Init(), history, step);
      forall w {
        TallyAppend(c, history, step, w);
      }
      forall me {
        ForeignAppend(history, step, me);
      }
      var after := Apply(c, before, step);
      workers, relays, minted := after.workers, after.relays, after.minted;
      rollbacks, flow := after.rollbacks, after.flow;
      history := history + [step];
    }

    /** A step that changes no store: opening a transaction, reading, giving up. */
    method Local(step: Step)
      requires Valid() && Enabled(c, Now(), step) && SameStores(Apply(c, Now(), step), Now())
      modifies this
      ensures Valid() && Now() == Apply(c, old(Now()), step) && Recorded(c, old(Now()), old(history), step, history)
    {
      hide Enabled, Apply, Run, Recorded;
      Note(step, Now());
    }

    method Publish(topic: Topic, message: Envelope, step: Step)
      requires Valid() && Enabled(c, Now(), step)
      requires SameStores(Apply(c, Now(), step), Appended(Now(), topic, message))
      modifies this
      ensures Valid() && Now() == Apply(c, old(Now()), step) && Recorded(c, old(Now()), old(history), step, history)
    {
      hide Enabled, Apply, Run, Recorded;
      var before := Now();
      match topic {
        case Pipeline(g) => logs := logs.With(g, logs.At(g) + [message]);
        case DeadLetter(g) => dlqs := dlqs.With(g, dlqs.At(g) + [message]);
      }
      Note(step, before);
    }

    /** COMMIT: all staged writes take effect at once. */
    method Commit(writes: seq<Write>, step: Step)
      requires Valid() && Enabled(c, Now(), step)
      requires SameStores(Apply(c, Now(), step), Now().(db := ApplyWrites(db, writes)))
      modifies this
      ensures Valid() && Now() == Apply(c, old(Now()), step) && Recorded(c, old(Now()), old(history), step, history)
    {
      hide Enabled, Apply, Run, Recorded, ApplyWrites;
      var before := Now();
      db := ApplyWrites(db, writes);
      Note(step, before);
    }

    method PutObject(uri: Uri, data: Bytes, step: Step)
      requires Valid() && Enabled(c, Now(), step)
      requires SameStores(Apply(c, Now(), step), Now().(objects := objects[uri := data]))
      modifies this
      ensures Valid() && Now() == Apply(c, old(Now()), step) && Recorded(c, old(Now()), old(history), step, history)
    {
      hide Enabled, Apply, Run, Recorded;
      var before := Now();
      objects := objects[uri := data];
      Note(step, before);
    }

    /** The object behind a URI, if reading it finds one. */
    method ReadObject(uri: Uri) returns (data: Option<Bytes>)
      ensures data == if Readable(objects, uri) then Some(objects[uri]) else None
    {
      data := if Readable(objects, uri) then Some(objects[uri]) else None;
    }

    method UpsertPoints(batch: seq<Point>, step: Step)
      requires Valid() && Enabled(c, Now(), step)
      requires SameStores(Apply(c, Now(), step), Now().(points := Overwritten(points, batch)))
      modifies this
      ensures Valid() && Now() == Apply(c, old(Now()), step) && Recorded(c, old(Now()), old(history), step, history)
    {
      hide Enabled, Apply, Run, Recorded, Overwritten;
      var before := Now();
      points := Overwritten(points, batch);
      Note(step, before);
    }

    method CommitOffset(g: Stage, offset: nat, step: Step)
      requires Valid() && Enabled(c, Now(), step)
      requires SameStores(Apply(c, Now(), step), Now().(committed := committed.With(g, offset)))
      modifies this
      ensures Valid() && Now() == Apply(c, old(Now()), step) && Recorded(c, old(Now()), old(history), step, history)
    {
      hide Enabled, Apply, Run, Recorded;
      var before := Now();
      committed := committed.With(g, offset);
      Note(step, before);
    }

    /** Whether an external call fails. */
    method Fails() returns (failed: bool)
      ensures calm ==> !failed
    {
      failed := *;
      failed := failed && !calm;
    }

    /** A new UUID. */
    method NewId(drawn: set<Id>) returns (id: Id)
      ensures id !in minted && id !in drawn
    {
      ghost var unused := UndrawnId(minted + drawn);
      id :| id !in minted + drawn;
    }

    /** Another process takes a step, if it is one it can take now. */
    method LetMove(step: Step, me: Process)
      requires Valid()
      modifies this
      ensures Valid() && old(history) <= history
      ensures Keeps(me, old(Now()), Now()) && Grows(old(Now()), Now())
      ensures me.Consumer? ==> TallyBy(c, history, me.w) == TallyBy(c, old(history), me.w)
    {
      hide Run, Enabled, Apply, Inv, Keeps, Grows, TallyBy, Foreign, Counting, Actor, IsOutcome;
      var before := Now();
      GrowsItself(before);
      KeepsItself(me, before);
      if Actor(step) != me && Enabled(c, before, step) {
        Sound();
        MoveFacts(c, before, step, me);
        var after := Apply(c, before, step);
        db, logs, dlqs, committed := after.db, after.logs, after.dlqs, after.committed;
        objects, points := after.objects, after.points;
        Note(step, before);
      }
    }

    /** All other processes may take any number of steps. */
    method Yield(me: Process)
      requires Valid()
      modifies this
      ensures Valid() && old(history) <= history
      ensures Keeps(me, old(Now()), Now()) && Grows(old(Now()), Now())
      ensures calm ==> Now() == old(Now()) && history == old(history)
      ensures me.Consumer? ==> Quietly(c, calm, me.w, old(history), history)
    {
      hide Run, Enabled, Apply, Inv, Keeps, Grows, TallyBy, Foreign, Counting;
      ghost var start := Now();
      GrowsItself(start);
      KeepsItself(me, start);
      var others: seq<Step> := *;
      if calm { others := []; }
      var i := 0;
      while i < |others|
        invariant Valid() && old(history) <= history
        invariant Keeps(me, start, Now()) && Grows(start, Now())
        invariant calm ==> others == [] && Now() == start && history == old(history)
        invariant me.Consumer? ==> TallyBy(c, history, me.w) == TallyBy(c, old(history), me.w)
      {
        ghost var before := Now();
        LetMove(others[i], me);
        GrowsTrans(start, before, Now());
        KeepsTrans(me, start, before, Now());
        i := i + 1;
      }
    }
  }

  lemma GrowsByStep(c: Config, start: State, s: State, step: Step)
    requires Inv(c, s) && Enabled(c, s, step) && Grows(start, s)
    ensures Grows(start, Apply(c, s, step))
  {
    hide Inv, Enabled, Apply, Grows;
    StepGrows(c, s, step);
    GrowsTrans(start, s, Apply(c, s, step));
  }

  lemma SameJobs(c: Config, s: State, step: Step, w: nat)
    requires Enabled(c, s, step) && Actor(step) == Consumer(w)
    ensures Apply(c, s, step).db.jobs.Keys == s.db.jobs.Keys
  {
    hide Enabled, Apply;
    NoNewJobs(c, s, step);
  }

  lemma MoveFacts(c: Config, s: State, step: Step, me: Process)
    requires Inv(c, s) && Enabled(c, s, step) && Actor(step) != me
    ensures Keeps(me, s, Apply(c, s, step)) && Grows(s, Apply(c, s, step))
    ensures me.Consumer? && IsOutcome(step) ==> step.w != me.w
  {
    hide Inv, Enabled, Apply, Keeps, Grows;
    StepGrows(c, s, step);
    OthersKeep(c, s, step, me);
  }

  lemma GrowsItself(s: State)
    ensures Grows(s, s)
  {
    SameGrows(s, s);
  }

  lemma KeepsItself(me: Process, s: State)
    ensures Keeps(me, s, s)
  {
  }

  /** Along a history of its own steps only, a consumer leaves all others where they were and creates
      no job. */
  lemma {:induction false} OnlyMine(c: Config, history: seq<Step>, after: seq<Step>, w: nat, v: nat)
    requires Run(c, Init(), after).Some? && history <= after && v != w
    requires Foreign(after, Consumer(w)) == Foreign(history, Consumer(w))
    ensures Run(c, Init(), history).Some?
    ensures var s := Run(c, Init(), history).value;
            var t := Run(c, Init(), after).value;
            Keeps(Consumer(v), s, t) && t.db.jobs.Keys == s.db.jobs.Keys
    decreases |after|
  {
    hide Enabled, Apply, Keeps, Actor;
    if history == after {
      KeepsItself(Consumer(v), Run(c, Init(), after).value);
    } else {
      var last := |after| - 1;
      ForeignGrows(history, after[..last], Consumer(w));
      OnlyMine(c, history, after[..last], w, v);
      var before := Run(c, Init(), after[..last]).value;
      OwnerOfStep(after[last], w, v);
      OthersKeep(c, before, after[last], Consumer(v));
      SameJobs(c, before, after[last], w);
      KeepsTrans(Consumer(v), Run(c, Init(), history).value, before, Run(c, Init(), after).value);
    }
  }

  lemma OwnerOfStep(step: Step, w: nat, v: nat)
    requires Actor(step) == Consumer(w) && v != w
    ensures Actor(step) != Consumer(v)
  {
  }

  lemma {:induction false} ForeignGrows(history: seq<Step>, after: seq<Step>, me: Process)
    requires history <= after
    ensures Foreign(history, me) <= Foreign(after, me)
  {
    if |history| < |after| {
      ForeignGrows(history, after[..|after| - 1], me);
    } else {
      assert history == after;
    }
  }

  lemma KeepsTrans(me: Process, s: State, t: State, u: State)
    requires Keeps(me, s, t) && Keeps(me, t, u)
    ensures Keeps(me, s, u)
  {
  }
}
