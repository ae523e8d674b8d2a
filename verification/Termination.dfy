/** Crash-free runs settle, within a bound that counts jobs, attempts and consumers.

    Each unpublished row and each reading of a message still to come is given the number of relay
    publishes and record outcomes it can still cause.  A group may have any number of consumers, all
    reading the whole topic; crashes, rollbacks, rebalances and new uploads are the steps left out. */
module Termination {
  import opened Topics
  import opened Events
  import opened Model
  import opened Invariant
  import opened Commits
  import opened Preservation
  import opened WorkSteps
  import opened Sums

  // ----- weights ---------------------------------------------------------------------------

  /** A message with `left` attempts left, read by one of `n` consumers: an outcome, and all `n` read
      the next attempt if it is requeued; success sets off `d` more. */
  function ReadingWeight(n: nat, d: nat, left: nat): nat {
    if left == 0 then d else 1 + n * ReadingWeight(n, d, left - 1)
  }

  function StagesAfter(g: Stage): nat {
    match g case Ingested => 2 case Extracted => 1 case Enriched => 0
  }

  /** One publish, and the first attempt read by each of the stage's consumers. */
  function RowWeight(c: Config, crew: Per<nat>, g: Stage): nat
    decreases StagesAfter(g), 1
  {
    1 + crew.At(g) * ReadingWeight(crew.At(g), Downstream(c, crew, g), c.maxAttempts)
  }

  /** What a claimed event of stage `g` still sets off: the row of the next stage. */
  function Downstream(c: Config, crew: Per<nat>, g: Stage): nat
    decreases StagesAfter(g), 0
  {
    if g.Enriched? then 0 else RowWeight(c, crew, Next(g))
  }

  function MessageWeight(c: Config, crew: Per<nat>, ledger: set<Claim>, g: Stage, m: Envelope): nat {
    ReadingWeight(crew.At(g), if Claim(m.eventId, g) in ledger then 0 else Downstream(c, crew, g),
                  if m.attempt < c.maxAttempts then c.maxAttempts - m.attempt else 0)
  }

  function LogWeight(c: Config, crew: Per<nat>, ledger: set<Claim>, g: Stage, log: Log, from: nat): nat
    decreases |log|
  {
    if |log| <= from then 0
    else LogWeight(c, crew, ledger, g, log[..|log| - 1], from) + MessageWeight(c, crew, ledger, g, log[|log| - 1])
  }

  ghost function RowsWeight(c: Config, crew: Per<nat>, outbox: Outbox, es: set<Id>): nat
    requires es <= outbox.Keys
  {
    if es == {} then 0
    else
      var e :| e in es;
      RowWeight(c, crew, outbox[e].payload.eventType) + RowsWeight(c, crew, outbox, es - {e})
  }

  predicate SentInBatch(relays: map<nat, Batch>, e: Id) {
    exists r, i :: r in relays && 0 <= i < relays[r].sent && i < |relays[r].ids| && relays[r].ids[i] == e
  }

  /** Rows the relay has still to publish. */
  ghost function Unsent(outbox: Outbox, published: set<Id>, relays: map<nat, Batch>): (es: set<Id>)
    ensures es <= outbox.Keys
  {
    set e | e in outbox && e !in published && !SentInBatch(relays, e)
  }

  // ----- the crew --------------------------------------------------------------------------

  function ReadersOf(workers: Workers, g: Stage): set<nat> {
    set w | w in workers && workers[w].stage == g
  }

  /** How many consumers each stage has. */
  predicate Staffed(s: State, crew: Per<nat>) {
    forall g: Stage :: |ReadersOf(s.workers, g)| == crew.At(g)
  }

  /** What a consumer has still to read. */
  function Reading(c: Config, crew: Per<nat>, ledger: set<Claim>, logs: Per<Log>, k: Worker): nat {
    LogWeight(c, crew, ledger, k.stage, logs.At(k.stage), k.pos)
  }

  function Readings(c: Config, crew: Per<nat>, ledger: set<Claim>, logs: Per<Log>, workers: Workers): map<nat, nat> {
    map w | w in workers :: Reading(c, crew, ledger, logs, workers[w])
  }

  /** All the publishes and record outcomes still to come. */
  ghost function Work(c: Config, s: State, crew: Per<nat>): nat {
    RowsWeight(c, crew, s.db.outbox, Unsent(s.db.outbox, s.db.published, s.relays))
    + Total(Readings(c, crew, s.db.ledger, s.logs, s.workers))
  }

  /** Neither a new document, nor a crash, rebalance or rolled-back batch. */
  predicate Calm(step: Step) {
    !step.SaveUpload? && !step.Ingest? && !step.RelayRollback? && !step.Join? && !step.Crash?
  }

  /** A row published or a record's outcome reached. */
  predicate IsProgress(step: Step) {
    || step.RelayPublish? || step.SkipDuplicate? || step.Requeue? || step.DeadLetterRecord?
    || (step.CommitNoJob? && step.acked) || (step.CommitExtraction? && step.acked)
    || (step.CommitEnrichment? && step.acked) || (step.CommitProjection? && step.acked)
  }

  // ----- weights change --------------------------------------------------------------------

  /** Less downstream, less weight: by at least the difference to nothing downstream. */
  lemma {:induction false} ReadingWeightGrows(n: nat, d: nat, left: nat)
    requires 1 <= n
    ensures ReadingWeight(n, 0, left) + d <= ReadingWeight(n, d, left)
    ensures left > 0 ==> 1 <= ReadingWeight(n, 0, left)
    decreases left
  {
    if left > 0 {
      ReadingWeightGrows(n, d, left - 1);
      TimesAtLeast(n, ReadingWeight(n, 0, left - 1), d, ReadingWeight(n, d, left - 1));
    }
  }

  lemma TimesAtLeast(n: nat, a: nat, d: nat, b: nat)
    requires 1 <= n && a + d <= b
    ensures n * a + d <= n * b
  {
    assert n * a + n * d == n * (a + d) <= n * b;
    assert d <= n * d;
  }

  lemma {:induction false} RowsWeightSplits(c: Config, crew: Per<nat>, outbox: Outbox, es: set<Id>, e: Id)
    requires e in es && es <= outbox.Keys
    ensures RowsWeight(c, crew, outbox, es)
         == RowWeight(c, crew, outbox[e].payload.eventType) + RowsWeight(c, crew, outbox, es - {e})
    decreases es
  {
    var x :| x in es && RowsWeight(c, crew, outbox, es)
      == RowWeight(c, crew, outbox[x].payload.eventType) + RowsWeight(c, crew, outbox, es - {x});
    if x != e {
      RowsWeightSplits(c, crew, outbox, es - {x}, e);
      RowsWeightSplits(c, crew, outbox, es - {e}, x);
      assert es - {x} - {e} == es - {e} - {x};
    }
  }

  lemma {:induction false} RowsWeightKeeps(c: Config, crew: Per<nat>, outbox: Outbox, outbox': Outbox, es: set<Id>)
    requires OutboxGrows(outbox, outbox') && es <= outbox.Keys && es <= outbox'.Keys
    ensures RowsWeight(c, crew, outbox', es) == RowsWeight(c, crew, outbox, es)
    decreases es
  {
    if es != {} {
      var x :| x in es;
      RowsWeightKeeps(c, crew, outbox, outbox', es - {x});
      RowsWeightSplits(c, crew, outbox, es, x);
      RowsWeightSplits(c, crew, outbox', es, x);
    }
  }

  lemma {:induction false} LogWeightFirst(c: Config, crew: Per<nat>, ledger: set<Claim>, g: Stage, log: Log, from: nat)
    requires from < |log|
    ensures LogWeight(c, crew, ledger, g, log, from)
         == MessageWeight(c, crew, ledger, g, log[from]) + LogWeight(c, crew, ledger, g, log, from + 1)
    decreases |log|
  {
    if from + 1 < |log| {
      LogWeightFirst(c, crew, ledger, g, log[..|log| - 1], from);
    } else {
      assert LogWeight(c, crew, ledger, g, log[..|log| - 1], from) == 0;
    }
  }

  lemma LogWeightAppend(c: Config, crew: Per<nat>, ledger: set<Claim>, g: Stage, log: Log, m: Envelope, from: nat)
    requires from <= |log|
    ensures LogWeight(c, crew, ledger, g, log + [m], from)
         == LogWeight(c, crew, ledger, g, log, from) + MessageWeight(c, crew, ledger, g, m)
  {
    assert (log + [m])[..|log|] == log;
  }

  /** More claims, less work; a claim for another group changes nothing. */
  lemma {:induction false} LogWeightShrinks(c: Config, crew: Per<nat>, ledger: set<Claim>, cl: Claim, g: Stage,
        log: Log, from: nat)
    requires 1 <= crew.At(g)
    ensures LogWeight(c, crew, ledger + {cl}, g, log, from) <= LogWeight(c, crew, ledger, g, log, from)
    decreases |log|
  {
    if from < |log| {
      LogWeightShrinks(c, crew, ledger, cl, g, log[..|log| - 1], from);
      var m := log[|log| - 1];
      hide RowWeight, Downstream;
      ReadingWeightGrows(crew.At(g), Downstream(c, crew, g),
                         if m.attempt < c.maxAttempts then c.maxAttempts - m.attempt else 0);
    }
  }

  lemma ReaderCounts(s: State, crew: Per<nat>, w: nat)
    requires Staffed(s, crew) && w in s.workers
    ensures 1 <= crew.At(s.workers[w].stage)
  {
    assert w in ReadersOf(s.workers, s.workers[w].stage);
  }

  lemma SameCrew(s: State, t: State, crew: Per<nat>)
    requires Staffed(s, crew) && t.workers.Keys == s.workers.Keys
    requires forall w :: w in s.workers ==> t.workers[w].stage == s.workers[w].stage
    ensures Staffed(t, crew)
  {
    forall g: Stage
      ensures ReadersOf(t.workers, g) == ReadersOf(s.workers, g)
    {
    }
  }

  // ----- steps that do no work -------------------------------------------------------------

  /** Same consumers at the same positions. */
  predicate SamePositions(s: State, t: State) {
    && t.workers.Keys == s.workers.Keys
    && forall w :: w in s.workers ==> t.workers[w].stage == s.workers[w].stage && t.workers[w].pos == s.workers[w].pos
  }

  lemma SameWork(c: Config, s: State, t: State, crew: Per<nat>)
    requires Staffed(s, crew) && SamePositions(s, t) && t.logs == s.logs && t.relays == s.relays
    requires t.db.outbox == s.db.outbox && t.db.published == s.db.published && t.db.ledger == s.db.ledger
    ensures Staffed(t, crew) && Work(c, t, crew) == Work(c, s, crew)
  {
    hide LogWeight, Unsent, Staffed;
    SameCrew(s, t, crew);
    assert Readings(c, crew, t.db.ledger, t.logs, t.workers) == Readings(c, crew, s.db.ledger, s.logs, s.workers);
  }

  /** Changing a phase, points, objects or job rows is no work. */
  lemma PhaseWork(c: Config, s: State, s1: State, crew: Per<nat>, w: nat, p: Phase)
    requires Staffed(s, crew) && w in s.workers && s1.workers == s.workers && s1.logs == s.logs && s1.relays == s.relays
    requires s1.db.outbox == s.db.outbox && s1.db.published == s.db.published && s1.db.ledger == s.db.ledger
    ensures Staffed(SetPhase(s1, w, p), crew) && Work(c, SetPhase(s1, w, p), crew) == Work(c, s, crew)
  {
    hide Work, Staffed;
    SameWork(c, s, SetPhase(s1, w, p), crew);
  }

  /** With the rows unchanged the bus decides. */
  lemma SameBus(c: Config, s: State, t: State, crew: Per<nat>)
    requires Staffed(s, crew) && t.workers == s.workers && t.logs == s.logs
    requires t.db.outbox == s.db.outbox && t.db.ledger == s.db.ledger
    requires Unsent(t.db.outbox, t.db.published, t.relays) == Unsent(s.db.outbox, s.db.published, s.relays)
    ensures Staffed(t, crew) && Work(c, t, crew) == Work(c, s, crew)
  {
    hide LogWeight, Unsent;
  }

  lemma LockUnsent(s: State, r: nat, ids: seq<Id>)
    requires r !in s.relays
    ensures Unsent(s.db.outbox, s.db.published, s.relays[r := Batch(ids, 0)])
         == Unsent(s.db.outbox, s.db.published, s.relays)
  {
    forall e
      ensures SentInBatch(s.relays[r := Batch(ids, 0)], e) <==> SentInBatch(s.relays, e)
    {
      if SentInBatch(s.relays, e) {
        var q, i :| q in s.relays && 0 <= i < s.relays[q].sent && i < |s.relays[q].ids| && s.relays[q].ids[i] == e;
        assert q in s.relays[r := Batch(ids, 0)] && s.relays[r := Batch(ids, 0)][q] == s.relays[q];
      }
    }
  }

  lemma CommitUnsent(s: State, r: nat)
    requires r in s.relays && s.relays[r].sent == |s.relays[r].ids|
    ensures Unsent(s.db.outbox, s.db.published + (set e | e in s.relays[r].ids), s.relays - {r})
         == Unsent(s.db.outbox, s.db.published, s.relays)
  {
    var relays := s.relays - {r};
    forall e
      ensures SentInBatch(s.relays, e) <==> SentInBatch(relays, e) || e in s.relays[r].ids
    {
      if SentInBatch(s.relays, e) {
        var q, i :| q in s.relays && 0 <= i < s.relays[q].sent && i < |s.relays[q].ids| && s.relays[q].ids[i] == e;
        if q != r {
          assert q in relays;
        }
      }
      if SentInBatch(relays, e) {
        var q, i :| q in relays && 0 <= i < relays[q].sent && i < |relays[q].ids| && relays[q].ids[i] == e;
        assert q in s.relays && s.relays[q] == relays[q];
      }
    }
  }

  // ----- publishing a row ------------------------------------------------------------------

  lemma PublishUnsent(s: State, r: nat)
    requires RelayInv(s.db, s.logs, s.relays) && r in s.relays && s.relays[r].sent < |s.relays[r].ids|
    ensures var e := s.relays[r].ids[s.relays[r].sent];
            var relays := s.relays[r := s.relays[r].(sent := s.relays[r].sent + 1)];
            var unsent := Unsent(s.db.outbox, s.db.published, s.relays);
            e in unsent && Unsent(s.db.outbox, s.db.published, relays) == unsent - {e}
  {
    var b := s.relays[r];
    var e := b.ids[b.sent];
    var relays := s.relays[r := b.(sent := b.sent + 1)];
    assert BatchOk(s.db.outbox, s.db.published, s.logs, b);
    hide Sent;
    forall x
      ensures SentInBatch(relays, x) <==> SentInBatch(s.relays, x) || x == e
    {
      if SentInBatch(s.relays, x) {
        var q, i :| q in s.relays && 0 <= i < s.relays[q].sent && i < |s.relays[q].ids| && s.relays[q].ids[i] == x;
        assert q in relays && relays[q].ids[i] == x;
      }
      if x == e {
        assert relays[r].ids[b.sent] == e;
      }
    }
    forall q, i | q in s.relays && 0 <= i < |s.relays[q].ids| && s.relays[q].ids[i] == e
      ensures q == r && i == b.sent
    {
      assert e in s.relays[q].ids && e in b.ids;
      assert BatchOk(s.db.outbox, s.db.published, s.logs, s.relays[q]);
    }
  }

  /** One reading more for each consumer of the stage. */
  lemma AppendReadings(c: Config, crew: Per<nat>, ledger: set<Claim>, logs: Per<Log>, workers: Workers, g: Stage,
        m: Envelope)
    requires forall w :: w in workers ==> workers[w].pos <= |logs.At(workers[w].stage)|
    ensures var before := Readings(c, crew, ledger, logs, workers);
            var after := Readings(c, crew, ledger, logs.With(g, logs.At(g) + [m]), workers);
            forall w :: w in workers ==>
              after[w] == before[w] + (if w in ReadersOf(workers, g) then MessageWeight(c, crew, ledger, g, m) else 0)
  {
    hide LogWeight, MessageWeight;
    forall w | w in ReadersOf(workers, g) {
      LogWeightAppend(c, crew, ledger, g, logs.At(g), m, workers[w].pos);
    }
  }

  lemma FirstAttempt(c: Config, crew: Per<nat>, ledger: set<Claim>, g: Stage, m: Envelope)
    requires m.attempt == 0 && 1 <= crew.At(g)
    ensures MessageWeight(c, crew, ledger, g, m)
         <= ReadingWeight(crew.At(g), Downstream(c, crew, g), c.maxAttempts)
  {
    hide Downstream;
    ReadingWeightGrows(crew.At(g), Downstream(c, crew, g), c.maxAttempts);
  }

  lemma AppendTotals(c: Config, s: State, crew: Per<nat>, g: Stage, m: Envelope, each: nat)
    requires Staffed(s, crew) && (1 <= crew.At(g) ==> MessageWeight(c, crew, s.db.ledger, g, m) <= each)
    requires forall w :: w in s.workers ==> s.workers[w].pos <= |s.logs.At(s.workers[w].stage)|
    ensures Total(Readings(c, crew, s.db.ledger, s.logs.With(g, s.logs.At(g) + [m]), s.workers))
         <= Total(Readings(c, crew, s.db.ledger, s.logs, s.workers)) + crew.At(g) * each
  {
    hide Reading, MessageWeight, Total;
    var before := Readings(c, crew, s.db.ledger, s.logs, s.workers);
    var after := Readings(c, crew, s.db.ledger, s.logs.With(g, s.logs.At(g) + [m]), s.workers);
    AppendReadings(c, crew, s.db.ledger, s.logs, s.workers, g, m);
    forall w | w in ReadersOf(s.workers, g)
      ensures 1 <= crew.At(g)
    {
      ReaderCounts(s, crew, w);
    }
    TotalRises(before, after, ReadersOf(s.workers, g), each);
  }

  /** The log gains one copy of the row's envelope, the rows still to publish lose the row. */
  lemma AppendBurns(c: Config, s: State, t: State, crew: Per<nat>, e: Id, g: Stage)
    requires Staffed(s, crew) && t.workers == s.workers && t.db == s.db
    requires e in s.db.outbox && s.db.outbox[e].payload.eventType == g && s.db.outbox[e].payload.attempt == 0
    requires t.logs == s.logs.With(g, s.logs.At(g) + [s.db.outbox[e].payload])
    requires var unsent := Unsent(s.db.outbox, s.db.published, s.relays);
             e in unsent && Unsent(s.db.outbox, s.db.published, t.relays) == unsent - {e}
    requires forall w :: w in s.workers ==> s.workers[w].pos <= |s.logs.At(s.workers[w].stage)|
    ensures Staffed(t, crew) && Work(c, t, crew) + 1 <= Work(c, s, crew)
  {
    hide Unsent, RowsWeight, Readings, Total, MessageWeight, Downstream, ReadingWeight;
    RowsWeightSplits(c, crew, s.db.outbox, Unsent(s.db.outbox, s.db.published, s.relays), e);
    var m := s.db.outbox[e].payload;
    if 1 <= crew.At(g) {
      FirstAttempt(c, crew, s.db.ledger, g, m);
    }
    AppendTotals(c, s, crew, g, m, ReadingWeight(crew.At(g), Downstream(c, crew, g), c.maxAttempts));
  }

  lemma PublishBurns(c: Config, s: State, crew: Per<nat>, step: Step)
    requires Inv(c, s) && Staffed(s, crew) && step.RelayPublish? && RelayEnabled(c, s, step)
    ensures var t := ApplyRelay(c, s, step);
            Staffed(t, crew) && Work(c, t, crew) + 1 <= Work(c, s, crew)
  {
    hide Inv, Unsent, RelayInv, MessageOk, Work;
    var e := s.relays[step.r].ids[s.relays[step.r].sent];
    var g := s.db.outbox[e].payload.eventType;
    RelayFacts(c, s);
    RowMessageIn(c, s, e);
    PublishUnsent(s, step.r);
    forall w | w in s.workers {
      PositionInLog(c, s, w);
    }
    AppendBurns(c, s, ApplyRelay(c, s, step), crew, e, g);
  }

  lemma RelayFacts(c: Config, s: State)
    requires Inv(c, s)
    ensures RelayInv(s.db, s.logs, s.relays)
  {
    hide StoresInv, EventsInv, ResultsInv, VectorsInv, BusInv, RelayInv, WorkersInv;
  }

  lemma PositionInLog(c: Config, s: State, w: nat)
    requires Inv(c, s) && w in s.workers
    ensures s.workers[w].pos <= |s.logs.At(s.workers[w].stage)|
  {
    hide Inv;
    WorkerFacts(c, s, w);
    hide PhaseOk, DrawOk, Contend, SameDraw;
  }

  // ----- outcomes --------------------------------------------------------------------------

  lemma SameRowsWork(c: Config, s: State, t: State, crew: Per<nat>, off: nat)
    requires t.relays == s.relays && t.db.outbox == s.db.outbox && t.db.published == s.db.published
    requires Total(Readings(c, crew, t.db.ledger, t.logs, t.workers)) + off
          <= Total(Readings(c, crew, s.db.ledger, s.logs, s.workers))
    ensures Work(c, t, crew) + off <= Work(c, s, crew)
  {
    hide Readings, RowsWeight, Unsent;
  }

  /** Only consumer `w` moved; it has `off` less to read, and nobody has more. */
  lemma ReadingsFall(c: Config, crew: Per<nat>, s: State, t: State, w: nat, off: nat)
    requires w in s.workers && w in t.workers && t.workers == s.workers[w := t.workers[w]]
    requires Reading(c, crew, t.db.ledger, t.logs, t.workers[w]) + off
          <= Reading(c, crew, s.db.ledger, s.logs, s.workers[w])
    requires forall v :: v in s.workers ==>
               Reading(c, crew, t.db.ledger, t.logs, s.workers[v])
                 <= Reading(c, crew, s.db.ledger, s.logs, s.workers[v])
    ensures Total(Readings(c, crew, t.db.ledger, t.logs, t.workers)) + off
         <= Total(Readings(c, crew, s.db.ledger, s.logs, s.workers))
  {
    hide Reading, Total;
    var before := Readings(c, crew, s.db.ledger, s.logs, s.workers);
    TotalFalls(before, Readings(c, crew, t.db.ledger, t.logs, t.workers), w, off);
  }

  /** Consumer `w` moves past its record; rows and ledger are as before. */
  lemma PassBurns(c: Config, s: State, t: State, crew: Per<nat>, w: nat)
    requires Staffed(s, crew) && HasRecord(s, w) && w in t.workers && t.workers == s.workers[w := t.workers[w]]
    requires t.workers[w].stage == s.workers[w].stage && t.workers[w].pos == s.workers[w].pos + 1
    requires t.logs == s.logs && t.relays == s.relays && t.db.outbox == s.db.outbox && t.db.published == s.db.published
    requires t.db.ledger == s.db.ledger && Record(s, w).attempt < c.maxAttempts
    ensures Staffed(t, crew) && Work(c, t, crew) + 1 <= Work(c, s, crew)
  {
    hide LogWeight, Total, Staffed, Downstream, Work, Readings;
    SameCrew(s, t, crew);
    LogWeightFirst(c, crew, s.db.ledger, s.workers[w].stage, s.logs.At(s.workers[w].stage), s.workers[w].pos);
    ReadingsFall(c, crew, s, t, w, 1);
    SameRowsWork(c, s, t, crew, 1);
  }

  /** The consumer is past its record, and every consumer of the stage has the next attempt to read. */
  lemma RequeueReadings(c: Config, s: State, crew: Per<nat>, w: nat, m: Envelope)
    requires Staffed(s, crew) && HasRecord(s, w)
    requires forall v :: v in s.workers ==> s.workers[v].pos <= |s.logs.At(s.workers[v].stage)|
    ensures var g := s.workers[w].stage;
            var t := Advance(s.(logs := s.logs.With(g, s.logs.At(g) + [m])), w, Ready);
            Total(Readings(c, crew, t.db.ledger, t.logs, t.workers))
            + MessageWeight(c, crew, s.db.ledger, g, Record(s, w))
              <= Total(Readings(c, crew, s.db.ledger, s.logs, s.workers))
                 + crew.At(g) * MessageWeight(c, crew, s.db.ledger, g, m)
  {
    var g := s.workers[w].stage;
    var s1 := s.(logs := s.logs.With(g, s.logs.At(g) + [m]));
    hide LogWeight, MessageWeight, Total, Readings, Staffed;
    AppendTotals(c, s, crew, g, m, MessageWeight(c, crew, s.db.ledger, g, m));
    LogWeightFirst(c, crew, s.db.ledger, g, s1.logs.At(g), s.workers[w].pos);
    ReadingsFall(c, crew, s1, Advance(s1, w, Ready), w, MessageWeight(c, crew, s.db.ledger, g, Record(s, w)));
  }

  lemma RequeueBurns(c: Config, s: State, crew: Per<nat>, w: nat)
    requires Staffed(s, crew) && At(s, w, Raised) && !Exhausted(c, Record(s, w))
    requires forall v :: v in s.workers ==> s.workers[v].pos <= |s.logs.At(s.workers[v].stage)|
    ensures var g := s.workers[w].stage;
            var t := Advance(s.(logs := s.logs.With(g, s.logs.At(g) + [Record(s, w).NextAttempt()])), w, Ready);
            Staffed(t, crew) && Work(c, t, crew) + 1 <= Work(c, s, crew)
  {
    var g := s.workers[w].stage;
    var m := Record(s, w);
    var t := Advance(s.(logs := s.logs.With(g, s.logs.At(g) + [m.NextAttempt()])), w, Ready);
    hide LogWeight, Unsent, RowsWeight, Total, Staffed, Downstream, Readings;
    SameCrew(s, t, crew);
    assert MessageWeight(c, crew, s.db.ledger, g, m)
        == 1 + crew.At(g) * MessageWeight(c, crew, s.db.ledger, g, m.NextAttempt());
    RequeueReadings(c, s, crew, w, m.NextAttempt());
  }

  /** Claiming a record's event takes everything downstream of it off the log. */
  lemma ClaimLightens(c: Config, crew: Per<nat>, ledger: set<Claim>, g: Stage, log: Log, pos: nat)
    requires pos < |log| && Claim(log[pos].eventId, g) !in ledger && 1 <= crew.At(g)
    requires log[pos].attempt < c.maxAttempts
    ensures var after := ledger + {Claim(log[pos].eventId, g)};
            && LogWeight(c, crew, after, g, log, pos) + Downstream(c, crew, g)
                 <= LogWeight(c, crew, ledger, g, log, pos)
            && LogWeight(c, crew, after, g, log, pos + 1) + Downstream(c, crew, g) + 1
                 <= LogWeight(c, crew, ledger, g, log, pos)
  {
    var cl := Claim(log[pos].eventId, g);
    hide LogWeight, Downstream, ReadingWeight;
    LogWeightFirst(c, crew, ledger, g, log, pos);
    LogWeightFirst(c, crew, ledger + {cl}, g, log, pos);
    LogWeightShrinks(c, crew, ledger, cl, g, log, pos + 1);
    ReadingWeightGrows(crew.At(g), Downstream(c, crew, g), c.maxAttempts - log[pos].attempt);
  }

  /** The claim of `w`'s record is committed; `w` stays at the record or moves past it. */
  lemma CommitReadings(c: Config, s: State, t: State, crew: Per<nat>, w: nat, moved: nat)
    requires Staffed(s, crew) && HasRecord(s, w) && Record(s, w).attempt < c.maxAttempts && moved <= 1
    requires ClaimOf(s, w) !in s.db.ledger && t.db.ledger == s.db.ledger + {ClaimOf(s, w)} && t.logs == s.logs
    requires w in t.workers && t.workers == s.workers[w := t.workers[w]]
    requires t.workers[w].stage == s.workers[w].stage && t.workers[w].pos == s.workers[w].pos + moved
    ensures Total(Readings(c, crew, t.db.ledger, t.logs, t.workers)) + Downstream(c, crew, s.workers[w].stage) + moved
         <= Total(Readings(c, crew, s.db.ledger, s.logs, s.workers))
  {
    var g := s.workers[w].stage;
    hide LogWeight, Total, Staffed, Downstream, Readings;
    ReaderCounts(s, crew, w);
    ClaimLightens(c, crew, s.db.ledger, g, s.logs.At(g), s.workers[w].pos);
    forall v | v in s.workers
      ensures Reading(c, crew, t.db.ledger, t.logs, s.workers[v]) <= Reading(c, crew, s.db.ledger, s.logs, s.workers[v])
    {
      ReaderCounts(s, crew, v);
      LogWeightShrinks(c, crew, s.db.ledger, ClaimOf(s, w), s.workers[v].stage, s.logs.At(s.workers[v].stage),
                       s.workers[v].pos);
    }
    ReadingsFall(c, crew, s, t, w, Downstream(c, crew, g) + moved);
  }

  /** A handler's commit: the claim pays for the event it emits. */
  lemma CommitBurns(c: Config, s: State, crew: Per<nat>, w: nat, db: Db, acked: bool)
    requires Staffed(s, crew) && HasRecord(s, w) && Record(s, w).attempt < c.maxAttempts
    requires ClaimOf(s, w) !in s.db.ledger && db.ledger == s.db.ledger + {ClaimOf(s, w)}
    requires RowsWeight(c, crew, db.outbox, Unsent(db.outbox, db.published, s.relays))
          <= RowsWeight(c, crew, s.db.outbox, Unsent(s.db.outbox, s.db.published, s.relays))
             + Downstream(c, crew, s.workers[w].stage)
    ensures var t := AfterCommit(c, s, w, db, acked);
            Staffed(t, crew) && Work(c, t, crew) + (if acked then 1 else 0) <= Work(c, s, crew)
  {
    var t := AfterCommit(c, s, w, db, acked);
    hide Readings, Unsent, RowsWeight, Total, Staffed, Downstream;
    SameCrew(s, t, crew);
    CommitReadings(c, s, t, crew, w, if acked then 1 else 0);
  }

  /** Emitting a row of stage `Next(g)` adds exactly what the claim took off. */
  lemma EmitAdds(c: Config, crew: Per<nat>, outbox: Outbox, outbox': Outbox, published: set<Id>,
        relays: map<nat, Batch>, f: Id, g: Stage)
    requires !g.Enriched? && f !in outbox && f in outbox' && outbox' == outbox[f := outbox'[f]]
    requires outbox'[f].payload.eventType == Next(g)
    ensures RowsWeight(c, crew, outbox', Unsent(outbox', published, relays))
         <= RowsWeight(c, crew, outbox, Unsent(outbox, published, relays)) + Downstream(c, crew, g)
  {
    var before := Unsent(outbox, published, relays);
    var after := Unsent(outbox', published, relays);
    assert before <= after <= before + {f} && f !in before;
    assert OutboxGrows(outbox, outbox');
    RowsWeightKeeps(c, crew, outbox, outbox', before);
    if f in after {
      RowsWeightSplits(c, crew, outbox', after, f);
      assert after - {f} == before;
    } else {
      assert after == before;
    }
  }

  // ----- every calm step -------------------------------------------------------------------

  lemma AttemptBelow(c: Config, s: State, w: nat)
    requires Inv(c, s) && HasRecord(s, w)
    ensures Record(s, w).attempt < c.maxAttempts && Record(s, w).payload.EventType() == s.workers[w].stage
    ensures Record(s, w).payload.documentId == Record(s, w).documentId
  {
    hide Inv;
    RecordFacts(c, s, w);
  }

  /** A handler's commit pays for what it emits, acknowledged or not. */
  lemma HandlerBurns(c: Config, s: State, crew: Per<nat>, w: nat, db: Db, acked: bool, emits: bool)
    requires Inv(c, s) && Staffed(s, crew) && HasRecord(s, w) && HoldsClaim(s.workers[w].phase)
    requires CommitShape(s, w, db, emits)
    ensures var t := AfterCommit(c, s, w, db, acked);
            Staffed(t, crew) && Work(c, t, crew) + (if acked then 1 else 0) <= Work(c, s, crew)
  {
    hide Inv, Work, Unheld, Undrawn, RowsWeight, Unsent, Downstream, Staffed;
    SetAside(c, s, w);
    AttemptBelow(c, s, w);
    if emits {
      EmitAdds(c, crew, s.db.outbox, db.outbox, s.db.published, s.relays, s.workers[w].draw, s.workers[w].stage);
    }
    CommitBurns(c, s, crew, w, db, acked);
  }

  lemma SucceedBurns(c: Config, s: State, crew: Per<nat>, w: nat)
    requires Staffed(s, crew) && HasRecord(s, w) && Record(s, w).attempt < c.maxAttempts
    ensures Staffed(Succeed(s, w), crew) && Work(c, Succeed(s, w), crew) + 1 <= Work(c, s, crew)
  {
    hide Work, Staffed;
    PassBurns(c, s, Succeed(s, w), crew, w);
  }

  lemma ClaimingBurns(c: Config, s: State, crew: Per<nat>, step: Step)
    requires Inv(c, s) && Staffed(s, crew) && IsClaimingStep(step) && ClaimingEnabled(c, s, step)
    ensures var t := ApplyClaiming(c, s, step);
            Staffed(t, crew) && Work(c, t, crew) + (if IsProgress(step) then 1 else 0) <= Work(c, s, crew)
  {
    hide Inv, Work, KeyLocked, Staffed;
    match step
    case InsertClaim(w) => PhaseWork(c, s, s, crew, w, Claimed);
    case SkipDuplicate(w) =>
      AttemptBelow(c, s, w);
      SucceedBurns(c, s, crew, w);
    case LoadJob(w) =>
      PhaseWork(c, s, s, crew, w, if Record(s, w).payload.documentId in s.db.jobs then Loaded else NoJob);
    case CommitNoJob(w, acked) => HandlerBurns(c, s, crew, w, WithClaim(s, w), acked, false);
  }

  /** What a handler's commit does to the tables the measure looks at. */
  predicate CommitShape(s: State, w: nat, db: Db, emits: bool)
    requires HasRecord(s, w)
  {
    var draw := s.workers[w].draw;
    && db.ledger == s.db.ledger + {ClaimOf(s, w)} && db.published == s.db.published
    && if emits then
         !s.workers[w].stage.Enriched? && draw in db.outbox && db.outbox == s.db.outbox[draw := db.outbox[draw]]
         && db.outbox[draw].payload.eventType == Next(s.workers[w].stage)
       else db.outbox == s.db.outbox
  }

  lemma ExtractionShape(s: State, w: nat, at: int)
    requires HasRecord(s, w) && s.workers[w].phase.TextSaved? && Record(s, w).payload.DocumentIngested?
    requires Record(s, w).payload.documentId in s.db.jobs && s.workers[w].stage.Ingested?
    ensures CommitShape(s, w, ExtractionDb(s, w, at), true)
  {
  }

  lemma EnrichmentShape(s: State, w: nat, classification: string, summary: string, at: int)
    requires HasRecord(s, w) && s.workers[w].phase.Upserting?
    requires Record(s, w).payload.documentId in s.db.jobs && s.workers[w].stage.Extracted?
    ensures CommitShape(s, w, EnrichmentDb(s, w, classification, summary, at), true)
  {
  }

  lemma ExtractionBurns(c: Config, s: State, crew: Per<nat>, step: Step)
    requires Inv(c, s) && Staffed(s, crew) && IsExtractionStep(step) && ExtractionEnabled(c, s, step)
    ensures var t := ApplyExtraction(c, s, step);
            Staffed(t, crew) && Work(c, t, crew) + (if IsProgress(step) then 1 else 0) <= Work(c, s, crew)
  {
    hide Inv, Work, Staffed, ExtractionDb, CommitShape;
    match step
    case Parse(w) => PhaseWork(c, s, s, crew, w, ApplyExtraction(c, s, step).workers[w].phase);
    case SaveText(w) =>
      var t := ApplyExtraction(c, s, step);
      PhaseWork(c, s, s.(objects := t.objects), crew, w, TextSaved(s.workers[w].phase.extraction));
    case CommitExtraction(w, at, acked) =>
      ParsedFacts(c, s, w);
      ExtractionShape(s, w, at);
      HandlerBurns(c, s, crew, w, ExtractionDb(s, w, at), acked, true);
  }

  lemma EnrichmentBurns(c: Config, s: State, crew: Per<nat>, step: Step)
    requires Inv(c, s) && Staffed(s, crew) && IsEnrichmentStep(step) && EnrichmentEnabled(c, s, step)
    ensures var t := ApplyEnrichment(c, s, step);
            Staffed(t, crew) && Work(c, t, crew) + (if IsProgress(step) then 1 else 0) <= Work(c, s, crew)
  {
    hide Inv, Work, Staffed, PutPoints, ChunksOf, Covers, EnrichmentDb, CommitShape;
    match step
    case ReadChunks(w) => PhaseWork(c, s, s, crew, w, ApplyEnrichment(c, s, step).workers[w].phase);
    case Embed(w, vectors) => PhaseWork(c, s, s, crew, w, Upserting(s.workers[w].phase.chunks, vectors, 0));
    case Upsert(w, upto) =>
      var t := ApplyEnrichment(c, s, step);
      PhaseWork(c, s, s.(points := t.points), crew, w, s.workers[w].phase.(done := upto));
    case CommitEnrichment(w, classification, summary, at, acked) =>
      UpsertingFacts(c, s, w);
      EnrichmentShape(s, w, classification, summary, at);
      HandlerBurns(c, s, crew, w, EnrichmentDb(s, w, classification, summary, at), acked, true);
    case CommitProjection(w, acked) =>
      ProjectionShape(s, w);
      HandlerBurns(c, s, crew, w, ProjectionDb(s, w), acked, false);
  }

  lemma ProjectionShape(s: State, w: nat)
    requires HasRecord(s, w) && Record(s, w).payload.DocumentEnriched?
    ensures CommitShape(s, w, ProjectionDb(s, w), false)
  {
  }

  lemma FailureBurns(c: Config, s: State, crew: Per<nat>, step: Step)
    requires Inv(c, s) && Staffed(s, crew) && IsFailureStep(step) && FailureEnabled(c, s, step)
    ensures var t := ApplyFailure(c, s, step);
            Staffed(t, crew) && Work(c, t, crew) + (if IsProgress(step) then 1 else 0) <= Work(c, s, crew)
  {
    hide Inv, Work, Staffed;
    match step
    case Raise(w) => PhaseWork(c, s, s.(flow := ApplyFailure(c, s, step).flow), crew, w, Raised);
    case Requeue(w) =>
      forall v | v in s.workers {
        PositionInLog(c, s, v);
      }
      RequeueBurns(c, s, crew, w);
    case DeadLetterRecord(w) =>
      AttemptBelow(c, s, w);
      PassBurns(c, s, ApplyFailure(c, s, step), crew, w);
    case MarkFailed(w, message) =>
      PhaseWork(c, s, s.(db := MarkFailedDb(s.db, s.workers[w].phase.documentId, message)), crew, w, Ready);
    case SkipMarkFailed(w) => PhaseWork(c, s, s, crew, w, Ready);
  }

  lemma RelayBurns(c: Config, s: State, crew: Per<nat>, step: Step)
    requires Inv(c, s) && Staffed(s, crew) && IsRelayStep(step) && Calm(step) && RelayEnabled(c, s, step)
    ensures var t := ApplyRelay(c, s, step);
            Staffed(t, crew) && Work(c, t, crew) + (if IsProgress(step) then 1 else 0) <= Work(c, s, crew)
  {
    hide Inv, Work, Unsent, Lockable;
    match step
    case RelayLock(r, ids) =>
      LockUnsent(s, r, ids);
      SameBus(c, s, ApplyRelay(c, s, step), crew);
    case RelayPublish(r) => PublishBurns(c, s, crew, step);
    case RelayCommit(r) =>
      CommitUnsent(s, r);
      SameBus(c, s, ApplyRelay(c, s, step), crew);
  }

  /** A calm step never adds work, and a publish or an outcome takes some off. */
  lemma CalmStepBurns(c: Config, s: State, crew: Per<nat>, step: Step)
    requires Inv(c, s) && Staffed(s, crew) && Calm(step) && Enabled(c, s, step)
    ensures var t := Apply(c, s, step);
            Staffed(t, crew) && Work(c, t, crew) + (if IsProgress(step) then 1 else 0) <= Work(c, s, crew)
  {
    hide Inv, Work;
    hide RelayEnabled, ClaimingEnabled, ExtractionEnabled, EnrichmentEnabled, FailureEnabled;
    hide ApplyGateway, ApplyRelay, ApplyClaiming, ApplyExtraction, ApplyEnrichment, ApplyFailure;
    if IsRelayStep(step) { RelayBurns(c, s, crew, step); }
    else if IsMembershipStep(step) { SameWork(c, s, Apply(c, s, step), crew); }
    else if IsClaimingStep(step) { ClaimingBurns(c, s, crew, step); }
    else if IsExtractionStep(step) { ExtractionBurns(c, s, crew, step); }
    else if IsEnrichmentStep(step) { EnrichmentBurns(c, s, crew, step); }
    else { FailureBurns(c, s, crew, step); }
  }

  // ----- the bound -------------------------------------------------------------------------

  function Progress(steps: seq<Step>): nat {
    if steps == [] then 0
    else Progress(steps[..|steps| - 1]) + (if IsProgress(steps[|steps| - 1]) then 1 else 0)
  }

  predicate CalmRun(steps: seq<Step>) {
    forall i :: 0 <= i < |steps| ==> Calm(steps[i])
  }

  /** In a calm run the relay publishes and record outcomes are paid for by the initial work. */
  lemma {:induction false} CalmRunBurns(c: Config, s: State, crew: Per<nat>, steps: seq<Step>)
    requires ValidConfig(c) && Inv(c, s) && Staffed(s, crew) && CalmRun(steps) && Run(c, s, steps).Some?
    ensures var t := Run(c, s, steps).value;
            Staffed(t, crew) && Progress(steps) + Work(c, t, crew) <= Work(c, s, crew)
  {
    hide Inv, Work, Enabled, Apply, Calm, IsProgress, Staffed;
    if steps != [] {
      CalmRunBurns(c, s, crew, steps[..|steps| - 1]);
      RunInv(c, s, steps[..|steps| - 1]);
      CalmStepBurns(c, Run(c, s, steps[..|steps| - 1]).value, crew, steps[|steps| - 1]);
    }
  }

  /** A batch of `n` fresh jobs, in a system that may have processed any number before: their `n`
      ingested rows are all that is unpublished, and everything published has been read. */
  ghost predicate FreshBatch(s: State, n: nat) {
    && s.relays == map[] && |Unsent(s.db.outbox, s.db.published, s.relays)| == n
    && (forall e :: e in s.db.outbox && e !in s.db.published ==> s.db.outbox[e].payload.eventType == Ingested)
    && (forall w :: w in s.workers ==> s.workers[w].pos == |s.logs.At(s.workers[w].stage)|)
  }

  lemma {:induction false} RowsWeightUniform(c: Config, crew: Per<nat>, outbox: Outbox, es: set<Id>)
    requires es <= outbox.Keys && (forall e :: e in es ==> outbox[e].payload.eventType == Ingested)
    ensures RowsWeight(c, crew, outbox, es) == |es| * RowWeight(c, crew, Ingested)
    decreases es
  {
    if es != {} {
      var e :| e in es;
      RowsWeightSplits(c, crew, outbox, es, e);
      RowsWeightUniform(c, crew, outbox, es - {e});
      OneMore(|es - {e}|, RowWeight(c, crew, Ingested));
    }
  }

  lemma FreshBatchWork(c: Config, s: State, crew: Per<nat>, n: nat)
    requires FreshBatch(s, n)
    ensures Work(c, s, crew) == n * RowWeight(c, crew, Ingested)
  {
    RowsWeightUniform(c, crew, s.db.outbox, Unsent(s.db.outbox, s.db.published, s.relays));
    TotalOfNothing(Readings(c, crew, s.db.ledger, s.logs, s.workers));
    hide RowsWeight, RowWeight, Unsent;
  }

  /** Whatever was processed before, `n` fresh jobs cost at most `n` times the weight of an ingested
      row in relay publishes and record outcomes, whatever the handlers' successes and failures. */
  lemma SettlingBound(c: Config, s: State, crew: Per<nat>, n: nat, steps: seq<Step>)
    requires ValidConfig(c) && Inv(c, s) && Staffed(s, crew) && FreshBatch(s, n)
    requires CalmRun(steps) && Run(c, s, steps).Some?
    ensures Progress(steps) <= n * RowWeight(c, crew, Ingested)
  {
    hide Inv, Staffed, CalmRun, FreshBatch, Work, Run, Progress;
    CalmRunBurns(c, s, crew, steps);
    FreshBatchWork(c, s, crew, n);
  }

  // ----- the weight in numbers -------------------------------------------------------------

  lemma {:induction false} ReadAlone(d: nat, left: nat)
    ensures ReadingWeight(1, d, left) == left + d
    decreases left
  {
    if left > 0 {
      ReadAlone(d, left - 1);
    }
  }

  /** With one consumer for each stage, a job costs at most `3 * (max_attempts + 1)`. */
  lemma OneConsumerEach(c: Config)
    ensures RowWeight(c, Per(1, 1, 1), Ingested) == 3 * (c.maxAttempts + 1)
  {
    ReadAlone(Downstream(c, Per(1, 1, 1), Enriched), c.maxAttempts);
    ReadAlone(Downstream(c, Per(1, 1, 1), Extracted), c.maxAttempts);
    ReadAlone(Downstream(c, Per(1, 1, 1), Ingested), c.maxAttempts);
  }
}
