/** The outbox relay: lock the oldest unpublished rows, publish them one by one, mark them, commit. */
module OutboxRelay {
  import opened Topics
  import opened Events
  import opened Model
  import opened Sessions
  import opened Invariant
  import opened Commits
  import opened History
  import opened Infrastructure

  // ----- which rows --------------------------------------------------------------------------

  /** Unpublished and not locked by a relay: what the query can see under SKIP LOCKED. */
  function Pending(s: State): set<Id> {
    Unlocked(s.db.outbox, s.db.published, s.relays)
  }

  /** `ids` are as many of the oldest pending rows as the limit allows, in `created_at` order. */
  predicate Oldest(outbox: Outbox, pending: set<Id>, limit: nat, ids: seq<Id>)
    requires forall e :: e in pending ==> e in outbox
  {
    && |ids| == (if limit < |pending| then limit else |pending|)
    && (forall i, j :: 0 <= i < j < |ids| ==> ids[i] != ids[j])
    && (forall i :: 0 <= i < |ids| ==> ids[i] in pending)
    && (forall i, j :: 0 <= i < j < |ids| ==> outbox[ids[i]].createdAt <= outbox[ids[j]].createdAt)
    && (forall i, e :: 0 <= i < |ids| && e in pending && e !in ids ==> outbox[ids[i]].createdAt <= outbox[e].createdAt)
  }

  lemma {:induction false} OldestExists(outbox: Outbox, rows: set<Id>) returns (oldest: Id)
    requires rows != {} && forall e :: e in rows ==> e in outbox
    ensures oldest in rows && forall e :: e in rows ==> outbox[oldest].createdAt <= outbox[e].createdAt
    decreases |rows|
  {
    oldest :| oldest in rows;
    if rows - {oldest} != {} {
      var other := OldestExists(outbox, rows - {oldest});
      if outbox[other].createdAt < outbox[oldest].createdAt {
        oldest := other;
      }
    }
  }

  /** Returns the oldest unpublished rows nobody else has locked. */
  method FetchUnpublished(outbox: Outbox, pending: set<Id>, limit: nat) returns (ids: seq<Id>)
    requires forall e :: e in pending ==> e in outbox
    ensures Oldest(outbox, pending, limit, ids)
  {
    ids := [];
    var rest := pending;
    while |ids| < limit && rest != {}
      invariant |ids| <= limit && |ids| + |rest| == |pending|
      invariant rest <= pending && forall e :: e in pending ==> (e in rest <==> e !in ids)
      invariant forall i :: 0 <= i < |ids| ==> ids[i] in pending
      invariant forall i, j :: 0 <= i < j < |ids| ==> ids[i] != ids[j]
      invariant forall i, j :: 0 <= i < j < |ids| ==> outbox[ids[i]].createdAt <= outbox[ids[j]].createdAt
      invariant forall i, e :: 0 <= i < |ids| && e in rest ==> outbox[ids[i]].createdAt <= outbox[e].createdAt
    {
      ghost var oldest := OldestExists(outbox, rest);
      var e :| e in rest && forall f :: f in rest ==> outbox[e].createdAt <= outbox[f].createdAt;
      assert ids[..] == ids;
      ids, rest := ids + [e], rest - {e};
    }
  }

  // ----- one batch ---------------------------------------------------------------------------

  /** The messages of one stage among some rows, in the rows' order. */
  function Payloads(outbox: Outbox, ids: seq<Id>, g: Stage): seq<Envelope>
    requires forall e :: e in ids ==> e in outbox
  {
    if ids == [] then []
    else
      var last := ids[|ids| - 1];
      Payloads(outbox, ids[..|ids| - 1], g) + if outbox[last].topic.stage == g then [outbox[last].payload] else []
  }

  function Marks(ids: seq<Id>): seq<Write> {
    seq(|ids|, i requires 0 <= i < |ids| => SetPublished(ids[i]))
  }

  lemma {:induction false} MarksApply(db: Db, ids: seq<Id>)
    ensures ApplyWrites(db, Marks(ids)) == db.(published := db.published + set e | e in ids)
    decreases |ids|
  {
    if ids == [] {
      assert Marks(ids) == [];
    } else {
      var last := |ids| - 1;
      MarksApply(db, ids[..last]);
      assert Marks(ids)[..last] == Marks(ids[..last]);
      assert (set e | e in ids) == (set e | e in ids[..last]) + {ids[last]};
    }
  }

  /** Every row names its own event type's topic. */
  lemma RowTopic(c: Config, s: State, e: Id)
    requires Inv(c, s) && e in s.db.outbox
    ensures s.db.outbox[e].topic.Pipeline?
  {
    hide StoresInv, ResultsInv, VectorsInv, BusInv, RelayInv, WorkersInv;
    hide RowsUnique, OneTrace, LedgerTyped, Chained, Rooted;
    assert RowOk(c, s.db.jobs, s.objects, s.db.outbox[e], e);
  }

  lemma LockEnabled(c: Config, s: State, r: nat, ids: seq<Id>)
    requires r !in s.relays && ids != []
    requires Oldest(s.db.outbox, Pending(s), c.relayBatch, ids)
    ensures Enabled(c, s, RelayLock(r, ids))
    ensures Apply(c, s, RelayLock(r, ids)) == s.(relays := s.relays[r := Batch(ids, 0)])
  {
  }

  lemma PublishEnabled(c: Config, s: State, r: nat, ids: seq<Id>, i: nat)
    requires Inv(c, s) && r in s.relays && s.relays[r] == Batch(ids, i) && i < |ids| && ids[i] in s.db.outbox
    ensures Enabled(c, s, RelayPublish(r))
    ensures var t := Apply(c, s, RelayPublish(r));
            && SameStores(t, Appended(s, s.db.outbox[ids[i]].topic, s.db.outbox[ids[i]].payload))
            && t.relays == s.relays[r := Batch(ids, i + 1)]
  {
    hide Inv;
    RowTopic(c, s, ids[i]);
  }

  lemma CommitEnabled(c: Config, s: State, r: nat, ids: seq<Id>)
    requires r in s.relays && s.relays[r] == Batch(ids, |ids|)
    ensures Enabled(c, s, RelayCommit(r))
    ensures Apply(c, s, RelayCommit(r)) ==
              s.(db := s.db.(published := s.db.published + set e | e in ids), relays := s.relays - {r})
  {
  }

  /** The rows published so far, appended to their topics. */
  predicate Sending(outbox: Outbox, before: Per<seq<Envelope>>, after: Per<seq<Envelope>>, ids: seq<Id>) {
    && (forall e :: e in ids ==> e in outbox)
    && (forall g: Stage :: after.At(g) == before.At(g) + Payloads(outbox, ids, g))
  }

  lemma SendingOne(rows: Outbox, start: State, s: State, t: State, r: nat, ids: seq<Id>, i: nat)
    requires i < |ids| && Sending(rows, start.logs, s.logs, ids[..i]) && ids[i] in rows && rows[ids[i]].topic.Pipeline?
    requires SameStores(t, Appended(s, rows[ids[i]].topic, rows[ids[i]].payload))
    ensures Sending(rows, start.logs, t.logs, ids[..i + 1]) && t.db == s.db
  {
    assert ids[..i + 1][..i] == ids[..i] && ids[..i + 1][i] == ids[i];
  }

  /** What an error-free batch does when nothing else moves. */
  ghost predicate Drained(s: State, t: State, ids: seq<Id>) {
    && Sending(s.db.outbox, s.logs, t.logs, ids)
    && t.db == s.db.(published := s.db.published + set e | e in ids)
    && t.relays == s.relays
  }

  /** A relay that has published the first `i` rows of its batch. */
  ghost predicate Midway(s: State, r: nat, rows: Outbox, batch: seq<Id>, i: nat) {
    && r in s.relays && s.relays[r] == Batch(batch, i) && i <= |batch|
    && (forall e :: e in batch ==> e in rows) && OutboxGrows(rows, s.db.outbox)
  }

  lemma StillMidway(s: State, t: State, r: nat, rows: Outbox, batch: seq<Id>, i: nat)
    requires Midway(s, r, rows, batch, i) && Keeps(Relay(r), s, t) && Grows(s, t)
    ensures Midway(t, r, rows, batch, i)
    ensures forall e :: e in batch ==> e in t.db.outbox && t.db.outbox[e] == rows[e]
  {
  }

  /** One row: publish it, then mark it in the session. */
  method PublishRow(cluster: Cluster, r: nat, row: OutboxEvent, ghost rows: Outbox, ghost batch: seq<Id>, ghost i: nat)
    returns (failed: bool)
    requires cluster.Valid() && Midway(cluster.Now(), r, rows, batch, i) && i < |batch| && rows[batch[i]] == row
    modifies cluster
    ensures cluster.Valid() && old(cluster.history) <= cluster.history && Grows(old(cluster.Now()), cluster.Now())
    ensures cluster.calm ==> !failed
    ensures !failed ==> Midway(cluster.Now(), r, rows, batch, i + 1) && row.eventId == batch[i]
    ensures cluster.calm ==>
              && SameStores(cluster.Now(), Appended(old(cluster.Now()), row.topic, row.payload)) && row.topic.Pipeline?
              && cluster.relays == old(cluster.relays)[r := Batch(batch, i + 1)]
  {
    hide Inv, Run, Enabled, Apply, Grows, Midway, Keeps;
    ghost var start := cluster.Now();
    cluster.Yield(Relay(r));
    failed := cluster.Fails();
    if failed {
      return;
    }
    ghost var ready := cluster.Now();
    StillMidway(start, ready, r, rows, batch, i);
    cluster.Sound();
    MidwayFacts(ready, r, rows, batch, i);
    PublishEnabled(cluster.c, ready, r, batch, i);
    RowKey(cluster.c, ready, batch[i]);
    RowTopic(cluster.c, ready, batch[i]);
    GrowsByStep(cluster.c, start, ready, RelayPublish(r));
    cluster.Publish(row.topic, row.payload, RelayPublish(r));
    NextMidway(ready, cluster.Now(), r, rows, batch, i);
    failed := cluster.Fails();      // the broker's acknowledgement may be lost
  }

  lemma MidwayFacts(s: State, r: nat, rows: Outbox, batch: seq<Id>, i: nat)
    requires Midway(s, r, rows, batch, i)
    ensures r in s.relays && s.relays[r] == Batch(batch, i) && i <= |batch|
    ensures forall e :: e in batch ==> e in s.db.outbox && s.db.outbox[e] == rows[e]
  {
  }

  lemma NextMidway(s: State, t: State, r: nat, rows: Outbox, batch: seq<Id>, i: nat)
    requires Midway(s, r, rows, batch, i) && i < |batch| && t.db == s.db
    requires t.relays == s.relays[r := Batch(batch, i + 1)]
    ensures Midway(t, r, rows, batch, i + 1)
  {
  }

  /** Row by row, in the batch's order. */
  method PublishAll(cluster: Cluster, r: nat, rows: Outbox, batch: seq<Id>, session: Session) returns (failed: bool)
    requires cluster.Valid() && Midway(cluster.Now(), r, rows, batch, 0) && session.Valid() && session.staged == []
    requires forall e :: e in batch ==> e in rows
    modifies cluster, session
    ensures cluster.Valid() && old(cluster.history) <= cluster.history && Grows(old(cluster.Now()), cluster.Now())
    ensures cluster.calm ==> !failed
    ensures !failed ==> Midway(cluster.Now(), r, rows, batch, |batch|) && session.staged == Marks(batch)
    ensures cluster.calm ==> Sending(rows, old(cluster.logs), cluster.logs, batch)
    ensures cluster.calm ==>
              cluster.db == old(cluster.db) && cluster.relays == old(cluster.relays)[r := Batch(batch, |batch|)]
  {
    hide Inv, Run, Enabled, Apply, Grows, Sending, Midway, Keeps, Marks, SameStores, Appended;
    ghost var start := cluster.Now();
    failed := false;
    var i := 0;
    assert batch[..0] == [];
    NoMarks();
    NothingSent(rows, start);
    GrowsItself(start);
    MidwayFacts(start, r, rows, batch, 0);
    while i < |batch|
      invariant i <= |batch| && session.Valid() && session.staged == Marks(batch[..i])
      invariant cluster.Valid() && old(cluster.history) <= cluster.history && Grows(start, cluster.Now())
      invariant Midway(cluster.Now(), r, rows, batch, i)
      invariant cluster.calm ==> cluster.db == start.db && cluster.relays == start.relays[r := Batch(batch, i)]
      invariant cluster.calm ==> Sending(rows, start.logs, cluster.logs, batch[..i])
    {
      var row := rows[batch[i]];
      ghost var before := cluster.Now();
      failed := PublishRow(cluster, r, row, rows, batch, i);
      GrowsTrans(start, before, cluster.Now());
      if failed {
        return;
      }
      session.Add(SetPublished(row.eventId));
      if cluster.calm {
        SendingOne(rows, start, before, cluster.Now(), r, batch, i);
      }
      OneMark(batch, i);
      i := i + 1;
    }
    assert batch[..i] == batch;
  }

  /** Opens the relay's transaction: the rows it will publish are locked. */
  method LockBatch(cluster: Cluster, r: nat) returns (failed: bool, rows: Outbox, batch: seq<Id>)
    requires cluster.Valid() && r !in cluster.relays
    modifies cluster
    ensures cluster.Valid() && old(cluster.history) <= cluster.history && Grows(old(cluster.Now()), cluster.Now())
    ensures failed || batch == [] ==> r !in cluster.relays
    ensures !failed && batch != [] ==> Midway(cluster.Now(), r, rows, batch, 0)
    ensures !failed ==> forall e :: e in batch ==> e in rows
    ensures cluster.calm ==>
              && !failed && rows == old(cluster.db.outbox) && cluster.db == old(cluster.db)
              && cluster.logs == old(cluster.logs)
              && cluster.relays == (if batch == [] then old(cluster.relays) else old(cluster.relays)[r := Batch(batch,
                                                                                                                0)])
              && Oldest(rows, Pending(old(cluster.Now())), cluster.c.relayBatch, batch)
  {
    hide Inv, Run, Enabled, Apply, Grows, Oldest, Pending, Midway, Keeps;
    ghost var start := cluster.Now();
    cluster.Yield(Relay(r));
    ghost var locked := cluster.Now();
    RelayKept(start, locked, r);
    rows, batch := cluster.db.outbox, [];
    failed := cluster.Fails();
    if failed {
      return;
    }
    PendingRows(locked);
    batch := FetchUnpublished(rows, Pending(cluster.Now()), cluster.c.relayBatch);
    OldestAreRows(locked, cluster.c.relayBatch, batch);
    if batch != [] {
      LockEnabled(cluster.c, locked, r, batch);
      cluster.Local(RelayLock(r, batch));
      Locked(start, locked, cluster.Now(), r, batch);
    }
  }

  /** Publishes one batch.  An error may strike between any two effects; the batch is then still
      open, unless it was the commit's acknowledgement that got lost. */
  method DrainOnce(cluster: Cluster, r: nat) returns (failed: bool, published: nat, ghost ids: seq<Id>)
    requires cluster.Valid() && r !in cluster.relays
    modifies cluster
    ensures cluster.Valid() && old(cluster.history) <= cluster.history && Grows(old(cluster.Now()), cluster.Now())
    ensures !failed ==> r !in cluster.relays && published == |ids|
    ensures !failed ==> forall e :: e in ids ==> e in cluster.db.published
    ensures cluster.calm ==> !failed && Drained(old(cluster.Now()), cluster.Now(), ids)
    ensures cluster.calm ==> Oldest(old(cluster.db.outbox), Pending(old(cluster.Now())), cluster.c.relayBatch, ids)
  {
    hide Inv, Run, Enabled, Apply, Grows, Oldest, Sending, Pending, Midway, Keeps, Marks, Drained;
    ghost var start := cluster.Now();
    var rows, batch;
    failed, rows, batch := LockBatch(cluster, r);
    published, ids := 0, batch;
    if failed {
      return;
    }
    if batch == [] {
      if cluster.calm {
        DrainedNothing(start, cluster.Now());
      }
      return;
    }
    ghost var open := cluster.Now();
    var session := new Session();
    failed := PublishAll(cluster, r, rows, batch, session);
    ghost var sent := cluster.Now();
    GrowsTrans(start, open, sent);
    if failed {
      return;
    }
    failed := CommitBatch(cluster, r, rows, batch, session);
    GrowsTrans(start, sent, cluster.Now());
    published := |batch|;
    if cluster.calm {
      assert start.relays[r := Batch(batch, 0)][r := Batch(batch, |batch|)] - {r} == start.relays;
      DrainedBatch(start, cluster.Now(), rows, batch);
    }
  }

  lemma DrainedNothing(s: State, t: State)
    requires t.logs == s.logs && t.relays == s.relays && t.db == s.db
    ensures Drained(s, t, [])
  {
    assert s.db.published + (set e | e in []) == s.db.published;
  }

  lemma DrainedBatch(s: State, t: State, rows: Outbox, ids: seq<Id>)
    requires rows == s.db.outbox && Sending(rows, s.logs, t.logs, ids) && t.relays == s.relays
    requires t.db == s.db.(published := s.db.published + set e | e in ids)
    ensures Drained(s, t, ids)
  {
  }

  method CommitBatch(cluster: Cluster, r: nat, ghost rows: Outbox, ghost batch: seq<Id>, session: Session)
    returns (failed: bool)
    requires cluster.Valid() && Midway(cluster.Now(), r, rows, batch, |batch|) && session.staged == Marks(batch)
    modifies cluster
    ensures cluster.Valid() && old(cluster.history) <= cluster.history && Grows(old(cluster.Now()), cluster.Now())
    ensures !failed ==> r !in cluster.relays && forall e :: e in batch ==> e in cluster.db.published
    ensures cluster.calm ==>
              && !failed && cluster.logs == old(cluster.logs) && cluster.relays == old(cluster.relays) - {r}
              && cluster.db == old(cluster.db).(published := old(cluster.db).published + set e | e in batch)
  {
    hide Inv, Run, Enabled, Apply, Grows, Midway, Keeps, Marks;
    ghost var start := cluster.Now();
    cluster.Yield(Relay(r));
    failed := cluster.Fails();
    if failed {
      return;
    }
    ghost var ready := cluster.Now();
    StillMidway(start, ready, r, rows, batch, |batch|);
    MidwayFacts(ready, r, rows, batch, |batch|);
    MarksApply(ready.db, batch);
    CommitEnabled(cluster.c, ready, r, batch);
    cluster.Sound();
    GrowsByStep(cluster.c, start, ready, RelayCommit(r));
    cluster.Commit(session.staged, RelayCommit(r));
    failed := cluster.Fails();      // the acknowledgement may be lost
  }

  // ----- the loop ----------------------------------------------------------------------------

  /** How many batches `n` rows take. */
  function Batches(n: nat, size: nat): nat
    requires size > 0
  {
    (n + size - 1) / size
  }

  /** The relay has so far published `sent`, oldest first, and the rest is still pending. */
  ghost predicate Progress(start: State, now: State, sent: seq<Id>) {
    && (forall e :: e in Pending(start) ==> e in start.db.outbox)
    && (forall i, j :: 0 <= i < j < |sent| ==> sent[i] != sent[j])
    && (forall e :: e in sent ==> e in Pending(start))
    && (forall i, j :: 0 <= i < j < |sent| ==> start.db.outbox[sent[i]].createdAt <= start.db.outbox[sent[j]].createdAt)
    && (forall i, e :: 0 <= i < |sent| && e in Pending(start) && e !in sent ==>
          start.db.outbox[sent[i]].createdAt <= start.db.outbox[e].createdAt)
    && Drained(start, now, sent)
  }

  lemma PendingAfter(s: State, t: State, ids: seq<Id>)
    requires Drained(s, t, ids)
    ensures forall e :: e in Pending(t) <==> e in Pending(s) && e !in ids
  {
    hide Sending;
  }

  lemma {:induction false} PayloadsAppend(outbox: Outbox, a: seq<Id>, b: seq<Id>, g: Stage)
    requires forall e :: e in a + b ==> e in outbox
    ensures (forall e :: e in a ==> e in outbox) && (forall e :: e in b ==> e in outbox)
    ensures Payloads(outbox, a + b, g) == Payloads(outbox, a, g) + Payloads(outbox, b, g)
    decreases |b|
  {
    forall e | e in a || e in b
      ensures e in outbox
    {
      assert e in a + b;
    }
    if b == [] {
      assert a + b == a;
    } else {
      assert (a + b)[..|a + b| - 1] == a + b[..|b| - 1];
      PayloadsAppend(outbox, a, b[..|b| - 1], g);
    }
  }

  lemma DrainedTwice(s: State, t: State, u: State, a: seq<Id>, b: seq<Id>)
    requires Drained(s, t, a) && Drained(t, u, b)
    ensures Drained(s, u, a + b)
  {
    forall g: Stage
      ensures u.logs.At(g) == s.logs.At(g) + Payloads(s.db.outbox, a + b, g)
    {
      PayloadsAppend(s.db.outbox, a, b, g);
    }
    assert (set e | e in a + b) == (set e | e in a) + (set e | e in b);
  }

  lemma {:induction false} DistinctFill(ids: seq<Id>, rows: set<Id>)
    requires forall i, j :: 0 <= i < j < |ids| ==> ids[i] != ids[j]
    requires forall e :: e in ids ==> e in rows
    ensures |ids| <= |rows| && |(set e | e in rows && e !in ids)| == |rows| - |ids|
    ensures |ids| == |rows| ==> forall e :: e in rows ==> e in ids
  {
    if ids == [] {
      assert (set e | e in rows && e !in ids) == rows;
    } else {
      var last := ids[|ids| - 1];
      var rest := ids[..|ids| - 1];
      assert forall e :: e in ids <==> e in rest || e == last;
      DistinctFill(rest, rows);
      assert last in rows && last !in rest;
      assert (set e | e in rows && e !in rest) == (set e | e in rows && e !in ids) + {last};
    }
    var left := set e | e in rows && e !in ids;
    assert |ids| == |rows| ==> left == {};
    assert forall e :: e in rows ==> e in ids || e in left;
  }

  /** One more batch keeps the order, and takes as many rows as are left up to the limit. */
  lemma ProgressOn(start: State, s: State, t: State, sent: seq<Id>, ids: seq<Id>, limit: nat)
    requires Progress(start, s, sent) && Drained(s, t, ids)
    requires forall e :: e in Pending(s) ==> e in s.db.outbox
    requires Oldest(s.db.outbox, Pending(s), limit, ids)
    ensures Progress(start, t, sent + ids)
    ensures |Pending(start)| >= |sent|
    ensures |ids| == if limit < |Pending(start)| - |sent| then limit else |Pending(start)| - |sent|
  {
    PendingAfter(start, s, sent);
    DrainedTwice(start, s, t, sent, ids);
    DistinctFill(sent, Pending(start));
    assert Pending(s) == set e | e in Pending(start) && e !in sent;
    hide Drained, Pending;
  }

  lemma ProgressZero(s: State)
    ensures Progress(s, s, [])
  {
    DrainedNothing(s, s);
  }

  lemma CountBatch(n: nat, k: nat, size: nat, calls: nat)
    requires size > 0 && k <= n && calls == Batches(k, size)
    requires k % size == 0 || k == n
    ensures var taken := if size < n - k then size else n - k;
            && Batches(k + taken, size) == calls + (if taken == 0 then 0 else 1)
            && ((k + taken) % size == 0 || k + taken == n)
  {
    if k % size == 0 {
      var q := k / size;
      assert k == q * size;
      Dividing(q, size, 0);
      if n - k == 0 {
      } else if size < n - k {
        Dividing(q + 1, size, 0);
        assert k + size == (q + 1) * size;
      } else {
        Dividing(q, size, n - k);
      }
    }
  }

  lemma Dividing(q: nat, size: nat, r: nat)
    requires size > 0 && r <= size
    ensures Batches(q * size + r, size) == q + (if r == 0 then 0 else 1)
    ensures (q * size) % size == 0
  {
    var x := q * size + r + size - 1;
    if r == 0 {
      Quotient(x, size, q, size - 1);
    } else {
      assert x == (q + 1) * size + (r - 1);
      Quotient(x, size, q + 1, r - 1);
    }
    Quotient(q * size, size, q, 0);
  }

  lemma TimesAtLeast(d: int, size: nat)
    ensures d >= 1 ==> d * size >= size
  {
  }

  lemma Quotient(x: nat, size: nat, q: nat, r: nat)
    requires size > 0 && r < size && x == q * size + r
    ensures x / size == q && x % size == r
  {
    var d := x / size - q;
    assert d * size == r - x % size;
    TimesAtLeast(d, size);
    TimesAtLeast(-d, size);
  }

  /** The relay loop, for `rounds` polls.  Failed batches are rolled back and polled again.  With no
      failure and nobody else moving, enough polls publish every pending row exactly once, in
      `created_at` order, in as many non-empty batches as the rows need. */
  method RunRelay(cluster: Cluster, r: nat, rounds: nat) returns (calls: nat, ghost sent: seq<Id>)
    requires cluster.Valid() && r !in cluster.relays
    modifies cluster
    ensures cluster.Valid() && old(cluster.history) <= cluster.history && r !in cluster.relays
    ensures Grows(old(cluster.Now()), cluster.Now())
    ensures forall e :: e in sent ==> e in cluster.db.published
    ensures cluster.calm ==>
              Progress(old(cluster.Now()), cluster.Now(), sent) && calls == Batches(|sent|, cluster.c.relayBatch)
    ensures cluster.calm && |Pending(old(cluster.Now()))| <= rounds * cluster.c.relayBatch ==>
              && (forall e :: e in sent <==> e in Pending(old(cluster.Now())))
              && Pending(cluster.Now()) == {}
              && calls == Batches(|Pending(old(cluster.Now()))|, cluster.c.relayBatch)
  {
    hide Inv, Run, Enabled, Apply, Grows, Oldest, Pending, Progress, Drained, Batches;
    ghost var start := cluster.Now();
    GrowsItself(start);
    ProgressZero(start);
    calls, sent := 0, [];
    ghost var n := |Pending(start)|;
    ghost var size := cluster.c.relayBatch;
    assert size > 0;
    NoBatches(size);
    var round := 0;
    while round < rounds
      invariant round <= rounds && r !in cluster.relays
      invariant cluster.Valid() && old(cluster.history) <= cluster.history && Grows(start, cluster.Now())
      invariant forall e :: e in sent ==> e in cluster.db.published
      invariant cluster.calm ==> Progress(start, cluster.Now(), sent) && calls == Batches(|sent|, size)
      invariant cluster.calm ==> |sent| <= n && (|sent| == n || |sent| == round * size)
      invariant cluster.calm ==> |sent| == n || |sent| % size == 0
    {
      ghost var before := cluster.Now();
      var failed, published;
      ghost var ids;
      failed, published, ids := DrainOnce(cluster, r);
      GrowsTrans(start, before, cluster.Now());
      StillPublished(before, cluster.Now(), sent);
      if failed {
        if r in cluster.relays {
          RollbackLeaves(cluster.c, cluster.Now(), r);
          ghost var open := cluster.Now();
          cluster.Local(RelayRollback(r));
          SameGrows(open, cluster.Now());
          GrowsTrans(start, open, cluster.Now());
        }
      } else {
        if cluster.calm {
          PendingRows(before);
          ProgressOn(start, before, cluster.Now(), sent, ids, size);
          CountBatch(n, |sent|, size, calls);
          NextMultiple(round, size);
        }
        sent := sent + ids;
        if published > 0 {
          calls := calls + 1;
        }
      }
      round := round + 1;
    }
    if cluster.calm {
      AllSent(start, cluster.Now(), sent);
    }
  }

  lemma NoBatches(size: nat)
    requires size > 0
    ensures Batches(0, size) == 0 && 0 % size == 0
  {
  }

  lemma NextMultiple(k: nat, size: nat)
    ensures (k + 1) * size == k * size + size
  {
  }

  lemma StillPublished(s: State, t: State, sent: seq<Id>)
    requires Grows(s, t) && forall e :: e in sent ==> e in s.db.published
    ensures forall e :: e in sent ==> e in t.db.published
  {
  }

  lemma RollbackLeaves(c: Config, s: State, r: nat)
    requires r in s.relays
    ensures Enabled(c, s, RelayRollback(r))
    ensures var t := Apply(c, s, RelayRollback(r));
            t == s.(rollbacks := t.rollbacks, relays := t.relays) && r !in t.relays
  {
    hide Bump;
  }

  lemma AllSent(start: State, now: State, sent: seq<Id>)
    requires Progress(start, now, sent)
    ensures |sent| == |Pending(start)| ==> (forall e :: e in sent <==> e in Pending(start)) && Pending(now) == {}
  {
    DistinctFill(sent, Pending(start));
    PendingAfter(start, now, sent);
  }

  lemma RelayKept(s: State, t: State, r: nat)
    requires Keeps(Relay(r), s, t)
    ensures r in s.relays <==> r in t.relays
  {
  }

  lemma NoMarks()
    ensures Marks([]) == []
  {
  }

  lemma OneMark(ids: seq<Id>, i: nat)
    requires i < |ids|
    ensures Marks(ids[..i]) + [SetPublished(ids[i])] == Marks(ids[..i + 1])
  {
  }

  lemma PendingRows(s: State)
    ensures forall e :: e in Pending(s) ==> e in s.db.outbox
  {
  }

  lemma OldestAreRows(s: State, limit: nat, ids: seq<Id>)
    requires Oldest(s.db.outbox, Pending(s), limit, ids)
    ensures forall e :: e in ids ==> e in s.db.outbox
  {
  }

  lemma NothingSent(rows: Outbox, s: State)
    ensures Sending(rows, s.logs, s.logs, [])
  {
  }

  lemma Locked(start: State, s: State, t: State, r: nat, batch: seq<Id>)
    requires Grows(start, s) && t == s.(relays := s.relays[r := Batch(batch, 0)])
    requires forall e :: e in batch ==> e in s.db.outbox
    ensures Grows(start, t) && Midway(t, r, s.db.outbox, batch, 0)
  {
    SameGrows(s, t);
    GrowsTrans(start, s, t);
  }

  lemma RowKey(c: Config, s: State, e: Id)
    requires Inv(c, s) && e in s.db.outbox
    ensures s.db.outbox[e].eventId == e
  {
    hide StoresInv, ResultsInv, VectorsInv, BusInv, RelayInv, WorkersInv;
    hide RowsUnique, OneTrace, LedgerTyped, Chained, Rooted;
    assert RowOk(c, s.db.jobs, s.objects, s.db.outbox[e], e);
  }
}
