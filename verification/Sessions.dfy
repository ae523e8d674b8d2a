/** The database session: staged writes, savepoints, and the guard that claims an event inside one. */
module Sessions {
  import opened Topics
  import opened Events
  import opened Model

  // ----- staged writes ---------------------------------------------------------------------

  datatype Write =
    | InsertJob(job: Job)
    | InsertOutbox(row: OutboxEvent)
    | InsertClaimRow(claim: Claim)
    | SetStatus(documentId: Id, status: Status)
    | SetError(documentId: Id, error: string)
    | SetResults(documentId: Id, classification: string, summary: string, chunkCount: nat)
    | PutView(view: DocumentView)
    | SetPublished(eventId: Id)

  function ApplyWrite(db: Db, write: Write): Db {
    match write
    case InsertJob(job) => db.(jobs := db.jobs[job.documentId := job])
    case InsertOutbox(row) => db.(outbox := db.outbox[row.eventId := row])
    case InsertClaimRow(claim) => db.(ledger := db.ledger + {claim})
    case SetStatus(d, status) =>
      if d in db.jobs then db.(jobs := db.jobs[d := db.jobs[d].(status := status)]) else db
    case SetError(d, error) =>
      if d in db.jobs then db.(jobs := db.jobs[d := db.jobs[d].(error := Some(error))]) else db
    case SetResults(d, classification, summary, chunkCount) =>
      if d in db.jobs then
        db.(jobs := db.jobs[d := db.jobs[d].(classification := Some(classification), summary := Some(summary),
                                              chunkCount := Some(chunkCount))])
      else db
    case PutView(view) => db.(views := db.views[view.documentId := view])
    case SetPublished(e) => db.(published := db.published + {e})
  }

  /** The tables as the transaction sees them. */
  function ApplyWrites(db: Db, writes: seq<Write>): Db {
    if writes == [] then db
    else ApplyWrite(ApplyWrites(db, writes[..|writes| - 1]), writes[|writes| - 1])
  }

  lemma ApplyWritesAppend(db: Db, writes: seq<Write>, write: Write)
    ensures ApplyWrites(db, writes + [write]) == ApplyWrite(ApplyWrites(db, writes), write)
  {
    assert (writes + [write])[..|writes|] == writes;
  }

  /** An open database session: writes staged so far, and where the open savepoints stand. */
  class Session {
    var staged: seq<Write>
    var savepoints: seq<nat>

    ghost predicate Valid()
      reads this
    {
      && (forall i :: 0 <= i < |savepoints| ==> savepoints[i] <= |staged|)
      && (forall i, j :: 0 <= i < j < |savepoints| ==> savepoints[i] <= savepoints[j])
    }

    constructor ()
      ensures Valid() && staged == [] && savepoints == []
    {
      staged, savepoints := [], [];
    }

    method Add(write: Write)
      requires Valid()
      modifies this
      ensures Valid() && staged == old(staged) + [write] && savepoints == old(savepoints)
    {
      staged := staged + [write];
    }

    method BeginNested()
      requires Valid()
      modifies this
      ensures Valid() && staged == old(staged) && savepoints == old(savepoints) + [|old(staged)|]
    {
      savepoints := savepoints + [|staged|];
    }

    /** RELEASE SAVEPOINT: the nested writes become part of the outer transaction. */
    method Release()
      requires Valid() && savepoints != []
      modifies this
      ensures Valid() && staged == old(staged) && savepoints == old(savepoints[..|savepoints| - 1])
    {
      savepoints := savepoints[..|savepoints| - 1];
    }

    /** ROLLBACK TO SAVEPOINT: only the writes since the innermost savepoint are undone. */
    method RollbackNested()
      requires Valid() && savepoints != []
      modifies this
      ensures Valid() && staged == old(staged[..savepoints[|savepoints| - 1]])
      ensures savepoints == old(savepoints[..|savepoints| - 1])
    {
      staged := staged[..savepoints[|savepoints| - 1]];
      savepoints := savepoints[..|savepoints| - 1];
    }

    /** ROLLBACK of the whole transaction. */
    method Rollback()
      modifies this
      ensures Valid() && staged == [] && savepoints == []
    {
      staged, savepoints := [], [];
    }
  }

  /** What the guard leaves staged, and its answer. */
  function Guarded(db: Db, staged: seq<Write>, cl: Claim): (seq<Write>, bool) {
    if cl in ApplyWrites(db, staged).ledger then (staged, false) else (staged + [InsertClaimRow(cl)], true)
  }

  /** The guard: claims the event for the group inside a savepoint.  True exactly when neither the
      committed ledger nor this transaction has the claim yet; false leaves every earlier staged
      write of the outer transaction in place. */
  method MarkProcessed(session: Session, db: Db, eventId: Id, group: Stage) returns (first: bool)
    requires session.Valid()
    modifies session
    ensures session.Valid() && session.savepoints == old(session.savepoints)
    ensures first <==> Claim(eventId, group) !in ApplyWrites(db, old(session.staged)).ledger
    ensures session.staged
         == if first then old(session.staged) + [InsertClaimRow(Claim(eventId, group))] else old(session.staged)
    ensures first ==> Claim(eventId, group) in ApplyWrites(db, session.staged).ledger
    ensures (session.staged, first) == Guarded(db, old(session.staged), Claim(eventId, group))
  {
    var before := ApplyWrites(db, session.staged);
    ghost var earlier := session.staged;
    session.BeginNested();
    session.Add(InsertClaimRow(Claim(eventId, group)));
    ApplyWritesAppend(db, earlier, InsertClaimRow(Claim(eventId, group)));
    if Claim(eventId, group) in before.ledger {
      session.RollbackNested();
      first := false;
    } else {
      session.Release();
      first := true;
    }
  }

  // ----- the guard over interleaved transactions -------------------------------------------

  /** One call of one of any number of concurrent transactions. */
  datatype Call =
    | Begin(t: nat)
    | Stage(t: nat, write: Write)       // any write but a claim
    | Guard(t: nat, claim: Claim)       // `mark_processed`
    | CommitIt(t: nat)
    | RollBackIt(t: nat)

  /** The committed tables, and what each open transaction has staged. */
  datatype Sessions = Sessions(db: Db, open: map<nat, seq<Write>>)

  predicate Holds(s: Sessions, t: nat, cl: Claim) {
    t in s.open && InsertClaimRow(cl) in s.open[t]
  }

  /** The unique index makes a second insert of an uncommitted key wait. */
  predicate Waits(s: Sessions, t: nat, cl: Claim) {
    exists u :: u in s.open && u != t && Holds(s, u, cl)
  }

  predicate Can(s: Sessions, call: Call) {
    match call
    case Begin(t) => t !in s.open
    case Stage(t, write) => t in s.open && !write.InsertClaimRow?
    case Guard(t, cl) => t in s.open && !Waits(s, t, cl)
    case CommitIt(t) => t in s.open
    case RollBackIt(t) => t in s.open
  }

  function Do(s: Sessions, call: Call): Sessions
    requires Can(s, call)
  {
    match call
    case Begin(t) => s.(open := s.open[t := []])
    case Stage(t, write) => s.(open := s.open[t := s.open[t] + [write]])
    case Guard(t, cl) => s.(open := s.open[t := Guarded(s.db, s.open[t], cl).0])
    case CommitIt(t) => Sessions(ApplyWrites(s.db, s.open[t]), s.open - {t})
    case RollBackIt(t) => s.(open := s.open - {t})
  }

  function Play(s: Sessions, calls: seq<Call>): Option<Sessions> {
    if calls == [] then Some(s)
    else
      var before := Play(s, calls[..|calls| - 1]);
      if before.Some? && Can(before.value, calls[|calls| - 1]) then Some(Do(before.value, calls[|calls| - 1])) else None
  }

  /** A claim is in the tables a transaction sees exactly if it is committed or staged there. */
  lemma {:induction false} LedgerSeen(db: Db, writes: seq<Write>, cl: Claim)
    ensures cl in ApplyWrites(db, writes).ledger <==> cl in db.ledger || InsertClaimRow(cl) in writes
  {
    if writes != [] {
      var last := |writes| - 1;
      LedgerSeen(db, writes[..last], cl);
      assert InsertClaimRow(cl) in writes
        <==> InsertClaimRow(cl) in writes[..last] || writes[last] == InsertClaimRow(cl);
    }
  }

  /** Call `i` is the guard, asked by transaction `t`, and it answered true. */
  predicate GrantedAt(s: Sessions, calls: seq<Call>, i: nat, t: nat, cl: Claim)
    requires i < |calls|
  {
    && calls[i] == Guard(t, cl)
    && var before := Play(s, calls[..i]);
       before.Some? && t in before.value.open && Guarded(before.value.db, before.value.open[t], cl).1
  }

  /** The transaction that made call `i` ends with call `e`. */
  predicate EndsAt(calls: seq<Call>, i: nat, e: nat, t: nat)
    requires i < e < |calls|
  {
    && (calls[e] == CommitIt(t) || calls[e] == RollBackIt(t))
    && forall k :: i < k < e ==> calls[k] != CommitIt(t) && calls[k] != RollBackIt(t)
  }

  lemma {:induction false} PlayPrefix(s: Sessions, calls: seq<Call>, n: nat)
    requires n <= |calls| && Play(s, calls).Some?
    ensures Play(s, calls[..n]).Some?
    ensures n < |calls| ==>
              && Can(Play(s, calls[..n]).value, calls[n])
              && Play(s, calls[..n + 1]) == Some(Do(Play(s, calls[..n]).value, calls[n]))
  {
    hide Can, Do;
    if n < |calls| {
      var last := |calls| - 1;
      if n < last {
        PlayPrefix(s, calls[..last], n);
        assert calls[..last][..n] == calls[..n] && calls[..last][..n + 1] == calls[..n + 1];
      } else {
        assert calls[..n + 1] == calls;
      }
    } else {
      assert calls[..n] == calls;
    }
  }

  lemma HoldingStays(s: Sessions, call: Call, t: nat, cl: Claim)
    requires Can(s, call) && Holds(s, t, cl) && call != CommitIt(t) && call != RollBackIt(t)
    ensures Holds(Do(s, call), t, cl)
  {
    hide ApplyWrites;
  }

  lemma LedgerStays(s: Sessions, call: Call, cl: Claim)
    requires Can(s, call) && cl in s.db.ledger
    ensures cl in Do(s, call).db.ledger
  {
    if call.CommitIt? {
      LedgerSeen(s.db, s.open[call.t], cl);
    }
  }

  /** From a granting call on, its transaction holds the key until it commits, and then the ledger does. */
  lemma {:induction false} GrantLasts(s: Sessions, calls: seq<Call>, i: nat, e: nat, n: nat, t: nat, cl: Claim)
    requires i < e < |calls| && i < n <= |calls| && Play(s, calls).Some?
    requires GrantedAt(s, calls, i, t, cl) && EndsAt(calls, i, e, t) && calls[e] == CommitIt(t)
    ensures Play(s, calls[..n]).Some?
    ensures var now := Play(s, calls[..n]).value;
            if n <= e then Holds(now, t, cl) else cl in now.db.ledger
    decreases n
  {
    hide Can, Do, Holds, Play, ApplyWrites;
    PlayPrefix(s, calls, n);
    PlayPrefix(s, calls, n - 1);
    var before := Play(s, calls[..n - 1]).value;
    if n == i + 1 {
      GrantHolds(before, t, cl);
    } else {
      GrantLasts(s, calls, i, e, n - 1, t, cl);
      if n <= e {
        HoldingStays(before, calls[n - 1], t, cl);
      } else if n - 1 == e {
        CommitKeeps(before, t, cl);
      } else {
        LedgerStays(before, calls[n - 1], cl);
      }
    }
  }

  lemma GrantHolds(s: Sessions, t: nat, cl: Claim)
    requires Can(s, Guard(t, cl)) && Guarded(s.db, s.open[t], cl).1
    ensures Holds(Do(s, Guard(t, cl)), t, cl)
  {
    hide ApplyWrites;
  }

  lemma CommitKeeps(s: Sessions, t: nat, cl: Claim)
    requires Can(s, CommitIt(t)) && Holds(s, t, cl)
    ensures cl in Do(s, CommitIt(t)).db.ledger
  {
    LedgerSeen(s.db, s.open[t], cl);
  }

  lemma NoSecondGrant(s: Sessions, t: nat, u: nat, cl: Claim)
    requires Can(s, Guard(u, cl)) && (Holds(s, t, cl) || cl in s.db.ledger)
    ensures !Guarded(s.db, s.open[u], cl).1
  {
    LedgerSeen(s.db, s.open[u], cl);
  }

  /** For any interleaving of any number of transactions, once the guard has answered true in one that
      goes on to commit, it answers false to every later call for the same event and group, in any
      transaction: true is returned in at most one transaction that commits. */
  lemma GuardGrantsOnce(s: Sessions, calls: seq<Call>, i: nat, e: nat, j: nat, t: nat, u: nat, cl: Claim)
    requires i < e < |calls| && i < j < |calls| && Play(s, calls).Some?
    requires GrantedAt(s, calls, i, t, cl) && EndsAt(calls, i, e, t) && calls[e] == CommitIt(t)
    ensures !GrantedAt(s, calls, j, u, cl)
  {
    hide Can, Do, Holds, Play;
    GrantLasts(s, calls, i, e, j, t, cl);
    PlayPrefix(s, calls, j);
    if calls[j] == Guard(u, cl) {
      NoSecondGrant(Play(s, calls[..j]).value, t, u, cl);
    }
  }

  /** A held key is held once, and is not committed. */
  ghost predicate KeysApart(s: Sessions) {
    && (forall t, u, cl :: Holds(s, t, cl) && Holds(s, u, cl) ==> t == u)
    && (forall t, cl :: Holds(s, t, cl) ==> cl !in s.db.ledger)
  }

  lemma CommitApart(s: Sessions, t: nat)
    requires KeysApart(s) && t in s.open
    ensures KeysApart(Do(s, CommitIt(t)))
  {
    var after := Do(s, CommitIt(t));
    forall u, cl | Holds(after, u, cl)
      ensures cl !in after.db.ledger
    {
      assert Holds(s, u, cl);
      LedgerSeen(s.db, s.open[t], cl);
      assert !Holds(s, t, cl);
    }
    forall u, v, cl | Holds(after, u, cl) && Holds(after, v, cl)
      ensures u == v
    {
      assert Holds(s, u, cl) && Holds(s, v, cl);
    }
  }

  lemma GuardApart(s: Sessions, t: nat, cl: Claim)
    requires KeysApart(s) && Can(s, Guard(t, cl))
    ensures KeysApart(Do(s, Guard(t, cl)))
  {
    var after := Do(s, Guard(t, cl));
    LedgerSeen(s.db, s.open[t], cl);
    hide ApplyWrites;
    forall u, x | Holds(after, u, x)
      ensures Holds(s, u, x) || (u == t && x == cl && cl !in s.db.ledger)
    {
    }
  }

  lemma StepApart(s: Sessions, call: Call)
    requires KeysApart(s) && Can(s, call)
    ensures KeysApart(Do(s, call))
  {
    match call
    case CommitIt(t) => CommitApart(s, t);
    case Guard(t, cl) => GuardApart(s, t, cl);
    case Begin(t) => FewerHeld(s, Do(s, call));
    case Stage(t, write) => FewerHeld(s, Do(s, call));
    case RollBackIt(t) => FewerHeld(s, Do(s, call));
  }

  lemma FewerHeld(s: Sessions, after: Sessions)
    requires KeysApart(s) && after.db == s.db && forall t, cl :: Holds(after, t, cl) ==> Holds(s, t, cl)
    ensures KeysApart(after)
  {
  }

  lemma {:induction false} PlayApart(s: Sessions, calls: seq<Call>)
    requires s.open == map[] && Play(s, calls).Some?
    ensures KeysApart(Play(s, calls).value)
  {
    hide Can, Do;
    if calls != [] {
      PlayApart(s, calls[..|calls| - 1]);
      StepApart(Play(s, calls[..|calls| - 1]).value, calls[|calls| - 1]);
    }
  }

  /** Rolling back the transaction that holds a claim makes the event claimable again: right after, the
      guard answers true to whichever open transaction asks, at once and without waiting. */
  lemma RollbackReleases(s: Sessions, calls: seq<Call>, t: nat, u: nat, cl: Claim)
    requires s.open == map[] && Play(s, calls).Some? && Holds(Play(s, calls).value, t, cl)
    requires u in Play(s, calls).value.open && u != t
    ensures var after := Do(Play(s, calls).value, RollBackIt(t));
            Can(after, Guard(u, cl)) && Guarded(after.db, after.open[u], cl).1
  {
    var now := Play(s, calls).value;
    PlayApart(s, calls);
    assert !Holds(now, u, cl);
    LedgerSeen(now.db, now.open[u], cl);
    var after := Do(now, RollBackIt(t));
    forall v | v in after.open && v != u
      ensures !Holds(after, v, cl)
    {
      assert Holds(after, v, cl) ==> Holds(now, v, cl);
    }
  }
}
