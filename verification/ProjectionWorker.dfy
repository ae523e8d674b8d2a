/** The query projector's handler: upsert the read model from the event alone. */
module ProjectionWorker {
  import opened Topics
  import opened Events
  import opened Model
  import opened Sessions
  import opened Invariant
  import opened Guarantees
  import opened History
  import opened Infrastructure
  import opened Tallies
  import opened Handling

  lemma CommitsEnabled(c: Config, s: State, w: nat, acked: bool)
    requires At(s, w, Claimed) && s.workers[w].stage.Enriched? && Record(s, w).payload.DocumentEnriched?
    ensures Enabled(c, s, CommitProjection(w, acked))
    ensures Apply(c, s, CommitProjection(w, acked)) == AfterCommit(c, s, w, ProjectionDb(s, w), acked)
  {
    hide ProjectionDb, AfterCommit;
  }

  function ViewOf(p: Payload): DocumentView
    requires p.DocumentEnriched?
  {
    DocumentView(p.documentId, p.jobId, p.viewFilename, p.classification, p.summary, p.chunkCount)
  }

  /** The claim and the view row together are the protocol's projection transaction. */
  lemma ProjectionReady(c: Config, s: State, w: nat, k: Worker, m: Envelope)
    requires Busy(s, w, k, m) && k.phase == Claimed && k.stage.Enriched? && m.payload.DocumentEnriched?
    ensures CommitReady(c, s, w, [InsertClaimRow(Claim(m.eventId, Enriched)), PutView(ViewOf(m.payload))],
                        CommitProjection(w, true))
  {
    TwoWrites(s.db, InsertClaimRow(Claim(m.eventId, Enriched)), PutView(ViewOf(m.payload)));
    assert ClaimOf(s, w) in ProjectionDb(s, w).ledger;
    hide Enabled, Apply, ApplyWrites, AfterCommit, CommitReady;
    CommitsEnabled(c, s, w, true);
    CommitsEnabled(c, s, w, false);
    ReadyEitherWay(c, s, w, [InsertClaimRow(Claim(m.eventId, Enriched)), PutView(ViewOf(m.payload))],
                   CommitProjection(w, true),
                   ProjectionDb(s, w));
  }

  lemma ViewKey(c: Config, s: State, d: Id)
    requires Inv(c, s) && d in s.db.views
    ensures s.db.views[d].documentId == d
  {
    hide Inv;
    ViewFacts(c, s, d);
  }

  /** Applies one enriched event to the read model. */
  method HandleEnriched(cluster: Cluster, w: nat, k: Worker, m: Envelope, session: Session)
    returns (outcome: Outcome, step: Step)
    requires cluster.Valid() && Busy(cluster.Now(), w, k, m) && k.phase == Opened && k.stage == Enriched
    requires session.Valid() && session.staged == []
    modifies cluster, session
    ensures cluster.Valid() && Quietly(cluster.c, cluster.calm, w, old(cluster.history), cluster.history)
    ensures Grows(old(cluster.Now()), cluster.Now())
    ensures AtWork(cluster.Now(), w, k, m)
    ensures outcome.Returned? ==> CommitReady(cluster.c, cluster.Now(), w, session.staged, step)
    ensures outcome.Returned? ==> step.SkipDuplicate? || step.CommitProjection?
    ensures outcome.Returned? && step.CommitProjection? ==>
              && m.payload.DocumentEnriched?
              && session.staged == [InsertClaimRow(Claim(m.eventId, Enriched)), PutView(ViewOf(m.payload))]
    ensures cluster.calm && outcome.Threw? ==> Provokes(cluster.c, old(cluster.Now()), w, outcome.error)
    ensures cluster.calm && outcome.Returned? ==>
              (step.SkipDuplicate? <==> Claim(m.eventId, Enriched) in old(cluster.db.ledger))
  {
    hide Inv, Run, TallyBy, Foreign, Enabled, Apply, Grows, Keeps, Busy, CommitReady, AtWork;
    ghost var start := cluster.Now();
    step := SkipDuplicate(w);
    StillAtWork(start, w, k, m, Opened) by { assert k.(phase := Opened) == k; }
    GrowsItself(start);
    if !m.payload.DocumentEnriched? {
      return Threw(AssertionError), step;
    }
    var first;
    outcome, first := ClaimEvent(cluster, w, k, m, session);
    if outcome.Threw? || !first {
      StillAtWork(cluster.Now(), w, k, m, Opened) by { assert k.(phase := Opened) == k; }
      return;
    }
    ghost var claimed := cluster.Now();
    cluster.Yield(Consumer(w));
    ghost var ready := cluster.Now();
    GrowsTrans(start, claimed, ready);
    StillBusy(claimed, ready, w, k.(phase := Claimed), m);
    StillAtWork(ready, w, k, m, Claimed);
    var failed := cluster.Fails();
    if failed {
      return Threw(DatabaseError), step;
    }
    var p := m.payload;
    var view := DocumentView(p.documentId, p.jobId, None, None, None, 0);
    if p.documentId in cluster.db.views {
      view := cluster.db.views[p.documentId];
      cluster.Sound();
      ViewKey(cluster.c, ready, p.documentId);
    }
    view := view.(jobId := p.jobId);
    view := view.(filename := p.viewFilename);
    view := view.(classification := p.classification);
    view := view.(summary := p.summary);
    view := view.(chunkCount := p.chunkCount);
    session.Add(PutView(view));
    assert session.staged == [InsertClaimRow(Claim(m.eventId, Enriched)), PutView(ViewOf(p))];
    ProjectionReady(cluster.c, ready, w, k.(phase := Claimed), m);
    step := CommitProjection(w, true);
  }
}
