/** A worker process's Prometheus counters, one set a stage. */
module Metrics {
  import opened Topics
  import opened Model
  import opened Tallies

  class WorkerMetrics {
    var counts: Per<Tally>

    constructor ()
      ensures counts == Per(NOTHING, NOTHING, NOTHING)
    {
      counts := Per(NOTHING, NOTHING, NOTHING);
    }

    /** `events_processed_total{result="success"}` */
    method IncSucceeded(g: Stage)
      modifies this
      ensures counts == Bumped(old(counts), g, Tally(1, 0, 0, 0))
    {
      counts := counts.With(g, counts.At(g).(succeeded := counts.At(g).succeeded + 1));
    }

    /** `events_processed_total{result="failed"}` */
    method IncFailed(g: Stage)
      modifies this
      ensures counts == Bumped(old(counts), g, Tally(0, 1, 0, 0))
    {
      counts := counts.With(g, counts.At(g).(failed := counts.At(g).failed + 1));
    }

    method IncRetries(g: Stage)
      modifies this
      ensures counts == Bumped(old(counts), g, Tally(0, 0, 1, 0))
    {
      counts := counts.With(g, counts.At(g).(retries := counts.At(g).retries + 1));
    }

    method IncDlq(g: Stage)
      modifies this
      ensures counts == Bumped(old(counts), g, Tally(0, 0, 0, 1))
    {
      counts := counts.With(g, counts.At(g).(deadLetters := counts.At(g).deadLetters + 1));
    }
  }

  lemma BumpedTwice(p: Per<Tally>, g: Stage, a: Tally, b: Tally)
    ensures Bumped(Bumped(p, g, a), g, b) == Bumped(p, g, a.Plus(b))
  {
  }
}
