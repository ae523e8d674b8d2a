/** What the worker metrics should say: handler invocations counted from the protocol steps taken. */
module Tallies {
  import opened Topics
  import opened Events
  import opened Model

  /** `events_processed_total` by result, `retries_total` and `dlq_total`, of one stage. */
  datatype Tally = Tally(succeeded: nat, failed: nat, retries: nat, deadLetters: nat) {
    function Plus(t: Tally): Tally {
      Tally(succeeded + t.succeeded, failed + t.failed, retries + t.retries, deadLetters + t.deadLetters)
    }
  }

  const NOTHING := Tally(0, 0, 0, 0)
  const SUCCESS := Tally(1, 0, 0, 0)
  const RETRY := Tally(0, 1, 1, 0)
  const LAST_FAILURE := Tally(0, 1, 0, 1)

  function Bumped(p: Per<Tally>, g: Stage, t: Tally): Per<Tally> {
    p.With(g, p.At(g).Plus(t))
  }

  /** The step ends a handler invocation. */
  predicate IsOutcome(step: Step) {
    || step.SkipDuplicate? || step.CommitNoJob? || step.CommitExtraction? || step.CommitEnrichment?
    || step.CommitProjection? || step.Raise?
  }

  /** ... and the handler's caller sees it return. */
  predicate Returns(step: Step) {
    || step.SkipDuplicate? || (step.CommitNoJob? && step.acked) || (step.CommitExtraction? && step.acked)
    || (step.CommitEnrichment? && step.acked) || (step.CommitProjection? && step.acked)
  }

  /** One more failure of a message: the last one its attempts allow, or one to be retried. */
  function FailureOf(c: Config, m: Envelope): Tally {
    if Exhausted(c, m) then LAST_FAILURE else RETRY
  }

  /** The counts after one more step. */
  function Counting(c: Config, s: State, step: Step, p: Per<Tally>): Per<Tally> {
    if IsOutcome(step) && HasRecord(s, step.w) then
      Bumped(p, s.workers[step.w].stage, if Returns(step) then SUCCESS else FailureOf(c, Record(s, step.w)))
    else p
  }

  /** The invocations one consumer ended along a history. */
  function TallyBy(c: Config, history: seq<Step>, w: nat): Per<Tally> {
    if history == [] then Per(NOTHING, NOTHING, NOTHING)
    else
      var step := history[|history| - 1];
      var so := TallyBy(c, history[..|history| - 1], w);
      var before := Run(c, Init(), history[..|history| - 1]);
      if before.Some? && IsOutcome(step) && step.w == w then Counting(c, before.value, step, so) else so
  }

  /** The invocations all consumers ended. */
  function TallyAll(c: Config, history: seq<Step>): Per<Tally> {
    if history == [] then Per(NOTHING, NOTHING, NOTHING)
    else
      var before := Run(c, Init(), history[..|history| - 1]);
      var so := TallyAll(c, history[..|history| - 1]);
      if before.Some? then Counting(c, before.value, history[|history| - 1], so) else so
  }

  lemma TallyAppend(c: Config, history: seq<Step>, step: Step, w: nat)
    requires Run(c, Init(), history).Some?
    ensures TallyBy(c, history + [step], w) ==
              if IsOutcome(step) && step.w == w then Counting(c, Run(c, Init(), history).value, step,
                                                              TallyBy(c, history, w))
              else TallyBy(c, history, w)
  {
    hide Run, Counting;
    assert (history + [step])[..|history|] == history;
  }

  // ----- the consumers' counts add up -----------------------------------------------------

  function Sum(a: Per<Tally>, b: Per<Tally>): Per<Tally> {
    Per(a.ingested.Plus(b.ingested), a.extracted.Plus(b.extracted), a.enriched.Plus(b.enriched))
  }

  /** The counts of consumers 0 to n - 1 together. */
  function TallyBelow(c: Config, history: seq<Step>, n: nat): Per<Tally> {
    if n == 0 then Per(NOTHING, NOTHING, NOTHING) else Sum(TallyBelow(c, history, n - 1), TallyBy(c, history, n - 1))
  }

  lemma SumBumped(a: Per<Tally>, b: Per<Tally>, g: Stage, t: Tally)
    ensures Sum(a, Bumped(b, g, t)) == Bumped(Sum(a, b), g, t) && Sum(Bumped(a, g, t), b) == Bumped(Sum(a, b), g, t)
  {
  }

  /** One more step is counted for its own consumer, so once in the sum. */
  lemma {:induction false} BelowAppend(c: Config, history: seq<Step>, step: Step, n: nat)
    requires Run(c, Init(), history).Some?
    ensures TallyBelow(c, history + [step], n) ==
              if IsOutcome(step) && step.w < n then Counting(c, Run(c, Init(), history).value, step,
                                                             TallyBelow(c, history, n))
              else TallyBelow(c, history, n)
  {
    hide Run, TallyBy, Bumped, FailureOf, Sum, Record;
    if n > 0 {
      BelowAppend(c, history, step, n - 1);
      TallyAppend(c, history, step, n - 1);
      if IsOutcome(step) {
        var s := Run(c, Init(), history).value;
        if HasRecord(s, step.w) {
          var t := if Returns(step) then SUCCESS else FailureOf(c, Record(s, step.w));
          SumBumped(TallyBelow(c, history, n - 1), TallyBy(c, history, n - 1), s.workers[step.w].stage, t);
        }
      }
    }
  }

  /** Every process's own counters, added up, count every invocation once. */
  lemma {:induction false} CountersAddUp(c: Config, history: seq<Step>, n: nat)
    requires Run(c, Init(), history).Some?
    requires forall i :: 0 <= i < |history| && IsOutcome(history[i]) ==> history[i].w < n
    ensures TallyBelow(c, history, n) == TallyAll(c, history)
  {
    hide Enabled, Apply, Counting, TallyBy, TallyBelow;
    if history == [] {
      NothingBelow(c, n);
    } else {
      var last := |history| - 1;
      CountersAddUp(c, history[..last], n);
      assert history == history[..last] + [history[last]];
      BelowAppend(c, history[..last], history[last], n);
      OnlyOutcomesCount(c, Run(c, Init(), history[..last]).value, history[last], TallyAll(c, history[..last]));
    }
  }

  lemma OnlyOutcomesCount(c: Config, s: State, step: Step, p: Per<Tally>)
    ensures !IsOutcome(step) ==> Counting(c, s, step, p) == p
  {
  }

  lemma {:induction false} NothingBelow(c: Config, n: nat)
    ensures TallyBelow(c, [], n) == Per(NOTHING, NOTHING, NOTHING)
  {
    if n > 0 {
      NothingBelow(c, n - 1);
    }
  }
}
