/** The event backbone: pipeline stages, topic names and dead-letter names. */
module Topics {

  /** One stage of the chain ingested -> extracted -> enriched.  A stage names its event
      type, the topic its events travel on and the consumer group that handles them. */
  datatype Stage = Ingested | Extracted | Enriched

  datatype Topic = Pipeline(stage: Stage) | DeadLetter(stage: Stage)

  const DLQ_SUFFIX := ".DLQ"

  function StageTopicName(g: Stage): string {
    match g
    case Ingested => "documents.ingested"
    case Extracted => "documents.extracted"
    case Enriched => "documents.enriched"
  }

  predicate EndsWith(s: string, suffix: string) {
    |suffix| <= |s| && s[|s| - |suffix|..] == suffix
  }

  /** `dlq_topic` on topic names: already a dead-letter name, or the name with the suffix. */
  function DlqTopic(topic: string): string {
    if EndsWith(topic, DLQ_SUFFIX) then topic else topic + DLQ_SUFFIX
  }

  function Name(t: Topic): string {
    match t
    case Pipeline(g) => StageTopicName(g)
    case DeadLetter(g) => DlqTopic(StageTopicName(g))
  }

  lemma SuffixedEndsWith(s: string, suffix: string)
    ensures EndsWith(s + suffix, suffix)
  {
    assert (s + suffix)[|s + suffix| - |suffix|..] == suffix;
  }

  lemma SameEnding(s: string, suffix: string)
    requires EndsWith(s, suffix) && suffix != []
    ensures s[|s| - 1] == suffix[|suffix| - 1]
  {
    assert s[|s| - |suffix|..][|suffix| - 1] == s[|s| - 1];
  }

  lemma PipelineNamesAreNotDeadLetters()
    ensures forall g :: !EndsWith(StageTopicName(g), DLQ_SUFFIX)
  {
    forall g | EndsWith(StageTopicName(g), DLQ_SUFFIX)
      ensures StageTopicName(g)[|StageTopicName(g)| - 1] == 'Q'
    {
      SameEnding(StageTopicName(g), DLQ_SUFFIX);
    }
    forall g: Stage
      ensures StageTopicName(g)[|StageTopicName(g)| - 1] == 'd'
    {
      match g case Ingested => case Extracted => case Enriched =>
    }
  }

  /** Position 12 tells the stages apart. */
  lemma StageNamesDiffer(g: Stage, h: Stage)
    ensures StageTopicName(g) == StageTopicName(h) ==> g == h
  {
    assert forall k: Stage ::
        StageTopicName(k)[12] == (match k case Ingested => 'g' case Extracted => 't' case Enriched => 'r');
  }

  /** Dead-lettering is idempotent on every name, and two different names share a
      dead-letter topic only when one of them is already the other's dead-letter topic. */
  lemma DlqTopicLaws(s: string, t: string)
    ensures DlqTopic(DlqTopic(s)) == DlqTopic(s)
    ensures DlqTopic(s) == DlqTopic(t) <==>
              || s == t
              || (s == t + DLQ_SUFFIX && !EndsWith(t, DLQ_SUFFIX))
              || (t == s + DLQ_SUFFIX && !EndsWith(s, DLQ_SUFFIX))
  {
    SuffixedEndsWith(s, DLQ_SUFFIX);
    SuffixedEndsWith(t, DLQ_SUFFIX);
    if !EndsWith(s, DLQ_SUFFIX) && !EndsWith(t, DLQ_SUFFIX) && s + DLQ_SUFFIX == t + DLQ_SUFFIX {
      assert s == (s + DLQ_SUFFIX)[..|s|] == (t + DLQ_SUFFIX)[..|t|] == t;
    }
  }

  /** The six topics have six different names, so no log is shared by two of them. */
  lemma NamesAreDistinct(a: Topic, b: Topic)
    ensures Name(a) == Name(b) <==> a == b
  {
    PipelineNamesAreNotDeadLetters();
    SuffixedEndsWith(StageTopicName(a.stage), DLQ_SUFFIX);
    SuffixedEndsWith(StageTopicName(b.stage), DLQ_SUFFIX);
    DlqTopicLaws(StageTopicName(a.stage), StageTopicName(b.stage));
    StageNamesDiffer(a.stage, b.stage);
  }

  /** What they are called on the broker. */
  lemma TopicNames()
    ensures Name(Pipeline(Ingested)) == "documents.ingested"
    ensures Name(Pipeline(Extracted)) == "documents.extracted"
    ensures Name(Pipeline(Enriched)) == "documents.enriched"
    ensures forall g :: Name(DeadLetter(g)) == Name(Pipeline(g)) + ".DLQ"
  {
    PipelineNamesAreNotDeadLetters();
    hide EndsWith;
  }
}
