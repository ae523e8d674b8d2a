/** The embedder: batches of texts, one retry for a batch that hits the rate limit. */
module Embedding {
  import opened Events
  import opened Model

  const EMBED_BATCH_SIZE := 20

  datatype Reply = Vectors(vectors: seq<Vector>) | RateLimited | ApiError

  /** What the provider answers to its n-th call, by call number and texts sent. */
  type Provider = (nat, seq<string>) -> Reply

  /** What a run of calls produced, and how many calls it took. */
  datatype Answer = Answer(vectors: Option<seq<Vector>>, calls: nat)

  /** One batch, starting at call `n`: only a rate limit earns a second call, and only one. */
  function OneBatch(provider: Provider, n: nat, batch: seq<string>): (a: Answer)
    ensures 1 <= a.calls <= 2
  {
    match provider(n, batch)
    case Vectors(vectors) => Answer(Some(vectors), 1)
    case ApiError => Answer(None, 1)
    case RateLimited =>
      match provider(n + 1, batch)
      case Vectors(vectors) => Answer(Some(vectors), 2)
      case _ => Answer(None, 2)
  }

  function Head(texts: seq<string>): seq<string> {
    if EMBED_BATCH_SIZE < |texts| then texts[..EMBED_BATCH_SIZE] else texts
  }

  /** Batch after batch, giving up at the first that does not get through. */
  function Whole(provider: Provider, n: nat, texts: seq<string>): Answer
    decreases |texts|
  {
    if texts == [] then Answer(Some([]), 0)
    else
      var first := OneBatch(provider, n, Head(texts));
      if first.vectors.None? then first
      else Then(first.vectors.value, first.calls, Whole(provider, n + first.calls, texts[|Head(texts)|..]))
  }

  /** `vectors` after `calls` calls, and then the rest. */
  function Then(vectors: seq<Vector>, calls: nat, rest: Answer): Answer {
    Answer(if rest.vectors.None? then None else Some(vectors + rest.vectors.value), calls + rest.calls)
  }

  lemma ThenAgain(a: seq<Vector>, m: nat, b: seq<Vector>, n: nat, rest: Answer)
    ensures Then(a, m, Then(b, n, rest)) == Then(a + b, m + n, rest)
  {
    if rest.vectors.Some? {
      assert a + (b + rest.vectors.value) == (a + b) + rest.vectors.value;
    }
  }

  lemma NothingMore(vectors: seq<Vector>, calls: nat, whole: Answer)
    ensures Then([], 0, whole) == whole
    ensures Then(vectors, calls, Answer(Some([]), 0)) == Answer(Some(vectors), calls)
  {
    assert vectors + [] == vectors;
    if whole.vectors.Some? {
      assert [] + whole.vectors.value == whole.vectors.value;
    }
  }

  lemma WholeOfNothing(provider: Provider, n: nat)
    ensures Whole(provider, n, []) == Answer(Some([]), 0)
  {
  }

  /** The batch from `start` to `end` and what its call or two calls come to. */
  lemma NextBatch(provider: Provider, n: nat, texts: seq<string>, start: nat, end: nat, vectors: seq<Vector>,
        calls: nat)
    requires start < |texts| && end == if start + EMBED_BATCH_SIZE < |texts| then start + EMBED_BATCH_SIZE else |texts|
    ensures var first := OneBatch(provider, n, texts[start..end]);
            var whole := Then(vectors, calls, Whole(provider, n, texts[start..]));
            if first.vectors.None? then whole == Answer(None, calls + first.calls)
            else whole == Then(vectors + first.vectors.value, calls + first.calls,
                               Whole(provider, n + first.calls, texts[end..]))
  {
    var batch := texts[start..end];
    assert batch == Head(texts[start..]) && texts[start..][|batch|..] == texts[end..];
    var first := OneBatch(provider, n, batch);
    if first.vectors.Some? {
      ThenAgain(vectors, calls, first.vectors.value, first.calls, Whole(provider, n + first.calls, texts[end..]));
    }
  }

  function Embeddings(model: string -> Vector, texts: seq<string>): seq<Vector> {
    seq(|texts|, i requires 0 <= i < |texts| => model(texts[i]))
  }

  /** Every reply with vectors has one for each text sent. */
  ghost predicate Complete(provider: Provider) {
    forall n, texts :: provider(n, texts).Vectors? ==> |provider(n, texts).vectors| == |texts|
  }

  /** Every reply with vectors embeds each text by the same model. */
  ghost predicate Faithful(provider: Provider, model: string -> Vector) {
    forall n, texts :: provider(n, texts).Vectors? ==> provider(n, texts).vectors == Embeddings(model, texts)
  }

  /** No call fails but for a rate limit, and none is limited twice in a row. */
  ghost predicate Patient(provider: Provider) {
    forall n: nat, texts ::
      !provider(n, texts).ApiError? && (provider(n, texts).RateLimited? ==> provider(n + 1, texts).Vectors?)
  }

  /** Each text's embedding, in order, whichever batches had to be retried. */
  lemma {:induction false} BatchingIsElementwise(provider: Provider, model: string -> Vector, n: nat,
        texts: seq<string>)
    requires Faithful(provider, model)
    ensures Whole(provider, n, texts).vectors.Some? ==>
              Whole(provider, n, texts).vectors.value == Embeddings(model, texts)
    decreases |texts|
  {
    if texts != [] {
      var first := OneBatch(provider, n, Head(texts));
      BatchingIsElementwise(provider, model, n + first.calls, texts[|Head(texts)|..]);
      assert Embeddings(model, texts) == Embeddings(model, Head(texts)) + Embeddings(model, texts[|Head(texts)|..]);
    }
  }

  lemma {:induction false} OneVectorEach(provider: Provider, n: nat, texts: seq<string>)
    requires Complete(provider)
    ensures Whole(provider, n, texts).vectors.Some? ==> |Whole(provider, n, texts).vectors.value| == |texts|
    decreases |texts|
  {
    if texts != [] {
      var first := OneBatch(provider, n, Head(texts));
      OneVectorEach(provider, n + first.calls, texts[|Head(texts)|..]);
    }
  }

  /** How many twenties cover `n` texts. */
  function Twenties(n: nat): nat {
    (n + 19) / 20
  }

  /** At most two calls for every twenty texts; when the texts get through, at least one.  A provider that
      only ever limits a batch once always lets them through. */
  lemma {:induction false} CallsAreBounded(provider: Provider, n: nat, texts: seq<string>)
    ensures var a := Whole(provider, n, texts);
            && a.calls <= 2 * ((|texts| + 19) / 20)
            && (a.vectors.Some? ==> (|texts| + 19) / 20 <= a.calls)
            && (Patient(provider) ==> a.vectors.Some?)
    decreases |texts|
  {
    if texts != [] {
      var first := OneBatch(provider, n, Head(texts));
      CallsAreBounded(provider, n + first.calls, texts[|Head(texts)|..]);
      assert |Head(texts)| == EMBED_BATCH_SIZE || |Head(texts)| == |texts|;
      assert Twenties(|texts|) == 1 + Twenties(|texts| - |Head(texts)|);
    }
  }

  /** Only a rate limit earns a second call: without one there is a call for every twenty texts at most, and
      a refusal ends it all at once. */
  lemma {:induction false} OnlyLimitsAreRetried(provider: Provider, n: nat, texts: seq<string>)
    ensures (forall k, batch :: !provider(k, batch).RateLimited?) ==>
              Whole(provider, n, texts).calls <= (|texts| + 19) / 20
    ensures texts != [] && provider(n, if 20 < |texts| then texts[..20] else texts).ApiError? ==>
              Whole(provider, n, texts) == Answer(None, 1)
    decreases |texts|
  {
    if texts != [] {
      var first := OneBatch(provider, n, Head(texts));
      OnlyLimitsAreRetried(provider, n + first.calls, texts[|Head(texts)|..]);
      assert |Head(texts)| == EMBED_BATCH_SIZE || |Head(texts)| == |texts|;
      assert Twenties(|texts|) == 1 + Twenties(|texts| - |Head(texts)|);
    }
  }

  class OpenAIEmbedder {
    const provider: Provider
    var calls: nat

    constructor (provider: Provider)
      ensures this.provider == provider && calls == 0
    {
      this.provider, calls := provider, 0;
    }

    method Create(input: seq<string>) returns (reply: Reply)
      modifies this
      ensures reply == provider(old(calls), input) && calls == old(calls) + 1
    {
      reply := provider(calls, input);
      calls := calls + 1;
    }

    /** One retry, and only for a rate limit. */
    method CreateWithRetry(batch: seq<string>) returns (result: Option<seq<Vector>>)
      modifies this
      ensures old(calls) <= calls && Answer(result, calls - old(calls)) == OneBatch(provider, old(calls), batch)
    {
      var reply := Create(batch);
      if reply.RateLimited? {
        reply := Create(batch);
      }
      result := if reply.Vectors? then Some(reply.vectors) else None;
    }

    /** Nothing when a batch could not be embedded. */
    method Embed(texts: seq<string>) returns (result: Option<seq<Vector>>)
      modifies this
      ensures old(calls) <= calls
      ensures Answer(result, calls - old(calls)) == Whole(provider, old(calls), texts)
    {
      if texts == [] {
        return Some([]);
      }
      ghost var whole := Whole(provider, calls, texts);
      NothingMore([], 0, whole);
      assert texts[0..] == texts && texts[|texts|..] == [];
      hide Whole, Then, OneBatch;
      var vectors: seq<Vector> := [];
      var start := 0;
      while start < |texts|
        invariant start <= |texts| && old(calls) <= calls
        invariant whole == Then(vectors, calls - old(calls), Whole(provider, calls, texts[start..]))
      {
        var end := if start + EMBED_BATCH_SIZE < |texts| then start + EMBED_BATCH_SIZE else |texts|;
        var batch := texts[start..end];
        NextBatch(provider, calls, texts, start, end, vectors, calls - old(calls));
        var embedded := CreateWithRetry(batch);
        if embedded.None? {
          return None;
        }
        vectors := vectors + embedded.value;
        start := end;
      }
      WholeOfNothing(provider, calls);
      NothingMore(vectors, calls - old(calls), whole);
      result := Some(vectors);
    }
  }
}
