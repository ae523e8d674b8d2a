/** The LLM client: one call about a document's whole text, answered with a label and a summary. */
module LanguageModel {
  import opened Events

  datatype EnrichmentResult = EnrichmentResult(classification: string, summary: string)

  /** What the provider answers to its n-th call, by call number and text; nothing when it refuses. */
  type Oracle = (nat, string) -> Option<EnrichmentResult>

  /** No call is refused. */
  ghost predicate Willing(oracle: Oracle) {
    forall n, text :: oracle(n, text).Some?
  }

  class AnthropicLLM {
    const oracle: Oracle
    var calls: nat

    constructor (oracle: Oracle)
      ensures this.oracle == oracle && calls == 0
    {
      this.oracle, calls := oracle, 0;
    }

    method Enrich(text: string) returns (result: Option<EnrichmentResult>)
      modifies this
      ensures result == oracle(old(calls), text) && calls == old(calls) + 1
    {
      result := oracle(calls, text);
      calls := calls + 1;
    }
  }
}
