/**
 * The embedding client: one text, or a list of texts sent to the provider
 * in consecutive requests of at most 100 texts whose answers are laid end
 * to end. The provider is a parameter mapping a request to its answer.
 */
module Embedder {
  import opened Wrappers
  import opened Seqs

  type Vector = seq<real>

  /** The most texts one provider request carries. */
  const ProviderBatchSize: nat := 100

  /** The requests made and what came of them. */
  datatype EmbedRun = EmbedRun(result: Result<seq<Vector>, Error>, requests: seq<seq<string>>)

  /** The provider answers every request with one vector per text. */
  ghost predicate AnswersEach(provider: seq<string> -> Result<seq<Vector>, Error>, requests: seq<seq<string>>) {
    forall k :: 0 <= k < |requests| ==>
      provider(requests[k]).Success? && |provider(requests[k]).value| == |requests[k]|
  }

  /** The answers to `requests`, in order; only meaningful when each succeeds. */
  function Answers(provider: seq<string> -> Result<seq<Vector>, Error>, requests: seq<seq<string>>): seq<seq<Vector>> {
    if |requests| == 0 then []
    else
      var first := match provider(requests[0]) case Success(v) => v case Failure(_) => [];
      [first] + Answers(provider, requests[1..])
  }

  /**
   * Sending the requests one after the other: the first failure stops the
   * run and is rethrown; otherwise the answers are concatenated.
   */
  function SendAll(requests: seq<seq<string>>, provider: seq<string> -> Result<seq<Vector>, Error>): (r: EmbedRun)
    ensures 0 < |r.requests| <= |requests| || (|requests| == 0 && r.requests == [])
    ensures r.requests == requests[..|r.requests|]
    ensures r.result.Success? <==> forall k :: 0 <= k < |requests| ==> provider(requests[k]).Success?
    ensures r.result.Success? ==> r.requests == requests && r.result.value == Concat(Answers(provider, requests))
    ensures r.result.Failure? ==>
      && (forall k :: 0 <= k < |r.requests| - 1 ==> provider(requests[k]).Success?)
      && provider(requests[|r.requests| - 1]) == Failure(r.result.error)
  {
    if |requests| == 0 then EmbedRun(Success([]), [])
    else
      match provider(requests[0])
      case Failure(e) => EmbedRun(Failure(e), [requests[0]])
      case Success(v) =>
        var rest := SendAll(requests[1..], provider);
        assert forall k :: 1 <= k < |requests| ==> requests[k] == requests[1..][k - 1];
        var result := if rest.result.Success? then Success(v + rest.result.value) else rest.result;
        EmbedRun(result, [requests[0]] + rest.requests)
  }

  /** `embedBatch`: an empty list asks nothing; otherwise batches of 100 are sent in order. */
  function EmbedBatch(texts: seq<string>, provider: seq<string> -> Result<seq<Vector>, Error>): (r: EmbedRun)
    ensures |texts| == 0 ==> r == EmbedRun(Success([]), [])
    ensures |r.requests| <= |Batches(texts, ProviderBatchSize)|
    ensures r.requests == Batches(texts, ProviderBatchSize)[..|r.requests|]
    ensures forall k :: 0 <= k < |r.requests| ==> 0 < |r.requests[k]| <= ProviderBatchSize
  {
    SendAll(Batches(texts, ProviderBatchSize), provider)
  }

  /**
   * When the provider answers every request with one vector per text, the
   * result holds one vector per input text, and the provider is asked
   * `ceil(n / 100)` times.
   */
  lemma EmbedBatchComplete(texts: seq<string>, provider: seq<string> -> Result<seq<Vector>, Error>)
    requires AnswersEach(provider, Batches(texts, ProviderBatchSize))
    ensures EmbedBatch(texts, provider).result.Success?
    ensures |EmbedBatch(texts, provider).result.value| == |texts|
    ensures var n := |EmbedBatch(texts, provider).requests|;
      |texts| <= n * ProviderBatchSize && (n > 0 ==> (n - 1) * ProviderBatchSize < |texts|)
  {
    var bs := Batches(texts, ProviderBatchSize);
    BatchCount(texts, ProviderBatchSize);
    AnswersLength(provider, bs);
  }

  /** With one vector per text in each answer, the answers hold one vector per text overall. */
  lemma {:induction false} AnswersLength(provider: seq<string> -> Result<seq<Vector>, Error>, requests: seq<seq<string>>)
    requires AnswersEach(provider, requests)
    ensures |Concat(Answers(provider, requests))| == |Concat(requests)|
  {
    if |requests| > 0 {
      assert AnswersEach(provider, requests[1..]) by {
        forall k | 0 <= k < |requests| - 1
          ensures provider(requests[1..][k]).Success? && |provider(requests[1..][k]).value| == |requests[1..][k]|
        {
          assert requests[1..][k] == requests[k + 1];
        }
      }
      AnswersLength(provider, requests[1..]);
    }
  }

  /** `embed`: one provider call for one text. */
  function Embed(text: string, provider: string -> Result<Vector, Error>): Result<Vector, Error> {
    provider(text)
  }

  /** The health probe succeeds exactly when embedding the word `test` does. */
  function HealthCheck(provider: string -> Result<Vector, Error>): (r: bool)
    ensures r <==> Embed("test", provider).Success?
  {
    provider("test").Success?
  }
}
