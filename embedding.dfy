/**
 * The embedding generator: token counting with its 1-token-per-4-characters
 * fallback, validation of single texts and batches against the model's limits,
 * and the cost estimate. The tokenizer and the embedding service are oracles
 * passed in as functions: `encode` yields None where the tokenizer raises,
 * `embed` yields None where the service call raises.
 */
module Embedding {
  import opened Common

  type Token = int
  type Vector = seq<real>

  /** The tokenizer's encode; None stands for an exception. */
  type Encoder = string -> Option<seq<Token>>

  /** One request to the embedding service: the vectors of the response, in response order. */
  type EmbedService = seq<string> -> Option<seq<Vector>>

  const MaxItemTokens: nat := 8000
  const MaxBatchTexts: nat := 2048
  const Dimensions: nat := 3072
  const CostPerMillionTokens: real := 0.13

  datatype EmbedError =
    | EmptyText
    | TextTooLong(tokens: nat)
    | EmptyList
    | AllTextsBlank
    | TooManyTexts(count: nat)
    | ItemTooLong(tokens: nat)
    | ProviderError

  /** count_tokens: the tokenizer's count, or len(text) // 4 when the tokenizer raises. Never fails. */
  function CountTokens(encode: Encoder, text: string): (n: nat)
    ensures encode(text).Some? ==> n == |encode(text).value|
    ensures encode(text).None? ==> 4 * n <= |text| < 4 * n + 4
  {
    match encode(text)
    case Some(tokens) => |tokens|
    case None => |text| / 4
  }

  // ---------------------------------------------------------------------
  // generate_embedding
  // ---------------------------------------------------------------------

  datatype Single = Single(embedding: Vector, tokenCount: nat, dimensions: nat)

  /**
   * A blank text and a text over 8000 tokens are rejected; otherwise one
   * request is made and the first vector of the response is returned (an
   * empty response raises IndexError in the source, reported as a provider error).
   */
  function GenerateEmbedding(text: string, encode: Encoder, embed: EmbedService): (r: Result<Single, EmbedError>)
    ensures IsBlank(text) ==> r == Err(EmptyText)
    ensures !IsBlank(text) && CountTokens(encode, text) > MaxItemTokens ==>
              r == Err(TextTooLong(CountTokens(encode, text)))
    ensures r.Ok? ==>
              && !IsBlank(text)
              && r.value.tokenCount == CountTokens(encode, text) <= MaxItemTokens
              && embed([text]).Some? && |embed([text]).value| > 0
              && r.value.embedding == embed([text]).value[0]
              && r.value.dimensions == |r.value.embedding|
    ensures r.Err? && r.error == ProviderError ==>
              !IsBlank(text) && CountTokens(encode, text) <= MaxItemTokens
  {
    if IsBlank(text) then Err(EmptyText)
    else
      var tokenCount := CountTokens(encode, text);
      if tokenCount > MaxItemTokens then Err(TextTooLong(tokenCount))
      else match embed([text])
        case Some(vectors) =>
          if |vectors| > 0 then Ok(Single(vectors[0], tokenCount, |vectors[0]|)) else Err(ProviderError)
        case None => Err(ProviderError)
  }

  /** Both rejections happen before the service is consulted: the answer does not depend on it. */
  lemma ValidationPrecedesRequest(text: string, encode: Encoder, embed1: EmbedService, embed2: EmbedService)
    requires IsBlank(text) || CountTokens(encode, text) > MaxItemTokens
    ensures GenerateEmbedding(text, encode, embed1) == GenerateEmbedding(text, encode, embed2)
    ensures GenerateEmbedding(text, encode, embed1).Err?
  {
  }

  // ---------------------------------------------------------------------
  // generate_embeddings_batch
  // ---------------------------------------------------------------------

  /** `[t for t in texts if t and t.strip()]`: the non-blank texts, in input order. */
  function NonBlank(texts: seq<string>): (r: seq<string>)
    ensures |r| <= |texts|
    ensures forall t :: t in r <==> t in texts && !IsBlank(t)
  {
    if texts == [] then []
    else (if IsBlank(texts[0]) then [] else [texts[0]]) + NonBlank(texts[1..])
  }

  /**
   * Filtering distributes over concatenation: the kept texts of `a + b` are
   * those of `a` followed by those of `b`, so the input order is kept.
   */
  lemma {:induction false} NonBlankAppend(a: seq<string>, b: seq<string>)
    ensures NonBlank(a + b) == NonBlank(a) + NonBlank(b)
  {
    if a == [] {
      assert a + b == b;
    } else {
      assert (a + b)[1..] == a[1..] + b;
      NonBlankAppend(a[1..], b);
    }
  }

  /** Each non-blank text is kept as often as it occurs; a blank one never. */
  lemma {:induction false} NonBlankCounts(texts: seq<string>, t: string)
    ensures multiset(NonBlank(texts))[t] == if IsBlank(t) then 0 else multiset(texts)[t]
  {
    if texts != [] {
      NonBlankCounts(texts[1..], t);
      assert texts == [texts[0]] + texts[1..];
    }
  }

  /** The sum of count_tokens over a list of texts. */
  function SumTokens(encode: Encoder, texts: seq<string>): nat
  {
    if texts == [] then 0
    else SumTokens(encode, texts[..|texts| - 1]) + CountTokens(encode, texts[|texts| - 1])
  }

  /** The token count of the first text over the per-item ceiling, if any. */
  function FirstOversize(encode: Encoder, texts: seq<string>): (r: Option<nat>)
    ensures r.None? <==> forall i :: 0 <= i < |texts| ==> CountTokens(encode, texts[i]) <= MaxItemTokens
    ensures r.Some? ==> r.value > MaxItemTokens
  {
    if texts == [] then None
    else if CountTokens(encode, texts[0]) > MaxItemTokens then Some(CountTokens(encode, texts[0]))
    else FirstOversize(encode, texts[1..])
  }

  lemma {:induction false} FirstOversizeAt(encode: Encoder, texts: seq<string>, i: nat)
    requires i < |texts|
    requires forall j :: 0 <= j < i ==> CountTokens(encode, texts[j]) <= MaxItemTokens
    requires CountTokens(encode, texts[i]) > MaxItemTokens
    ensures FirstOversize(encode, texts) == Some(CountTokens(encode, texts[i]))
  {
    if i > 0 {
      FirstOversizeAt(encode, texts[1..], i - 1);
    }
  }

  datatype Batch = Batch(embeddings: seq<Vector>, count: nat, totalTokens: nat, dimensions: nat)

  /**
   * What one call of generate_embeddings_batch returns: the empty list, an
   * all-blank list, more than 2048 non-blank texts and any single non-blank
   * text over 8000 tokens are rejected before the request; on success the
   * response's vectors are returned in response order with the token total.
   */
  function EmbedBatch(texts: seq<string>, encode: Encoder, embed: EmbedService): (r: Result<Batch, EmbedError>)
    ensures texts == [] ==> r == Err(EmptyList)
    ensures texts != [] && (forall i :: 0 <= i < |texts| ==> IsBlank(texts[i])) ==> r == Err(AllTextsBlank)
    ensures |NonBlank(texts)| > MaxBatchTexts ==> r == Err(TooManyTexts(|NonBlank(texts)|))
    ensures 0 < |NonBlank(texts)| <= MaxBatchTexts
            && (exists t :: t in texts && !IsBlank(t) && CountTokens(encode, t) > MaxItemTokens) ==>
              r.Err? && r.error.ItemTooLong? && r.error.tokens > MaxItemTokens
    ensures r.Ok? ==>
              && 0 < |NonBlank(texts)| <= MaxBatchTexts
              && (forall t :: t in texts && !IsBlank(t) ==> CountTokens(encode, t) <= MaxItemTokens)
              && embed(NonBlank(texts)) == Some(r.value.embeddings)
              && r.value.count == |r.value.embeddings|
              && r.value.totalTokens == SumTokens(encode, NonBlank(texts))
  {
    if texts == [] then Err(EmptyList)
    else
      var valid := NonBlank(texts);
      if valid == [] then
        assert !exists t :: t in texts && !IsBlank(t);
        Err(AllTextsBlank)
      else
        assert valid[0] in valid;
        if |valid| > MaxBatchTexts then Err(TooManyTexts(|valid|))
        else match FirstOversize(encode, valid)
        case Some(n) => Err(ItemTooLong(n))
        case None =>
          match embed(valid)
          case None => Err(ProviderError)
          case Some(vectors) =>
            Ok(Batch(vectors, |vectors|, SumTokens(encode, valid), if vectors == [] then 0 else |vectors[0]|))
  }

  /** When the service answers one vector per text, there is one embedding per non-blank input text. */
  lemma OneEmbeddingPerValidText(texts: seq<string>, encode: Encoder, embed: EmbedService)
    requires EmbedBatch(texts, encode, embed).Ok?
    requires embed(NonBlank(texts)).Some? && |embed(NonBlank(texts)).value| == |NonBlank(texts)|
    ensures EmbedBatch(texts, encode, embed).value.count == |NonBlank(texts)|
  {
  }

  /** generate_embeddings_batch: validation, then a loop that checks and sums each text's tokens. */
  method GenerateEmbeddingsBatch(texts: seq<string>, encode: Encoder, embed: EmbedService)
    returns (r: Result<Batch, EmbedError>)
    ensures r == EmbedBatch(texts, encode, embed)
  {
    if texts == [] {
      return Err(EmptyList);
    }
    var valid := NonBlank(texts);
    if valid == [] {
      return Err(AllTextsBlank);
    }
    if |valid| > MaxBatchTexts {
      return Err(TooManyTexts(|valid|));
    }
    var totalTokens := 0;
    var i := 0;
    while i < |valid|
      invariant 0 <= i <= |valid|
      invariant totalTokens == SumTokens(encode, valid[..i])
      invariant forall j :: 0 <= j < i ==> CountTokens(encode, valid[j]) <= MaxItemTokens
    {
      var tokens := CountTokens(encode, valid[i]);
      if tokens > MaxItemTokens {
        FirstOversizeAt(encode, valid, i);
        return Err(ItemTooLong(tokens));
      }
      assert valid[..i + 1][..i] == valid[..i];
      totalTokens := totalTokens + tokens;
      i := i + 1;
    }
    assert valid[..i] == valid;
    match embed(valid)
    case None =>
      r := Err(ProviderError);
    case Some(vectors) =>
      r := Ok(Batch(vectors, |vectors|, totalTokens, if vectors == [] then 0 else |vectors[0]|));
  }

  // ---------------------------------------------------------------------
  // estimate_cost
  // ---------------------------------------------------------------------

  datatype Cost = Cost(tokens: int, costUsd: real)

  /** 0.13 USD per million tokens, as an exact rational (the source's 6-decimal rounding is not modelled). */
  function EstimateCost(tokenCount: int): (c: Cost)
    ensures c.tokens == tokenCount
    ensures c.costUsd * 1000000.0 == tokenCount as real * CostPerMillionTokens
  {
    Cost(tokenCount, tokenCount as real / 1000000.0 * CostPerMillionTokens)
  }
}
