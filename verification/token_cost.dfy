/** The token meter of services/token_cost_service.py: a tokenizer-backed
    counter and linear per-1,000-token pricing for gpt-4o-mini. The tokenizer
    library is a parameter; prices are exact reals. */
module TokenCost {
  import opened Results

  /** A tokenizer encoding, identified by its name. */
  datatype Encoding = Encoding(name: string)

  /** The encoding used when the model has no known mapping. */
  const FallbackEncoding := Encoding("cl100k_base")

  /** The model the service prices by default. */
  const DefaultModel := "gpt-4o-mini"

  /** Price in dollars per 1,000 input tokens. */
  const CostPer1kInput: real := 0.00015

  /** Price in dollars per 1,000 output tokens. */
  const CostPer1kOutput: real := 0.00060

  /** `encoding_for_model`: the model's own encoding, or None where the
      library raises KeyError. */
  type EncodingLookup = string -> Option<Encoding>

  /** `Encoding.encode`: the token ids of a text under an encoding. */
  type Tokenizer = (Encoding, string) -> seq<nat>

  datatype TokenCostService = TokenCostService(modelName: string, encoding: Encoding)

  /** The constructor with `_load_encoding`: it takes the model's encoding
      when the library knows the model and `cl100k_base` otherwise, and so
      yields a service for every model name. */
  function NewTokenCostService(lookup: EncodingLookup, modelName: string := DefaultModel)
    : (svc: TokenCostService)
    ensures svc.modelName == modelName
    ensures lookup(modelName).Some? ==> svc.encoding == lookup(modelName).value
    ensures lookup(modelName).None? ==> svc.encoding == FallbackEncoding
  {
    var encoding := match lookup(modelName)
      case Some(e) => e
      case None => FallbackEncoding;
    TokenCostService(modelName, encoding)
  }

  /** `count_tokens`: 0 for the empty text, otherwise the number of tokens
      the service's encoding produces. */
  function CountTokens(svc: TokenCostService, encode: Tokenizer, text: string): (n: nat)
    ensures text == "" ==> n == 0
    ensures text != "" ==> n == |encode(svc.encoding, text)|
  {
    if text == "" then 0 else |encode(svc.encoding, text)|
  }

  /** The meter `TokenCostService()` builds counts with the default model's
      own encoding when the library knows it, and with `cl100k_base`
      otherwise. */
  lemma DefaultMeterCounts(lookup: EncodingLookup, encode: Tokenizer, text: string)
    requires text != ""
    ensures var n := CountTokens(NewTokenCostService(lookup), encode, text);
      && (lookup(DefaultModel).Some? ==> n == |encode(lookup(DefaultModel).value, text)|)
      && (lookup(DefaultModel).None? ==> n == |encode(FallbackEncoding, text)|)
  {
  }

  /** `estimate_input_cost`: the price of `tokenCount` prompt tokens. */
  function EstimateInputCost(tokenCount: int): (c: real)
    ensures c == tokenCount as real * 0.00000015
    ensures tokenCount >= 0 ==> c >= 0.0
  {
    (tokenCount as real / 1000.0) * CostPer1kInput
  }

  /** `estimate_output_cost`: the price of `tokenCount` completion tokens. */
  function EstimateOutputCost(tokenCount: int): (c: real)
    ensures c == tokenCount as real * 0.0000006
    ensures tokenCount >= 0 ==> c >= 0.0
  {
    (tokenCount as real / 1000.0) * CostPer1kOutput
  }

  /** `estimate_total_cost`: input and output priced separately and added. */
  function EstimateTotalCost(inputTokens: int, outputTokens: int): (c: real)
    ensures c == (inputTokens as real * 0.15 + outputTokens as real * 0.6) / 1000000.0
  {
    EstimateInputCost(inputTokens) + EstimateOutputCost(outputTokens)
  }

  /** Zero tokens cost nothing, in both directions. */
  lemma CostOfNothing()
    ensures EstimateInputCost(0) == 0.0 && EstimateOutputCost(0) == 0.0
    ensures EstimateTotalCost(0, 0) == 0.0
  {
  }

  /** More tokens never cost less. */
  lemma CostMonotone(a: int, b: int)
    requires a <= b
    ensures EstimateInputCost(a) <= EstimateInputCost(b)
    ensures EstimateOutputCost(a) <= EstimateOutputCost(b)
  {
  }

  /** Pricing is linear: the cost of two batches is the sum of their costs,
      and the total splits into its input and output parts. */
  lemma CostAdditive(a: int, b: int)
    ensures EstimateInputCost(a + b) == EstimateInputCost(a) + EstimateInputCost(b)
    ensures EstimateOutputCost(a + b) == EstimateOutputCost(a) + EstimateOutputCost(b)
    ensures EstimateTotalCost(a, b) == EstimateInputCost(a) + EstimateOutputCost(b)
  {
  }

  /** An output token costs four times an input token. */
  lemma OutputCostIsFourfold(n: int)
    ensures EstimateOutputCost(n) == 4.0 * EstimateInputCost(n)
  {
  }
}
