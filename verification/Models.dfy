/** Values shared by the evaluation modules. */
module Models {

  datatype Option<+T> = None | Some(value: T)

  /** The recorded price of one provider call, as far as it can be read. */
  datatype Amount = Missing | Unparsable | NotFinite | Finite(usd: real)

  /** One entry of `llm_traces`: not a dict, without pricing metadata, or priced. */
  datatype Trace = NotADict | NoPricing | Priced(totalCost: Amount, usageKnown: bool, pricingKnown: bool)

  /** The parts of an execution result that settlement reads. */
  datatype ExecutionResult = ExecutionResult(traces: seq<Trace>, totalTokens: nat, costDowngraded: bool)
}
