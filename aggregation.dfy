/** The functions that fold one pipeline result into the running aggregate. */
module Aggregation {

  datatype PipelineAggregation = Sum | Max | Min | Unrecognised(name: string)

  datatype AggregationFunction = SumAggregation | MaxAggregation | MinAggregation

  /** `f(aggregated, current)` */
  function Apply(f: AggregationFunction, aggregated: real, current: real): (r: real)
    ensures f == MaxAggregation ==> r >= aggregated && r >= current && (r == aggregated || r == current)
    ensures f == MinAggregation ==> r <= aggregated && r <= current && (r == aggregated || r == current)
  {
    match f
    case SumAggregation => aggregated + current
    case MaxAggregation => if aggregated >= current then aggregated else current
    case MinAggregation => if aggregated <= current then aggregated else current
  }

  /** Over the reals that model the samples, the sum is commutative and associative. */
  lemma SumCommutesAndAssociates(a: real, b: real, c: real)
    ensures Apply(SumAggregation, a, b) == Apply(SumAggregation, b, a)
    ensures Apply(SumAggregation, Apply(SumAggregation, a, b), c) ==
            Apply(SumAggregation, a, Apply(SumAggregation, b, c))
  {
  }

  /** The switch as written: the `Max` case returns the sum. */
  function GetAggregationFunction(aggregation: PipelineAggregation): (f: AggregationFunction)
    ensures aggregation == Min <==> f == MinAggregation
    ensures f != MaxAggregation
  {
    match aggregation
    case Max => SumAggregation
    case Min => MinAggregation
    case Sum => SumAggregation
    case Unrecognised(_) => SumAggregation
  }

  /** As written, asking for `Max` aggregates by summing, which is not a maximum. */
  lemma MaxSelectsSum()
    ensures GetAggregationFunction(Max) == SumAggregation
    ensures Apply(GetAggregationFunction(Max), 1.0, 2.0) == 3.0
    ensures Apply(MaxAggregation, 1.0, 2.0) == 2.0
  {
  }

  /** The switch with the `Max` case returning `MaxAggregation`. */
  function GetAggregationFunctionCorrected(aggregation: PipelineAggregation): (f: AggregationFunction)
    ensures aggregation == Max <==> f == MaxAggregation
    ensures aggregation == Min <==> f == MinAggregation
    ensures aggregation != Max ==> f == GetAggregationFunction(aggregation)
  {
    match aggregation
    case Max => MaxAggregation
    case Min => MinAggregation
    case Sum => SumAggregation
    case Unrecognised(_) => SumAggregation
  }
}
