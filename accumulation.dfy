/**
  The gradient-accumulation report the training script prints before it
  trains: from the mini-batch size and either a requested effective batch
  size or an explicit number of accumulation steps, it derives how many
  mini-batches are accumulated per update and the resulting batch size.
 */
module Accumulation {
  import opened Wrappers

  /** Python's `a // b`: division rounded towards negative infinity. */
  function FloorDiv(a: int, b: int): (q: int)
    requires b != 0
    ensures b > 0 ==> b * q <= a < b * q + b
    ensures b < 0 ==> b * q >= a > b * q + b
  {
    if b > 0 then a / b
    else
      var q := (-a) / (-b);
      assert (-b) * q <= -a < (-b) * q + (-b);
      assert (-b) * q == -(b * q);
      q
  }

  /** Python's truthiness of an optional int: present and non-zero. */
  predicate Truthy(n: Option<int>) {
    n.Some? && n.value != 0
  }

  /** `max(1, requested // miniBatch)`: the accumulation steps for a requested effective batch. */
  function AccumulationSteps(requested: int, miniBatch: int): (steps: int)
    requires miniBatch != 0
    ensures steps >= 1
    ensures miniBatch > 0 && requested >= miniBatch ==>
              steps * miniBatch <= requested < steps * miniBatch + miniBatch
    ensures miniBatch > 0 && requested < 2 * miniBatch ==> steps == 1
  {
    var q := FloorDiv(requested, miniBatch);
    if q > 1 then q else 1
  }

  /** What the script reports about batching. */
  datatype Report =
    | /** `--effective_batch_size` given: the steps are derived, the note says whether the request was met. */
      Derived(miniBatch: int, steps: int, effective: int, adjusted: bool)
    | /** `--gradient_accumulation_steps` above 1: the steps are as given. */
      Explicit(miniBatch: int, steps: int, effective: int)
    | /** Neither: one mini-batch per update. */
      NoAccumulation(miniBatch: int)

  /** The one way the computation fails: `//` by a zero mini-batch size. */
  datatype PlanError = ZeroDivision

  /** The batching report printed in `main` from `config.batch_size` and the two flags. */
  function Plan(miniBatch: int, effectiveBatchSize: Option<int>, gradientAccumulationSteps: int)
    : (r: Result<Report, PlanError>)
    ensures r.Failure? <==> Truthy(effectiveBatchSize) && miniBatch == 0
    ensures r.Success? && Truthy(effectiveBatchSize) ==>
              var p := r.value;
              && p.Derived? && p.miniBatch == miniBatch
              && p.steps == AccumulationSteps(effectiveBatchSize.value, miniBatch)
              && p.steps >= 1
              && p.effective == p.steps * miniBatch
              && (p.adjusted <==> p.effective != effectiveBatchSize.value)
    ensures !Truthy(effectiveBatchSize) && gradientAccumulationSteps > 1 ==>
              r == Success(Explicit(miniBatch, gradientAccumulationSteps,
                                    gradientAccumulationSteps * miniBatch))
    ensures !Truthy(effectiveBatchSize) && gradientAccumulationSteps <= 1 ==>
              r == Success(NoAccumulation(miniBatch))
  {
    if Truthy(effectiveBatchSize) then
      if miniBatch == 0 then Failure(ZeroDivision)
      else
        var steps := AccumulationSteps(effectiveBatchSize.value, miniBatch);
        var effective := steps * miniBatch;
        Success(Derived(miniBatch, steps, effective, effective != effectiveBatchSize.value))
    else if gradientAccumulationSteps > 1 then
      Success(Explicit(miniBatch, gradientAccumulationSteps, gradientAccumulationSteps * miniBatch))
    else
      Success(NoAccumulation(miniBatch))
  }

  /**
    With a positive mini-batch and a request of at least one mini-batch, the
    derived batch is the largest multiple of the mini-batch that does not
    exceed the request.
   */
  lemma DerivedIsLargestMultiple(miniBatch: int, requested: int, k: int)
    requires miniBatch > 0 && requested >= miniBatch
    requires k * miniBatch <= requested
    ensures Plan(miniBatch, Some(requested), 1).Success?
    ensures var p := Plan(miniBatch, Some(requested), 1).value;
            k * miniBatch <= p.effective <= requested
  {
    var steps := Plan(miniBatch, Some(requested), 1).value.steps;
    assert (steps + 1) * miniBatch == steps * miniBatch + miniBatch;
    FactorOrder(k, steps + 1, miniBatch);
    assert k <= steps;
    ScaleOrder(k, steps, miniBatch);
  }

  /** Multiplying by a positive factor keeps a strict order between products. */
  lemma FactorOrder(a: int, b: int, m: int)
    requires m > 0 && a * m < b * m
    ensures a < b
  {
    if a >= b {
      ScaleOrder(b, a, m);
    }
  }

  /** Multiplying by a positive factor preserves order. */
  lemma ScaleOrder(a: int, b: int, m: int)
    requires m > 0 && a <= b
    ensures a * m <= b * m
  {
    assert b * m - a * m == (b - a) * m;
  }

  /**
    For positive sizes the "Adjusted from requested" note appears exactly
    when the request is not a whole number of mini-batches, or is smaller
    than one mini-batch (and then one mini-batch is used).
   */
  lemma AdjustedIffNotMultiple(miniBatch: int, requested: int)
    requires miniBatch > 0 && requested > 0
    ensures Plan(miniBatch, Some(requested), 1).Success?
    ensures Plan(miniBatch, Some(requested), 1).value.adjusted <==>
              requested < miniBatch || requested % miniBatch != 0
    ensures requested < miniBatch ==> Plan(miniBatch, Some(requested), 1).value.effective == miniBatch
  {
  }

  /** The example from the script's usage text: mini-batch 8, effective 32 gives 4 steps, no note. */
  lemma UsageExample()
    ensures Plan(8, Some(32), 1) == Success(Derived(8, 4, 32, false))
    ensures Plan(8, Some(30), 1) == Success(Derived(8, 3, 24, true))
  {
  }
}
