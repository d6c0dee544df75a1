/** `evalFurniture`: the energy of a candidate layout against the layout it
    was derived from, with the fixed weights of the cost terms. */
module Evaluation {
  import opened Results
  import opened VectorMath
  import opened Layout
  import opened Costs
  import opened Continuity

  /** The weights `evalFurniture` gives its four cost terms. */
  const AccessibilityWeight: real := 0.1
  const VisibilityWeight: real := 0.01
  const DistanceWeight: real := 1.0
  const AngleWeight: real := 10.0

  function Weighted(acc: real, vis: real, dCost: real, tCost: real): real {
    AccessibilityWeight * acc + VisibilityWeight * vis + DistanceWeight * dCost + AngleWeight * tCost
  }

  /** The energy, or the first error among accessibility, visibility and
      the prior cost, in that order. */
  function Energy(sqrt: real -> real, objs: seq<Furniture>, prevObjs: seq<Furniture>): Result<real> {
    var acc := ZoneCost(sqrt, Accessibility, objs);
    if acc.Err? then Err(acc.error)
    else
      var vis := ZoneCost(sqrt, Visibility, objs);
      if vis.Err? then Err(vis.error)
      else
        var prior := PriorCost(objs, prevObjs);
        if prior.Err? then Err(prior.error)
        else Ok(Weighted(acc.value, vis.value, prior.value.0, prior.value.1))
  }

  /** The energy throws exactly when one of its terms does. */
  lemma EnergyFailsIff(sqrt: real -> real, objs: seq<Furniture>, prevObjs: seq<Furniture>)
    ensures Energy(sqrt, objs, prevObjs).Err? <==>
      Faulty(Accessibility, objs, objs) || Faulty(Visibility, objs, objs) || |prevObjs| < |objs|
  {
    CostFailsIff(sqrt, Accessibility, objs, objs);
    CostFailsIff(sqrt, Visibility, objs, objs);
  }

  /** A layout the energy can always be computed for: not empty, every
      position and zone offset of the first position's dimension, and no
      zero denominator in either zone cost. */
  predicate Sound(objs: seq<Furniture>) {
    && |objs| > 0
    && PositionsHave(objs, |objs[0].p|)
    && OffsetsHave(objs, |objs[0].p|)
    && !ZeroDenominator(Accessibility, objs)
    && !ZeroDenominator(Visibility, objs)
  }

  /** On a sound layout the energy is a number; a zero denominator always
      makes it throw. */
  lemma SoundEnergy(sqrt: real -> real, objs: seq<Furniture>, prevObjs: seq<Furniture>)
    requires Sound(objs) && |objs| <= |prevObjs|
    ensures Energy(sqrt, objs, prevObjs).Ok?
  {
    RegularCostSucceeds(sqrt, Accessibility, objs, |objs[0].p|);
    RegularCostSucceeds(sqrt, Visibility, objs, |objs[0].p|);
  }

  lemma ZeroDenominatorEnergy(sqrt: real -> real, objs: seq<Furniture>, prevObjs: seq<Furniture>)
    requires ZeroDenominator(Accessibility, objs) || ZeroDenominator(Visibility, objs)
    ensures Energy(sqrt, objs, prevObjs).Err?
  {
    if ZeroDenominator(Accessibility, objs) {
      ZeroDenominatorFails(sqrt, Accessibility, objs);
    } else {
      ZeroDenominatorFails(sqrt, Visibility, objs);
    }
  }

  /** Every term is non-negative, so the energy is. */
  lemma EnergyNonNegative(sqrt: real -> real, objs: seq<Furniture>, prevObjs: seq<Furniture>)
    requires Energy(sqrt, objs, prevObjs).Ok?
    ensures 0.0 <= Energy(sqrt, objs, prevObjs).value
  {
    CostBounds(sqrt, Accessibility, objs, objs);
    CostBounds(sqrt, Visibility, objs, objs);
    PriorCostZeroIff(objs, prevObjs);
  }

  /** Against itself a layout has no continuity cost: only the weighted
      accessibility and visibility terms remain. */
  lemma EnergyAgainstItself(sqrt: real -> real, objs: seq<Furniture>)
    requires Energy(sqrt, objs, objs).Ok?
    ensures Energy(sqrt, objs, objs).value ==
      AccessibilityWeight * ZoneCost(sqrt, Accessibility, objs).value + VisibilityWeight * ZoneCost(sqrt, Visibility, objs).value
  {
    PriorCostZeroIff(objs, objs);
  }

  /** With positive denominators the energy is at most the weighted number
      of zone terms plus the weighted drifts. */
  lemma EnergyUpperBound(sqrt: real -> real, objs: seq<Furniture>, prevObjs: seq<Furniture>)
    requires IsSqrt(sqrt) && Energy(sqrt, objs, prevObjs).Ok?
    requires PositiveDenominators(Accessibility, objs, objs) && PositiveDenominators(Visibility, objs, objs)
    ensures Energy(sqrt, objs, prevObjs).value <=
      Weighted(TotalSlots(Accessibility, objs, objs) as real, TotalSlots(Visibility, objs, objs) as real,
               PriorCost(objs, prevObjs).value.0, PriorCost(objs, prevObjs).value.1)
  {
    CostBounds(sqrt, Accessibility, objs, objs);
    CostBounds(sqrt, Visibility, objs, objs);
  }

  method EvalFurniture(sqrt: real -> real, objs: seq<Furniture>, prevObjs: seq<Furniture>) returns (r: Result<real>)
    ensures r == Energy(sqrt, objs, prevObjs)
  {
    var acc := ComputeZoneCost(sqrt, Accessibility, objs);
    if acc.Err? {
      return Err(acc.error);
    }
    var vis := ComputeZoneCost(sqrt, Visibility, objs);
    if vis.Err? {
      return Err(vis.error);
    }
    var prior := ComputePriorCost(objs, prevObjs);
    if prior.Err? {
      return Err(prior.error);
    }
    var (dCost, tCost) := prior.value;
    return Ok(Weighted(acc.value, vis.value, dCost, tCost));
  }
}
