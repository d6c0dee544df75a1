/** The continuity terms of the cost model: `priorCost`, the index-aligned
    drift of the derived fields against the previous layout, and
    `pairwiseCost`, the distance to same-kind neighbours that the active
    energy never uses. */
module Continuity {
  import opened Results
  import opened Layout
  import opened Costs

  /** Math.abs */
  function Abs(x: real): real {
    if x < 0.0 then -x else x
  }

  /** The two derived fields `priorCost` compares. */
  datatype Field = Distance | Angle

  function FieldOf(f: Furniture, which: Field): real {
    match which
    case Distance => f.d
    case Angle => f.thetaWall
  }

  /** The sum over the indices of `cur` of the absolute difference of one
      derived field between `cur` and the entry of `prev` at the same index. */
  function Drift(cur: seq<Furniture>, prev: seq<Furniture>, which: Field): real
    requires |cur| <= |prev|
  {
    if |cur| == 0 then 0.0
    else Drift(cur[..|cur| - 1], prev, which) + Abs(FieldOf(cur[|cur| - 1], which) - FieldOf(prev[|cur| - 1], which))
  }

  /** `priorCost(curObj, prevObj)`: the pair (distance drift, angle drift);
      reading past the end of a shorter `prevObj` throws. */
  function PriorCost(cur: seq<Furniture>, prev: seq<Furniture>): (r: Result<(real, real)>)
    ensures r.Err? <==> |prev| < |cur|
  {
    if |prev| < |cur| then Err(UndefinedObject)
    else Ok((Drift(cur, prev, Distance), Drift(cur, prev, Angle)))
  }

  predicate Agree(cur: seq<Furniture>, prev: seq<Furniture>, which: Field)
    requires |cur| <= |prev|
  {
    forall k :: 0 <= k < |cur| ==> FieldOf(cur[k], which) == FieldOf(prev[k], which)
  }

  lemma {:induction false} DriftZeroIff(cur: seq<Furniture>, prev: seq<Furniture>, which: Field)
    requires |cur| <= |prev|
    ensures 0.0 <= Drift(cur, prev, which)
    ensures Drift(cur, prev, which) == 0.0 <==> Agree(cur, prev, which)
  {
    if |cur| > 0 {
      var n := |cur| - 1;
      var init := cur[..n];
      DriftZeroIff(init, prev, which);
      assert forall k :: 0 <= k < n ==> init[k] == cur[k];
      if Agree(cur, prev, which) {
        assert Agree(init, prev, which);
      }
    }
  }

  /** Both drifts are non-negative, and both are zero exactly when the two
      layouts agree on `d` and `thetaWall` at every index of `cur`. */
  lemma PriorCostZeroIff(cur: seq<Furniture>, prev: seq<Furniture>)
    requires PriorCost(cur, prev).Ok?
    ensures 0.0 <= PriorCost(cur, prev).value.0 && 0.0 <= PriorCost(cur, prev).value.1
    ensures PriorCost(cur, prev).value == (0.0, 0.0) <==>
      forall k :: 0 <= k < |cur| ==> cur[k].d == prev[k].d && cur[k].thetaWall == prev[k].thetaWall
  {
    DriftZeroIff(cur, prev, Distance);
    DriftZeroIff(cur, prev, Angle);
  }

  method ComputePriorCost(cur: seq<Furniture>, prev: seq<Furniture>) returns (r: Result<(real, real)>)
    ensures r == PriorCost(cur, prev)
  {
    var dCost, tCost := 0.0, 0.0;
    var k := 0;
    while k < |cur|
      invariant 0 <= k <= |cur| && k <= |prev|
      invariant dCost == Drift(cur[..k], prev, Distance)
      invariant tCost == Drift(cur[..k], prev, Angle)
    {
      if k >= |prev| {
        return Err(UndefinedObject);
      }
      assert cur[..k + 1][..k] == cur[..k];
      dCost := dCost + Abs(cur[k].d - prev[k].d);
      tCost := tCost + Abs(cur[k].thetaWall - prev[k].thetaWall);
      k := k + 1;
    }
    assert cur[..k] == cur;
    return Ok((dCost, tCost));
  }

  // ---------------------------------------------------------------------
  // pairwiseCost

  /** What item `a`, which declares `target`, adds for item `b`. */
  function PairwiseTerm(centerDistance: (Furniture, Furniture) -> real, objs: seq<Furniture>, a: nat, target: PairwiseTarget, b: nat): real
    requires a < |objs| && b < |objs|
  {
    if a == b || target.kind != objs[b].kind then 0.0
    else Abs(target.distance - centerDistance(objs[a], objs[b]))
  }

  /** The running total of item `a` over the items before index `n`. */
  function PairwiseRow(centerDistance: (Furniture, Furniture) -> real, objs: seq<Furniture>, a: nat, target: PairwiseTarget, n: nat): real
    requires a < |objs| && n <= |objs|
  {
    if n == 0 then 0.0
    else PairwiseRow(centerDistance, objs, a, target, n - 1) + PairwiseTerm(centerDistance, objs, a, target, n - 1)
  }

  /** The running total over the items before index `n`; an item without a
      `pairwiseCost` record adds nothing. */
  function PairwiseTotal(centerDistance: (Furniture, Furniture) -> real, objs: seq<Furniture>, n: nat): real
    requires n <= |objs|
  {
    if n == 0 then 0.0
    else
      PairwiseTotal(centerDistance, objs, n - 1) +
      match objs[n - 1].pairwiseCost
      case None => 0.0
      case Some(target) => PairwiseRow(centerDistance, objs, n - 1, target, |objs|)
  }

  /** `pairwiseCost(curObj, prevObj)`: its angle component is never added to. */
  function PairwiseCost(centerDistance: (Furniture, Furniture) -> real, objs: seq<Furniture>): (real, real) {
    (PairwiseTotal(centerDistance, objs, |objs|), 0.0)
  }

  /** Every declared target distance is met exactly by every other item of
      the wanted kind. */
  predicate TargetsMet(centerDistance: (Furniture, Furniture) -> real, objs: seq<Furniture>) {
    forall a, b ::
      (0 <= a < |objs| && 0 <= b < |objs| && a != b && objs[a].pairwiseCost.Some? &&
       objs[a].pairwiseCost.value.kind == objs[b].kind) ==>
        centerDistance(objs[a], objs[b]) == objs[a].pairwiseCost.value.distance
  }

  lemma {:induction false} RowZeroIff(centerDistance: (Furniture, Furniture) -> real, objs: seq<Furniture>, a: nat, target: PairwiseTarget, n: nat)
    requires a < |objs| && n <= |objs|
    ensures 0.0 <= PairwiseRow(centerDistance, objs, a, target, n)
    ensures PairwiseRow(centerDistance, objs, a, target, n) == 0.0 <==>
      forall b :: 0 <= b < n ==> PairwiseTerm(centerDistance, objs, a, target, b) == 0.0
  {
    if n > 0 {
      RowZeroIff(centerDistance, objs, a, target, n - 1);
    }
  }

  lemma {:induction false} TotalZeroIff(centerDistance: (Furniture, Furniture) -> real, objs: seq<Furniture>, n: nat)
    requires n <= |objs|
    ensures 0.0 <= PairwiseTotal(centerDistance, objs, n)
    ensures PairwiseTotal(centerDistance, objs, n) == 0.0 <==>
      forall a, b :: 0 <= a < n && 0 <= b < |objs| && objs[a].pairwiseCost.Some? ==>
        PairwiseTerm(centerDistance, objs, a, objs[a].pairwiseCost.value, b) == 0.0
  {
    if n > 0 {
      TotalZeroIff(centerDistance, objs, n - 1);
      if objs[n - 1].pairwiseCost.Some? {
        RowZeroIff(centerDistance, objs, n - 1, objs[n - 1].pairwiseCost.value, |objs|);
      }
    }
  }

  /** The pairwise distance cost is non-negative, its angle part is always
      0, and it is 0 exactly when every declared target distance is met. */
  lemma PairwiseCostZeroIff(centerDistance: (Furniture, Furniture) -> real, objs: seq<Furniture>)
    ensures 0.0 <= PairwiseCost(centerDistance, objs).0 && PairwiseCost(centerDistance, objs).1 == 0.0
    ensures PairwiseCost(centerDistance, objs).0 == 0.0 <==> TargetsMet(centerDistance, objs)
  {
    TotalZeroIff(centerDistance, objs, |objs|);
    if TargetsMet(centerDistance, objs) {
      forall a, b | 0 <= a < |objs| && 0 <= b < |objs| && objs[a].pairwiseCost.Some?
        ensures PairwiseTerm(centerDistance, objs, a, objs[a].pairwiseCost.value, b) == 0.0
      {
      }
    }
    if PairwiseCost(centerDistance, objs).0 == 0.0 {
      forall a, b | 0 <= a < |objs| && 0 <= b < |objs| && a != b && objs[a].pairwiseCost.Some? &&
        objs[a].pairwiseCost.value.kind == objs[b].kind
        ensures centerDistance(objs[a], objs[b]) == objs[a].pairwiseCost.value.distance
      {
        assert PairwiseTerm(centerDistance, objs, a, objs[a].pairwiseCost.value, b) == 0.0;
      }
    }
  }

  method ComputePairwiseCost(centerDistance: (Furniture, Furniture) -> real, objs: seq<Furniture>) returns (dCost: real, tCost: real)
    ensures (dCost, tCost) == PairwiseCost(centerDistance, objs)
  {
    dCost, tCost := 0.0, 0.0;
    var a := 0;
    while a < |objs|
      invariant 0 <= a <= |objs|
      invariant dCost == PairwiseTotal(centerDistance, objs, a) && tCost == 0.0
    {
      var i := objs[a];
      if i.pairwiseCost.Some? {
        var target := i.pairwiseCost.value;
        var b := 0;
        ghost var before := dCost;
        while b < |objs|
          invariant 0 <= b <= |objs|
          invariant dCost == before + PairwiseRow(centerDistance, objs, a, target, b)
        {
          var j := objs[b];
          if a != b && target.kind == j.kind {
            var dist := centerDistance(i, j);
            dCost := dCost + Abs(target.distance - dist);
          }
          b := b + 1;
        }
      }
      a := a + 1;
    }
  }
}
