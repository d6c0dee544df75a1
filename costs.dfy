/** The accessibility and visibility terms of `evalFurniture`: each a sum
    over ordered pairs of distinct items and the zones of the second. */
module Costs {
  import opened Results
  import opened VectorMath
  import opened Layout

  /** Math.max (there is no NaN here). */
  function Max(a: real, b: real): real {
    if a < b then b else a
  }

  /** The zones of `f` that a cost term walks. */
  function Zones(f: Furniture, term: CostTerm): seq<Zone> {
    match term
    case Accessibility => f.accessibilityAreas
    case Visibility => f.viewFrustum
  }

  /** Accumulating into one running total: the first error thrown wins,
      otherwise the values add up. */
  function Plus(r: Result<real>, s: Result<real>): (t: Result<real>)
    ensures t.Err? <==> r.Err? || s.Err?
    ensures r.Err? ==> t == r
    ensures r.Ok? && s.Ok? ==> t == Ok(r.value + s.value)
  {
    if r.Err? then r else if s.Err? then s else Ok(r.value + s.value)
  }

  // ---------------------------------------------------------------------
  // Accessibility and visibility

  /** What makes one zone term throw: a zero denominator, or vectors of
      different lengths in `add(j.p, zone.offset)` or in the subtraction. */
  predicate Bad(i: Furniture, j: Furniture, z: Zone) {
    i.b + z.radius == 0.0 || |j.p| != |z.offset| || |i.p| != |j.p|
  }

  /** The term that zone `z` of target `j` adds for observer `i`:
      max(0, 1 - |i.p - (j.p + z.offset)| / (i.b + z.radius)). */
  function ZoneTerm(sqrt: real -> real, term: CostTerm, i: Furniture, j: Furniture, z: Zone): Result<real> {
    var dem := i.b + z.radius;
    if dem == 0.0 then Err(DivisionByZero(term))
    else
      match Sum(j.p, z.offset)
      case Err(e) => Err(e)
      case Ok(target) =>
        match Difference(i.p, target)
        case Err(e) => Err(e)
        case Ok(delta) => Ok(Max(0.0, 1.0 - Norm(sqrt, delta) / dem))
  }

  /** The running total over the zones `zs` of target `j`. */
  function ZonesCost(sqrt: real -> real, term: CostTerm, i: Furniture, j: Furniture, zs: seq<Zone>): Result<real> {
    if |zs| == 0 then Ok(0.0)
    else Plus(ZonesCost(sqrt, term, i, j, zs[..|zs| - 1]), ZoneTerm(sqrt, term, i, j, zs[|zs| - 1]))
  }

  /** What observer `i` adds for target `j`: nothing when they share an id. */
  function PairCost(sqrt: real -> real, term: CostTerm, i: Furniture, j: Furniture): Result<real> {
    if i.id == j.id then Ok(0.0) else ZonesCost(sqrt, term, i, j, Zones(j, term))
  }

  /** The running total of observer `i` over the targets `ts`. */
  function ObserverCost(sqrt: real -> real, term: CostTerm, i: Furniture, ts: seq<Furniture>): Result<real> {
    if |ts| == 0 then Ok(0.0)
    else Plus(ObserverCost(sqrt, term, i, ts[..|ts| - 1]), PairCost(sqrt, term, i, ts[|ts| - 1]))
  }

  /** The running total over the observers `os`, each against all of `objs`. */
  function TotalCost(sqrt: real -> real, term: CostTerm, os: seq<Furniture>, objs: seq<Furniture>): Result<real> {
    if |os| == 0 then Ok(0.0)
    else Plus(TotalCost(sqrt, term, os[..|os| - 1], objs), ObserverCost(sqrt, term, os[|os| - 1], objs))
  }

  /** `accessibilityCost(objs)` for Accessibility, `visibilityCost(objs)`
      for Visibility. */
  function ZoneCost(sqrt: real -> real, term: CostTerm, objs: seq<Furniture>): Result<real> {
    TotalCost(sqrt, term, objs, objs)
  }

  /** The number of terms a cost sums: one per ordered pair of items with
      different ids and per zone of the second. */
  function ZoneSlots(term: CostTerm, i: Furniture, ts: seq<Furniture>): nat {
    if |ts| == 0 then 0
    else ZoneSlots(term, i, ts[..|ts| - 1]) + (if i.id == ts[|ts| - 1].id then 0 else |Zones(ts[|ts| - 1], term)|)
  }

  function TotalSlots(term: CostTerm, os: seq<Furniture>, objs: seq<Furniture>): nat {
    if |os| == 0 then 0 else TotalSlots(term, os[..|os| - 1], objs) + ZoneSlots(term, os[|os| - 1], objs)
  }

  /** Some term of a running total throws: for one target, for one
      observer, and for the whole cost. */
  predicate ZonesFaulty(i: Furniture, j: Furniture, zs: seq<Zone>) {
    exists z :: z in zs && Bad(i, j, z)
  }

  predicate PairFaulty(term: CostTerm, i: Furniture, j: Furniture) {
    i.id != j.id && ZonesFaulty(i, j, Zones(j, term))
  }

  predicate ObserverFaulty(term: CostTerm, i: Furniture, ts: seq<Furniture>) {
    exists j :: j in ts && PairFaulty(term, i, j)
  }

  predicate Faulty(term: CostTerm, os: seq<Furniture>, objs: seq<Furniture>) {
    exists i :: i in os && ObserverFaulty(term, i, objs)
  }

  /** Every term of observer `i` over targets `ts` has a positive
      denominator, and likewise for every observer in `os`. */
  predicate ObserverPositive(term: CostTerm, i: Furniture, ts: seq<Furniture>) {
    forall j, z :: j in ts && z in Zones(j, term) && i.id != j.id ==> i.b + z.radius > 0.0
  }

  predicate PositiveDenominators(term: CostTerm, os: seq<Furniture>, objs: seq<Furniture>) {
    forall i :: i in os ==> ObserverPositive(term, i, objs)
  }

  /** Every zone of every target sits exactly on the observer `i`, with a
      non-zero denominator; and likewise for every observer in `os`. */
  predicate Coincides(i: Furniture, j: Furniture, z: Zone) {
    i.b + z.radius != 0.0 && Sum(j.p, z.offset) == Ok(i.p)
  }

  predicate ObserverCoincident(term: CostTerm, i: Furniture, ts: seq<Furniture>) {
    forall j, z :: j in ts && z in Zones(j, term) && i.id != j.id ==> Coincides(i, j, z)
  }

  predicate Coincident(term: CostTerm, os: seq<Furniture>, objs: seq<Furniture>) {
    forall i :: i in os ==> ObserverCoincident(term, i, objs)
  }

  /** A term throws exactly when it is bad, a zero denominator throws the
      division error of its own cost, and a value is never negative. */
  lemma ZoneTermFacts(sqrt: real -> real, term: CostTerm, i: Furniture, j: Furniture, z: Zone)
    ensures ZoneTerm(sqrt, term, i, j, z).Err? <==> Bad(i, j, z)
    ensures i.b + z.radius == 0.0 ==> ZoneTerm(sqrt, term, i, j, z) == Err(DivisionByZero(term))
    ensures ZoneTerm(sqrt, term, i, j, z).Ok? ==> 0.0 <= ZoneTerm(sqrt, term, i, j, z).value
  {
  }

  /** A term is at most 1 when its denominator is positive. */
  lemma TermAtMostOne(sqrt: real -> real, term: CostTerm, i: Furniture, j: Furniture, z: Zone)
    requires IsSqrt(sqrt) && i.b + z.radius > 0.0
    requires ZoneTerm(sqrt, term, i, j, z).Ok?
    ensures ZoneTerm(sqrt, term, i, j, z).value <= 1.0
  {
    var dem := i.b + z.radius;
    var delta := Difference(i.p, Sum(j.p, z.offset).value).value;
    NormZero(sqrt, delta);
    var m := Norm(sqrt, delta);
    assert 0.0 <= m / dem;
  }

  /** The guard only rejects a zero denominator: with a negative one a term
      exceeds 1. */
  lemma NegativeDenominatorExceedsOne(sqrt: real -> real, term: CostTerm, i: Furniture, j: Furniture, z: Zone)
    requires IsSqrt(sqrt)
    requires i.b + z.radius == -1.0 && z.offset == [0.0, 0.0]
    requires j.p == [0.0, 0.0] && i.p == [1.0, 0.0]
    ensures ZoneTerm(sqrt, term, i, j, z).Ok? && ZoneTerm(sqrt, term, i, j, z).value > 1.0
  {
    var delta := Difference(i.p, Sum(j.p, z.offset).value).value;
    assert delta == [1.0, 0.0];
    assert delta[0] != 0.0;
    NormZero(sqrt, delta);
  }

  // ---- error propagation through the running totals

  lemma {:induction false} ZonesErrorStays(sqrt: real -> real, term: CostTerm, i: Furniture, j: Furniture, zs: seq<Zone>, c: nat)
    requires c <= |zs| && ZonesCost(sqrt, term, i, j, zs[..c]).Err?
    ensures ZonesCost(sqrt, term, i, j, zs) == ZonesCost(sqrt, term, i, j, zs[..c])
    decreases |zs| - c
  {
    if c < |zs| {
      assert zs[..c + 1][..c] == zs[..c];
      ZonesErrorStays(sqrt, term, i, j, zs, c + 1);
    } else {
      assert zs[..c] == zs;
    }
  }

  lemma {:induction false} ObserverErrorStays(sqrt: real -> real, term: CostTerm, i: Furniture, ts: seq<Furniture>, b: nat)
    requires b <= |ts| && ObserverCost(sqrt, term, i, ts[..b]).Err?
    ensures ObserverCost(sqrt, term, i, ts) == ObserverCost(sqrt, term, i, ts[..b])
    decreases |ts| - b
  {
    if b < |ts| {
      assert ts[..b + 1][..b] == ts[..b];
      ObserverErrorStays(sqrt, term, i, ts, b + 1);
    } else {
      assert ts[..b] == ts;
    }
  }

  lemma {:induction false} TotalErrorStays(sqrt: real -> real, term: CostTerm, os: seq<Furniture>, objs: seq<Furniture>, a: nat)
    requires a <= |os| && TotalCost(sqrt, term, os[..a], objs).Err?
    ensures TotalCost(sqrt, term, os, objs) == TotalCost(sqrt, term, os[..a], objs)
    decreases |os| - a
  {
    if a < |os| {
      assert os[..a + 1][..a] == os[..a];
      TotalErrorStays(sqrt, term, os, objs, a + 1);
    } else {
      assert os[..a] == os;
    }
  }

  lemma ZonesStep(sqrt: real -> real, term: CostTerm, i: Furniture, j: Furniture, zs: seq<Zone>, c: nat)
    requires c < |zs|
    ensures ZonesCost(sqrt, term, i, j, zs[..c + 1]) == Plus(ZonesCost(sqrt, term, i, j, zs[..c]), ZoneTerm(sqrt, term, i, j, zs[c]))
  {
    assert zs[..c + 1][..c] == zs[..c];
  }

  lemma ObserverStep(sqrt: real -> real, term: CostTerm, i: Furniture, ts: seq<Furniture>, b: nat)
    requires b < |ts|
    ensures ObserverCost(sqrt, term, i, ts[..b + 1]) == Plus(ObserverCost(sqrt, term, i, ts[..b]), PairCost(sqrt, term, i, ts[b]))
  {
    assert ts[..b + 1][..b] == ts[..b];
  }

  lemma TotalStep(sqrt: real -> real, term: CostTerm, os: seq<Furniture>, objs: seq<Furniture>, a: nat)
    requires a < |os|
    ensures TotalCost(sqrt, term, os[..a + 1], objs) == Plus(TotalCost(sqrt, term, os[..a], objs), ObserverCost(sqrt, term, os[a], objs))
  {
    assert os[..a + 1][..a] == os[..a];
  }

  // ---- the loops of accessibilityCost and visibilityCost

  /** One zone's term: the guard, then `magnitude(subtract(i.p, add(j.p, offset)))`. */
  method ComputeZoneTerm(sqrt: real -> real, term: CostTerm, i: Furniture, j: Furniture, z: Zone) returns (r: Result<real>)
    ensures r == ZoneTerm(sqrt, term, i, j, z)
  {
    var dem := i.b + z.radius;
    if dem == 0.0 {
      return Err(DivisionByZero(term));
    }
    var target := Add(j.p, z.offset);
    if target.Err? {
      return Err(target.error);
    }
    var delta := Subtract(i.p, target.value);
    if delta.Err? {
      return Err(delta.error);
    }
    var m := Magnitude(sqrt, delta.value);
    return Ok(Max(0.0, 1.0 - m / dem));
  }

  /** One turn of the innermost loop: the term of zone `zs[c]` added to
      the running `total`, which holds `cost` plus the zones before it. */
  method AddZoneTerm(sqrt: real -> real, term: CostTerm, i: Furniture, j: Furniture, zs: seq<Zone>, c: nat, cost: real, total: real)
      returns (r: Result<real>)
    requires c < |zs| && Plus(Ok(cost), ZonesCost(sqrt, term, i, j, zs[..c])) == Ok(total)
    ensures r == Plus(Ok(cost), ZonesCost(sqrt, term, i, j, zs[..c + 1]))
  {
    ZonesStep(sqrt, term, i, j, zs, c);
    var t := ComputeZoneTerm(sqrt, term, i, j, zs[c]);
    if t.Err? {
      return Err(t.error);
    }
    return Ok(total + t.value);
  }

  /** The innermost loop, over the zones of target `j` for observer `i`,
      adding into the running `cost`; it stops at the first term that
      throws. */
  method AddZoneTerms(sqrt: real -> real, term: CostTerm, i: Furniture, j: Furniture, cost: real) returns (r: Result<real>)
    ensures r == Plus(Ok(cost), ZonesCost(sqrt, term, i, j, Zones(j, term)))
  {
    var zs := Zones(j, term);
    var total := cost;
    var c := 0;
    while c < |zs|
      invariant 0 <= c <= |zs|
      invariant Plus(Ok(cost), ZonesCost(sqrt, term, i, j, zs[..c])) == Ok(total)
    {
      var next := AddZoneTerm(sqrt, term, i, j, zs, c, cost, total);
      if next.Err? {
        ZonesErrorStays(sqrt, term, i, j, zs, c + 1);
        return next;
      }
      total := next.value;
      c := c + 1;
    }
    assert zs[..c] == zs;
    return Ok(total);
  }

  /** The middle loop, over every target for observer `i`; a target with
      the observer's id is skipped. */
  method AddObserverTerms(sqrt: real -> real, term: CostTerm, i: Furniture, objs: seq<Furniture>, cost: real) returns (r: Result<real>)
    ensures r == Plus(Ok(cost), ObserverCost(sqrt, term, i, objs))
  {
    var total := cost;
    var b := 0;
    while b < |objs|
      invariant 0 <= b <= |objs|
      invariant ObserverCost(sqrt, term, i, objs[..b]).Ok?
      invariant total == cost + ObserverCost(sqrt, term, i, objs[..b]).value
    {
      var j := objs[b];
      ObserverStep(sqrt, term, i, objs, b);
      if i.id != j.id {
        var next := AddZoneTerms(sqrt, term, i, j, total);
        if next.Err? {
          ObserverErrorStays(sqrt, term, i, objs, b + 1);
          return next;
        }
        total := next.value;
      }
      b := b + 1;
    }
    assert objs[..b] == objs;
    return Ok(total);
  }

  /** The nested loops shared by `accessibilityCost` and `visibilityCost`:
      every observer against every target. */
  method ComputeZoneCost(sqrt: real -> real, term: CostTerm, objs: seq<Furniture>) returns (r: Result<real>)
    ensures r == ZoneCost(sqrt, term, objs)
  {
    var cost := 0.0;
    var a := 0;
    while a < |objs|
      invariant 0 <= a <= |objs|
      invariant TotalCost(sqrt, term, objs[..a], objs) == Ok(cost)
    {
      TotalStep(sqrt, term, objs, objs, a);
      var next := AddObserverTerms(sqrt, term, objs[a], objs, cost);
      if next.Err? {
        TotalErrorStays(sqrt, term, objs, objs, a + 1);
        return next;
      }
      cost := next.value;
      a := a + 1;
    }
    assert objs[..a] == objs;
    return Ok(cost);
  }

  // ---- what the cost terms promise

  lemma {:induction false} ZonesFailIff(sqrt: real -> real, term: CostTerm, i: Furniture, j: Furniture, zs: seq<Zone>)
    ensures ZonesCost(sqrt, term, i, j, zs).Err? <==> ZonesFaulty(i, j, zs)
  {
    if |zs| > 0 {
      var init, z := zs[..|zs| - 1], zs[|zs| - 1];
      assert zs == init + [z];
      ZonesFailIff(sqrt, term, i, j, init);
      ZoneTermFacts(sqrt, term, i, j, z);
      if ZonesFaulty(i, j, zs) && !Bad(i, j, z) {
        var w :| w in zs && Bad(i, j, w);
        assert w in init;
      }
    }
  }

  lemma {:induction false} ObserverFailIff(sqrt: real -> real, term: CostTerm, i: Furniture, ts: seq<Furniture>)
    ensures ObserverCost(sqrt, term, i, ts).Err? <==> ObserverFaulty(term, i, ts)
  {
    if |ts| > 0 {
      var init, j := ts[..|ts| - 1], ts[|ts| - 1];
      assert ts == init + [j];
      ObserverFailIff(sqrt, term, i, init);
      ZonesFailIff(sqrt, term, i, j, Zones(j, term));
      assert PairCost(sqrt, term, i, j).Err? <==> PairFaulty(term, i, j);
      if ObserverFaulty(term, i, ts) && !PairFaulty(term, i, j) {
        var w :| w in ts && PairFaulty(term, i, w);
        assert w in init;
      }
      if ObserverFaulty(term, i, init) {
        var w :| w in init && PairFaulty(term, i, w);
        assert w in ts;
      }
    }
  }

  /** A cost throws exactly when some ordered pair of items with different
      ids has a zone whose term throws. */
  lemma {:induction false} CostFailsIff(sqrt: real -> real, term: CostTerm, os: seq<Furniture>, objs: seq<Furniture>)
    ensures TotalCost(sqrt, term, os, objs).Err? <==> Faulty(term, os, objs)
  {
    if |os| > 0 {
      var init, i := os[..|os| - 1], os[|os| - 1];
      assert os == init + [i];
      CostFailsIff(sqrt, term, init, objs);
      ObserverFailIff(sqrt, term, i, objs);
      if Faulty(term, os, objs) && !ObserverFaulty(term, i, objs) {
        var w :| w in os && ObserverFaulty(term, w, objs);
        assert w in init;
      }
    }
  }

  /** In particular a zero denominator `i.b + zone.radius` aborts the cost. */
  lemma ZeroDenominatorThrows(sqrt: real -> real, term: CostTerm, objs: seq<Furniture>, i: Furniture, j: Furniture, z: Zone)
    requires i in objs && j in objs && z in Zones(j, term) && i.id != j.id
    requires i.b + z.radius == 0.0
    ensures ZoneCost(sqrt, term, objs).Err?
  {
    assert Bad(i, j, z) && PairFaulty(term, i, j) && ObserverFaulty(term, i, objs);
    CostFailsIff(sqrt, term, objs, objs);
  }

  /** Two items with different ids where a zone of the second gives the
      first a zero denominator, located by index. */
  predicate ZeroDenominator(term: CostTerm, objs: seq<Furniture>) {
    exists a, c, z :: 0 <= a < |objs| && 0 <= c < |objs| && objs[a].id != objs[c].id &&
      z in Zones(objs[c], term) && objs[a].b + z.radius == 0.0
  }

  /** Every zone offset has `n` coordinates. */
  predicate OffsetsHave(objs: seq<Furniture>, n: nat) {
    forall k, term, z :: 0 <= k < |objs| && z in Zones(objs[k], term) ==> |z.offset| == n
  }

  lemma ZeroDenominatorFails(sqrt: real -> real, term: CostTerm, objs: seq<Furniture>)
    requires ZeroDenominator(term, objs)
    ensures ZoneCost(sqrt, term, objs).Err?
  {
    var a, c, z :| 0 <= a < |objs| && 0 <= c < |objs| && objs[a].id != objs[c].id &&
      z in Zones(objs[c], term) && objs[a].b + z.radius == 0.0;
    ZeroDenominatorThrows(sqrt, term, objs, objs[a], objs[c], z);
  }

  /** Conversely, with positions and offsets of one dimension and no zero
      denominator, the cost is a number. */
  lemma RegularCostSucceeds(sqrt: real -> real, term: CostTerm, objs: seq<Furniture>, n: nat)
    requires PositionsHave(objs, n) && OffsetsHave(objs, n) && !ZeroDenominator(term, objs)
    ensures ZoneCost(sqrt, term, objs).Ok?
  {
    forall i, j, z | i in objs && j in objs && i.id != j.id && z in Zones(j, term)
      ensures !Bad(i, j, z)
    {
      var a :| 0 <= a < |objs| && objs[a] == i;
      var c :| 0 <= c < |objs| && objs[c] == j;
      assert objs[a].b + z.radius != 0.0;
      assert |objs[a].p| == n && |objs[c].p| == n && |z.offset| == n;
    }
    CostFailsIff(sqrt, term, objs, objs);
  }

  /** Moving furniture changes neither its zones nor its denominators. */
  lemma SameFurnitureKeepsZones(term: CostTerm, s: LayoutState, t: LayoutState, n: nat)
    requires SameFurniture(s, t)
    ensures ZeroDenominator(term, s.objects) <==> ZeroDenominator(term, t.objects)
    ensures OffsetsHave(s.objects, n) <==> OffsetsHave(t.objects, n)
  {
    SameFurnitureSymmetric(s, t);
    if ZeroDenominator(term, s.objects) {
      ZeroDenominatorMoves(term, s, t);
    }
    if ZeroDenominator(term, t.objects) {
      ZeroDenominatorMoves(term, t, s);
    }
    if OffsetsHave(s.objects, n) {
      OffsetsMove(s, t, n);
    }
    if OffsetsHave(t.objects, n) {
      OffsetsMove(t, s, n);
    }
  }

  lemma ZeroDenominatorMoves(term: CostTerm, s: LayoutState, t: LayoutState)
    requires SameFurniture(s, t) && ZeroDenominator(term, s.objects)
    ensures ZeroDenominator(term, t.objects)
  {
    var a, c, z :| 0 <= a < |s.objects| && 0 <= c < |s.objects| && s.objects[a].id != s.objects[c].id &&
      z in Zones(s.objects[c], term) && s.objects[a].b + z.radius == 0.0;
    assert SameItem(s.objects[a], t.objects[a]) && SameItem(s.objects[c], t.objects[c]);
    assert z in Zones(t.objects[c], term);
  }

  lemma OffsetsMove(s: LayoutState, t: LayoutState, n: nat)
    requires SameFurniture(s, t) && OffsetsHave(s.objects, n)
    ensures OffsetsHave(t.objects, n)
  {
    forall k, term, z | 0 <= k < |t.objects| && z in Zones(t.objects[k], term)
      ensures |z.offset| == n
    {
      assert SameItem(s.objects[k], t.objects[k]);
      assert z in Zones(s.objects[k], term);
    }
  }

  lemma {:induction false} ZonesBounds(sqrt: real -> real, term: CostTerm, i: Furniture, j: Furniture, zs: seq<Zone>)
    requires ZonesCost(sqrt, term, i, j, zs).Ok?
    ensures 0.0 <= ZonesCost(sqrt, term, i, j, zs).value
    ensures IsSqrt(sqrt) && (forall z :: z in zs ==> i.b + z.radius > 0.0) ==>
      ZonesCost(sqrt, term, i, j, zs).value <= |zs| as real
  {
    if |zs| > 0 {
      var init, z := zs[..|zs| - 1], zs[|zs| - 1];
      assert zs == init + [z];
      ZonesBounds(sqrt, term, i, j, init);
      ZoneTermFacts(sqrt, term, i, j, z);
      if IsSqrt(sqrt) && (forall z :: z in zs ==> i.b + z.radius > 0.0) {
        TermAtMostOne(sqrt, term, i, j, z);
      }
    }
  }

  lemma {:induction false} ObserverBounds(sqrt: real -> real, term: CostTerm, i: Furniture, ts: seq<Furniture>)
    requires ObserverCost(sqrt, term, i, ts).Ok?
    ensures 0.0 <= ObserverCost(sqrt, term, i, ts).value
    ensures IsSqrt(sqrt) && ObserverPositive(term, i, ts) ==>
      ObserverCost(sqrt, term, i, ts).value <= ZoneSlots(term, i, ts) as real
  {
    if |ts| > 0 {
      var init, j := ts[..|ts| - 1], ts[|ts| - 1];
      assert ts == init + [j];
      ObserverBounds(sqrt, term, i, init);
      if i.id != j.id {
        ZonesBounds(sqrt, term, i, j, Zones(j, term));
      }
    }
  }

  /** A cost that does not throw is non-negative, and when every denominator
      is positive it is at most the number of terms it sums: each term lies
      in [0, 1]. */
  lemma {:induction false} CostBounds(sqrt: real -> real, term: CostTerm, os: seq<Furniture>, objs: seq<Furniture>)
    requires TotalCost(sqrt, term, os, objs).Ok?
    ensures 0.0 <= TotalCost(sqrt, term, os, objs).value
    ensures IsSqrt(sqrt) && PositiveDenominators(term, os, objs) ==>
      TotalCost(sqrt, term, os, objs).value <= TotalSlots(term, os, objs) as real
  {
    if |os| > 0 {
      var init, i := os[..|os| - 1], os[|os| - 1];
      assert os == init + [i];
      CostBounds(sqrt, term, init, objs);
      ObserverBounds(sqrt, term, i, objs);
    }
  }

  /** A zone that sits exactly on the observer contributes the maximal term. */
  lemma CoincidentTerm(sqrt: real -> real, term: CostTerm, i: Furniture, j: Furniture, z: Zone)
    requires IsSqrt(sqrt) && Coincides(i, j, z)
    ensures ZoneTerm(sqrt, term, i, j, z) == Ok(1.0)
  {
    DifferenceOfSumIsZero(i.p, j.p, z.offset);
    var delta := Difference(i.p, i.p).value;
    NormZero(sqrt, delta);
    assert Norm(sqrt, delta) == 0.0;
    var dem := i.b + z.radius;
    assert 1.0 - Norm(sqrt, delta) / dem == 1.0;
  }

  lemma {:induction false} ZonesSaturate(sqrt: real -> real, term: CostTerm, i: Furniture, j: Furniture, zs: seq<Zone>)
    requires IsSqrt(sqrt)
    requires forall z :: z in zs ==> Coincides(i, j, z)
    ensures ZonesCost(sqrt, term, i, j, zs) == Ok(|zs| as real)
  {
    if |zs| > 0 {
      var init, z := zs[..|zs| - 1], zs[|zs| - 1];
      assert forall y :: y in init ==> y in zs;
      ZonesSaturate(sqrt, term, i, j, init);
      assert z in zs;
      CoincidentTerm(sqrt, term, i, j, z);
    }
  }

  /** A coincident observer is coincident with every prefix of its targets. */
  lemma ObserverCoincidentPrefix(term: CostTerm, i: Furniture, ts: seq<Furniture>, n: nat)
    requires ObserverCoincident(term, i, ts) && n <= |ts|
    ensures ObserverCoincident(term, i, ts[..n])
  {
    forall w, z | w in ts[..n] && z in Zones(w, term) && i.id != w.id
      ensures Coincides(i, w, z)
    {
      assert w in ts;
    }
  }

  /** A target whose zones all sit on the observer adds one per zone,
      and nothing when it shares the observer's id. */
  lemma PairSaturates(sqrt: real -> real, term: CostTerm, i: Furniture, j: Furniture)
    requires IsSqrt(sqrt) && ObserverCoincident(term, i, [j])
    ensures PairCost(sqrt, term, i, j) == Ok((if i.id == j.id then 0 else |Zones(j, term)|) as real)
  {
    if i.id != j.id {
      forall z | z in Zones(j, term) ensures Coincides(i, j, z) {
        assert j in [j];
      }
      ZonesSaturate(sqrt, term, i, j, Zones(j, term));
    }
  }

  lemma {:induction false} ObserverSaturates(sqrt: real -> real, term: CostTerm, i: Furniture, ts: seq<Furniture>)
    requires IsSqrt(sqrt) && ObserverCoincident(term, i, ts)
    ensures ObserverCost(sqrt, term, i, ts) == Ok(ZoneSlots(term, i, ts) as real)
  {
    if |ts| > 0 {
      var init, j := ts[..|ts| - 1], ts[|ts| - 1];
      ObserverCoincidentPrefix(term, i, ts, |ts| - 1);
      ObserverSaturates(sqrt, term, i, init);
      ObserverCoincidentLast(term, i, ts);
      PairSaturates(sqrt, term, i, j);
    }
  }

  /** ... and with its last target alone. */
  lemma ObserverCoincidentLast(term: CostTerm, i: Furniture, ts: seq<Furniture>)
    requires ObserverCoincident(term, i, ts) && |ts| > 0
    ensures ObserverCoincident(term, i, [ts[|ts| - 1]])
  {
    forall w, z | w in [ts[|ts| - 1]] && z in Zones(w, term) && i.id != w.id
      ensures Coincides(i, w, z)
    {
      assert w in ts;
    }
  }

  /** Coincidence holds for the observers but the last and for the last. */
  lemma CoincidentParts(term: CostTerm, os: seq<Furniture>, objs: seq<Furniture>)
    requires Coincident(term, os, objs) && |os| > 0
    ensures Coincident(term, os[..|os| - 1], objs)
    ensures ObserverCoincident(term, os[|os| - 1], objs)
  {
    forall w | w in os[..|os| - 1] ensures ObserverCoincident(term, w, objs) {
      assert w in os;
    }
    assert os[|os| - 1] in os;
  }

  /** When every zone of every item sits exactly on every other item, each
      term is 1 and the cost is the number of terms. */
  lemma {:induction false} CoincidentZonesSaturate(sqrt: real -> real, term: CostTerm, os: seq<Furniture>, objs: seq<Furniture>)
    requires IsSqrt(sqrt) && Coincident(term, os, objs)
    ensures TotalCost(sqrt, term, os, objs) == Ok(TotalSlots(term, os, objs) as real)
  {
    if |os| > 0 {
      var init, i := os[..|os| - 1], os[|os| - 1];
      CoincidentParts(term, os, objs);
      CoincidentZonesSaturate(sqrt, term, init, objs);
      ObserverSaturates(sqrt, term, i, objs);
      assert TotalCost(sqrt, term, os, objs) == Plus(TotalCost(sqrt, term, init, objs), ObserverCost(sqrt, term, i, objs));
      assert TotalSlots(term, os, objs) == TotalSlots(term, init, objs) + ZoneSlots(term, i, objs);
    }
  }
}
