/** The simulated-annealing driver: the `Algorithm` object, its acceptance
    rule, its cooling loop and the snapshot queue the interface drains. */
module Annealing {
  import opened Results
  import opened VectorMath
  import opened Layout
  import opened Costs
  import opened Evaluation
  import opened Perturbation
  import opened Playback

  /** What the model relies on about Math.exp. */
  ghost predicate IsExp(exp: real -> real) {
    && exp(0.0) == 1.0
    && (forall x :: 0.0 < exp(x))
    && (forall x, y :: x <= y ==> exp(x) <= exp(y))
  }

  /** `acceptProbability(energy, newEnergy)` at temperature `temp`. */
  function AcceptProbability(exp: real -> real, temp: real, energy: real, newEnergy: real): (p: real)
    requires temp != 0.0
    ensures newEnergy < energy ==> p == 1.0
  {
    if newEnergy < energy then 1.0 else exp((energy - newEnergy) / temp)
  }

  lemma NonPositiveQuotient(x: real, t: real)
    requires x <= 0.0 && t > 0.0
    ensures x / t <= 0.0
  {
    var q := x / t;
    assert q * t == x;
    assert q > 0.0 ==> q * t > 0.0 * t;
  }

  /** At a positive temperature the acceptance is a probability: exactly 1
      for an improvement, in (0, 1] otherwise, and exactly 1 when the
      energy does not change. */
  lemma AcceptanceIsProbability(exp: real -> real, temp: real, energy: real, newEnergy: real)
    requires IsExp(exp) && temp > 0.0
    ensures 0.0 < AcceptProbability(exp, temp, energy, newEnergy) <= 1.0
    ensures newEnergy == energy ==> AcceptProbability(exp, temp, energy, newEnergy) == 1.0
  {
    if newEnergy >= energy {
      NonPositiveQuotient(energy - newEnergy, temp);
      assert newEnergy == energy ==> (energy - newEnergy) / temp == 0.0;
    }
  }

  /** A candidate is taken when its probability beats the coin `Math.random()`. */
  predicate Accepted(exp: real -> real, temp: real, energy: real, newEnergy: real, coin: Fraction)
    requires temp != 0.0
  {
    AcceptProbability(exp, temp, energy, newEnergy) > coin
  }

  /** Improvements and equal-energy moves are taken whatever the coin. */
  lemma NoWorseIsAccepted(exp: real -> real, temp: real, energy: real, newEnergy: real, coin: Fraction)
    requires IsExp(exp) && temp > 0.0 && newEnergy <= energy
    ensures Accepted(exp, temp, energy, newEnergy, coin)
  {
    AcceptanceIsProbability(exp, temp, energy, newEnergy);
  }

  /** A worse candidate is never more likely to be taken than a better one. */
  lemma AcceptanceFallsWithEnergy(exp: real -> real, temp: real, energy: real, e1: real, e2: real)
    requires IsExp(exp) && temp > 0.0 && e1 <= e2
    ensures AcceptProbability(exp, temp, energy, e2) <= AcceptProbability(exp, temp, energy, e1)
  {
    AcceptanceIsProbability(exp, temp, energy, e2);
    if energy <= e1 {
      var q1, q2 := (energy - e1) / temp, (energy - e2) / temp;
      assert q2 <= q1 by {
        assert q1 - q2 == (e2 - e1) / temp;
        NonPositiveQuotient(e1 - e2, temp);
        assert (e1 - e2) / temp == -((e2 - e1) / temp);
      }
    }
  }

  /** Cooling makes a worse candidate less likely to be taken. */
  lemma AcceptanceFallsWithTemperature(exp: real -> real, t1: real, t2: real, energy: real, newEnergy: real)
    requires IsExp(exp) && 0.0 < t2 <= t1 && energy <= newEnergy
    ensures AcceptProbability(exp, t2, energy, newEnergy) <= AcceptProbability(exp, t1, energy, newEnergy)
  {
    if newEnergy > energy {
      var x := energy - newEnergy;
      var q1, q2 := x / t1, x / t2;
      assert q2 <= q1 by {
        assert q1 * t1 == x && q2 * t2 == x;
        NonPositiveQuotient(x, t1);
        assert q1 * (t2 - t1) >= 0.0 by { assert q1 * (t2 - t1) == (-q1) * (t1 - t2); }
        assert q2 > q1 ==> (q2 - q1) * t2 > 0.0 * t2;
      }
    }
  }

  // ---------------------------------------------------------------------
  // Cooling

  /** An upper bound on the loop iterations still to come. */
  function CoolingSteps(temp: real, rate: real): int {
    if rate < 1.0 && temp > 1.0 then (temp / (1.0 - rate)).Floor + 1 else 0
  }

  /** One `temp *= coolRate` strictly lowers a temperature above 1 and the
      number of steps still to come. */
  lemma CoolingProgress(temp: real, rate: real, next: real)
    requires rate < 1.0 && temp > 1.0 && next == temp * rate
    ensures Cools(temp, next, rate)
    ensures 0 < CoolingSteps(temp, rate)
    ensures CoolingSteps(next, rate) < CoolingSteps(temp, rate)
  {
    var c := 1.0 - rate;
    var q := temp / c;
    assert q * c == temp;
    assert q <= 0.0 ==> q * c <= 0.0 * c;
    assert temp * rate == temp - temp * c;
    assert temp * rate < temp by { assert temp * c > 0.0 * c; }
    if temp * rate > 1.0 {
      var q' := temp * rate / c;
      assert q' * c == temp * rate;
      assert (q - temp) * c == temp * rate;
      assert (q' - (q - temp)) * c == 0.0;
      assert q' - (q - temp) != 0.0 ==> (q' - (q - temp)) * c != 0.0;
    }
  }

  // ---------------------------------------------------------------------
  // The optimizer

  /** The random draws of one `generateState` call and of the acceptance
      test that follows it. */
  datatype Draws = Draws(picks: seq<SwapPick>, normals: seq<Normals>, coin: Fraction)

  /** What a finished run leaves behind: the first layout and the second
      one it was measured against, the best layout and the two energies. */
  datatype Run = Run(initial: LayoutState, rival: LayoutState, best: LayoutState, initialEnergy: real, bestEnergy: real)

  function Minimum(a: real, b: real): real {
    if b < a then b else a
  }

  /** One `temp *= rate` step from `a` to `b`, strictly downwards. */
  ghost predicate Cools(a: real, b: real, rate: real) {
    b == a * rate && b < a
  }

  /** The temperatures seen at the loop test: each is the previous one
      times `rate`, strictly lower, and every one but the last is above 1. */
  ghost predicate Cooled(temps: seq<real>, rate: real) {
    && |temps| >= 1
    && (forall i :: 0 < i < |temps| ==> Cools(temps[i - 1], temps[i], rate))
    && (forall i :: 0 <= i < |temps| - 1 ==> temps[i] > 1.0)
  }

  lemma CooledStep(temps: seq<real>, rate: real, next: real)
    requires Cooled(temps, rate) && temps[|temps| - 1] > 1.0
    requires Cools(temps[|temps| - 1], next, rate)
    ensures Cooled(temps + [next], rate)
  {
    var t := temps + [next];
    assert forall i :: 0 <= i < |temps| ==> t[i] == temps[i];
  }

  /** What the cooling loop carries from one iteration to the next: the
      current layout and energy, and the best ones. */
  datatype Search = Search(cur: LayoutState, curEnergy: real, best: LayoutState, bestEnergy: real)

  /** The candidate `generateState(clone(curState))` of one iteration. */
  function Candidate(host: Host, initialTemp: real, temp: real, s: Search, d: Draws): Result<LayoutState>
    requires initialTemp != 0.0 && |d.normals| == |s.cur.objects|
  {
    Perturbed(s.cur, TempRatio(temp, initialTemp), d.picks, d.normals, host.updatePosition)
  }

  /** One iteration of the cooling loop at temperature `temp`: a candidate
      from draw `d`, its energy against the current layout, the Metropolis
      test against the draw's coin, and the update of the best layout. */
  function Iteration(host: Host, initialTemp: real, temp: real, s: Search, d: Draws): Result<Search>
    requires initialTemp != 0.0 && temp != 0.0 && |d.normals| == |s.cur.objects|
  {
    var candidate := Candidate(host, initialTemp, temp, s, d);
    if candidate.Err? then Err(candidate.error)
    else
      var e := Energy(host.sqrt, candidate.value.objects, s.cur.objects);
      if e.Err? then Err(e.error)
      else
        var taken := Accepted(host.exp, temp, s.curEnergy, e.value, d.coin);
        var cur := if taken then candidate.value else s.cur;
        var curEnergy := if taken then e.value else s.curEnergy;
        if curEnergy < s.bestEnergy then Ok(Search(cur, curEnergy, cur, curEnergy))
        else Ok(Search(cur, curEnergy, s.best, s.bestEnergy))
  }

  /** The Metropolis step: an accepted candidate becomes the current
      layout with its energy, a rejected one leaves both alone, and the
      best becomes the current one exactly when it is strictly lower. */
  lemma StepMetropolis(host: Host, initialTemp: real, temp: real, s: Search, d: Draws)
    requires initialTemp != 0.0 && temp != 0.0 && |d.normals| == |s.cur.objects|
    requires Iteration(host, initialTemp, temp, s, d).Ok?
    ensures Candidate(host, initialTemp, temp, s, d).Ok?
    ensures Energy(host.sqrt, Candidate(host, initialTemp, temp, s, d).value.objects, s.cur.objects).Ok?
    ensures
      var c := Candidate(host, initialTemp, temp, s, d).value;
      var e := Energy(host.sqrt, c.objects, s.cur.objects).value;
      var t := Iteration(host, initialTemp, temp, s, d).value;
      && (Accepted(host.exp, temp, s.curEnergy, e, d.coin) ==> t.cur == c && t.curEnergy == e)
      && (!Accepted(host.exp, temp, s.curEnergy, e, d.coin) ==> t.cur == s.cur && t.curEnergy == s.curEnergy)
      && (t.curEnergy < s.bestEnergy ==> t.best == t.cur && t.bestEnergy == t.curEnergy)
      && (t.curEnergy >= s.bestEnergy ==> t.best == s.best && t.bestEnergy == s.bestEnergy)
  {
  }

  /** An iteration whose candidate is no worse than the current layout
      always moves to it, whatever the coin. */
  lemma StepTakesImprovement(host: Host, initialTemp: real, temp: real, s: Search, d: Draws)
    requires initialTemp != 0.0 && temp > 0.0 && |d.normals| == |s.cur.objects| && IsExp(host.exp)
    requires Iteration(host, initialTemp, temp, s, d).Ok?
    ensures Candidate(host, initialTemp, temp, s, d).Ok?
    ensures
      var c := Candidate(host, initialTemp, temp, s, d).value;
      var e := Energy(host.sqrt, c.objects, s.cur.objects);
      e.Ok? && e.value <= s.curEnergy ==>
        Iteration(host, initialTemp, temp, s, d).value.cur == c && Iteration(host, initialTemp, temp, s, d).value.curEnergy == e.value
  {
    var c := Candidate(host, initialTemp, temp, s, d).value;
    var e := Energy(host.sqrt, c.objects, s.cur.objects);
    if e.Ok? && e.value <= s.curEnergy {
      NoWorseIsAccepted(host.exp, temp, s.curEnergy, e.value, d.coin);
    }
  }

  /** The new best energy is the lower of the old best and the new current
      energy, and the new best pair is the old best or the new current. */
  lemma StepBest(host: Host, initialTemp: real, temp: real, s: Search, d: Draws)
    requires initialTemp != 0.0 && temp != 0.0 && |d.normals| == |s.cur.objects|
    requires Iteration(host, initialTemp, temp, s, d).Ok?
    ensures
      var t := Iteration(host, initialTemp, temp, s, d).value;
      && t.bestEnergy == Minimum(s.bestEnergy, t.curEnergy)
      && ((t.best == s.best && t.bestEnergy == s.bestEnergy) || (t.best == t.cur && t.bestEnergy == t.curEnergy))
  {
  }

  /** Both layouts an iteration leaves hold the furniture of `s0` when the
      ones it started from did. */
  lemma StepKeepsFurniture(host: Host, initialTemp: real, temp: real, s: Search, d: Draws, s0: LayoutState)
    requires initialTemp != 0.0 && temp != 0.0 && |d.normals| == |s.cur.objects|
    requires Iteration(host, initialTemp, temp, s, d).Ok?
    requires SameFurniture(s0, s.cur) && SameFurniture(s0, s.best)
    ensures SameFurniture(s0, Iteration(host, initialTemp, temp, s, d).value.cur)
    ensures SameFurniture(s0, Iteration(host, initialTemp, temp, s, d).value.best)
  {
    PerturbedKeepsFurniture(s.cur, TempRatio(temp, initialTemp), d.picks, d.normals, host.updatePosition);
    SameFurnitureTransitive(s0, s.cur, Candidate(host, initialTemp, temp, s, d).value);
  }

  /** `generateState` keeps a sound layout sound, and cannot fail on it. */
  lemma PerturbedKeepsSound(s: LayoutState, ratio: real, picks: seq<SwapPick>, normals: seq<Normals>, update: (LayoutState, nat) -> Derived)
    requires |normals| == |s.objects| && Sound(s.objects)
    ensures Perturbed(s, ratio, picks, normals, update).Ok?
    ensures Sound(Perturbed(s, ratio, picks, normals, update).value.objects)
  {
    var n := |s.objects[0].p|;
    PerturbedKeepsFurniture(s, ratio, picks, normals, update);
    var t := Perturbed(s, ratio, picks, normals, update).value;
    PerturbedKeepsPositions(s, ratio, picks, normals, update, n);
    SameFurnitureKeepsZones(Accessibility, s, t, n);
    SameFurnitureKeepsZones(Visibility, s, t, n);
    assert |t.objects[0].p| == n;
  }

  /** From sound layouts an iteration cannot fail and leaves sound ones. */
  lemma StepKeepsSound(host: Host, initialTemp: real, temp: real, s: Search, d: Draws)
    requires initialTemp != 0.0 && temp != 0.0 && |d.normals| == |s.cur.objects|
    requires Sound(s.cur.objects) && Sound(s.best.objects)
    ensures Iteration(host, initialTemp, temp, s, d).Ok?
    ensures Sound(Iteration(host, initialTemp, temp, s, d).value.cur.objects)
    ensures Sound(Iteration(host, initialTemp, temp, s, d).value.best.objects)
  {
    var ratio := TempRatio(temp, initialTemp);
    PerturbedKeepsSound(s.cur, ratio, d.picks, d.normals, host.updatePosition);
    PerturbedKeepsFurniture(s.cur, ratio, d.picks, d.normals, host.updatePosition);
    var c := Candidate(host, initialTemp, temp, s, d).value;
    SoundEnergy(host.sqrt, c.objects, s.cur.objects);
  }

  /** Both layouts of `x` hold the furniture of `s0`. */
  ghost predicate Keeps(s0: LayoutState, x: Search) {
    SameFurniture(s0, x.cur) && SameFurniture(s0, x.best)
  }

  /** The searches after every iteration of the cooling loop, at the
      temperatures `temps`: each is one `Iteration` from the previous one, with
      draw `i + 2` feeding the step out of search `i`. */
  ghost predicate Chain(host: Host, initialTemp: real, temps: seq<real>, searches: seq<Search>, draws: nat -> Draws) {
    && |searches| == |temps| >= 1
    && initialTemp != 0.0
    && (forall k :: |draws(k).normals| == |searches[0].cur.objects|)
    && (forall i :: 0 <= i < |searches| ==> Keeps(searches[0].cur, searches[i]))
    && (forall i :: 0 <= i < |searches| - 1 ==>
          temps[i] != 0.0 && Iteration(host, initialTemp, temps[i], searches[i], draws(i + 2)) == Ok(searches[i + 1]))
  }

  lemma ChainStep(host: Host, initialTemp: real, temps: seq<real>, searches: seq<Search>, draws: nat -> Draws, t: real, next: Search)
    requires Chain(host, initialTemp, temps, searches, draws) && temps[|temps| - 1] != 0.0
    requires Iteration(host, initialTemp, temps[|temps| - 1], searches[|searches| - 1], draws(|searches| + 1)) == Ok(next)
    ensures Chain(host, initialTemp, temps + [t], searches + [next], draws)
  {
    var last := |searches| - 1;
    var s0 := searches[0].cur;
    assert Keeps(s0, searches[last]);
    StepKeepsFurniture(host, initialTemp, temps[last], searches[last], draws(last + 2), s0);
    var ts, ss := temps + [t], searches + [next];
    assert ss[0] == searches[0];
    forall i | 0 <= i < |ss|
      ensures Keeps(s0, ss[i])
    {
      if i < |searches| {
        assert ss[i] == searches[i];
      }
    }
    forall i | 0 <= i < |ss| - 1
      ensures ts[i] != 0.0 && Iteration(host, initialTemp, ts[i], ss[i], draws(i + 2)) == Ok(ss[i + 1])
    {
      assert ts[i] == temps[i] && ss[i] == searches[i];
      if i < last {
        assert ss[i + 1] == searches[i + 1];
      }
    }
  }

  /** The best layout after iteration `j` is a current layout of some
      earlier iteration, with that layout's energy. */
  ghost predicate BestVisited(searches: seq<Search>, j: int) {
    0 <= j < |searches| &&
    exists i :: 0 <= i <= j && searches[i].cur == searches[j].best && searches[i].curEnergy == searches[j].bestEnergy
  }

  lemma {:induction false} BestUpTo(host: Host, initialTemp: real, temps: seq<real>, searches: seq<Search>, draws: nat -> Draws, j: nat)
    requires Chain(host, initialTemp, temps, searches, draws) && j < |searches|
    requires searches[0].best == searches[0].cur && searches[0].bestEnergy == searches[0].curEnergy
    ensures forall i :: 0 <= i <= j ==> searches[j].bestEnergy <= searches[i].bestEnergy && searches[j].bestEnergy <= searches[i].curEnergy
    ensures BestVisited(searches, j)
  {
    if j == 0 {
      assert searches[0].cur == searches[0].best;
    } else {
      BestUpTo(host, initialTemp, temps, searches, draws, j - 1);
      assert Keeps(searches[0].cur, searches[j - 1]);
      assert Iteration(host, initialTemp, temps[j - 1], searches[j - 1], draws(j + 1)) == Ok(searches[j]);
      StepBest(host, initialTemp, temps[j - 1], searches[j - 1], draws(j + 1));
      if searches[j].best == searches[j].cur && searches[j].bestEnergy == searches[j].curEnergy {
        assert searches[j].cur == searches[j].best;
      } else {
        var w :| 0 <= w <= j - 1 && searches[w].cur == searches[j - 1].best && searches[w].curEnergy == searches[j - 1].bestEnergy;
        assert searches[w].cur == searches[j].best;
      }
    }
  }

  /** Along a chain that starts with best equal to current, the best
      energy never rises, never exceeds a current energy seen so far, and
      always belongs to a current layout seen so far: it is the lowest
      current energy visited, and the best layout is one that had it. */
  lemma ChainBest(host: Host, initialTemp: real, temps: seq<real>, searches: seq<Search>, draws: nat -> Draws)
    requires Chain(host, initialTemp, temps, searches, draws)
    requires searches[0].best == searches[0].cur && searches[0].bestEnergy == searches[0].curEnergy
    ensures forall i, j :: 0 <= i <= j < |searches| ==>
      searches[j].bestEnergy <= searches[i].bestEnergy && searches[j].bestEnergy <= searches[i].curEnergy
    ensures forall j :: 0 <= j < |searches| ==> BestVisited(searches, j)
  {
    forall j | 0 <= j < |searches|
      ensures forall i :: 0 <= i <= j ==> searches[j].bestEnergy <= searches[i].bestEnergy && searches[j].bestEnergy <= searches[i].curEnergy
      ensures BestVisited(searches, j)
    {
      BestUpTo(host, initialTemp, temps, searches, draws, j);
    }
  }

  /** What the cooling loop of a finished run establishes: the searches
      form a chain from `start`, and the run's best layout and energy are
      the last search's, the lowest current energy visited, held by a
      layout that was current. */
  ghost predicate Annealed(host: Host, initialTemp: real, temps: seq<real>, searches: seq<Search>, draws: nat -> Draws,
                           start: LayoutState, startEnergy: real, best: LayoutState, bestEnergy: real) {
    && Chain(host, initialTemp, temps, searches, draws)
    && searches[0] == Search(start, startEnergy, start, startEnergy)
    && best == searches[|searches| - 1].best && bestEnergy == searches[|searches| - 1].bestEnergy
    && (forall i :: 0 <= i < |searches| ==> bestEnergy <= searches[i].curEnergy)
    && BestVisited(searches, |searches| - 1)
  }

  /** The start of `computeRoom()` at temperature `temp`: two layouts
      generated from `state`, and the energy of the second against the
      first, or the first error among the three. */
  function Start(host: Host, initialTemp: real, temp: real, state: LayoutState, draws: nat -> Draws): Result<(LayoutState, LayoutState, real)>
    requires initialTemp != 0.0 && |draws(0).normals| == |state.objects| && |draws(1).normals| == |state.objects|
  {
    var first := Perturbed(state, TempRatio(temp, initialTemp), draws(0).picks, draws(0).normals, host.updatePosition);
    if first.Err? then Err(first.error)
    else
      var second := Perturbed(state, TempRatio(temp, initialTemp), draws(1).picks, draws(1).normals, host.updatePosition);
      if second.Err? then Err(second.error)
      else
        var e := Energy(host.sqrt, second.value.objects, first.value.objects);
        if e.Err? then Err(e.error)
        else Ok((first.value, second.value, e.value))
  }

  /** Both generated layouts keep the furniture of `state`. An empty
      layout, when a swap is drawn, and a zero denominator make the start
      fail; a sound layout makes it succeed with a sound current layout. */
  lemma StartFacts(host: Host, initialTemp: real, temp: real, state: LayoutState, draws: nat -> Draws)
    requires initialTemp != 0.0 && |draws(0).normals| == |state.objects| && |draws(1).normals| == |state.objects|
    ensures Start(host, initialTemp, temp, state, draws).Ok? ==>
      SameFurniture(state, Start(host, initialTemp, temp, state, draws).value.0) &&
      SameFurniture(state, Start(host, initialTemp, temp, state, draws).value.1)
    ensures |draws(0).picks| > 0 && |state.objects| == 0 ==> Start(host, initialTemp, temp, state, draws).Err?
    ensures ZeroDenominator(Accessibility, state.objects) || ZeroDenominator(Visibility, state.objects) ==>
      Start(host, initialTemp, temp, state, draws).Err?
    ensures Sound(state.objects) ==>
      Start(host, initialTemp, temp, state, draws).Ok? && Sound(Start(host, initialTemp, temp, state, draws).value.0.objects)
  {
    var ratio := TempRatio(temp, initialTemp);
    PerturbedKeepsFurniture(state, ratio, draws(0).picks, draws(0).normals, host.updatePosition);
    PerturbedKeepsFurniture(state, ratio, draws(1).picks, draws(1).normals, host.updatePosition);
    if Sound(state.objects) {
      PerturbedKeepsSound(state, ratio, draws(0).picks, draws(0).normals, host.updatePosition);
      PerturbedKeepsSound(state, ratio, draws(1).picks, draws(1).normals, host.updatePosition);
    }
    var first := Perturbed(state, ratio, draws(0).picks, draws(0).normals, host.updatePosition);
    var second := Perturbed(state, ratio, draws(1).picks, draws(1).normals, host.updatePosition);
    if first.Ok? && second.Ok? {
      if ZeroDenominator(Accessibility, state.objects) || ZeroDenominator(Visibility, state.objects) {
        SameFurnitureKeepsZones(Accessibility, state, second.value, 0);
        SameFurnitureKeepsZones(Visibility, state, second.value, 0);
        ZeroDenominatorEnergy(host.sqrt, second.value.objects, first.value.objects);
      }
      if Sound(state.objects) {
        SoundEnergy(host.sqrt, second.value.objects, first.value.objects);
      }
    }
  }

  /** How a run that got past its start ends in error `e`: either the next
      iteration of the loop throws it while the temperature is above 1, or
      the loop is over and the final evaluation of the best layout throws it. */
  ghost predicate Stopped(host: Host, initialTemp: real, temps: seq<real>, searches: seq<Search>, draws: nat -> Draws, e: Error) {
    && Chain(host, initialTemp, temps, searches, draws)
    && var last, temp := searches[|searches| - 1], temps[|temps| - 1];
       || (temp > 1.0 && Iteration(host, initialTemp, temp, last, draws(|searches| + 1)) == Err(e))
       || (temp <= 1.0 && Energy(host.sqrt, last.best.objects, last.best.objects) == Err(e))
  }

  class Algorithm {
    const initialTemp: real
    var temp: real
    const coolRate: real
    const state: LayoutState
    const host: Host
    /** The snapshot stack `send` pops. */
    var animationStates: seq<LayoutState>

    /** `new Algorithm(state, options, callback)`; `decay` is
        `options.coolRate` and the callback is left to `Send`'s caller. */
    constructor (state: LayoutState, initialTemp: real, decay: real, host: Host)
      ensures this.state == state && this.initialTemp == initialTemp && temp == initialTemp
      ensures coolRate == 1.0 - decay && this.host == host && animationStates == []
    {
      this.initialTemp := initialTemp;
      this.temp := initialTemp;
      this.coolRate := 1.0 - decay;
      this.state := state;
      this.host := host;
      this.animationStates := [];
    }

    /** `generateState(clone(s))`: the swaps, then the jitter of every item
        on a private copy of the objects. */
    method GenerateState(s: LayoutState, picks: seq<SwapPick>, normals: seq<Normals>) returns (r: Result<LayoutState>)
      requires initialTemp != 0.0 && |normals| == |s.objects|
      ensures r == Perturbed(s, TempRatio(temp, initialTemp), picks, normals, host.updatePosition)
    {
      var n := |s.objects|;
      var objects := new Furniture[n](k requires 0 <= k < n => s.objects[k]);
      assert objects[..] == s.objects;
      var ok := Swap(objects, picks);
      if !ok {
        return Err(UndefinedObject);
      }
      var ratio := temp / initialTemp + 0.5;
      Jitter(objects, s.room, ratio, normals, host.updatePosition);
      return Ok(LayoutState(s.room, objects[..]));
    }

    /** `this.temp *= this.coolRate` above 1. */
    method Cool()
      requires coolRate < 1.0 && temp > 1.0
      modifies this`temp
      ensures Cools(old(temp), temp, coolRate)
      ensures 0 < CoolingSteps(old(temp), coolRate)
      ensures CoolingSteps(temp, coolRate) < CoolingSteps(old(temp), coolRate)
    {
      CoolingProgress(temp, coolRate, temp * coolRate);
      temp := temp * coolRate;
    }

    /** The body of the cooling loop, one iteration from `s` with draw `d`. */
    method Iterate(s: Search, d: Draws) returns (r: Result<Search>)
      requires initialTemp != 0.0 && temp != 0.0 && |d.normals| == |s.cur.objects|
      ensures r == Iteration(host, initialTemp, temp, s, d)
    {
      var next := GenerateState(s.cur, d.picks, d.normals);
      if next.Err? {
        return Err(next.error);
      }
      var e := EvalFurniture(host.sqrt, next.value.objects, s.cur.objects);
      if e.Err? {
        return Err(e.error);
      }
      var cur, curEnergy := s.cur, s.curEnergy;
      if AcceptProbability(host.exp, temp, curEnergy, e.value) > d.coin {
        cur, curEnergy := next.value, e.value;
      }
      var best, bestEnergy := s.best, s.bestEnergy;
      if curEnergy < bestEnergy {
        best, bestEnergy := cur, curEnergy;
      }
      return Ok(Search(cur, curEnergy, best, bestEnergy));
    }

    /** The cooling loop of `computeRoom()`, from the current layout
        `start` of energy `startEnergy`; draw `k` feeds the `k`-th
        `generateState` call, the loop's first being the third. The ghost
        histories record the temperature at every loop test and the search
        after every iteration: the result is the last search, or the error
        of the iteration that threw. */
    method Anneal(start: LayoutState, startEnergy: real, draws: nat -> Draws)
        returns (r: Result<Search>, ghost temps: seq<real>, ghost searches: seq<Search>)
      requires initialTemp != 0.0 && (coolRate < 1.0 || temp <= 1.0)
      requires forall k :: |draws(k).normals| == |start.objects|
      modifies this`temp
      ensures Cooled(temps, coolRate) && temps[0] == old(temp) && temps[|temps| - 1] == temp
      ensures Chain(host, initialTemp, temps, searches, draws)
      ensures searches[0] == Search(start, startEnergy, start, startEnergy)
      ensures r.Ok? ==> temp <= 1.0 && r.value == searches[|searches| - 1]
      ensures r.Err? ==>
        temp > 1.0 && Iteration(host, initialTemp, temp, searches[|searches| - 1], draws(|searches| + 1)) == Err(r.error)
      ensures Sound(start.objects) ==> r.Ok? && Sound(r.value.best.objects)
    {
      var search := Search(start, startEnergy, start, startEnergy);
      temps, searches := [temp], [search];
      var k: nat := 2;
      while temp > 1.0
        invariant coolRate < 1.0 || temp <= 1.0
        invariant Cooled(temps, coolRate) && temps[0] == old(temp) && temps[|temps| - 1] == temp
        invariant Chain(host, initialTemp, temps, searches, draws)
        invariant searches[0] == Search(start, startEnergy, start, startEnergy)
        invariant search == searches[|searches| - 1] && k == |searches| + 1
        invariant Sound(start.objects) ==> Sound(search.cur.objects) && Sound(search.best.objects)
        decreases CoolingSteps(temp, coolRate)
      {
        assert Keeps(start, search);
        var d := draws(k);
        if Sound(start.objects) {
          StepKeepsSound(host, initialTemp, temp, search, d);
        }
        var next := Iterate(search, d);
        if next.Err? {
          r := Err(next.error);
          return;
        }
        ChainStep(host, initialTemp, temps, searches, draws, temp * coolRate, next.value);
        search := next.value;
        Cool();
        CooledStep(temps, coolRate, temp);
        temps, searches := temps + [temp], searches + [search];
        k := k + 1;
      }
      r := Ok(search);
    }

    /** The start of `computeRoom()`: two generated layouts, the first of
        which becomes the current state, and the energy of the second
        measured against the first. */
    method Begin(draws: nat -> Draws) returns (r: Result<(LayoutState, LayoutState, real)>)
      requires initialTemp != 0.0
      requires |draws(0).normals| == |state.objects| && |draws(1).normals| == |state.objects|
      ensures r == Start(host, initialTemp, temp, state, draws)
    {
      var first := GenerateState(state, draws(0).picks, draws(0).normals);
      if first.Err? {
        return Err(first.error);
      }
      var second := GenerateState(state, draws(1).picks, draws(1).normals);
      if second.Err? {
        return Err(second.error);
      }
      var energy := EvalFurniture(host.sqrt, second.value.objects, first.value.objects);
      if energy.Err? {
        return Err(energy.error);
      }
      return Ok((first.value, second.value, energy.value));
    }

    /** The end of `computeRoom()`: the cooling loop from the current
        layout `initial` of energy `initialEnergy`, the final evaluation of
        the best layout, which must not throw, and the push of that layout. */
    method Conclude(initial: LayoutState, initialEnergy: real, draws: nat -> Draws)
        returns (r: Result<Search>, ghost temps: seq<real>, ghost searches: seq<Search>)
      requires initialTemp != 0.0 && (coolRate < 1.0 || temp <= 1.0)
      requires forall k :: |draws(k).normals| == |initial.objects|
      modifies this`temp, this`animationStates
      ensures Cooled(temps, coolRate) && temps[0] == old(temp) && temps[|temps| - 1] == temp
      ensures Chain(host, initialTemp, temps, searches, draws)
      ensures searches[0] == Search(initial, initialEnergy, initial, initialEnergy)
      ensures r.Err? ==> animationStates == old(animationStates) && Stopped(host, initialTemp, temps, searches, draws, r.error)
      ensures r.Ok? ==> temp <= 1.0 && animationStates == old(animationStates) + [r.value.best]
      ensures r.Ok? ==>
        Annealed(host, initialTemp, temps, searches, draws, initial, initialEnergy, r.value.best, r.value.bestEnergy)
      ensures r.Ok? ==> SameFurniture(initial, r.value.best)
      ensures r.Ok? ==> Energy(host.sqrt, r.value.best.objects, r.value.best.objects).Ok?
      ensures Sound(initial.objects) ==> r.Ok?
    {
      r, temps, searches := Anneal(initial, initialEnergy, draws);
      if r.Err? {
        return;
      }
      ChainBest(host, initialTemp, temps, searches, draws);
      assert Keeps(initial, searches[|searches| - 1]);
      var best := r.value.best;
      if Sound(initial.objects) {
        SoundEnergy(host.sqrt, best.objects, best.objects);
      }
      var check := EvalFurniture(host.sqrt, best.objects, best.objects);
      if check.Err? {
        r := Err(check.error);
        return;
      }
      animationStates := animationStates + [best];
    }

    /** `computeRoom()`: the start gives the first current state and its
        energy, the slot `animationStates` receives the first, and the
        cooling loop, the final evaluation and the push of the best layout
        follow. */
    method ComputeRoom(draws: nat -> Draws) returns (r: Result<Run>, ghost temps: seq<real>, ghost searches: seq<Search>)
      requires initialTemp != 0.0 && (coolRate < 1.0 || temp <= 1.0)
      requires forall k :: |draws(k).picks| == NumSwaps && |draws(k).normals| == |state.objects|
      modifies this`temp, this`animationStates
      ensures Cooled(temps, coolRate) && temps[0] == old(temp) && temps[|temps| - 1] == temp
      ensures r.Err? ==>
        var start := Start(host, initialTemp, old(temp), state, draws);
        if start.Err? then
          animationStates == old(animationStates) && r.error == start.error && temp == old(temp) && temps == [old(temp)]
        else
          && animationStates == old(animationStates) + [start.value.0]
          && Stopped(host, initialTemp, temps, searches, draws, r.error)
          && searches[0] == Search(start.value.0, start.value.2, start.value.0, start.value.2)
      ensures r.Ok? ==> temp <= 1.0
      ensures r.Ok? ==> animationStates == old(animationStates) + [r.value.initial] + [r.value.best]
      ensures r.Ok? ==> Start(host, initialTemp, old(temp), state, draws) == Ok((r.value.initial, r.value.rival, r.value.initialEnergy))
      ensures r.Ok? ==> SameFurniture(state, r.value.initial) && SameFurniture(state, r.value.best)
      ensures r.Ok? ==>
        Annealed(host, initialTemp, temps, searches, draws, r.value.initial, r.value.initialEnergy, r.value.best, r.value.bestEnergy)
      ensures r.Ok? ==> Energy(host.sqrt, r.value.best.objects, r.value.best.objects).Ok?
      ensures |state.objects| == 0 ==> r.Err?
      ensures ZeroDenominator(Accessibility, state.objects) || ZeroDenominator(Visibility, state.objects) ==> r.Err?
      ensures Sound(state.objects) ==> r.Ok?
    {
      temps, searches := [temp], [];
      StartFacts(host, initialTemp, temp, state, draws);
      var start := Begin(draws);
      if start.Err? {
        r := Err(start.error);
        assert temps == [old(temp)] && temp == old(temp);
        return;
      }
      var initial, rival, initialEnergy := start.value.0, start.value.1, start.value.2;
      animationStates := animationStates + [initial];
      var found;
      found, temps, searches := Conclude(initial, initialEnergy, draws);
      if found.Err? {
        r := Err(found.error);
        return;
      }
      SameFurnitureTransitive(state, initial, found.value.best);
      r := Ok(Run(initial, rival, found.value.best, initialEnergy, found.value.bestEnergy));
    }

    /** One tick of `send()`: pop the newest snapshot, if any, for the
        callback. */
    method Send() returns (delivered: Option<LayoutState>)
      modifies this`animationStates
      ensures (delivered, animationStates) == Tick(old(animationStates))
    {
      if |animationStates| > 0 {
        var last := animationStates[|animationStates| - 1];
        animationStates := animationStates[..|animationStates| - 1];
        return Some(last);
      }
      return None;
    }
  }
}
