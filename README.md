# Roomie layout optimizer, modelled in Dafny

Roomie arranges furniture in a rectangular room by simulated annealing. The
`Algorithm` object holds a start layout and a temperature. `computeRoom`
does four things:

- It generates perturbed candidate layouts: random swaps of two items'
  positions, then a Gaussian jitter of every item, clipped per axis to the
  room.
- It scores each candidate against the current layout. The score is an
  energy made of accessibility and visibility zone costs plus a prior
  (continuity) cost on the derived wall distance `d` and wall angle
  `thetaWall`.
- It accepts candidates by the Metropolis rule and cools the temperature
  geometrically until it reaches 1.
- It records the first and the best layout on a snapshot stack, which
  `send` pops, newest first, for the interface.

The vector helpers `add`, `subtract` and `magnitude` are modelled with
their loops.

Modules, in dependency order:

- `Results`: `Option`, `Result` and the errors the source throws:
  - `InvalidVectors`: length mismatch.
  - `DivisionByZero(term)`: a zero cost denominator.
  - `UndefinedObject`: reading a missing array entry.
- `VectorMath`: `Add`, `Subtract` and `Magnitude` as loops. Each is proved
  equal to a specification function (`Sum`, `Difference`, `Norm`), and the
  algebra is proved on those functions.
- `Layout`: room, zone, furniture and layout records. Also the room-bounds
  predicates and "same furniture, only positions and derived fields
  differ".
- `Costs`: accessibility and visibility costs, as one cost parameterised by
  the zone list (`Accessibility` reads `accessibilityAreas`, `Visibility`
  reads `viewFrustum`):
  - running-total specification functions, one per loop level;
  - the three nested loops, one method per level (`AddZoneTerms`,
    `AddObserverTerms`, `ComputeZoneCost`);
  - error, bound and saturation lemmas.
- `Continuity`: `priorCost` and the unused `pairwiseCost`, as loops with
  specification functions and zero-iff lemmas.
- `Evaluation`: `evalFurniture` as the weighted sum
  0.1·acc + 0.01·vis + 1·dCost + 10·tCost.
- `Perturbation`: `swapFurniture` on an array, the swap loop and the jitter
  loop of `generateState`, their specification functions, and the bounds
  and furniture-preservation lemmas.
- `Playback`: the snapshot stack as a pure `Tick`, plus the order in which
  repeated ticks deliver snapshots.
- `Annealing`:
  - the acceptance rule and its probability lemmas;
  - the cooling measure;
  - the class `Algorithm` with `GenerateState`, `ComputeRoom` and `Send`.
    `ComputeRoom` is split into `Begin` (the two first layouts and the
    first energy) and `Conclude` (the cooling loop `Anneal`, the final
    evaluation and the last push). `Iterate` is one turn of the loop and
    `Cool` its cooling step.
  - the pure `Iteration` that one turn of the loop computes: the
    candidate, its energy, the Metropolis test and the best update. A
    `Chain` of iterations is the loop's history, and the lemmas on it say
    which layout is the best.

Some loop bodies are separate methods (`AddZoneTerm`, `JitterOne`, `Iterate`) only to
keep each proof small; they run the same statements in the same order.

Numbers are Dafny `real`s.

Randomness becomes inputs:
- a `Fraction` in [0, 1) for each `Math.random()` call of a swap pick or of
  the acceptance coin;
- a pair of standard normal samples per item for the jitter;
- `ComputeRoom` takes `draws: nat -> Draws`, whose `k`-th entry feeds the
  `k`-th `generateState` call (counted from 0). Only draws with `k ≥ 2`
  come from the cooling loop and feed an acceptance test. The coins of
  draws 0 and 1 are unused.

`Math.sqrt`, `Math.exp` and the furniture module's `updatePosition` are
fields of `Host`. Lemmas that need facts about them assume `IsSqrt`
(non-negative square root) or `IsExp` (positive, `exp(0) = 1`, monotone).

Behaviours of the code worth knowing:
- Swaps exchange positions between items of different sizes, so a swap
  can put an item outside the room (`SwapCanLeaveRoom`). The jitter on
  its own never takes an item out (`JitterKeepsInside`).
- The zone-cost guard only rejects a zero denominator. A negative one
  passes and can yield a term above 1 (`NegativeDenominatorExceedsOne`).
- Equal energies are accepted with probability exactly `exp(0) = 1` at
  every temperature (`AcceptanceIsProbability`).
- The first energy is measured on the second generated layout against the
  first (`computeRoom` lines 33-35). So the best energy is bounded by that
  value, not by the energy of the initial layout against itself.
- `pairwiseCost` sums over every other item of the wanted kind, not only
  the nearest one. Its second component is always 0.

## Model

| member | source | states |
|---|---|---|
| VectorMath.Add | app/vectormath.js:5-15 | Length mismatch gives `Err(InvalidVectors)`. Otherwise the result has the common length and entry k is `v1[k] + v2[k]`; it equals `Sum`. |
| VectorMath.Subtract | app/vectormath.js:17-27 | Length mismatch gives `Err(InvalidVectors)`. Otherwise entry k is `v1[k] - v2[k]`; it equals `Difference`. |
| VectorMath.Magnitude | app/vectormath.js:29-36 | Returns sqrt of the sum of squares. With a real square root it is ≥ 0, and 0 exactly for the zero vector. |
| VectorMath.SumOfSquaresZero | app/vectormath.js:30-33 | The accumulated sum of squares is ≥ 0, and 0 exactly when every entry is 0. |
| VectorMath.SquarePositive | app/vectormath.js:32 | A square is ≥ 0, and > 0 for a non-zero entry. |
| VectorMath.NormZero | app/vectormath.js:29-36 | With a real square root the magnitude is ≥ 0, and 0 iff the vector is zero. |
| VectorMath.DifferenceSelf | app/vectormath.js:17-27 | `subtract(v, v)` succeeds and is the zero vector of the same length. |
| VectorMath.AddUndoesSubtract | app/vectormath.js:5-27 | For equal lengths, `add(subtract(v1, v2), v2)` succeeds and gives back `v1`. |
| VectorMath.DifferenceOfSumIsZero | app/algorithm.js:153 | When an item sits exactly at another item's zone point, `subtract(i.p, add(j.p, a))` is the zero vector. |
| Costs.ZoneTermFacts | app/algorithm.js:147-153 | One zone term: throws exactly when a vector length mismatches or the denominator (the observer's `b` plus the zone radius) is 0. A zero denominator throws `DivisionByZero` for its cost. A value is ≥ 0. |
| Costs.TermAtMostOne | app/algorithm.js:153 | With a real square root and a positive denominator, a term is ≤ 1. |
| Costs.NegativeDenominatorExceedsOne | app/algorithm.js:148-153 | A denominator of -1 passes the guard, and the term then exceeds 1. |
| Costs.ZonesFailIff | app/algorithm.js:147-154 | The zone loop for one pair throws iff one of its zones is bad. |
| Costs.ObserverFailIff | app/algorithm.js:142-156 | The inner item loop throws iff some other item with a different id has a bad zone. Items with the observer's own id are skipped. |
| Costs.CostFailsIff | app/algorithm.js:133-188 | Accessibility (or visibility) cost throws iff some ordered pair of items with different ids has a bad zone. |
| Costs.ZeroDenominatorThrows | app/algorithm.js:148-151 | Any zone of another item whose denominator is 0 makes the cost throw. |
| Costs.ZeroDenominatorFails | app/algorithm.js:148-151 | The same, for a zero denominator located by index in the layout. |
| Costs.RegularCostSucceeds | app/algorithm.js:133-188 | With every position and zone offset of one dimension and no zero denominator between distinct items, the cost does not throw. |
| Costs.SameFurnitureKeepsZones | app/algorithm.js:133-188 | Moving furniture keeps both the presence of a zero denominator and the dimension of every zone offset. |
| Costs.ZeroDenominatorMoves | app/algorithm.js:148-151 | A zero denominator survives moving the furniture. |
| Costs.OffsetsMove | app/algorithm.js:147-153 | The dimension of every zone offset survives moving the furniture. |
| Costs.ZonesBounds | app/algorithm.js:147-154 | One pair's zone sum is ≥ 0. With positive denominators it is ≤ the number of zones. |
| Costs.ObserverBounds | app/algorithm.js:142-156 | One observer's sum is ≥ 0. With positive denominators it is ≤ the number of zones of the other items. |
| Costs.CostBounds | app/algorithm.js:133-188 | The cost is ≥ 0. With positive denominators it is ≤ the number of (observer, other item, zone) terms. |
| Costs.CoincidentTerm | app/algorithm.js:153 | An observer standing on the zone point contributes exactly 1. |
| Costs.ZonesSaturate | app/algorithm.js:147-154 | If every zone of the pair is coincident, the pair contributes exactly its zone count. |
| Costs.PairSaturates | app/algorithm.js:142-154 | A coincident target adds exactly its zone count, and nothing when it shares the observer's id. |
| Costs.ObserverSaturates | app/algorithm.js:142-156 | If one observer is coincident with every counted zone, its sum is exactly its slot count. |
| Costs.CoincidentZonesSaturate | app/algorithm.js:133-188 | If every term is coincident, the cost equals the number of terms, its upper bound. |
| Costs.ComputeZoneTerm | app/algorithm.js:147-153 | The guard, add, subtract, magnitude and clamp of one zone compute `ZoneTerm`. |
| Costs.AddZoneTerm | app/algorithm.js:147-153 | One turn of the zone loop adds that zone's term to the running total, or throws its error. |
| Costs.AddZoneTerms | app/algorithm.js:147-154 | The zone loop over one target adds the pair's zone sum to the running total, and stops with the first zone error. |
| Costs.AddObserverTerms | app/algorithm.js:142-156 | The loop over targets adds one observer's sum to the running total, skips the observer's own id, and stops with the first error. |
| Costs.ComputeZoneCost | app/algorithm.js:133-188 | The three nested loops compute the running-total cost `ZoneCost`, including its first error. |
| Continuity.PriorCost | app/algorithm.js:192-201 | Throws iff the previous layout has fewer items than the current one. |
| Continuity.DriftZeroIff | app/algorithm.js:195-198 | A summed absolute drift is ≥ 0, and 0 iff the field agrees at every index. |
| Continuity.PriorCostZeroIff | app/algorithm.js:192-201 | Both prior costs are ≥ 0. The pair is (0, 0) iff `d` and `thetaWall` agree with the previous layout at every index. |
| Continuity.ComputePriorCost | app/algorithm.js:192-201 | The loop computes `PriorCost`, including its error. |
| Continuity.RowZeroIff | app/algorithm.js:211-219 | One item's pairwise row is ≥ 0, and 0 iff every other item of the wanted kind is at the wanted distance. |
| Continuity.TotalZeroIff | app/algorithm.js:206-220 | The pairwise total is ≥ 0, and 0 iff every item with a target meets it. Items without a target are skipped. |
| Continuity.PairwiseCostZeroIff | app/algorithm.js:203-223 | The distance cost is ≥ 0, and the second component is 0. The distance cost is 0 iff all targets are met. |
| Continuity.ComputePairwiseCost | app/algorithm.js:203-223 | The nested loops compute `PairwiseCost`. |
| Evaluation.EvalFurniture | app/algorithm.js:74-82 | The weighted sum of the four costs equals `Energy`. Errors come first from accessibility, then visibility, then the prior cost. |
| Evaluation.EnergyFailsIff | app/algorithm.js:74-82 | The energy throws iff accessibility or visibility has a bad zone, or the previous layout is shorter. |
| Evaluation.SoundEnergy | app/algorithm.js:74-82 | On a sound layout (not empty, one dimension for positions and offsets, no zero denominator) measured against one at least as long, the energy does not throw. |
| Evaluation.ZeroDenominatorEnergy | app/algorithm.js:74-76 | A zero denominator in either zone cost makes the energy throw. |
| Evaluation.EnergyNonNegative | app/algorithm.js:74-82 | A computed energy is ≥ 0. |
| Evaluation.EnergyAgainstItself | app/algorithm.js:62 | A layout measured against itself has no prior cost: only 0.1·acc + 0.01·vis remain. |
| Evaluation.EnergyUpperBound | app/algorithm.js:81 | With positive denominators the energy is at most the weighted term counts plus the weighted drifts. |
| Perturbation.PickIndex | app/algorithm.js:107-108 | `floor(u·n)` is a valid index when `n > 0`, and 0 for an empty layout. |
| Perturbation.SwapFurniture | app/algorithm.js:92-98 | Succeeds iff both indices exist. On success the array becomes `Swapped`; on failure it is unchanged. |
| Perturbation.SwapExchangesPositions | app/algorithm.js:92-98 | The two positions are exchanged. Every other field and every other entry is unchanged. Equal indices are a no-op. |
| Perturbation.SwapInvolution | app/algorithm.js:92-98 | Swapping the same pair twice restores the layout. |
| Perturbation.SwapAll | app/algorithm.js:105-110 | The swaps keep the layout length. Their only error is `UndefinedObject`. |
| Perturbation.SwapAllFacts | app/algorithm.js:105-110 | The swaps throw iff there is a swap to do and the layout is empty. Otherwise each entry keeps everything but its position. |
| Perturbation.Swap | app/algorithm.js:105-110 | The swap loop on the array succeeds iff `SwapAll` does, and leaves its result. |
| Perturbation.SwapEqualFootprints | app/algorithm.js:92-98 | Exchanging two items of equal footprint keeps an in-room layout in the room. |
| Perturbation.SwapsKeepUniformInside | app/algorithm.js:105-110 | In a layout of equal footprints, all swaps keep every item in the room. |
| Perturbation.SwapCanLeaveRoom | app/algorithm.js:92-98 | A large and a small item, both in the room, have a swap that puts the large one outside. |
| Perturbation.MoveAxisClips | app/algorithm.js:119-124 | An axis moves only by its step and only to a position whose margin fits its limit. A rejected move or a missing coordinate leaves the vector unchanged. Other axes never move. An in-range coordinate stays in range. |
| Perturbation.MovedStaysInside | app/algorithm.js:116-124 | x and y are clipped independently: a changed coordinate is inside the room on its own axis. An in-room item stays in the room, and only its position changes. |
| Perturbation.Jittered | app/algorithm.js:116-127 | The jitter keeps the room and the number of items. |
| Perturbation.JitterKeepsInside | app/algorithm.js:116-127 | The jitter follows `SameFurniture`: only positions and derived fields change. Every item that was in the room stays in it. |
| Perturbation.JitterStepKeepsInside | app/algorithm.js:116-126 | Jittering one entry changes only its position and derived fields, leaves every other entry alone, and keeps in-room items in the room. |
| Perturbation.JitteredPosition | app/algorithm.js:117-124 | The clipped per-axis moves of one item give the position of `Moved`. |
| Perturbation.JitterOne | app/algorithm.js:116-126 | One turn of the jitter loop moves entry `k`, then refreshes it with `updatePosition` on the layout holding the move, as `JitterStep`. |
| Perturbation.Jitter | app/algorithm.js:116-127 | The jitter loop on the array leaves `Jittered`. Each item is moved, then refreshed by `updatePosition` on the layout that already holds its move. |
| Perturbation.PerturbedKeepsFurniture | app/algorithm.js:101-130 | `generateState` throws iff it must swap in an empty layout. Otherwise it keeps the room, the order and every item's identity, footprint, zones and baseline. |
| Perturbation.SwapAllKeepsPositions | app/algorithm.js:105-110 | If all positions have `n` coordinates before the swaps, they still do after them. |
| Perturbation.JitteredKeepsPositions | app/algorithm.js:116-127 | The jitter keeps the number of coordinates of every position. |
| Perturbation.PerturbedKeepsPositions | app/algorithm.js:101-130 | A generated layout keeps the number of coordinates of every position. |
| Perturbation.UniformLayoutStaysInside | app/algorithm.js:101-130 | For equal footprints, a generated layout of an in-room layout is in the room. |
| Playback.TickPops | app/algorithm.js:66-70 | An empty store delivers nothing and is unchanged. Otherwise the newest snapshot is delivered and removed. |
| Playback.TickUndoesPush | app/algorithm.js:66-70 | A tick after a push delivers the pushed snapshot and restores the store. |
| Playback.DrainIsNewestFirst | app/algorithm.js:66-72 | `t` ticks deliver the newest min(t, size) snapshots, newest first, and leave the older ones in order. |
| Playback.RunPlaysBestFirst | app/algorithm.js:36-72 | The two snapshots of a run reach the interface best first, then initial, and the store drains. |
| Annealing.AcceptProbability | app/algorithm.js:84-90 | An improvement is accepted with probability exactly 1. |
| Annealing.AcceptanceIsProbability | app/algorithm.js:84-90 | At a positive temperature the probability is in (0, 1], and exactly 1 for equal energies. |
| Annealing.NoWorseIsAccepted | app/algorithm.js:48 | An improving or equal candidate beats every coin in [0, 1). |
| Annealing.AcceptanceFallsWithEnergy | app/algorithm.js:89 | A worse candidate is never more likely to be accepted than a better one. |
| Annealing.AcceptanceFallsWithTemperature | app/algorithm.js:89 | A lower temperature never raises the chance of accepting a worse candidate. |
| Annealing.CoolingProgress | app/algorithm.js:44-58 | Above 1 and with `coolRate < 1`, one cooling step multiplies by `coolRate`, strictly lowers the temperature, and lowers the loop's termination measure. |
| Annealing.CooledStep | app/algorithm.js:58 | Appending the cooled temperature keeps the history multiplicative and strictly decreasing. |
| Annealing.StepMetropolis | app/algorithm.js:45-56 | One loop iteration that succeeds has generated a candidate and evaluated it against the current layout. An accepted candidate becomes the current layout with its energy, and a rejected one leaves both unchanged. The best becomes the new current layout exactly when its energy is strictly below the old best. |
| Annealing.StepTakesImprovement | app/algorithm.js:45-51 | With a real `exp` and a positive temperature, a candidate no worse than the current layout always becomes current, whatever the coin. |
| Annealing.StepBest | app/algorithm.js:53-56 | After an iteration the best energy is min(old best, new current). The best pair is either the old best or the new current. |
| Annealing.StepKeepsFurniture | app/algorithm.js:45-56 | Both layouts an iteration leaves keep the start layout's furniture. |
| Annealing.PerturbedKeepsSound | app/algorithm.js:101-130 | `generateState` of a sound layout cannot throw, and its result is sound. |
| Annealing.StepKeepsSound | app/algorithm.js:45-56 | From sound current and best layouts an iteration cannot throw and leaves sound ones. |
| Annealing.ChainStep | app/algorithm.js:44-58 | Appending the next iteration's result extends the loop's history. |
| Annealing.BestUpTo | app/algorithm.js:53-56 | After iteration `j` the best energy is ≤ every earlier best and current energy. The best layout is a layout that was current, with that layout's energy. |
| Annealing.ChainBest | app/algorithm.js:38-56 | Along the whole history the best energy never rises. It is the lowest current energy seen, the first included, and the best layout is one that was current with it. |
| Annealing.Algorithm.constructor | app/algorithm.js:13-22 | Sets the start layout. Both temperatures are `initalTemp`, `coolRate` is `1 - options.coolRate`, and the snapshot stack is empty. |
| Annealing.Algorithm.GenerateState | app/algorithm.js:101-130 | On a private copy, the swaps then the jitter at spread `temp/initalTemp + 0.5` produce `Perturbed`, including its error. |
| Annealing.StartFacts | app/algorithm.js:33-35 | Both layouts of a successful start keep the start layout's furniture. An empty layout with a swap to draw, or a zero denominator between distinct items, makes the start fail. A sound layout makes it succeed with a sound current layout. |
| Annealing.Algorithm.Begin | app/algorithm.js:33-35 | Computes `Start`: the two `generateState(state)` results and the second's energy against the first, or the first error among the three calls. |
| Annealing.Algorithm.Iterate | app/algorithm.js:45-56 | One turn of the loop computes `Iteration`: the candidate, its energy, the Metropolis test against the draw's coin and the best update, or the first error. |
| Annealing.Algorithm.Cool | app/algorithm.js:58 | `temp *= coolRate` above 1 strictly lowers the temperature and the termination measure. |
| Annealing.Algorithm.Anneal | app/algorithm.js:44-59 | Each recorded temperature is the previous one times `coolRate` and strictly lower. The searches start with best equal to current at the start layout. Each next search is one `Iteration` at the recorded temperature, with draw `i + 2`. On success the loop ends with `temp ≤ 1` and returns the last search. An error is the one the next iteration throws at a temperature above 1. A sound start layout cannot fail and yields a sound best layout. |
| Annealing.Algorithm.Conclude | app/algorithm.js:44-63 | The loop as in `Anneal`, then the final evaluation of the best layout, then the push of that layout. On every path the searches form a chain from the start. On success the best layout and energy are the last search's: the lowest current energy visited, held by a layout that was current. An error is exactly what the next iteration throws above temperature 1, or what the final evaluation throws once the loop is over, and then nothing is pushed. |
| Annealing.Algorithm.ComputeRoom | app/algorithm.js:28-64 | On success exactly two snapshots are pushed: the first generated layout, then the best. The first layout, the rival and the first energy are what `Start` gives. The iterations form a chain from the first layout. The best layout and energy are those the chain ends with: the lowest current energy visited, held by a layout that was current. Both layouts keep the start layout's furniture, and the final evaluation of the best layout does not throw. If `Start` fails, the run fails with its error, and the stack and the temperature are unchanged. Otherwise the stack holds the one extra first layout, and the error is the one the loop or the final evaluation throws, as in `Conclude`. An empty layout or a zero denominator between distinct items fails the run, and a sound layout makes it succeed. On every other path the recorded temperatures fall strictly. |
| Annealing.Algorithm.Send | app/algorithm.js:66-72 | Pops the newest snapshot for the callback, or does nothing on an empty stack, as `Tick`. |

## Left out

- Floating point: numbers are exact reals, so rounding, `NaN` and `Infinity` are not modelled. The `isNaN(dem)` half of the zone guard cannot hold and reduces to `dem == 0`. For the same reason `GenerateState`, `Iterate`, `Anneal`, `Begin`, `Conclude` and `ComputeRoom` require `initalTemp != 0`. With `initalTemp = 0` the source's spread `temp/initalTemp` is `NaN` or `Infinity`, so no jitter move passes its room test, and nothing throws.
- `Math.random` and the polar Box-Muller sampler of `create_gaussian_func`: the uniform draws and the standard normal pairs are inputs. A pair is the `y1`, `y2` of one polar step, used for an item's x and then y. Its rejection loop and logarithm are not modelled.
- `setTimeout`: the one-second rescheduling of `send` and the timer started by `computeRoom` are not modelled. `Send` is one tick and `Drain` a sequence of ticks.
- The interface callback is not called: `Send` returns the snapshot it would receive.
- Playback.RunPlaysBestFirst: it is stated over the two-snapshot stack `[initial, best]`. Its link to `computeRoom` is by inspection. From a freshly constructed `Algorithm` the stack is empty, and `ComputeRoom` ensures it becomes `[] + [initial] + [best]`; no lemma composes the two.
- `console.log` output is not modelled. The evaluation inside the log at line 62 can throw, so it is kept as a check before the final push. The always-zero `iterations` counter `i` is dropped.
- JSON cloning: snapshots are values, so every clone is a copy. JSON's lossy handling of non-finite numbers is not modelled.
- `updatePosition` and `getCenterDistance` (the furniture module) are not part of this model. They are function parameters. `updatePosition` is assumed to recompute only `d` and `thetaWall`.
- `Math.sqrt` and `Math.exp` are parameters. Their exact values are not modelled, only the properties in `IsSqrt` and `IsExp`.
- Annealing.Algorithm.ComputeRoom: requires `coolRate < 1` whenever `temp > 1`. Otherwise the source loops forever unless an iteration throws, which happens only when positions or zone offsets differ in dimension. A terminating method cannot express a loop that runs forever.
- Costs.TermAtMostOne: the per-term upper bound of 1 holds only for positive denominators, because the source lets negative ones through (see `NegativeDenominatorExceedsOne`).
- Costs.CostBounds: the upper bound by the number of terms needs positive denominators, for the same reason.
- Evaluation.EnergyUpperBound: needs positive denominators, for the same reason.
- Perturbation.UniformLayoutStaysInside: room bounds are preserved only when all footprints are equal, because a swap between unequal items can leave the room (`SwapCanLeaveRoom`).
