# CCDr convergence controller in Dafny

This project models the iteration-control core of the CCDr coordinate-descent
optimizer, the C++ class `CCDrAlgorithm` in `src/CCDrAlgorithm.h`. CCDr
estimates the sparse coefficient matrix of a directed graphical model. The
controller decides when to stop.

- A driving loop sweeps over parameter "blocks" (node pairs). After each
  single-parameter update it reports the raw change (`updateError`).
- After each sweep it reports whether the active set changed
  (`activeSetChanged`) and whether the set stayed under the edge budget
  `round(alpha * p)` (`belowThreshold`). It also counts the sweep (`addSweep`).
- The controller answers two questions. `keepGoing` asks whether to run
  another full sweep: both stop flags must be set and the sweep count must
  not exceed `maxIters`. `moar(iters)` asks whether to make one more pass over
  the fixed active set: the chosen error norm must be strictly above `eps` and
  `iters` must not exceed `maxIters`.

Files:

- `numerics.dfy` (module `Numerics`) holds the C++ widths. `unsigned int` is
  `u32` and `int` is `i32`. It also holds the conversions between them and the
  idealised `fabs` and `round`, and the edge budget `round(alpha * p)`.
- `error_accumulator.dfy` (module `ErrorAccumulator`) is a value-level model of
  the two accumulators: `Report` for `updateError` and `Zero` for
  `resetError`. It has reference definitions of the L1 and L-infinity norms of
  a sequence of changes. Its lemmas prove the closed form, the invariant
  `0 <= LinfError <= L1Error` and independence from report order.
- `block_list.dfy` (module `BlockList`) holds the block schedule as a
  sequence of coordinate pairs, and a shuffle that is proved to be a
  permutation.
- `ccdr_algorithm.dfy` (module `CCDr`) holds the class `CCDrAlgorithm`. Its
  fields are the source's own: `stopFlags` (a 2-element `array<int>`),
  `numSweeps`, `L1Error`, `LinfError` and `blocks`. The configuration is
  `const`. Each mutator states its whole new state. `UpdateError` and
  `ResetError` state it through the value-level model (`Report` and `Zero`).
  The flag setters, `ResetFlags` and `AddSweep` state their fields directly.
  `keepGoing` keeps the source's product loop over the flags, and
  `resetFlags` keeps the fill loop.
- `scenarios.dfy` (module `Scenarios`) holds client methods. They replay the
  documented call sequences and assert, from the contracts alone, what the
  controller must decide. One example: with `alpha = 0.3` and 10 nodes the
  edge budget is 3. A single flag set after `resetFlags` does not let a sweep
  continue. A sweep count equal to `maxIters` continues, and one more stops.

Choices in the model:

- The code is followed where its header comment differs. The comment at
  `src/CCDrAlgorithm.h:55` says the updates converge when the maximum absolute
  error is `< eps`. The code continues while the selected norm is `> eps`, so
  an error equal to `eps` stops (`Moar`). The norm is L1 or L-infinity, as
  chosen at construction.
- Stop flags are the source's `int`s. `Valid()` proves each flag is always 0
  or 1 and that there are exactly two of them.
- `moar(int iters)` compares a signed `int` with the `unsigned int` field
  `maxIters`, so C++ converts `iters` to unsigned. `Moar` models that. For
  `iters >= 0` the result is the plain comparison. A negative `iters` counts
  as `iters + 2^32`.
- `numSweeps++` wraps modulo `2^32` (`AddSweep`). If `maxIters` is
  `2^32 - 1`, the sweep cap can never stop `keepGoing`.
- `round` is C's rounding, halves away from zero, on exact reals. A product
  `alpha * p` in (-0.5, 0) therefore gives an edge budget of 0.
- `edgeThreshold()` returns the `unsigned int` field `maxEdges` as an `int`
  (`AsSigned`). When `0 <= alpha <= 1` and `p < 2^31`, it equals
  `round(alpha * p)` and lies between 0 and `p`.
- `errtype` is a two-constructor datatype `ErrType`. The source's fallback
  branch that yields `-1` for an unknown norm can therefore never run. It is
  dead code here and is not modelled.
- `NumBlocks`, `GetBlock` and `UpdateSigmas` are accessors. `GetBlock`
  requires `k < NumBlocks()`. `CCDrAlgorithm::getBlock` passes `k` on without
  a check, and `BlockList::getBlock` is not part of this model.
  The configuration switch for updating sigmas is the `const` field
  `updateSigmasFlag`.

## Model

| member | source | states |
|---|---|---|
| `Numerics.AsUnsigned` | src/CCDrAlgorithm.h:207-236 | the `int` iteration count as compared with `unsigned int maxIters`: unchanged when non-negative, `+2^32` when negative |
| `Numerics.AsSigned` | src/CCDrAlgorithm.h:239-241 | the `unsigned int` edge budget returned as `int`: unchanged below `2^31`, negative above |
| `Numerics.SignedUnsignedRoundTrip` | src/CCDrAlgorithm.h:236-241 | the two integer conversions are inverse to each other |
| `Numerics.Abs` | src/CCDrAlgorithm.h:281 | `fabs`: non-negative, equal to `x` or `-x`, at least both |
| `Numerics.Max` | src/CCDrAlgorithm.h:287-289 | the larger of two values: bounds both and is one of them |
| `Numerics.Round` | src/CCDrAlgorithm.h:132 | `round`: the integer within one half of the argument, halves rounded away from zero, non-negative for non-negative arguments |
| `Numerics.EdgeBudget` | src/CCDrAlgorithm.h:132 | `round(alpha * p)` is within one half of `alpha * p`, and between 0 and `p` when `alpha` is in [0, 1] |
| `Numerics.RoundedFractionWithin` | src/CCDrAlgorithm.h:132 | for `alpha` in [0, 1] the edge budget `round(alpha * p)` is between 0 and `p` |
| `ErrorAccumulator.Zero` | src/CCDrAlgorithm.h:292-295 | both accumulators are 0 after construction and after a reset |
| `ErrorAccumulator.Report` | src/CCDrAlgorithm.h:280-290 | one update adds `abs(e)` to the L1 sum, makes the L-infinity value `max(old, abs(e))`, and keeps `0 <= linf <= l1` |
| `ErrorAccumulator.MaxAbsBounds` | src/CCDrAlgorithm.h:284-289 | the largest absolute change bounds every change and is at most their sum |
| `ErrorAccumulator.ReportAllClosedForm` | src/CCDrAlgorithm.h:280-290 | after any sequence of updates, L1 grew by the sum of absolute changes and L-infinity is the max of the old value and every absolute change |
| `ErrorAccumulator.ReportAllConsistent` | src/CCDrAlgorithm.h:280-290 | `0 <= LinfError <= L1Error` survives any sequence of updates |
| `ErrorAccumulator.ReportTwice` | src/CCDrAlgorithm.h:280-290 | two updates give `l1 + abs(x) + abs(y)` and `max(linf, abs(x), abs(y))`, in either order |
| `ErrorAccumulator.SumAbsPermutation` | src/CCDrAlgorithm.h:284 | the L1 sum of a permutation of the changes is the same |
| `ErrorAccumulator.MaxAbsPermutation` | src/CCDrAlgorithm.h:287-289 | the largest absolute change of a permutation of the changes is the same |
| `ErrorAccumulator.ReportAllOrderIndependent` | src/CCDrAlgorithm.h:280-290 | the final accumulators do not depend on the order of the reported changes |
| `BlockList.Swap` | src/CCDrAlgorithm.h:145 | one exchange of two blocks: the two positions trade places, the rest and the multiset stay |
| `BlockList.Shuffle` | src/CCDrAlgorithm.h:145 | the reordered schedule has the same length and the same multiset of blocks, for any random draws |
| `CCDr.CCDrAlgorithm.constructor` | src/CCDrAlgorithm.h:121-141 | configuration stored as given, edge budget `round(a * p)`, zero sweeps, zero errors, both flags 0, so no sweep yet |
| `CCDr.CCDrAlgorithm.SetOrder` | src/CCDrAlgorithm.h:143-149 | blocks unchanged without randomization; otherwise a permutation, with the block count kept; the object invariant holds throughout |
| `CCDr.CCDrAlgorithm.NumBlocks` | src/CCDrAlgorithm.h:164-166 | the number of blocks in the schedule, counted with repetitions, so `SetOrder` keeps it |
| `CCDr.CCDrAlgorithm.GetBlock` | src/CCDrAlgorithm.h:168-170 | for an index below `NumBlocks()`, the k-th block of the current order, which is one of the blocks the schedule holds |
| `CCDr.CCDrAlgorithm.KeepGoing` | src/CCDrAlgorithm.h:175-202 | true exactly when both flags are 1 and `numSweeps <= maxIters` |
| `CCDr.CCDrAlgorithm.Moar` | src/CCDrAlgorithm.h:207-237 | true exactly when the selected error is strictly above `eps` and the iteration count does not exceed `maxIters`; an error equal to `eps` stops |
| `CCDr.CCDrAlgorithm.EdgeThreshold` | src/CCDrAlgorithm.h:239-241 | the edge budget, as `int` |
| `CCDr.CCDrAlgorithm.GetError` | src/CCDrAlgorithm.h:243-250 | the L1 or L-infinity accumulator as selected; under the invariant between 0 and the L1 sum |
| `CCDr.CCDrAlgorithm.GetStopFlag` | src/CCDrAlgorithm.h:252-254 | the value of flag `f`, which is always 0 or 1 |
| `CCDr.CCDrAlgorithm.ActiveSetChanged` | src/CCDrAlgorithm.h:257-259 | sets flag 0 and nothing else; sweeping continues only if flag 1 is also set |
| `CCDr.CCDrAlgorithm.BelowThreshold` | src/CCDrAlgorithm.h:262-264 | sets flag 1 and nothing else; sweeping continues only if flag 0 is also set |
| `CCDr.CCDrAlgorithm.ResetFlags` | src/CCDrAlgorithm.h:267-270 | both flags 0, so no further sweep whatever `numSweeps` is |
| `CCDr.CCDrAlgorithm.UpdateError` | src/CCDrAlgorithm.h:280-290 | the accumulators advance by one `Report` of the raw change; flags, sweeps and blocks untouched |
| `CCDr.CCDrAlgorithm.ResetError` | src/CCDrAlgorithm.h:292-295 | both accumulators 0 whatever they held; afterwards `Moar` is false for every count when `eps >= 0` |
| `CCDr.CCDrAlgorithm.UpdateSigmas` | src/CCDrAlgorithm.h:301-303 | the "update sigmas" switch, which the constructor sets to its argument and nothing changes afterwards |
| `CCDr.CCDrAlgorithm.AddSweep` | src/CCDrAlgorithm.h:297-299 | the sweep count grows by exactly one (modulo `2^32`) and nothing else changes |
| `CCDr.ProductOfFlags` | src/CCDrAlgorithm.h:190-201 | over 0/1 flags the running product is 1 exactly when every flag is 1, else 0 |

## Left out

- `printOrder` and all debug logging (`OUTPUT`, `FILE_LOG` under `_DEBUG_ON_`) are left out. They are output only.
- `BlockList.h` is not part of this model. The schedule is a sequence of coordinate pairs. `Shuffle` takes its random draws as a parameter and promises only a permutation, not any distribution or RNG state.
- `CCDr.CCDrAlgorithm.NumBlocks` returns the count as an unbounded natural number. The narrowing of `size()` to `unsigned int` is not modelled.
- Doubles are idealised as `real`. `fabs` is exact absolute value, and `round` rounds exact reals (halves away from zero). IEEE rounding of the product and of the running sum is not modelled.
- `CCDr.CCDrAlgorithm.constructor` requires the rounded budget `round(a * p)` to lie in [0, 2^32). Outside that range, storing it in the `unsigned int` field `maxEdges` is undefined behaviour in C++. That starts at `a * p <= -0.5` or at a budget of `2^32`. An `alpha` in the intended range (0, 1] reaches neither.
- `maxIters` and `eps` are public, mutable fields in C++. Here they are `const`, because no member of the class writes them after construction. Writes from outside code are not modelled.
- The driving loop is not part of this model. That covers the single-parameter update formula, the sparse coefficient matrix and the lambda grid.
- `src/RcppExports.cpp` is generated R/C++ marshalling with no controller logic, so it is left out.
