# Statistics counters and system state of a discrete-event queue simulator

This project models two parts of a single-server, finite-buffer queue simulator.

The first is its statistics counters (`counter.py`). Each counter is an object. `count`
appends to its list `values` and `reset` clears it. The estimators are then computed over
the list:

- `TimeIndependentCounter`: mean, sample variance (Bessel-corrected) and a
  confidence-interval membership test.
- `TimeDependentCounter`: records (duration, value) pairs over an observation window.
  It gives the duration-weighted mean and variance.
- `TimeIndependentCrosscorrelationCounter`: two embedded counters X and Y and the list
  of products x·y. Its covariance uses divisor n.
- `TimeIndependentAutocorrelationCounter`: one embedded counter X. It computes lagged
  autocovariances over the series rotated as `numpy.roll` does, with the rotation taken
  modulo `max_lag + 1`.

The second is the queue/server state machine (`systemstate.py`). It has a busy flag, a
bounded FIFO buffer of packets and the packet at the server. Four transitions change it:
admission to the server, admission to the queue, completion of a service and start of a
service.

Files:

- `stats.dfy` (module `Stats`): exact-arithmetic definitions of the estimators, plus the
  facts about them. It defines sums, means, sample variance, covariance, `numpy.roll`,
  lagged products and autocovariance, and the time-weighted sums. The facts are:
  centring identities, non-negativity, zero variance iff constant, symmetry, the lag-0
  autocovariance, the mean bounds and worked examples.
- `counters.dfy` (module `Counters`): the four counter classes.
  - `values`, `firstTimestamp`, `lastTimestamp` and `maxLag` are fields that the methods
    reassign.
  - The embedded counters are `const` object fields.
  - The accumulating loops of the time-dependent counter and of `get_auto_cov` are
    `for` loops with invariants.
  - Each query is proved against the matching `Stats` function.
- `system_state.dfy` (module `SystemStates`): class `SystemState`.
  - Fields: `serverBusy`, `buffer` (a sequence standing for the FiniteQueue), the served
    packet, the capacity S, and a counter of packet identities.
  - A ghost log records the packets handed to the counter collection.
  - `Valid()` is the invariant every transition keeps:
    - the buffer is within capacity;
    - its packets are fresh, distinct and unstarted;
    - the served packet is not in the buffer;
    - the server is busy exactly while its packet is started and not completed.

Floating-point values are modelled as `real`. The simulation clock is a parameter `now`.
The Student-t half-width of the confidence interval is a function parameter `halfWidth`.

## Model

| member | source | states |
|---|---|---|
| Counters.TimeIndependentCounter.constructor | DES_part5_03679401/counter.py:16-23 | a new counter has the given name ("default" when none is given) and no values |
| Counters.TimeIndependentCounter.Count | DES_part5_03679401/counter.py:83-89 | exactly x is appended at the end of values; the name is unchanged |
| Counters.TimeIndependentCounter.Reset | DES_part5_03679401/counter.py:32-36 | values becomes empty; the name is unchanged |
| Counters.TimeIndependentCounter.GetMean | DES_part5_03679401/counter.py:91-96 | the mean times n is the sum of the values (n ≥ 1) |
| Counters.TimeIndependentCounter.GetVar | DES_part5_03679401/counter.py:98-104 | the ddof=1 variance is non-negative, and (n − 1) times it is the sum of squared deviations from the mean (n ≥ 2) |
| Counters.TimeIndependentCounter.IsInConfidenceInterval | DES_part5_03679401/counter.py:124-135 | true iff there are at least two values and \|x − mean\| < h, with strict bounds; so x = mean is inside whenever h > 0 |
| Counters.TimeDependentCounter.constructor | DES_part5_03679401/counter.py:146-155 | empty records, both timestamps 0, the given name ("default" when none is given), and the sum of durations equals the window |
| Counters.TimeDependentCounter.Count | DES_part5_03679401/counter.py:157-164 | appends (now − last, value) and moves last to now; the durations still sum to last − first; with now ≥ last, non-negative durations stay non-negative |
| Counters.TimeDependentCounter.Reset | DES_part5_03679401/counter.py:193-199 | no records and a window [now, now], so the durations-sum invariant holds again |
| Counters.TimeDependentCounter.GetMean | DES_part5_03679401/counter.py:166-174 | the loop's sum is Σ d·v, and the result is Σ d·v / (last − first) |
| Counters.TimeDependentCounter.GetVar | DES_part5_03679401/counter.py:176-184 | the result is Σ d·v² / (last − first) minus the square of the time-weighted mean |
| Counters.TimeIndependentCrosscorrelationCounter.constructor | DES_part5_03679401/counter.py:208-216 | fresh, distinct, empty counters X and Y, an empty product list, the given name ("default" when none is given), and the alignment invariant |
| Counters.TimeIndependentCrosscorrelationCounter.Count | DES_part5_03679401/counter.py:228-235 | x goes to X, y goes to Y and x·y goes to values; values[i] = X[i]·Y[i] at every i, the lengths stay equal, and the names of the counter, X and Y are kept |
| Counters.TimeIndependentCrosscorrelationCounter.Reset | DES_part5_03679401/counter.py:218-226 | all three lists become empty, the alignment still holds, and the names of the counter, X and Y are kept |
| Counters.TimeIndependentCrosscorrelationCounter.GetCov | DES_part5_03679401/counter.py:237-243 | the raw-sum expression (Σ x·y − n·mean X·mean Y)/n equals the centred biased covariance Cov(X, Y) |
| Counters.TimeIndependentAutocorrelationCounter.constructor | DES_part5_03679401/counter.py:266-275 | a fresh empty X named "X", no products, and the given name and maximum lag ("default" and 10 when none are given) |
| Counters.TimeIndependentAutocorrelationCounter.Count | DES_part5_03679401/counter.py:286-291 | only X changes, and x is appended to it |
| Counters.TimeIndependentAutocorrelationCounter.Reset | DES_part5_03679401/counter.py:277-284 | the products and X become empty; the maximum lag and the names of the counter and X are kept |
| Counters.TimeIndependentAutocorrelationCounter.SetMaxLag | DES_part5_03679401/counter.py:315-320 | only the maximum lag changes |
| Counters.TimeIndependentAutocorrelationCounter.GetAutoCov | DES_part5_03679401/counter.py:293-305 | values is overwritten with the n − lag products Roll(X, lag mod (maxLag+1))[i]·X[i]; the result is their raw moment centred with mean X; X, the maximum lag and the name are unchanged |
| Counters.TimeIndependentAutocorrelationCounter.GetAutoCor | DES_part5_03679401/counter.py:307-313 | the autocovariance divided by the sample variance of X, with the same side effect on values |
| Counters.LaggedAutoCov | DES_part5_03679401/counter.py:299-305 | the products list and the centred raw moment for a rotation k equal LagProducts and AutoCov |
| Counters.LaggedProducts | DES_part5_03679401/counter.py:299-303 | the loop over i in [lag, n) builds exactly LagProducts(xs, k, lag), in order |
| Counters.TimeDependentMeanBounds | DES_part5_03679401/counter.py:166-174 | with non-negative durations and a non-empty window of a valid counter, Σ d·v over the window length (what GetMean returns) lies between any bounds of the counted values |
| Counters.TimeDependentExample | DES_part5_03679401/counter.py:157-174 | reset at 0, count 5 at time 1 and 9 at time 3: the mean is 23/3 |
| Counters.ConstantAutoCovExample | DES_part5_03679401/counter.py:293-305 | the series 5, 5, 5, 5 with maximum lag 2 has autocovariance 0 at lags 0, 1 and 2 |
| Stats.Products | DES_part5_03679401/counter.py:235 | reference definition: element i of the product list is a[i]·b[i]; what the counter keeps is stated by ProductsAppend |
| Stats.ProductsAppend | DES_part5_03679401/counter.py:233-235 | appending x and y extends the product list by exactly x·y |
| Stats.MeanBounds | DES_part5_03679401/counter.py:96 | the mean lies between any lower and upper bound of the values |
| Stats.MeanAllEqual | DES_part5_03679401/counter.py:96 | the mean of a series that is c everywhere is c |
| Stats.SampleVarNonNeg | DES_part5_03679401/counter.py:104 | the sample variance is never negative |
| Stats.SampleVarFormula | DES_part5_03679401/counter.py:104 | the sample variance equals (Σx² − n·mean²)/(n − 1) |
| Stats.SampleVarZeroIffConstant | DES_part5_03679401/counter.py:104 | the sample variance is 0 if and only if all values are equal |
| Stats.MeanVarExample | DES_part5_03679401/counter.py:96-104 | the samples 2, 4, 6 have mean 4 and sample variance 4 |
| Stats.CrossDevAtMeans | DES_part5_03679401/counter.py:243 | Σ(x − mean X)(y − mean Y) = Σ x·y − n·mean X·mean Y |
| Stats.CovFromProducts | DES_part5_03679401/counter.py:243 | get_cov's raw-sum formula equals the centred covariance with divisor n |
| Stats.CovSymmetric | DES_part5_03679401/counter.py:243 | Cov(X, Y) = Cov(Y, X) |
| Stats.CovExample | DES_part5_03679401/counter.py:243 | the pairs (1, 2) and (3, 4) have covariance 1 |
| Stats.Wrap | DES_part5_03679401/counter.py:299 | the reduced index lies in [0, n) |
| Stats.WrapIsMod | DES_part5_03679401/counter.py:299 | the reduction equals x mod n, the floor modulo that numpy.roll and Python's % use |
| Stats.Roll | DES_part5_03679401/counter.py:299 | reference definition of numpy.roll: same length, element i is a[(i − k) mod n]; its properties are RollIndex, RollZero, RollShift and RollWrap |
| Stats.RollIndex | DES_part5_03679401/counter.py:299 | numpy.roll(a, k)[i] = a[(i − k) % n] |
| Stats.RollZero | DES_part5_03679401/counter.py:299 | rotating by 0 gives the series back |
| Stats.RollShift | DES_part5_03679401/counter.py:299 | at positions i ≥ k the rotation by k reads a[i − k] |
| Stats.RollWrap | DES_part5_03679401/counter.py:299 | at positions i < k < n the rotation reads a[i − k + n], the wrapped tail |
| Stats.LagProducts | DES_part5_03679401/counter.py:301-303 | reference definition: n − lag products, element j being Roll(xs, k)[j + lag]·xs[j + lag]; the pairing it yields is LagProductsWithinMaxLag |
| Stats.LagProductsPrefix | DES_part5_03679401/counter.py:302-303 | each loop step extends the prefix by the next product rolled[i]·xs[i] |
| Stats.LagProductsUnrotated | DES_part5_03679401/counter.py:299-303 | with rotation equal to the lag, the products are exactly X[i − lag]·X[i] for i in [lag, n) |
| Stats.LagProductsWithinMaxLag | DES_part5_03679401/counter.py:299-303 | for lag ≤ maxLag the rotation lag mod (maxLag + 1) gives exactly the pairs X[i − lag]·X[i] |
| Stats.LagProductsZero | DES_part5_03679401/counter.py:299-303 | at lag 0 and rotation 0 the products are the squares of X |
| Stats.AutoCovOfProducts | DES_part5_03679401/counter.py:304-305 | a list equal to the lagged products is non-empty for lag < n, and its centred raw moment is AutoCov |
| Stats.RawCovIsScaledVariance | DES_part5_03679401/counter.py:305 | the raw moment of the squares, centred at the mean, is (n − 1)/n times the sample variance |
| Stats.AutoCovLagZero | DES_part5_03679401/counter.py:293-305 | get_auto_cov(0) = (n − 1)/n · get_var() |
| Stats.AutoCorLagZero | DES_part5_03679401/counter.py:307-313 | when the variance is not zero, get_auto_cor(0) = (n − 1)/n |
| Stats.AutoCorLagZeroNonConstant | DES_part5_03679401/counter.py:307-313 | every non-constant series has non-zero variance, and its lag-0 autocorrelation is (n − 1)/n |
| Stats.AutoCovAllEqual | DES_part5_03679401/counter.py:293-305 | a series equal to c everywhere has autocovariance 0 for every rotation and lag |
| Stats.AutoCovConstant | DES_part5_03679401/counter.py:293-305 | a constant series has autocovariance 0 for every rotation and lag |
| Stats.SumDurationsAppend | DES_part5_03679401/counter.py:163 | a new record adds its duration to the total duration |
| Stats.WeightedSumAppend | DES_part5_03679401/counter.py:172-173 | a new record adds d·v to the weighted sum |
| Stats.WeightedSqSumAppend | DES_part5_03679401/counter.py:182-183 | a new record adds d·v² to the weighted square sum |
| Stats.TimeMeanBounds | DES_part5_03679401/counter.py:171-174 | with non-negative durations and a positive total (the window, by Valid), the time-weighted mean lies between the smallest and largest counted values |
| Stats.TimeMeanExample | DES_part5_03679401/counter.py:171-174 | the records (1, 5) and (2, 9) give a total duration of 3 and a weighted mean of 23/3 |
| SystemStates.SystemState.constructor | DES_part2_03679401/systemstate.py:21-36 | idle server, empty buffer, a placeholder packet that was never started, an empty report log, and Valid |
| SystemStates.SystemState.NewPacket | DES_part2_03679401/systemstate.py:51 | a packet with a never-used identity, unstarted and uncompleted; nothing else changes |
| SystemStates.SystemState.AddPacketToServer | DES_part2_03679401/systemstate.py:51-58 | succeeds iff the server was idle; then the fresh packet is served, started and the server busy; otherwise the server state is unchanged; the buffer never changes |
| SystemStates.SystemState.AddPacketToQueue | DES_part2_03679401/systemstate.py:73-74 | returns the buffer's answer, true iff it was below capacity; the buffer grows by the fresh packet at its tail iff true; the server is untouched |
| SystemStates.SystemState.Add | DES_part2_03679401/systemstate.py:67-71 | the FiniteQueue's add accepts at the tail iff below capacity S |
| SystemStates.SystemState.Remove | DES_part2_03679401/systemstate.py:103 | FiniteQueue's remove returns the head and drops it, or nothing on an empty buffer |
| SystemStates.SystemState.CompleteService | DES_part2_03679401/systemstate.py:82-86 | the server is idle, the served packet is completed, exactly that packet is appended to the report log, and the buffer is unchanged |
| SystemStates.SystemState.StartService | DES_part2_03679401/systemstate.py:102-109 | empty buffer: false and nothing changes; otherwise true, the head leaves the buffer (FIFO), becomes the served packet and is started, and the server is busy |
| SystemStates.SystemState.GetQueueLength | DES_part2_03679401/systemstate.py:111-115 | the buffer length, which is at most the capacity in a valid state |
| SystemStates.TwoAdmissions | DES_part2_03679401/systemstate.py:51-58 | a second admission straight after a first one is always refused (the server is busy after the first, whether it succeeded or not); after a success in the first, the packet it admitted is still served |
| SystemStates.RefusedThenServed | DES_part2_03679401/systemstate.py:73-107 | an offer to a full buffer is refused; the next start of service then takes the oldest waiting packet |

## Left out

- Printing: the `report` methods and `print` statements are output only.
- `report_confidence_interval` calls the Student-t quantile of scipy. The model takes
  its half-width as the function parameter `halfWidth` of `IsInConfidenceInterval`.
- The two default `alpha` values (0.05 at counter.py line 113, 0.95 at line 124) disagree
  about whether alpha is a significance or a confidence level. That convention lives
  inside `halfWidth` and is not modelled.
- `get_stddev`, `get_cor` and `TimeDependentCounter.get_stddev` take square roots, which
  are irrational. They are not modelled.
- `get_auto_cor` divides by `sqrt(var)·sqrt(var)`. The model divides by `var`, which that
  product equals for `var ≥ 0`.
- Floating point: `float(...)` conversions are the identity on `real`. Rounding and
  overflow are not modelled.
- NaN and division by zero become preconditions:
  - `GetMean` needs n ≥ 1, `GetVar` n ≥ 2;
  - the time-dependent queries need a non-empty window;
  - `GetAutoCov` needs lag < n;
  - `GetAutoCor` needs n ≥ 2 and a non-zero variance.
  `IsInConfidenceInterval` models the n < 2 case as false: the half-width there is NaN,
  and every comparison with it fails.
- Negative lags are not modelled; `lag` is a `nat`.
- Negative maximum lags are not modelled; `maxLag` is a `nat`. The source accepts any
  integer in the constructor and in `set_max_lag`. With `max_lag = -1`, `lag % 0` raises
  ZeroDivisionError; with `max_lag < -1` Python's `%` gives a shift of zero or below, and
  `numpy.roll` rotates the other way. Neither case is captured.
- The local `mean` computed at counter.py line 300 is never used, so it is not modelled.
- Counters.TimeIndependentAutocorrelationCounter.GetAutoCov: builds the product list in a
  local sequence (in `LaggedProducts`) and assigns it to `values` once the loop ends. The
  source appends to `self.values` step by step. Nothing observes the intermediate states.
  The pairing X[i − lag]·X[i] for lag ≤ maxLag is stated by `Stats.LagProductsWithinMaxLag`
  and not repeated in the method's ensures.
- Counters.TimeIndependentCounter.GetVar: its contract states non-negativity and the
  squared-deviation identity. "Zero exactly for a constant series" is the separate lemma
  `Stats.SampleVarZeroIffConstant`.
- Counters.TimeIndependentAutocorrelationCounter.GetAutoCor: its contract gives the
  general value as a ratio. The lag-0 value (n − 1)/n is stated by `Stats.AutoCorLagZero`
  and `Stats.AutoCorLagZeroNonConstant`.
- FiniteQueue and Packet are not part of this model beyond their contracts:
  - the queue is a sequence with capacity S; `add` accepts iff below capacity, `remove`
    returns the head;
  - a packet is an identity with `started` and `completed` flags. `start_service` and
    `complete_service` set those flags. Timestamps and the inter-arrival time argument are
    not modelled.
- `remove()` in this model returns a packet whenever the buffer is non-empty. So the
  `None` branch that `start_service` allows (it stores the result and returns true
  anyway) cannot arise here. The model keeps that branch as written.
- The counter collection's `count_packet` is a ghost log `reported` of the packets
  passed to it.
- The simulation object, the unused `random` import and the unused `last_arrival` field
  are not part of this model.
