# ZMK sensor-rotate behaviour: accumulator and dispatcher

This project models the shared logic of ZMK's rotary-encoder behaviours
(`behavior_sensor_rotate_common.c`) and proves properties of the model in Dafny.

- **Accumulator** (`zmk_behavior_sensor_rotate_common_accept_data`, modelled by
  `RotateData.AcceptData`). It takes one sensor sample, a Zephyr `sensor_value`
  `(val1, val2)` with `val2` in millionths of a degree. A sample with `val1 == 0`
  takes the legacy EC11 path: `val2` is stored directly as the slot's trigger count.
  Any other sample is added into the slot's stored remainder. The micro part is
  carried into `val1` once. The whole degrees are then divided by
  `360 / triggers_per_rotation`. The quotient becomes the trigger count and the C
  remainder is stored back.
- **Dispatcher** (`zmk_behavior_sensor_rotate_common_process`, modelled by
  `RotateData.Process`). Any mode other than trigger clears the slot's count and
  passes through (transparent). Trigger mode reads the count and picks the
  clockwise or counter-clockwise binding by its sign. With `override_params`, it
  replaces that binding's first parameter. It then appends `|count|` press/release
  pairs to the behaviour queue and reports opaque.

Layout:

- `c_arith.dfy` (module `CArith`): C's truncating `/` and `%` on `int` (`CDiv`,
  `CMod`), since Dafny's own operators are Euclidean. Also the 32-bit range.
- `sensor_rotate.dfy` (module `SensorRotate`): the data types, the pure
  specification of both entry points (`Accumulate`, `SelectBinding`, `Dispatch`),
  and lemmas about them. The per-device state is the class
  `RotateData`, whose two `array2` tables are indexed `[sensor_index, layer]` as
  in `struct behavior_sensor_rotate_data`. The behaviour queue is the class
  `BehaviorQueue`, reduced to the sequence of entries appended to it.
- `rotate_scenarios.dfy` (module `RotateScenarios`): concrete runs of both entry
  points on a fresh device, with the resulting counts, remainders and queue stated
  in their contracts.

Behaviour of the code worth knowing:

- A sample with `val1 == 0` always takes the legacy path. This includes `(0, 0)`
  and a small fraction such as `(0, 2)` arriving in the middle of a rotation.
  Such a sample overwrites the trigger count and leaves the remainder alone.
  So a zero sample is not a no-op: it sets the count to 0
  (`RotateScenarios.ZeroSampleClears`). And `(89, 999999)` followed by `(0, 2)`
  leaves a count of 2 taken from the second sample, with the remainder still at
  `(89, 999999)` (`RotateScenarios.LegacyAfterFraction`).
- Normalisation is one `if`, not a loop. It carries the whole truncated quotient
  of `val2` by a million, so that one step always brings `|val2|` under a million.
  It does not make the signs of `val1` and `val2` agree: `(5, -3)` stays as it is.
- A trigger-mode pass does not clear the count. Only a non-trigger pass does.
- The remainder is kept per `(sensor, layer)`. Leftover sub-trigger rotation is
  retained across triggers, not discarded.
- `triggers_per_rotation` is only used as a C divisor. The model accepts any
  non-zero value with `|tpr| <= 360`, for which `360 / tpr` is a non-zero divisor.
  It does not require `tpr` to divide 360: `TriggerDegreesFullTurn` states what a
  non-dividing value gives.

## Model

| member | source | states |
|---|---|---|
| CArith.Abs | app/src/behaviors/behavior_sensor_rotate_common.c:95-96 | the magnitude of a count is the count or its negation, and is never negative |
| CArith.CDiv | app/src/behaviors/behavior_sensor_rotate_common.c:56 | C's truncating quotient: its magnitude times the divisor's magnitude is the largest multiple of the divisor not above the dividend's magnitude; it is zero exactly when the dividend's magnitude is below the divisor's, otherwise its sign is the product of the operands' signs |
| CArith.CDivUnique | app/src/behaviors/behavior_sensor_rotate_common.c:56-57 | any split of a dividend into a multiple `t` of the divisor plus a part smaller than the divisor with the dividend's sign is exactly C's quotient and remainder |
| CArith.CMod | app/src/behaviors/behavior_sensor_rotate_common.c:57 | C's remainder: quotient times divisor plus remainder gives back the dividend; the remainder is smaller than the divisor in magnitude and has the dividend's sign or is zero |
| SensorRotate.TriggerDegrees | app/src/behaviors/behavior_sensor_rotate_common.c:53 | degrees per trigger, `360 / triggers_per_rotation` truncated; non-zero exactly for the accepted configurations and within 0..360 for positive ones |
| SensorRotate.TriggerDegreesFullTurn | app/src/behaviors/behavior_sensor_rotate_common.c:53 | for positive configurations, its triggers fit into a full turn and one more trigger's worth would not; when the configuration divides 360, a full turn is exactly its triggers |
| SensorRotate.AddParts | app/src/behaviors/behavior_sensor_rotate_common.c:43-44 | adding the sample part by part adds its value in millionths to the remainder's value |
| SensorRotate.Normalize | app/src/behaviors/behavior_sensor_rotate_common.c:47-51 | the single carry keeps the value in millionths and leaves the micro part below one million in magnitude with its old sign; a value already in range is unchanged |
| SensorRotate.Accumulate | app/src/behaviors/behavior_sensor_rotate_common.c:40-60 | general path: old remainder plus sample equals new remainder plus triggers times one trigger's degrees (in millionths); micro part below a million in magnitude and equal to the normalised one (the division leaves it alone), whole part below one trigger's degrees; the stored whole part, and the count times the degrees per trigger, keep the sign of the undivided whole degrees (for a positive configuration the count itself does too, see `AccumulateTriggerSign`); a trigger fires exactly when those reach one trigger's degrees |
| SensorRotate.AccumulateUnique | app/src/behaviors/behavior_sensor_rotate_common.c:40-60 | the contract of `Accumulate` determines its result: any remainder and count that conserve the rotation, keep the normalised micro part, and leave a whole part below one trigger with the sign of the undivided degrees are exactly the stored remainder and count |
| SensorRotate.CArithSign | app/src/behaviors/behavior_sensor_rotate_common.c:56-57 | the part of the whole degrees turned into triggers has the sign of the whole degrees, or is zero |
| SensorRotate.AccumulateTriggerSign | app/src/behaviors/behavior_sensor_rotate_common.c:53-57 | for a positive configuration, the trigger count and the stored whole part each have the sign of the undivided whole degrees, or are zero |
| SensorRotate.AccumulateStaysInt32 | app/src/behaviors/behavior_sensor_rotate_common.c:43-60 | when the C intermediates fit in 32 bits, so do the stored remainder and trigger count |
| SensorRotate.AccumulateAllConserves | app/src/behaviors/behavior_sensor_rotate_common.c:40-60 | over any run of samples whose `val1` is non-zero (the general path), the fired triggers plus the final remainder make up the initial remainder plus all samples; nothing is lost to the carry or the division |
| SensorRotate.SelectBinding | app/src/behaviors/behavior_sensor_rotate_common.c:89-103 | a positive count fires the clockwise binding and a negative count the counter-clockwise one; with `override_params` its first parameter is the caller's first (clockwise) or second (counter-clockwise) parameter; otherwise it is the configured binding unchanged |
| SensorRotate.DispatchedEvent | app/src/behaviors/behavior_sensor_rotate_common.c:107-110 | the enqueued event keeps position, layer and timestamp; on a split build its source is local |
| SensorRotate.PressReleasePairs | app/src/behaviors/behavior_sensor_rotate_common.c:112-115 | `n` loop iterations enqueue `2 * n` entries |
| SensorRotate.PressReleasePairsAt | app/src/behaviors/behavior_sensor_rotate_common.c:112-115 | entry `k` of the taps is a press held `tap_ms` at even `k` and a release held 0 at odd `k`, always with the same event and binding |
| SensorRotate.PressReleasePairsAppend | app/src/behaviors/behavior_sensor_rotate_common.c:112-115 | `m + n` iterations enqueue the entries of `m` iterations followed by those of `n` |
| SensorRotate.PressReleasePairsBalanced | app/src/behaviors/behavior_sensor_rotate_common.c:112-115 | `n` iterations enqueue exactly `n` presses and exactly `n` releases |
| SensorRotate.Dispatch | app/src/behaviors/behavior_sensor_rotate_common.c:87-117 | a stored count `t` yields `2 * abs(t)` entries, none for 0, alternating press (held `tap_ms`) and release (held 0), all with the selected binding and the dispatched event, with `abs(t)` presses and `abs(t)` releases |
| SensorRotate.BehaviorQueue.Add | app/src/behaviors/behavior_sensor_rotate_common.c:113-114 | one queue call appends exactly its event, binding, press flag and hold time at the end of the queue |
| SensorRotate.RotateData.AcceptData | app/src/behaviors/behavior_sensor_rotate_common.c:15-71 | returns 0. A legacy sample (`val1 == 0`) stores `val2` as the count and leaves the remainder table unchanged. Any other sample stores `Accumulate`'s remainder and count in the addressed slot. Every other entry of both tables is unchanged, and all entries stay 32-bit |
| SensorRotate.RotateData.Process | app/src/behaviors/behavior_sensor_rotate_common.c:73-118 | a non-trigger pass zeroes the slot's count, leaves all other entries, appends nothing and is transparent; a trigger pass leaves the count table unchanged and appends exactly `Dispatch` of the stored count; it is transparent when that count is 0 (and then appends nothing) and opaque otherwise |
| RotateScenarios.QuarterTurnBackAccumulates | app/src/behaviors/behavior_sensor_rotate_common.c:43-57 | with four triggers per rotation, -90 degrees from rest gives one counter-clockwise trigger and a zero remainder |
| RotateScenarios.AlmostAQuarterAccumulates | app/src/behaviors/behavior_sensor_rotate_common.c:43-57 | 89.999999 degrees from rest fires nothing and keeps the whole sample as remainder |
| RotateScenarios.QuarterTurnBack | app/src/behaviors/behavior_sensor_rotate_common.c:15-118 | accumulating -90 degrees, then a trigger pass, stores -1 and enqueues one press and one release of the counter-clockwise binding |
| RotateScenarios.ThreeTaps | app/src/behaviors/behavior_sensor_rotate_common.c:87-117 | a count of 3 with `override_params` on a split build enqueues six entries alternating press and release, all local and with the caller's first parameter |
| RotateScenarios.LegacyAfterFraction | app/src/behaviors/behavior_sensor_rotate_common.c:35-62 | `(89, 999999)` then `(0, 2)` stores a count of 2 from the legacy path and leaves the remainder at `(89, 999999)` |
| RotateScenarios.ZeroSampleClears | app/src/behaviors/behavior_sensor_rotate_common.c:35-85 | a `(0, 0)` sample overwrites a pending count with 0; a non-trigger pass is transparent and enqueues nothing |

## Left out

- Logging (`LOG_DBG`, `LOG_MODULE_DECLARE`): it has no effect on behaviour.
- The device lookup `zmk_behavior_get_binding` and the `dev->data` / `dev->config` plumbing. Instead, the `RotateData` object and the `RotateConfig` record are passed in directly.
- `ZMK_SENSOR_POSITION_FROM_VIRTUAL_KEY_POSITION`: the virtual-key-position header is not part of this model. The sensor index is a parameter, and a precondition keeps it inside the tables.
- The Zephyr sensor API: only the first channel's `value` is used, so the model takes that value and ignores `channel_data_size`.
- The behaviour queue's internals and timing: only the sequence of appended `(event, binding, press, hold)` entries is modelled.
- `CONFIG_ZMK_SPLIT` is a boolean parameter, `split`, of `Process`.
- Concurrency: the source has no locking, and the model adds none.
- SensorRotate.RotateData.AcceptData: does not model 32-bit wrap-around. It requires the sample and every C intermediate of the general path to fit in a signed 32-bit `int` (`AccumulateFits`).
- SensorRotate.RotateData.Process: does not model the overflow of negating `INT_MIN` at line 96. In trigger mode it requires the stored count not to be `INT32_MIN`.
- SensorRotate.AccumulateTriggerSign: for a negative `triggers_per_rotation`, the trigger count's own sign is not stated (it is the opposite one). `Accumulate` states the sign of the count times the degrees per trigger for every accepted configuration.
