/**
 * The shared logic behind ZMK's rotary-encoder ("sensor rotate") behaviours.
 *
 * `RotateData.AcceptData` is the accumulator: it folds one rotation sample into
 * the remainder kept for a (sensor, layer) slot and stores how many whole
 * triggers the slot now holds. `RotateData.Process` is the dispatcher: it
 * reads that count and appends press/release pairs of the clockwise or
 * counter-clockwise binding to the behaviour queue.
 *
 * Sensor values are Zephyr's two-part fixed-point numbers: `val1` whole
 * degrees and `val2` millionths of a degree.
 */
module SensorRotate {
  import opened CArith

  /** Millionths in one unit of `val1`. */
  const MICRO: int := 1_000_000

  /** Zephyr's `struct sensor_value`. */
  datatype SensorValue = SensorValue(val1: int, val2: int)

  /** A sensor value as one scaled integer, in millionths of a degree. */
  function Micros(v: SensorValue): int {
    v.val1 * MICRO + v.val2
  }

  predicate IsInt32Value(v: SensorValue) {
    IsInt32(v.val1) && IsInt32(v.val2)
  }

  /** `struct zmk_behavior_binding`: a behaviour name and its two parameters. */
  datatype Binding = Binding(behaviorDev: string, param1: int, param2: int)

  /** Where a position event came from: this half, or a split peripheral. */
  datatype EventSource = Local | Peripheral(index: nat)

  /** `struct zmk_behavior_binding_event`. */
  datatype Event = Event(position: nat, layer: nat, timestamp: int, source: EventSource)

  /** One call of `zmk_behavior_queue_add(event, binding, press, wait)`. */
  datatype QueueEntry = QueueEntry(event: Event, binding: Binding, press: bool, holdMs: int)

  /** The `triggers_per_rotation` part of `struct zmk_sensor_config`. */
  datatype SensorConfig = SensorConfig(triggersPerRotation: int)

  /** `struct behavior_sensor_rotate_config`. */
  datatype RotateConfig = RotateConfig(
    cwBinding: Binding,
    ccwBinding: Binding,
    tapMs: int,
    overrideParams: bool)

  /** `enum behavior_sensor_binding_process_mode`. */
  datatype ProcessMode = Trigger | Discard

  /** `ZMK_BEHAVIOR_OPAQUE` and `ZMK_BEHAVIOR_TRANSPARENT`. */
  datatype Outcome = Opaque | Transparent

  // ---------------------------------------------------------------------
  // The accumulator's arithmetic
  // ---------------------------------------------------------------------

  /** Triggers-per-rotation values for which `360 / triggers_per_rotation` is a usable divisor. */
  predicate ValidTriggersPerRotation(tpr: int) {
    tpr != 0 && -360 <= tpr <= 360
  }

  /** Degrees of rotation per trigger: `360 / triggers_per_rotation`, truncated as in C. */
  function TriggerDegrees(tpr: int): (d: int)
    requires tpr != 0
    ensures d != 0 <==> ValidTriggersPerRotation(tpr)
    ensures 0 < tpr ==> 0 <= d <= 360
  {
    CDiv(360, tpr)
  }

  /**
   * A positive configuration gets the most degrees per trigger that still fit
   * its triggers into a turn; one that divides 360 maps a full turn onto
   * exactly its triggers.
   */
  lemma TriggerDegreesFullTurn(tpr: int)
    requires 0 < tpr
    ensures TriggerDegrees(tpr) * tpr <= 360 < (TriggerDegrees(tpr) + 1) * tpr
    ensures 360 % tpr == 0 ==> TriggerDegrees(tpr) * tpr == 360
  {
  }

  /** The sample added into the stored remainder, part by part. */
  function AddParts(rem: SensorValue, sample: SensorValue): (s: SensorValue)
    ensures Micros(s) == Micros(rem) + Micros(sample)
  {
    SensorValue(rem.val1 + sample.val1, rem.val2 + sample.val2)
  }

  /**
   * The single carry step: when the micro part has reached a whole unit in
   * either direction, its truncated quotient moves into `val1`.
   */
  function Normalize(v: SensorValue): (n: SensorValue)
    ensures Micros(n) == Micros(v)
    ensures Abs(n.val2) < MICRO
    ensures SameSignOrZero(n.val2, v.val2)
    ensures Abs(v.val2) < MICRO ==> n == v
    ensures Abs(n.val1 - v.val1) <= Abs(CDiv(v.val2, MICRO))
  {
    if v.val2 >= MICRO || v.val2 <= -MICRO then
      SensorValue(v.val1 + CDiv(v.val2, MICRO), CMod(v.val2, MICRO))
    else
      v
  }

  /** The whole-degree total the general path divides into triggers. */
  function Undivided(rem: SensorValue, sample: SensorValue): int {
    Normalize(AddParts(rem, sample)).val1
  }

  /** What the general path leaves behind: the new remainder and the trigger count. */
  datatype Accumulation = Accumulation(remainder: SensorValue, triggers: int)

  /**
   * The general path of the accumulator (a sample whose `val1` is not zero):
   * add, carry once, then split the whole degrees into triggers and what is
   * left over.
   */
  function Accumulate(rem: SensorValue, sample: SensorValue, tpr: int): (a: Accumulation)
    requires ValidTriggersPerRotation(tpr)
    // nothing is lost: remainder plus the dispatched rotation is the old remainder plus the sample
    ensures Micros(a.remainder) + a.triggers * TriggerDegrees(tpr) * MICRO
            == Micros(rem) + Micros(sample)
    ensures Abs(a.remainder.val2) < MICRO
    // the division touches whole degrees only: the micro part is the normalised one
    ensures a.remainder.val2 == Normalize(AddParts(rem, sample)).val2
    ensures Abs(a.remainder.val1) < Abs(TriggerDegrees(tpr))
    ensures SameSignOrZero(a.remainder.val1, Undivided(rem, sample))
    ensures SameSignOrZero(a.triggers * TriggerDegrees(tpr), Undivided(rem, sample))
    // a trigger fires exactly when the whole degrees reach one trigger's worth
    ensures a.triggers != 0 <==> Abs(Undivided(rem, sample)) >= Abs(TriggerDegrees(tpr))
    ensures Abs(a.triggers) <= Abs(Undivided(rem, sample))
  {
    var n := Normalize(AddParts(rem, sample));
    var d := TriggerDegrees(tpr);
    var q := CDiv(n.val1, d);
    var r := CMod(n.val1, d);
    assert SameSignOrZero(q * d, n.val1) by {
      CArithSign(n.val1, d);
    }
    Accumulation(SensorValue(r, n.val2), q)
  }

  /**
   * The contract of `Accumulate` leaves no freedom: any remainder and count
   * that conserve the rotation, keep the normalised micro part, and leave a
   * whole part smaller than one trigger with the sign of the undivided
   * degrees are exactly what the accumulator stores.
   */
  lemma AccumulateUnique(rem: SensorValue, sample: SensorValue, tpr: int, b: Accumulation)
    requires ValidTriggersPerRotation(tpr)
    requires Micros(b.remainder) + b.triggers * TriggerDegrees(tpr) * MICRO == Micros(rem) + Micros(sample)
    requires b.remainder.val2 == Normalize(AddParts(rem, sample)).val2
    requires Abs(b.remainder.val1) < Abs(TriggerDegrees(tpr))
    requires SameSignOrZero(b.remainder.val1, Undivided(rem, sample))
    ensures b == Accumulate(rem, sample, tpr)
  {
    var n := Normalize(AddParts(rem, sample));
    var d := TriggerDegrees(tpr);
    var x, t := b.remainder.val1, b.triggers;
    assert (x + t * d) * MICRO == n.val1 * MICRO;
    MulCancel(x + t * d, n.val1, MICRO);
    CDivUnique(n.val1, d, t, x);
  }

  /** The product of a truncated quotient and its divisor keeps the dividend's sign. */
  lemma CArithSign(a: int, d: int)
    requires d != 0
    ensures SameSignOrZero(CDiv(a, d) * d, a)
  {
  }

  /** With a positive configuration the trigger count itself has the sign of the rotation. */
  lemma AccumulateTriggerSign(rem: SensorValue, sample: SensorValue, tpr: int)
    requires 0 < tpr <= 360
    ensures SameSignOrZero(Accumulate(rem, sample, tpr).triggers, Undivided(rem, sample))
    ensures SameSignOrZero(Accumulate(rem, sample, tpr).remainder.val1, Undivided(rem, sample))
  {
  }

  /** Every C intermediate of the general path fits in a 32-bit `int`. */
  predicate AccumulateFits(rem: SensorValue, sample: SensorValue, tpr: int)
    requires ValidTriggersPerRotation(tpr)
  {
    && IsInt32(rem.val1 + sample.val1)
    && IsInt32(rem.val2 + sample.val2)
    && IsInt32(Undivided(rem, sample))
    && IsInt32(CDiv(Undivided(rem, sample), TriggerDegrees(tpr)))
  }

  /** When the C intermediates fit, so do the stored results. */
  lemma AccumulateStaysInt32(rem: SensorValue, sample: SensorValue, tpr: int)
    requires ValidTriggersPerRotation(tpr)
    requires AccumulateFits(rem, sample, tpr)
    ensures IsInt32Value(Accumulate(rem, sample, tpr).remainder)
    ensures IsInt32(Accumulate(rem, sample, tpr).triggers)
  {
  }

  // ---------------------------------------------------------------------
  // The dispatcher's output
  // ---------------------------------------------------------------------

  /**
   * The binding a non-zero count fires: clockwise for a positive count,
   * counter-clockwise for a negative one; with `override_params` its first
   * parameter comes from the caller's first (clockwise) or second
   * (counter-clockwise) parameter.
   */
  function SelectBinding(caller: Binding, cfg: RotateConfig, t: int): (b: Binding)
    requires t != 0
    ensures var dir := if t > 0 then cfg.cwBinding else cfg.ccwBinding;
            b.behaviorDev == dir.behaviorDev && b.param2 == dir.param2
    ensures !cfg.overrideParams ==> b == (if t > 0 then cfg.cwBinding else cfg.ccwBinding)
    ensures cfg.overrideParams && t > 0 ==> b.param1 == caller.param1
    ensures cfg.overrideParams && t < 0 ==> b.param1 == caller.param2
  {
    if t > 0 then
      if cfg.overrideParams then cfg.cwBinding.(param1 := caller.param1) else cfg.cwBinding
    else
      if cfg.overrideParams then cfg.ccwBinding.(param1 := caller.param2) else cfg.ccwBinding
  }

  /** The event as enqueued: on a split build its source is forced to the local half. */
  function DispatchedEvent(event: Event, split: bool): (e: Event)
    ensures e.position == event.position && e.layer == event.layer && e.timestamp == event.timestamp
    ensures e.source == if split then Local else event.source
  {
    if split then event.(source := Local) else event
  }

  /** `n` taps of `b`, as the loop of `process` enqueues them, oldest first. */
  function PressReleasePairs(e: Event, b: Binding, n: nat, tapMs: int): (s: seq<QueueEntry>)
    ensures |s| == 2 * n
  {
    if n == 0 then []
    else PressReleasePairs(e, b, n - 1, tapMs)
         + [QueueEntry(e, b, true, tapMs), QueueEntry(e, b, false, 0)]
  }

  /** Entry `k` of the taps: the same event and binding, presses held `tapMs` at even places, releases at odd ones. */
  lemma {:induction false} PressReleasePairsAt(e: Event, b: Binding, n: nat, tapMs: int, k: nat)
    requires k < 2 * n
    ensures PressReleasePairs(e, b, n, tapMs)[k]
            == QueueEntry(e, b, k % 2 == 0, if k % 2 == 0 then tapMs else 0)
  {
    if k < 2 * (n - 1) {
      PressReleasePairsAt(e, b, n - 1, tapMs, k);
    }
  }

  /** Taps split: `m + n` taps are `m` taps followed by `n` taps. */
  lemma {:induction false} PressReleasePairsAppend(e: Event, b: Binding, m: nat, n: nat, tapMs: int)
    ensures PressReleasePairs(e, b, m + n, tapMs)
            == PressReleasePairs(e, b, m, tapMs) + PressReleasePairs(e, b, n, tapMs)
  {
    if n > 0 {
      PressReleasePairsAppend(e, b, m, n - 1, tapMs);
    }
  }

  /** How many entries of `s` are presses (`press == true`) or releases (`press == false`). */
  function CountPress(s: seq<QueueEntry>, press: bool): nat {
    if s == [] then 0
    else CountPress(s[..|s| - 1], press) + (if s[|s| - 1].press == press then 1 else 0)
  }

  /** Presses and releases pair up: `n` taps hold exactly `n` presses and `n` releases. */
  lemma {:induction false} PressReleasePairsBalanced(e: Event, b: Binding, n: nat, tapMs: int, press: bool)
    ensures CountPress(PressReleasePairs(e, b, n, tapMs), press) == n
  {
    if n > 0 {
      var prefix := PressReleasePairs(e, b, n - 1, tapMs);
      var s := PressReleasePairs(e, b, n, tapMs);
      PressReleasePairsBalanced(e, b, n - 1, tapMs, press);
      assert s[..|s| - 1] == prefix + [QueueEntry(e, b, true, tapMs)];
      assert s[..|s| - 1][..|s| - 2] == prefix;
    }
  }

  /** Everything `process` in trigger mode appends for a stored count `t`. */
  function Dispatch(caller: Binding, cfg: RotateConfig, event: Event, t: int, split: bool): (s: seq<QueueEntry>)
    ensures t == 0 ==> s == []
    ensures |s| == 2 * Abs(t)
    ensures forall k :: 0 <= k < |s| ==>
              && s[k].event == DispatchedEvent(event, split)
              && s[k].binding == SelectBinding(caller, cfg, t)
              && s[k].press == (k % 2 == 0)
              && s[k].holdMs == (if k % 2 == 0 then cfg.tapMs else 0)
    ensures CountPress(s, true) == Abs(t) && CountPress(s, false) == Abs(t)
  {
    if t == 0 then []
    else
      var s := PressReleasePairs(DispatchedEvent(event, split), SelectBinding(caller, cfg, t), Abs(t), cfg.tapMs);
      PressReleasePairsBalanced(DispatchedEvent(event, split), SelectBinding(caller, cfg, t), Abs(t), cfg.tapMs, true);
      PressReleasePairsBalanced(DispatchedEvent(event, split), SelectBinding(caller, cfg, t), Abs(t), cfg.tapMs, false);
      forall k | 0 <= k < |s|
        ensures s[k] == QueueEntry(DispatchedEvent(event, split), SelectBinding(caller, cfg, t),
                                   k % 2 == 0, if k % 2 == 0 then cfg.tapMs else 0)
      {
        PressReleasePairsAt(DispatchedEvent(event, split), SelectBinding(caller, cfg, t), Abs(t), cfg.tapMs, k);
      }
      s
  }

  // ---------------------------------------------------------------------
  // The behaviour queue (external collaborator, only its appended sequence)
  // ---------------------------------------------------------------------

  class BehaviorQueue {
    var entries: seq<QueueEntry>

    constructor ()
      ensures entries == []
    {
      entries := [];
    }

    /** `zmk_behavior_queue_add`: records one press or release at the end of the queue. */
    method Add(event: Event, binding: Binding, press: bool, holdMs: int)
      modifies this
      ensures entries == old(entries) + [QueueEntry(event, binding, press, holdMs)]
    {
      entries := entries + [QueueEntry(event, binding, press, holdMs)];
    }
  }

  // ---------------------------------------------------------------------
  // The per-device state and the two entry points
  // ---------------------------------------------------------------------

  /** `struct behavior_sensor_rotate_data`: both tables indexed by `[sensor_index][layer]`. */
  class RotateData {
    var remainder: array2<SensorValue>
    var triggers: array2<int>

    /** Both tables have the same shape and every entry is a 32-bit value. */
    ghost predicate Valid()
      reads this, remainder, triggers
    {
      && remainder.Length0 == triggers.Length0
      && remainder.Length1 == triggers.Length1
      && (forall i, j :: 0 <= i < triggers.Length0 && 0 <= j < triggers.Length1 ==>
            IsInt32(triggers[i, j]) && IsInt32Value(remainder[i, j]))
    }

    /** `(sensorIndex, layer)` addresses an entry of the tables. */
    ghost predicate InBounds(sensorIndex: nat, layer: nat)
      reads this
    {
      sensorIndex < triggers.Length0 && layer < triggers.Length1
    }

    /** Zero-initialised tables, as for static device data. */
    constructor (sensors: nat, layers: nat)
      ensures Valid()
      ensures remainder.Length0 == sensors && remainder.Length1 == layers
      ensures forall i, j :: 0 <= i < sensors && 0 <= j < layers ==>
                remainder[i, j] == SensorValue(0, 0) && triggers[i, j] == 0
      ensures fresh(remainder) && fresh(triggers)
    {
      remainder := new SensorValue[sensors, layers]((i, j) => SensorValue(0, 0));
      triggers := new int[sensors, layers]((i, j) => 0);
    }

    /**
     * `zmk_behavior_sensor_rotate_common_accept_data` for the slot
     * `(sensorIndex, event.layer)` and the first channel's `value`.
     */
    method AcceptData(event: Event, sensorConfig: SensorConfig, sensorIndex: nat, value: SensorValue)
      returns (status: int)
      requires Valid() && InBounds(sensorIndex, event.layer)
      requires ValidTriggersPerRotation(sensorConfig.triggersPerRotation)
      requires IsInt32Value(value)
      requires value.val1 != 0 ==>
                 AccumulateFits(remainder[sensorIndex, event.layer], value, sensorConfig.triggersPerRotation)
      modifies remainder, triggers
      ensures Valid()
      ensures status == 0
      // legacy EC11 path: the micro part is the trigger count, the remainder is untouched
      ensures value.val1 == 0 ==>
                triggers[sensorIndex, event.layer] == value.val2 && unchanged(remainder)
      ensures value.val1 != 0 ==>
                var a := Accumulate(old(remainder[sensorIndex, event.layer]), value, sensorConfig.triggersPerRotation);
                remainder[sensorIndex, event.layer] == a.remainder && triggers[sensorIndex, event.layer] == a.triggers
      // no other slot changes
      ensures forall i, j ::
                (0 <= i < triggers.Length0 && 0 <= j < triggers.Length1 && (i != sensorIndex || j != event.layer)) ==>
                  remainder[i, j] == old(remainder[i, j]) && triggers[i, j] == old(triggers[i, j])
    {
      var t: int;
      if value.val1 == 0 {
        // Old EC11 encoder behaviour
        t := value.val2;
      } else {
        ghost var a := Accumulate(remainder[sensorIndex, event.layer], value, sensorConfig.triggersPerRotation);
        var rem := remainder[sensorIndex, event.layer];
        rem := rem.(val1 := rem.val1 + value.val1);
        rem := rem.(val2 := rem.val2 + value.val2);
        rem := Normalize(rem);
        var triggerDegrees := CDiv(360, sensorConfig.triggersPerRotation);
        t := CDiv(rem.val1, triggerDegrees);
        rem := rem.(val1 := CMod(rem.val1, triggerDegrees));
        assert rem == a.remainder && t == a.triggers;
        AccumulateStaysInt32(remainder[sensorIndex, event.layer], value, sensorConfig.triggersPerRotation);
        remainder[sensorIndex, event.layer] := rem;
      }
      assert IsInt32(t);
      triggers[sensorIndex, event.layer] := t;
      status := 0;
    }

    /**
     * `zmk_behavior_sensor_rotate_common_process` for the slot
     * `(sensorIndex, event.layer)`; `split` stands for `CONFIG_ZMK_SPLIT`.
     */
    method Process(binding: Binding, event: Event, mode: ProcessMode, cfg: RotateConfig,
                   sensorIndex: nat, split: bool, queue: BehaviorQueue)
      returns (outcome: Outcome)
      requires Valid() && InBounds(sensorIndex, event.layer)
      requires mode == Trigger ==> triggers[sensorIndex, event.layer] != INT32_MIN
      modifies triggers, queue
      ensures Valid()
      // opaque exactly when a trigger pass finds a non-zero count
      ensures mode != Trigger ==> outcome == Transparent
      ensures mode == Trigger && old(triggers[sensorIndex, event.layer]) == 0 ==> outcome == Transparent
      ensures mode == Trigger && old(triggers[sensorIndex, event.layer]) != 0 ==> outcome == Opaque
      // any non-trigger pass clears the slot's count and enqueues nothing
      ensures mode != Trigger ==>
                && triggers[sensorIndex, event.layer] == 0
                && queue.entries == old(queue.entries)
                && (forall i, j ::
                      (0 <= i < triggers.Length0 && 0 <= j < triggers.Length1 && (i != sensorIndex || j != event.layer)) ==>
                        triggers[i, j] == old(triggers[i, j]))
      // a trigger pass enqueues the taps and leaves the count in place
      ensures mode == Trigger ==>
                && unchanged(triggers)
                && queue.entries == old(queue.entries)
                     + Dispatch(binding, cfg, event, old(triggers[sensorIndex, event.layer]), split)
    {
      if mode != Trigger {
        triggers[sensorIndex, event.layer] := 0;
        return Transparent;
      }

      var t := triggers[sensorIndex, event.layer];
      ghost var stored := t;
      var triggeredBinding: Binding;
      if t > 0 {
        triggeredBinding := cfg.cwBinding;
        if cfg.overrideParams {
          triggeredBinding := triggeredBinding.(param1 := binding.param1);
        }
      } else if t < 0 {
        t := -t;
        triggeredBinding := cfg.ccwBinding;
        if cfg.overrideParams {
          triggeredBinding := triggeredBinding.(param1 := binding.param2);
        }
      } else {
        return Transparent;
      }

      var e := event;
      if split {
        // always trigger on the central half
        e := e.(source := Local);
      }

      for i := 0 to t
        modifies queue
        invariant queue.entries == old(queue.entries) + PressReleasePairs(e, triggeredBinding, i, cfg.tapMs)
      {
        queue.Add(e, triggeredBinding, true, cfg.tapMs);
        queue.Add(e, triggeredBinding, false, 0);
      }
      assert t == Abs(stored) && triggeredBinding == SelectBinding(binding, cfg, stored);
      return Opaque;
    }
  }

  // ---------------------------------------------------------------------
  // Many samples
  // ---------------------------------------------------------------------

  /** The total rotation carried by a run of samples, in millionths. */
  function SumMicros(samples: seq<SensorValue>): int {
    if samples == [] then 0 else Micros(samples[0]) + SumMicros(samples[1..])
  }

  /**
   * Feeds general-path samples one after another into a slot, each count
   * being dispatched before the next sample arrives; yields the final
   * remainder and the total number of triggers fired.
   */
  function AccumulateAll(rem: SensorValue, samples: seq<SensorValue>, tpr: int): Accumulation
    requires ValidTriggersPerRotation(tpr)
    requires forall i | 0 <= i < |samples| :: samples[i].val1 != 0
    decreases |samples|
  {
    if samples == [] then Accumulation(rem, 0)
    else
      var first := Accumulate(rem, samples[0], tpr);
      var rest := AccumulateAll(first.remainder, samples[1..], tpr);
      Accumulation(rest.remainder, first.triggers + rest.triggers)
  }

  /** No rotation is lost over a whole run: fired triggers plus the final remainder make up all of it. */
  lemma {:induction false} AccumulateAllConserves(rem: SensorValue, samples: seq<SensorValue>, tpr: int)
    requires ValidTriggersPerRotation(tpr)
    requires forall i | 0 <= i < |samples| :: samples[i].val1 != 0
    ensures var r := AccumulateAll(rem, samples, tpr);
            Micros(r.remainder) + r.triggers * TriggerDegrees(tpr) * MICRO
            == Micros(rem) + SumMicros(samples)
    ensures Abs(AccumulateAll(rem, samples, tpr).remainder.val2) < MICRO || samples == []
    decreases |samples|
  {
    if samples != [] {
      var first := Accumulate(rem, samples[0], tpr);
      AccumulateAllConserves(first.remainder, samples[1..], tpr);
      var rest := AccumulateAll(first.remainder, samples[1..], tpr);
      assert AccumulateAll(rem, samples, tpr) == Accumulation(rest.remainder, first.triggers + rest.triggers);
      assert SumMicros(samples) == Micros(samples[0]) + SumMicros(samples[1..]);
      ScaledSum(first.triggers, rest.triggers, TriggerDegrees(tpr), MICRO);
    }
  }

  /** Triggers counted in two runs convert to millionths as their sum does. */
  lemma ScaledSum(a: int, b: int, d: int, m: int)
    ensures (a + b) * d * m == a * d * m + b * d * m
  {
  }
}
