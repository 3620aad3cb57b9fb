/**
 * Concrete runs of the two entry points on a one-sensor, one-layer device:
 * the accumulator and the dispatcher driven as a sensor and the keymap
 * would drive them, with the resulting state and queue stated outright.
 */
module RotateScenarios {
  import opened CArith
  import opened SensorRotate

  const Encoder: Event := Event(0, 0, 0, Peripheral(0))
  const VolumeUp: Binding := Binding("key_press", 0xE9, 0)
  const VolumeDown: Binding := Binding("key_press", 0xEA, 0)
  const Config: RotateConfig := RotateConfig(VolumeUp, VolumeDown, 5, false)

  /** With four triggers per rotation, -90 degrees from rest is exactly one counter-clockwise trigger. */
  lemma QuarterTurnBackAccumulates()
    ensures AccumulateFits(SensorValue(0, 0), SensorValue(-90, 0), 4)
    ensures Accumulate(SensorValue(0, 0), SensorValue(-90, 0), 4) == Accumulation(SensorValue(0, 0), -1)
  {
  }

  /** One millionth short of a quarter turn fires nothing and keeps all of it as remainder. */
  lemma AlmostAQuarterAccumulates()
    ensures AccumulateFits(SensorValue(0, 0), SensorValue(89, 999_999), 4)
    ensures Accumulate(SensorValue(0, 0), SensorValue(89, 999_999), 4) == Accumulation(SensorValue(89, 999_999), 0)
  {
  }

  /**
   * A quarter turn backwards with four triggers per rotation yields one
   * counter-clockwise trigger; the next trigger pass taps the
   * counter-clockwise binding once.
   */
  method QuarterTurnBack() returns (stored: int, outcome: Outcome, queued: seq<QueueEntry>)
    ensures stored == -1
    ensures outcome == Opaque
    ensures queued == [QueueEntry(Encoder, VolumeDown, true, 5), QueueEntry(Encoder, VolumeDown, false, 0)]
  {
    var data := new RotateData(1, 1);
    var queue := new BehaviorQueue();
    QuarterTurnBackAccumulates();
    var _ := data.AcceptData(Encoder, SensorConfig(4), 0, SensorValue(-90, 0));
    stored := data.triggers[0, 0];
    assert stored == -1;
    outcome := data.Process(Binding("enc", 0, 0), Encoder, Trigger, Config, 0, false, queue);
    queued := queue.entries;
    assert SelectBinding(Binding("enc", 0, 0), Config, -1) == VolumeDown;
    assert DispatchedEvent(Encoder, false) == Encoder;
    assert PressReleasePairs(Encoder, VolumeDown, 0, 5) == [];
    assert queued == PressReleasePairs(Encoder, VolumeDown, 1, 5);
  }

  /**
   * A stored count of three taps the clockwise binding three times on a
   * trigger pass; on a split build the events are sent as local ones, and
   * with `override_params` the caller's first parameter replaces the
   * binding's.
   */
  method ThreeTaps() returns (outcome: Outcome, queued: seq<QueueEntry>)
    ensures outcome == Opaque
    ensures |queued| == 6
    ensures forall k :: 0 <= k < 6 ==>
              && queued[k].binding == VolumeUp.(param1 := 0x80)
              && queued[k].event.source == Local
              && queued[k].press == (k % 2 == 0)
  {
    var data := new RotateData(1, 1);
    var queue := new BehaviorQueue();
    var _ := data.AcceptData(Encoder, SensorConfig(4), 0, SensorValue(0, 3));
    outcome := data.Process(Binding("enc", 0x80, 0x81), Encoder, Trigger,
                            Config.(overrideParams := true), 0, true, queue);
    queued := queue.entries;
  }

  /**
   * A sample just short of a trigger leaves 89 whole degrees behind; a
   * following sample of two millionths has `val1 == 0`, so it is read as a
   * legacy count of two triggers and the remainder is left where it was.
   */
  method LegacyAfterFraction() returns (stored: int, rem: SensorValue)
    ensures stored == 2
    ensures rem == SensorValue(89, 999_999)
  {
    var data := new RotateData(1, 1);
    AlmostAQuarterAccumulates();
    var _ := data.AcceptData(Encoder, SensorConfig(4), 0, SensorValue(89, 999_999));
    assert data.triggers[0, 0] == 0;
    var _ := data.AcceptData(Encoder, SensorConfig(4), 0, SensorValue(0, 2));
    stored := data.triggers[0, 0];
    rem := data.remainder[0, 0];
  }

  /**
   * A zero sample is not a no-op: it takes the legacy path and overwrites a
   * pending count with zero. A non-trigger pass also clears the count,
   * whatever it was, and enqueues nothing.
   */
  method ZeroSampleClears() returns (afterZero: int, outcome: Outcome, queued: seq<QueueEntry>)
    ensures afterZero == 0
    ensures outcome == Transparent && queued == []
  {
    var data := new RotateData(1, 1);
    var queue := new BehaviorQueue();
    var _ := data.AcceptData(Encoder, SensorConfig(4), 0, SensorValue(0, 5));
    assert data.triggers[0, 0] == 5;
    var _ := data.AcceptData(Encoder, SensorConfig(4), 0, SensorValue(0, 0));
    afterZero := data.triggers[0, 0];
    var _ := data.AcceptData(Encoder, SensorConfig(4), 0, SensorValue(0, -7));
    outcome := data.Process(Binding("enc", 0, 0), Encoder, Discard, Config, 0, false, queue);
    assert data.triggers[0, 0] == 0;
    queued := queue.entries;
  }
}
