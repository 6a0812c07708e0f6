/** The `glow_leds` indicator mapping of the two e-puck firmware
    controllers: eight LEDs, each lit when one of its sensors reads above
    the presence threshold. */
module Leds {
  import opened Sensors

  /** The sensors shown by LED k: LED 0 shows the front pair 0 and 7, LEDs
      1-3 show sensors 1-3, LED 4 shows the rear pair 3 and 4, and LEDs 5-7
      show sensors 4-6. */
  function Sources(k: Index): set<Index> {
    if k == 0 then {0, 7}
    else if k <= 3 then {k}
    else if k == 4 then {3, 4}
    else {k - 1}
  }

  /** Reference definition: LED k is lit iff some sensor it shows reads
      strictly above the threshold. */
  ghost function Pattern(v: Frame, threshold: real): (leds: seq<bool>)
    ensures |leds| == 8
    ensures leds[0] == (v[0] > threshold || v[7] > threshold)
    ensures leds[1] == (v[1] > threshold) && leds[2] == (v[2] > threshold) && leds[3] == (v[3] > threshold)
    ensures leds[4] == (v[3] > threshold || v[4] > threshold)
    ensures leds[5] == (v[4] > threshold) && leds[6] == (v[5] > threshold) && leds[7] == (v[6] > threshold)
  {
    seq(8, k requires 0 <= k < 8 => exists i: Index :: i in Sources(k) && v[i] > threshold)
  }

  /** `glow_leds` as its eight tests, returning the LED states it writes. */
  method GlowLeds(v: Frame, threshold: real) returns (leds: seq<bool>)
    ensures leds == Pattern(v, threshold)
  {
    var led0 := v[0] > threshold || v[7] > threshold;
    var led1 := v[1] > threshold;
    var led2 := v[2] > threshold;
    var led3 := v[3] > threshold;
    var led4 := v[3] > threshold || v[4] > threshold;
    var led5 := v[4] > threshold;
    var led6 := v[5] > threshold;
    var led7 := v[6] > threshold;
    leds := [led0, led1, led2, led3, led4, led5, led6, led7];
  }

  /** Every reading above the threshold lights at least one LED that shows
      its sensor (sensor 7 only through LED 0). */
  lemma EveryDetectionShown(v: Frame, threshold: real, i: Index)
    requires v[i] > threshold
    ensures exists k: Index :: Pattern(v, threshold)[k] && i in Sources(k)
  {
    var k: Index := if i == 0 || i == 7 then 0 else if i <= 3 then i else i + 1;
    assert i in Sources(k);
    assert Pattern(v, threshold)[k];
  }

  /** Only LED 0 shows sensor 7. */
  lemma SevenOnlyOnLedZero(k: Index)
    ensures 7 in Sources(k) <==> k == 0
  {
  }

  /** The LEDs depend on the readings only through their classification
      against the threshold, so they agree with the weights of the tick. */
  lemma PatternFollowsWeights(v: Frame, u: Frame, threshold: real)
    requires Classify(v, threshold) == Classify(u, threshold)
    ensures Pattern(v, threshold) == Pattern(u, threshold)
  {
    var w := Classify(v, threshold);
    forall i: Index ensures v[i] > threshold <==> u[i] > threshold {
      assert On(w, i) <==> v[i] > threshold;
      assert On(Classify(u, threshold), i) <==> u[i] > threshold;
    }
  }
}
