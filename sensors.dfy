/** The ring of eight proximity sensors and the 0/1 weight vector derived
    from it. Index 0 is front-right and the indices run clockwise seen from
    above: 0-2 are the right front trio, 3-4 the rear, 5-7 the left front
    trio (7 front-left). */
module Sensors {

  /** One reading of all eight sensors, or the weights derived from one. */
  type Frame = s: seq<real> | |s| == 8 witness [0.0, 0.0, 0.0, 0.0, 0.0, 0.0, 0.0, 0.0]

  /** A sensor index. */
  type Index = i: nat | i < 8

  /** The C truth value of a weight: any non-zero weight counts as set. */
  predicate On(w: Frame, i: Index) {
    w[i] != 0.0
  }

  /** Every entry is 0.0 or 1.0. */
  predicate IsWeightVector(w: Frame) {
    forall i: Index :: w[i] == 0.0 || w[i] == 1.0
  }

  predicate AllZero(w: Frame) {
    forall i: Index :: w[i] == 0.0
  }

  /** `fill_proximity_weights` as a value: 1.0 where the reading is strictly
      above the threshold, 0.0 elsewhere. */
  function Classify(values: Frame, threshold: real): (w: Frame)
    ensures IsWeightVector(w)
    ensures forall i: Index :: On(w, i) <==> values[i] > threshold
  {
    seq(8, i requires 0 <= i < 8 => if values[i] > threshold then 1.0 else 0.0)
  }

  /** The frame seen by the mirror image of the robot: sensor i of the
      mirror robot is sensor 7 - i of this one. */
  function Mirror(v: Frame): (m: Frame)
    ensures forall i: Index :: m[i] == v[7 - i]
  {
    seq(8, i requires 0 <= i < 8 => v[7 - i])
  }

  /** Mirroring twice gives the frame back. */
  lemma MirrorInvolution(v: Frame)
    ensures Mirror(Mirror(v)) == v
  {
    assert forall i: Index :: Mirror(Mirror(v))[i] == v[i];
  }

  /** Copies a frame into a sensor buffer, as the `fill_sensor_values` and
      `get_sensor_values` loops do. */
  method CopyFrame(frame: Frame, values: array<real>)
    requires values.Length == 8
    modifies values
    ensures values[..] == frame
  {
    for i := 0 to 8
      invariant forall k :: 0 <= k < i ==> values[k] == frame[k]
    {
      values[i] := frame[i];
    }
  }

  /** The `fill_proximity_weights` loop: every one of the eight weights is
      overwritten, so nothing of the buffer's previous contents survives. */
  method FillWeights(values: array<real>, weights: array<real>, threshold: real)
    requires values.Length == 8 && weights.Length == 8 && values != weights
    modifies weights
    ensures weights[..] == Classify(values[..], threshold)
  {
    for i := 0 to 8
      invariant forall k :: 0 <= k < i ==> weights[k] == (if values[k] > threshold then 1.0 else 0.0)
    {
      if values[i] > threshold {
        weights[i] := 1.0;
      } else {
        weights[i] := 0.0;
      }
    }
  }

  /** The end-of-tick loop that sets every weight back to 0. */
  method ZeroWeights(weights: array<real>)
    requires weights.Length == 8
    modifies weights
    ensures forall k :: 0 <= k < 8 ==> weights[k] == 0.0
  {
    for i := 0 to 8
      invariant forall k :: 0 <= k < i ==> weights[k] == 0.0
    {
      weights[i] := 0.0;
    }
  }
}
