/**
 From resistances to ADC thresholds: the voltage of a resistor divider, and the binary search
 that turns a voltage into a raw reading on the converter's characteristic curve.
 */
module Adc {

  const MAX_RAW := 4095

  /** The voltage of each raw reading of the 12-bit converter. */
  type Curve = c: seq<real> | |c| == MAX_RAW + 1 witness seq(MAX_RAW + 1, _ => 0.0)

  predicate Nondecreasing(c: Curve) {
    forall i: nat, j: nat | i <= j <= MAX_RAW :: c[i] <= c[j]
  }

  /** `raw` is the largest reading below the voltage, or 0 if there is none. */
  predicate LargestBelow(c: Curve, v: real, raw: int) {
    && 0 <= raw <= MAX_RAW
    && (forall k: nat | raw < k <= MAX_RAW :: c[k] >= v)
    && (c[raw] < v || (raw == 0 && forall k: nat | k <= MAX_RAW :: c[k] >= v))
  }

  class ResistorDividerCalibrator {
    var curve: Curve
    var vGpio: real
    var r1Eff: real
    var r1AxEff: real
    var r3Eff: real

    method VoltageToAdcRaw(voltage: real) returns (result: int)
      requires Nondecreasing(curve)
      ensures LargestBelow(curve, voltage, result)
    {
      var low, high := 0, MAX_RAW;
      result := 0;
      while low <= high
        invariant 0 <= low <= MAX_RAW + 1 && -1 <= high <= MAX_RAW && low <= high + 1
        invariant low == 0 ==> result == 0
        invariant low > 0 ==> result == low - 1 && curve[result] < voltage
        invariant forall k: nat | high < k <= MAX_RAW :: curve[k] >= voltage
      {
        var mid := (low + high) / 2;
        if curve[mid] < voltage {
          low := mid + 1;
          result := mid;
        } else {
          high := mid - 1;
        }
      }
    }

    method GetAdcThresholdForResistanceNonTip(r: real) returns (threshold: int)
      requires Nondecreasing(curve) && r >= 0.0
      ensures IsThreshold(curve, vGpio, r1Eff, r3Eff, r, threshold)
    {
      if r1Eff <= 0.0 || r3Eff <= 0.0 {
        return -1;
      }
      var vMeas := vGpio * r3Eff / (r1Eff + r + r3Eff);
      assert vMeas == Divider(vGpio, r1Eff, r3Eff, r);
      threshold := VoltageToAdcRaw(vMeas);
    }

    method GetAdcThresholdForResistanceTip(r: real) returns (threshold: int)
      requires Nondecreasing(curve) && r >= 0.0
      ensures IsThreshold(curve, vGpio, r1AxEff, r3Eff, r, threshold)
    {
      if r1AxEff <= 0.0 || r3Eff <= 0.0 {
        return -1;
      }
      var vMeas := vGpio * r3Eff / (r1AxEff + r + r3Eff);
      assert vMeas == Divider(vGpio, r1AxEff, r3Eff, r);
      threshold := VoltageToAdcRaw(vMeas);
    }
  }

  /** The voltage over r3 when a contact of resistance `r` closes the divider. */
  function Divider(vGpio: real, r1: real, r3: real, r: real): real
    requires r1 > 0.0 && r3 > 0.0 && r >= 0.0
  {
    vGpio * r3 / (r1 + r + r3)
  }

  /** An uncalibrated divider has no threshold. */
  predicate IsThreshold(c: Curve, vGpio: real, r1: real, r3: real, r: real, threshold: int)
    requires r >= 0.0
  {
    if r1 <= 0.0 || r3 <= 0.0 then threshold == -1 else LargestBelow(c, Divider(vGpio, r1, r3, r), threshold)
  }

  /** The resistance that a reading stands for. */
  function Resistance(c: Curve, vGpio: real, r1: real, r3: real, raw: nat): real
    requires raw <= MAX_RAW && c[raw] > 0.0
  {
    vGpio * r3 / c[raw] - r1 - r3
  }

  lemma QuotientAtMost(a: real, b: real, c: real)
    requires b > 0.0
    ensures a / b <= c <==> a <= c * b
  {
    var q := a / b;
    assert a == q * b;
    assert (c - q) * b == c * b - a;
    assert c - q >= 0.0 <==> (c - q) * b >= 0.0;
  }

  /** A reading exceeds the threshold for R exactly when its voltage is at least that of R in the
      divider, that is, when the contact it stands for has at most resistance R. */
  lemma ThresholdSeparates(c: Curve, vGpio: real, r1: real, r3: real, r: real, threshold: int, raw: nat)
    requires Nondecreasing(c) && r1 > 0.0 && r3 > 0.0 && r >= 0.0 && 0 < raw <= MAX_RAW
    requires IsThreshold(c, vGpio, r1, r3, r, threshold)
    ensures raw > threshold <==> c[raw] >= Divider(vGpio, r1, r3, r)
    ensures c[raw] > 0.0 ==> (raw > threshold <==> Resistance(c, vGpio, r1, r3, raw) <= r)
  {
    if c[raw] > 0.0 {
      QuotientAtMost(vGpio * r3, r1 + r + r3, c[raw]);
      QuotientAtMost(vGpio * r3, c[raw], r1 + r + r3);
    }
  }

  lemma DividerFalls(vGpio: real, r1: real, r3: real, r: real, s: real)
    requires vGpio >= 0.0 && r1 > 0.0 && r3 > 0.0 && 0.0 <= r <= s
    ensures Divider(vGpio, r1, r3, r) >= Divider(vGpio, r1, r3, s)
  {
    var a, x, y := vGpio * r3, r1 + r + r3, r1 + s + r3;
    var p := a / x;
    assert p * x == a && p >= 0.0;
    assert p * y - p * x == p * (y - x);
    QuotientAtMost(a, y, p);
  }

  /** A larger resistance never has a larger threshold. */
  lemma ThresholdsFall(c: Curve, vGpio: real, r1: real, r3: real, r: real, s: real, tr: int, ts: int)
    requires Nondecreasing(c) && vGpio >= 0.0 && 0.0 <= r <= s
    requires IsThreshold(c, vGpio, r1, r3, r, tr) && IsThreshold(c, vGpio, r1, r3, s, ts)
    ensures ts <= tr
  {
    if r1 > 0.0 && r3 > 0.0 {
      DividerFalls(vGpio, r1, r3, r, s);
    }
  }
}
