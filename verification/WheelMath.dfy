/** The arithmetic of the wheel quantizer: scaling a raw wheel delta by an
    axis's rational factor with C's truncating division, and cutting an
    accumulated amount into whole 120-unit notches and a remainder. Both
    revisions' notch formulas are here, with the proof that they agree. */
module WheelMath {
  import opened Win32

  const VerticalNumerator := 4
  const VerticalDenominator := 3
  const HorizontalNumerator := 2
  const HorizontalDenominator := 1

  /** `(delta * kWheelYScaleNumerator) / kWheelYScaleDenominator`: the
      vertical axis is scaled by 4/3, rounded toward zero. */
  function ScaleVertical(delta: int): (r: int)
    ensures delta >= 0 ==> 0 <= r && 3 * r <= 4 * delta < 3 * r + 3
    ensures delta < 0 ==> r <= 0 && 3 * r - 3 < 4 * delta <= 3 * r
  {
    TDiv(delta * VerticalNumerator, VerticalDenominator)
  }

  /** `(delta * -kWheelXScaleNumerator) / kWheelXScaleDenominator`: the
      horizontal axis is doubled and reversed. */
  function ScaleHorizontal(delta: int): (r: int)
    ensures r == -2 * delta
  {
    TDiv(delta * -HorizontalNumerator, HorizontalDenominator)
  }

  /** `acc / WHEEL_DELTA` in C: the number of whole notches in `acc`,
      counted toward zero. */
  function NotchCount(acc: int): (n: int)
    ensures acc >= 0 ==> 0 <= n && 0 <= acc - n * WHEEL_DELTA < WHEEL_DELTA
    ensures acc < 0 ==> n <= 0 && -WHEEL_DELTA < acc - n * WHEEL_DELTA <= 0
  {
    TDiv(acc, WHEEL_DELTA)
  }

  /** `(acc / kMinWheelDelta) * kMinWheelDelta` in the current revision:
      the part of `acc` made of whole notches. What is left behind is
      smaller than a notch and keeps the sign of `acc`. */
  function NotchPart(acc: int): (out: int)
    ensures out % WHEEL_DELTA == 0
    ensures Abs(acc - out) < WHEEL_DELTA
    ensures acc >= 0 ==> 0 <= out <= acc
    ensures acc <= 0 ==> acc <= out <= 0
  {
    NotchCount(acc) * WHEEL_DELTA
  }

  /** The earlier revision's notch formula,
      `(abs(acc) / kMinWheelDelta) * (acc > 0 ? 1 : -1) * kMinWheelDelta`.
      `abs(acc)` is never negative, so C's and Dafny's division agree on it. */
  function EarlyNotchPart(acc: int): (out: int)
    ensures out % WHEEL_DELTA == 0
    ensures acc >= 0 ==> 0 <= out <= acc && acc - out < WHEEL_DELTA
    ensures acc <= 0 ==> acc <= out <= 0 && out - acc < WHEEL_DELTA
  {
    (Abs(acc) / WHEEL_DELTA) * (if acc > 0 then 1 else -1) * WHEEL_DELTA
  }

  /** The two revisions cut the same notches out of every accumulator. */
  lemma EarlyNotchPartAgrees(acc: int)
    ensures EarlyNotchPart(acc) == NotchPart(acc)
  {
    if acc < 0 {
      assert NotchCount(acc) == -((-acc) / WHEEL_DELTA);
    }
  }

  /** One quantizer step: add the scaled delta to the accumulator, emit its
      whole notches, keep the rest. */
  function Step(acc: int, scaled: int): (r: (int, int))
    ensures r.0 + r.1 == acc + scaled
    ensures r.0 % WHEEL_DELTA == 0 && Abs(r.1) < WHEEL_DELTA
  {
    var total := acc + scaled;
    (NotchPart(total), total - NotchPart(total))
  }

  /** The notch amounts emitted, and the remainder left, when the scaled
      deltas `scaled` arrive one after another starting from `acc`. */
  function Run(acc: int, scaled: seq<int>): (seq<int>, int)
    decreases |scaled|
  {
    if scaled == [] then ([], acc)
    else
      var step := Step(acc, scaled[0]);
      var tail := Run(step.1, scaled[1..]);
      ([step.0] + tail.0, tail.1)
  }

  function Sum(s: seq<int>): int
    decreases |s|
  {
    if s == [] then 0 else s[0] + Sum(s[1..])
  }

  /** Over any run, the emitted notch amounts plus the final remainder add
      up exactly to the starting accumulator plus every scaled delta; every
      emission is a whole number of notches, there is one per input, and
      the remainder is below one notch as soon as one delta has arrived. */
  lemma {:induction false} RunConserves(acc: int, scaled: seq<int>)
    ensures var r := Run(acc, scaled);
      && |r.0| == |scaled|
      && Sum(r.0) + r.1 == acc + Sum(scaled)
      && (forall o <- r.0 :: o % WHEEL_DELTA == 0)
      && (scaled != [] || Abs(acc) < WHEEL_DELTA ==> Abs(r.1) < WHEEL_DELTA)
    decreases |scaled|
  {
    if scaled != [] {
      var step := Step(acc, scaled[0]);
      RunConserves(step.1, scaled[1..]);
      var tail := Run(step.1, scaled[1..]);
      assert ([step.0] + tail.0)[1..] == tail.0;
    }
  }

  /** The vertical axis, fed raw deltas 40, 40, 40 from an empty
      accumulator: the scaled amount 53 builds up to 106 and 159, so the
      third event alone emits one notch and 39 is left over. */
  lemma VerticalExample()
    ensures ScaleVertical(40) == 53
    ensures Run(0, [ScaleVertical(40), ScaleVertical(40), ScaleVertical(40)]) == ([0, 0, 120], 39)
  {
    assert ScaleVertical(40) == 53;
    assert Step(0, 53) == (0, 53);
    assert Step(53, 53) == (0, 106);
    assert Step(106, 53) == (120, 39);
    assert [53][0] == 53 && [53][1..] == [];
    assert Run(39, []) == ([], 39);
    assert [120] + [] == [120] && [0] + [120] == [0, 120] && [0] + [0, 120] == [0, 0, 120];
    assert Run(106, [53]) == ([120], 39);
    assert [53, 53][1..] == [53];
    assert Run(53, [53, 53]) == ([0, 120], 39);
    assert [53, 53, 53][1..] == [53, 53];
    assert Run(0, [53, 53, 53]) == ([0, 0, 120], 39);
  }
}
