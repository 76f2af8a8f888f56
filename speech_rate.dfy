/**
 * Translation of the OpenAI speed factor into the vendor's integer speech rate:
 * a first-match chain of bands with an unclamped linear fallback.
 */
module SpeechRate {

  /** JavaScript's `Math.round`: the nearest integer, halves rounded towards +infinity. */
  function JsRound(x: real): (n: int)
    ensures n as real - 0.5 <= x < n as real + 0.5
  {
    (x + 0.5).Floor
  }

  /** The default `Math.round((speed - 1) / 3 * 6) + 5`, used only when no band matches. */
  function LinearRate(speed: real): int {
    JsRound((speed - 1.0) / 3.0 * 6.0) + 5
  }

  /** The speech_rate sent to the vendor for a speed factor (the band checks run in this order). */
  function Rate(speed: real): (rate: int)
    ensures rate >= 2
    ensures speed >= 1.5 ==> rate >= 6
  {
    if speed <= 0.3 then 2
    else if speed < 0.5 then 3
    else if speed < 0.8 then 4
    else if speed >= 0.8 && speed < 1.2 then 5
    else if speed >= 1.2 && speed < 1.5 then 6
    else LinearRate(speed)
  }

  lemma RateBands(speed: real)
    ensures speed <= 0.3 ==> Rate(speed) == 2
    ensures 0.3 < speed < 0.5 ==> Rate(speed) == 3
    ensures 0.5 <= speed < 0.8 ==> Rate(speed) == 4
    ensures 0.8 <= speed < 1.2 ==> Rate(speed) == 5
    ensures 1.2 <= speed < 1.5 ==> Rate(speed) == 6
    ensures speed >= 1.5 ==> Rate(speed) == (2.0 * (speed - 1.0) + 0.5).Floor + 5
  {
  }

  lemma FloorMonotone(x: real, y: real)
    requires x <= y
    ensures x.Floor <= y.Floor
  {
  }

  /** A faster speed never gives a slower rate. */
  lemma RateMonotone(s: real, t: real)
    requires s <= t
    ensures Rate(s) <= Rate(t)
  {
    if s >= 1.5 {
      FloorMonotone((s - 1.0) / 3.0 * 6.0 + 0.5, (t - 1.0) / 3.0 * 6.0 + 0.5);
    }
  }

  /** The fallback meets the last band at 1.5 and is not clamped to the vendor's 1..10 scale. */
  lemma RateUnclamped()
    ensures Rate(1.5) == 6 && Rate(2.0) == 7 && Rate(4.0) == 11
  {
    assert (1.0 + 0.5).Floor == 1;
    assert (2.0 + 0.5).Floor == 2;
    assert (6.0 + 0.5).Floor == 6;
  }

  /** The rate grows without bound as the speed grows. */
  lemma RateUnbounded(n: nat)
    ensures Rate(n as real + 1.5) >= n + 6
  {
    var x := (n as real + 0.5) / 3.0 * 6.0;
    assert x == 2.0 * n as real + 1.0;
    assert (x + 0.5).Floor >= 2 * n + 1;
  }
}
