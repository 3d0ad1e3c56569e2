/**
 * The mock-data generators' use of `Math.random()` and of the clock. A draw is a
 * parameter `r` with `0 <= r < 1`; real arithmetic stands in for the
 * floating-point product. Times are integer milliseconds; the current time and
 * the current hour or day-of-month field are parameters.
 */
module Draws {

  predicate IsDraw(r: real)
  {
    0.0 <= r < 1.0
  }

  /** `Math.floor(r * n)`: a draw scaled to an index below `n`. */
  function RandomIndex(r: real, n: nat): (k: nat)
    requires IsDraw(r) && n > 0
    ensures k < n
    ensures k as real <= r * n as real < k as real + 1.0
  {
    assert 0.0 <= r * n as real < n as real;
    (r * n as real).Floor
  }

  /** `randomItem(arr)`: `arr[Math.floor(Math.random() * arr.length)]`. */
  function RandomItem<T>(arr: seq<T>, r: real): (x: T)
    requires IsDraw(r) && |arr| > 0
    ensures x in arr
  {
    arr[RandomIndex(r, |arr|)]
  }

  /** `Math.floor(r * n) + 1` lies in `1..n`. */
  lemma RandomCountRange(r: real, n: nat)
    requires IsDraw(r) && n > 0
    ensures 1 <= RandomIndex(r, n) + 1 <= n
  {
  }

  /** Every index below `n` is the result of some draw. */
  lemma RandomIndexReachesAll(n: nat, k: nat)
    requires k < n
    ensures IsDraw(k as real / n as real) && RandomIndex(k as real / n as real, n) == k
  {
    var r := k as real / n as real;
    assert r * n as real == k as real;
  }

  const HourMs: nat := 3_600_000
  const DayMs: nat := 86_400_000

  /** ECMAScript `ToIntegerOrInfinity` on a finite number: truncation toward zero. */
  function Trunc(x: real): (n: int)
    ensures x >= 0.0 ==> n as real <= x < n as real + 1.0
    ensures x < 0.0 ==> n as real - 1.0 < x <= n as real
  {
    if x >= 0.0 then x.Floor else -((-x).Floor)
  }

  /**
   * How many whole hours (days) `date.setHours(date.getHours() - x)`
   * (`date.setDate(date.getDate() - x)`) moves a date back, when the field
   * currently reads `current`: the setter truncates its argument toward zero.
   */
  function UnitsBack(current: nat, x: real): (k: nat)
    requires x >= 0.0
    ensures x - 1.0 < k as real < x + 1.0
  {
    var back := current - Trunc(current as real - x);
    assert back >= 0 by {
      if current as real - x < 0.0 {
        assert Trunc(current as real - x) <= 0;
      }
    }
    back
  }

  /** `randomDate(span)`: a whole number of units (of `unitMs` milliseconds), at most `span`, before `now`. */
  function RandomDate(now: int, current: nat, r: real, span: nat, unitMs: nat): (t: int)
    requires IsDraw(r)
    ensures exists k :: 0 <= k <= span && t == now - k * unitMs
    ensures now - span * unitMs <= t <= now
  {
    var k := UnitsBack(current, r * span as real);
    assert r * span as real <= span as real;
    RandomDateStep(k, span, unitMs);
    now - k * unitMs
  }

  lemma RandomDateStep(k: nat, span: nat, unitMs: nat)
    requires k <= span
    ensures 0 <= k * unitMs <= span * unitMs
  {
    assert (span - k) * unitMs >= 0;
  }
}
