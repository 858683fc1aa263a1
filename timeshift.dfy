/**
 * Applying a millisecond offset to a timestamp. A timestamp is a whole
 * number of milliseconds; building a date from a fractional value keeps
 * only its integral part, truncating toward zero.
 */
module TimeShift {
  import opened Duration

  /** 'backward' computes the time before the target, 'forward' the time after it. */
  datatype CalculationMode = Backward | Forward

  /** The integral part of `x`, rounded toward zero. */
  function Trunc(x: real): (r: int)
    ensures x >= 0.0 ==> 0 <= r && r as real <= x < r as real + 1.0
    ensures x < 0.0 ==> r <= 0 && r as real - 1.0 < x <= r as real
    ensures IsWhole(x) ==> r as real == x
  {
    if x >= 0.0 then
      assert x.Floor as real <= x < x.Floor as real + 1.0;
      x.Floor
    else
      var m := (-x).Floor;
      assert m as real <= -x < m as real + 1.0;
      assert IsWhole(x) ==> -x == (-(x.Floor)) as real;
      -m
  }

  /** The exact instant the source aims at, before truncation to whole milliseconds. */
  function Exact(base: int, ms: real, mode: CalculationMode): real
  {
    if mode == Backward then base as real - ms else base as real + ms
  }

  /** The timestamp that lies `ms` milliseconds before or after `base`. */
  function Shift(base: int, ms: real, mode: CalculationMode): (r: int)
    ensures -1.0 < r as real - Exact(base, ms, mode) < 1.0
    ensures IsWhole(ms) ==> r == (if mode == Backward then base - ms.Floor else base + ms.Floor)
    ensures ms >= 0.0 ==> if mode == Backward then r <= base else base <= r
  {
    Trunc(Exact(base, ms, mode))
  }

  /** Going forward and then backward by the same whole offset returns to the start, and vice versa. */
  lemma RoundTrip(base: int, ms: int)
    ensures Shift(Shift(base, ms as real, Forward), ms as real, Backward) == base
    ensures Shift(Shift(base, ms as real, Backward), ms as real, Forward) == base
  {
  }

  /** A zero offset leaves the timestamp unchanged in both modes. */
  lemma ZeroOffset(base: int, unit: TimeUnit)
    ensures Shift(base, Offset(0.0, unit), Backward) == base
    ensures Shift(base, Offset(0.0, unit), Forward) == base
  {
  }

  /** In exact arithmetic, any amount with at most one decimal shifts and shifts back exactly. */
  lemma TenthStepRoundTrip(base: int, k: int, unit: TimeUnit)
    ensures Shift(Shift(base, Offset(k as real / 10.0, unit), Forward), Offset(k as real / 10.0, unit), Backward) == base
  {
    TenthStepIsWhole(k, unit);
    RoundTrip(base, k * (UnitMilliseconds(unit) / 10));
  }

  /**
   * With a fractional offset truncation loses the round trip: one and a half
   * milliseconds after 1 is 2, and one and a half before 2 is 0.
   */
  lemma FractionalOffsetLosesRoundTrip()
    ensures Shift(1, 1.5, Forward) == 2
    ensures Shift(Shift(1, 1.5, Forward), 1.5, Backward) == 0
  {
  }
}
