/**
 * The unit switch of the calculator: an amount of minutes, hours, days,
 * weeks, months or years becomes an offset in milliseconds. Months and years
 * are fixed approximations (30.44 and 365.25 days), not calendar arithmetic.
 * Amounts are exact reals here; the source evaluates in IEEE doubles.
 */
module Duration {

  /** The six units the unit selector offers. */
  datatype TimeUnit = Minutes | Hours | Days | Weeks | Months | Years

  /** Milliseconds in one unit: the reference table the switch must agree with. */
  function UnitMilliseconds(unit: TimeUnit): nat
  {
    match unit
    case Minutes => 60_000
    case Hours => 3_600_000
    case Days => 86_400_000
    case Weeks => 604_800_000
    case Months => 2_630_016_000
    case Years => 31_557_600_000
  }

  /** The offset in milliseconds that `amount` units stand for. */
  function Offset(amount: real, unit: TimeUnit): real
  {
    amount * UnitMilliseconds(unit) as real
  }

  /** True when `x` is a whole number of milliseconds. */
  predicate IsWhole(x: real)
  {
    x == x.Floor as real
  }

  /**
   * The switch over the unit that computes `millisecondsToAdd` from the
   * chained factors of each case; it agrees with the reference table.
   */
  method MillisecondsToAdd(amount: real, unit: TimeUnit) returns (ms: real)
    ensures ms == Offset(amount, unit)
    ensures amount >= 0.0 ==> ms >= 0.0
    ensures amount == 0.0 <==> ms == 0.0
  {
    ms := 0.0;
    match unit {
      case Minutes =>
        ms := amount * 60.0 * 1000.0;
      case Hours =>
        ms := amount * 60.0 * 60.0 * 1000.0;
      case Days =>
        ms := amount * 24.0 * 60.0 * 60.0 * 1000.0;
      case Weeks =>
        ms := amount * 7.0 * 24.0 * 60.0 * 60.0 * 1000.0;
      case Months =>
        ms := amount * 30.44 * 24.0 * 60.0 * 60.0 * 1000.0;
      case Years =>
        ms := amount * 365.25 * 24.0 * 60.0 * 60.0 * 1000.0;
    }
  }

  /** Each unit is a whole multiple of the one before it, as the factors in the switch say. */
  lemma UnitsNest()
    ensures UnitMilliseconds(Hours) == 60 * UnitMilliseconds(Minutes)
    ensures UnitMilliseconds(Days) == 24 * UnitMilliseconds(Hours)
    ensures UnitMilliseconds(Weeks) == 7 * UnitMilliseconds(Days)
    ensures UnitMilliseconds(Months) as real == 30.44 * UnitMilliseconds(Days) as real
    ensures UnitMilliseconds(Years) as real == 365.25 * UnitMilliseconds(Days) as real
  {
  }

  /** Offsets add up: `a + b` units are `a` units followed by `b` units. */
  lemma OffsetAdditive(a: real, b: real, unit: TimeUnit)
    ensures Offset(a + b, unit) == Offset(a, unit) + Offset(b, unit)
  {
  }

  /**
   * The amount field's spinner steps by 0.1 (a typed amount may carry more
   * decimals). Every unit is a multiple of 10 ms, so in exact arithmetic any
   * amount with at most one decimal gives a whole number of milliseconds.
   */
  lemma TenthStepIsWhole(k: int, unit: TimeUnit)
    ensures Offset(k as real / 10.0, unit) == (k * (UnitMilliseconds(unit) / 10)) as real
    ensures IsWhole(Offset(k as real / 10.0, unit))
  {
    var c := UnitMilliseconds(unit);
    assert c % 10 == 0;
    var q := c / 10;
    assert c as real == 10.0 * q as real;
    calc {
      Offset(k as real / 10.0, unit);
      (k as real / 10.0) * (10.0 * q as real);
      k as real * q as real;
      (k * q) as real;
    }
  }
}
