/**
 * The calculator form: the component's state fields and the handlers that
 * change them. A rejected calculation stands for the alert the page shows
 * and leaves every field as it was.
 */
module Calculator {
  import opened Wrappers
  import opened Duration
  import opened TimeShift
  import opened Display

  /**
   * What the last successful calculation shows. The two instants are kept
   * as their local calendar fields together with the language of the
   * calculation; `Target()` and `Result()` are the strings displayed.
   */
  datatype TimeResult = TimeResult(
    targetFields: LocalFields, resultFields: LocalFields, lang: Language,
    amount: real, unit: string, mode: CalculationMode)
  {
    function Target(): DisplayFields
    {
      FormatDateTime(targetFields, lang)
    }

    function Result(): DisplayFields
    {
      FormatDateTime(resultFields, lang)
    }
  }

  /** Why a calculation was refused. */
  datatype Rejection = MissingTarget | InvalidAmount

  datatype Outcome = Calculated | Rejected(reason: Rejection)

  /** The other language of the switch. */
  function Toggled(lang: Language): (r: Language)
    ensures r != lang
  {
    if lang == En then Zh else En
  }

  /** Switching the language twice returns to the language one started from. */
  lemma ToggleInvolution(lang: Language)
    ensures Toggled(Toggled(lang)) == lang
  {
  }

  /**
   * The target a reset puts in the date-time field: the current time cut
   * down to the whole minute, the precision of a local date-time field.
   * `now` is an instant in milliseconds; the zone offset is a whole number
   * of minutes, so cutting the local reading and reading it back as local
   * time lands on the same instant as cutting `now` itself.
   */
  function MinuteFloor(now: int): (r: int)
    ensures r % UnitMilliseconds(Minutes) == 0
    ensures r <= now < r + UnitMilliseconds(Minutes)
  {
    now - now % 60000
  }

  /** A time already on a whole minute is left as it is, so a reset is stable. */
  lemma MinuteFloorIdempotent(now: int)
    ensures MinuteFloor(MinuteFloor(now)) == MinuteFloor(now)
  {
  }

  /** The six quick buttons, in screen order: 1 hour, 1 day, 2 days, 1 week, 1 month, 1 year. */
  const QuickPresets: seq<(real, TimeUnit)> :=
    [(1.0, Hours), (24.0, Hours), (48.0, Hours), (1.0, Weeks), (1.0, Months), (1.0, Years)]

  /** Each quick button shifts by the span its label names. */
  lemma QuickPresetsMatchLabels()
    ensures |QuickPresets| == 6
    ensures Offset(QuickPresets[0].0, QuickPresets[0].1) == UnitMilliseconds(Hours) as real
    ensures Offset(QuickPresets[1].0, QuickPresets[1].1) == UnitMilliseconds(Days) as real
    ensures Offset(QuickPresets[2].0, QuickPresets[2].1) == 2.0 * UnitMilliseconds(Days) as real
    ensures Offset(QuickPresets[3].0, QuickPresets[3].1) == UnitMilliseconds(Weeks) as real
    ensures Offset(QuickPresets[4].0, QuickPresets[4].1) == UnitMilliseconds(Months) as real
    ensures Offset(QuickPresets[5].0, QuickPresets[5].1) == UnitMilliseconds(Years) as real
  {
    UnitsNest();
  }

  class TimeCalculator {
    var mode: CalculationMode
    var language: Language
    /** The instant, in milliseconds, that the date-time field denotes; `None` when the field is empty. */
    var targetDateTime: Option<int>
    /** The parsed time amount; `None` when the field is empty. */
    var timeAmount: Option<real>
    var timeUnit: TimeUnit
    var result: Option<TimeResult>
    var showResult: bool

    /** A result is shown exactly when there is one, and its amount was accepted as non-negative. */
    ghost predicate Valid()
      reads this
    {
      showResult == result.Some? && (result.Some? ==> result.value.amount >= 0.0)
    }

    /** The initial state of the component. */
    constructor ()
      ensures Valid()
      ensures mode == Backward && language == En && targetDateTime == None && timeAmount == None
      ensures timeUnit == Hours && result == None && !showResult
    {
      mode := Backward;
      language := En;
      targetDateTime := None;
      timeAmount := None;
      timeUnit := Hours;
      result := None;
      showResult := false;
    }

    /**
     * Validates the form, converts the amount, shifts the target and stores
     * both renderings. `localFields` gives a timestamp's calendar fields in
     * the host's time zone.
     */
    method CalculateTime(localFields: int -> LocalFields) returns (outcome: Outcome)
      requires Valid()
      modifies this
      ensures Valid()
      ensures mode == old(mode) && language == old(language) && targetDateTime == old(targetDateTime)
      ensures timeAmount == old(timeAmount) && timeUnit == old(timeUnit)
      ensures outcome == Calculated <==>
        targetDateTime.Some? && timeAmount.Some? && timeAmount.value >= 0.0
      ensures targetDateTime.None? ==> outcome == Rejected(MissingTarget)
      ensures targetDateTime.Some? && (timeAmount.None? || timeAmount.value < 0.0) ==>
        outcome == Rejected(InvalidAmount)
      ensures outcome.Rejected? ==> result == old(result) && showResult == old(showResult)
      ensures outcome == Calculated ==> showResult && result == Some(TimeResult(
        localFields(targetDateTime.value),
        localFields(Shift(targetDateTime.value, Offset(timeAmount.value, timeUnit), mode)),
        language,
        timeAmount.value,
        UnitLabel(language, timeUnit),
        mode))
    {
      if targetDateTime.None? {
        return Rejected(MissingTarget);
      }
      if timeAmount.None? || timeAmount.value < 0.0 {
        return Rejected(InvalidAmount);
      }
      var target := targetDateTime.value;
      var amount := timeAmount.value;
      var ms := MillisecondsToAdd(amount, timeUnit);
      var resultDate := Shift(target, ms, mode);
      result := Some(TimeResult(localFields(target), localFields(resultDate), language,
                                amount, UnitLabel(language, timeUnit), mode));
      showResult := true;
      outcome := Calculated;
    }

    /** On mount the date-time field is set to the current minute; `now` is the clock's instant. */
    method Mount(now: int)
      requires Valid()
      modifies this`targetDateTime
      ensures Valid()
      ensures targetDateTime == Some(MinuteFloor(now))
    {
      targetDateTime := Some(MinuteFloor(now));
    }

    /**
     * Puts the current minute back in the date-time field, empties the
     * amount, resets the unit and hides the result; `now` is the clock's instant.
     */
    method ClearAll(now: int)
      requires Valid()
      modifies this
      ensures Valid()
      ensures targetDateTime == Some(MinuteFloor(now)) && timeAmount == None && timeUnit == Hours
      ensures result == None && !showResult
      ensures mode == old(mode) && language == old(language)
    {
      targetDateTime := Some(MinuteFloor(now));
      timeAmount := None;
      timeUnit := Hours;
      result := None;
      showResult := false;
    }

    /** A quick button: fills in the amount and the unit and nothing else. */
    method SetQuickTime(amount: real, unit: TimeUnit)
      requires Valid()
      modifies this`timeAmount, this`timeUnit
      ensures Valid()
      ensures timeAmount == Some(amount) && timeUnit == unit
    {
      timeAmount := Some(amount);
      timeUnit := unit;
    }

    /** The quick button at `index` on the screen. */
    method PressQuick(index: nat)
      requires Valid()
      requires index < |QuickPresets|
      modifies this`timeAmount, this`timeUnit
      ensures Valid()
      ensures timeAmount == Some(QuickPresets[index].0) && timeUnit == QuickPresets[index].1
    {
      var (amount, unit) := QuickPresets[index];
      SetQuickTime(amount, unit);
    }

    /** Typing in the date-time field; `None` when it is emptied. */
    method SetTargetDateTime(t: Option<int>)
      requires Valid()
      modifies this`targetDateTime
      ensures Valid()
      ensures targetDateTime == t
    {
      targetDateTime := t;
    }

    /** Typing in the amount field; `None` when it is emptied or holds no number. */
    method SetTimeAmount(a: Option<real>)
      requires Valid()
      modifies this`timeAmount
      ensures Valid()
      ensures timeAmount == a
    {
      timeAmount := a;
    }

    /** Choosing a unit in the selector. */
    method SetTimeUnit(u: TimeUnit)
      requires Valid()
      modifies this`timeUnit
      ensures Valid()
      ensures timeUnit == u
    {
      timeUnit := u;
    }

    /** The language switch. */
    method ToggleLanguage()
      requires Valid()
      modifies this`language
      ensures Valid()
      ensures language == Toggled(old(language))
    {
      language := Toggled(language);
    }

    /** The two mode buttons. */
    method SetMode(m: CalculationMode)
      requires Valid()
      modifies this`mode
      ensures Valid()
      ensures mode == m
    {
      mode := m;
    }

    /** Pressing Enter in an input calculates; any other key changes nothing. */
    method HandleKeyPress(key: string, localFields: int -> LocalFields) returns (outcome: Option<Outcome>)
      requires Valid()
      modifies this
      ensures Valid()
      ensures key != "Enter" ==> outcome == None && unchanged(this)
      ensures key == "Enter" ==> outcome.Some?
      ensures mode == old(mode) && language == old(language) && targetDateTime == old(targetDateTime)
      ensures timeAmount == old(timeAmount) && timeUnit == old(timeUnit)
      ensures key == "Enter" ==>
        (outcome.value == Calculated <==> targetDateTime.Some? && timeAmount.Some? && timeAmount.value >= 0.0)
      ensures key == "Enter" && targetDateTime.None? ==> outcome.value == Rejected(MissingTarget)
      ensures key == "Enter" && targetDateTime.Some? && (timeAmount.None? || timeAmount.value < 0.0) ==>
        outcome.value == Rejected(InvalidAmount)
      ensures key == "Enter" && outcome.value.Rejected? ==> result == old(result) && showResult == old(showResult)
      ensures key == "Enter" && outcome.value == Calculated ==> showResult && result == Some(TimeResult(
        localFields(targetDateTime.value),
        localFields(Shift(targetDateTime.value, Offset(timeAmount.value, timeUnit), mode)),
        language,
        timeAmount.value,
        UnitLabel(language, timeUnit),
        mode))
    {
      if key == "Enter" {
        var o := CalculateTime(localFields);
        outcome := Some(o);
      } else {
        outcome := None;
      }
    }
  }
}
