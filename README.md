# Time calculator — Dafny model

This is a model of the `TimeCalculator` component of a small Next.js page. The component
takes a target date-time, an amount and a unit (minutes, hours, days, weeks, months,
years). It computes the instant that lies that amount before ("Time Ago", mode
`backward`) or after ("Time After", mode `forward`) the target, and shows both instants
in English or Chinese.

The project has six modules:

- `Wrappers`: `Option`. An empty form field is `None`.
- `Duration`: the unit switch.
  - An amount becomes milliseconds through fixed factors.
  - A month is 30.44 days and a year is 365.25 days.
  - It is proved against a reference table of per-unit milliseconds.
- `TimeShift`: subtracting or adding the offset.
  - A date built from a fractional millisecond value keeps its integral part, truncated toward zero.
  - The round trip is proved for whole offsets.
  - In exact arithmetic, any amount with at most one decimal gives a whole offset. These are the amounts the field's spinner produces, since it steps by `0.1`. The source multiplies in doubles, where this does not hold (see "## Left out").
  - A typed amount may carry more decimals: `step="0.1"` only flags a mismatch, and nothing blocks the calculation. Such an amount can give a fractional offset, and a lemma shows that the round trip then fails.
- `Decimal`:
  - `String(n)` for integers.
  - `padStart(2, '0')`.
  - Reading digit strings back, which shows that the rendering loses nothing.
- `Display`: the formatter that renders a timestamp's local calendar fields.
  - It produces `full`, `date`, `time` and `weekday`.
  - It holds the per-language weekday and unit-label tables.
  - The formatter's contract states that `full`, `date` and `time` each decode back to the fields they came from, in the layout of the language. Lemmas state the rest of each string's layout.
- `Calculator`: the component itself, as the class `TimeCalculator`.
  - Its fields are the `useState` fields.
  - Its methods are the handlers: calculate, clear, quick buttons, language switch, mode buttons and Enter key.

Three modelling choices:

- **Target field.** The date-time field holds the instant it denotes, in milliseconds, or
  `None` when it is empty.
- **Amount field.** The amount field holds its parsed value as an exact real, or `None` when
  it is empty. A `type="number"` input reports an empty value for text that is not a
  number.
- **Time zone.** The host time zone is a parameter, `localFields: int -> LocalFields`. It gives
  the local calendar fields of an instant, the way the date object's getters report them.

A stored `TimeResult` keeps the local calendar fields of the target and of the result,
together with the language they were shown in. `TimeResult.Target()` and
`TimeResult.Result()` give the four display strings. Formatting is a pure function of
these fields, so the strings are the ones the component stores.

The month constant follows the code: 30.44 × 86 400 000 = 2 630 016 000 ms.

## Model

| member | source | states |
|---|---|---|
| `Duration.MillisecondsToAdd` | src/app/page.tsx:144-166 | The switch's chained factors give exactly amount × the unit's milliseconds. A non-negative amount gives a non-negative offset, and only a zero amount gives a zero offset. |
| `Duration.UnitsNest` | src/app/page.tsx:147-166 | The six constants nest as the factors say: hour = 60 min, day = 24 h, week = 7 days, month = 30.44 days, year = 365.25 days. |
| `Duration.OffsetAdditive` | src/app/page.tsx:147-166 | The conversion is linear in the amount: a + b units give the sum of the two offsets. |
| `Duration.TenthStepIsWhole` | src/app/page.tsx:144-166 | In exact arithmetic, every amount k/10 gives a whole number of milliseconds, k × (unit / 10), in every unit. |
| `TimeShift.Trunc` | src/app/page.tsx:169-170 | A date built from a fractional value keeps the integral part toward zero. The result is within 1 of the input on the side of zero, and it is the input itself when the input is whole. |
| `TimeShift.Shift` | src/app/page.tsx:168-170 | `backward` gives base − ms and `forward` gives base + ms, to within one millisecond, and exactly when ms is whole. A non-negative offset never moves the wrong way. |
| `TimeShift.RoundTrip` | src/app/page.tsx:168-170 | Forward then backward by the same whole offset returns the base, and so does backward then forward. |
| `TimeShift.ZeroOffset` | src/app/page.tsx:168-170 | A zero amount leaves the timestamp unchanged in both modes and every unit. |
| `TimeShift.TenthStepRoundTrip` | src/app/page.tsx:144-170 | In exact arithmetic, any amount with at most one decimal converts and shifts forward then back to exactly the base. |
| `TimeShift.FractionalOffsetLosesRoundTrip` | src/app/page.tsx:168-170 | With a 1.5 ms offset the round trip from 1 ends at 0, so the whole-offset condition of `RoundTrip` is needed. |
| `Decimal.NatString` | src/app/page.tsx:113-117 | `String(n)` is a non-empty run of digits with no leading zero. It has one digit exactly below 10, and two exactly from 10 to 99. |
| `Decimal.IntString` | src/app/page.tsx:112 | `String(year)` is digits, led by a minus sign for a negative year. |
| `Decimal.NatStringRoundTrip` | src/app/page.tsx:113-117 | Reading `String(n)` back as decimal gives n. |
| `Decimal.IntStringShape` | src/app/page.tsx:112 | A rendered year is one or more digits with no leading zero (other than `0` itself), optionally led by a minus sign before a non-zero digit. This is the shape the date decoders require of the year. |
| `Decimal.IntStringRoundTrip` | src/app/page.tsx:112 | Reading the rendered year back gives the year. |
| `Decimal.PadStart` | src/app/page.tsx:113-117 | `padStart` leaves a string of at least the width alone. Otherwise it reaches exactly the width. The original string is the suffix, and everything before it is the fill. |
| `Decimal.TwoDigits` | src/app/page.tsx:113-117 | A field below 100 is rendered as exactly two digits whose value is the field. Below 10 it starts with `0`. From 10 up it is `String(n)` unchanged. |
| `Display.Weekdays` | src/app/page.tsx:52 | Each language's weekday table has seven entries, and the first is Sunday / 星期日 (also line 82). |
| `Display.UnitLabelsDistinct` | src/app/page.tsx:39-46 | The `timeUnits` table gives the six units six different labels in each language (also lines 69-76), so the unit label stored at line 176 names the unit. |
| `Display.FormatDateTime` | src/app/page.tsx:111-129 | `full` decodes to the day and the time of day. `date` decodes to (year, month + 1, day). `time` decodes to (hours, minutes, seconds). Each uses its language's layout at lines 122-126. The decoders accept only two-digit month, day and time fields, and a year that is unpadded digits after an optional minus sign, exactly as `String(year)` renders it. |
| `Display.TimeStringLayout` | src/app/page.tsx:115-117 | The `HH:MM:SS` string is eight characters and reads back as the hour, minute and second. |
| `Display.DecodeEnDate` | src/app/page.tsx:125 | Two two-digit fields and a year joined as `MM/DD/YYYY` decode back to their values. |
| `Display.DecodeZhDate` | src/app/page.tsx:125 | A year and two two-digit fields joined as `YYYY-MM-DD` decode back to their values. |
| `Display.DateStringLayout` | src/app/page.tsx:112-114 | The date string of either language decodes to the year, the one-based month and the day. |
| `Display.SameDay` | src/app/page.tsx:125 | The English and the Chinese date of one timestamp decode to the same calendar day. |
| `Display.DecodeZhHeadingOf` | src/app/page.tsx:124 | A year and two two-digit fields joined as `Y年MM月DD日` decode back to their values. |
| `Display.ZhHeadingLayout` | src/app/page.tsx:124 | The Chinese `Y年MM月DD日` heading reads back as the year, the one-based month and the day. |
| `Display.HeadingLayout` | src/app/page.tsx:122-124 | The part of `full` before the time decodes to (year, month + 1, day) in both languages. |
| `Display.SplitFull` | src/app/page.tsx:122-124 | A heading, a space and an eight-character time split back into the heading and the time. |
| `Display.FullStringLayout` | src/app/page.tsx:122-124 | The full string of either language decodes to the calendar day and the time of day. |
| `Display.EndsWithTime` | src/app/page.tsx:122-124 | A heading, a space and a time: the time is exactly the tail, preceded by the space. |
| `Display.FullLayout` | src/app/page.tsx:122-124 | `full` ends with a space and then exactly `time`. In English `full` is `date + " " + time`. The Chinese `YYYY年MM月DD日` heading is stated by `FormatDateTime`'s decoding clause. |
| `Display.WeekdaysDistinct` | src/app/page.tsx:82 | No two weekdays share a name, in either language (also line 52). |
| `Display.WeekdayName` | src/app/page.tsx:119 | `weekday` is the table entry at the weekday index, and two timestamps show the same name exactly when they fall on the same weekday. |
| `Calculator.Toggled` | src/app/page.tsx:202 | The language switch always lands on the other language. |
| `Calculator.ToggleInvolution` | src/app/page.tsx:201-203 | Switching the language twice returns to the start. |
| `Calculator.MinuteFloor` | src/app/page.tsx:185-189 | The reset target is on a whole minute, at most one minute before the current instant and not after it. |
| `Calculator.MinuteFloorIdempotent` | src/app/page.tsx:185-189 | Cutting a time that is already a whole minute leaves it as it is. |
| `Calculator.QuickPresetsMatchLabels` | src/app/page.tsx:273-278 | The six quick buttons shift by 1 hour, 1 day, 2 days, 1 week, 1 month and 1 year, as their labels say (labels at line 47). |
| `Calculator.TimeCalculator.constructor` | src/app/page.tsx:92-98 | The initial state: backward, English, both fields empty, hours, no result, nothing shown. |
| `Calculator.TimeCalculator.CalculateTime` | src/app/page.tsx:131-182 | An empty target is rejected first. Then an empty or negative amount is rejected. A rejection changes no field. Otherwise the calculation stores the target's fields, the shifted instant's fields, the language, the amount, the language's unit label and the mode, and shows the result. Form fields, mode and language never change. |
| `Calculator.TimeCalculator.Mount` | src/app/page.tsx:103-109 | On mount the date-time field becomes the current minute and nothing else changes. |
| `Calculator.TimeCalculator.ClearAll` | src/app/page.tsx:184-194 | The date-time becomes the current minute, the amount is emptied, the unit is hours and the result is cleared and hidden. Mode and language are kept. |
| `Calculator.TimeCalculator.SetQuickTime` | src/app/page.tsx:196-199 | Only the amount and the unit change, to the given values. |
| `Calculator.TimeCalculator.PressQuick` | src/app/page.tsx:271-289 | A quick button sets the amount and the unit of its preset and nothing else. |
| `Calculator.TimeCalculator.SetTargetDateTime` | src/app/page.tsx:242 | Editing the date-time field changes only that field. |
| `Calculator.TimeCalculator.SetTimeAmount` | src/app/page.tsx:257 | Editing the amount field changes only that field. A negative amount can be entered, because it is refused only when calculating. |
| `Calculator.TimeCalculator.SetTimeUnit` | src/app/page.tsx:262 | Choosing a unit changes only the unit. |
| `Calculator.TimeCalculator.ToggleLanguage` | src/app/page.tsx:201-203 | Only the language changes, to the other one. |
| `Calculator.TimeCalculator.SetMode` | src/app/page.tsx:222-233 | The mode buttons change only the mode. |
| `Calculator.TimeCalculator.HandleKeyPress` | src/app/page.tsx:205-209 | Enter has exactly the effect of `CalculateTime`: the same two rejections in the same order, no change on rejection, and the same stored result and shown flag on success. Form fields, mode and language are kept. Any other key changes nothing. |

Each method keeps the class invariant `Valid()`: a result is shown exactly when one is
stored, and a stored amount is never negative.

## Left out

- Parsing the `datetime-local` string (`new Date(targetDateTime)`, line 142). The field holds the instant it denotes.
- Decomposing an instant into local calendar fields (`getFullYear` … `getDay`). This depends on the host's time zone database, so it is the `localFields` parameter. Its results satisfy the field ranges (`LocalFields`).
- The clock (`new Date()` at lines 104 and 185). It is the `now` parameter.
- `Calculator.MinuteFloor`: assumes a zone offset that is a whole number of minutes and constant around `now`. It does not model a reset that lands in a daylight-saving gap or overlap.
- IEEE-754 doubles. Amounts and offsets are exact reals, so the rounding of each left-to-right product in lines 149-164 is not modelled, in any unit.
- `Duration.TenthStepIsWhole`: holds only in exact arithmetic. In binary64, many one-decimal amounts give an offset that is not whole, in every unit. For example, 4.1 minutes is 245 999.99999999997 ms and 0.1 day is 8 640 000.000000002 ms. The "1 Month" preset's `1*30.44*24*60*60*1000` is 2 630 016 000.0000005.
- `TimeShift.TenthStepRoundTrip`: holds only in exact arithmetic. In the source, the round trip can end 1 ms early. For example, 30.3 years forward from 1 735 138 800 000 gives 2 691 334 080 000, a whole minute. Going 30.3 years back from there gives 1 735 138 799 999.9998, which truncates to 1 735 138 799 999 and shows as `…:59` seconds.
- The date range limit of ±8.64 × 10^15 ms, beyond which a date is invalid.
- `NaN` from `parseFloat`. With a `type="number"` input, text that is not a number arrives as an empty string, which the model's `None` covers.
- `TimeShift.Shift`: states the truncation of the exact instant, but not the double rounding of `targetDate.getTime() ± millisecondsToAdd` before the date is built.
- The `alert` dialogs of the two rejections. They are the `Rejected` outcome.
- React rendering: the result panel, CSS classes, example text, translation strings other than weekdays and unit labels, and `src/app/layout.tsx`.
- `Calculator.TimeCalculator.CalculateTime`: the stored result keeps the calendar fields and the language rather than the four rendered strings. The strings are `TimeResult.Target()` and `TimeResult.Result()`, and the `Display` lemmas state their shapes.
