# Counter widget state model

A Dafny model of the state manager of a browser counter widget (`app.js`).
The page keeps one record: a running `count`, a `goal`, four presets for the
plus buttons and two for the minus buttons. The model covers how the record
is loaded from storage field by field, how a button click bumps the count and
clamps it into `[0, goal]`, what `render()` puts on screen (the whole
percentage, the button labels, which buttons are disabled) and saves, the
settings-form update rule, the two resets and the start-up goal check.

Modules:

- `Wrappers` (`wrappers.dfy`): `Option`.
- `Decimal` (`decimal.dfy`): the decimal text of an integer, as the page
  writes a number below 10^21 into a button label, with a reader that
  inverts it.
- `Counter` (`counter.dfy`): the pure rules. These are the record and its
  defaults (goal 1000, presets `[5, 10, 15, 20]` and `[-10, -100]`),
  `Clamp`, the percentage, labels, the disabled rules, the goal test and the
  settings-field rules.
- `Storage` (`storage.dfy`): the parsed stored record as a datatype,
  `loadState` as `Load`, `JSON.stringify` as `Encode`, and their round trip.
- `App` (`app.dfy`): the global `state` object as the class `CounterState`,
  whose methods change its fields in place. `Screen` holds the values that
  `render()` writes to the page. The method `Start` is the start-up sequence.

Storage is modelled by the field `CounterState.saved`. `Render` sets it to
the encoding of the current record, and every other handler leaves it alone.
So `ResetDefaults` saves nothing, as on the page, until the next render.

## Model

| member | source | states |
|---|---|---|
| `Counter.DefaultsValid` | app.js:1-6 | The defaults (count 0, goal 1000, plus presets `[5, 10, 15, 20]`, minus presets `[-10, -100]`) form a well-formed record in range, with positive plus presets and negative minus presets. |
| `Counter.GoalReached` | app.js:228 | The goal test `count >= goal`. For a positive goal it fires exactly when `percent()` is 100, so exactly when the bar is full. |
| `Counter.PlusDisabled` | app.js:61 | A disabled plus button has a positive preset. On a count no greater than the goal, its bump would leave the count unchanged. |
| `Counter.MinusDisabled` | app.js:62 | A disabled minus button has a negative preset. On a count that is not negative, the count is 0 and the bump would fall below 0, so the clamp keeps it at 0. |
| `Counter.Clamp` | app.js:29 | The result is at least `lo`. When `lo <= hi` it lies in `[lo, hi]` and equals `n` if `n` is already in range. Below the range it is `lo`, above it is `hi`, and for an empty range it is `lo`. |
| `Counter.ClampReal` | app.js:33 | The clamp of the raw percentage over reals lies in `[lo, hi]` and keeps an in-range value. |
| `Counter.RawPercent` | app.js:31-34 | `percent()` lies in `[0, 100]`. It is 0 for a goal that is not positive, 100 once the count reaches a positive goal, and 0 for a count at or below 0. |
| `Counter.ShownPercent` | app.js:71 | The shown percentage is a whole number in `[0, 100]` and is the floor of `percent()`. |
| `Counter.ShownPercentIsQuotient` | app.js:71 | For a positive goal the shown percentage equals `count * 100 / goal` (whole-number division, so floored, never rounded), clamped into `[0, 100]`. |
| `Counter.ShownPercentExamples` | app.js:71 | 333 of 1000 shows 33, 999 of 1000 shows 99, and 2000 of 1000 shows 100. |
| `Counter.ShownPercentMonotone` | app.js:71 | For a fixed positive goal, a larger count never shows a smaller percentage. |
| `Counter.ShownPercentFull` | app.js:31-34 | For a positive goal the screen shows 100 exactly when `count >= goal`, the goal-reached test. |
| `Counter.Label` | app.js:56-57 | A button label starts with `+` for a preset of 0 or more and with `-` otherwise, followed by at least one digit. |
| `Counter.LabelRoundTrip` | app.js:56-57 | Reading a label back as a signed decimal gives the preset it was made from. |
| `Decimal.NatToString` | app.js:56 | The decimal text of a non-negative number is a non-empty run of digits with no leading zero, except for 0 itself. |
| `Decimal.IntToString` | app.js:56-57 | The decimal text starts with `-` exactly for negative numbers. For others it is all digits. |
| `Decimal.NatToStringValue` | app.js:56 | The digits written for `n` denote `n`. |
| `Decimal.IntToStringRoundTrip` | app.js:56-57 | Reading back the decimal text of any integer gives that integer. |
| `Counter.BumpInRange` | app.js:82-86 | For a positive goal, the clamped count after any delta lies in `[0, goal]`, and a second clamp, as render does, leaves it unchanged. |
| `Counter.DisabledMeansNoOp` | app.js:61-62 | For an in-range count, a disabled button's bump would leave the count unchanged. For a positive plus preset or a negative minus preset, being disabled is exactly that. |
| `Counter.PlusDisabledAtGoal` | app.js:61 | After render, a positive plus preset is disabled exactly when `count == goal`. Any decrement from an in-range count enables it again. |
| `Counter.GoalReachedStable` | app.js:228-243 | For a positive goal, the goal test gives the same answer before and after the count is clamped into `[0, goal]`. |
| `Counter.PresetFromInput` | app.js:149-150 | A finite preset field becomes its floor, and a non-finite field becomes 0. |
| `Counter.PresetsFromInputs` | app.js:149-150 | A row of preset fields keeps its length, and each entry follows the preset-field rule. |
| `Counter.SettingsGoalAsWritten` | app.js:148 | As written, a finite goal field above 0 replaces the goal by its floor, and anything else leaves the goal unchanged. |
| `Counter.SettingsGoalAsWrittenReachesZero` | app.js:148 | As written, a goal field of 0.5 stores a goal of 0. |
| `Counter.SettingsGoal` | app.js:148 | With the correction, a positive goal stays positive. A field of 1 or more replaces the goal by its floor, and anything else leaves the goal unchanged. |
| `Counter.SettingsGoalAgrees` | app.js:148 | The corrected and as-written goal rules agree on every field that does not lie strictly between 0 and 1. |
| `Storage.Load` | app.js:8-21 | The loaded record always has a positive goal, 4 plus presets and 2 minus presets. Missing storage, unparseable text, or a root that is not an object all give exactly the defaults. |
| `Storage.LoadPerField` | app.js:14-19 | Each loaded field is the stored one when it passes its own check and the default otherwise. The checks are: a number for `count`; a number above 0 for `goal`; an array of length 4 for `plus` and of length 2 for `minus`. |
| `Storage.LoadFieldsIndependent` | app.js:14-19 | Two stored records that agree on one key load to the same value for that field, whatever the other keys hold. |
| `Storage.LoadKeepsValidMinus` | app.js:17-18 | A `plus` field that is not an array falls back to the default presets, while a valid `minus` field beside it is kept. |
| `Storage.Encode` | app.js:25-27 | `saveState` writes an object with exactly the keys `count`, `goal`, `plus` and `minus`, each holding its field of the record. |
| `Storage.LoadEncode` | app.js:25-27 | Loading what `saveState` wrote gives back the same record, for every record with a positive goal and 4 and 2 presets. |
| `Storage.LoadSaveLoad` | app.js:8-27 | Saving a loaded record and loading it again gives the same record. |
| `App.CounterState.constructor` | app.js:23 | The in-memory record is `Load` of what storage holds, and storage is unchanged. |
| `App.WriteRow` | app.js:56-62 | The `forEach` over a row of buttons: afterwards button `i` holds value `i` of the row, for every button. |
| `App.CounterState.UpdateButtonLabels` | app.js:55-58 | Every plus and minus button shows the label of its preset. |
| `App.CounterState.SetButtonDisabledStates` | app.js:60-63 | Plus button `i` is disabled exactly when `plus[i] > 0 && count >= goal`. Minus button `i` is disabled exactly when `minus[i] < 0 && count <= 0`. |
| `App.CounterState.Render` | app.js:65-80 | The count becomes `Clamp(count, 0, goal)`, so it is in range, and a count already in range is kept. Goal and presets are unchanged. The screen shows the record (`Shows`): count and goal texts, the shown percentage, every label and every disabled flag. Storage now holds the record, and loading it gives the record back. |
| `App.CounterState.Bump` | app.js:82-86 | The count becomes `Clamp(old count + delta, 0, goal)` and lies in `[0, goal]`. Goal and presets are unchanged. The screen shows the new record (`Shows`), and storage holds it. |
| `App.CounterState.PressPlus` | app.js:89 | A plus button that the screen shows disabled takes no click: record, storage and screen stay unchanged. Any other click bumps by `plus[i]`, and afterwards the screen shows the record and storage holds it. When the screen was up to date and the count in range, the count ends at `Clamp(old count + plus[i], 0, goal)` either way. |
| `App.CounterState.PressMinus` | app.js:90 | A minus button that the screen shows disabled takes no click: record, storage and screen stay unchanged. Any other click bumps by `minus[i]`, and afterwards the screen shows the record and storage holds it. When the screen was up to date and the count in range, the count ends at `Clamp(old count + minus[i], 0, goal)` either way. |
| `App.CounterState.ApplySettings` | app.js:138-154 | The goal follows the corrected goal rule, and the presets follow the preset-field rule. The count is clamped against the new goal by the render that follows. The screen then shows the new record (`Shows`: percentage, labels, disabled flags), and storage holds it. |
| `App.CounterState.ResetDefaults` | app.js:159-171 | Goal and presets take their default values. The count and storage are left unchanged, so the count may exceed the goal until the next render. |
| `App.CounterState.ResetCounter` | app.js:172 | The count becomes 0, and the goal and presets are unchanged. The screen shows the record (`Shows`), including 0 percent, and storage holds it. |
| `App.CounterState.Start` | app.js:227-243 | Start-up schedules two celebrations with their resets when the loaded count is at or above the goal, and none otherwise. The first render clamps the count, the screen then shows the record (`Shows`), and storage holds it. |

## Findings

| source | as written | input that shows it | evidently intended | confidence | as-written member | corrected member |
|---|---|---|---|---|---|---|
| app.js:148 | The goal field is accepted when it is finite and above 0, and only then floored. A value strictly between 0 and 1 passes the check and becomes a goal of 0. | goal field 0.5 with the current goal 1000 | the goal stays positive. A value whose floor is 0 is ignored, like any other invalid goal. | high, not executed | `Counter.SettingsGoalAsWrittenReachesZero` | `Counter.SettingsGoal` |

With a goal of 0, the page renders the count as 0 and disables every positive
plus button. Reloading then replaces the stored goal of 0 with the default.
`App.CounterState.ApplySettings` uses the corrected rule.

## Left out

- Numbers are exact integers, so IEEE-754 effects are not modelled. This covers NaN and infinite counts, fractional counts or goals read from storage, and rounding in `count / goal * 100`. A preset of 10^21 or more in magnitude is written by the page in exponent form (`1e+21`); `Counter.Label` writes all its digits. Settings fields are exact reals or "not finite", and `Math.floor` is the floor of a real.
- `Storage.Value`: an element of a stored preset array is the integer that `Number()` makes of it. An element that `Number()` turns into NaN or a fraction is not modelled. In the source such a preset would show as `NaN` and would make the count NaN when clicked.
- `localStorage` and `JSON.parse`/`JSON.stringify` are foreign calls. The parsed text is the input datatype `Storage.Stored`, and the save is the field `saved`, set to `Encode` of the record.
- DOM wiring, `toLocaleString('nl-BE')` grouping, the progress bar's width style and ARIA attribute, the settings drawer (app.js:101-135), keyboard shortcuts (app.js:92-99) and filling the form fields after a reset (app.js:163-170) are UI plumbing. `Screen` keeps the numbers shown, the percentage once for its four uses, and the labels and disabled flags. The keyboard's +1 and -1 are `Bump(1)` and `Bump(-1)`.
- The confetti animation (app.js:176-225) is left out. It is canvas drawing with random values, floating-point motion and frame scheduling.
- The 4000 ms timer of the celebration (app.js:231, 237) and its race with clicks are asynchronous. `Start` returns how many resets were scheduled. When each one fires it does what `ResetCounter` does.
- `App.CounterState.ApplySettings`: for a goal field strictly between 0 and 1, the method keeps the old goal, while the source stores 0 (see Findings).
