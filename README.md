# Mapty workout core in Dafny

Mapty lets a user click a spot on a map, fill in a running or cycling form, and
keep the resulting workouts in a list that is saved in the browser's
localStorage. This project models the part of `script.js` that holds logic:

- the workout records (`Workout`, `Running`, `Cycling`). This covers the id cut
  from the timestamp, the click counter, the description ("Running on March 5")
  and the derived pace or speed (`workout.dfy`, with decimal printing in
  `decimal.dfy`);
- the form checks of `_newWorkout` (`validInputs`, `allPositive`, and which
  fields each kind checks) over JavaScript numbers. A number is finite, NaN,
  +Infinity or -Infinity (`validation.dfy`);
- the `App` state: the `#workouts` list and the `'workouts'` storage entry. The
  model covers creation, lookup by id, deletion with `indexOf`/`splice`, saving
  and loading (`app.dfy`).

`Workout` is a class. Every field is a `const` except `clicks`, which `click()`
increments in place. `App` is a class with a `seq<Workout>` field and an
`Option<seq<WorkoutRecord>>` field for the storage entry. The storage entry
holds value snapshots, the way `JSON.stringify` does. Loading builds fresh
objects from them, the way `JSON.parse` does. `indexOf` compares objects by
reference, as in the source. The clock (`Date.now()`, `getMonth()`,
`getDate()`) and the map coordinate are parameters.

In these places the code does something a reader might not expect, and the
model follows the code:

- Deleting a workout that is not in the list is not a no-op. `indexOf` gives -1
  and `splice(-1, 1)` drops the last workout.
- The storage entry is removed and then immediately rewritten with the remaining
  list before the page reloads.
- Cycling speed is stored as `distance / duration / 60`, not in km/h (see
  Findings).
- Elevation is checked for finiteness only, so 0 and negative values pass.

## Model

| member | source | states |
|---|---|---|
| Decimal.DecimalString | script.js:6 | `n + ''` for a timestamp or day: one or more decimal digits, no leading zero |
| Decimal.DecimalStringValue | script.js:6 | reading the printed digits back gives the number again, so the printing is injective |
| Decimal.LastChars | script.js:6 | `slice(-k)` for k >= 1: the last k characters, or the whole string when it is shorter; its length is min(k, length) |
| Decimal.LastCharsValue | script.js:6 | the last k characters of n's decimal string denote n mod 10^k |
| Workouts.IdFromTimestamp | script.js:6 | the id is the last 10 characters of the timestamp's decimal string, its length is min(10, digits), and it denotes the timestamp mod 10^10 |
| Workouts.IdHasTenDigits | script.js:6 | every timestamp from 10^9 on yields an id of exactly 10 characters |
| Workouts.UpperAscii | script.js:21 | `toUpperCase` on one character maps a-z to A-Z and leaves every other character alone |
| Workouts.Capitalize | script.js:21 | `type[0].toUpperCase() + type.slice(1)`: same length, the first character upper-cased, every later character unchanged |
| Workouts.MonthNamesHaveNoSpace | script.js:19 | none of the twelve month names contains a space |
| Workouts.MonthNamesDistinct | script.js:19 | the twelve month names are pairwise different, so a name gives back its `getMonth()` index |
| Workouts.Describe | script.js:16-24 | the description is "Running on " or "Cycling on ", then the month's name, a space and the day's decimal digits |
| Workouts.CapitalizedTypeNames | script.js:21 | the type names 'running' and 'cycling' capitalise to "Running" and "Cycling" |
| Workouts.DescribeExample | script.js:16-24 | month index 2 and day 5 give "Running on March 5" |
| Workouts.DescribeInjective | script.js:16-24 | the description determines the type, the month index (0 to 11 name January to December) and the day |
| Workouts.Pace | script.js:43-48 | pace times distance is the duration (pace = duration / distance) |
| Workouts.SpeedAsWritten | script.js:62-67 | the stored speed times 60 times the duration is the distance, exactly as written |
| Workouts.SpeedKmh | script.js:64-65 | the km/h speed the comment promises, times the duration in hours, is the distance |
| Workouts.SpeedAsWrittenIsKmhOver3600 | script.js:62-67 | the stored speed is the km/h speed divided by 3600 |
| Workouts.SpeedAsWrittenIsNotKmh | script.js:65 | for every non-zero distance the stored speed differs from the km/h speed |
| Workouts.SpeedExample | script.js:65 | 20 km in 60 min is 20 km/h, but 1/180 is stored |
| Workouts.Workout.Running | script.js:3-49 | a run stores cords, distance, duration and cadence unchanged, pace = duration / distance, the timestamp id, the "Running on …" description and 0 clicks |
| Workouts.Workout.Cycling | script.js:51-68 | a ride stores elevation unchanged, speed = distance / duration / 60, the timestamp id, the "Cycling on …" description and 0 clicks |
| Workouts.Workout.FromRecord | script.js:343-347 | a loaded object holds exactly the stored record |
| Workouts.Workout.Record | script.js:338 | the record `JSON.stringify` writes for a workout holds its id, cords, distance, duration, cadence and pace or elevation and speed, description and clicks |
| Workouts.Workout.Click | script.js:26-28 | clicks rises by exactly 1 and no other field changes |
| Validation.ValidInputs | script.js:167-168 | `every(Number.isFinite)`: true exactly when every input is finite |
| Validation.AllPositive | script.js:170 | `every(inp => inp > 0)`: true exactly when every input is greater than zero, +Infinity included |
| Validation.RunningInputsOk | script.js:182-188 | a run is accepted iff distance, duration and cadence are all finite and > 0 |
| Validation.CyclingInputsOk | script.js:194-200 | a ride is accepted iff distance, duration and elevation are finite and distance and duration are > 0 |
| Validation.CyclingElevationSignUnchecked | script.js:196-199 | the elevation's sign never changes whether a ride is accepted |
| Validation.DistanceBoundary | script.js:184-188 | distance 0, -1 and NaN are refused and 0.001 is accepted |
| Session.SubmissionOk | script.js:182-200 | a submission is accepted exactly when distance and duration are finite and positive and, for a run, the cadence is finite and positive, or, for a ride, the elevation is finite |
| Session.Records | script.js:338 | the stored value has one record per workout, in list order, each equal to that workout's fields |
| Session.FindIndex | script.js:305-307 | `find` by id: the first index whose id matches, or -1 exactly when no workout has that id |
| Session.Find | script.js:305-307 | `find` returns the first workout with that id, or undefined exactly when there is none |
| Session.IndexOf | script.js:329 | `indexOf` returns the first position holding that very object, or -1 exactly when it is absent |
| Session.Splice | script.js:330 | `splice(i, 1)` with 0 <= i < length removes exactly entry i and keeps the others in order; a negative start from -length to -1 removes the entry that many places from the end, so -1 drops the last entry; a start below -length removes the first entry; a start at or past the end, or an empty list, changes nothing |
| Session.IndexOfFind | script.js:305-330 | `indexOf` of the object `find` returned is the index `find` stopped at |
| Session.App.constructor | script.js:88-95 | a new App loads the storage entry when present and otherwise starts empty |
| Session.App.SetLocalStorage | script.js:336-339 | the storage entry becomes the whole list |
| Session.App.GetLocalStorage | script.js:341-351 | an absent entry leaves the list unchanged; otherwise the list becomes fresh objects with the stored records in the stored order |
| Session.App.NewWorkout | script.js:165-218 | a workout is added iff the selected kind's checks pass; a refusal leaves list and entry unchanged; success appends exactly one fresh workout with the constructed fields and then the entry mirrors the list |
| Session.App.Build | script.js:182-203 | builds a run or a ride from the checked field values |
| Session.App.Push | script.js:205-217 | the list gains the workout at its end, earlier records stay, and the entry mirrors the list |
| Session.App.Delete | script.js:327-334 | the list becomes `splice(indexOf(w), 1)` of the old list: one entry fewer if w is present, the last entry dropped if it is not; the entry is rewritten to the new list |
| Session.App.MoveToPopup | script.js:297-325 | a delete click removes the entry `find` resolves, or the last entry when the id is unknown; any other click leaves the state alone and yields that workout's coordinates |
| Session.Reload | script.js:333 | after a change, the reloaded page's list has the same records in the same order |

## Left out

- Leaflet map, markers and popups, list HTML rendering, form show/hide/toggle, `setTimeout`, `alert` and the event-handler binding: display only. `Session.Reload` stands for `location.reload()` only as far as the next page loads the storage entry.
- Geolocation (`navigator.geolocation`): a host callback that only feeds the map.
- The `+input.value` coercion: inputs arrive as `Validation.Number` values. An empty field reads as 0, which is why an empty elevation passes.
- `JSON.stringify` and `JSON.parse`: the entry holds the records themselves. A malformed entry, on which `JSON.parse` throws, is not modelled. Loaded objects are plain objects without the `Workout` prototype; the model rebuilds them as `Workout` objects with the same fields.
- The `date` field (written as an ISO string) and the `deleteButton` DOM field: `date` only feeds the description, which takes the month and day as parameters.
- Id uniqueness: two workouts created in the same millisecond share an id, and nothing here claims otherwise.
- IEEE-754 arithmetic: pace and speed are exact reals. Division by zero (Infinity) is excluded by the constructors' `requires`, because `_newWorkout` always checks positivity first.
- Decimal printing of numbers from 10^21 on, which switches to exponent notation. Timestamps are far below that.
- `toUpperCase` beyond ASCII letters: the two type names are ASCII.
- `toFixed` display formatting and the steps-per-minute figure shown in the list: display only.
- A form type other than 'running' or 'cycling', which would push `undefined`: the form's select offers only those two values.
- `reset()`: not wired to anything in the page.
- `click()` is never called by `App`, because the call is commented out. The model has `Workout.Click`, but `App` does not call it either.
- Session.App.MoveToPopup: a body click on an id that no workout has makes the source throw a TypeError at `workout.cords`. The model returns `UnknownId` instead.

## Findings

| source | as written | input that shows it | evidently intended | confidence | as-written member | corrected member |
|---|---|---|---|---|---|---|
| script.js:65 | `this.speed = this.distance / this.duration / 60` shown with the unit km/h | distance 20 km, duration 60 min gives 1/180 instead of 20 | `distance / (duration / 60)`, km per hour | not executed | Workouts.SpeedAsWrittenIsNotKmh | Workouts.SpeedKmh |

The workout object stores the value the code computes, because that value is
what gets persisted and displayed. `Workouts.SpeedKmh` is the corrected
definition. `Workouts.SpeedAsWrittenIsKmhOver3600` shows that the stored value
is the km/h figure divided by 3600.
