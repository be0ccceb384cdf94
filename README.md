# Mapty workout model

A Dafny model of the workout logic of Mapty, a browser app in which a user
clicks a point on a map, fills in a form, and gets a running or cycling
workout record shown on the map and in a list. Everything in `script.js`
that is not map, DOM or browser wiring is modelled:

- the `Workout`, `Running` and `Cycling` constructors and their derived
  fields: the pace of a run (`duration / distance`), the speed of a ride
  (`distance / (duration / 60)`) and the description
  ("Running on April 14");
- the acceptance rule of the form handler `_newWorkout`, built from the
  helpers `isNumber` (`Number.isFinite` for every input) and `isPositive`
  (`> 0` for every input);
- the app's private `#workouts` list: filled from storage at start-up,
  appended to by an accepted form, and searched by id with `Array.find`.

Files and modules:

- `wrappers.dfy` (`Wrappers`): `Option`, for `null`/`undefined` results.
- `js_numbers.dfy` (`JsNumbers`): a form value after the unary `+` is a
  finite number, NaN, or an infinity; `Every`, `IsNumber`, `IsPositive`.
- `text.dfy` (`Text`): capitalising the first letter, and the decimal form
  of the day of the month with its inverse.
- `calendar.dfy` (`Calendar`): the month-name table and the month and day
  read from the creation date.
- `workouts.dfy` (`Workouts`): the workout datatype (one variant per
  subclass), pace, speed, description, the constructors, the validation
  rule and the invariant every accepted workout satisfies.
- `app.dfy` (`WorkoutList`): `Find`, and the class `App` holding
  `workouts: seq<Workout>` with `NewWorkout`, `Append` and `FindById`.
- `scenarios.dfy` (`WorkoutExamples`): concrete inputs and a session.

Modelling choices:

- A workout object is never changed after its constructor returns, so a
  workout is a datatype value and each constructor is a function. The
  `App` object changes its list in place, so it is a class whose methods
  reassign the `workouts` field.
- JavaScript doubles are abstracted to `real`: pace and speed are exact
  quotients. The model does not claim bit-exact floating-point results.
- The clock is a parameter: the id string and the creation date's month
  index (0 to 11) and day of the month (1 to 31) are passed in.
- The workout `type` is a closed two-value type, `Running | Cycling`.
- Restoring from storage assigns the parsed value unchecked whenever it is
  truthy (`script.js:309-316`). The model takes the stored list as an
  `Option<seq<Workout>>`: `None` for a falsy parse result.
- The month names come from the fixed English table at `script.js:23`.
- The cycling branch checks that elevation is finite (`script.js:189`)
  but never checks its sign.
- `reset()` removes the stored item and reloads the page, which is the
  same as constructing `App` with nothing stored.

## Model

| member | source | states |
|---|---|---|
| `JsNumbers.JsNumber.IsFinite` | script.js:155 | `Number.isFinite` is false for exactly NaN and the two infinities |
| `JsNumbers.JsNumber.GreaterThanZero` | script.js:157 | `i > 0` is the real comparison on a finite value, true for +Infinity and false for NaN and -Infinity |
| `JsNumbers.Every` | script.js:155-157 | `every` holds exactly when the predicate holds of each element |
| `JsNumbers.IsNumber` | script.js:155 | `isNumber` holds exactly when every input is finite (not NaN, not an infinity) |
| `JsNumbers.IsPositive` | script.js:157 | `isPositive` holds exactly when every input compares greater than zero |
| `JsNumbers.NumberAndPositive` | script.js:174-177 | the two guards together pass exactly the inputs that are finite and strictly positive |
| `Text.UpperAscii` | script.js:25 | `toUpperCase` maps a lower-case ASCII letter to its upper-case letter (32 code points lower) and leaves every other character as it is |
| `Text.Capitalize` | script.js:25 | the first character upper-cased, followed by the rest (`slice(1)`) unchanged, with the same length |
| `Text.DecimalString` | script.js:27-29 | the day written into the description is a non-empty string of digits with no leading zero |
| `Text.DecimalRoundTrip` | script.js:27-29 | reading the written day back as a decimal number gives the day |
| `Text.DecimalStringInjective` | script.js:27-29 | different days are written differently |
| `Calendar.MonthName` | script.js:23-26 | `months[getMonth()]` is a non-empty name |
| `Calendar.MonthNameLetters` | script.js:23 | every month name is made only of letters, so it contains no space |
| `Calendar.MonthNumber` | script.js:23 | the inverse of the month table: a month index it returns names the given string |
| `Calendar.MonthNumberOfName` | script.js:23 | every entry of the month table reads back as its own index |
| `Calendar.MonthNameInjective` | script.js:23 | no two months share a name |
| `Workouts.Description` | script.js:21-30 | the description starts with "Running on " or "Cycling on " (the type with its first letter upper-cased), followed by the month name, a space and the day |
| `Workouts.MonthDayInjective` | script.js:29 | "month day" determines the month and the day text |
| `Workouts.DescriptionInjective` | script.js:21-30 | two equal descriptions have the same workout type, month and day |
| `Workouts.Pace` | script.js:43-46 | pace times distance is the duration, and pace is positive for positive inputs |
| `Workouts.Speed` | script.js:59-62 | speed times duration is 60 times the distance, and speed is positive for positive inputs |
| `Workouts.NewRunning` | script.js:33-47 | a run keeps its id, date, coordinates, distance, duration and cadence, its pace satisfies pace × distance = duration, and its description is that of a run on its date |
| `Workouts.NewCycling` | script.js:49-63 | a ride keeps its id, date, coordinates, distance, duration and elevation, its speed satisfies speed × duration = 60 × distance, and its description is that of a ride on its date |
| `Workouts.WellFormedMetrics` | script.js:38-46 | an accepted workout has a positive pace or speed and a description naming its type |
| `Workouts.IsValidInput` | script.js:170-192 | a run is accepted exactly when distance, duration and cadence are finite and positive; a ride exactly when distance, duration and elevation are finite and distance and duration positive, whatever the elevation's sign |
| `Workouts.Construct` | script.js:169-195 | accepted input builds a well-formed workout of the selected type carrying the form's values |
| `WorkoutList.Find` | script.js:292-294 | `find` returns nothing exactly when no workout has the id; otherwise the first workout with the id |
| `WorkoutList.FindAfterAppend` | script.js:292-294 | after a push, a lookup finds what it found before; an id not found before finds the new workout exactly when it has that id |
| `WorkoutList.FindDistinct` | script.js:292-294 | when ids are distinct, the lookup of a stored workout's id returns that workout |
| `WorkoutList.App.constructor` | script.js:309-316 | the list is the stored one when storage held a list, and empty otherwise |
| `WorkoutList.App.Append` | script.js:198 | `push` makes the list one longer with the workout last and every earlier entry unchanged |
| `WorkoutList.App.NewWorkout` | script.js:154-198 | the form is accepted exactly by the validation rule; rejected input leaves the list unchanged; accepted input appends the constructed workout; a list of well-formed workouts stays so |
| `WorkoutList.App.FindById` | script.js:288-294 | the scan of the list returns the first workout with the id, or nothing |
| `WorkoutExamples.RunningExample` | script.js:33-47 | 5 km in 25 minutes at 180 spm is accepted with pace 5 |
| `WorkoutExamples.DescriptionExample` | script.js:21-30 | a run created on 14 April is described as "Running on April 14" |
| `WorkoutExamples.CyclingExample` | script.js:49-63 | 20 km in 60 minutes with elevation -50 is accepted with speed 20 |
| `WorkoutExamples.RunningRejections` | script.js:174-178 | a run with distance 0, or with an infinite cadence, is rejected |
| `WorkoutExamples.CyclingElevationSignIgnored` | script.js:188-192 | a ride with zero or negative elevation is accepted when distance and duration are positive |

## Left out

- Leaflet: the map, tile layer, markers, popups and `setView` in `_loadMap`, `_renderWorkoutMarker` and `_moveToPopup` are calls into a foreign library.
- The DOM: reading and clearing the form, `_showForm`, `_hideForm` with its `setTimeout`, `_toggleElevationField`, `_renderWorkout` with its `insertAdjacentHTML` and `toFixed(1)` formatting, and `console.log`.
- Geolocation and `alert` are browser I/O; a rejected form is modelled by its effect, the early return.
- WorkoutList.App.constructor: does not model the exception `JSON.parse` throws on malformed stored text (`script.js:310`), which escapes the `App` constructor at `script.js:74`; the stored value is given already parsed, and a falsy parse result (`null`, `false`, `0`, `""`) is `None`.
- Writing to `localStorage` (`_setLocalStorage`, `JSON.stringify`) is storage I/O; reading it is modelled only as the optional list handed to the `App` constructor. Objects restored by `JSON.parse` lose their class (they are plain objects); the model does not distinguish them.
- `reset()` removes the stored item and reloads the page; it is not a separate member.
- The clock: `id` is the last ten digits of `Date.now()` and may collide; the model takes the id and the date's month and day as parameters.
- The unary `+` conversion of the form's strings is not modelled: the input is the converted number. Notably `+""` is 0, so an empty elevation field yields an accepted ride with elevation 0.
- `toUpperCase` is modelled for ASCII letters only; it is applied only to the fixed type names.
- A form `type` other than 'running' or 'cycling' would push `undefined`; the type is a closed two-value type here.
- `_moveToPopup` ignores clicks outside a list item and, when `find` returns `undefined`, goes on to read its `coords` and throws; the model stops at the lookup result.
- Workouts.Pace: requires a non-zero distance, because division on `real` is partial; the JavaScript division would give an infinity or NaN, but the constructor is only reached after distance has been checked positive.
- Workouts.Speed: requires a non-zero duration, for the same reason.
- Workouts.NewRunning: requires a non-zero distance, inherited from Pace.
- Workouts.NewCycling: requires a non-zero duration, inherited from Speed.
- Floating-point rounding of the divisions (IEEE-754) is abstracted to exact real arithmetic.
