# Mapty workouts, modelled in Dafny

Mapty is a browser workout log. The user clicks a point on a map and fills a form. The app then records a run or a ride at that point, and shows it as a map marker and a list row. This project models the part of `js/script.js` that decides something:

- the `Workout` class: its two "every element" validators, its month table and its description text;
- the two subclasses. `Running` has cadence and a derived pace. `Cycling` has elevation and a derived speed. Each has its own `validateInput`;
- from the `App` controller: the submit handler, which builds a record from the selected type, validates it, and pushes it onto the private `#workouts` list only when validation returns something truthy;
- the lookup by id that runs when a list row is clicked.

Modules, leaf first:

- `Wrappers` (wrappers.dfy): `Option`, used wherever the program can come back with `undefined`.
- `Numbers` (numbers.dfy): a JavaScript number after `+value` coercion. It is `Finite(r)`, `NaN`, `PosInfinity` or `NegInfinity`. The module also gives `Number.isFinite`, the comparison `> 0`, and division.
- `Decimal` (decimal.dfy): how `${date.getDate()}` is spelled, and the parser that undoes it.
- `Workout` (workout.dfy): the `Workout` tagged union (`Run` and `Ride`), the validators, pace and speed, the month table, the description and its parser, and the two constructors.
- `App` (app.dfy): building the record from the form, the guarded append, lookup by id, and the list-click handler.

Each record's id and creation date are parameters. The program reads them from `Date.now()` and `new Date()`. A missing map click and an id that no record carries both make the program throw a `TypeError`. The model returns these as explicit outcomes (`NoClick` and `Missing`). In both cases nothing has changed by the time the program throws.

`Workout.Describe` is the description template of `_createDescription`. Its contract is carried by lemmas: `Workout.DescriptionRoundTrip` reads a description back into class, month and day, and `Workout.DescribeInjective` shows that different classes or dates give different descriptions.

Three behaviours of the code that are easy to miss:

- `Cycling.validateInput` returns `undefined` on failure, not `false`. It returns whatever `alert(...)` gives back. So `Verdict` has three values.
- A ride's elevation only has to be finite; it may be zero or negative. A run's cadence has to be positive.
- A list click whose id matches no record throws, because the handler reads `.coords` of the `undefined` that `find` returns.

## Model

| member | source | states |
|---|---|---|
| Numbers.Div | js/script.js:250-274 | JavaScript `/`, as used by the pace division at line 251 and both speed divisions at line 273, on the extended reals. For finite operands with a non-zero divisor, the quotient times the divisor gives back the dividend. Positive finite over positive finite is positive finite. A finite quotient needs a finite dividend. `NaN` in gives `NaN` out. |
| Workout.InputIsNumber | js/script.js:210-212 | `_inputIsNumber` holds exactly when every input is finite. This is vacuously true of no inputs. |
| Workout.InputIsPositive | js/script.js:215-217 | `_inputIsPositive` holds exactly when every input compares greater than 0. This is vacuously true of no inputs. |
| Workout.ValidateRun | js/script.js:243-247 | `Running.validateInput` returns `true` exactly when distance, duration and cadence are all finite and all greater than 0. Otherwise it returns `false`, never `undefined`. |
| Workout.ValidateRide | js/script.js:265-269 | `Cycling.validateInput` returns `true` exactly when all three fields are finite and distance and duration are greater than 0; elevation's sign is not checked. Otherwise it returns `undefined`, never `false`. |
| Workout.Validate | js/script.js:96 | The dispatched `validateInput()` is truthy exactly when the record meets the acceptance rule of its own class. A run never yields `undefined` and a ride never yields `false`. |
| Workout.Pace | js/script.js:250-252 | `_calculatePace`: for positive finite distance and duration, the pace is positive and finite, and pace times distance equals duration. A `NaN` field gives a `NaN` pace. |
| Workout.Speed | js/script.js:272-274 | `_calculateSpeed`: for positive finite distance and duration, the speed is positive and finite, and speed times duration equals 60 times distance. A `NaN` field gives a `NaN` speed. |
| Workout.PaceExample | js/script.js:250-252 | 5 km in 30 minutes gives a pace of 6 min/km. |
| Workout.SpeedExample | js/script.js:272-274 | 10 km in 30 minutes gives a speed of 20 km/h. |
| Workout.MonthName | js/script.js:220-223 | `_monthGenerator(num)` yields a name exactly for `num` in 0..11, and `undefined` for every other number. |
| Workout.MonthsDistinct | js/script.js:221 | The twelve month names are pairwise different. |
| Workout.MonthIndexName | js/script.js:220-223 | Looking up a month's name in the table gives back that month's position. |
| Workout.DescriptionRoundTrip | js/script.js:226-228 | For every month in 0..11, reading back a description gives its class, month and day of month. |
| Workout.DescribeInjective | js/script.js:226-228 | Two descriptions are equal only when they have the same class and the same date. |
| Decimal.Show | js/script.js:227 | The rendered day of month is a non-empty string of digits. It has no leading zero unless the number is 0. |
| Decimal.ParseShow | js/script.js:227 | Parsing the rendered digits gives back the number. |
| Decimal.ShowInjective | js/script.js:227 | Different numbers render differently. |
| Workout.NewRunning | js/script.js:233-240 | The constructed run stores the given id, date, position, distance, duration and cadence. Whenever it validates, its stored pace is positive and finite, and pace times distance equals duration. |
| Workout.NewCycling | js/script.js:256-263 | The constructed ride stores the given id, date, position, distance, duration and elevation. Whenever it validates, its stored speed is positive and finite, and speed times duration equals 60 times distance. |
| Workout.RunningDescription | js/script.js:233-240 | The description stored by the `Running` constructor reads back as a run on the creation month and day. |
| Workout.CyclingDescription | js/script.js:256-263 | The description stored by the `Cycling` constructor reads back as a ride on the creation month and day. |
| App.BuildWorkout | js/script.js:92-95 | `'running'` selects a run and every other type value selects a ride. The record carries the form's distance and duration, the extra field of its own class, the id and the clicked position. |
| App.Submit | js/script.js:91-108 | When there is a click and the record built from the form validates, the outcome is `Added` and the new list is the old list with exactly that record appended, and the record carries the id, the clicked position and the selected class. Otherwise the list is unchanged. The "no click" outcome happens exactly when there is no click. |
| App.SubmitAcceptsExactly | js/script.js:92-97 | A submission is appended exactly when there was a click and the form meets its type's rule. For `'running'`: distance, duration and cadence are finite and positive. For any other value: distance and duration are finite and positive and elevation is finite. |
| App.SubmitKeepsAllValid | js/script.js:96-97 | If every record in the list validates, every record still validates after a submission. |
| App.FindIndex | js/script.js:174 | The result is the position of the first record with the id, and no earlier record has that id. When there is no result, no record has the id. |
| App.FindById | js/script.js:174 | `find` returns the first record of the list that has the id. It returns `undefined` exactly when no record has the id. |
| App.FindAfterAppend | js/script.js:174 | After an append, an id that was already present finds the same position as before. An absent id finds the new record when the new record has that id, and nothing otherwise. |
| App.FindSubmitted | js/script.js:97 | A record submitted under an id no earlier record has is found again by that id. |
| App.Locate | js/script.js:172-175 | The handler returns before any lookup exactly when the `data-set` id is absent or empty. A re-centre targets the position of the first record with that id. The handler throws exactly when the id is non-empty and no record has it. |
| App.LocateSubmitted | js/script.js:172-175 | Clicking the row of a freshly submitted record with a fresh, non-empty id re-centres the map on the point that was clicked to create it. |
| App.SubmitRunExample | js/script.js:92-97 | A 5 km, 30 minute run at cadence 180 on an empty list is kept. The list then has one record, with pace 6. |
| App.SubmitRideExample | js/script.js:92-97 | A 10 km, 30 minute ride with 120 m of elevation on an empty list is kept. The list then has one record, with speed 20. |
| App.SubmitNegativeDistanceExample | js/script.js:104-108 | A run with distance -1 is refused, and the list stays empty. |
| App.ElevationSignIgnored | js/script.js:243-269 | A ride with elevation -5 validates. The same numbers as a run, with -5 as the cadence, do not. |

## Left out

- Coercion of form text by unary `+` is not modelled. The form fields arrive already as `Num` values. A consequence of the real coercion is that an empty elevation field becomes 0, which a ride accepts.
- Numbers.Div: finite numbers are exact reals. IEEE-754 rounding, overflow to infinity and the sign of zero are not modelled. Dividing by zero is treated as dividing by positive zero.
- Id generation from `Date.now()` and the date from `new Date()` are parameters. They depend on the clock, and the code does not guarantee that ids are unique. The lookup lemmas state the freshness they need as a `requires`.
- Geolocation and every Leaflet call are not modelled: the map, tiles, click handler, markers, popups and `setView`. These are browser and library APIs. `Locate` only reports the position the map would be centred on.
- DOM wiring is not modelled: showing and hiding the form, the type toggle, scrolling, `alert`, focus and blur, clearing the form. This is user interface only. The second `alert` on the failure path is part of it.
- HTML templating of list rows is not modelled, nor the `toFixed(1)` display rounding or `description.slice(6)`. These are presentation only.
- Saving to and restoring from `localStorage` through JSON is not modelled; this is I/O. Restored records are plain objects that were never re-validated, so `App.SubmitKeepsAllValid` holds only for lists built through submissions.
- Strings are sequences of Unicode scalar values, not JavaScript's UTF-16 code units. For example, the runner emoji is four characters here but five code units in JavaScript. Nothing modelled depends on string lengths or positions inside the emoji; `description.slice(6)` would, and it is left out with the rest of the list-row HTML.
- The commented-out earlier version of the event code at the end of the file is not modelled.
