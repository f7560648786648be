/**
 * The parts of the `App` controller in js/script.js that decide something:
 * the submit handler's validate-then-append rule over the private
 * `#workouts` list, and the id lookup behind a click on the workout list.
 * Rendering, persistence and form handling around them are not modelled.
 */
module App {
  import opened Wrappers
  import opened Numbers
  import opened Workout

  /** The submitted form: the `select` value and the four numeric fields,
      each already through `+value`. */
  datatype Form = Form(typeValue: string, distance: Num, duration: Num,
                       cadence: Num, elevation: Num)

  /** What became of one submission. */
  datatype Outcome =
    | Added(workout: Workout)   // validated and pushed onto the list
    | Invalid                   // built, failed `validateInput`, discarded
    | NoClick                   // no map click yet: destructuring `undefined` throws

  datatype Submission = Submission(workouts: seq<Workout>, outcome: Outcome)

  /** The record the handler builds: `'running'` selects `Running`, any other
      value `Cycling`; each reads only its own class's extra field. */
  function BuildWorkout(form: Form, id: string, date: CalendarDate, coords: Coords): (w: Workout)
    ensures w.Run? <==> form.typeValue == "running"
    ensures w.id == id && w.coords == coords
    ensures w.distance == form.distance && w.duration == form.duration
    ensures w.Run? ==> w.cadence == form.cadence
    ensures w.Ride? ==> w.elevation == form.elevation
  {
    if form.typeValue == "running"
    then NewRunning(id, date, coords, form.distance, form.duration, form.cadence)
    else NewCycling(id, date, coords, form.distance, form.duration, form.elevation)
  }

  /** The submit handler: append the new record when it validates, leave the
      list alone otherwise. */
  function Submit(workouts: seq<Workout>, currentClick: Option<Coords>, form: Form,
                  id: string, date: CalendarDate): (s: Submission)
    ensures s.outcome.Added? ==>
      && s.workouts == workouts + [s.outcome.workout]
      && Truthy(Validate(s.outcome.workout))
      && s.outcome.workout.id == id
      && currentClick == Some(s.outcome.workout.coords)
      && (s.outcome.workout.Run? <==> form.typeValue == "running")
    ensures s.outcome.Added? ==>
      currentClick.Some? && s.outcome.workout == BuildWorkout(form, id, date, currentClick.value)
    ensures currentClick.Some? && Truthy(Validate(BuildWorkout(form, id, date, currentClick.value)))
            ==> s.outcome.Added?
    ensures !s.outcome.Added? ==> s.workouts == workouts
    ensures s.outcome.NoClick? <==> currentClick.None?
  {
    match currentClick
    case None => Submission(workouts, NoClick)
    case Some(coords) =>
      var w := BuildWorkout(form, id, date, coords);
      if Truthy(Validate(w)) then Submission(workouts + [w], Added(w))
      else Submission(workouts, Invalid)
  }

  /** The form-level acceptance rule: a run needs all three fields finite and
      positive; a ride needs distance and duration finite and positive and an
      elevation that is merely finite. */
  predicate FormAcceptable(form: Form)
  {
    if form.typeValue == "running"
    then PositiveFinite(form.distance) && PositiveFinite(form.duration) && PositiveFinite(form.cadence)
    else PositiveFinite(form.distance) && PositiveFinite(form.duration) && IsFinite(form.elevation)
  }

  lemma SubmitAcceptsExactly(workouts: seq<Workout>, currentClick: Option<Coords>, form: Form,
                             id: string, date: CalendarDate)
    ensures Submit(workouts, currentClick, form, id, date).outcome.Added?
            <==> currentClick.Some? && FormAcceptable(form)
  {
  }

  /** Every record in the list was accepted, as long as the list only grows
      through submissions. */
  lemma SubmitKeepsAllValid(workouts: seq<Workout>, currentClick: Option<Coords>, form: Form,
                            id: string, date: CalendarDate)
    requires forall i :: 0 <= i < |workouts| ==> Truthy(Validate(workouts[i]))
    ensures var s := Submit(workouts, currentClick, form, id, date);
            forall i :: 0 <= i < |s.workouts| ==> Truthy(Validate(s.workouts[i]))
  {
  }

  // ---------------------------------------------------------------------
  // Lookup by id
  // ---------------------------------------------------------------------

  /** The position of the first record with the given id, if any. */
  function FindIndex(workouts: seq<Workout>, id: string): (r: Option<nat>)
    ensures r.Some? ==> r.value < |workouts| && workouts[r.value].id == id
    ensures r.Some? ==> forall j :: 0 <= j < r.value ==> workouts[j].id != id
    ensures r.None? ==> forall j :: 0 <= j < |workouts| ==> workouts[j].id != id
  {
    if |workouts| == 0 then None
    else if workouts[0].id == id then Some(0)
    else match FindIndex(workouts[1..], id)
      case None => None
      case Some(i) => Some(i + 1)
  }

  /** `this.#workouts.find(work => work.id === workoutID)`. */
  function FindById(workouts: seq<Workout>, id: string): (r: Option<Workout>)
    ensures r.Some? ==> r.value in workouts && r.value.id == id
    ensures r.Some? ==> exists i :: FindIndex(workouts, id) == Some(i) && r.value == workouts[i]
    ensures r.None? <==> forall j :: 0 <= j < |workouts| ==> workouts[j].id != id
  {
    match FindIndex(workouts, id)
    case None => None
    case Some(i) => Some(workouts[i])
  }

  /** Appending never changes what an earlier id finds, and the appended
      record is found by its id exactly when no earlier one carries it. */
  lemma {:induction false} FindAfterAppend(workouts: seq<Workout>, w: Workout, id: string)
    ensures FindIndex(workouts + [w], id)
            == if FindIndex(workouts, id).Some? then FindIndex(workouts, id)
               else if w.id == id then Some(|workouts|)
               else None
    decreases |workouts|
  {
    if |workouts| > 0 && workouts[0].id != id {
      assert (workouts + [w])[1..] == workouts[1..] + [w];
      FindAfterAppend(workouts[1..], w, id);
    }
  }

  /** A record submitted under a fresh id is found again by that id. */
  lemma FindSubmitted(workouts: seq<Workout>, currentClick: Option<Coords>, form: Form,
                      id: string, date: CalendarDate)
    requires forall j :: 0 <= j < |workouts| ==> workouts[j].id != id
    ensures var s := Submit(workouts, currentClick, form, id, date);
            s.outcome.Added? ==> FindById(s.workouts, id) == Some(s.outcome.workout)
  {
    var s := Submit(workouts, currentClick, form, id, date);
    if s.outcome.Added? {
      FindAfterAppend(workouts, s.outcome.workout, id);
    }
  }

  /** What a click on the workout list leads to. */
  datatype Located =
    | NoTarget            // no `data-set` id on the clicked row: early return
    | Center(at: Coords)  // the map is re-centred on the record's position
    | Missing             // no record with that id: reading `.coords` of `undefined` throws

  /**
   * The list-click handler: `dataSet` is the `data-set` attribute of the
   * nearest `.output` row, `None` when there is none. An absent or empty id
   * returns before any lookup.
   */
  function Locate(workouts: seq<Workout>, dataSet: Option<string>): (r: Located)
    ensures r.NoTarget? <==> dataSet.None? || dataSet.value == ""
    ensures r.Center? ==> exists i :: FindIndex(workouts, dataSet.value) == Some(i)
                                      && r.at == workouts[i].coords
    ensures r.Missing? <==>
      dataSet.Some? && dataSet.value != ""
      && forall j :: 0 <= j < |workouts| ==> workouts[j].id != dataSet.value
  {
    match dataSet
    case None => NoTarget
    case Some(id) =>
      if id == "" then NoTarget
      else match FindById(workouts, id)
        case None => Missing
        case Some(w) => Center(w.coords)
  }

  /** Clicking the row of a freshly submitted record re-centres the map on
      the point that was clicked to create it. */
  lemma LocateSubmitted(workouts: seq<Workout>, coords: Coords, form: Form,
                        id: string, date: CalendarDate)
    requires id != ""
    requires forall j :: 0 <= j < |workouts| ==> workouts[j].id != id
    ensures var s := Submit(workouts, Some(coords), form, id, date);
            s.outcome.Added? ==> Locate(s.workouts, Some(id)) == Center(coords)
  {
    FindSubmitted(workouts, Some(coords), form, id, date);
  }

  // ---------------------------------------------------------------------
  // Worked submissions
  // ---------------------------------------------------------------------

  const Today := CalendarDate(7, 11)
  const Somewhere := Coords(51.5, -0.1)

  /** A 5 km run in 30 minutes at cadence 180 is kept, at pace 6 min/km. */
  lemma SubmitRunExample()
    ensures var s := Submit([], Some(Somewhere),
                            Form("running", Finite(5.0), Finite(30.0), Finite(180.0), NaN),
                            "1234567890", Today);
            s.outcome.Added? && |s.workouts| == 1 && s.workouts[0].pace == Finite(6.0)
  {
  }

  /** A 10 km ride in 30 minutes is kept, at 20 km/h. */
  lemma SubmitRideExample()
    ensures var s := Submit([], Some(Somewhere),
                            Form("cycling", Finite(10.0), Finite(30.0), NaN, Finite(120.0)),
                            "1234567891", Today);
            s.outcome.Added? && |s.workouts| == 1 && s.workouts[0].speed == Finite(20.0)
  {
  }

  /** A negative distance is refused and the list stays empty. */
  lemma SubmitNegativeDistanceExample()
    ensures var s := Submit([], Some(Somewhere),
                            Form("running", Finite(-1.0), Finite(30.0), Finite(180.0), NaN),
                            "1234567892", Today);
            s.outcome == Invalid && s.workouts == []
  {
  }

  /** A ride with negative elevation is kept; the same numbers as a run, with
      the elevation as cadence, are refused. */
  lemma ElevationSignIgnored()
    ensures var f := Form("cycling", Finite(10.0), Finite(30.0), Finite(-5.0), Finite(-5.0));
            && Validate(BuildWorkout(f, "1", Today, Somewhere)) == True
            && Validate(BuildWorkout(f.(typeValue := "running"), "1", Today, Somewhere)) == False
  {
  }
}
