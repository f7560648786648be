/**
 * The workout records of js/script.js: the `Workout` base class with its
 * validators, month table and description, and its two subclasses `Running`
 * (cadence, pace) and `Cycling` (elevation, speed), as one tagged union.
 *
 * The record id and the creation date are parameters: the program takes them
 * from `Date.now()` and `new Date()`.
 */
module Workout {
  import opened Wrappers
  import opened Numbers
  import Decimal

  /** A map position, the `[lat, lng]` pair of the click that opened the form. */
  datatype Coords = Coords(lat: real, lng: real)

  /** The two readings of the creation date that the description uses:
      `getMonth()` (zero-based) and `getDate()`. */
  datatype CalendarDate = CalendarDate(month: int, day: nat)

  datatype Kind = Running | Cycling

  /**
   * One workout. The description and the derived metric (pace for a run,
   * speed for a ride) are computed once, at construction, from the fields as
   * coerced, whether or not they are valid.
   */
  datatype Workout =
    | Run(id: string, date: CalendarDate, coords: Coords,
          distance: Num, duration: Num, cadence: Num,
          description: string, pace: Num)
    | Ride(id: string, date: CalendarDate, coords: Coords,
           distance: Num, duration: Num, elevation: Num,
           description: string, speed: Num)

  /** What `validateInput` hands back: `true`, `false`, or the `undefined`
      that `alert(...)` returns. */
  datatype Verdict = True | False | Undefined

  /** Only `true` is truthy among the three. */
  predicate Truthy(v: Verdict)
  {
    v == True
  }

  // ---------------------------------------------------------------------
  // Validators of the base class
  // ---------------------------------------------------------------------

  /** `_inputIsNumber(...inputs)`: every input is a finite number. */
  function InputIsNumber(inputs: seq<Num>): (b: bool)
    ensures b <==> forall i :: 0 <= i < |inputs| ==> IsFinite(inputs[i])
  {
    |inputs| == 0 || (IsFinite(inputs[0]) && InputIsNumber(inputs[1..]))
  }

  /** `_inputIsPositive(...inputs)`: every input compares greater than 0. */
  function InputIsPositive(inputs: seq<Num>): (b: bool)
    ensures b <==> forall i :: 0 <= i < |inputs| ==> GreaterThanZero(inputs[i])
  {
    |inputs| == 0 || (GreaterThanZero(inputs[0]) && InputIsPositive(inputs[1..]))
  }

  // ---------------------------------------------------------------------
  // Validation of the two subclasses
  // ---------------------------------------------------------------------

  /** `Running.validateInput`: all three fields finite and all positive. */
  function ValidateRun(w: Workout): (v: Verdict)
    requires w.Run?
    ensures v != Undefined
    ensures v == True <==>
      PositiveFinite(w.distance) && PositiveFinite(w.duration) && PositiveFinite(w.cadence)
  {
    var fields := [w.distance, w.duration, w.cadence];
    assert fields[0] == w.distance && fields[1] == w.duration && fields[2] == w.cadence;
    if !InputIsNumber(fields) || !InputIsPositive(fields) then False else True
  }

  /** `Cycling.validateInput`: all three fields finite, but only distance and
      duration positive; a failure returns `alert(...)`, i.e. `undefined`. */
  function ValidateRide(w: Workout): (v: Verdict)
    requires w.Ride?
    ensures v != False
    ensures v == True <==>
      PositiveFinite(w.distance) && PositiveFinite(w.duration) && IsFinite(w.elevation)
  {
    var measured := [w.distance, w.duration, w.elevation];
    var positive := [w.distance, w.duration];
    assert measured[0] == positive[0] == w.distance && measured[1] == positive[1] == w.duration;
    assert measured[2] == w.elevation;
    if !InputIsNumber(measured) || !InputIsPositive(positive) then Undefined
    else True
  }

  /** The acceptance rule, independently of how either class phrases it. */
  predicate Acceptable(w: Workout)
  {
    && PositiveFinite(w.distance)
    && PositiveFinite(w.duration)
    && match w
       case Run(_, _, _, _, _, cadence, _, _) => PositiveFinite(cadence)
       case Ride(_, _, _, _, _, elevation, _, _) => IsFinite(elevation)
  }

  /** `workout.validateInput()`, dispatched on the record's class. */
  function Validate(w: Workout): (v: Verdict)
    ensures Truthy(v) <==> Acceptable(w)
    ensures w.Run? ==> v != Undefined
    ensures w.Ride? ==> v != False
  {
    if w.Run? then ValidateRun(w) else ValidateRide(w)
  }

  // ---------------------------------------------------------------------
  // Derived metrics
  // ---------------------------------------------------------------------

  /** `_calculatePace`: minutes per kilometre, `duration / distance`. */
  function Pace(distance: Num, duration: Num): (p: Num)
    ensures PositiveFinite(distance) && PositiveFinite(duration) ==>
      PositiveFinite(p) && p.r * distance.r == duration.r
    ensures distance.NaN? || duration.NaN? ==> p.NaN?
  {
    Div(duration, distance)
  }

  /** `_calculateSpeed`: kilometres per hour, `distance / (duration / 60)`. */
  function Speed(distance: Num, duration: Num): (v: Num)
    ensures PositiveFinite(distance) && PositiveFinite(duration) ==>
      PositiveFinite(v) && v.r * duration.r == 60.0 * distance.r
    ensures distance.NaN? || duration.NaN? ==> v.NaN?
  {
    Div(distance, Div(duration, Finite(60.0)))
  }

  lemma PaceExample()
    ensures Pace(Finite(5.0), Finite(30.0)) == Finite(6.0)
  {
  }

  lemma SpeedExample()
    ensures Speed(Finite(10.0), Finite(30.0)) == Finite(20.0)
  {
  }

  // ---------------------------------------------------------------------
  // Month table and description
  // ---------------------------------------------------------------------

  const Months: seq<string> :=
    ["January", "February", "March", "April", "May", "June", "July",
     "August", "September", "October", "November", "December"]

  /** `_monthGenerator(num)`: the table entry, `undefined` off the table. */
  function MonthName(num: int): (r: Option<string>)
    ensures r.Some? <==> 0 <= num < 12
  {
    if 0 <= num < |Months| then Some(Months[num]) else None
  }

  /** How a template literal renders the month: `undefined` spelled out. */
  function MonthText(num: int): string
  {
    match MonthName(num)
    case Some(name) => name
    case None => "undefined"
  }

  /** The position of a name in the month table, if it is there. */
  function MonthIndex(name: string): (r: Option<nat>)
    ensures r.Some? ==> r.value < 12 && Months[r.value] == name
    ensures r.None? ==> forall m :: 0 <= m < 12 ==> Months[m] != name
  {
    MonthIndexFrom(name, 0)
  }

  function MonthIndexFrom(name: string, from: nat): (r: Option<nat>)
    requires from <= 12
    ensures r.Some? ==> from <= r.value < 12 && Months[r.value] == name
    ensures r.None? ==> forall m :: from <= m < 12 ==> Months[m] != name
    decreases 12 - from
  {
    if from == 12 then None
    else if Months[from] == name then Some(from)
    else MonthIndexFrom(name, from + 1)
  }

  lemma MonthsDistinct()
    ensures forall i, j :: 0 <= i < j < 12 ==> Months[i] != Months[j]
  {
  }

  lemma MonthsHaveNoSpace()
    ensures forall m, k :: 0 <= m < 12 && 0 <= k < |Months[m]| ==> Months[m][k] != ' '
  {
  }

  /** Every month name leads back to its own table position. */
  lemma MonthIndexName(month: int)
    requires 0 <= month < 12
    ensures MonthIndex(MonthText(month)) == Some(month)
  {
    MonthsDistinct();
  }

  const RunnerEmoji: string := "\U{1F3C3}\U{200D}\U{2642}\U{FE0F}"
  const CyclistEmoji: string := "\U{1F6B4}\U{200D}\U{2640}\U{FE0F}"

  /** The `type` class field. */
  function TypeName(k: Kind): string
  {
    match k
    case Running => "Running"
    case Cycling => "Cycling"
  }

  function Emoji(k: Kind): string
  {
    match k
    case Running => RunnerEmoji
    case Cycling => CyclistEmoji
  }

  /** The part of the description fixed by the class. */
  function Heading(k: Kind): string
  {
    Emoji(k) + " " + TypeName(k) + " on "
  }

  /** `_createDescription`: emoji, class name, month name and day of month. */
  function Describe(k: Kind, date: CalendarDate): string
  {
    Heading(k) + MonthText(date.month) + " " + Decimal.Show(date.day)
  }

  /** What a description says: the class, the zero-based month and the day. */
  datatype Summary = Summary(kind: Kind, month: int, day: nat)

  /** The first space in `s`, if any. */
  function FirstSpace(s: string): (r: Option<nat>)
    ensures r.Some? ==> r.value < |s| && s[r.value] == ' '
    ensures r.Some? ==> forall j :: 0 <= j < r.value ==> s[j] != ' '
    ensures r.None? ==> forall j :: 0 <= j < |s| ==> s[j] != ' '
  {
    if |s| == 0 then None
    else if s[0] == ' ' then Some(0)
    else match FirstSpace(s[1..])
      case None => None
      case Some(i) => Some(i + 1)
  }

  /** Reads a description back; the inverse of `Describe` on real dates. */
  function ParseDescription(s: string): Option<Summary>
  {
    match HeadingKind(s)
    case None => None
    case Some(k) => ParseDate(k, s[|Heading(k)|..])
  }

  /** The class whose heading starts `s`, if either does. */
  function HeadingKind(s: string): (r: Option<Kind>)
    ensures r.Some? ==> Heading(r.value) <= s
  {
    if Heading(Running) <= s then Some(Running)
    else if Heading(Cycling) <= s then Some(Cycling)
    else None
  }

  lemma HeadingKindOf(k: Kind, rest: string)
    ensures HeadingKind(Heading(k) + rest) == Some(k)
  {
    var s := Heading(k) + rest;
    assert s[..|Heading(k)|] == Heading(k);
    if k == Cycling {
      // The two headings already differ in their first character.
      assert s[0] == Heading(Cycling)[0] != Heading(Running)[0];
    }
  }

  function ParseDate(k: Kind, rest: string): Option<Summary>
  {
    match FirstSpace(rest)
    case None => None
    case Some(i) =>
      var dayText := rest[i + 1..];
      match MonthIndex(rest[..i])
      case None => None
      case Some(m) =>
        if |dayText| > 0 && Decimal.AllDigits(dayText)
        then Some(Summary(k, m, Decimal.Parse(dayText)))
        else None
  }

  /** The first space after a space-free prefix is the one that ends it. */
  lemma {:induction false} FirstSpaceAfter(name: string, tail: string)
    requires forall j :: 0 <= j < |name| ==> name[j] != ' '
    ensures FirstSpace(name + " " + tail) == Some(|name|)
    decreases |name|
  {
    if |name| > 0 {
      assert (name + " " + tail)[1..] == name[1..] + " " + tail;
      FirstSpaceAfter(name[1..], tail);
    }
  }

  lemma {:induction false} ParseDateRoundTrip(k: Kind, date: CalendarDate)
    requires 0 <= date.month < 12
    ensures ParseDate(k, MonthText(date.month) + " " + Decimal.Show(date.day))
            == Some(Summary(k, date.month, date.day))
  {
    var name := MonthText(date.month);
    var dayText := Decimal.Show(date.day);
    var rest := name + " " + dayText;
    MonthsHaveNoSpace();
    assert name == Months[date.month];
    FirstSpaceAfter(name, dayText);
    assert rest[..|name|] == name;
    assert rest[|name| + 1..] == dayText;
    MonthIndexName(date.month);
    Decimal.ParseShow(date.day);
  }

  lemma {:induction false} DescriptionRoundTrip(k: Kind, date: CalendarDate)
    requires 0 <= date.month < 12
    ensures ParseDescription(Describe(k, date)) == Some(Summary(k, date.month, date.day))
  {
    var rest := MonthText(date.month) + " " + Decimal.Show(date.day);
    var s := Describe(k, date);
    assert s == Heading(k) + rest;
    HeadingKindOf(k, rest);
    assert s[|Heading(k)|..] == rest;
    ParseDateRoundTrip(k, date);
  }

  /** Different classes or dates never share a description. */
  lemma DescribeInjective(k1: Kind, d1: CalendarDate, k2: Kind, d2: CalendarDate)
    requires 0 <= d1.month < 12 && 0 <= d2.month < 12
    requires Describe(k1, d1) == Describe(k2, d2)
    ensures k1 == k2 && d1 == d2
  {
    DescriptionRoundTrip(k1, d1);
    DescriptionRoundTrip(k2, d2);
  }

  // ---------------------------------------------------------------------
  // Construction
  // ---------------------------------------------------------------------

  /** `new Running(coords, distance, duration, cadence)`. */
  function NewRunning(id: string, date: CalendarDate, coords: Coords,
                      distance: Num, duration: Num, cadence: Num): (w: Workout)
    ensures w.Run? && w.id == id && w.coords == coords && w.date == date
    ensures w.distance == distance && w.duration == duration && w.cadence == cadence
    ensures Truthy(Validate(w)) ==>
      PositiveFinite(w.pace) && w.pace.r * w.distance.r == w.duration.r
  {
    Run(id, date, coords, distance, duration, cadence,
        Describe(Running, date), Pace(distance, duration))
  }

  /** `new Cycling(coords, distance, duration, elevation)`. */
  function NewCycling(id: string, date: CalendarDate, coords: Coords,
                      distance: Num, duration: Num, elevation: Num): (w: Workout)
    ensures w.Ride? && w.id == id && w.coords == coords && w.date == date
    ensures w.distance == distance && w.duration == duration && w.elevation == elevation
    ensures Truthy(Validate(w)) ==>
      PositiveFinite(w.speed) && w.speed.r * w.duration.r == 60.0 * w.distance.r
  {
    Ride(id, date, coords, distance, duration, elevation,
         Describe(Cycling, date), Speed(distance, duration))
  }

  /** A run's description names its class and creation date, readably. */
  lemma RunningDescription(id: string, date: CalendarDate, coords: Coords,
                           distance: Num, duration: Num, cadence: Num)
    requires 0 <= date.month < 12
    ensures ParseDescription(NewRunning(id, date, coords, distance, duration, cadence).description)
            == Some(Summary(Running, date.month, date.day))
  {
    DescriptionRoundTrip(Running, date);
  }

  /** A ride's description names its class and creation date, readably. */
  lemma CyclingDescription(id: string, date: CalendarDate, coords: Coords,
                           distance: Num, duration: Num, elevation: Num)
    requires 0 <= date.month < 12
    ensures ParseDescription(NewCycling(id, date, coords, distance, duration, elevation).description)
            == Some(Summary(Cycling, date.month, date.day))
  {
    DescriptionRoundTrip(Cycling, date);
  }
}
