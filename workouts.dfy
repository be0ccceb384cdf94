/**
 * The workout records of `script.js` (`Workout`, `Running`, `Cycling`),
 * their derived fields, and the acceptance rule of the workout form.
 *
 * A workout object is never changed after its constructor has run, so a
 * workout is a value here: one datatype with a variant per subclass, and
 * one function per constructor.
 */
module Workouts {
  import opened JsNumbers
  import opened Calendar
  import opened Text

  /** The `type` field: 'running' or 'cycling'. */
  datatype WorkoutType = Running | Cycling

  /** The `[lat, lng]` pair taken from the map click. */
  datatype LatLng = LatLng(lat: real, lng: real)

  /**
   * A constructed workout. Distances are kilometres, durations minutes,
   * cadence steps per minute and elevation metres, as the form labels say.
   */
  datatype Workout =
    | RunningWorkout(id: string, date: CalendarDate, coords: LatLng, distance: real, duration: real,
                     description: string, cadence: real, pace: real)
    | CyclingWorkout(id: string, date: CalendarDate, coords: LatLng, distance: real, duration: real,
                     description: string, elevation: real, speed: real)
  {
    function Type(): WorkoutType {
      if RunningWorkout? then Running else Cycling
    }
  }

  function TypeName(t: WorkoutType): string {
    match t
    case Running => "running"
    case Cycling => "cycling"
  }

  /** The type part of the description followed by " on ". */
  function DescriptionPrefix(t: WorkoutType): string {
    match t
    case Running => "Running on "
    case Cycling => "Cycling on "
  }

  /**
   * `_setDescription`: the type with its first letter upper-cased, " on ",
   * the month's name, a space, and the day of the month.
   */
  function Description(t: WorkoutType, date: CalendarDate): (s: string)
    ensures |s| > 11 && s[..11] == DescriptionPrefix(t)
    ensures s[11..] == MonthName(date.month) + " " + DecimalString(date.day)
  {
    var prefix := Capitalize(TypeName(t)) + " on ";
    var rest := MonthName(date.month) + " " + DecimalString(date.day);
    assert prefix == DescriptionPrefix(t);
    assert (prefix + rest)[..11] == prefix && (prefix + rest)[11..] == rest;
    prefix + rest
  }

  /** The month name and the day can be told apart again after the space. */
  lemma MonthDayInjective(m1: MonthIndex, x1: string, m2: MonthIndex, x2: string)
    requires MonthName(m1) + " " + x1 == MonthName(m2) + " " + x2
    ensures m1 == m2 && x1 == x2
  {
    var a, b := MonthName(m1), MonthName(m2);
    var s := a + " " + x1;
    MonthNameLetters(m1);
    MonthNameLetters(m2);
    assert s[|a|] == ' ' && s[|b|] == ' ';
    assert forall k :: 0 <= k < |a| ==> s[k] == a[k];
    assert forall k :: 0 <= k < |b| ==> s[k] == b[k];
    assert |a| == |b|;
    assert a == s[..|a|] == b;
    MonthNameInjective(m1, m2);
    assert x1 == s[|a| + 1..] == x2;
  }

  /** The description determines the workout's type and its creation month and day. */
  lemma DescriptionInjective(t1: WorkoutType, d1: CalendarDate, t2: WorkoutType, d2: CalendarDate)
    requires Description(t1, d1) == Description(t2, d2)
    ensures t1 == t2 && d1 == d2
  {
    var s := Description(t1, d1);
    assert s[0] == DescriptionPrefix(t1)[0] == DescriptionPrefix(t2)[0];
    MonthDayInjective(d1.month, DecimalString(d1.day), d2.month, DecimalString(d2.day));
    DecimalStringInjective(d1.day, d2.day);
  }

  /** `calcPace`: minutes per kilometre. */
  function Pace(distance: real, duration: real): (pace: real)
    requires distance != 0.0
    ensures pace * distance == duration
    ensures distance > 0.0 && duration > 0.0 ==> pace > 0.0
  {
    duration / distance
  }

  /** `calcSpeed`: kilometres per hour from a duration in minutes. */
  function Speed(distance: real, duration: real): (speed: real)
    requires duration != 0.0
    ensures speed * duration == 60.0 * distance
    ensures distance > 0.0 && duration > 0.0 ==> speed > 0.0
  {
    distance / (duration / 60.0)
  }

  /** `new Running(coords, distance, duration, cadence)` with the clock's id and date given. */
  function NewRunning(id: string, date: CalendarDate, coords: LatLng,
                      distance: real, duration: real, cadence: real): (w: Workout)
    requires distance != 0.0
    ensures w.Type() == Running && w.id == id && w.date == date && w.coords == coords
    ensures w.distance == distance && w.duration == duration && w.cadence == cadence
    ensures w.pace * distance == duration
    ensures w.description == Description(Running, date)
  {
    RunningWorkout(id, date, coords, distance, duration, Description(Running, date),
                   cadence, Pace(distance, duration))
  }

  /** `new Cycling(coords, distance, duration, elevation)` with the clock's id and date given. */
  function NewCycling(id: string, date: CalendarDate, coords: LatLng,
                      distance: real, duration: real, elevation: real): (w: Workout)
    requires duration != 0.0
    ensures w.Type() == Cycling && w.id == id && w.date == date && w.coords == coords
    ensures w.distance == distance && w.duration == duration && w.elevation == elevation
    ensures w.speed * duration == 60.0 * distance
    ensures w.description == Description(Cycling, date)
  {
    CyclingWorkout(id, date, coords, distance, duration, Description(Cycling, date),
                   elevation, Speed(distance, duration))
  }

  /**
   * What every workout built from accepted form input satisfies: positive
   * distance and duration, positive cadence for a run, the derived metric
   * consistent with its inputs, and the description of its type and date.
   */
  predicate WellFormed(w: Workout) {
    && w.distance > 0.0
    && w.duration > 0.0
    && w.description == Description(w.Type(), w.date)
    && match w
       case RunningWorkout(_, _, _, _, _, _, cadence, pace) =>
         cadence > 0.0 && pace * w.distance == w.duration
       case CyclingWorkout(_, _, _, _, _, _, _, speed) =>
         speed * w.duration == 60.0 * w.distance
  }

  predicate AllWellFormed(ws: seq<Workout>) {
    forall i :: 0 <= i < |ws| ==> WellFormed(ws[i])
  }

  /** A well-formed workout has a positive pace or speed, and its description names its type. */
  lemma WellFormedMetrics(w: Workout)
    requires WellFormed(w)
    ensures w.RunningWorkout? ==> w.pace > 0.0 && w.description[..11] == "Running on "
    ensures w.CyclingWorkout? ==> w.speed > 0.0 && w.description[..11] == "Cycling on "
  {
  }

  /** The raw values of the workout form after the unary `+` conversion. */
  datatype FormInput = FormInput(activity: WorkoutType, distance: JsNumber, duration: JsNumber,
                                 cadence: JsNumber, elevation: JsNumber)

  /**
   * The two validation guards of `_newWorkout`. A run needs distance,
   * duration and cadence finite and positive; a ride needs distance,
   * duration and elevation finite but only distance and duration positive.
   */
  function IsValidInput(input: FormInput): (ok: bool)
    ensures input.activity == Running ==>
      (ok <==> && input.distance.Finite? && input.duration.Finite? && input.cadence.Finite?
               && input.distance.value > 0.0 && input.duration.value > 0.0 && input.cadence.value > 0.0)
    ensures input.activity == Cycling ==>
      (ok <==> && input.distance.Finite? && input.duration.Finite? && input.elevation.Finite?
               && input.distance.value > 0.0 && input.duration.value > 0.0)
  {
    match input.activity
    case Running =>
      var values := [input.distance, input.duration, input.cadence];
      assert values[0] == input.distance && values[1] == input.duration && values[2] == input.cadence;
      IsNumber(values) && IsPositive(values)
    case Cycling =>
      var values := [input.distance, input.duration, input.elevation];
      var positives := [input.distance, input.duration];
      assert values[0] == input.distance && values[1] == input.duration && values[2] == input.elevation;
      assert positives[0] == input.distance && positives[1] == input.duration;
      IsNumber(values) && IsPositive(positives)
  }

  /** The workout `_newWorkout` constructs from accepted input. */
  function Construct(input: FormInput, id: string, date: CalendarDate, coords: LatLng): (w: Workout)
    requires IsValidInput(input)
    ensures WellFormed(w)
    ensures w.Type() == input.activity && w.id == id && w.date == date && w.coords == coords
    ensures w.distance == input.distance.value && w.duration == input.duration.value
    ensures w.RunningWorkout? ==> w.cadence == input.cadence.value
    ensures w.CyclingWorkout? ==> w.elevation == input.elevation.value
  {
    match input.activity
    case Running =>
      NewRunning(id, date, coords, input.distance.value, input.duration.value, input.cadence.value)
    case Cycling =>
      NewCycling(id, date, coords, input.distance.value, input.duration.value, input.elevation.value)
  }
}
