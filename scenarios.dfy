/**
 * Concrete uses of the workout model: the readings the form handler makes
 * of particular inputs, and a session that submits forms and then selects
 * a workout from the list.
 */
module WorkoutExamples {
  import opened Wrappers
  import opened JsNumbers
  import opened Calendar
  import opened Text
  import opened Workouts
  import opened WorkoutList

  /** A 5 km run in 25 minutes at 180 spm is accepted with a pace of 5 min/km. */
  lemma RunningExample(id: string, date: CalendarDate, coords: LatLng)
    ensures var input := FormInput(Running, Finite(5.0), Finite(25.0), Finite(180.0), NaN);
            IsValidInput(input) && Construct(input, id, date, coords).pace == 5.0
  {
  }

  /** A run created on 14 April is described as "Running on April 14". */
  lemma DescriptionExample()
    ensures Description(Running, CalendarDate(3, 14)) == "Running on April 14"
  {
    assert DecimalString(14) == "14";
  }

  /** A 20 km ride in 60 minutes with 50 m of descent is accepted: speed 20 km/h. */
  lemma CyclingExample(id: string, date: CalendarDate, coords: LatLng)
    ensures var input := FormInput(Cycling, Finite(20.0), Finite(60.0), NaN, Finite(-50.0));
            IsValidInput(input) && Construct(input, id, date, coords).speed == 20.0
  {
  }

  /** A run of zero distance is rejected, and so is a run with an infinite cadence. */
  lemma RunningRejections(duration: real, cadence: real)
    ensures !IsValidInput(FormInput(Running, Finite(0.0), Finite(duration), Finite(cadence), NaN))
    ensures !IsValidInput(FormInput(Running, Finite(5.0), Finite(duration), PositiveInfinity, NaN))
  {
  }

  /** The elevation of a ride is never checked for sign: zero or a descent is accepted. */
  lemma CyclingElevationSignIgnored(distance: real, duration: real, elevation: real)
    requires distance > 0.0 && duration > 0.0 && elevation <= 0.0
    ensures IsValidInput(FormInput(Cycling, Finite(distance), Finite(duration), NaN, Finite(elevation)))
  {
  }

  /**
   * A session: a fresh app with nothing stored, one accepted run, one
   * rejected ride, then a click on the run in the list.
   */
  method Session(coords: LatLng, date: CalendarDate)
  {
    var app := new App(None);
    var run := FormInput(Running, Finite(5.0), Finite(25.0), Finite(180.0), NaN);
    var ok := app.NewWorkout(run, "1234567890", date, coords);
    assert ok && |app.workouts| == 1;
    var ride := FormInput(Cycling, Finite(20.0), NaN, NaN, Finite(100.0));
    ok := app.NewWorkout(ride, "1234567891", date, coords);
    assert !ok && |app.workouts| == 1;
    var found := app.FindById("1234567890");
    assert found == Some(app.workouts[0]) && found.value.pace == 5.0;
    var missing := app.FindById("0");
    assert missing == None;
  }
}
