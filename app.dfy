/**
 * The application state of `script.js` that is not map or DOM wiring: the
 * private `#workouts` array, filled from storage when the app starts,
 * appended to by the form handler `_newWorkout`, and searched by id in
 * `_moveToPopup`.
 */
module WorkoutList {
  import opened Wrappers
  import opened JsNumbers
  import opened Calendar
  import opened Workouts

  /**
   * `workouts.find(work => work.id === id)`: the first workout with the id,
   * or nothing when no workout has it.
   */
  function Find(ws: seq<Workout>, id: string): (r: Option<Workout>)
    ensures r.None? <==> forall i :: 0 <= i < |ws| ==> ws[i].id != id
    ensures r.Some? ==> exists k :: 0 <= k < |ws| && ws[k] == r.value && r.value.id == id
                                    && forall j :: 0 <= j < k ==> ws[j].id != id
  {
    if |ws| == 0 then None
    else if ws[0].id == id then Some(ws[0])
    else
      var r := Find(ws[1..], id);
      assert r.Some? ==> exists k :: 0 <= k < |ws| && ws[k] == r.value && r.value.id == id
                                     && forall j :: 0 <= j < k ==> ws[j].id != id by {
        if r.Some? {
          var k :| 0 <= k < |ws| - 1 && ws[1..][k] == r.value && r.value.id == id
                   && forall j :: 0 <= j < k ==> ws[1..][j].id != id;
          assert ws[k + 1] == r.value;
          assert forall j :: 1 <= j < k + 1 ==> ws[j].id != id by {
            forall j | 1 <= j < k + 1 ensures ws[j].id != id {
              assert ws[j] == ws[1..][j - 1];
            }
          }
        }
      }
      r
  }

  /**
   * Appending a workout does not change what an earlier lookup found; an
   * id that was not found before now finds the new workout exactly when it
   * carries that id.
   */
  lemma {:induction false} FindAfterAppend(ws: seq<Workout>, w: Workout, id: string)
    ensures Find(ws + [w], id) == if Find(ws, id).Some? then Find(ws, id)
                                  else if w.id == id then Some(w) else None
  {
    if |ws| > 0 && ws[0].id != id {
      assert (ws + [w])[1..] == ws[1..] + [w];
      FindAfterAppend(ws[1..], w, id);
    }
  }

  /** With distinct ids, looking up the id of any stored workout finds that workout. */
  lemma FindDistinct(ws: seq<Workout>, k: nat)
    requires k < |ws|
    requires forall i, j :: 0 <= i < j < |ws| ==> ws[i].id != ws[j].id
    ensures Find(ws, ws[k].id) == Some(ws[k])
  {
  }

  /** The `App` object, reduced to its list of workouts. */
  class App {
    var workouts: seq<Workout>

    /**
     * `#workouts = []`, then `_getLocalStorage`: the stored list replaces
     * the empty one when the parsed value is truthy (a falsy value such as
     * the `null` parsed from a missing item is modelled as `None`).
     */
    constructor (stored: Option<seq<Workout>>)
      ensures workouts == if stored.Some? then stored.value else []
    {
      workouts := [];
      if stored.Some? {
        workouts := stored.value;
      }
    }

    /** `this.#workouts.push(workout)`. */
    method Append(w: Workout)
      modifies this
      ensures workouts == old(workouts) + [w]
      ensures |workouts| == |old(workouts)| + 1 && workouts[|workouts| - 1] == w
      ensures forall i :: 0 <= i < |old(workouts)| ==> workouts[i] == old(workouts)[i]
    {
      workouts := workouts + [w];
    }

    /**
     * `_newWorkout` on the form's converted values, with the map click's
     * coordinates and the clock's id and date given. Rejected input returns
     * before the push and leaves the list as it was; accepted input appends
     * the constructed workout at the end.
     */
    method NewWorkout(input: FormInput, id: string, date: CalendarDate, coords: LatLng)
      returns (accepted: bool)
      modifies this
      ensures accepted == IsValidInput(input)
      ensures accepted ==> workouts == old(workouts) + [Construct(input, id, date, coords)]
      ensures !accepted ==> workouts == old(workouts)
      ensures AllWellFormed(old(workouts)) ==> AllWellFormed(workouts)
    {
      var distance, duration := input.distance, input.duration;
      var workout: Workout;
      match input.activity {
        case Running =>
          var cadence := input.cadence;
          var inputs := [distance, duration, cadence];
          if !IsNumber(inputs) || !IsPositive(inputs) {
            return false;
          }
          assert inputs[0] == distance && inputs[1] == duration && inputs[2] == cadence;
          workout := NewRunning(id, date, coords, distance.value, duration.value, cadence.value);
        case Cycling =>
          var elevation := input.elevation;
          var inputs := [distance, duration, elevation];
          if !IsNumber(inputs) || !IsPositive([distance, duration]) {
            return false;
          }
          assert inputs[0] == distance && inputs[1] == duration && inputs[2] == elevation;
          assert [distance, duration][1] == duration;
          workout := NewCycling(id, date, coords, distance.value, duration.value, elevation.value);
      }
      assert workout == Construct(input, id, date, coords);
      Append(workout);
      accepted := true;
    }

    /** The `find` in `_moveToPopup`, scanning the list from the front. */
    method FindById(id: string) returns (r: Option<Workout>)
      ensures r == Find(workouts, id)
    {
      var i := 0;
      while i < |workouts|
        invariant 0 <= i <= |workouts|
        invariant Find(workouts[i..], id) == Find(workouts, id)
      {
        if workouts[i].id == id {
          return Some(workouts[i]);
        }
        assert workouts[i..][1..] == workouts[i + 1..];
        i := i + 1;
      }
      return None;
    }
  }
}
