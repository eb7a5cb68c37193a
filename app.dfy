/**
 * The application's workout list (`App.#workouts`) and the `'workouts'`
 * localStorage entry it is written to after every change.
 */
module Session {
  import opened Wrappers
  import opened Workouts
  import opened Validation

  /** `JSON.stringify` of the list, taken as the sequence of the records it writes. */
  function Records(ws: seq<Workout>): (rs: seq<WorkoutRecord>)
    reads set w | w in ws
    ensures |rs| == |ws|
    ensures forall i :: 0 <= i < |ws| ==> rs[i] == ws[i].Record()
  {
    if ws == [] then [] else [ws[0].Record()] + Records(ws[1..])
  }

  lemma RecordsSnoc(ws: seq<Workout>, w: Workout)
    ensures Records(ws + [w]) == Records(ws) + [w.Record()]
  {
  }

  /**
   * The submission checks of `_newWorkout` for the selected kind: running
   * checks distance, duration and cadence, cycling distance, duration and
   * elevation.
   */
  function SubmissionOk(kind: Kind, distance: Number, duration: Number, cadence: Number,
                        elevation: Number): (ok: bool)
    ensures ok <==> distance.Finite? && duration.Finite? && distance.value > 0.0 && duration.value > 0.0
                    && (kind == Running ==> cadence.Finite? && cadence.value > 0.0)
                    && (kind == Cycling ==> elevation.Finite?)
  {
    match kind
    case Running => RunningInputsOk(distance, duration, cadence)
    case Cycling => CyclingInputsOk(distance, duration, elevation)
  }

  /** The index `find(work => work.id === id)` stops at, or -1 when no workout has that id. */
  function FindIndex(ws: seq<Workout>, id: string): (i: int)
    ensures -1 <= i < |ws|
    ensures 0 <= i ==> ws[i].id == id && forall j :: 0 <= j < i ==> ws[j].id != id
    ensures i == -1 <==> forall j :: 0 <= j < |ws| ==> ws[j].id != id
  {
    if ws == [] then -1
    else if ws[0].id == id then 0
    else
      var k := FindIndex(ws[1..], id);
      if k < 0 then -1 else k + 1
  }

  /** `ws.find(work => work.id === id)`: the first workout with that id, or undefined (null). */
  function Find(ws: seq<Workout>, id: string): (w: Workout?)
    ensures w == null <==> forall j :: 0 <= j < |ws| ==> ws[j].id != id
    ensures w != null ==> w.id == id
    ensures w != null ==> exists k :: 0 <= k < |ws| && ws[k] == w && forall j :: 0 <= j < k ==> ws[j].id != id
  {
    var i := FindIndex(ws, id);
    if i < 0 then null else ws[i]
  }

  /** `ws.indexOf(w)`: the first position holding this very object, or -1. */
  function IndexOf(ws: seq<Workout>, w: Workout?): (i: int)
    ensures -1 <= i < |ws|
    ensures 0 <= i ==> ws[i] == w && forall j :: 0 <= j < i ==> ws[j] != w
    ensures i == -1 <==> w !in ws
  {
    if ws == [] then -1
    else if ws[0] == w then 0
    else
      var k := IndexOf(ws[1..], w);
      if k < 0 then -1 else k + 1
  }

  /**
   * What is left of s after `s.splice(start, 1)`: a negative start counts from
   * the end (and stops at 0), a start at or past the end removes nothing.
   */
  function Splice<T>(s: seq<T>, start: int): (r: seq<T>)
    ensures 0 <= start < |s| ==> |r| == |s| - 1 && r[..start] == s[..start] && r[start..] == s[start + 1..]
    ensures start == -1 && s != [] ==> r == s[..|s| - 1]
    ensures start >= |s| || s == [] ==> r == s
    ensures -|s| <= start < 0 ==> r == s[..|s| + start] + s[|s| + start + 1..]
    ensures start < -|s| && s != [] ==> r == s[1..]
  {
    var k := if start >= 0 then start else if |s| + start >= 0 then |s| + start else 0;
    if k < |s| then s[..k] + s[k + 1..] else s
  }

  /** Looking up an id and then asking for that object's index gives the lookup's index. */
  lemma IndexOfFind(ws: seq<Workout>, id: string)
    ensures IndexOf(ws, Find(ws, id)) == FindIndex(ws, id)
  {
  }

  /** What a click in the workout list leads to. */
  datatype PopupOutcome =
    | NoTarget               // the click was not on a workout entry
    | Deleted                // the click was on the entry's delete button
    | FocusOn(cords: Coords) // the map is centred on this workout
    | UnknownId              // no workout has the entry's id: `workout.cords` throws

  class App {
    /** `#workouts`, in insertion order. */
    var workouts: seq<Workout>
    /** The `'workouts'` localStorage entry; None when the key is absent. */
    var slot: Option<seq<WorkoutRecord>>

    /** The storage entry holds exactly the current list. */
    ghost predicate Mirrored()
      reads this, set w | w in workouts
    {
      slot == Some(Records(workouts))
    }

    /**
     * `new App()` on a page whose storage holds `stored`: the list starts empty
     * and `_getLocalStorage` loads it.
     */
    constructor (stored: Option<seq<WorkoutRecord>>)
      ensures slot == stored
      ensures stored.None? ==> workouts == []
      ensures stored.Some? ==> Records(workouts) == stored.value && Mirrored()
      ensures forall w :: w in workouts ==> fresh(w)
    {
      workouts := [];
      slot := stored;
      new;
      GetLocalStorage();
    }

    /** `_setLocalStorage()`: overwrite the entry with the whole list. */
    method SetLocalStorage()
      modifies this`slot
      ensures slot == Some(Records(workouts))
      ensures Mirrored()
    {
      slot := Some(Records(workouts));
    }

    /**
     * `_getLocalStorage()`: if the entry is present, the list becomes fresh
     * objects holding the stored records, in the stored order.
     */
    method GetLocalStorage()
      modifies this`workouts
      ensures slot.None? ==> workouts == old(workouts)
      ensures slot.Some? ==> Records(workouts) == slot.value && Mirrored()
      ensures slot.Some? ==> forall w :: w in workouts ==> fresh(w)
    {
      if slot.None? {
        return;
      }
      var data := slot.value;
      var loaded: seq<Workout> := [];
      for i := 0 to |data|
        invariant |loaded| == i
        invariant forall j :: 0 <= j < i ==> loaded[j].Record() == data[j]
        invariant forall w :: w in loaded ==> fresh(w)
      {
        var w := new Workout.FromRecord(data[i]);
        loaded := loaded + [w];
      }
      workouts := loaded;
      assert Records(workouts) == data;
    }

    /**
     * `_newWorkout`: read the fields of the selected kind, refuse (alert and
     * return) unless they pass that kind's checks, otherwise build the workout,
     * push it and rewrite the storage entry. `now`, `month` and `day` are
     * `Date.now()`, `getMonth()` and `getDate()` at construction.
     */
    method NewWorkout(kind: Kind, distance: Number, duration: Number, cadence: Number,
                      elevation: Number, cords: Coords, now: nat, month: nat, day: nat)
      returns (w: Workout?)
      requires month < 12
      modifies this`workouts, this`slot
      ensures w != null <==> SubmissionOk(kind, distance, duration, cadence, elevation)
      ensures w == null ==> workouts == old(workouts) && slot == old(slot)
      ensures w != null ==> fresh(w) && workouts == old(workouts) + [w]
      ensures w != null ==>
                w.Record() == Initial(kind, cords, distance.value, duration.value,
                                      if kind == Running then cadence.value else elevation.value,
                                      now, month, day)
      ensures w != null ==> Mirrored()
    {
      if !SubmissionOk(kind, distance, duration, cadence, elevation) {
        return null;
      }
      w := Build(kind, distance, duration, cadence, elevation, cords, now, month, day);
      Push(w);
    }

    /** `new Running(...)` or `new Cycling(...)` from the checked fields. */
    static method Build(kind: Kind, distance: Number, duration: Number, cadence: Number,
                        elevation: Number, cords: Coords, now: nat, month: nat, day: nat)
      returns (w: Workout)
      requires month < 12
      requires SubmissionOk(kind, distance, duration, cadence, elevation)
      ensures fresh(w)
      ensures w.Record() == Initial(kind, cords, distance.value, duration.value,
                                    if kind == Running then cadence.value else elevation.value, now, month, day)
    {
      if kind == Running {
        w := new Workout.Running(cords, distance.value, duration.value, cadence.value, now, month, day);
      } else {
        w := new Workout.Cycling(cords, distance.value, duration.value, elevation.value, now, month, day);
      }
    }

    /** `this.#workouts.push(workout)` followed by `_setLocalStorage()`. */
    method Push(w: Workout)
      modifies this`workouts, this`slot
      ensures workouts == old(workouts) + [w]
      ensures slot == Some(old(Records(workouts)) + [w.Record()])
      ensures Mirrored()
    {
      workouts := workouts + [w];
      SetLocalStorage();
      RecordsSnoc(old(workouts), w);
    }

    /**
     * `_deleteWorkout(workout)`: `splice(indexOf(workout), 1)`, then remove and
     * rewrite the storage entry. An object that is not in the list has index -1,
     * and `splice(-1, 1)` drops the last workout.
     */
    method Delete(w: Workout?)
      modifies this`workouts, this`slot
      ensures workouts == Splice(old(workouts), IndexOf(old(workouts), w))
      ensures w in old(workouts) ==> |workouts| == |old(workouts)| - 1
                                     && old(workouts)[IndexOf(old(workouts), w)] == w
      ensures w !in old(workouts) ==> workouts == if old(workouts) == [] then [] else old(workouts)[..|old(workouts)| - 1]
      ensures Mirrored()
    {
      var i := IndexOf(workouts, w);
      workouts := Splice(workouts, i);
      slot := None;
      SetLocalStorage();
    }

    /**
     * `_moveToPopup(e)`: `target` is the `data-id` of the clicked workout entry,
     * if any, and `onDelete` whether the click hit its delete button. The
     * workout is looked up with `find`; a delete click deletes it, any other
     * click centres the map on it.
     */
    method MoveToPopup(target: Option<string>, onDelete: bool) returns (outcome: PopupOutcome)
      modifies this`workouts, this`slot
      ensures target.None? || !onDelete ==> workouts == old(workouts) && slot == old(slot)
      ensures target.None? ==> outcome == NoTarget
      ensures target.Some? && onDelete ==>
                outcome == Deleted && Mirrored()
                && workouts == Splice(old(workouts), FindIndex(old(workouts), target.value))
      ensures target.Some? && !onDelete ==>
                var k := FindIndex(workouts, target.value);
                outcome == if k < 0 then UnknownId else FocusOn(workouts[k].cords)
    {
      if target.None? {
        return NoTarget;
      }
      var w := Find(workouts, target.value);
      if onDelete {
        IndexOfFind(workouts, target.value);
        Delete(w);
        return Deleted;
      }
      if w == null {
        return UnknownId;
      }
      outcome := FocusOn(w.cords);
    }
  }

  /**
   * `location.reload()` after a change: the next page's App loads the entry the
   * last one wrote, and its list holds the same records in the same order.
   */
  method Reload(app: App) returns (next: App)
    requires app.Mirrored()
    ensures fresh(next)
    ensures Records(next.workouts) == Records(app.workouts)
    ensures next.Mirrored()
  {
    next := new App(app.slot);
  }
}
