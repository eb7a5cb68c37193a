/**
 * The workout records: a running or cycling session at a map position, with
 * its derived metric (pace or speed), its id and its description, all fixed at
 * construction; only the click counter changes afterwards.
 */
module Workouts {
  import opened Decimal

  /** A map position, `[lat, lng]`. */
  type Coords = (real, real)

  /** The `type` string of a workout: 'running' or 'cycling'. */
  datatype Kind = Running | Cycling

  function TypeName(k: Kind): string {
    match k
    case Running => "running"
    case Cycling => "cycling"
  }

  /** The month names indexed by `Date.prototype.getMonth()` (0 is January). */
  const Months: seq<string> := ["January", "February", "March", "April", "May", "June", "July",
                                "August", "September", "October", "November", "December"]

  /** `toUpperCase` on one character, for the ASCII letters the type names use. */
  function UpperAscii(c: char): (u: char)
    ensures 'a' <= c <= 'z' ==> 'A' <= u <= 'Z' && u as int - 'A' as int == c as int - 'a' as int
    ensures !('a' <= c <= 'z') ==> u == c
  {
    if 'a' <= c <= 'z' then (c as int - 32) as char else c
  }

  /** `s[0].toUpperCase() + s.slice(1)`: the first character upper-cased, the rest kept. */
  function Capitalize(s: string): (r: string)
    requires |s| >= 1
    ensures |r| == |s|
    ensures r[0] == UpperAscii(s[0])
    ensures forall i :: 1 <= i < |s| ==> r[i] == s[i]
  {
    [UpperAscii(s[0])] + s[1..]
  }

  /** The words a description starts with, "Running on " or "Cycling on ". */
  function Heading(k: Kind): (h: string)
    ensures |h| == 11
  {
    match k
    case Running => "Running on "
    case Cycling => "Cycling on "
  }

  /**
   * The description set at construction, e.g. "Running on March 5": the
   * capitalised type, " on ", the month's name, a space and the day's digits.
   */
  function Describe(k: Kind, month: nat, day: nat): (d: string)
    requires month < 12
    ensures d == Heading(k) + (Months[month] + " " + DecimalString(day))
  {
    CapitalizedTypeNames();
    Capitalize(TypeName(k)) + " on " + Months[month] + " " + DecimalString(day)
  }

  /** pace = duration / distance, in minutes per kilometre. */
  function Pace(distance: real, duration: real): (pace: real)
    requires distance != 0.0
    ensures pace * distance == duration
  {
    duration / distance
  }

  /**
   * speed as the source computes it: distance / duration / 60. With distance in
   * km and duration in minutes this is km per minute, divided once more by 60.
   */
  function SpeedAsWritten(distance: real, duration: real): (speed: real)
    requires duration != 0.0
    ensures speed * 60.0 * duration == distance
  {
    distance / duration / 60.0
  }

  /** The speed in km/h that the label "km/h" promises: distance / (duration / 60). */
  function SpeedKmh(distance: real, duration: real): (speed: real)
    requires duration != 0.0
    ensures speed * (duration / 60.0) == distance
  {
    distance / (duration / 60.0)
  }

  /** `(Date.now() + '').slice(-10)`: the last ten digits of the timestamp. */
  function IdFromTimestamp(now: nat): (id: string)
    ensures |id| == if |DecimalString(now)| < 10 then |DecimalString(now)| else 10
    ensures id == DecimalString(now)[|DecimalString(now)| - |id|..]
    ensures AllDigits(id) && DigitsValue(id) == now % Pow10(10)
  {
    LastCharsValue(now, 10);
    LastChars(DecimalString(now), 10)
  }

  /** The kind-specific part of a workout and its derived metric. */
  datatype Detail =
    | RunningDetail(cadence: real, pace: real)
    | CyclingDetail(elevation: real, speed: real)
  {
    function Kind(): Kind {
      match this
      case RunningDetail(_, _) => Running
      case CyclingDetail(_, _) => Cycling
    }
  }

  /** What `JSON.stringify` keeps of a workout: every field, as a value. */
  datatype WorkoutRecord = WorkoutRecord(
    id: string,
    cords: Coords,
    distance: real,
    duration: real,
    detail: Detail,
    description: string,
    clicks: nat)

  /**
   * The record a workout holds right after construction; `param` is the
   * cadence of a run or the elevation gain of a ride.
   */
  function Initial(kind: Kind, cords: Coords, distance: real, duration: real, param: real,
                   now: nat, month: nat, day: nat): WorkoutRecord
    requires month < 12
    requires kind == Running ==> distance != 0.0
    requires kind == Cycling ==> duration != 0.0
  {
    var detail := match kind
      case Running => RunningDetail(param, Pace(distance, duration))
      case Cycling => CyclingDetail(param, SpeedAsWritten(distance, duration));
    WorkoutRecord(IdFromTimestamp(now), cords, distance, duration, detail, Describe(kind, month, day), 0)
  }

  /**
   * A workout object. Everything but `clicks` is assigned once in the
   * constructor; `Running` and `Cycling` are the two subclass constructors.
   */
  class Workout {
    const id: string
    const cords: Coords
    const distance: real   // km
    const duration: real   // min
    const detail: Detail
    const description: string
    var clicks: nat

    /** `new Running(cords, distance, duration, cadence)`; the source names the field `condence`. */
    constructor Running(cords: Coords, distance: real, duration: real, cadence: real,
                        now: nat, month: nat, day: nat)
      requires distance != 0.0
      requires month < 12
      ensures this.cords == cords && this.distance == distance && this.duration == duration
      ensures detail == RunningDetail(cadence, Pace(distance, duration))
      ensures id == IdFromTimestamp(now)
      ensures description == Describe(Kind.Running, month, day)
      ensures clicks == 0
    {
      this.id := IdFromTimestamp(now);
      this.clicks := 0;
      this.cords := cords;
      this.distance := distance;
      this.duration := duration;
      this.detail := RunningDetail(cadence, Pace(distance, duration));
      this.description := Describe(Kind.Running, month, day);
    }

    /** `new Cycling(cords, distance, duration, elevation)`. */
    constructor Cycling(cords: Coords, distance: real, duration: real, elevation: real,
                        now: nat, month: nat, day: nat)
      requires duration != 0.0
      requires month < 12
      ensures this.cords == cords && this.distance == distance && this.duration == duration
      ensures detail == CyclingDetail(elevation, SpeedAsWritten(distance, duration))
      ensures id == IdFromTimestamp(now)
      ensures description == Describe(Kind.Cycling, month, day)
      ensures clicks == 0
    {
      this.id := IdFromTimestamp(now);
      this.clicks := 0;
      this.cords := cords;
      this.distance := distance;
      this.duration := duration;
      this.detail := CyclingDetail(elevation, SpeedAsWritten(distance, duration));
      this.description := Describe(Kind.Cycling, month, day);
    }

    /** The fresh object `JSON.parse` builds from a stored record. */
    constructor FromRecord(r: WorkoutRecord)
      ensures Record() == r
    {
      this.id := r.id;
      this.clicks := r.clicks;
      this.cords := r.cords;
      this.distance := r.distance;
      this.duration := r.duration;
      this.detail := r.detail;
      this.description := r.description;
    }

    /** The value `JSON.stringify` writes for this object. */
    function Record(): (r: WorkoutRecord)
      reads this
      ensures r.id == id && r.cords == cords && r.distance == distance && r.duration == duration
      ensures r.detail == detail && r.description == description && r.clicks == clicks
    {
      WorkoutRecord(id, cords, distance, duration, detail, description, clicks)
    }

    /** `click()`: one more click, nothing else changes. */
    method Click()
      modifies this
      ensures clicks == old(clicks) + 1
      ensures Record() == old(Record()).(clicks := old(clicks) + 1)
    {
      clicks := clicks + 1;
    }
  }

  // Properties of the construction formulas.

  /** The two type names capitalise to the words the descriptions start with. */
  lemma CapitalizedTypeNames()
    ensures Capitalize(TypeName(Running)) == "Running"
    ensures Capitalize(TypeName(Cycling)) == "Cycling"
  {
  }

  /** A worked description: a run on the 5th of March (month index 2). */
  lemma DescribeExample()
    ensures Describe(Running, 2, 5) == "Running on March 5"
  {
  }

  /** No month name holds a space, so the month ends at the first space after the heading. */
  lemma MonthNamesHaveNoSpace(m: nat)
    requires m < 12
    ensures ' ' !in Months[m]
  {
  }

  /** The twelve month names are pairwise different. */
  lemma MonthNamesDistinct(m1: nat, m2: nat)
    requires m1 < 12 && m2 < 12 && Months[m1] == Months[m2]
    ensures m1 == m2
  {
  }

  /** The index of the first space in s, or |s| when there is none. */
  function FirstSpace(s: string): (i: nat)
    ensures i <= |s|
  {
    if s == [] || s[0] == ' ' then 0 else 1 + FirstSpace(s[1..])
  }

  lemma {:induction false} FirstSpaceAfter(a: string, x: string)
    requires ' ' !in a
    ensures FirstSpace(a + " " + x) == |a|
  {
    if a != [] {
      assert (a + " " + x)[1..] == a[1..] + " " + x;
      assert a[0] in a;
      FirstSpaceAfter(a[1..], x);
    }
  }

  /** Splitting at the first space: a + " " + x == b + " " + y with no space in a or b. */
  lemma SplitAtSpace(a: string, x: string, b: string, y: string)
    requires ' ' !in a && ' ' !in b
    requires a + " " + x == b + " " + y
    ensures a == b && x == y
  {
    var s := a + " " + x;
    FirstSpaceAfter(a, x);
    FirstSpaceAfter(b, y);
    assert a == s[..|a|] == b;
    assert x == s[|a| + 1..] == y;
  }

  /**
   * A description determines the workout type, the month and the day it was
   * built from.
   */
  lemma DescribeInjective(k1: Kind, m1: nat, d1: nat, k2: Kind, m2: nat, d2: nat)
    requires m1 < 12 && m2 < 12
    requires Describe(k1, m1, d1) == Describe(k2, m2, d2)
    ensures k1 == k2 && m1 == m2 && d1 == d2
  {
    var s := Describe(k1, m1, d1);
    assert Heading(k1) == s[..11] == Heading(k2);
    assert Heading(k1)[0] == Heading(k2)[0];
    var rest1 := Months[m1] + " " + DecimalString(d1);
    var rest2 := Months[m2] + " " + DecimalString(d2);
    assert rest1 == s[11..] == rest2;
    MonthNamesHaveNoSpace(m1);
    MonthNamesHaveNoSpace(m2);
    SplitAtSpace(Months[m1], DecimalString(d1), Months[m2], DecimalString(d2));
    MonthNamesDistinct(m1, m2);
    DecimalStringInjective(d1, d2);
  }

  /** From 10^9 ms after the epoch on (September 2001) the id has exactly ten characters. */
  lemma IdHasTenDigits(now: nat)
    requires now >= Pow10(9)
    ensures |IdFromTimestamp(now)| == 10
  {
    DecimalStringLonger(now, 9);
  }

  /** The stored speed is the km/h figure divided by 3600. */
  lemma SpeedAsWrittenIsKmhOver3600(distance: real, duration: real)
    requires duration != 0.0
    ensures SpeedAsWritten(distance, duration) * 3600.0 == SpeedKmh(distance, duration)
  {
  }

  /** So for every ride of non-zero distance the stored speed is not the km/h speed. */
  lemma SpeedAsWrittenIsNotKmh(distance: real, duration: real)
    requires duration != 0.0 && distance != 0.0
    ensures SpeedAsWritten(distance, duration) != SpeedKmh(distance, duration)
  {
  }

  /** The ride of the example: 20 km in 60 min is 20 km/h, stored as 1/180. */
  lemma SpeedExample()
    ensures SpeedKmh(20.0, 60.0) == 20.0
    ensures SpeedAsWritten(20.0, 60.0) == 1.0 / 180.0
  {
  }
}
