/**
 * The BMR HC64 controller as the integration sees it through its client library.
 *
 * The library's setters are not part of this model, so what each setter does to the
 * controller is an ASSUMPTION stated here once, as a pure function on `DeviceState`:
 *   - `setSummerModeAssignments(ids, v)` / `setLowModeAssignments(ids, v)` give every
 *     listed circuit index the flag `v` and leave all other indices (and the length) alone;
 *     indices outside the list are ignored;
 *   - `setSummerMode(v)` makes the summer-mode flag `v`;
 *   - `setLowMode(enabled, temperature?)` sets the low-mode flag, and the low-mode
 *     temperature when one is given; the start date is left alone;
 *   - `setCircuitSchedules(id, L, day?)` makes a later `getCircuitSchedules(id)` report
 *     the day schedules `L`, and the starting day `day` when one is given (otherwise the
 *     stored starting day stays);
 *   - `setSchedule(id, name, entries)` replaces the body of schedule `id`.
 * The `Controller` class holds that state in fields and implements the setters as methods
 * whose postconditions are these functions.
 */
module Device {
  import opened Wrappers

  /** The message the client library raises on a rejected login. */
  const AuthFailureMessage: string := "Authentication failed, check username/password"

  /** An exception raised by a client-library call: a timeout, or any other exception with its `args`. */
  datatype DeviceError = Timeout | Raised(args: seq<string>)

  /** The `low_mode` record returned by `getLowMode`: keys "enabled", "temperature", "start_date". */
  datatype LowMode = LowMode(enabled: bool, temperature: Option<real>, startDate: Option<string>)

  /** The record returned by `getCircuitSchedules(id)`: key "day_schedules" and the starting day. */
  datatype Schedules = Schedules(daySchedules: seq<int>, startingDay: Option<int>)

  /** One entry of a schedule body: from `time` on, the target is `temperature`. */
  datatype ScheduleEntry = ScheduleEntry(time: string, temperature: Option<real>)

  /** A schedule as written by `setSchedule(id, name, entries)`. */
  datatype ScheduleBody = ScheduleBody(name: string, entries: seq<ScheduleEntry>)

  /** The controller state that the integration reads and writes. */
  datatype DeviceState = DeviceState(
    uniqueId: Option<string>,
    hdo: Option<bool>,
    lowMode: LowMode,
    lowAssignments: seq<bool>,
    summerMode: Option<bool>,
    summerAssignments: seq<bool>,
    circuitSchedules: map<nat, Schedules>,
    schedules: map<nat, ScheduleBody>)

  /** Python truthiness of a `bool | None`. */
  predicate Truthy(b: Option<bool>) {
    b == Some(true)
  }

  /** Python's `any(flags)`. */
  predicate AnyAssigned(flags: seq<bool>) {
    exists i :: 0 <= i < |flags| && flags[i]
  }

  /** An assignment list after the listed indices were given `value`. */
  function Assign(flags: seq<bool>, ids: set<int>, value: bool): (r: seq<bool>)
    ensures |r| == |flags|
    ensures forall i :: 0 <= i < |flags| ==> r[i] == if i in ids then value else flags[i]
  {
    seq(|flags|, i requires 0 <= i < |flags| => if i in ids then value else flags[i])
  }

  function WithSummerMode(s: DeviceState, value: bool): DeviceState {
    s.(summerMode := Some(value))
  }

  function WithSummerAssignments(s: DeviceState, ids: set<int>, value: bool): DeviceState {
    s.(summerAssignments := Assign(s.summerAssignments, ids, value))
  }

  function WithLowMode(s: DeviceState, enabled: bool, temperature: Option<real>): DeviceState {
    var t := if temperature.Some? then temperature else s.lowMode.temperature;
    s.(lowMode := s.lowMode.(enabled := enabled, temperature := t))
  }

  function WithLowAssignments(s: DeviceState, ids: set<int>, value: bool): DeviceState {
    s.(lowAssignments := Assign(s.lowAssignments, ids, value))
  }

  function WithCircuitSchedules(s: DeviceState, id: nat, daySchedules: seq<int>, startingDay: Option<int>): DeviceState {
    var day :=
      if startingDay.Some? then startingDay
      else if id in s.circuitSchedules then s.circuitSchedules[id].startingDay
      else None;
    s.(circuitSchedules := s.circuitSchedules[id := Schedules(daySchedules, day)])
  }

  function WithSchedule(s: DeviceState, id: nat, name: string, entries: seq<ScheduleEntry>): DeviceState {
    s.(schedules := s.schedules[id := ScheduleBody(name, entries)])
  }

  /** Giving the same indices the same flag twice is the same as doing it once. */
  lemma AssignIdempotent(flags: seq<bool>, ids: set<int>, value: bool)
    ensures Assign(Assign(flags, ids, value), ids, value) == Assign(flags, ids, value)
  {
  }

  /** The controller, reached through the client library. */
  class Controller {
    var uniqueId: Option<string>
    var hdo: Option<bool>
    var lowMode: LowMode
    var lowAssignments: seq<bool>
    var summerMode: Option<bool>
    var summerAssignments: seq<bool>
    var circuitSchedules: map<nat, Schedules>
    var schedules: map<nat, ScheduleBody>

    /** The whole state as one value. */
    function State(): DeviceState
      reads this
    {
      DeviceState(uniqueId, hdo, lowMode, lowAssignments, summerMode, summerAssignments,
                  circuitSchedules, schedules)
    }

    constructor (s: DeviceState)
      ensures State() == s
    {
      uniqueId, hdo := s.uniqueId, s.hdo;
      lowMode, lowAssignments := s.lowMode, s.lowAssignments;
      summerMode, summerAssignments := s.summerMode, s.summerAssignments;
      circuitSchedules, schedules := s.circuitSchedules, s.schedules;
    }

    method GetUniqueId() returns (r: Option<string>)
      ensures r == uniqueId
    {
      r := uniqueId;
    }

    method GetHdo() returns (r: Option<bool>)
      ensures r == hdo
    {
      r := hdo;
    }

    method GetLowMode() returns (r: LowMode)
      ensures r == lowMode
    {
      r := lowMode;
    }

    method GetLowModeAssignments() returns (r: seq<bool>)
      ensures r == lowAssignments
    {
      r := lowAssignments;
    }

    method GetSummerMode() returns (r: Option<bool>)
      ensures r == summerMode
    {
      r := summerMode;
    }

    method GetSummerModeAssignments() returns (r: seq<bool>)
      ensures r == summerAssignments
    {
      r := summerAssignments;
    }

    method GetCircuitSchedules(id: nat) returns (r: Schedules)
      requires id in circuitSchedules
      ensures r == circuitSchedules[id]
    {
      r := circuitSchedules[id];
    }

    method SetSummerMode(value: bool)
      modifies this
      ensures State() == WithSummerMode(old(State()), value)
    {
      summerMode := Some(value);
    }

    method SetSummerModeAssignments(ids: set<int>, value: bool)
      modifies this
      ensures State() == WithSummerAssignments(old(State()), ids, value)
    {
      summerAssignments := Assign(summerAssignments, ids, value);
    }

    method SetLowMode(enabled: bool, temperature: Option<real>)
      modifies this
      ensures State() == WithLowMode(old(State()), enabled, temperature)
    {
      var t := if temperature.Some? then temperature else lowMode.temperature;
      lowMode := lowMode.(enabled := enabled, temperature := t);
    }

    method SetLowModeAssignments(ids: set<int>, value: bool)
      modifies this
      ensures State() == WithLowAssignments(old(State()), ids, value)
    {
      lowAssignments := Assign(lowAssignments, ids, value);
    }

    method SetCircuitSchedules(id: nat, daySchedules: seq<int>, startingDay: Option<int>)
      modifies this
      ensures State() == WithCircuitSchedules(old(State()), id, daySchedules, startingDay)
    {
      var day :=
        if startingDay.Some? then startingDay
        else if id in circuitSchedules then circuitSchedules[id].startingDay
        else None;
      circuitSchedules := circuitSchedules[id := Schedules(daySchedules, day)];
    }

    method SetSchedule(id: nat, name: string, entries: seq<ScheduleEntry>)
      modifies this
      ensures State() == WithSchedule(old(State()), id, name, entries)
    {
      schedules := schedules[id := ScheduleBody(name, entries)];
    }
  }
}
