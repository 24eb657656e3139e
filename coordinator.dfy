/**
 * The update coordinator: the circuit sanity check, the assembly of one controller
 * snapshot per poll, and the classification of a failed poll.
 *
 * Two things the code does differ from what its comments say, and the model follows the code:
 *   - the sanity check applies `abs` to the result of the comparison, not to the
 *     temperature difference, so only a RISE of 5.0 degrees or more is rejected;
 *   - an authentication failure inside the midnight window is not ignored: control falls
 *     through to the generic configuration error.
 * Neither this module nor the setup module imports `datetime`, so as written the
 * authentication branch stops with a `NameError` when it reads the clock. That defect is
 * recorded here and not modelled: `ClassifyFailure` takes the local time as a parameter and
 * runs the branch as it is evidently meant to.
 */
module Coordinator {
  import opened Wrappers
  import opened Device

  /** Largest accepted difference between two subsequent temperature readings of a circuit. */
  const MaxTemperatureDelta: real := 5.0

  const SecondsPerDay: int := 86400

  /** Length of the tolerance window on each side of midnight: 15 minutes. */
  const AuthGraceSeconds: int := 15 * 60

  /** The two subentry fields the coordinator reads: the circuit id and its friendly name. */
  datatype CircuitConfig = CircuitConfig(id: nat, name: string)

  /** The raw record returned by `getCircuit(id)`. */
  datatype CircuitReading = CircuitReading(
    id: int,
    name: string,
    enabled: Option<bool>,
    userOffset: Option<real>,
    maxOffset: Option<real>,
    warning: Option<bool>,
    heating: Option<bool>,
    cooling: Option<bool>,
    lowMode: Option<bool>,
    summerMode: Option<bool>,
    temperature: Option<real>,
    targetTemperature: Option<real>)

  /** The state of one heating circuit in a snapshot. */
  datatype CircuitState = CircuitState(
    id: int,
    name: string,
    friendlyName: string,
    enabled: Option<bool>,
    userOffset: Option<real>,
    maxOffset: Option<real>,
    warning: Option<bool>,
    heating: Option<bool>,
    cooling: Option<bool>,
    lowMode: Option<bool>,
    summerMode: Option<bool>,
    temperature: Option<real>,
    targetTemperature: Option<real>,
    schedules: Schedules)

  /** The state of the whole controller, keyed by configured circuit id. */
  datatype Snapshot = Snapshot(
    circuits: map<nat, CircuitState>,
    hdo: Option<bool>,
    uniqueId: Option<string>,
    lowMode: LowMode,
    lowAssignments: seq<bool>,
    summerMode: Option<bool>,
    summerAssignments: seq<bool>)

  /** The typed errors a failed poll (or a failed setup) raises to the host. */
  datatype SetupError =
    | ConfigEntryNotReady
    | ConfigEntryAuthFailed(message: string)
    | ConfigEntryError
      /** `e.args[0]` on an exception without arguments raises an `IndexError` in the handler. */
    | HandlerIndexError

  // ---------------------------------------------------------------------------------------
  // Sanity check

  /** Whether a fresh reading of a circuit may replace its previous state. */
  function SanityCheck(reading: CircuitReading, previous: Option<CircuitState>): bool {
    if previous.None? then true
    else if reading.id != previous.value.id then false
    else if reading.temperature.None? then false
    else if previous.value.temperature.Some?
         && reading.temperature.value - previous.value.temperature.value >= MaxTemperatureDelta
    then false
    else true
  }

  lemma FirstReadingAccepted(reading: CircuitReading)
    ensures SanityCheck(reading, None)
  {
  }

  lemma MismatchedIdRejected(reading: CircuitReading, previous: CircuitState)
    requires reading.id != previous.id
    ensures !SanityCheck(reading, Some(previous))
  {
  }

  lemma UndefinedTemperatureRejected(reading: CircuitReading, previous: CircuitState)
    requires reading.temperature.None?
    ensures !SanityCheck(reading, Some(previous))
  {
  }

  /** With both temperatures known, the check rejects exactly a rise of 5.0 degrees or more. */
  lemma TemperatureRuleIsOneSided(reading: CircuitReading, previous: CircuitState)
    requires reading.id == previous.id
    requires reading.temperature.Some? && previous.temperature.Some?
    ensures SanityCheck(reading, Some(previous))
            <==> reading.temperature.value - previous.temperature.value < MaxTemperatureDelta
    ensures reading.temperature.value <= previous.temperature.value ==> SanityCheck(reading, Some(previous))
  {
  }

  lemma UnknownPreviousTemperatureAccepted(reading: CircuitReading, previous: CircuitState)
    requires reading.id == previous.id && reading.temperature.Some? && previous.temperature.None?
    ensures SanityCheck(reading, Some(previous))
  {
  }

  /** The rule the comment at the constant describes: both drops and rises are bounded. */
  predicate WithinSymmetricBound(reading: CircuitReading, previous: Option<CircuitState>) {
    previous.None?
    || (reading.id == previous.value.id
        && reading.temperature.Some?
        && (previous.value.temperature.None?
            || (-MaxTemperatureDelta < reading.temperature.value - previous.value.temperature.value < MaxTemperatureDelta)))
  }

  /**
   * The check as written accepts everything the symmetric rule accepts, and in addition
   * exactly the readings that dropped by 5.0 degrees or more.
   */
  lemma {:induction false} SanityCheckVersusSymmetricBound(reading: CircuitReading, previous: Option<CircuitState>)
    ensures WithinSymmetricBound(reading, previous) ==> SanityCheck(reading, previous)
    ensures SanityCheck(reading, previous) && !WithinSymmetricBound(reading, previous)
            <==> (previous.Some? && reading.id == previous.value.id
                  && reading.temperature.Some? && previous.value.temperature.Some?
                  && reading.temperature.value - previous.value.temperature.value <= -MaxTemperatureDelta)
  {
  }

  // ---------------------------------------------------------------------------------------
  // Failure classification

  /** A local date and time: a day number and the seconds since that day's midnight. */
  datatype LocalTime = LocalTime(date: int, secondOfDay: int)

  predicate ValidTime(t: LocalTime) {
    0 <= t.secondOfDay < SecondsPerDay
  }

  /** The local time `seconds` later (earlier when negative). */
  function Shift(t: LocalTime, seconds: int): (r: LocalTime)
    ensures ValidTime(r)
    ensures r.date * SecondsPerDay + r.secondOfDay == t.date * SecondsPerDay + t.secondOfDay + seconds
  {
    var total := t.date * SecondsPerDay + t.secondOfDay + seconds;
    LocalTime(total / SecondsPerDay, total % SecondsPerDay)
  }

  /** The date 15 minutes ago and the date in 15 minutes are both today's date. */
  predicate AwayFromMidnight(now: LocalTime) {
    Shift(now, -AuthGraceSeconds).date == now.date && Shift(now, AuthGraceSeconds).date == now.date
  }

  /** Away from midnight means between 00:15:00 (inclusive) and 23:45:00 (exclusive). */
  lemma {:induction false} AwayFromMidnightBounds(now: LocalTime)
    requires ValidTime(now)
    ensures AwayFromMidnight(now) <==> AuthGraceSeconds <= now.secondOfDay < SecondsPerDay - AuthGraceSeconds
  {
    var before, after := Shift(now, -AuthGraceSeconds), Shift(now, AuthGraceSeconds);
    if AuthGraceSeconds <= now.secondOfDay {
      assert (before.date - now.date) * SecondsPerDay == now.secondOfDay - AuthGraceSeconds - before.secondOfDay;
    }
    if now.secondOfDay < SecondsPerDay - AuthGraceSeconds {
      assert (after.date - now.date) * SecondsPerDay == now.secondOfDay + AuthGraceSeconds - after.secondOfDay;
    }
  }

  /** The error a failed setup step or poll raises, given the exception and the local time. */
  function ClassifyFailure(e: DeviceError, now: LocalTime): SetupError
    requires ValidTime(now)
  {
    match e
    case Timeout => ConfigEntryNotReady
    case Raised(args) =>
      if |args| == 0 then HandlerIndexError
      else if args[0] == AuthFailureMessage && AwayFromMidnight(now) then ConfigEntryAuthFailed(args[0])
      else ConfigEntryError
  }

  /** The three outcomes of a failure, in terms of the exception and the time of day. */
  lemma {:induction false} ClassifyFailureOutcomes(e: DeviceError, now: LocalTime)
    requires ValidTime(now)
    ensures ClassifyFailure(e, now) == ConfigEntryNotReady <==> e.Timeout?
    ensures ClassifyFailure(e, now) == ConfigEntryAuthFailed(AuthFailureMessage)
            <==> (e.Raised? && |e.args| > 0 && e.args[0] == AuthFailureMessage
                  && 15 * 60 <= now.secondOfDay < 23 * 3600 + 45 * 60)
    ensures ClassifyFailure(e, now) == ConfigEntryError
            <==> (e.Raised? && |e.args| > 0
                  && (e.args[0] != AuthFailureMessage
                      || now.secondOfDay < 15 * 60 || 23 * 3600 + 45 * 60 <= now.secondOfDay))
    ensures ClassifyFailure(e, now) == HandlerIndexError <==> e == Raised([])
  {
    AwayFromMidnightBounds(now);
  }

  // ---------------------------------------------------------------------------------------
  // Snapshot assembly

  /** `self.data.circuits.get(circuit_id) if self.data else None`. */
  function PreviousCircuit(previous: Option<Snapshot>, id: nat): Option<CircuitState> {
    if previous.Some? && id in previous.value.circuits then Some(previous.value.circuits[id]) else None
  }

  /** The circuit record built from a reading that passed the check. */
  function MakeCircuitState(r: CircuitReading, friendlyName: string, schedules: Schedules): CircuitState {
    CircuitState(r.id, r.name, friendlyName, r.enabled, r.userOffset, r.maxOffset, r.warning,
                 r.heating, r.cooling, r.lowMode, r.summerMode, r.temperature, r.targetTemperature,
                 schedules)
  }

  /** The controller answers `getCircuitSchedules` for every configured circuit. */
  ghost predicate SchedulesReadable(dev: DeviceState, configs: seq<CircuitConfig>) {
    forall i :: 0 <= i < |configs| ==> configs[i].id in dev.circuitSchedules
  }

  /** The i-th configured circuit's reading passes the check against the previous snapshot. */
  predicate Admitted(configs: seq<CircuitConfig>, readings: seq<CircuitReading>, previous: Option<Snapshot>, i: int)
    requires |readings| == |configs| && 0 <= i < |configs|
  {
    SanityCheck(readings[i], PreviousCircuit(previous, configs[i].id))
  }

  /** The circuit map after the loop has visited the given configured circuits, in order. */
  ghost function AssembleCircuits(dev: DeviceState, configs: seq<CircuitConfig>, readings: seq<CircuitReading>,
                                  previous: Option<Snapshot>): map<nat, CircuitState>
    requires |readings| == |configs| && SchedulesReadable(dev, configs)
    decreases |configs|
  {
    if |configs| == 0 then map[]
    else
      var n := |configs| - 1;
      var m := AssembleCircuits(dev, configs[..n], readings[..n], previous);
      if Admitted(configs, readings, previous, n)
      then m[configs[n].id := MakeCircuitState(readings[n], configs[n].name, dev.circuitSchedules[configs[n].id])]
      else m
  }

  /** The snapshot of a poll that raised nothing. */
  ghost function PollSnapshot(dev: DeviceState, configs: seq<CircuitConfig>, readings: seq<CircuitReading>,
                              previous: Option<Snapshot>): Snapshot
    requires |readings| == |configs| && SchedulesReadable(dev, configs)
  {
    Snapshot(AssembleCircuits(dev, configs, readings, previous), dev.hdo, dev.uniqueId, dev.lowMode,
             dev.lowAssignments, dev.summerMode, dev.summerAssignments)
  }

  /** The snapshot holds exactly the configured circuits whose reading passed the check. */
  lemma {:induction false} AssembledKeys(dev: DeviceState, configs: seq<CircuitConfig>, readings: seq<CircuitReading>,
                                         previous: Option<Snapshot>)
    requires |readings| == |configs| && SchedulesReadable(dev, configs)
    ensures AssembleCircuits(dev, configs, readings, previous).Keys
            == set i | 0 <= i < |configs| && Admitted(configs, readings, previous, i) :: configs[i].id
    decreases |configs|
  {
    if |configs| > 0 {
      var n := |configs| - 1;
      var cs, rs := configs[..n], readings[..n];
      assert SchedulesReadable(dev, cs) by {
        forall i | 0 <= i < |cs| ensures cs[i].id in dev.circuitSchedules {
          assert cs[i] == configs[i];
        }
      }
      AssembledKeys(dev, cs, rs, previous);
      assert forall i :: 0 <= i < n ==> cs[i] == configs[i] && rs[i] == readings[i];
      assert forall i :: 0 <= i < n ==> (Admitted(cs, rs, previous, i) <==> Admitted(configs, readings, previous, i));
    }
  }

  /** Every entry reports the controller's schedules for its key and comes from a configured circuit. */
  lemma {:induction false} AssembledEntries(dev: DeviceState, configs: seq<CircuitConfig>, readings: seq<CircuitReading>,
                                            previous: Option<Snapshot>, k: nat)
    requires |readings| == |configs| && SchedulesReadable(dev, configs)
    requires k in AssembleCircuits(dev, configs, readings, previous)
    ensures k in dev.circuitSchedules
    ensures AssembleCircuits(dev, configs, readings, previous)[k].schedules == dev.circuitSchedules[k]
    ensures exists i :: 0 <= i < |configs| && configs[i].id == k && Admitted(configs, readings, previous, i)
              && AssembleCircuits(dev, configs, readings, previous)[k]
                 == MakeCircuitState(readings[i], configs[i].name, dev.circuitSchedules[k])
    decreases |configs|
  {
    var n := |configs| - 1;
    var cs, rs := configs[..n], readings[..n];
    assert SchedulesReadable(dev, cs) by {
      forall i | 0 <= i < |cs| ensures cs[i].id in dev.circuitSchedules {
        assert cs[i] == configs[i];
      }
    }
    if Admitted(configs, readings, previous, n) && configs[n].id == k {
    } else {
      AssembledEntries(dev, cs, rs, previous, k);
      var i :| 0 <= i < |cs| && cs[i].id == k && Admitted(cs, rs, previous, i)
               && AssembleCircuits(dev, cs, rs, previous)[k] == MakeCircuitState(rs[i], cs[i].name, dev.circuitSchedules[k]);
      assert cs[i] == configs[i] && rs[i] == readings[i];
      assert Admitted(configs, readings, previous, i);
    }
  }

  /** No two subentries configure the same circuit (their unique ids are "circuit-<id>"). */
  predicate DistinctIds(configs: seq<CircuitConfig>) {
    forall i, j :: 0 <= i < j < |configs| ==> configs[i].id != configs[j].id
  }

  /**
   * With distinct circuit ids, a configured circuit is in the snapshot iff its reading passed,
   * and then its entry copies the reading verbatim, takes its friendly name from the
   * configuration and its schedules from the controller; other circuits do not affect it.
   */
  lemma {:induction false} AssembledCircuit(dev: DeviceState, configs: seq<CircuitConfig>, readings: seq<CircuitReading>,
                                            previous: Option<Snapshot>, i: nat)
    requires |readings| == |configs| && SchedulesReadable(dev, configs) && DistinctIds(configs)
    requires i < |configs|
    ensures configs[i].id in AssembleCircuits(dev, configs, readings, previous)
            <==> Admitted(configs, readings, previous, i)
    ensures Admitted(configs, readings, previous, i) ==>
              AssembleCircuits(dev, configs, readings, previous)[configs[i].id]
              == MakeCircuitState(readings[i], configs[i].name, dev.circuitSchedules[configs[i].id])
  {
    var m := AssembleCircuits(dev, configs, readings, previous);
    var k := configs[i].id;
    AssembledKeys(dev, configs, readings, previous);
    if k in m {
      AssembledEntries(dev, configs, readings, previous, k);
      var j :| 0 <= j < |configs| && configs[j].id == k && Admitted(configs, readings, previous, j)
               && m[k] == MakeCircuitState(readings[j], configs[j].name, dev.circuitSchedules[k]);
      assert j == i;
    } else {
      assert !Admitted(configs, readings, previous, i);
    }
  }

  /** The controller-wide fields of a snapshot are copied from the controller unchanged. */
  lemma PollCopiesControllerFields(dev: DeviceState, configs: seq<CircuitConfig>, readings: seq<CircuitReading>,
                                   previous: Option<Snapshot>)
    requires |readings| == |configs| && SchedulesReadable(dev, configs)
    ensures var s := PollSnapshot(dev, configs, readings, previous);
            s.uniqueId == dev.uniqueId && s.hdo == dev.hdo && s.lowMode == dev.lowMode
            && s.lowAssignments == dev.lowAssignments && s.summerMode == dev.summerMode
            && s.summerAssignments == dev.summerAssignments
  {
  }

  // ---------------------------------------------------------------------------------------
  // The coordinator object

  /** Owns the controller client, the latest snapshot and the refresh requests made by entities. */
  class UpdateCoordinator {
    const bmr: Controller
    /** The title of the config entry. */
    const deviceName: string
    var data: Option<Snapshot>
    /** How many out-of-cycle refreshes have been requested. */
    var refreshRequests: nat

    constructor (bmr: Controller, deviceName: string)
      ensures this.bmr == bmr && this.deviceName == deviceName
      ensures data == None && refreshRequests == 0
    {
      this.bmr := bmr;
      this.deviceName := deviceName;
      data := None;
      refreshRequests := 0;
    }

    method RequestRefresh()
      modifies this`refreshRequests
      ensures refreshRequests == old(refreshRequests) + 1
    {
      refreshRequests := refreshRequests + 1;
    }

    /**
     * A refresh as the host runs it (scheduled every 60 seconds, or requested): a successful
     * poll replaces `data`, a failed one keeps the previous snapshot and reports the error.
     */
    method Refresh(configs: seq<CircuitConfig>, readings: seq<CircuitReading>, fault: Option<DeviceError>,
                   now: LocalTime) returns (r: Result<Snapshot, SetupError>)
      requires |readings| == |configs| && ValidTime(now)
      requires fault.None? ==> SchedulesReadable(bmr.State(), configs)
      modifies this`data
      ensures fault.Some? ==> r == Failure(ClassifyFailure(fault.value, now)) && data == old(data)
      ensures fault.None? ==> r == Success(PollSnapshot(bmr.State(), configs, readings, old(data))) && data == Some(r.value)
    {
      r := UpdateData(configs, readings, fault, now);
      if r.Success? {
        data := Some(r.value);
      }
    }

    /**
     * One poll. `readings[i]` is what `getCircuit` returned for `configs[i]`; `fault`, when
     * present, is the exception some call of the poll raised (the reads change nothing, so
     * which call raised does not matter); `now` is the local time the handler would read.
     */
    method UpdateData(configs: seq<CircuitConfig>, readings: seq<CircuitReading>, fault: Option<DeviceError>,
                      now: LocalTime) returns (r: Result<Snapshot, SetupError>)
      requires |readings| == |configs| && ValidTime(now)
      requires fault.None? ==> SchedulesReadable(bmr.State(), configs)
      ensures fault.Some? ==> r == Failure(ClassifyFailure(fault.value, now))
      ensures fault.None? ==> r == Success(PollSnapshot(bmr.State(), configs, readings, data))
    {
      if fault.Some? {
        return Failure(ClassifyFailure(fault.value, now));
      }
      var uniqueId := bmr.GetUniqueId();
      var hdo := bmr.GetHdo();
      var lowMode := bmr.GetLowMode();
      var lowAssignments := bmr.GetLowModeAssignments();
      var summerMode := bmr.GetSummerMode();
      var summerAssignments := bmr.GetSummerModeAssignments();

      var circuits: map<nat, CircuitState> := map[];
      var i := 0;
      while i < |configs|
        invariant 0 <= i <= |configs|
        invariant SchedulesReadable(bmr.State(), configs[..i])
        invariant circuits == AssembleCircuits(bmr.State(), configs[..i], readings[..i], data)
      {
        var c := configs[i];
        var schedules := bmr.GetCircuitSchedules(c.id);
        var previous := PreviousCircuit(data, c.id);
        assert configs[..i + 1][..i] == configs[..i] && readings[..i + 1][..i] == readings[..i];
        if SanityCheck(readings[i], previous) {
          circuits := circuits[c.id := MakeCircuitState(readings[i], c.name, schedules)];
        }
        i := i + 1;
      }
      assert configs[..i] == configs && readings[..i] == readings;
      return Success(Snapshot(circuits, hdo, uniqueId, lowMode, lowAssignments, summerMode, summerAssignments));
    }
  }
}
