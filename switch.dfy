/**
 * The two controller-wide switches: "away mode" (the controller's low mode) and the power
 * switch (the inverse of the controller's summer mode).
 */
module Switch {
  import opened Wrappers
  import opened Device
  import opened Coordinator

  /** `[int(circuit.id) for circuit in data.circuits.values()]`, as the set the setters receive. */
  function SnapshotCircuitIds(data: Snapshot): set<int> {
    set k | k in data.circuits :: data.circuits[k].id
  }

  // ---------------------------------------------------------------------------------------
  // Away mode

  /** Turning away mode on or off: assign every circuit of the snapshot, then set low mode. */
  function AwayWrite(s: DeviceState, ids: set<int>, on: bool): DeviceState {
    WithLowMode(WithLowAssignments(s, ids, on), on, None)
  }

  /**
   * After the write low mode is `on`, with its stored temperature and start date kept; the
   * listed circuits are assigned `on`, every other index is untouched, and nothing outside
   * low mode changes.
   */
  lemma AwayWriteEffect(s: DeviceState, ids: set<int>, on: bool)
    ensures var t := AwayWrite(s, ids, on);
      && t.lowMode == s.lowMode.(enabled := on)
      && |t.lowAssignments| == |s.lowAssignments|
      && (forall j :: 0 <= j < |s.lowAssignments| ==>
            t.lowAssignments[j] == if j in ids then on else s.lowAssignments[j])
      && t.(lowMode := s.lowMode, lowAssignments := s.lowAssignments) == s
  {
  }

  /** Turning away mode on (or off) twice is the same as once; the last of on and off wins. */
  lemma {:induction false} AwayWriteIdempotent(s: DeviceState, ids: set<int>, on: bool, later: bool)
    ensures AwayWrite(AwayWrite(s, ids, on), ids, on) == AwayWrite(s, ids, on)
    ensures AwayWrite(AwayWrite(s, ids, on), ids, later) == AwayWrite(s, ids, later)
  {
    AssignIdempotent(s.lowAssignments, ids, on);
    assert Assign(Assign(s.lowAssignments, ids, on), ids, later) == Assign(s.lowAssignments, ids, later);
  }

  class AwayModeSwitch {
    const coordinator: UpdateCoordinator
    const name: string
    const uniqueId: string
    var isOn: Option<bool>
    var awayTemperature: Option<real>
    var awayStartDate: Option<string>

    constructor (coordinator: UpdateCoordinator, controllerUniqueId: string)
      ensures this.coordinator == coordinator
      ensures name == coordinator.deviceName + " Away Mode"
      ensures uniqueId == controllerUniqueId + "-away-mode-switch"
      ensures isOn == None && awayTemperature == None && awayStartDate == None
    {
      this.coordinator := coordinator;
      name := coordinator.deviceName + " Away Mode";
      uniqueId := controllerUniqueId + "-away-mode-switch";
      isOn, awayTemperature, awayStartDate := None, None, None;
    }

    /** The switch mirrors the controller's low mode. */
    method HandleCoordinatorUpdate(data: Snapshot)
      modifies this
      ensures isOn == Some(data.lowMode.enabled)
      ensures awayTemperature == data.lowMode.temperature && awayStartDate == data.lowMode.startDate
    {
      isOn := Some(data.lowMode.enabled);
      awayTemperature := data.lowMode.temperature;
      awayStartDate := data.lowMode.startDate;
    }

    method TurnOn()
      requires coordinator.data.Some?
      modifies coordinator.bmr, coordinator`refreshRequests
      ensures coordinator.bmr.State() == AwayWrite(old(coordinator.bmr.State()), SnapshotCircuitIds(coordinator.data.value), true)
      ensures coordinator.refreshRequests == old(coordinator.refreshRequests) + 1
    {
      var ids := SnapshotCircuitIds(coordinator.data.value);
      coordinator.bmr.SetLowModeAssignments(ids, true);
      coordinator.bmr.SetLowMode(true, None);
      coordinator.RequestRefresh();
    }

    method TurnOff()
      requires coordinator.data.Some?
      modifies coordinator.bmr, coordinator`refreshRequests
      ensures coordinator.bmr.State() == AwayWrite(old(coordinator.bmr.State()), SnapshotCircuitIds(coordinator.data.value), false)
      ensures coordinator.refreshRequests == old(coordinator.refreshRequests) + 1
    {
      var ids := SnapshotCircuitIds(coordinator.data.value);
      coordinator.bmr.SetLowModeAssignments(ids, false);
      coordinator.bmr.SetLowMode(false, None);
      coordinator.RequestRefresh();
    }
  }

  // ---------------------------------------------------------------------------------------
  // Power

  /**
   * `all(flags[c] for c in ids)`, evaluated left to right: `None` stands for the
   * `IndexError` raised by the first out-of-range id reached before a false flag.
   */
  function AllAssigned(flags: seq<bool>, ids: seq<nat>): Option<bool> {
    if |ids| == 0 then Some(true)
    else if ids[0] >= |flags| then None
    else if !flags[ids[0]] then Some(false)
    else AllAssigned(flags, ids[1..])
  }

  /** With every id in range, the evaluation yields whether every listed flag is set. */
  lemma {:induction false} AllAssignedInRange(flags: seq<bool>, ids: seq<nat>)
    requires forall i :: 0 <= i < |ids| ==> ids[i] < |flags|
    ensures AllAssigned(flags, ids) == Some(forall i :: 0 <= i < |ids| ==> flags[ids[i]])
  {
    if |ids| > 0 && flags[ids[0]] {
      AllAssignedInRange(flags, ids[1..]);
      assert forall i :: 1 <= i < |ids| ==> ids[1..][i - 1] == ids[i];
    }
  }

  /** The first `n` ids are in range and their flags are set. */
  predicate PrefixAssigned(flags: seq<bool>, ids: seq<nat>, n: nat)
    requires n <= |ids|
  {
    forall j :: 0 <= j < n ==> ids[j] < |flags| && flags[ids[j]]
  }

  /** Some id is out of range and every id before it is in range with its flag set. */
  predicate RaisesAt(flags: seq<bool>, ids: seq<nat>) {
    exists i :: 0 <= i < |ids| && ids[i] >= |flags| && PrefixAssigned(flags, ids, i)
  }

  /** The evaluation raises exactly when an out-of-range id comes before any false flag. */
  lemma {:induction false} AllAssignedRaises(flags: seq<bool>, ids: seq<nat>)
    ensures AllAssigned(flags, ids).None? <==> RaisesAt(flags, ids)
  {
    if |ids| > 0 && ids[0] < |flags| && flags[ids[0]] {
      var tail := ids[1..];
      AllAssignedRaises(flags, tail);
      if RaisesAt(flags, tail) {
        var i :| 0 <= i < |tail| && tail[i] >= |flags| && PrefixAssigned(flags, tail, i);
        assert ids[i + 1] == tail[i];
        assert PrefixAssigned(flags, ids, i + 1) by {
          forall j | 0 <= j < i + 1 ensures ids[j] < |flags| && flags[ids[j]] {
            if j > 0 { assert ids[j] == tail[j - 1]; }
          }
        }
      }
      if RaisesAt(flags, ids) {
        var i :| 0 <= i < |ids| && ids[i] >= |flags| && PrefixAssigned(flags, ids, i);
        assert tail[i - 1] == ids[i];
        assert PrefixAssigned(flags, tail, i - 1) by {
          forall j | 0 <= j < i - 1 ensures tail[j] < |flags| && flags[tail[j]] {
            assert tail[j] == ids[j + 1];
          }
        }
      }
    } else if |ids| > 0 && ids[0] >= |flags| {
      assert PrefixAssigned(flags, ids, 0);
    }
  }

  /** `not (summer_mode and all(...))`: `None` when the evaluation raises. */
  function PowerIsOn(summerMode: Option<bool>, flags: seq<bool>, ids: seq<nat>): Option<bool> {
    if !Truthy(summerMode) then Some(true)
    else match AllAssigned(flags, ids)
      case None => None
      case Some(all) => Some(!all)
  }

  /**
   * With every configured id in range, power is reported off exactly when summer mode is on
   * and every configured circuit is summer-assigned; with summer mode off nothing is read.
   */
  lemma {:induction false} PowerIsOnCases(summerMode: Option<bool>, flags: seq<bool>, ids: seq<nat>)
    ensures !Truthy(summerMode) ==> PowerIsOn(summerMode, flags, ids) == Some(true)
    ensures (forall i :: 0 <= i < |ids| ==> ids[i] < |flags|) ==>
      PowerIsOn(summerMode, flags, ids) == Some(!(Truthy(summerMode) && forall i :: 0 <= i < |ids| ==> flags[ids[i]]))
  {
    if forall i :: 0 <= i < |ids| ==> ids[i] < |flags| {
      AllAssignedInRange(flags, ids);
    }
  }

  /** Power on: summer mode off, then every circuit of the snapshot unassigned. */
  function PowerOnWrite(s: DeviceState, ids: set<int>): DeviceState {
    WithSummerAssignments(WithSummerMode(s, false), ids, false)
  }

  /** Power off: summer mode on, then every circuit of the snapshot assigned. */
  function PowerOffWrite(s: DeviceState, ids: set<int>): DeviceState {
    WithSummerAssignments(WithSummerMode(s, true), ids, true)
  }

  /** After power on, the switch reads on at the next poll, whatever the configured circuits. */
  lemma PowerOnReadsOn(s: DeviceState, ids: set<int>, configured: seq<nat>)
    ensures var t := PowerOnWrite(s, ids);
      && PowerIsOn(t.summerMode, t.summerAssignments, configured) == Some(true)
      && (forall j :: 0 <= j < |s.summerAssignments| ==>
            t.summerAssignments[j] == if j in ids then false else s.summerAssignments[j])
  {
  }

  /**
   * After power off, the switch reads off at the next poll exactly when every configured
   * circuit was either in the snapshot (and so assigned by the write) or already assigned:
   * a configured circuit the sanity check dropped from the snapshot keeps the power on.
   */
  lemma {:induction false} PowerOffReadsOff(s: DeviceState, ids: set<int>, configured: seq<nat>)
    requires forall i :: 0 <= i < |configured| ==> configured[i] < |s.summerAssignments|
    ensures var t := PowerOffWrite(s, ids);
      PowerIsOn(t.summerMode, t.summerAssignments, configured)
        == Some(!forall i :: 0 <= i < |configured| ==> configured[i] in ids || s.summerAssignments[configured[i]])
  {
    var t := PowerOffWrite(s, ids);
    PowerIsOnCases(t.summerMode, t.summerAssignments, configured);
  }

  /** Power on twice is power on once, and so is power off; the last of the two wins. */
  lemma {:induction false} PowerWritesIdempotent(s: DeviceState, ids: set<int>)
    ensures PowerOnWrite(PowerOnWrite(s, ids), ids) == PowerOnWrite(s, ids)
    ensures PowerOffWrite(PowerOffWrite(s, ids), ids) == PowerOffWrite(s, ids)
    ensures PowerOnWrite(PowerOffWrite(s, ids), ids) == PowerOnWrite(s, ids)
    ensures PowerOffWrite(PowerOnWrite(s, ids), ids) == PowerOffWrite(s, ids)
  {
    AssignIdempotent(s.summerAssignments, ids, false);
    AssignIdempotent(s.summerAssignments, ids, true);
    assert Assign(Assign(s.summerAssignments, ids, true), ids, false) == Assign(s.summerAssignments, ids, false);
    assert Assign(Assign(s.summerAssignments, ids, false), ids, true) == Assign(s.summerAssignments, ids, true);
  }

  class PowerSwitch {
    const coordinator: UpdateCoordinator
    /** The configured circuit ids, in subentry order. */
    const circuitIds: seq<nat>
    const name: string
    const uniqueId: string
    var isOn: Option<bool>

    constructor (coordinator: UpdateCoordinator, controllerUniqueId: string, circuitIds: seq<nat>)
      ensures this.coordinator == coordinator && this.circuitIds == circuitIds
      ensures name == coordinator.deviceName + " Power Switch"
      ensures uniqueId == controllerUniqueId + "-power-switch"
      ensures isOn == None
    {
      this.coordinator := coordinator;
      this.circuitIds := circuitIds;
      name := coordinator.deviceName + " Power Switch";
      uniqueId := controllerUniqueId + "-power-switch";
      isOn := None;
    }

    /** `ok` is false when the evaluation raised; the state is then left as it was. */
    method HandleCoordinatorUpdate(data: Snapshot) returns (ok: bool)
      modifies this
      ensures ok == PowerIsOn(data.summerMode, data.summerAssignments, circuitIds).Some?
      ensures ok ==> isOn == PowerIsOn(data.summerMode, data.summerAssignments, circuitIds)
      ensures !ok ==> unchanged(this)
    {
      var on := PowerIsOn(data.summerMode, data.summerAssignments, circuitIds);
      if on.None? {
        return false;
      }
      isOn := on;
      return true;
    }

    method TurnOn()
      requires coordinator.data.Some?
      modifies coordinator.bmr, coordinator`refreshRequests
      ensures coordinator.bmr.State() == PowerOnWrite(old(coordinator.bmr.State()), SnapshotCircuitIds(coordinator.data.value))
      ensures coordinator.refreshRequests == old(coordinator.refreshRequests) + 1
    {
      coordinator.bmr.SetSummerMode(false);
      coordinator.bmr.SetSummerModeAssignments(SnapshotCircuitIds(coordinator.data.value), false);
      coordinator.RequestRefresh();
    }

    method TurnOff()
      requires coordinator.data.Some?
      modifies coordinator.bmr, coordinator`refreshRequests
      ensures coordinator.bmr.State() == PowerOffWrite(old(coordinator.bmr.State()), SnapshotCircuitIds(coordinator.data.value))
      ensures coordinator.refreshRequests == old(coordinator.refreshRequests) + 1
    {
      coordinator.bmr.SetSummerMode(true);
      coordinator.bmr.SetSummerModeAssignments(SnapshotCircuitIds(coordinator.data.value), true);
      coordinator.RequestRefresh();
    }
  }
}
