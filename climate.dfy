/**
 * The climate entity of one heating circuit: the derivation of preset, HVAC mode and HVAC
 * action from the latest snapshot, and the three write procedures (HVAC mode, preset,
 * target temperature) as sequences of controller calls.
 *
 * Each write procedure is specified by a function on `DeviceState` that follows the same
 * calls; the lemmas below say what the next poll will then derive.
 */
module Climate {
  import opened Wrappers
  import opened Device
  import opened Coordinator
  import opened Naming

  datatype HvacMode = Off | Heat | Cool | HeatCool | Auto

  datatype HvacAction = ActionOff | Heating | Cooling | Idle

  const PresetNone: string := "none"
  const PresetAway: string := "away"

  /** The configuration of the entity, from the controller entry and the circuit subentry. */
  datatype ClimateSettings = ClimateSettings(
    circuitId: nat,
    circuitName: string,
    manualSchedule: nat,
    autoSchedules: seq<int>,
    autoStartingDay: int,
    awayTemperature: real,
    minTemperature: real,
    maxTemperature: real,
    enableCooling: bool)

  /** The modes the entity offers. */
  function HvacModes(enableCooling: bool): seq<HvacMode> {
    if enableCooling then [Auto, Cool, Heat, HeatCool, Off] else [Auto, Heat, Off]
  }

  /** The mode reported while the override schedule is assigned. */
  function HeatMode(cfg: ClimateSettings): HvacMode {
    if cfg.enableCooling then HeatCool else Heat
  }

  function PresetModeOf(lowMode: Option<LowMode>): Option<string> {
    if lowMode.None? then None
    else if lowMode.value.enabled then Some(PresetAway)
    else Some(PresetNone)
  }

  /** The circuit's index into the summer-mode list is in range whenever it is looked up. */
  predicate Indexable(circuit: Option<CircuitState>, summerMode: Option<bool>, assignments: Option<seq<bool>>, id: nat) {
    circuit.Some? && summerMode.Some? && assignments.Some? ==> id < |assignments.value|
  }

  function HvacModeOf(circuit: Option<CircuitState>, summerMode: Option<bool>, assignments: Option<seq<bool>>,
                      cfg: ClimateSettings): Option<HvacMode>
    requires Indexable(circuit, summerMode, assignments, cfg.circuitId)
  {
    if circuit.None? || summerMode.None? || assignments.None? then None
    else if assignments.value[cfg.circuitId] then Some(Off)
    else if circuit.value.schedules.daySchedules == [cfg.manualSchedule] then Some(HeatMode(cfg))
    else Some(Auto)
  }

  function HvacActionOf(circuit: Option<CircuitState>, summerMode: Option<bool>, assignments: Option<seq<bool>>,
                        id: nat): Option<HvacAction>
    requires Indexable(circuit, summerMode, assignments, id)
  {
    if circuit.None? || summerMode.None? || assignments.None? then None
    else if assignments.value[id] then Some(ActionOff)
    else if Truthy(circuit.value.heating) then Some(Heating)
    else if Truthy(circuit.value.cooling) then Some(Cooling)
    else Some(Idle)
  }

  /** The preset follows the controller-wide low mode alone. */
  lemma PresetModeCases(lowMode: Option<LowMode>)
    ensures PresetModeOf(lowMode) == None <==> lowMode.None?
    ensures PresetModeOf(lowMode) == Some(PresetAway) <==> lowMode.Some? && lowMode.value.enabled
    ensures PresetModeOf(lowMode) == Some(PresetNone) <==> lowMode.Some? && !lowMode.value.enabled
  {
  }

  /**
   * The derived mode is one the entity offers; it is OFF exactly when the circuit is
   * summer-assigned (whatever the summer-mode flag says), the heat mode exactly when the
   * circuit is not summer-assigned and runs the override schedule alone, and AUTO otherwise.
   */
  lemma HvacModeCases(circuit: Option<CircuitState>, summerMode: Option<bool>, assignments: Option<seq<bool>>,
                      cfg: ClimateSettings)
    requires Indexable(circuit, summerMode, assignments, cfg.circuitId)
    ensures var m := HvacModeOf(circuit, summerMode, assignments, cfg);
      && (m.None? <==> circuit.None? || summerMode.None? || assignments.None?)
      && (m.Some? ==> m.value in HvacModes(cfg.enableCooling) && m.value != Cool)
      && (m == Some(Off) <==> m.Some? && assignments.value[cfg.circuitId])
      && (m == Some(HeatMode(cfg)) <==>
            m.Some? && !assignments.value[cfg.circuitId] && circuit.value.schedules.daySchedules == [cfg.manualSchedule])
      && (m == Some(Auto) <==>
            m.Some? && !assignments.value[cfg.circuitId] && circuit.value.schedules.daySchedules != [cfg.manualSchedule])
  {
  }

  /** The action is OFF for a summer-assigned circuit; otherwise heating wins over cooling. */
  lemma HvacActionCases(circuit: Option<CircuitState>, summerMode: Option<bool>, assignments: Option<seq<bool>>, id: nat,
                        cfg: ClimateSettings)
    requires id == cfg.circuitId && Indexable(circuit, summerMode, assignments, id)
    ensures var a := HvacActionOf(circuit, summerMode, assignments, id);
      && (a.None? <==> HvacModeOf(circuit, summerMode, assignments, cfg).None?)
      && (a == Some(ActionOff) <==> HvacModeOf(circuit, summerMode, assignments, cfg) == Some(Off))
      && (a == Some(Heating) <==> a.Some? && !assignments.value[id] && Truthy(circuit.value.heating))
      && (a == Some(Cooling) <==> a.Some? && !assignments.value[id] && !Truthy(circuit.value.heating)
                                  && Truthy(circuit.value.cooling))
  {
  }

  // ---------------------------------------------------------------------------------------
  // Write procedures as functions on the controller state

  /** `async_set_hvac_mode`: the summer-mode part, then the schedule part. */
  function HvacModeWrite(s: DeviceState, cfg: ClimateSettings, mode: HvacMode): DeviceState {
    var ids := {cfg.circuitId as int};
    var s1 :=
      if mode == Off then
        var a := WithSummerAssignments(s, ids, true);
        if !Truthy(a.summerMode) then WithSummerMode(a, true) else a
      else
        var a := WithSummerAssignments(s, ids, false);
        if !AnyAssigned(a.summerAssignments) then WithSummerMode(a, false) else a;
    if mode == Heat || mode == HeatCool
    then WithCircuitSchedules(s1, cfg.circuitId, [cfg.manualSchedule], None)
    else WithCircuitSchedules(s1, cfg.circuitId, cfg.autoSchedules, Some(cfg.autoStartingDay))
  }

  /** `async_set_preset_mode`. */
  function PresetWrite(s: DeviceState, cfg: ClimateSettings, preset: string): DeviceState {
    var ids := {cfg.circuitId as int};
    if preset == PresetAway then
      var a := WithLowAssignments(s, ids, true);
      if !a.lowMode.enabled then WithLowMode(a, true, Some(cfg.awayTemperature)) else a
    else
      var a := WithLowAssignments(s, ids, false);
      if !AnyAssigned(a.lowAssignments) then WithLowMode(a, false, None) else a
  }

  /** The override schedule's name. */
  function OverrideName(cfg: ClimateSettings): string {
    cfg.circuitName + " override"
  }

  predicate InHeatMode(cached: Option<HvacMode>) {
    cached == Some(Heat) || cached == Some(HeatCool)
  }

  /** `async_set_temperature`, given the mode the entity had cached. */
  function TemperatureWrite(s: DeviceState, cfg: ClimateSettings, temperature: Option<real>,
                            cached: Option<HvacMode>): DeviceState {
    var a := WithSchedule(s, cfg.manualSchedule, OverrideName(cfg), [ScheduleEntry("00:00", temperature)]);
    if InHeatMode(cached) then a else HvacModeWrite(a, cfg, HeatMode(cfg))
  }

  /** The mode a circuit record with the new controller state's schedules would derive. */
  ghost predicate DerivesMode(s: DeviceState, cfg: ClimateSettings, mode: HvacMode)
    requires cfg.circuitId < |s.summerAssignments| && cfg.circuitId in s.circuitSchedules
  {
    forall c: CircuitState :: c.schedules == s.circuitSchedules[cfg.circuitId] ==>
      HvacModeOf(Some(c), s.summerMode, Some(s.summerAssignments), cfg) == Some(mode)
  }

  /** The cases in which `any(...)` of an assignment list stays true once one index was cleared. */
  lemma AnyAfterClear(flags: seq<bool>, id: nat)
    requires id < |flags|
    ensures AnyAssigned(Assign(flags, {id as int}, false))
            <==> exists j :: 0 <= j < |flags| && j != id && flags[j]
  {
    var r := Assign(flags, {id as int}, false);
    if AnyAssigned(r) {
      var j :| 0 <= j < |r| && r[j];
      assert j != id && flags[j];
    }
    if exists j :: 0 <= j < |flags| && j != id && flags[j] {
      var j :| 0 <= j < |flags| && j != id && flags[j];
      assert r[j];
    }
  }

  /**
   * Setting OFF: the circuit becomes summer-assigned, summer mode is on, the circuit's
   * schedules are the configured rotation from the configured starting day, every other
   * circuit keeps its assignment, nothing else on the controller changes, and the next poll derives OFF.
   */
  lemma {:induction false} SetOffEffect(s: DeviceState, cfg: ClimateSettings)
    requires cfg.circuitId < |s.summerAssignments|
    ensures var t := HvacModeWrite(s, cfg, Off);
      && |t.summerAssignments| == |s.summerAssignments|
      && t.summerAssignments[cfg.circuitId]
      && (forall j :: 0 <= j < |s.summerAssignments| && j != cfg.circuitId ==> t.summerAssignments[j] == s.summerAssignments[j])
      && t.summerMode == Some(true)
      && (Truthy(s.summerMode) ==> t.summerMode == s.summerMode)
      && t.circuitSchedules == s.circuitSchedules[cfg.circuitId := Schedules(cfg.autoSchedules, Some(cfg.autoStartingDay))]
      && t.(summerMode := s.summerMode, summerAssignments := s.summerAssignments, circuitSchedules := s.circuitSchedules) == s
      && DerivesMode(t, cfg, Off)
  {
    var t := HvacModeWrite(s, cfg, Off);
    assert t.summerAssignments == Assign(s.summerAssignments, {cfg.circuitId as int}, true);
  }

  /**
   * Setting any other mode: the circuit is no longer summer-assigned, every other circuit
   * keeps its assignment, and summer mode is switched off exactly when no circuit remains
   * assigned (otherwise it is left as it was). Only this circuit's schedules are written, and nothing
   * else on the controller changes.
   */
  lemma {:induction false} SetOnEffect(s: DeviceState, cfg: ClimateSettings, mode: HvacMode)
    requires mode != Off && cfg.circuitId < |s.summerAssignments|
    ensures var t := HvacModeWrite(s, cfg, mode);
      && |t.summerAssignments| == |s.summerAssignments|
      && !t.summerAssignments[cfg.circuitId]
      && (forall j :: 0 <= j < |s.summerAssignments| && j != cfg.circuitId ==> t.summerAssignments[j] == s.summerAssignments[j])
      && t.summerMode == (if exists j :: 0 <= j < |s.summerAssignments| && j != cfg.circuitId && s.summerAssignments[j]
                          then s.summerMode else Some(false))
      && cfg.circuitId in t.circuitSchedules
      && t.circuitSchedules == s.circuitSchedules[cfg.circuitId := t.circuitSchedules[cfg.circuitId]]
      && t.(summerMode := s.summerMode, summerAssignments := s.summerAssignments, circuitSchedules := s.circuitSchedules) == s
  {
    var t := HvacModeWrite(s, cfg, mode);
    assert t.summerAssignments == Assign(s.summerAssignments, {cfg.circuitId as int}, false);
    AnyAfterClear(s.summerAssignments, cfg.circuitId);
  }

  /**
   * Setting HEAT or HEAT_COOL assigns the override schedule alone, and the next poll derives
   * the heat mode (HEAT_COOL when cooling is enabled, whichever of the two was asked for).
   */
  lemma {:induction false} SetHeatDerivesHeat(s: DeviceState, cfg: ClimateSettings, mode: HvacMode)
    requires mode == Heat || mode == HeatCool
    requires cfg.circuitId < |s.summerAssignments| && s.summerMode.Some?
    ensures var t := HvacModeWrite(s, cfg, mode);
      && t.circuitSchedules[cfg.circuitId].daySchedules == [cfg.manualSchedule]
      && DerivesMode(t, cfg, HeatMode(cfg))
  {
    SetOnEffect(s, cfg, mode);
  }

  /** COOL is written exactly like AUTO. */
  lemma CoolWritesLikeAuto(s: DeviceState, cfg: ClimateSettings)
    ensures HvacModeWrite(s, cfg, Cool) == HvacModeWrite(s, cfg, Auto)
  {
  }

  /**
   * Setting AUTO (or COOL) restores the configured rotation; the next poll derives AUTO
   * unless the configured rotation is the override schedule alone.
   */
  lemma {:induction false} SetAutoDerivesAuto(s: DeviceState, cfg: ClimateSettings, mode: HvacMode)
    requires mode == Auto || mode == Cool
    requires cfg.circuitId < |s.summerAssignments| && s.summerMode.Some?
    ensures var t := HvacModeWrite(s, cfg, mode);
      && t.circuitSchedules[cfg.circuitId] == Schedules(cfg.autoSchedules, Some(cfg.autoStartingDay))
      && DerivesMode(t, cfg, if cfg.autoSchedules == [cfg.manualSchedule] then HeatMode(cfg) else Auto)
  {
    SetOnEffect(s, cfg, mode);
  }

  /**
   * OFF followed by AUTO: the circuit runs the configured rotation again and is no longer
   * summer-assigned, no other circuit's assignment moved, and summer mode ends up on exactly
   * when some other circuit was summer-assigned before (those circuits are then off). Nothing else
   * on the controller changes.
   */
  lemma {:induction false} OffThenAuto(s: DeviceState, cfg: ClimateSettings)
    requires cfg.circuitId < |s.summerAssignments|
    ensures var t := HvacModeWrite(HvacModeWrite(s, cfg, Off), cfg, Auto);
      && t.circuitSchedules[cfg.circuitId] == Schedules(cfg.autoSchedules, Some(cfg.autoStartingDay))
      && !t.summerAssignments[cfg.circuitId]
      && (forall j :: 0 <= j < |s.summerAssignments| && j != cfg.circuitId ==> t.summerAssignments[j] == s.summerAssignments[j])
      && t.summerMode == Some(exists j :: 0 <= j < |s.summerAssignments| && j != cfg.circuitId && s.summerAssignments[j])
      && t.circuitSchedules == s.circuitSchedules[cfg.circuitId := Schedules(cfg.autoSchedules, Some(cfg.autoStartingDay))]
      && t.(summerMode := s.summerMode, summerAssignments := s.summerAssignments, circuitSchedules := s.circuitSchedules) == s
  {
    var u := HvacModeWrite(s, cfg, Off);
    SetOffEffect(s, cfg);
    SetOnEffect(u, cfg, Auto);
    assert (exists j :: 0 <= j < |u.summerAssignments| && j != cfg.circuitId && u.summerAssignments[j])
       <==> (exists j :: 0 <= j < |s.summerAssignments| && j != cfg.circuitId && s.summerAssignments[j]);
  }

  /**
   * Preset "away" assigns the circuit to low mode and leaves low mode enabled; when it was
   * disabled it is enabled with the configured away temperature, otherwise it is untouched.
   * Every other circuit keeps its assignment, and nothing outside low mode changes. The next poll
   * derives the "away" preset.
   */
  lemma {:induction false} AwayPresetEffect(s: DeviceState, cfg: ClimateSettings)
    requires cfg.circuitId < |s.lowAssignments|
    ensures var t := PresetWrite(s, cfg, PresetAway);
      && |t.lowAssignments| == |s.lowAssignments|
      && t.lowAssignments[cfg.circuitId]
      && (forall j :: 0 <= j < |s.lowAssignments| && j != cfg.circuitId ==> t.lowAssignments[j] == s.lowAssignments[j])
      && t.lowMode.enabled
      && (s.lowMode.enabled ==> t.lowMode == s.lowMode)
      && (!s.lowMode.enabled ==> t.lowMode == s.lowMode.(enabled := true, temperature := Some(cfg.awayTemperature)))
      && PresetModeOf(Some(t.lowMode)) == Some(PresetAway)
      && t.(lowMode := s.lowMode, lowAssignments := s.lowAssignments) == s
  {
    var t := PresetWrite(s, cfg, PresetAway);
    assert t.lowAssignments == Assign(s.lowAssignments, {cfg.circuitId as int}, true);
  }

  /**
   * Any other preset removes the circuit from low mode and disables low mode exactly when
   * no circuit remains assigned; otherwise low mode is left as it was. Nothing outside low mode
   * changes.
   */
  lemma {:induction false} OtherPresetEffect(s: DeviceState, cfg: ClimateSettings, preset: string)
    requires preset != PresetAway && cfg.circuitId < |s.lowAssignments|
    ensures var t := PresetWrite(s, cfg, preset);
      && |t.lowAssignments| == |s.lowAssignments|
      && !t.lowAssignments[cfg.circuitId]
      && (forall j :: 0 <= j < |s.lowAssignments| && j != cfg.circuitId ==> t.lowAssignments[j] == s.lowAssignments[j])
      && t.lowMode == (if exists j :: 0 <= j < |s.lowAssignments| && j != cfg.circuitId && s.lowAssignments[j]
                       then s.lowMode else s.lowMode.(enabled := false))
      && t.(lowMode := s.lowMode, lowAssignments := s.lowAssignments) == s
  {
    var t := PresetWrite(s, cfg, preset);
    assert t.lowAssignments == Assign(s.lowAssignments, {cfg.circuitId as int}, false);
    AnyAfterClear(s.lowAssignments, cfg.circuitId);
  }

  /**
   * Setting a temperature makes the override schedule one 00:00 entry at that temperature,
   * named after the circuit, and no other schedule body changes. When the cached mode was a
   * heat mode nothing else changes; otherwise only this circuit's schedules and the summer-mode
   * fields change, and the next poll derives the heat mode.
   */
  lemma {:induction false} SetTemperatureEffect(s: DeviceState, cfg: ClimateSettings, temperature: Option<real>,
                                                cached: Option<HvacMode>)
    requires cfg.circuitId < |s.summerAssignments| && s.summerMode.Some?
    ensures var t := TemperatureWrite(s, cfg, temperature, cached);
      && t.schedules == s.schedules[cfg.manualSchedule := ScheduleBody(OverrideName(cfg), [ScheduleEntry("00:00", temperature)])]
      && (!InHeatMode(cached) ==> DerivesMode(t, cfg, HeatMode(cfg)))
      && (!InHeatMode(cached) ==>
            && cfg.circuitId in t.circuitSchedules
            && t.circuitSchedules == s.circuitSchedules[cfg.circuitId := t.circuitSchedules[cfg.circuitId]]
            && t.(schedules := s.schedules, circuitSchedules := s.circuitSchedules,
                  summerAssignments := s.summerAssignments, summerMode := s.summerMode) == s)
      && (InHeatMode(cached) ==> t.(schedules := s.schedules) == s)
  {
    var a := WithSchedule(s, cfg.manualSchedule, OverrideName(cfg), [ScheduleEntry("00:00", temperature)]);
    if !InHeatMode(cached) {
      SetHeatDerivesHeat(a, cfg, HeatMode(cfg));
    }
  }

  // ---------------------------------------------------------------------------------------
  // The entity

  class ClimateEntity {
    const coordinator: UpdateCoordinator
    const settings: ClimateSettings
    const name: string
    const uniqueId: string
    const hvacModes: seq<HvacMode>
    const presetModes: seq<string>
    const minTemperature: real
    const maxTemperature: real

    var circuitState: Option<CircuitState>
    var summerMode: Option<bool>
    var summerAssignments: Option<seq<bool>>
    var lowMode: Option<LowMode>
    var lowAssignments: Option<seq<bool>>
    var presetMode: Option<string>
    var hvacMode: Option<HvacMode>
    var hvacAction: Option<HvacAction>
    var currentTemperature: Option<real>
    var targetTemperature: Option<real>

    constructor (coordinator: UpdateCoordinator, controllerUniqueId: string, circuitUniqueId: string,
                 settings: ClimateSettings)
      ensures this.coordinator == coordinator && this.settings == settings
      ensures name == coordinator.deviceName + " " + settings.circuitName
      ensures uniqueId == EntityUniqueId(controllerUniqueId, circuitUniqueId, "climate")
      ensures hvacModes == HvacModes(settings.enableCooling) && presetModes == [PresetNone, PresetAway]
      ensures minTemperature == settings.minTemperature && maxTemperature == settings.maxTemperature
      ensures circuitState == None && summerMode == None && lowMode == None
      ensures summerAssignments == Some([]) && lowAssignments == Some([])
      ensures presetMode == None && hvacMode == None && hvacAction == None
      ensures currentTemperature == None && targetTemperature == None
    {
      this.coordinator := coordinator;
      this.settings := settings;
      name := coordinator.deviceName + " " + settings.circuitName;
      uniqueId := EntityUniqueId(controllerUniqueId, circuitUniqueId, "climate");
      hvacModes := HvacModes(settings.enableCooling);
      presetModes := [PresetNone, PresetAway];
      minTemperature, maxTemperature := settings.minTemperature, settings.maxTemperature;
      circuitState, summerMode, lowMode := None, None, None;
      // The source starts both assignment fields as an empty dict, which is not None.
      summerAssignments, lowAssignments := Some([]), Some([]);
      presetMode, hvacMode, hvacAction := None, None, None;
      currentTemperature, targetTemperature := None, None;
    }

    /**
     * `_handle_coordinator_update`. The lookup of the circuit raises when the sanity check
     * dropped it from the snapshot (`ok` false); nothing is assigned then.
     */
    method HandleCoordinatorUpdate(data: Snapshot) returns (ok: bool)
      requires settings.circuitId in data.circuits && data.summerMode.Some? ==>
                 settings.circuitId < |data.summerAssignments|
      modifies this
      ensures ok == (settings.circuitId in data.circuits)
      ensures !ok ==> unchanged(this)
      ensures ok ==>
        && circuitState == Some(data.circuits[settings.circuitId])
        && summerMode == data.summerMode && summerAssignments == Some(data.summerAssignments)
        && lowMode == Some(data.lowMode) && lowAssignments == Some(data.lowAssignments)
        && presetMode == PresetModeOf(lowMode)
        && hvacMode == HvacModeOf(circuitState, summerMode, summerAssignments, settings)
        && hvacAction == HvacActionOf(circuitState, summerMode, summerAssignments, settings.circuitId)
        && currentTemperature == data.circuits[settings.circuitId].temperature
        && targetTemperature == data.circuits[settings.circuitId].targetTemperature
    {
      if settings.circuitId !in data.circuits {
        return false;
      }
      circuitState := Some(data.circuits[settings.circuitId]);
      summerMode := data.summerMode;
      summerAssignments := Some(data.summerAssignments);
      lowMode := Some(data.lowMode);
      lowAssignments := Some(data.lowAssignments);
      presetMode := PresetModeOf(lowMode);
      hvacMode := HvacModeOf(circuitState, summerMode, summerAssignments, settings);
      hvacAction := HvacActionOf(circuitState, summerMode, summerAssignments, settings.circuitId);
      currentTemperature := circuitState.value.temperature;
      targetTemperature := circuitState.value.targetTemperature;
      return true;
    }

    /** `async_set_hvac_mode`. */
    method SetHvacMode(mode: HvacMode)
      modifies coordinator.bmr, coordinator`refreshRequests
      ensures coordinator.bmr.State() == HvacModeWrite(old(coordinator.bmr.State()), settings, mode)
      ensures coordinator.refreshRequests == old(coordinator.refreshRequests) + 1
    {
      var bmr := coordinator.bmr;
      var ids := {settings.circuitId as int};
      if mode == Off {
        bmr.SetSummerModeAssignments(ids, true);
        var on := bmr.GetSummerMode();
        if !Truthy(on) {
          bmr.SetSummerMode(true);
        }
      } else {
        bmr.SetSummerModeAssignments(ids, false);
        var flags := bmr.GetSummerModeAssignments();
        if !AnyAssigned(flags) {
          bmr.SetSummerMode(false);
        }
      }
      if mode == Heat || mode == HeatCool {
        bmr.SetCircuitSchedules(settings.circuitId, [settings.manualSchedule], None);
      } else {
        bmr.SetCircuitSchedules(settings.circuitId, settings.autoSchedules, Some(settings.autoStartingDay));
      }
      coordinator.RequestRefresh();
    }

    /** `async_set_preset_mode`. */
    method SetPresetMode(preset: string)
      modifies coordinator.bmr, coordinator`refreshRequests
      ensures coordinator.bmr.State() == PresetWrite(old(coordinator.bmr.State()), settings, preset)
      ensures coordinator.refreshRequests == old(coordinator.refreshRequests) + 1
    {
      var bmr := coordinator.bmr;
      var ids := {settings.circuitId as int};
      if preset == PresetAway {
        bmr.SetLowModeAssignments(ids, true);
        var low := bmr.GetLowMode();
        if !low.enabled {
          bmr.SetLowMode(true, Some(settings.awayTemperature));
        }
      } else {
        bmr.SetLowModeAssignments(ids, false);
        var flags := bmr.GetLowModeAssignments();
        if !AnyAssigned(flags) {
          bmr.SetLowMode(false, None);
        }
      }
      coordinator.RequestRefresh();
    }

    /**
     * `async_set_temperature`: rewrite the override schedule, switch to the heat mode when
     * the cached mode is not one, and request a refresh (a second one when the mode was set).
     */
    method SetTemperature(temperature: Option<real>)
      modifies coordinator.bmr, coordinator`refreshRequests
      ensures coordinator.bmr.State() == TemperatureWrite(old(coordinator.bmr.State()), settings, temperature, hvacMode)
      ensures coordinator.refreshRequests == old(coordinator.refreshRequests) + if InHeatMode(hvacMode) then 1 else 2
    {
      var bmr := coordinator.bmr;
      bmr.SetSchedule(settings.manualSchedule, OverrideName(settings), [ScheduleEntry("00:00", temperature)]);
      if !InHeatMode(hvacMode) {
        SetHvacMode(HeatMode(settings));
      }
      coordinator.RequestRefresh();
    }
  }
}
