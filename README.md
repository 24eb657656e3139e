# BMR HC64 integration — a verified model

The BMR HC64 is a heating controller for residential buildings. This integration connects it to Home
Assistant and exposes, per configured heating circuit, a climate entity and two temperature sensors, and,
per controller, two switches ("away mode" and power) and an HDO (electricity tariff) binary sensor.

The project models the rules underneath that glue:

- **Coordinator** (`coordinator.dfy`): the per-circuit sanity check; the snapshot a poll assembles in its
  loop over the configured circuits; and the way a failed poll is sorted into "not ready", "authentication
  failed" or a generic error, which depends on a 15-minute window around midnight.
- **Device** (`device.dfy`): the controller, reached through the client library (whose code is not part
  of this model), as a class `Controller` with one field per piece of state the integration reads or
  writes. What each setter does is an explicit assumption, stated once as a pure function on
  `DeviceState`. The `Controller` methods promise exactly that function of the old state.
- **Climate** (`climate.dfy`): the derivation of preset, HVAC mode and HVAC action from a snapshot, and
  the three write procedures (HVAC mode, preset, temperature), each a fixed sequence of controller calls.
  Each is specified by a function on `DeviceState`, and lemmas say what the next poll then derives
  (OFF→AUTO round trip, "set temperature ⇒ heat mode", COOL behaves like AUTO, …).
- **Switches** (`switch.dfy`): the away-mode and power switches. Note the asymmetry: the power switch's
  state reads the *configured* circuit ids, while both switches write to the circuits *present in the
  snapshot*.
- **Sensors** (`sensor.dfy`, `binary_sensor.dfy`, `naming.dfy`): the projections from a snapshot, the
  attribute record, and how the unique ids are built.
- **Setup** (`setup.dfy`): setting up an entry (connection probe, first refresh, store) and unloading it.
- **Configuration flow** (`config_flow.dfy`): the connection check and its error keys, how the user and
  reconfigure steps split the name off as the title, circuit subentry unique ids, and the form defaults
  and bounds.

Entities keep their Python shape. Each is a class whose update handler copies the snapshot into fields,
and whose actions call the controller and then add one to the coordinator's count of refresh requests
(two for a temperature set outside a heat mode, which also runs the mode change).

Where the code differs from what its comments describe, the model follows the code:

- The sanity check applies `abs` to the result of the comparison rather than to the temperature
  difference. So only a rise of 5.0 degrees or more is rejected, and a drop of any size passes.
  `SanityCheckVersusSymmetricBound` compares it with the symmetric rule the comment describes.
- An authentication failure inside the midnight window is not ignored. It falls through to the generic
  configuration error.
- The HDO sensor's unique id is built from its own, still unset, unique id attribute. It is therefore
  "None-binary-sensor-hdo" for every controller.
- Neither the coordinator module nor the setup module imports `datetime`. As written, the
  authentication branch would raise a `NameError` when it reads the clock. The model instead takes the
  local time as a parameter and runs the branch as it is evidently meant to run.

## Model

The functions that compute what the source computes carry no row of their own. They are specified by
the lemmas in the rows that cite the same lines:
`Coordinator.SanityCheck` by the five check lemmas and `SanityCheckVersusSymmetricBound`,
`Coordinator.ClassifyFailure` by `ClassifyFailureOutcomes`,
`Climate.PresetModeOf`, `Climate.HvacModeOf` and `Climate.HvacActionOf` by their `…Cases` lemmas,
`Switch.AwayWrite` by `AwayWriteEffect` and `AwayWriteIdempotent`,
`Switch.PowerIsOn` and `Switch.AllAssigned` by `PowerIsOnCases`, `AllAssignedInRange` and `AllAssignedRaises`,
`ConfigFlow.CheckConnection` by `CheckConnectionOutcomes`, `ConfigFlow.ErrorKey` by `FormErrorKeys`,
`ConfigFlow.CircuitUniqueId` by `CircuitUniqueIdRoundTrip`,
`Climate.HvacModeWrite`, `Climate.PresetWrite` and `Climate.TemperatureWrite` by the `Set…`, `…Effect`,
`CoolWritesLikeAuto` and `OffThenAuto` lemmas,
`Switch.PowerOnWrite` and `Switch.PowerOffWrite` by `PowerOnReadsOn`, `PowerOffReadsOff` and `PowerWritesIdempotent`,
`Coordinator.AssembleCircuits` and `Coordinator.PollSnapshot` by `AssembledKeys`, `AssembledEntries`,
`AssembledCircuit` and `PollCopiesControllerFields`,
`Setup.Stored` by `StoredThenRemoved`,
`BinarySensor.HdoUniqueId` by `HdoUniqueIdCases`,
`Naming.EntityUniqueId` by `EntityUniqueIdInjective`, and
both `ExtraStateAttributes` (each is `CircuitAttributes` of the entity's circuit) by
`Sensor.CircuitAttributes` and `AttributesAreVerbatim`.

| member | source | states |
|---|---|---|
| Device.Assign | custom_components/bmr_hc64/climate.py:293-297 | assumption about the client's assignment setters: the list keeps its length, the listed indices take the value, every other index is unchanged |
| Device.AssignIdempotent | custom_components/bmr_hc64/switch.py:104-111 | writing the same flag to the same indices twice equals writing it once |
| Device.Controller.constructor | custom_components/bmr_hc64/__init__.py:54-59 | the client starts with the given controller state |
| Device.Controller.GetUniqueId | custom_components/bmr_hc64/coordinator.py:122 | reading the unique id returns the controller's and changes nothing |
| Device.Controller.GetHdo | custom_components/bmr_hc64/coordinator.py:123 | reading HDO returns the controller's flag |
| Device.Controller.GetLowMode | custom_components/bmr_hc64/coordinator.py:124-126 | reading low mode returns the controller's low-mode record |
| Device.Controller.GetLowModeAssignments | custom_components/bmr_hc64/coordinator.py:127-129 | reading returns the low-mode assignment list |
| Device.Controller.GetSummerMode | custom_components/bmr_hc64/coordinator.py:130 | reading returns the summer-mode flag |
| Device.Controller.GetSummerModeAssignments | custom_components/bmr_hc64/coordinator.py:131-135 | reading returns the summer-mode assignment list |
| Device.Controller.GetCircuitSchedules | custom_components/bmr_hc64/coordinator.py:148-153 | reading a circuit's schedules returns its day schedules and starting day |
| Device.Controller.SetSummerMode | custom_components/bmr_hc64/climate.py:303-306 | the new state is the old one with summer mode set to the value (assumption) |
| Device.Controller.SetSummerModeAssignments | custom_components/bmr_hc64/climate.py:293-297 | only the listed summer-mode assignments change, to the value (assumption) |
| Device.Controller.SetLowMode | custom_components/bmr_hc64/climate.py:367-374 | low mode takes the flag; with a temperature given, that temperature too (assumption) |
| Device.Controller.SetLowModeAssignments | custom_components/bmr_hc64/climate.py:362-366 | only the listed low-mode assignments change, to the value (assumption) |
| Device.Controller.SetCircuitSchedules | custom_components/bmr_hc64/climate.py:328-348 | the circuit's day schedules become the list; its starting day is the given one, or the stored one when none is given (assumption) |
| Device.Controller.SetSchedule | custom_components/bmr_hc64/climate.py:407-412 | the schedule's body becomes the given name and entries (assumption) |
| Coordinator.FirstReadingAccepted | custom_components/bmr_hc64/coordinator.py:213-215 | with no previous state, every reading passes the check |
| Coordinator.MismatchedIdRejected | custom_components/bmr_hc64/coordinator.py:217-220 | a reading whose id differs from the previous id is rejected |
| Coordinator.UndefinedTemperatureRejected | custom_components/bmr_hc64/coordinator.py:222-227 | with a previous state, a reading without temperature is rejected |
| Coordinator.TemperatureRuleIsOneSided | custom_components/bmr_hc64/coordinator.py:229-237 | with both temperatures known and ids equal, the check passes iff the rise is below 5.0; every drop passes |
| Coordinator.UnknownPreviousTemperatureAccepted | custom_components/bmr_hc64/coordinator.py:229-239 | equal ids, a new temperature and no previous temperature: the reading passes |
| Coordinator.SanityCheckVersusSymmetricBound | custom_components/bmr_hc64/coordinator.py:25-26 | the check accepts all the symmetric ±5.0 rule accepts, and additionally exactly the drops of 5.0 or more |
| Coordinator.Shift | custom_components/bmr_hc64/coordinator.py:200-202 | shifting a local time by some seconds gives a valid time the same number of seconds later |
| Coordinator.AwayFromMidnightBounds | custom_components/bmr_hc64/coordinator.py:200-205 | "the dates 15 minutes before and after are today's" holds iff 00:15:00 ≤ time of day < 23:45:00 |
| Coordinator.ClassifyFailureOutcomes | custom_components/bmr_hc64/coordinator.py:189-206 | not-ready iff timeout; auth-failed iff the exact message between 00:15 and 23:45; generic error iff any other message, or that message near midnight; IndexError iff an exception without arguments |
| Coordinator.AssembledKeys | custom_components/bmr_hc64/coordinator.py:137-161 | the snapshot's circuit keys are exactly the configured ids whose reading passed the check |
| Coordinator.AssembledEntries | custom_components/bmr_hc64/coordinator.py:155-177 | every snapshot entry comes from a configured circuit whose reading passed, copies that reading, and carries the controller's schedules for it |
| Coordinator.AssembledCircuit | custom_components/bmr_hc64/coordinator.py:137-177 | with distinct configured ids: a configured circuit is in the snapshot iff its reading passed, and then its entry copies the reading verbatim with the configured friendly name |
| Coordinator.PollCopiesControllerFields | custom_components/bmr_hc64/coordinator.py:179-187 | unique id, HDO, low mode, both assignment lists and summer mode are copied into the snapshot unchanged |
| Coordinator.UpdateCoordinator.constructor | custom_components/bmr_hc64/coordinator.py:92-114 | the coordinator owns the client, its device name is the entry title, and it starts with no data |
| Coordinator.UpdateCoordinator.RequestRefresh | custom_components/bmr_hc64/climate.py:356 | a refresh request adds one to the count of requests |
| Coordinator.UpdateCoordinator.Refresh | custom_components/bmr_hc64/coordinator.py:100-102 | a successful poll replaces the stored snapshot; a failed one keeps it and reports the classified error |
| Coordinator.UpdateCoordinator.UpdateData | custom_components/bmr_hc64/coordinator.py:116-206 | a poll returns the classified error on a fault, and otherwise the snapshot assembled from the controller state and the readings |
| Naming.EntityUniqueIdInjective | custom_components/bmr_hc64/climate.py:148 | for one controller and one entity kind, distinct circuit subentries get distinct ids; one circuit's kinds get distinct ids |
| Climate.PresetModeCases | custom_components/bmr_hc64/climate.py:198-205 | with no low mode the preset is none; it is "away" iff low mode is enabled and "none" iff it is disabled; the circuit's assignment plays no part |
| Climate.HvacModeCases | custom_components/bmr_hc64/climate.py:207-239 | absent iff circuit, summer mode or assignments are missing; always one of the offered modes and never COOL; OFF iff the circuit is summer-assigned; the heat mode iff it is not and runs exactly the override schedule; AUTO iff it is not summer-assigned and runs anything else |
| Climate.HvacActionCases | custom_components/bmr_hc64/climate.py:241-262 | absent exactly when the mode is; OFF exactly when the mode is OFF; heating before cooling, otherwise idle |
| Climate.AnyAfterClear | custom_components/bmr_hc64/climate.py:318-323 | after one index is cleared, `any` of the list holds iff some other index was set |
| Climate.SetOffEffect | custom_components/bmr_hc64/climate.py:280-306 | setting OFF summer-assigns the circuit, leaves the other assignments, turns summer mode on (keeps it if it was on), restores the configured rotation and its starting day, changes nothing else on the controller, and the next poll derives OFF |
| Climate.SetOnEffect | custom_components/bmr_hc64/climate.py:307-326 | any other mode clears the circuit's summer assignment and no other; summer mode goes off iff no other circuit remains assigned, else it is unchanged; only this circuit's schedules are written and nothing else changes |
| Climate.SetHeatDerivesHeat | custom_components/bmr_hc64/climate.py:328-337 | HEAT or HEAT_COOL makes the override schedule the circuit's only schedule, and the next poll derives the heat mode |
| Climate.CoolWritesLikeAuto | custom_components/bmr_hc64/climate.py:338-348 | COOL writes exactly what AUTO writes |
| Climate.SetAutoDerivesAuto | custom_components/bmr_hc64/climate.py:338-351 | AUTO or COOL restores the configured rotation; the next poll derives AUTO unless that rotation is the override schedule alone |
| Climate.OffThenAuto | custom_components/bmr_hc64/climate.py:278-356 | OFF then AUTO restores the rotation and clears the circuit's assignment, keeps the others, and leaves summer mode on iff another circuit was assigned before; nothing else on the controller changes |
| Climate.AwayPresetEffect | custom_components/bmr_hc64/climate.py:360-374 | "away" assigns the circuit to low mode, keeps the other assignments, and enables low mode with the away temperature only when it was disabled; nothing outside low mode changes |
| Climate.OtherPresetEffect | custom_components/bmr_hc64/climate.py:375-392 | any other preset clears the circuit's low-mode assignment and no other, and disables low mode iff no other circuit remains assigned; nothing outside low mode changes |
| Climate.SetTemperatureEffect | custom_components/bmr_hc64/climate.py:397-420 | the override schedule becomes one 00:00 entry at the temperature, named "<circuit> override"; unless the cached mode was a heat mode, the next poll derives the heat mode; otherwise assignments and circuit schedules are untouched |
| Climate.ClimateEntity.constructor | custom_components/bmr_hc64/climate.py:115-181 | name, unique id "<controller>-<circuit>-climate", offered modes by cooling, presets none/away, temperature bounds, unknown state, empty assignments |
| Climate.ClimateEntity.HandleCoordinatorUpdate | custom_components/bmr_hc64/climate.py:184-196 | a missing circuit raises before any field changes; otherwise the fields copy the snapshot and the derived preset, mode, action and temperatures |
| Climate.ClimateEntity.SetHvacMode | custom_components/bmr_hc64/climate.py:278-356 | the controller ends in the HVAC-mode write of its old state, and one refresh is requested |
| Climate.ClimateEntity.SetPresetMode | custom_components/bmr_hc64/climate.py:358-395 | the controller ends in the preset write of its old state, and one refresh is requested |
| Climate.ClimateEntity.SetTemperature | custom_components/bmr_hc64/climate.py:397-420 | the controller ends in the temperature write for the cached mode; one refresh is requested, or two when the mode was switched |
| Switch.AwayWriteEffect | custom_components/bmr_hc64/switch.py:99-131 | low mode ends enabled or disabled as asked, temperature and start date kept; the snapshot's circuits are assigned, all other indices untouched; nothing outside low mode changes |
| Switch.AwayWriteIdempotent | custom_components/bmr_hc64/switch.py:104-128 | repeating an away action changes nothing; of two actions the last wins |
| Switch.AwayModeSwitch.constructor | custom_components/bmr_hc64/switch.py:62-81 | name "<device> Away Mode", unique id "<controller>-away-mode-switch" |
| Switch.AwayModeSwitch.HandleCoordinatorUpdate | custom_components/bmr_hc64/switch.py:92-97 | on-state, away temperature and start date mirror the low-mode record |
| Switch.AwayModeSwitch.TurnOn | custom_components/bmr_hc64/switch.py:99-114 | assigns every snapshot circuit to low mode, enables it, requests one refresh |
| Switch.AwayModeSwitch.TurnOff | custom_components/bmr_hc64/switch.py:116-131 | clears every snapshot circuit's low-mode assignment, disables it, requests one refresh |
| Switch.AllAssignedInRange | custom_components/bmr_hc64/switch.py:166-171 | with every configured id in range, `all(...)` is whether every configured circuit is assigned |
| Switch.AllAssignedRaises | custom_components/bmr_hc64/switch.py:166-171 | `all(...)` raises iff an out-of-range id is reached before any unassigned circuit |
| Switch.PowerIsOnCases | custom_components/bmr_hc64/switch.py:163-172 | with summer mode not on the power is on; with ids in range, power is off iff summer mode is on and every configured circuit is assigned (so with no circuits iff summer mode is on) |
| Switch.PowerOnReadsOn | custom_components/bmr_hc64/switch.py:174-196 | after power on the next poll reads on; the snapshot circuits are unassigned, the rest untouched |
| Switch.PowerOffReadsOff | custom_components/bmr_hc64/switch.py:198-219 | after power off the next poll reads off iff every configured circuit was in the snapshot or already assigned |
| Switch.PowerWritesIdempotent | custom_components/bmr_hc64/switch.py:174-219 | repeating a power action changes nothing; of two the last wins |
| Switch.PowerSwitch.constructor | custom_components/bmr_hc64/switch.py:141-161 | name "<device> Power Switch", unique id "<controller>-power-switch", the configured ids kept in order |
| Switch.PowerSwitch.HandleCoordinatorUpdate | custom_components/bmr_hc64/switch.py:163-172 | the on-state is the derived power state, or nothing changes when its evaluation raises |
| Switch.PowerSwitch.TurnOn | custom_components/bmr_hc64/switch.py:174-196 | summer mode off, then every snapshot circuit unassigned, one refresh |
| Switch.PowerSwitch.TurnOff | custom_components/bmr_hc64/switch.py:198-219 | summer mode on, then every snapshot circuit assigned, one refresh |
| Sensor.CircuitAttributes | custom_components/bmr_hc64/sensor.py:87-101 | no attributes before a circuit state is known; afterwards exactly the eight keys |
| Sensor.AttributesAreVerbatim | custom_components/bmr_hc64/sensor.py:146-160 | each key holds its field verbatim; two states show equal attributes iff they agree on the eight fields |
| Sensor.TemperatureSensor.constructor | custom_components/bmr_hc64/sensor.py:63-85 | name "<device> <circuit> Temperature", unique id "<controller>-<circuit>-temperature" |
| Sensor.TemperatureSensor.HandleCoordinatorUpdate | custom_components/bmr_hc64/sensor.py:104-108 | a missing circuit raises before any change; otherwise the value is the circuit's temperature and the attributes carry the eight keys |
| Sensor.TargetTemperatureSensor.constructor | custom_components/bmr_hc64/sensor.py:116-144 | name "<device> <circuit> Target Temperature", unique id "<controller>-<circuit>-target-temperature" |
| Sensor.TargetTemperatureSensor.HandleCoordinatorUpdate | custom_components/bmr_hc64/sensor.py:163-167 | a missing circuit raises before any change; otherwise the value is the circuit's target temperature |
| BinarySensor.HdoUniqueIdCases | custom_components/bmr_hc64/binary_sensor.py:53 | the id built from the unset prior id is "None-binary-sensor-hdo"; built from controller ids it would separate controllers |
| BinarySensor.HdoBinarySensor.constructor | custom_components/bmr_hc64/binary_sensor.py:44-60 | name "<device> HDO", unique id "None-binary-sensor-hdo" for every controller, device identifier (domain, controller id) |
| BinarySensor.HdoBinarySensor.HandleCoordinatorUpdate | custom_components/bmr_hc64/binary_sensor.py:62-65 | the on-state is the snapshot's HDO flag |
| ConfigFlow.DefaultsWithinBounds | custom_components/bmr_hc64/config_flow.py:44-48 | defaults lie within the bounds (timeout 30 ≥ 1, away 18.0, min 18.0 < max 24.0 in 7.0–35.0, starting day 1 in 1–21); the bounds allow min above max |
| ConfigFlow.CheckConnectionOutcomes | custom_components/bmr_hc64/config_flow.py:209-230 | success iff the probe returned, holding only the unique id; cannot-connect iff timeout; invalid-auth iff the exact message; other exceptions propagate unchanged |
| ConfigFlow.FormErrorKeys | custom_components/bmr_hc64/config_flow.py:244-254 | a failed check puts "cannot_connect" on the form iff the probe timed out, "invalid_auth" iff it raised the authentication message, and "unknown" for every other exception, one without arguments included |
| ConfigFlow.StepUser | custom_components/bmr_hc64/config_flow.py:238-265 | no input: the empty form; failure: the form with the error key; a known controller: abort; otherwise an entry titled by the name, whose data is the input minus the name |
| ConfigFlow.StepReconfigure | custom_components/bmr_hc64/config_flow.py:267-309 | the same error keys; a different controller aborts with a mismatch; otherwise the entry is updated with the input minus the name, titled by the name |
| ConfigFlow.StepReauthConfirm | custom_components/bmr_hc64/config_flow.py:317-325 | a confirmation form without errors; once confirmed, whatever the reconfigure step gives without input, which is its empty-error form |
| ConfigFlow.CircuitUniqueIdRoundTrip | custom_components/bmr_hc64/config_flow.py:363 | the circuit id is recovered from "circuit-<id>", so distinct ids give distinct unique ids |
| ConfigFlow.StepAddCircuit | custom_components/bmr_hc64/config_flow.py:355-366 | with input: a subentry holding the whole form, titled by the circuit name, whose unique id yields the circuit id |
| ConfigFlow.StepReconfigureCircuit | custom_components/bmr_hc64/config_flow.py:374-409 | with input: the subentry is updated by the whole form, its unique id again yields the circuit id |
| ConfigFlow.AddAndReconfigureAgree | custom_components/bmr_hc64/config_flow.py:382-388 | adding and reconfiguring with the same form give the same subentry unique id |
| Setup.StoredThenRemoved | custom_components/bmr_hc64/__init__.py:95 | storing adds exactly the entry and keeps the others; removing it restores the previous store |
| Setup.AuthClassificationsAgree | custom_components/bmr_hc64/__init__.py:67-80 | away from midnight, the flow's invalid-auth and cannot-connect match setup's auth-failed and not-ready exactly |
| Setup.HassData.constructor | custom_components/bmr_hc64/__init__.py:95 | the integration's store starts absent |
| Setup.HassData.SetupEntry | custom_components/bmr_hc64/__init__.py:51-101 | a failed probe or first refresh gives its classified error and leaves the store; otherwise a fresh coordinator holding the first snapshot is stored under the entry id |
| Setup.HassData.UnloadEntry | custom_components/bmr_hc64/__init__.py:109-113 | the entry is removed iff the platforms unloaded, and that result is returned; unloading an entry that is not stored raises |

## Left out

- The client library's HTTP calls, authentication and setter semantics are not part of this model. The
  controller is an abstract state, and the setter effects in `device.dfy` are assumptions.
- `async`/`await`, executor jobs, and the host's refresh scheduling: the 60-second interval, polling only
  with listeners, at most one poll in flight. A refresh request is a counter.
- Concurrent writes from different entities are not modelled. Each action runs alone.
- Climate.ClimateEntity.SetHvacMode, Climate.ClimateEntity.SetPresetMode, Climate.ClimateEntity.SetTemperature,
  Switch.AwayModeSwitch.TurnOn, Switch.AwayModeSwitch.TurnOff, Switch.PowerSwitch.TurnOn, Switch.PowerSwitch.TurnOff:
  the device calls of a write action are assumed to succeed. In the source no call in these actions is
  guarded, so a raising call stops the sequence part-way, leaves the controller partly written, and no
  refresh is requested. The model states only the complete write followed by its refresh.
- Host entity machinery is left out: `async_write_ha_state`, `DeviceInfo` (apart from the HDO sensor's
  identifier), feature bitmasks and units.
- Sensor.TemperatureSensor.ExtraStateAttributes: the temperature sensor declares its attributes a
  `cached_property`, whose invalidation belongs to the host library. The attributes are modelled as a
  function of the current state.
- Form rendering (voluptuous schemas, selectors, suggested values) is left out. Only the defaults and
  bounds are kept, as predicates. The add and reconfigure forms are assumed to deliver the required keys
  as texts.
- Reading the wall clock: the local time is a parameter. The missing `datetime` import is recorded in
  `coordinator.dfy` and not modelled as a `NameError`.
- Logging; the platform list and forwarding; the update listener and reload; the per-platform
  `async_setup_entry` functions that create one entity per subentry.
- Coordinator.UpdateCoordinator.UpdateData: a fault is a parameter standing for an exception from any
  call in the poll. The per-circuit `getCircuit` readings are parameters, and the poll requires the
  controller to answer `getCircuitSchedules` for every configured circuit.
- Setup.HassData.SetupEntry: the host's translation of a failed first refresh is not modelled. The setup
  reports the poll's own classification. The probe's timeout message is not kept.
- Climate.HvacModeOf, Climate.HvacActionOf, Climate.ClimateEntity.HandleCoordinatorUpdate: indexing the
  summer-mode list with an out-of-range circuit id is excluded by a precondition. The source would raise
  `IndexError` there.
- ConfigFlow.StepUser, ConfigFlow.StepReconfigure: the host's `async_set_unique_id` also aborts with "already_in_progress" when
  another flow holds the same unique id. Other flows are not modelled, so this abort is not.
- ConfigFlow.StepReauthConfirm: the reconfigure step starts with the host's `_get_reconfigure_entry`
  lookup, which belongs to the host library and is not part of this model. The model takes the optimistic case:
  the lookup yields the controller entry also when the step is reached from a reauthentication flow. If the host
  refuses the lookup for a flow whose source is not reconfigure, the confirmed dialog raises instead.
- Configured circuit ids are strings in the source, converted with `int(...)`. The model identifies
  them with natural numbers and does not model a failing conversion. This collapses texts that convert
  to the same number: "1" and "01" are distinct subentries with distinct `circuit-<id>` unique ids in
  the source, yet both address controller circuit 1. The model cannot tell them apart, which is why
  `Coordinator.AssembledCircuit` assumes distinct ids.
- Climate.ClimateEntity.constructor: the empty-dict initial assignments are modelled as present, empty
  lists.
