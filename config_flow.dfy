/**
 * The configuration flow: the connection check and its error keys, the user and
 * reconfigure steps that split the submitted form into a title and the entry data, the
 * circuit subentry steps and their unique ids, and the defaults and bounds of both forms.
 */
module ConfigFlow {
  import opened Wrappers
  import opened Device

  // ---------------------------------------------------------------------------------------
  // Keys, defaults and bounds

  const ConfName: string := "name"
  const ConfUrl: string := "url"
  const ConfUsername: string := "username"
  const ConfPassword: string := "password"
  const ConfTimeout: string := "timeout"
  const ConfCircuits: string := "circuits"
  const ConfCircuitName: string := "circuit_name"
  const ConfCircuitId: string := "circuit_id"
  const ConfAwayTemperature: string := "away_temperature"
  const ConfEnableCooling: string := "enable_cooling"
  const ConfMinTemperature: string := "min_temperature"
  const ConfMaxTemperature: string := "max_temperature"
  const ConfAutoModeDailySchedules: string := "auto_mode_daily_schedules"
  const ConfAutoModeDailySchedulesStartingDay: string := "auto_mode_daily_schedules_starting_day"
  const ConfManualModeSchedule: string := "manual_mode_schedule"

  const DefaultAwayTemperature: real := 18.0
  const DefaultMinTemperature: real := 18.0
  const DefaultMaxTemperature: real := 24.0
  const MinAllowedTemperature: real := 7.0
  const MaxAllowedTemperature: real := 35.0
  const DefaultTimeout: real := 30.0
  const MinTimeout: real := 1.0
  const DefaultEnableCooling: bool := false
  const DefaultStartingDay: real := 1.0
  const MinStartingDay: real := 1.0
  const MaxStartingDay: real := 21.0
  const MinManualSchedule: real := 0.0
  const MaxManualSchedule: real := 63.0

  predicate AllowedTemperature(t: real) {
    MinAllowedTemperature <= t <= MaxAllowedTemperature
  }

  /** The bounds the controller form puts on its optional number fields. */
  predicate ValidControllerOptions(timeout: real, awayTemperature: real) {
    MinTimeout <= timeout && AllowedTemperature(awayTemperature)
  }

  /** The bounds the circuit form puts on its number fields. */
  predicate ValidCircuitOptions(minTemperature: real, maxTemperature: real, startingDay: real, manualSchedule: real) {
    && AllowedTemperature(minTemperature) && AllowedTemperature(maxTemperature)
    && MinStartingDay <= startingDay <= MaxStartingDay
    && MinManualSchedule <= manualSchedule <= MaxManualSchedule
  }

  /**
   * The defaults satisfy the bounds, and the default temperature range is ordered; but
   * the bounds alone do not order the minimum and the maximum temperature.
   */
  lemma DefaultsWithinBounds()
    ensures ValidControllerOptions(DefaultTimeout, DefaultAwayTemperature)
    ensures ValidCircuitOptions(DefaultMinTemperature, DefaultMaxTemperature, DefaultStartingDay, MinManualSchedule)
    ensures DefaultMinTemperature <= DefaultAwayTemperature && DefaultMinTemperature < DefaultMaxTemperature
    ensures ValidCircuitOptions(MaxAllowedTemperature, MinAllowedTemperature, DefaultStartingDay, MaxManualSchedule)
  {
  }

  // ---------------------------------------------------------------------------------------
  // Connection check

  /** What the connection check raises instead of returning. */
  datatype ConnectionError =
    | CannotConnect
    | InvalidAuth
      /** Any other exception propagates unchanged. */
    | Reraised(error: DeviceError)
      /** `e.args[0]` on an exception without arguments. */
    | IndexErrorRaised

  /** `check_connection`, given how the device's unique-id call ended. */
  function CheckConnection(call: Result<Option<string>, DeviceError>): Result<map<string, Option<string>>, ConnectionError> {
    match call
    case Success(uid) => Success(map["unique_id" := uid])
    case Failure(Timeout) => Failure(CannotConnect)
    case Failure(Raised(args)) =>
      if |args| == 0 then Failure(IndexErrorRaised)
      else if args[0] == AuthFailureMessage then Failure(InvalidAuth)
      else Failure(Reraised(Raised(args)))
  }

  /**
   * On success the result holds only the unique id; a timeout is "cannot connect", the exact
   * authentication message is "invalid auth", and every other exception propagates as is.
   */
  lemma CheckConnectionOutcomes(call: Result<Option<string>, DeviceError>)
    ensures var r := CheckConnection(call);
      && (r.Success? <==> call.Success?)
      && (r.Success? ==> r.value.Keys == {"unique_id"} && r.value["unique_id"] == call.value)
      && (r == Failure(CannotConnect) <==> call == Failure(Timeout))
      && (r == Failure(InvalidAuth) <==>
            call.Failure? && call.error.Raised? && |call.error.args| > 0 && call.error.args[0] == AuthFailureMessage)
      && (r.Failure? && r.error.Reraised? ==> call == Failure(r.error.error))
      && (r == Failure(IndexErrorRaised) <==> call == Failure(Raised([])))
  {
  }

  /** The form error shown for a failed check. */
  function ErrorKey(e: ConnectionError): string {
    match e
    case CannotConnect => "cannot_connect"
    case InvalidAuth => "invalid_auth"
    case _ => "unknown"
  }

  /**
   * The error key a failed check puts on the form: "cannot_connect" exactly for a timeout,
   * "invalid_auth" exactly for the authentication message, and "unknown" for every other
   * exception, including one without arguments.
   */
  lemma FormErrorKeys(call: Result<Option<string>, DeviceError>)
    requires CheckConnection(call).Failure?
    ensures var key := ErrorKey(CheckConnection(call).error);
      && (key == "cannot_connect" <==> call == Failure(Timeout))
      && (key == "invalid_auth" <==>
            call.Failure? && call.error.Raised? && |call.error.args| > 0 && call.error.args[0] == AuthFailureMessage)
      && (key == "unknown" <==>
            call.Failure? && call.error.Raised? && (|call.error.args| == 0 || call.error.args[0] != AuthFailureMessage))
  {
  }

  // ---------------------------------------------------------------------------------------
  // Flow steps

  /** A submitted form field. */
  datatype Value = Text(text: string) | Number(number: real) | Flag(flag: bool) | TextList(items: seq<string>)

  type FormData = map<string, Value>

  datatype FlowResult =
    | ShowForm(stepId: string, errors: map<string, string>)
    | CreateEntry(title: string, data: FormData, uniqueId: Option<string>)
      /** The entry (or subentry) is updated and the flow ends. */
    | UpdateAndAbort(title: string, dataUpdates: FormData, uniqueId: Option<string>)
    | Abort(reason: string)

  /** A submitted controller form always carries the name, as a text. */
  predicate HasName(input: FormData) {
    ConfName in input && input[ConfName].Text?
  }

  /**
   * `async_step_user`. `call` is how the device's unique-id call ends; `configured` holds
   * the unique ids of the controllers already set up.
   */
  method StepUser(input: Option<FormData>, call: Result<Option<string>, DeviceError>, configured: set<string>)
    returns (r: FlowResult)
    requires input.Some? ==> HasName(input.value)
    ensures input.None? ==> r == ShowForm("user", map[])
    ensures input.Some? && CheckConnection(call).Failure? ==>
              r == ShowForm("user", map["base" := ErrorKey(CheckConnection(call).error)])
    ensures input.Some? && call.Success? && call.value.Some? && call.value.value in configured ==>
              r == Abort("already_configured")
    ensures input.Some? && call.Success? && !(call.value.Some? && call.value.value in configured) ==>
              && r.CreateEntry? && r.uniqueId == call.value
              && ConfName !in r.data && r.data[ConfName := Text(r.title)] == input.value
  {
    var errors: map<string, string> := map[];
    if input.Some? {
      var info := CheckConnection(call);
      if info.Failure? {
        errors := errors["base" := ErrorKey(info.error)];
      } else {
        var data := input.value;
        var title := data[ConfName].text;
        data := data - {ConfName};
        var uniqueId := info.value["unique_id"];
        if uniqueId.Some? && uniqueId.value in configured {
          return Abort("already_configured");
        }
        return CreateEntry(title, data, uniqueId);
      }
    }
    return ShowForm("user", errors);
  }

  /**
   * `async_step_reconfigure` of the controller entry whose unique id is `entryUniqueId`:
   * the device reached must be the same controller.
   */
  method StepReconfigure(input: Option<FormData>, call: Result<Option<string>, DeviceError>,
                         entryUniqueId: Option<string>)
    returns (r: FlowResult)
    requires input.Some? ==> HasName(input.value)
    ensures input.None? ==> r == ShowForm("reconfigure", map[])
    ensures input.Some? && CheckConnection(call).Failure? ==>
              r == ShowForm("reconfigure", map["base" := ErrorKey(CheckConnection(call).error)])
    ensures input.Some? && call.Success? && call.value != entryUniqueId ==> r == Abort("unique_id_mismatch")
    ensures input.Some? && call.Success? && call.value == entryUniqueId ==>
              && r.UpdateAndAbort? && r.uniqueId == None
              && ConfName !in r.dataUpdates && r.dataUpdates[ConfName := Text(r.title)] == input.value
  {
    var errors: map<string, string> := map[];
    if input.Some? {
      var info := CheckConnection(call);
      if info.Failure? {
        errors := errors["base" := ErrorKey(info.error)];
      } else {
        var data := input.value;
        var title := data[ConfName].text;
        data := data - {ConfName};
        if info.value["unique_id"] != entryUniqueId {
          return Abort("unique_id_mismatch");
        }
        return UpdateAndAbort(title, data, None);
      }
    }
    return ShowForm("reconfigure", errors);
  }

  /**
   * `async_step_reauth_confirm` of the controller entry whose unique id is `entryUniqueId`:
   * a confirmation dialog, then the reconfigure step entered without input. This is the
   * optimistic case, in which the host's reconfigure-entry lookup answers a flow started for
   * reauthentication; a host that refuses the lookup for such a flow raises there instead.
   */
  method StepReauthConfirm(input: Option<FormData>, entryUniqueId: Option<string>) returns (r: FlowResult)
    ensures input.None? ==> r == ShowForm("reauth_confirm", map[])
    ensures input.Some? ==> r == ShowForm("reconfigure", map[])
  {
    if input.None? {
      return ShowForm("reauth_confirm", map[]);
    }
    // Without input the reconfigure step reaches no device, so the outcome passed is never read.
    r := StepReconfigure(None, Success(None), entryUniqueId);
  }

  // ---------------------------------------------------------------------------------------
  // Circuit subentries

  const CircuitUniqueIdPrefix: string := "circuit-"

  function CircuitUniqueId(circuitId: string): string {
    CircuitUniqueIdPrefix + circuitId
  }

  /** The circuit id a circuit subentry's unique id was built from, if it is one. */
  function CircuitIdOf(uniqueId: string): Option<string> {
    if |uniqueId| >= |CircuitUniqueIdPrefix| && uniqueId[..|CircuitUniqueIdPrefix|] == CircuitUniqueIdPrefix
    then Some(uniqueId[|CircuitUniqueIdPrefix|..])
    else None
  }

  /** The circuit id can be read back from the unique id, so distinct circuit ids give distinct unique ids. */
  lemma {:induction false} CircuitUniqueIdRoundTrip(circuitId: string, other: string)
    ensures CircuitIdOf(CircuitUniqueId(circuitId)) == Some(circuitId)
    ensures CircuitUniqueId(circuitId) == CircuitUniqueId(other) <==> circuitId == other
  {
    var u := CircuitUniqueId(circuitId);
    assert u[..|CircuitUniqueIdPrefix|] == CircuitUniqueIdPrefix;
    assert u[|CircuitUniqueIdPrefix|..] == circuitId;
    if u == CircuitUniqueId(other) {
      assert CircuitUniqueId(other)[|CircuitUniqueIdPrefix|..] == other;
    }
  }

  /** A submitted circuit form always carries the name and the id, as texts. */
  predicate HasCircuitKeys(input: FormData) {
    ConfCircuitName in input && input[ConfCircuitName].Text? && ConfCircuitId in input && input[ConfCircuitId].Text?
  }

  /** `async_step_add_circuit`: the whole form becomes the subentry data. */
  function StepAddCircuit(input: Option<FormData>): (r: FlowResult)
    requires input.Some? ==> HasCircuitKeys(input.value)
    ensures input.None? <==> r == ShowForm("add_circuit", map[])
    ensures input.Some? ==> && r.CreateEntry? && r.data == input.value
                            && r.title == input.value[ConfCircuitName].text
                            && r.uniqueId.Some? && CircuitIdOf(r.uniqueId.value) == Some(input.value[ConfCircuitId].text)
  {
    if input.None? then ShowForm("add_circuit", map[])
    else
      var data := input.value;
      CircuitUniqueIdRoundTrip(data[ConfCircuitId].text, data[ConfCircuitId].text);
      CreateEntry(data[ConfCircuitName].text, data, Some(CircuitUniqueId(data[ConfCircuitId].text)))
  }

  /** `async_step_reconfigure_circuit`: the whole form updates the subentry, and its unique id follows the id. */
  function StepReconfigureCircuit(input: Option<FormData>): (r: FlowResult)
    requires input.Some? ==> HasCircuitKeys(input.value)
    ensures input.None? <==> r == ShowForm("reconfigure_circuit", map[])
    ensures input.Some? ==> && r.UpdateAndAbort? && r.dataUpdates == input.value
                            && r.title == input.value[ConfCircuitName].text
                            && r.uniqueId.Some? && CircuitIdOf(r.uniqueId.value) == Some(input.value[ConfCircuitId].text)
  {
    if input.None? then ShowForm("reconfigure_circuit", map[])
    else
      var data := input.value;
      CircuitUniqueIdRoundTrip(data[ConfCircuitId].text, data[ConfCircuitId].text);
      UpdateAndAbort(data[ConfCircuitName].text, data, Some(CircuitUniqueId(data[ConfCircuitId].text)))
  }

  /** Adding a circuit and reconfiguring it with the same form give the subentry the same unique id. */
  lemma AddAndReconfigureAgree(input: FormData)
    requires HasCircuitKeys(input)
    ensures StepAddCircuit(Some(input)).uniqueId == StepReconfigureCircuit(Some(input)).uniqueId
  {
  }
}
