/**
 * The two per-circuit sensors: the current and the target temperature, each with the same
 * eight auxiliary attributes copied from the circuit's state.
 */
module Sensor {
  import opened Wrappers
  import opened Coordinator
  import opened Naming

  /** An attribute value: one of the circuit's flags or one of its offsets. */
  datatype AttributeValue = Flag(flag: Option<bool>) | Number(number: Option<real>)

  const AttributeKeys: set<string> :=
    {"enabled", "user_offset", "max_offset", "warning", "heating", "cooling", "low_mode", "summer_mode"}

  /** `extra_state_attributes`: empty before any circuit state is known. */
  function CircuitAttributes(circuit: Option<CircuitState>): (r: map<string, AttributeValue>)
    ensures circuit.None? ==> r == map[]
    ensures circuit.Some? ==> r.Keys == AttributeKeys
  {
    match circuit
    case None => map[]
    case Some(c) =>
      map["enabled" := Flag(c.enabled), "user_offset" := Number(c.userOffset),
          "max_offset" := Number(c.maxOffset), "warning" := Flag(c.warning),
          "heating" := Flag(c.heating), "cooling" := Flag(c.cooling),
          "low_mode" := Flag(c.lowMode), "summer_mode" := Flag(c.summerMode)]
  }

  /** The eight fields the attributes copy. */
  predicate SameAttributeFields(a: CircuitState, b: CircuitState) {
    && a.enabled == b.enabled && a.userOffset == b.userOffset && a.maxOffset == b.maxOffset
    && a.warning == b.warning && a.heating == b.heating && a.cooling == b.cooling
    && a.lowMode == b.lowMode && a.summerMode == b.summerMode
  }

  /**
   * The attributes are a verbatim copy: two circuit states show the same attributes
   * exactly when they agree on the eight copied fields, and every copied field can be read
   * back under its key.
   */
  lemma {:induction false} AttributesAreVerbatim(a: CircuitState, b: CircuitState)
    ensures CircuitAttributes(Some(a)) == CircuitAttributes(Some(b)) <==> SameAttributeFields(a, b)
    ensures var m := CircuitAttributes(Some(a));
      && m["enabled"].flag == a.enabled && m["warning"].flag == a.warning
      && m["heating"].flag == a.heating && m["cooling"].flag == a.cooling
      && m["low_mode"].flag == a.lowMode && m["summer_mode"].flag == a.summerMode
      && m["user_offset"].number == a.userOffset && m["max_offset"].number == a.maxOffset
  {
    var ma, mb := CircuitAttributes(Some(a)), CircuitAttributes(Some(b));
    if ma == mb {
      assert ma["enabled"] == mb["enabled"] && ma["user_offset"] == mb["user_offset"];
      assert ma["max_offset"] == mb["max_offset"] && ma["warning"] == mb["warning"];
      assert ma["heating"] == mb["heating"] && ma["cooling"] == mb["cooling"];
      assert ma["low_mode"] == mb["low_mode"] && ma["summer_mode"] == mb["summer_mode"];
    }
  }

  /** The current-temperature sensor of one circuit. */
  class TemperatureSensor {
    const coordinator: UpdateCoordinator
    const circuitId: nat
    const name: string
    const uniqueId: string
    var circuitState: Option<CircuitState>
    var nativeValue: Option<real>

    constructor (coordinator: UpdateCoordinator, controllerUniqueId: string, circuitUniqueId: string,
                 circuitId: nat, circuitName: string)
      ensures this.coordinator == coordinator && this.circuitId == circuitId
      ensures name == coordinator.deviceName + " " + circuitName + " Temperature"
      ensures uniqueId == EntityUniqueId(controllerUniqueId, circuitUniqueId, "temperature")
      ensures circuitState == None && nativeValue == None
    {
      this.coordinator := coordinator;
      this.circuitId := circuitId;
      name := coordinator.deviceName + " " + circuitName + " Temperature";
      uniqueId := EntityUniqueId(controllerUniqueId, circuitUniqueId, "temperature");
      circuitState, nativeValue := None, None;
    }

    function ExtraStateAttributes(): map<string, AttributeValue>
      reads this
    {
      CircuitAttributes(circuitState)
    }

    /** A circuit missing from the snapshot raises on lookup (`ok` false) before any assignment. */
    method HandleCoordinatorUpdate(data: Snapshot) returns (ok: bool)
      modifies this
      ensures ok == (circuitId in data.circuits)
      ensures ok ==> circuitState == Some(data.circuits[circuitId]) && nativeValue == data.circuits[circuitId].temperature
      ensures ok ==> ExtraStateAttributes().Keys == AttributeKeys
      ensures !ok ==> unchanged(this)
    {
      if circuitId !in data.circuits {
        return false;
      }
      circuitState := Some(data.circuits[circuitId]);
      nativeValue := data.circuits[circuitId].temperature;
      return true;
    }
  }

  /** The target-temperature sensor of one circuit. */
  class TargetTemperatureSensor {
    const coordinator: UpdateCoordinator
    const circuitId: nat
    const name: string
    const uniqueId: string
    var circuitState: Option<CircuitState>
    var nativeValue: Option<real>

    constructor (coordinator: UpdateCoordinator, controllerUniqueId: string, circuitUniqueId: string,
                 circuitId: nat, circuitName: string)
      ensures this.coordinator == coordinator && this.circuitId == circuitId
      ensures name == coordinator.deviceName + " " + circuitName + " Target Temperature"
      ensures uniqueId == EntityUniqueId(controllerUniqueId, circuitUniqueId, "target-temperature")
      ensures circuitState == None && nativeValue == None
    {
      this.coordinator := coordinator;
      this.circuitId := circuitId;
      name := coordinator.deviceName + " " + circuitName + " Target Temperature";
      uniqueId := EntityUniqueId(controllerUniqueId, circuitUniqueId, "target-temperature");
      circuitState, nativeValue := None, None;
    }

    function ExtraStateAttributes(): map<string, AttributeValue>
      reads this
    {
      CircuitAttributes(circuitState)
    }

    method HandleCoordinatorUpdate(data: Snapshot) returns (ok: bool)
      modifies this
      ensures ok == (circuitId in data.circuits)
      ensures ok ==> circuitState == Some(data.circuits[circuitId])
                     && nativeValue == data.circuits[circuitId].targetTemperature
      ensures ok ==> ExtraStateAttributes().Keys == AttributeKeys
      ensures !ok ==> unchanged(this)
    {
      if circuitId !in data.circuits {
        return false;
      }
      circuitState := Some(data.circuits[circuitId]);
      nativeValue := data.circuits[circuitId].targetTemperature;
      return true;
    }
  }
}
