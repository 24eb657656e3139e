/** The controller's HDO (low/high electricity tariff) binary sensor. */
module BinarySensor {
  import opened Wrappers
  import opened Coordinator

  const Domain: string := "bmr_hc64"

  /** How an optional string is formatted into an f-string: `None` becomes "None". */
  function FormatOptional(s: Option<string>): string {
    match s
    case None => "None"
    case Some(v) => v
  }

  /**
   * The unique id is built from the entity's own prior unique id attribute, which is still
   * unset (`None`) when it is read, and not from the controller's unique id.
   */
  function HdoUniqueId(priorUniqueId: Option<string>): string {
    FormatOptional(priorUniqueId) + "-binary-sensor-hdo"
  }

  /**
   * The id the sensor gets is "None-binary-sensor-hdo" for every controller; had the prior
   * id been the controller's unique id, distinct controllers would get distinct ids.
   */
  lemma {:induction false} HdoUniqueIdCases(controllerUniqueId: string, otherUniqueId: string)
    ensures HdoUniqueId(None) == "None-binary-sensor-hdo"
    ensures HdoUniqueId(Some(controllerUniqueId)) == HdoUniqueId(Some(otherUniqueId)) <==> controllerUniqueId == otherUniqueId
  {
    var x, y := HdoUniqueId(Some(controllerUniqueId)), HdoUniqueId(Some(otherUniqueId));
    if x == y {
      assert controllerUniqueId == x[..|controllerUniqueId|];
      assert otherUniqueId == y[..|otherUniqueId|];
    }
  }

  class HdoBinarySensor {
    const coordinator: UpdateCoordinator
    const name: string
    const uniqueId: string
    /** The device the entity is attached to: the controller, in this integration's domain. */
    const deviceIdentifier: (string, string)
    var isOn: Option<bool>

    constructor (coordinator: UpdateCoordinator, controllerUniqueId: string)
      ensures this.coordinator == coordinator
      ensures name == coordinator.deviceName + " HDO"
      ensures uniqueId == HdoUniqueId(None)
      ensures deviceIdentifier == (Domain, controllerUniqueId)
      ensures isOn == None
    {
      this.coordinator := coordinator;
      name := coordinator.deviceName + " HDO";
      uniqueId := HdoUniqueId(None);
      deviceIdentifier := (Domain, controllerUniqueId);
      isOn := None;
    }

    method HandleCoordinatorUpdate(data: Snapshot)
      modifies this
      ensures isOn == data.hdo
    {
      isOn := data.hdo;
    }
  }
}
