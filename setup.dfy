/**
 * Setting up and unloading a controller entry: the connection probe and its error
 * classification, the first refresh, and the per-entry coordinator store.
 */
module Setup {
  import opened Wrappers
  import opened Device
  import opened Coordinator
  import opened ConfigFlow

  /** The store after `setdefault(DOMAIN, {})[entryId] = coordinator`. */
  function Stored(store: Option<map<string, UpdateCoordinator>>, entryId: string, coordinator: UpdateCoordinator)
    : map<string, UpdateCoordinator>
  {
    (if store.None? then map[] else store.value)[entryId := coordinator]
  }

  /** The outcome of unloading an entry. */
  datatype UnloadOutcome =
    | Unloaded(ok: bool)
      /** `pop` of an entry (or a domain) the store does not hold. */
    | KeyErrorRaised

  /**
   * Storing adds exactly the one entry, keeping every other; removing it again restores
   * the store it was added to, when that store did not hold the entry.
   */
  lemma {:induction false} StoredThenRemoved(store: Option<map<string, UpdateCoordinator>>, entryId: string,
                                             coordinator: UpdateCoordinator)
    ensures var m := Stored(store, entryId, coordinator);
      && entryId in m && m[entryId] == coordinator
      && m.Keys == (if store.None? then {} else store.value.Keys) + {entryId}
      && (store.Some? ==> forall k :: k in store.value && k != entryId ==> m[k] == store.value[k])
      && (store.Some? && entryId !in store.value ==> m - {entryId} == store.value)
      && (store.None? ==> m - {entryId} == map[])
  {
    var m := Stored(store, entryId, coordinator);
    if store.Some? && entryId !in store.value {
      assert (m - {entryId}).Keys == store.value.Keys;
    }
    if store.None? {
      assert (m - {entryId}).Keys == {};
    }
  }

  /**
   * The two places that classify a device error agree on authentication: the configuration
   * flow reports invalid credentials for exactly the errors that setup reports as an
   * authentication failure outside the midnight window.
   */
  lemma {:induction false} AuthClassificationsAgree(e: DeviceError, now: LocalTime)
    requires ValidTime(now) && AwayFromMidnight(now)
    ensures CheckConnection(Failure(e)) == Failure(InvalidAuth) <==> ClassifyFailure(e, now).ConfigEntryAuthFailed?
    ensures CheckConnection(Failure(e)) == Failure(CannotConnect) <==> ClassifyFailure(e, now) == ConfigEntryNotReady
  {
    ClassifyFailureOutcomes(e, now);
  }

  class HassData {
    /** `hass.data[DOMAIN]`: absent until the first entry is set up. */
    var domainStore: Option<map<string, UpdateCoordinator>>

    constructor ()
      ensures domainStore == None
    {
      domainStore := None;
    }

    /**
     * `async_setup_entry`. `probe` is the exception the unique-id probe raised, if any; the
     * remaining parameters are those of the first refresh.
     */
    method SetupEntry(entryId: string, title: string, bmr: Controller, probe: Option<DeviceError>,
                      configs: seq<CircuitConfig>, readings: seq<CircuitReading>, fault: Option<DeviceError>,
                      now: LocalTime)
      returns (r: Result<UpdateCoordinator, SetupError>)
      requires |readings| == |configs| && ValidTime(now)
      requires probe.None? && fault.None? ==> SchedulesReadable(bmr.State(), configs)
      modifies this
      ensures probe.Some? ==> r == Failure(ClassifyFailure(probe.value, now)) && domainStore == old(domainStore)
      ensures probe.None? && fault.Some? ==>
                r == Failure(ClassifyFailure(fault.value, now)) && domainStore == old(domainStore)
      ensures probe.None? && fault.None? ==>
                && r.Success? && fresh(r.value)
                && r.value.bmr == bmr && r.value.deviceName == title
                && r.value.data == Some(PollSnapshot(bmr.State(), configs, readings, None))
                && domainStore == Some(Stored(old(domainStore), entryId, r.value))
    {
      if probe.Some? {
        return Failure(ClassifyFailure(probe.value, now));
      }
      var coordinator := new UpdateCoordinator(bmr, title);
      var first := coordinator.Refresh(configs, readings, fault, now);
      if first.Failure? {
        return Failure(first.error);
      }
      domainStore := Some(Stored(domainStore, entryId, coordinator));
      return Success(coordinator);
    }

    /** `async_unload_entry`, given whether the platforms unloaded. */
    method UnloadEntry(entryId: string, platformsUnloaded: bool) returns (r: UnloadOutcome)
      modifies this
      ensures !platformsUnloaded ==> r == Unloaded(false) && domainStore == old(domainStore)
      ensures platformsUnloaded && old(domainStore).Some? && entryId in old(domainStore).value ==>
                r == Unloaded(true) && domainStore == Some(old(domainStore).value - {entryId})
      ensures platformsUnloaded && !(old(domainStore).Some? && entryId in old(domainStore).value) ==>
                r == KeyErrorRaised && domainStore == old(domainStore)
    {
      if !platformsUnloaded {
        return Unloaded(false);
      }
      if domainStore.None? || entryId !in domainStore.value {
        return KeyErrorRaised;
      }
      domainStore := Some(domainStore.value - {entryId});
      return Unloaded(true);
    }
  }
}
