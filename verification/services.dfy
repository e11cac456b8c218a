/**
 * Device registries (snsrpi-device/Services/LoggerManagerService.cs and
 * snsrpi-device/Services/LoggerService.cs).
 *
 * Both services keep a get-only dictionary from device id to `Logger` that is
 * filled in the constructor and never changed afterwards; the lookups they
 * share are defined once on the `Registry` value, and each service keeps its
 * own start/stop methods. A missing id makes the dictionary indexer throw,
 * which the model returns as `KeyNotFound`.
 */
module Services {
  import opened Support
  import opened Loggers

  /** The ids the demo registry seeds, in insertion order. */
  const DemoIds: seq<string> := ["CX1_1901", "CX1_1902", "CX1_1903", "CX1_1904"]

  /** The dictionary: its keys in insertion order, and the entries. */
  datatype Registry = Registry(ids: seq<string>, loggers: map<string, Logger>) {

    /** Keys listed once each, exactly the dictionary's keys, and no logger shared by two ids. */
    ghost predicate Valid() {
      && (forall i, j :: 0 <= i < j < |ids| ==> ids[i] != ids[j])
      && (forall id :: id in ids <==> id in loggers)
      && (forall a, b :: a in loggers && b in loggers && a != b ==> loggers[a] != loggers[b])
    }

    /** `ListDevices`: `Loggers.Keys.ToList()`. */
    function ListDevices(): (r: seq<string>)
      ensures Valid() ==> (forall id :: id in r <==> id in loggers) && |r| == |loggers|
    {
      DistinctIdsCount(ids, loggers.Keys);
      ids
    }

    /** `CheckDevice`: whether the id is registered, that is, listed. */
    function CheckDevice(id: string): (r: bool)
      ensures Valid() ==> (r <==> id in ListDevices())
      ensures r ==> id in loggers
    {
      id in loggers
    }

    /** `GetDevice`: the registered logger, or the indexer's exception. */
    function GetDevice(id: string): (r: Result<Logger, Exception>)
      ensures r.Ok? <==> CheckDevice(id)
      ensures r.Ok? ==> r.value == loggers[id]
      ensures r.Err? ==> r.error == KeyNotFound
    {
      if id in loggers then Ok(loggers[id]) else Err(KeyNotFound)
    }
  }

  /** A list of distinct keys covering a set has exactly the set's size. */
  lemma {:induction false} DistinctIdsCount(ids: seq<string>, keys: set<string>)
    ensures (forall i, j :: 0 <= i < j < |ids| ==> ids[i] != ids[j]) && (forall id :: id in ids <==> id in keys)
      ==> |ids| == |keys|
  {
    if (forall i, j :: 0 <= i < j < |ids| ==> ids[i] != ids[j]) && (forall id :: id in ids <==> id in keys) {
      if ids != [] {
        var last := ids[|ids| - 1];
        var init := ids[..|ids| - 1];
        assert forall id :: id in init <==> id in keys - {last} by {
          forall id ensures id in init <==> id in keys - {last} {
            if id in init {
              var k :| 0 <= k < |init| && init[k] == id;
              assert ids[k] == id && k < |ids| - 1;
            }
            assert ids == init + [last];
          }
        }
        DistinctIdsCount(init, keys - {last});
      }
    }
  }

  /** The empty registry: nothing is listed or found. */
  lemma EmptyRegistryFindsNothing(id: string)
    ensures Registry([], map[]).Valid()
    ensures Registry([], map[]).ListDevices() == []
    ensures !Registry([], map[]).CheckDevice(id) && Registry([], map[]).GetDevice(id) == Err(KeyNotFound)
  {
  }

  /** The demo dictionary over four loggers. */
  function DemoRegistry(l1: Logger, l2: Logger, l3: Logger, l4: Logger): Registry {
    Registry(DemoIds, map["CX1_1901" := l1, "CX1_1902" := l2, "CX1_1903" := l3, "CX1_1904" := l4])
  }

  /** Four distinct loggers make a valid demo registry listing exactly the demo ids. */
  lemma DemoRegistryValid(l1: Logger, l2: Logger, l3: Logger, l4: Logger)
    requires l1 != l2 && l1 != l3 && l1 != l4 && l2 != l3 && l2 != l4 && l3 != l4
    ensures DemoRegistry(l1, l2, l3, l4).Valid()
    ensures DemoRegistry(l1, l2, l3, l4).loggers.Keys == {"CX1_1901", "CX1_1902", "CX1_1903", "CX1_1904"}
    ensures DemoRegistry(l1, l2, l3, l4).loggers.Values == {l1, l2, l3, l4}
  {
    var reg := DemoRegistry(l1, l2, l3, l4);
    assert reg.loggers.Keys == {"CX1_1901", "CX1_1902", "CX1_1903", "CX1_1904"};
    assert forall id :: id in DemoIds <==> id in reg.loggers;
  }

  /**
   * The demo constructor makes four separate `new Logger(true)` objects, so
   * its registry holds four loggers, one per demo id, none shared.
   */
  lemma DemoRegistryHoldsFourLoggers(l1: Logger, l2: Logger, l3: Logger, l4: Logger)
    requires l1 != l2 && l1 != l3 && l1 != l4 && l2 != l3 && l2 != l4 && l3 != l4
    ensures |DemoRegistry(l1, l2, l3, l4).loggers.Values| == 4 == |DemoRegistry(l1, l2, l3, l4).loggers|
  {
    var m := DemoRegistry(l1, l2, l3, l4).loggers;
    assert m["CX1_1901"] == l1 && m["CX1_1902"] == l2 && m["CX1_1903"] == l3 && m["CX1_1904"] == l4;
    assert m.Values == {l1, l2, l3, l4};
    assert m.Keys == {"CX1_1901", "CX1_1902", "CX1_1903", "CX1_1904"};
  }

  class LoggerManagerService {
    const registry: Registry

    /** `LoggerManagerService()`: an empty registry. */
    constructor ()
      ensures registry == Registry([], map[]) && registry.Valid()
    {
      registry := Registry([], map[]);
    }

    /**
     * `LoggerManagerService(demo)`: empty unless demo, and then one fresh demo
     * logger under each demo id; being four separate `new` objects, the four
     * loggers are distinct.
     */
    constructor WithMode(demo: bool)
      ensures registry.Valid()
      ensures !demo ==> registry == Registry([], map[])
      ensures demo ==> registry.ids == DemoIds && registry.loggers.Keys == {"CX1_1901", "CX1_1902", "CX1_1903", "CX1_1904"}
      ensures demo ==> forall l :: l in registry.loggers.Values ==> fresh(l) && l.demo && l.dataBuffers == []
    {
      if !demo {
        registry := Registry([], map[]);
      } else {
        var l1 := new Logger.Unconfigured(true);
        var l2 := new Logger.Unconfigured(true);
        var l3 := new Logger.Unconfigured(true);
        var l4 := new Logger.Unconfigured(true);
        DemoRegistryValid(l1, l2, l3, l4);
        registry := DemoRegistry(l1, l2, l3, l4);
      }
    }

    /**
     * `StartDevice`: the registered logger starts acquiring; no other logger
     * and no other field changes. Exceptions from the logger pass through.
     */
    method StartDevice(id: string, session: DeviceSession) returns (failure: Option<Exception>)
      requires registry.Valid()
      modifies registry.loggers.Values
      ensures id !in registry.loggers ==> failure == Some(KeyNotFound)
      ensures forall other :: other in registry.loggers && other != id ==> unchanged(registry.loggers[other])
      ensures id in registry.loggers ==>
        var l: Logger := registry.loggers[id];
        && unchanged(l`deviceId, l`output, l`settings, l`isActive, l`demo, l`hasLogs)
        && (failure.Some? <==> !session.isConnected && session.reconnect != LoggedIn(LoginOk) && !l.hasLogs)
        && (failure.None? && session.streamEnabled ==> l.dataBuffers == old(l.dataBuffers) + AcquisitionBatches(session.polls))
        && (failure.Some? || !session.streamEnabled ==> l.dataBuffers == old(l.dataBuffers))
    {
      var device := registry.GetDevice(id);
      if device.Err? {
        return Some(device.error);
      }
      failure := device.value.StartAcquisition(session);
    }

    /** `StopDevice`: `StopAcquisition` is empty, so only the lookup can fail; nothing changes. */
    method StopDevice(id: string) returns (failure: Option<Exception>)
      ensures failure.None? <==> registry.CheckDevice(id)
      ensures failure.Some? ==> failure.value == KeyNotFound
    {
      var device := registry.GetDevice(id);
      if device.Err? {
        return Some(device.error);
      }
      device.value.StopAcquisition();
      failure := None;
    }

    /** `SendHeartbeat` returns at once: the service and every logger it holds are left as they were. */
    method SendHeartbeat()
      ensures unchanged(this) && forall l :: l in registry.loggers.Values ==> unchanged(l)
    {
    }
  }

  class LoggerService {
    const registry: Registry

    /** `LoggerService()`, the only constructor: an empty registry. */
    constructor ()
      ensures registry == Registry([], map[]) && registry.Valid()
    {
      registry := Registry([], map[]);
    }

    /** `StartDevice`: true once the registered logger's acquisition returns. */
    method StartDevice(id: string, session: DeviceSession) returns (r: Result<bool, Exception>)
      requires registry.Valid()
      modifies registry.loggers.Values
      ensures r.Ok? ==> r.value
      ensures id !in registry.loggers ==> r == Err(KeyNotFound)
      ensures forall other :: other in registry.loggers && other != id ==> unchanged(registry.loggers[other])
      ensures id in registry.loggers ==>
        var l: Logger := registry.loggers[id];
        && unchanged(l`deviceId, l`output, l`settings, l`isActive, l`demo, l`hasLogs)
        && (r.Err? <==> !session.isConnected && session.reconnect != LoggedIn(LoginOk) && !l.hasLogs)
        && (r.Ok? && session.streamEnabled ==> l.dataBuffers == old(l.dataBuffers) + AcquisitionBatches(session.polls))
        && (r.Err? || !session.streamEnabled ==> l.dataBuffers == old(l.dataBuffers))
    {
      var device := registry.GetDevice(id);
      if device.Err? {
        return Err(device.error);
      }
      var failure := device.value.StartAcquisition(session);
      if failure.Some? {
        return Err(failure.value);
      }
      r := Ok(true);
    }

    /** `StopDevice`: true for a registered id, the indexer's exception otherwise; nothing changes. */
    method StopDevice(id: string) returns (r: Result<bool, Exception>)
      ensures r.Ok? <==> registry.CheckDevice(id)
      ensures r.Ok? ==> r.value
      ensures r.Err? ==> r.error == KeyNotFound
    {
      var device := registry.GetDevice(id);
      if device.Err? {
        return Err(device.error);
      }
      device.value.StopAcquisition();
      r := Ok(true);
    }
  }
}
