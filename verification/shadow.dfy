/**
 * Device-shadow state handling (iot/ShadowHandler.py).
 *
 * Shadow documents are JSON values; Python dictionaries keyed by strings are
 * `map<string, Json>`. The MQTT client, the HTTP client and logging are not
 * part of this model: a publish is returned as the request it would send,
 * and each HTTP call is a function from the request to its outcome. The
 * random client token is a constructor parameter.
 */
module Shadow {
  import opened Support

  datatype Json =
    | JNull
    | JBool(b: bool)
    | JNum(n: int)
    | JStr(s: string)
    | JList(items: seq<Json>)
    | JObj(fields: map<string, Json>)

  /** Python truthiness of a JSON value. */
  predicate Truthy(j: Json) {
    match j
    case JNull => false
    case JBool(b) => b
    case JNum(n) => n != 0
    case JStr(s) => s != ""
    case JList(items) => items != []
    case JObj(fields) => fields != map[]
  }

  /** The Python exceptions the modelled code can raise. */
  datatype PyError = KeyError | TypeError | AttributeError

  /** `shadow_request`: the fields every request to this named shadow carries. */
  datatype ShadowRequest = ShadowRequest(thingName: string, shadowName: string, clientToken: string)

  /** `ShadowState`: reported and desired documents, either possibly absent. */
  datatype ShadowState = ShadowState(reported: Option<map<string, Json>>, desired: Option<map<string, Json>>)

  /** `UpdateNamedShadowRequest`. */
  datatype UpdateShadowRequest = UpdateShadowRequest(thingName: string, shadowName: string, clientToken: string, state: ShadowState)

  /** The fields of an `UpdateShadowResponse` the handler reads. */
  datatype UpdateShadowResponse = UpdateShadowResponse(clientToken: Option<string>, state: Option<ShadowState>)

  /** One HTTP call as `requests.request` is given it. */
  datatype HttpRequest = HttpRequest(verb: string, url: string, params: map<string, Json>, body: Json)

  /**
   * What a call yields: the decoded JSON body, or failure (the request threw,
   * `raise_for_status` threw, or the body was not JSON).
   */
  datatype HttpOutcome = Responded(body: Json) | RequestFailed

  /** The `{"status": ..., "error": ...}` dictionary the request handlers return. */
  datatype HandlerResult = HandlerResult(status: string, error: Option<string>)

  const Succeeded: HandlerResult := HandlerResult("Success", None)
  const OperateFailed: HandlerResult := HandlerResult("Failed", Some("Operate request failed"))
  const SettingsFailed: HandlerResult := HandlerResult("Failed", Some("Settings request failed"))

  /**
   * `dict.update`: every key of either side, the update's value where it has
   * the key and the old value elsewhere.
   */
  function Merge(local: map<string, Json>, update: map<string, Json>): (r: map<string, Json>)
    ensures r.Keys == local.Keys + update.Keys
    ensures forall k :: k in update ==> r[k] == update[k]
    ensures forall k :: k in local && k !in update ==> r[k] == local[k]
  {
    local + update
  }

  /**
   * `update_state`: the local state is always reported, and also sent as the
   * desired state when asked to override; thing, shadow and token come from
   * the handler's request fields.
   */
  function UpdateRequest(request: ShadowRequest, local: map<string, Json>, overrideDesired: bool): (r: UpdateShadowRequest)
    ensures r.thingName == request.thingName && r.shadowName == request.shadowName && r.clientToken == request.clientToken
    ensures r.state.reported == Some(local)
    ensures r.state.desired.Some? <==> overrideDesired
    ensures r.state.desired.Some? ==> r.state.desired.value == local
  {
    UpdateShadowRequest(request.thingName, request.shadowName, request.clientToken,
      ShadowState(Some(local), if overrideDesired then Some(local) else None))
  }

  /** `item['sensor_id']`, which must also be usable as a dictionary key. */
  function SensorIdOf(item: Json): (r: Result<Json, PyError>)
    ensures r.Ok? <==> item.JObj? && "sensor_id" in item.fields && !item.fields["sensor_id"].JList? && !item.fields["sensor_id"].JObj?
    ensures r.Ok? ==> r.value == item.fields["sensor_id"]
  {
    match item
    case JObj(fields) =>
      if "sensor_id" !in fields then Err(KeyError)
      else
        var id := fields["sensor_id"];
        if id.JList? || id.JObj? then Err(TypeError) else Ok(id)
    case _ => Err(TypeError)
  }

  /**
   * The index the loop of `__index_state__` builds over a sensor list, or the
   * first exception it meets.
   */
  function IndexItems(items: seq<Json>): (r: Result<map<Json, nat>, PyError>)
    ensures r.Ok? ==> forall id :: id in r.value ==> r.value[id] < |items|
  {
    if items == [] then Ok(map[])
    else
      var n := |items| - 1;
      match IndexItems(items[..n])
      case Err(e) => Err(e)
      case Ok(index) =>
        match SensorIdOf(items[n])
        case Err(e) => Err(e)
        case Ok(id) => Ok(index[id := n])
  }

  /** Indexing succeeds exactly when every listed sensor has a usable id. */
  lemma {:induction false} IndexItemsSucceeds(items: seq<Json>)
    ensures IndexItems(items).Ok? <==> forall j :: 0 <= j < |items| ==> SensorIdOf(items[j]).Ok?
  {
    if items != [] {
      var n := |items| - 1;
      IndexItemsSucceeds(items[..n]);
      assert forall j :: 0 <= j < n ==> items[..n][j] == items[j];
    }
  }

  /** A successful index has exactly the listed ids as keys. */
  lemma {:induction false} IndexItemsKeys(items: seq<Json>, id: Json)
    requires IndexItems(items).Ok?
    ensures id in IndexItems(items).value <==> exists j :: 0 <= j < |items| && SensorIdOf(items[j]) == Ok(id)
  {
    if items != [] {
      var n := |items| - 1;
      var init := items[..n];
      var index := IndexItems(init).value;
      var last := SensorIdOf(items[n]).value;
      assert IndexItems(items).value == index[last := n];
      IndexItemsKeys(init, id);
      if id == last {
        assert SensorIdOf(items[n]) == Ok(id);
      } else {
        if exists j :: 0 <= j < |items| && SensorIdOf(items[j]) == Ok(id) {
          var j :| 0 <= j < |items| && SensorIdOf(items[j]) == Ok(id);
          assert j < n && init[j] == items[j];
        }
        if id in index {
          var j :| 0 <= j < n && SensorIdOf(init[j]) == Ok(id);
          assert items[j] == init[j];
        }
      }
    }
  }

  /** Each key of a successful index maps to the last position that carries it. */
  lemma {:induction false} IndexItemsLastPosition(items: seq<Json>, id: Json)
    requires IndexItems(items).Ok? && id in IndexItems(items).value
    ensures var p := IndexItems(items).value[id];
      && SensorIdOf(items[p]) == Ok(id)
      && forall j :: p < j < |items| ==> SensorIdOf(items[j]) != Ok(id)
  {
    var n := |items| - 1;
    var init := items[..n];
    var index := IndexItems(init).value;
    var last := SensorIdOf(items[n]).value;
    assert IndexItems(items).value == index[last := n];
    if id != last {
      IndexItemsLastPosition(init, id);
      var p := index[id];
      assert items[p] == init[p];
      forall j | p < j < |items|
        ensures SensorIdOf(items[j]) != Ok(id)
      {
        if j < n {
          assert items[j] == init[j];
        }
      }
    }
  }

  /** Once a prefix of the list fails, the whole list fails with the same exception. */
  lemma {:induction false} IndexErrorPropagates(items: seq<Json>, i: nat)
    requires i <= |items| && IndexItems(items[..i]).Err?
    ensures IndexItems(items) == IndexItems(items[..i])
    decreases |items| - i
  {
    if i == |items| {
      assert items[..i] == items;
    } else {
      assert items[..i + 1][..i] == items[..i];
      IndexErrorPropagates(items, i + 1);
    }
  }

  /**
   * `__index_state__` on a given local state. `local_state['sensors']` must
   * exist; an empty string or dictionary gives an empty index, a non-empty
   * dictionary fails on its integer lookup, and any other non-list value
   * fails in `len` or in the lookup of 'sensor_id'.
   */
  function SensorIndex(local: map<string, Json>): (r: Result<map<Json, nat>, PyError>)
    ensures "sensors" !in local ==> r == Err(KeyError)
    ensures "sensors" in local && local["sensors"].JList? ==> r == IndexItems(local["sensors"].items)
    ensures r.Ok? && !local["sensors"].JList? ==> r.value == map[]
    ensures "sensors" in local && !local["sensors"].JList? ==>
      (r.Ok? <==> local["sensors"] == JStr("") || local["sensors"] == JObj(map[]))
  {
    if "sensors" !in local then Err(KeyError)
    else match local["sensors"]
      case JList(items) => IndexItems(items)
      case JStr(s) => if s == "" then Ok(map[]) else Err(TypeError)
      case JObj(fields) => if fields == map[] then Ok(map[]) else Err(KeyError)
      case _ => Err(TypeError)
  }

  class GlobalShadowHandler {
    const request: ShadowRequest
    const deviceEndpoint: string
    var localState: map<string, Json>
    var sensorIndex: map<Json, nat>

    /** `GlobalShadowHandler(...)`: no device id, no sensors, an empty index. */
    constructor (thing: string, shadow: string, deviceEndpoint: string, token: string)
      ensures request == ShadowRequest(thing, shadow, token) && this.deviceEndpoint == deviceEndpoint
      ensures localState == map["device_id" := JNull, "sensors" := JList([])]
      ensures sensorIndex == map[]
    {
      request := ShadowRequest(thing, shadow, token);
      this.deviceEndpoint := deviceEndpoint;
      localState := map["device_id" := JNull, "sensors" := JList([])];
      sensorIndex := map[];
    }

    /**
     * `__index_state__`: rebuilds the index from the current sensor list. On
     * an exception the old index stays.
     */
    method IndexState() returns (error: Option<PyError>)
      modifies this`sensorIndex
      ensures SensorIndex(localState).Ok? ==> error.None? && sensorIndex == SensorIndex(localState).value
      ensures SensorIndex(localState).Err? ==> error == Some(SensorIndex(localState).error) && sensorIndex == old(sensorIndex)
    {
      if "sensors" !in localState {
        return Some(KeyError);
      }
      match localState["sensors"] {
        case JList(items) =>
          var index: map<Json, nat> := map[];
          var i := 0;
          while i < |items|
            invariant 0 <= i <= |items|
            invariant IndexItems(items[..i]) == Ok(index)
          {
            var id := SensorIdOf(items[i]);
            assert items[..i + 1][..i] == items[..i];
            if id.Err? {
              IndexErrorPropagates(items, i + 1);
              return Some(id.error);
            }
            index := index[id.value := i];
            i := i + 1;
          }
          assert items[..i] == items;
          sensorIndex := index;
          error := None;
        case JStr(s) =>
          if s != "" {
            return Some(TypeError);
          }
          sensorIndex := map[];
          error := None;
        case JObj(fields) =>
          if fields != map[] {
            return Some(KeyError);
          }
          sensorIndex := map[];
          error := None;
        case _ =>
          error := Some(TypeError);
      }
    }

    /**
     * `set_state`: merges the update into the local state, then rebuilds the
     * index only when asked; the merge has happened even if indexing throws.
     */
    method SetState(state: map<string, Json>, updateIndex: bool) returns (error: Option<PyError>)
      modifies this`localState, this`sensorIndex
      ensures localState == Merge(old(localState), state)
      ensures !updateIndex ==> error.None? && sensorIndex == old(sensorIndex)
      ensures updateIndex && SensorIndex(localState).Ok? ==> error.None? && sensorIndex == SensorIndex(localState).value
      ensures updateIndex && SensorIndex(localState).Err? ==>
        error == Some(SensorIndex(localState).error) && sensorIndex == old(sensorIndex)
    {
      localState := Merge(localState, state);
      error := None;
      if updateIndex {
        error := IndexState();
      }
    }

    /** `update_state`: the request it publishes. */
    function UpdateState(overrideDesired: bool): (r: UpdateShadowRequest)
      reads this
      ensures r.state.reported == Some(localState) && r.clientToken == request.clientToken
    {
      UpdateRequest(request, localState, overrideDesired)
    }
  }

  /**
   * After a merge that replaces the sensor list and re-indexes, a sensor id is
   * a key of the index exactly when some listed sensor has it, at the last
   * such position.
   */
  lemma {:induction false} IndexAfterMerge(local: map<string, Json>, sensors: seq<Json>, id: Json)
    requires IndexItems(sensors).Ok?
    ensures var merged := Merge(local, map["sensors" := JList(sensors)]);
      && SensorIndex(merged).Ok?
      && (id in SensorIndex(merged).value <==> exists j :: 0 <= j < |sensors| && SensorIdOf(sensors[j]) == Ok(id))
      && (id in SensorIndex(merged).value ==> SensorIdOf(sensors[SensorIndex(merged).value[id]]) == Ok(id))
  {
    var merged := Merge(local, map["sensors" := JList(sensors)]);
    assert merged["sensors"] == JList(sensors);
    IndexItemsKeys(sensors, id);
    if id in IndexItems(sensors).value {
      IndexItemsLastPosition(sensors, id);
    }
  }

  /** `change_sensor_running`'s request: POST to the device's devices endpoint with the wanted state as a query parameter. */
  function RunningRequest(endpoint: string, sensorName: string, active: Json): (r: HttpRequest)
    ensures r.verb == "POST" && r.params == map["active" := active] && r.body == JNull
    ensures r.url == "http://" + endpoint + "/api/devices/" + sensorName
  {
    HttpRequest("POST", "http://" + endpoint + "/api/devices/" + sensorName, map["active" := active], JNull)
  }

  /** `get_or_update_sensor_settings`'s request: PUT with the settings as body when they are truthy, GET with no body otherwise. */
  function SettingsRequest(endpoint: string, sensorName: string, settings: Json): (r: HttpRequest)
    ensures r.verb == "PUT" <==> Truthy(settings)
    ensures r.verb == "GET" <==> !Truthy(settings)
    ensures r.body == if Truthy(settings) then settings else JNull
    ensures r.url == "http://" + endpoint + "/api/settings/" + sensorName && r.params == map[]
  {
    var url := "http://" + endpoint + "/api/settings/" + sensorName;
    if Truthy(settings) then HttpRequest("PUT", url, map[], settings) else HttpRequest("GET", url, map[], JNull)
  }

  /**
   * What `on_update_shadow_accepted` decides before any request: ignore the
   * update, fail reading it, or call the handlers for the keys listed.
   */
  datatype Decision =
    | Ignore
    | Raise(error: PyError)
    | Dispatch(active: Option<Json>, settings: Option<Json>)

  /**
   * Its own token or an empty desired state is ignored; a missing state
   * raises on `.desired`; otherwise each of "active" and "settings" is handled
   * when it is desired and differs from the local value.
   */
  function Decide(ownToken: string, response: UpdateShadowResponse, local: map<string, Json>): (d: Decision)
    requires "active" in local && "settings" in local
    ensures d == Ignore <==> (response.clientToken == Some(ownToken)
      || (response.state.Some? && (response.state.value.desired.None? || response.state.value.desired.value == map[])))
    ensures d.Raise? <==> response.clientToken != Some(ownToken) && response.state.None?
    ensures d.Raise? ==> d.error == AttributeError
    ensures d.Dispatch? ==> var desired := response.state.value.desired.value;
      && (d.active.Some? <==> "active" in desired && desired["active"] != local["active"])
      && (d.active.Some? ==> d.active.value == desired["active"])
      && (d.settings.Some? <==> "settings" in desired && desired["settings"] != local["settings"])
      && (d.settings.Some? ==> d.settings.value == desired["settings"])
  {
    if response.clientToken == Some(ownToken) then Ignore
    else if response.state.None? then Raise(AttributeError)
    else
      var desired := response.state.value.desired;
      if desired.None? || desired.value == map[] then Ignore
      else
        var d := desired.value;
        Dispatch(
          if "active" in d && d["active"] != local["active"] then Some(d["active"]) else None,
          if "settings" in d && d["settings"] != local["settings"] then Some(d["settings"]) else None)
  }

  /** What the handler did with an update it accepted. */
  datatype AcceptOutcome =
    | Ignored
    | Raised(error: PyError)
    | Handled(loggedError: Option<string>, published: UpdateShadowRequest)

  /** The local state and result after `change_sensor_running`. */
  function AfterRunning(local: map<string, Json>, endpoint: string, sensorName: string, active: Json,
                        http: HttpRequest -> HttpOutcome): (map<string, Json>, HandlerResult)
  {
    if http(RunningRequest(endpoint, sensorName, active)).Responded? then (local["active" := active], Succeeded)
    else (local, OperateFailed)
  }

  /** The local state and result after `get_or_update_sensor_settings`: the response body becomes the settings. */
  function AfterSettings(local: map<string, Json>, endpoint: string, sensorName: string, settings: Json,
                         http: HttpRequest -> HttpOutcome): (map<string, Json>, HandlerResult)
  {
    var outcome := http(SettingsRequest(endpoint, sensorName, settings));
    if outcome.Responded? then (local["settings" := outcome.body], Succeeded) else (local, SettingsFailed)
  }

  /**
   * The dispatched handlers in order, starting from result `{"error": None}`:
   * each later result replaces the earlier one.
   */
  function RunHandlers(local: map<string, Json>, endpoint: string, sensorName: string,
                       active: Option<Json>, settings: Option<Json>,
                       http: HttpRequest -> HttpOutcome): (r: (map<string, Json>, Option<string>))
    ensures r.0.Keys == local.Keys + (if active.Some? && http(RunningRequest(endpoint, sensorName, active.value)).Responded? then {"active"} else {})
      + (if settings.Some? && http(SettingsRequest(endpoint, sensorName, settings.value)).Responded? then {"settings"} else {})
    ensures forall k :: k in local && k != "active" && k != "settings" ==> r.0[k] == local[k]
  {
    var (s1, r1) := if active.Some? then AfterRunning(local, endpoint, sensorName, active.value, http) else (local, HandlerResult("", None));
    var (s2, r2) := if settings.Some? then AfterSettings(s1, endpoint, sensorName, settings.value, http) else (s1, r1);
    (s2, r2.error)
  }

  /**
   * When both handlers run, only the settings outcome is logged: a failed
   * start/stop request is hidden by a successful settings request.
   */
  lemma SettingsResultOverwritesActive(local: map<string, Json>, endpoint: string, sensorName: string,
                                       active: Json, settings: Json, http: HttpRequest -> HttpOutcome)
    ensures var r := RunHandlers(local, endpoint, sensorName, Some(active), Some(settings), http);
      && (http(SettingsRequest(endpoint, sensorName, settings)).Responded? ==> r.1.None?)
      && (http(SettingsRequest(endpoint, sensorName, settings)).RequestFailed? ==> r.1 == Some("Settings request failed"))
  {
  }

  /**
   * Each key changes only through a request that succeeded: "active" to the
   * desired value, "settings" to the response body.
   */
  lemma HandlersChangeOnlyOnSuccess(local: map<string, Json>, endpoint: string, sensorName: string,
                                    active: Option<Json>, settings: Option<Json>, http: HttpRequest -> HttpOutcome)
    requires "active" in local && "settings" in local
    ensures var r := RunHandlers(local, endpoint, sensorName, active, settings, http);
      && (if active.Some? && http(RunningRequest(endpoint, sensorName, active.value)).Responded?
          then r.0["active"] == active.value else r.0["active"] == local["active"])
      && (if settings.Some? && http(SettingsRequest(endpoint, sensorName, settings.value)).Responded?
          then r.0["settings"] == http(SettingsRequest(endpoint, sensorName, settings.value)).body
          else r.0["settings"] == local["settings"])
  {
  }

  class SensorShadowHandler {
    const request: ShadowRequest
    const sensorName: string
    const deviceEndpoint: string
    var localState: map<string, Json>

    /** Both keys the handler reads are always present. */
    predicate Valid()
      reads this
    {
      "active" in localState && "settings" in localState
    }

    /** `SensorShadowHandler(...)`: "active" and "settings" both unset. */
    constructor (thing: string, shadow: string, sensorName: string, endpoint: string, token: string)
      ensures request == ShadowRequest(thing, shadow, token)
      ensures this.sensorName == sensorName && deviceEndpoint == endpoint
      ensures localState == map["active" := JNull, "settings" := JNull] && Valid()
    {
      request := ShadowRequest(thing, shadow, token);
      this.sensorName := sensorName;
      deviceEndpoint := endpoint;
      localState := map["active" := JNull, "settings" := JNull];
    }

    /** `set_state(key, state)`: that one key takes the value; every other key is kept. */
    method SetState(key: string, value: Json)
      modifies this`localState
      ensures localState == old(localState)[key := value]
      ensures localState.Keys == old(localState).Keys + {key} && localState[key] == value
      ensures forall k :: k in old(localState) && k != key ==> localState[k] == old(localState)[k]
      ensures old(Valid()) ==> Valid()
    {
      localState := localState[key := value];
    }

    /** `change_sensor_running`: on success the local "active" takes the requested value. */
    method ChangeSensorRunning(active: Json, http: HttpRequest -> HttpOutcome) returns (result: HandlerResult)
      modifies this`localState
      ensures (localState, result) == AfterRunning(old(localState), deviceEndpoint, sensorName, active, http)
      ensures result.error.None? <==> http(RunningRequest(deviceEndpoint, sensorName, active)).Responded?
      ensures old(Valid()) ==> Valid()
    {
      var response := http(RunningRequest(deviceEndpoint, sensorName, active));
      if response.RequestFailed? {
        return OperateFailed;
      }
      SetState("active", active);
      result := Succeeded;
    }

    /** `get_or_update_sensor_settings`: on success the local "settings" takes the response body. */
    method GetOrUpdateSensorSettings(settings: Json, http: HttpRequest -> HttpOutcome) returns (result: HandlerResult)
      modifies this`localState
      ensures (localState, result) == AfterSettings(old(localState), deviceEndpoint, sensorName, settings, http)
      ensures result.error.None? <==> http(SettingsRequest(deviceEndpoint, sensorName, settings)).Responded?
      ensures old(Valid()) ==> Valid()
    {
      var response := http(SettingsRequest(deviceEndpoint, sensorName, settings));
      if response.RequestFailed? {
        return SettingsFailed;
      }
      SetState("settings", response.body);
      result := Succeeded;
    }

    /**
     * `on_update_shadow_accepted`: nothing happens for an ignored update;
     * otherwise the dispatched handlers run and the local state is published
     * as reported, whatever the handlers returned.
     */
    method OnUpdateShadowAccepted(response: UpdateShadowResponse, http: HttpRequest -> HttpOutcome) returns (outcome: AcceptOutcome)
      requires Valid()
      modifies this`localState
      ensures Valid()
      ensures match Decide(request.clientToken, response, old(localState))
        case Ignore => outcome == Ignored && localState == old(localState)
        case Raise(e) => outcome == Raised(e) && localState == old(localState)
        case Dispatch(active, settings) =>
          var (s, error) := RunHandlers(old(localState), deviceEndpoint, sensorName, active, settings, http);
          localState == s && outcome == Handled(error, UpdateRequest(request, s, false))
    {
      var decision := Decide(request.clientToken, response, localState);
      match decision {
        case Ignore => return Ignored;
        case Raise(e) => return Raised(e);
        case Dispatch(active, settings) =>
          var result := HandlerResult("", None);
          if active.Some? {
            result := ChangeSensorRunning(active.value, http);
          }
          if settings.Some? {
            result := GetOrUpdateSensorSettings(settings.value, http);
          }
          outcome := Handled(result.error, UpdateRequest(request, localState, false));
      }
    }
  }
}
