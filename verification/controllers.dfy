/**
 * HTTP controllers over `LoggerService`
 * (snsrpi-device/Controllers/SettingsController.cs and
 * snsrpi-device/Controllers/DevicesController.cs).
 *
 * Only the decision each action takes is modelled: which result it returns
 * and what it changes. Routing and serialisation are not part of this model.
 */
module Controllers {
  import opened Support
  import opened Settings
  import opened Loggers
  import opened Services

  /** The action results the controllers return. */
  datatype ActionResult = NotFound | NoContent | OkWith(settings: Option<AcquisitionSettings>)

  class SettingsController {
    const service: LoggerService

    constructor (service: LoggerService)
      ensures this.service == service
    {
      this.service := service;
    }

    /** `GetSettings`: the registered logger's current settings, NotFound for an unknown id. */
    function GetSettings(id: string): (r: ActionResult)
      reads service.registry.loggers.Values
      ensures r == NotFound <==> !service.registry.CheckDevice(id)
      ensures r != NotFound ==> r == OkWith(service.registry.loggers[id].settings)
    {
      match service.registry.GetDevice(id)
      case Err(_) => NotFound
      case Ok(device) => OkWith(device.settings)
    }

    /**
     * `UpdateSettings`: replaces the registered logger's settings wholesale;
     * a later `GetSettings` on that id returns them, and every other id
     * answers as before. An unknown id gives NotFound and changes nothing.
     */
    method UpdateSettings(id: string, settings: Option<AcquisitionSettings>) returns (r: ActionResult)
      requires service.registry.Valid()
      modifies service.registry.loggers.Values
      ensures r == NotFound <==> !service.registry.CheckDevice(id)
      ensures r != NotFound ==> r == NoContent && GetSettings(id) == OkWith(settings)
      ensures r == NotFound ==> unchanged(service.registry.loggers.Values)
      ensures forall other :: other != id ==> GetSettings(other) == old(GetSettings(other))
      ensures forall l :: l in service.registry.loggers.Values ==>
        unchanged(l`deviceId, l`output, l`dataBuffers, l`isActive, l`demo, l`hasLogs)
    {
      var device := service.registry.GetDevice(id);
      if device.Err? {
        return NotFound;
      }
      device.value.settings := settings;
      r := NoContent;
    }
  }

  class DevicesController {
    const service: LoggerService

    constructor (service: LoggerService)
      ensures this.service == service
    {
      this.service := service;
    }

    /**
     * `Start`: the existence check is inverted, so a registered id gets
     * NotFound and any other id NoContent. The call that would start the
     * device is commented out, so nothing changes.
     */
    function Start(id: string): (r: ActionResult)
      ensures r == NotFound <==> service.registry.CheckDevice(id)
      ensures r == NoContent <==> !service.registry.CheckDevice(id)
    {
      if service.registry.CheckDevice(id) then NotFound else NoContent
    }

    /** `Stop`: the same inverted check, and likewise no effect. */
    function Stop(id: string): (r: ActionResult)
      ensures r == NotFound <==> service.registry.CheckDevice(id)
      ensures r == NoContent <==> !service.registry.CheckDevice(id)
    {
      if service.registry.CheckDevice(id) then NotFound else NoContent
    }
  }

  /**
   * Against the service as constructed (its registry is empty and never
   * filled), every settings request is NotFound and every start or stop
   * request NoContent.
   */
  lemma FreshServiceAnswers(settings: SettingsController, devices: DevicesController, id: string)
    requires settings.service.registry == Registry([], map[])
    requires devices.service.registry == Registry([], map[])
    ensures settings.GetSettings(id) == NotFound
    ensures devices.Start(id) == NoContent && devices.Stop(id) == NoContent
  {
  }

  /** The settings round trip: update on a registered id, then get, returns the new settings. */
  method UpdateThenGet(controller: SettingsController, id: string, s: AcquisitionSettings) returns (r: ActionResult)
    requires controller.service.registry.Valid() && controller.service.registry.CheckDevice(id)
    modifies controller.service.registry.loggers.Values
    ensures r == OkWith(Some(s))
  {
    var updated := controller.UpdateSettings(id, Some(s));
    r := controller.GetSettings(id);
  }
}
