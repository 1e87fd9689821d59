/** The earlier draft of the session (`Bluetooth.acquire` and class `Device`):
    a two-entry registry whose `body_sensor_location` decoder is a `switch` in
    which every case returns, a request built without any check, and a
    `getValue` that swallows every failure and yields the first byte of the
    value, decoded when the entry has a decoder. */
module Draft {
  import opened Values
  import opened ByteView
  import opened Enums
  import opened Request
  import opened Transport
  import Codecs
  import Registry

  /** `parseValue` of body_sensor_location: each case returns its label. */
  function BodySensorLocationSwitch(value: int): (name: JsString)
    ensures name == Label(BODY_SENSOR_LOCATION, value)
    ensures 0 <= value <= 6 ==> CodeOf(BODY_SENSOR_LOCATION, name) == Some(value)
    ensures !(0 <= value <= 6) ==> name == "Unknown" && CodeOf(BODY_SENSOR_LOCATION, name) == None
  {
    BodySensorLocationDistinct();
    LabelRoundTrip(BODY_SENSOR_LOCATION, value);
    if value == 0 then "Other"
    else if value == 1 then "Chest"
    else if value == 2 then "Wrist"
    else if value == 3 then "Finger"
    else if value == 4 then "Hand"
    else if value == 5 then "Ear Lobe"
    else if value == 6 then "Foot"
    else "Unknown"
  }

  /** An entry of the draft's registry; `locationDecoder` says whether it has
      the body_sensor_location decoder, the only one the draft defines. */
  datatype DraftEntry = DraftEntry(primaryService: JsString, includedProperties: seq<JsString>, locationDecoder: bool)

  const DRAFT_MAPPING: map<JsString, DraftEntry> := map[
    "battery_level" := DraftEntry("battery_service", ["read", "notify"], false),
    "body_sensor_location" := DraftEntry("heart_rate", ["read"], true)]

  const DRAFT_SERVICE_LIST: seq<JsString> := [
    "alert_notification", "automation_io", "battery_service", "blood_pressure",
    "body_composition", "bond_management", "continuous_glucose_monitoring", "current_time",
    "cycling_power", "cycling_speed_and_cadence", "device_information",
    "environmental_sensing", "generic_access", "generic_attribute", "glucose",
    "health_thermometer", "heart_rate", "human_interface_device", "immediate_alert",
    "indoor_positioning", "internet_protocol_support", "link_loss", "location_and_navigation",
    "next_dst_change", "phone_alert_status", "pulse_oximeter", "reference_time_update",
    "running_speed_and_cadence", "scan_parameters", "tx_power", "user_data", "weight_scale"]

  /** What `getValue` yields for a value it has read: nothing when the value has
      no first byte (`getUint8(0)` throws and the error is swallowed), the
      decoded first byte when the entry has a decoder, the byte itself
      otherwise. */
  function DraftRead(entry: DraftEntry, view: seq<Byte>): (v: Option<Value>)
    ensures v.None? <==> view == []
    ensures v.Some? && entry.locationDecoder ==> v.value == Text(Label(BODY_SENSOR_LOCATION, view[0]))
    ensures v.Some? && !entry.locationDecoder ==> v.value == Num(view[0])
  {
    match Get(Uint8, view, 0)
    case Err(_) => None
    case Ok(b) =>
      Uint8Byte(view, 0);
      Some(if entry.locationDecoder then Text(BodySensorLocationSwitch(b)) else Num(b))
  }

  /** The draft's body_sensor_location reading is the label the library's
      decoder puts under `location`. */
  lemma DraftAgreesWithLibraryDecoder(view: seq<Byte>)
    requires |view| > 0
    ensures Codecs.EnumeratedReading(Location, Uint8, BODY_SENSOR_LOCATION, view).Ok?
    ensures DraftRead(DRAFT_MAPPING["body_sensor_location"], view)
         == Some(Codecs.EnumeratedReading(Location, Uint8, BODY_SENSOR_LOCATION, view).value[Location])
  {
    Uint8Byte(view, 0);
  }

  /** The request both `acquire` and `Device.connect` build, one push at a
      time; `fallback` is what they read for the service list. */
  method BuildDraftRequest(filters: Option<Filters>, fallback: Option<seq<JsString>>) returns (options: RequestOptions)
    ensures options == DraftRequest(filters, fallback)
  {
    var entries: seq<Filter> := [];
    var optional: Option<seq<JsString>> := None;
    if filters.Some? {
      var f := filters.value;
      if Given(f.name) {
        entries := entries + [NameFilter(f.name.value)];
      }
      if Given(f.namePrefix) {
        entries := entries + [NamePrefixFilter(f.namePrefix.value)];
      }
      if Given(f.uuid) {
        entries := entries + [UuidFilter(f.uuid.value)];
      }
      if f.services.Some? {
        entries := entries + [ServicesFilter(f.services.value)];
      }
      if f.optionalServices.Some? {
        optional := f.optionalServices;
      } else {
        optional := fallback;
      }
    }
    options := RequestOptions(entries, optional);
  }

  /** `Bluetooth.acquire(filters)`: asks for a device, the optional services
      defaulting to the draft's service list; the device it resolves with is
      the one the new `Device` wraps. */
  method Acquire(browser: Browser, filters: Option<Filters>) returns (r: Result<Handle, Error>)
    modifies browser`log
    ensures browser.log == old(browser.log) + [Call.RequestDevice(DraftRequest(filters, Some(DRAFT_SERVICE_LIST)))]
    ensures r.Ok? <==> browser.objects(|old(browser.log)|).Some?
    ensures r.Ok? ==> r.value == browser.objects(|old(browser.log)|).value
    ensures r.Err? ==> r.error == TransportRejected
  {
    var options := BuildDraftRequest(filters, Some(DRAFT_SERVICE_LIST));
    var device := browser.RequestDevice(options);
    if device.None? {
      return Err(TransportRejected);
    }
    return Ok(device.value);
  }

  class Device {
    const requestParams: Option<Filters>
    var apiDevice: Option<Handle>
    var apiServer: Option<Handle>
    const browser: Browser

    constructor (requestParams: Option<Filters>, browser: Browser)
      ensures this.requestParams == requestParams && this.browser == browser
      ensures apiDevice.None? && apiServer.None?
    {
      this.requestParams := requestParams;
      this.browser := browser;
      apiDevice := None;
      apiServer := None;
    }

    /** `checkConnectionStatus()`: whether the device's server is connected; a
        TypeError before any device has been chosen. */
    method CheckConnectionStatus() returns (r: Result<bool, Error>)
      ensures r.Err? <==> apiDevice.None?
      ensures r.Err? ==> r.error == Error.TypeError
      ensures r.Ok? ==> (r.value <==> apiDevice.value in browser.connected)
    {
      if apiDevice.None? {
        return Err(Error.TypeError);
      }
      return Ok(apiDevice.value in browser.connected);
    }

    /** `connect()`: the draft's request, whose optional services default to a
        property `Device` does not have, so that none are sent; no error is
        caught. */
    method Connect() returns (r: Result<Handle, Error>)
      modifies this`apiDevice, this`apiServer, browser
      ensures var n := |old(browser.log)|;
        var device := browser.objects(n);
        && browser.connected == (if device.Some? && browser.acks(n + 1)
                                 then old(browser.connected) + {device.value}
                                 else old(browser.connected))
        && (device.None? ==>
              && r == Err(TransportRejected)
              && browser.log == old(browser.log) + [Call.RequestDevice(DraftRequest(requestParams, None))]
              && apiDevice == old(apiDevice) && apiServer == old(apiServer))
        && (device.Some? ==>
              && apiDevice == device
              && browser.log == old(browser.log)
                   + [Call.RequestDevice(DraftRequest(requestParams, None)), Call.GattConnect(device.value)]
              && (browser.acks(n + 1) ==> r == Ok(device.value) && apiServer == device)
              && (!browser.acks(n + 1) ==> r == Err(TransportRejected) && apiServer == old(apiServer)))
    {
      var options := BuildDraftRequest(requestParams, None);
      var device := browser.RequestDevice(options);
      if device.None? {
        return Err(TransportRejected);
      }
      apiDevice := device;
      var ok := browser.GattConnect(device.value);
      if !ok {
        return Err(TransportRejected);
      }
      apiServer := device;
      return Ok(device.value);
    }

    /** `disconnect()`: the same state check as the library's. */
    method Disconnect() returns (r: Result<bool, Error>)
      modifies browser
      ensures apiServer.None? ==> r == Err(Error.TypeError)
      ensures apiServer.None? || apiServer.value !in old(browser.connected) ==>
        browser.log == old(browser.log) && browser.connected == old(browser.connected)
      ensures apiServer.Some? && apiServer.value !in old(browser.connected) ==> r == Err(NotConnected)
      ensures apiServer.Some? && apiServer.value in old(browser.connected) ==>
        && browser.log == old(browser.log) + [Call.Disconnect(apiServer.value)]
        && (r == Ok(true) <==> apiServer.value !in browser.connected)
        && (r != Ok(true) ==> r == Err(IssueDisconnecting))
    {
      if apiServer.None? {
        return Err(Error.TypeError);
      }
      var server := apiServer.value;
      if server in browser.connected {
        browser.Disconnect(server);
        if server !in browser.connected {
          return Ok(true);
        }
        return Err(IssueDisconnecting);
      }
      return Err(NotConnected);
    }

    /** `getValue(name)`: goes to the browser only for an entry that lists
        `read`; every rejection along the way yields nothing. */
    method GetValue(name: JsString) returns (r: Result<Option<Value>, Error>)
      modifies browser`log
      ensures name !in DRAFT_MAPPING ==> r == Err(Error.TypeError) && browser.log == old(browser.log)
      ensures name in DRAFT_MAPPING && "read" !in DRAFT_MAPPING[name].includedProperties ==>
        r == Ok(None) && browser.log == old(browser.log)
      ensures name in DRAFT_MAPPING && "read" in DRAFT_MAPPING[name].includedProperties && apiServer.None? ==>
        r == Err(Error.TypeError) && browser.log == old(browser.log)
      ensures name in DRAFT_MAPPING && "read" in DRAFT_MAPPING[name].includedProperties && apiServer.Some? ==>
        var entry := DRAFT_MAPPING[name];
        var n := |old(browser.log)|;
        var first := Call.GetPrimaryService(apiServer.value, entry.primaryService);
        var service := browser.objects(n);
        && (service.None? ==> r == Ok(None) && browser.log == old(browser.log) + [first])
        && (service.Some? ==>
              var second := Call.GetCharacteristic(service.value, name);
              var c := browser.objects(n + 1);
              && (c.None? ==> r == Ok(None) && browser.log == old(browser.log) + [first, second])
              && (c.Some? ==>
                    && browser.log == old(browser.log) + [first, second, Call.ReadValue(c.value)]
                    && r == Ok(if browser.values(n + 2).None? then None
                               else DraftRead(entry, browser.values(n + 2).value))))
    {
      if name !in DRAFT_MAPPING {
        return Err(Error.TypeError);
      }
      var entry := DRAFT_MAPPING[name];
      if "read" !in entry.includedProperties {
        return Ok(None);
      }
      if apiServer.None? {
        return Err(Error.TypeError);
      }
      var service := browser.GetPrimaryService(apiServer.value, entry.primaryService);
      if service.None? {
        return Ok(None);
      }
      var c := browser.GetCharacteristic(service.value, name);
      if c.None? {
        return Ok(None);
      }
      var view := browser.ReadValue(c.value);
      if view.None? {
        return Ok(None);
      }
      return Ok(DraftRead(entry, view.value));
    }
  }

  /** The draft lists the same adopted services as the library. */
  lemma DraftServiceListIsLibraryList()
    ensures DRAFT_SERVICE_LIST == Registry.SERVICE_LIST
  {
  }
}
