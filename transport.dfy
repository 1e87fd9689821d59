/** The browser side of a session: `navigator.bluetooth` and the GATT objects it
    hands out. Their behaviour is not modelled; each call is logged, and what it
    resolves with (or that it rejects) is read from oracles fixed when the
    browser is created, indexed by the number of calls made before it. A
    session method that makes no transport call leaves the log as it was. */
module Transport {
  import opened Values
  import opened Request

  /** A device, GATT server, service or characteristic object of the browser.
      A device's GATT server is identified with the device itself
      (`device.gatt.connect()` resolves with `device.gatt`). */
  type Handle = nat

  /** What a value written to a characteristic is: an encoder's bytes, or the
      caller's value passed through. */
  type Payload = Input

  datatype Call =
    | RequestDevice(options: RequestOptions)
    | GattConnect(device: Handle)
    | GetPrimaryService(server: Handle, serviceName: JsString)
    | GetCharacteristic(service: Handle, characteristicName: JsString)
    | ReadValue(characteristic: Handle)
    | WriteValue(characteristic: Handle, payload: Payload)
    | StartNotifications(characteristic: Handle)
    | StopNotifications(characteristic: Handle)
    | Disconnect(server: Handle)

  class Browser {
    /** The calls made so far, in order. */
    var log: seq<Call>
    /** The GATT servers whose `connected` is true. */
    var connected: set<Handle>

    /** The object the n-th call resolves with, None when it rejects. */
    const objects: nat -> Option<Handle>
    /** The bytes the n-th call (a read) resolves with, None when it rejects. */
    const values: nat -> Option<seq<Byte>>
    /** Whether the n-th call (one that resolves with nothing) succeeds. */
    const acks: nat -> bool

    constructor (objects: nat -> Option<Handle>, values: nat -> Option<seq<Byte>>, acks: nat -> bool)
      ensures log == [] && connected == {}
      ensures this.objects == objects && this.values == values && this.acks == acks
    {
      this.objects := objects;
      this.values := values;
      this.acks := acks;
      log := [];
      connected := {};
    }

    /** `navigator.bluetooth.requestDevice(options)`: the chosen device, or
        None when the chooser is dismissed or nothing matches. */
    method RequestDevice(options: RequestOptions) returns (device: Option<Handle>)
      modifies this`log
      ensures log == old(log) + [Call.RequestDevice(options)]
      ensures device == objects(|old(log)|)
    {
      device := objects(|log|);
      log := log + [Call.RequestDevice(options)];
    }

    /** `device.gatt.connect()`: on success the device's server is connected. */
    method GattConnect(device: Handle) returns (ok: bool)
      modifies this
      ensures log == old(log) + [Call.GattConnect(device)]
      ensures ok == acks(|old(log)|)
      ensures connected == if ok then old(connected) + {device} else old(connected)
    {
      ok := acks(|log|);
      log := log + [Call.GattConnect(device)];
      if ok {
        connected := connected + {device};
      }
    }

    /** `server.getPrimaryService(name)`. */
    method GetPrimaryService(server: Handle, serviceName: JsString) returns (service: Option<Handle>)
      modifies this`log
      ensures log == old(log) + [Call.GetPrimaryService(server, serviceName)]
      ensures service == objects(|old(log)|)
    {
      service := objects(|log|);
      log := log + [Call.GetPrimaryService(server, serviceName)];
    }

    /** `service.getCharacteristic(name)`. */
    method GetCharacteristic(service: Handle, characteristicName: JsString) returns (characteristic: Option<Handle>)
      modifies this`log
      ensures log == old(log) + [Call.GetCharacteristic(service, characteristicName)]
      ensures characteristic == objects(|old(log)|)
    {
      characteristic := objects(|log|);
      log := log + [Call.GetCharacteristic(service, characteristicName)];
    }

    /** `characteristic.readValue()`: the bytes of the DataView it resolves with. */
    method ReadValue(characteristic: Handle) returns (view: Option<seq<Byte>>)
      modifies this`log
      ensures log == old(log) + [Call.ReadValue(characteristic)]
      ensures view == values(|old(log)|)
    {
      view := values(|log|);
      log := log + [Call.ReadValue(characteristic)];
    }

    /** `characteristic.writeValue(payload)`. */
    method WriteValue(characteristic: Handle, payload: Payload) returns (ok: bool)
      modifies this`log
      ensures log == old(log) + [Call.WriteValue(characteristic, payload)]
      ensures ok == acks(|old(log)|)
    {
      ok := acks(|log|);
      log := log + [Call.WriteValue(characteristic, payload)];
    }

    /** `characteristic.startNotifications()`. */
    method StartNotifications(characteristic: Handle) returns (ok: bool)
      modifies this`log
      ensures log == old(log) + [Call.StartNotifications(characteristic)]
      ensures ok == acks(|old(log)|)
    {
      ok := acks(|log|);
      log := log + [Call.StartNotifications(characteristic)];
    }

    /** `characteristic.stopNotifications()`. */
    method StopNotifications(characteristic: Handle) returns (ok: bool)
      modifies this`log
      ensures log == old(log) + [Call.StopNotifications(characteristic)]
      ensures ok == acks(|old(log)|)
    {
      ok := acks(|log|);
      log := log + [Call.StopNotifications(characteristic)];
    }

    /** `server.disconnect()`: the server is no longer connected unless the
        browser fails to drop the link. */
    method Disconnect(server: Handle)
      modifies this
      ensures log == old(log) + [Call.Disconnect(server)]
      ensures connected == if acks(|old(log)|) then old(connected) - {server} else old(connected)
    {
      if acks(|log|) {
        connected := connected - {server};
      }
      log := log + [Call.Disconnect(server)];
    }
  }
}
