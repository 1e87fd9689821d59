/** The library's session object, `BluetoothDevice`: the filters it was created
    with, the device and GATT server it has connected to, and a cache of the
    service and characteristic objects it has resolved, keyed by service name
    and then characteristic name. Every operation on a characteristic looks its
    name up in the shared registry first, warns when the registry does not list
    the access mode it is about to use, resolves the characteristic through the
    cache, and runs the entry's codec on the data. */
module Session {
  import opened Values
  import opened Codecs
  import opened Registry
  import opened Request
  import opened Transport

  /** What the session writes to the console. */
  datatype Warning =
    | InvalidService(service: JsString)
    | UnlistedMode(characteristicName: JsString, mode: JsString)
    | NotFullySupported(characteristicName: JsString)

  /** `cache[service][name]`: the characteristic object and whether its
      notifications have been started. */
  datatype CharacteristicEntry = CharacteristicEntry(characteristic: Handle, notifying: bool)

  /** `cache[service]`: the service object and its resolved characteristics. */
  datatype ServiceEntry = ServiceEntry(service: Handle, characteristics: map<JsString, CharacteristicEntry>)

  type Cache = map<JsString, ServiceEntry>

  predicate Cached(cache: Cache, serviceName: JsString, name: JsString) {
    serviceName in cache && name in cache[serviceName].characteristics
  }

  /** Every cached characteristic sits under the service the registry names for it. */
  predicate Consistent(mapping: map<JsString, Definition>, cache: Cache) {
    forall serviceName, name | serviceName in cache && name in cache[serviceName].characteristics ::
      name in mapping && mapping[name].primaryService == serviceName
  }

  /** The cache with a freshly resolved characteristic stored under an already
      cached service, its notifications not started. */
  function StoreCharacteristic(cache: Cache, serviceName: JsString, name: JsString, c: Handle): (r: Cache)
    requires serviceName in cache
    ensures Cached(r, serviceName, name) && r[serviceName].characteristics[name] == CharacteristicEntry(c, false)
    ensures r[serviceName].service == cache[serviceName].service
    ensures r.Keys == cache.Keys
    ensures forall s, n | (s, n) != (serviceName, name) ::
      (Cached(r, s, n) <==> Cached(cache, s, n))
      && (Cached(r, s, n) ==> r[s].characteristics[n] == cache[s].characteristics[n])
  {
    var entry := cache[serviceName];
    cache[serviceName := entry.(characteristics := entry.characteristics[name := CharacteristicEntry(c, false)])]
  }

  /** The cache with the notification flag of a cached characteristic set to `on`. */
  function SetNotifying(cache: Cache, serviceName: JsString, name: JsString, on: bool): (r: Cache)
    requires Cached(cache, serviceName, name)
    ensures Cached(r, serviceName, name) && r[serviceName].characteristics[name].notifying == on
    ensures r[serviceName].characteristics[name].characteristic == cache[serviceName].characteristics[name].characteristic
    ensures r.Keys == cache.Keys
    ensures forall s | s in cache :: r[s].service == cache[s].service
    ensures forall s, n | (s, n) != (serviceName, name) ::
      (Cached(r, s, n) <==> Cached(cache, s, n))
      && (Cached(r, s, n) ==> r[s].characteristics[n] == cache[s].characteristics[n])
  {
    var entry := cache[serviceName];
    var old_ := entry.characteristics[name];
    cache[serviceName := entry.(characteristics := entry.characteristics[name := old_.(notifying := on)])]
  }

  // ---------------------------------------------------------------------
  // _returnCharacteristic
  // ---------------------------------------------------------------------

  /** What `_returnCharacteristic` gives its caller: the characteristic; nothing
      (the branch that resolves the characteristic of a cached service does not
      return its promise, so the caller receives `undefined`); or an error. */
  datatype Lookup = Returned(characteristic: Handle) | Pending | Failed(error: Error)

  /** The outcome of `_returnCharacteristic`: what it gives back, the cache after
      it, and the transport calls it made. */
  datatype Resolution = Resolution(lookup: Lookup, cache: Cache, calls: seq<Call>)

  /** `_returnCharacteristic(name)` on a session whose cache is `cache` and whose
      server is `server`, when the first transport call it makes is the
      browser's n-th. */
  function Resolve(mapping: map<JsString, Definition>, cache: Cache, server: Option<Handle>,
                   objects: nat -> Option<Handle>, n: nat, name: JsString): (s: Resolution)
    ensures name !in mapping ==> s == Resolution(Failed(CharacteristicError(name)), cache, [])
    ensures name in mapping && Cached(cache, mapping[name].primaryService, name) ==>
      s == Resolution(Returned(cache[mapping[name].primaryService].characteristics[name].characteristic), cache, [])
    ensures s.lookup.Returned? ==>
      && name in mapping
      && Cached(s.cache, mapping[name].primaryService, name)
      && s.cache[mapping[name].primaryService].characteristics[name].characteristic == s.lookup.characteristic
    ensures |s.calls| <= 2
    ensures s.calls == [] ==> s.cache == cache
    ensures s.lookup.Pending? ==> name in mapping && mapping[name].primaryService in cache && |s.calls| == 1
  {
    if name !in mapping then Resolution(Failed(CharacteristicError(name)), cache, [])
    else
      var serviceName := mapping[name].primaryService;
      if Cached(cache, serviceName, name) then
        Resolution(Returned(cache[serviceName].characteristics[name].characteristic), cache, [])
      else if serviceName in cache then
        var call := GetCharacteristic(cache[serviceName].service, name);
        match objects(n)
        case None => Resolution(Pending, cache, [call])
        case Some(c) => Resolution(Pending, StoreCharacteristic(cache, serviceName, name, c), [call])
      else if server.None? then
        Resolution(Failed(Error.TypeError), cache, [])
      else
        var first := GetPrimaryService(server.value, serviceName);
        match objects(n)
        case None => Resolution(Failed(ReturnCharacteristicError(name)), cache, [first])
        case Some(service) =>
          var second := GetCharacteristic(service, name);
          var withService := cache[serviceName := ServiceEntry(service, map[])];
          match objects(n + 1)
          case None => Resolution(Failed(ReturnCharacteristicError(name)), withService, [first, second])
          case Some(c) => Resolution(Returned(c), StoreCharacteristic(withService, serviceName, name, c), [first, second])
  }

  /** Resolving never loses or alters a cached characteristic, and it only
      stores characteristics under the service the registry names for them. */
  lemma ResolveKeepsCache(mapping: map<JsString, Definition>, cache: Cache, server: Option<Handle>,
                          objects: nat -> Option<Handle>, n: nat, name: JsString)
    requires Consistent(mapping, cache)
    ensures var s := Resolve(mapping, cache, server, objects, n, name);
      && Consistent(mapping, s.cache)
      && cache.Keys <= s.cache.Keys
      && (forall sv, nm | Cached(cache, sv, nm) ::
            Cached(s.cache, sv, nm) && s.cache[sv].characteristics[nm] == cache[sv].characteristics[nm])
  {
    if name in mapping {
      var serviceName := mapping[name].primaryService;
      if !Cached(cache, serviceName, name) && serviceName in cache {
        match objects(n)
        case None =>
        case Some(c) => StoreConsistent(mapping, cache, serviceName, name, c);
      } else if !Cached(cache, serviceName, name) && server.Some? {
        match objects(n)
        case None =>
        case Some(service) =>
          var withService := cache[serviceName := ServiceEntry(service, map[])];
          assert Consistent(mapping, withService);
          assert forall sv, nm | Cached(cache, sv, nm) ::
            Cached(withService, sv, nm) && withService[sv].characteristics[nm] == cache[sv].characteristics[nm];
          match objects(n + 1)
          case None =>
          case Some(c) => StoreConsistent(mapping, withService, serviceName, name, c);
      }
    }
  }

  /** Storing a characteristic under the service the registry names for it
      keeps the cache consistent with the registry. */
  lemma StoreConsistent(mapping: map<JsString, Definition>, cache: Cache, serviceName: JsString,
                        name: JsString, c: Handle)
    requires Consistent(mapping, cache) && serviceName in cache
    requires name in mapping && mapping[name].primaryService == serviceName
    ensures Consistent(mapping, StoreCharacteristic(cache, serviceName, name, c))
  {
    var r := StoreCharacteristic(cache, serviceName, name, c);
    forall sv, nm | sv in r && nm in r[sv].characteristics
      ensures nm in mapping && mapping[nm].primaryService == sv
    {
      assert Cached(r, sv, nm);
    }
  }

  /** Marking a cached characteristic as notifying or not keeps the cache
      consistent with the registry. */
  lemma SetNotifyingConsistent(mapping: map<JsString, Definition>, cache: Cache, serviceName: JsString,
                               name: JsString, on: bool)
    requires Consistent(mapping, cache) && Cached(cache, serviceName, name)
    ensures Consistent(mapping, SetNotifying(cache, serviceName, name, on))
  {
    var r := SetNotifying(cache, serviceName, name, on);
    forall sv, nm | sv in r && nm in r[sv].characteristics
      ensures nm in mapping && mapping[nm].primaryService == sv
    {
      assert Cached(r, sv, nm);
    }
  }

  /** A second lookup of a characteristic that the first one returned is
      answered from the cache, with no transport call. */
  lemma ResolveTwice(mapping: map<JsString, Definition>, cache: Cache, server: Option<Handle>,
                     objects: nat -> Option<Handle>, n: nat, m: nat, name: JsString)
    requires Resolve(mapping, cache, server, objects, n, name).lookup.Returned?
    ensures var first := Resolve(mapping, cache, server, objects, n, name);
      Resolve(mapping, first.cache, server, objects, m, name) == Resolution(first.lookup, first.cache, [])
  {
  }

  // ---------------------------------------------------------------------
  // What the per-characteristic operations compute
  // ---------------------------------------------------------------------

  /** The warning an operation issues when the entry does not list its mode. */
  function ModeWarning(def: Definition, name: JsString, mode: JsString): (w: seq<Warning>)
    ensures w == [] <==> mode in def.includedProperties
    ensures w != [] ==> w == [UnlistedMode(name, mode)]
  {
    if mode in def.includedProperties then [] else [UnlistedMode(name, mode)]
  }

  /** One warning per service name dropped from the services constraint. */
  function ServiceWarnings(dropped: seq<JsString>): (w: seq<Warning>)
    ensures |w| == |dropped|
    ensures forall i | 0 <= i < |w| :: w[i] == InvalidService(dropped[i])
  {
    if dropped == [] then []
    else ServiceWarnings(dropped[..|dropped| - 1]) + [InvalidService(dropped[|dropped| - 1])]
  }

  lemma ServiceWarningsAppend(dropped: seq<JsString>, service: JsString)
    ensures ServiceWarnings(dropped + [service]) == ServiceWarnings(dropped) + [InvalidService(service)]
  {
    assert (dropped + [service])[..|dropped|] == dropped;
  }

  /** The `services` walk of `connect`: keeps the adopted services in order
      and issues a warning for each of the others. */
  method FilterServices(requested: seq<JsString>, list: seq<JsString>) returns (kept: seq<JsString>, issued: seq<Warning>)
    ensures kept == KnownServices(requested, list)
    ensures issued == ServiceWarnings(DroppedServices(requested, list))
  {
    kept := [];
    issued := [];
    var i := 0;
    while i < |requested|
      invariant 0 <= i <= |requested|
      invariant kept == KnownServices(requested[..i], list)
      invariant issued == ServiceWarnings(DroppedServices(requested[..i], list))
    {
      var service := requested[i];
      ServicesStep(requested, i, list);
      ServiceWarningsAppend(DroppedServices(requested[..i], list), service);
      if service in list {
        kept := kept + [service];
      } else {
        issued := issued + [InvalidService(service)];
      }
      i := i + 1;
    }
    assert requested[..i] == requested;
  }

  /** What `getValue` resolves with once the characteristic has been read:
      the entry's decoded fields plus `rawValue`, or only `rawValue` when the
      entry has no decoder; a decoder that throws makes it a read error. */
  function ReadResult(def: Definition, view: seq<Byte>): (r: Result<Record, Error>) {
    match def.parse
    case None => Ok(map[RawValue := Raw(view)])
    case Some(d) =>
      match Decode(d, view)
      case Err(_) => Err(ReadError)
      case Ok(m) => Ok(m[RawValue := Raw(view)])
  }

  /** A read result always holds `rawValue`; beside it, the decoded fields when
      the entry has a decoder and nothing else otherwise. */
  lemma ReadResultShape(def: Definition, view: seq<Byte>)
    ensures var r := ReadResult(def, view);
      && (r.Err? <==> def.parse.Some? && Decode(def.parse.value, view).Err?)
      && (r.Err? ==> r.error == ReadError)
      && (r.Ok? ==> RawValue in r.value && r.value[RawValue] == Raw(view))
      && (r.Ok? && def.parse.None? ==> r.value.Keys == {RawValue})
      && (r.Ok? && def.parse.Some? ==>
            && r.value.Keys == Decode(def.parse.value, view).value.Keys + {RawValue}
            && forall k | k in r.value && k != RawValue :: r.value[k] == Decode(def.parse.value, view).value[k])
  {
  }

  /** The record `getValue` resolves with once the value is read: the entry's
      decoder run step by step (`Codecs.Parse`), and the raw view beside it. */
  method ReadRecord(def: Definition, view: seq<Byte>) returns (r: Result<Record, Error>)
    ensures r == ReadResult(def, view)
  {
    match def.parse {
      case None =>
        r := Ok(map[RawValue := Raw(view)]);
      case Some(d) =>
        var parsed := Parse(d, view);
        r := if parsed.Err? then Err(ReadError) else Ok(parsed.value[RawValue := Raw(view)]);
    }
  }

  /** `readValue()` on a characteristic object and the record made of what it
      resolves with; a rejected read is a read error. */
  method ReadDecoded(browser: Browser, def: Definition, characteristic: Handle) returns (r: Result<Record, Error>)
    modifies browser`log
    ensures browser.log == old(browser.log) + [Call.ReadValue(characteristic)]
    ensures var view := browser.values(|old(browser.log)|);
      r == if view.None? then Err(ReadError) else ReadResult(def, view.value)
  {
    var view := browser.ReadValue(characteristic);
    if view.None? {
      return Err(ReadError);
    }
    r := ReadRecord(def, view.value);
  }

  /** What `writeValue` sends: the entry's encoding of the value when it has an
      encoder, the value itself otherwise; an encoder that throws makes it a
      write error. */
  function WritePayload(def: Definition, name: JsString, value: Input): (r: Result<Payload, Error>)
    ensures def.prep.None? ==> r == Ok(value)
    ensures def.prep.Some? ==> (r.Ok? <==> Prep(def.prep.value, value).Ok?)
    ensures def.prep.Some? && r.Ok? ==> r.value == Bytes(Prep(def.prep.value, value).value)
    ensures r.Err? ==> r.error == WriteError(name)
  {
    match def.prep
    case None => Ok(value)
    case Some(e) =>
      match Prep(e, value)
      case Err(_) => Err(WriteError(name))
      case Ok(bytes) => Ok(Bytes(bytes))
  }

  /** A battery level reads as its byte beside `rawValue`. */
  lemma BatteryLevelRead(def: Definition, view: seq<Byte>)
    requires def.parse == Some(BATTERY_LEVEL)
    requires |view| > 0
    ensures var r := ReadResult(def, view);
      && r.Ok? && r.value == map[BatteryLevel := Num(view[0] as int), RawValue := Raw(view)]
  {
    Codecs.BatteryLevelByte(view);
  }

  // ---------------------------------------------------------------------
  // The session
  // ---------------------------------------------------------------------

  class BluetoothDevice {
    /** The filter object the session was created with (None: `undefined`). */
    const requestParams: Option<Filters>
    var apiDevice: Option<Handle>
    var apiServer: Option<Handle>
    var cache: Cache
    var warnings: seq<Warning>
    /** The module-wide registry and the browser, which every session shares. */
    const registry: GattRegistry
    const browser: Browser

    ghost predicate Valid()
      reads this, registry
    {
      Consistent(registry.characteristics, cache)
    }

    constructor (requestParams: Option<Filters>, registry: GattRegistry, browser: Browser)
      ensures this.requestParams == requestParams && this.registry == registry && this.browser == browser
      ensures apiDevice.None? && apiServer.None? && cache == map[] && warnings == []
      ensures Valid()
    {
      this.requestParams := requestParams;
      this.registry := registry;
      this.browser := browser;
      apiDevice := None;
      apiServer := None;
      cache := map[];
      warnings := [];
    }

    /** `connected()`: whether the device's GATT server is connected; an error
        before any device has been chosen. */
    method Connected() returns (r: Result<bool, Error>)
      ensures r.Err? <==> apiDevice.None?
      ensures r.Err? ==> r.error == NoDevice
      ensures r.Ok? ==> (r.value <==> apiDevice.value in browser.connected)
    {
      if apiDevice.None? {
        return Err(NoDevice);
      }
      return Ok(apiDevice.value in browser.connected);
    }

    /** `connect()`: builds the request from the filters (failing before any
        transport call when there are none or the UUID is malformed), walks
        the services constraint and the optional services, asks the browser
        for a device and connects to its GATT server. */
    method Connect() returns (r: Result<Handle, Error>)
      modifies this`apiDevice, this`apiServer, this`warnings, registry`services, browser
      ensures requestParams.None? ==> r == Err(Error.TypeError)
      ensures requestParams.Some? && LibraryRequest(requestParams.value, old(registry.services)).Err? ==>
        r == Err(LibraryRequest(requestParams.value, old(registry.services)).error)
      ensures requestParams.None? || LibraryRequest(requestParams.value, old(registry.services)).Err? ==>
        && browser.log == old(browser.log) && browser.connected == old(browser.connected)
        && registry.services == old(registry.services) && warnings == old(warnings)
        && apiDevice == old(apiDevice) && apiServer == old(apiServer)
      ensures requestParams.Some? && LibraryRequest(requestParams.value, old(registry.services)).Ok? ==>
        var f := requestParams.value;
        var options := LibraryRequest(f, old(registry.services)).value;
        var n := |old(browser.log)|;
        var device := browser.objects(n);
        && registry.services == (if f.underscoredOptionalServices.Some?
                                 then ExtendServices(old(registry.services), f.underscoredOptionalServices.value)
                                 else old(registry.services))
        && warnings == old(warnings) + (if f.services.Some?
                                        then ServiceWarnings(DroppedServices(f.services.value, old(registry.services)))
                                        else [])
        && (device.None? ==>
              && r == Err(UserCancelled) && browser.log == old(browser.log) + [Call.RequestDevice(options)]
              && apiDevice == old(apiDevice) && apiServer == old(apiServer))
        && browser.connected == (if device.Some? && browser.acks(n + 1)
                                 then old(browser.connected) + {device.value}
                                 else old(browser.connected))
        && (device.Some? ==>
              && apiDevice == device
              && browser.log == old(browser.log) + [Call.RequestDevice(options), Call.GattConnect(device.value)]
              && (browser.acks(n + 1) ==> r == Ok(device.value) && apiServer == device)
              && (!browser.acks(n + 1) ==> r == Err(UserCancelled) && apiServer == old(apiServer)))
    {
      if requestParams.None? {
        return Err(Error.TypeError);
      }
      var request := BuildRequest(requestParams.value);
      if request.Err? {
        return Err(request.error);
      }
      var options := request.value;
      var device := browser.RequestDevice(options);
      if device.None? {
        return Err(UserCancelled);
      }
      apiDevice := device;
      var ok := browser.GattConnect(device.value);
      if !ok {
        return Err(UserCancelled);
      }
      apiServer := device;
      return Ok(device.value);
    }

    /** The `optional_services` walk of `connect`: appends each name the shared
        service list does not hold yet. */
    method ExtendServiceList(extra: seq<JsString>)
      modifies registry`services
      ensures registry.services == ExtendServices(old(registry.services), extra)
    {
      var j := 0;
      while j < |extra|
        invariant 0 <= j <= |extra|
        invariant registry.services == ExtendServices(old(registry.services), extra[..j])
      {
        assert extra[..j + 1][..j] == extra[..j];
        if extra[j] !in registry.services {
          registry.services := registry.services + [extra[j]];
        }
        j := j + 1;
      }
      assert extra[..j] == extra;
    }

    /** The part of `connect` before any transport call: the request, built
        step by step, or the error thrown while building it. */
    method BuildRequest(filters: Filters) returns (request: Result<RequestOptions, Error>)
      modifies this`warnings, registry`services
      ensures request == LibraryRequest(filters, old(registry.services))
      ensures request.Err? ==> warnings == old(warnings) && registry.services == old(registry.services)
      ensures request.Ok? ==>
        && registry.services == (if filters.underscoredOptionalServices.Some?
                                 then ExtendServices(old(registry.services), filters.underscoredOptionalServices.value)
                                 else old(registry.services))
        && warnings == old(warnings) + (if filters.services.Some?
                                        then ServiceWarnings(DroppedServices(filters.services.value, old(registry.services)))
                                        else [])
    {
      if filters.KeyCount() == 0 {
        return Err(NoFilters);
      }
      var list := registry.services;
      var entries: seq<Filter> := [];
      if Given(filters.name) {
        entries := entries + [NameFilter(filters.name.value)];
      }
      if Given(filters.namePrefix) {
        entries := entries + [NamePrefixFilter(filters.namePrefix.value)];
      }
      if Given(filters.uuid) {
        if !UuidMatches(filters.uuid.value) {
          return Err(UuidError);
        }
        entries := entries + [UuidFilter(filters.uuid.value)];
      }
      assert entries == LeadingFilters(filters);
      if filters.services.Some? {
        var kept, issued := FilterServices(filters.services.value, list);
        warnings := warnings + issued;
        entries := entries + [ServicesFilter(kept)];
      }
      var optional: Option<seq<JsString>>;
      if filters.underscoredOptionalServices.Some? {
        ExtendServiceList(filters.underscoredOptionalServices.value);
        optional := None;
      } else {
        optional := Some(registry.services);
      }
      assert optional == if filters.underscoredOptionalServices.Some? then None else Some(list);
      assert entries == LeadingFilters(filters)
        + (if filters.services.Some? then [ServicesFilter(KnownServices(filters.services.value, list))] else []);
      return Ok(RequestOptions(entries, optional));
    }

    /** `disconnect()`: drops the link when the server is connected, and
        reports whether the server is disconnected afterwards. The cache and
        the device and server fields are left as they are. */
    method Disconnect() returns (r: Result<bool, Error>)
      modifies browser
      ensures apiServer.None? ==> r == Err(Error.TypeError)
      ensures apiServer.None? || apiServer.value !in old(browser.connected) ==>
        browser.log == old(browser.log) && browser.connected == old(browser.connected)
      ensures apiServer.Some? && apiServer.value !in old(browser.connected) ==> r == Err(NotConnected)
      ensures apiServer.Some? && apiServer.value in old(browser.connected) ==>
        && browser.log == old(browser.log) + [Call.Disconnect(apiServer.value)]
        && (r == Ok(true) <==> apiServer.value !in browser.connected)
        && (r != Ok(true) ==> r == Err(IssueDisconnecting))
        && (r == Ok(true) <==> browser.acks(|old(browser.log)|))
    {
      if apiServer.None? {
        return Err(Error.TypeError);
      }
      var server := apiServer.value;
      if server !in browser.connected {
        return Err(NotConnected);
      }
      browser.Disconnect(server);
      if server in browser.connected {
        return Err(IssueDisconnecting);
      }
      return Ok(true);
    }

    /** `_returnCharacteristic(name)`, as `Resolve` describes it. */
    method ReturnCharacteristic(name: JsString) returns (r: Lookup)
      requires Valid()
      modifies this`cache, browser`log
      ensures Valid()
      ensures var s := Resolve(registry.characteristics, old(cache), apiServer, browser.objects, |old(browser.log)|, name);
        r == s.lookup && cache == s.cache && browser.log == old(browser.log) + s.calls
    {
      ResolveKeepsCache(registry.characteristics, cache, apiServer, browser.objects, |browser.log|, name);
      if name !in registry.characteristics {
        return Failed(CharacteristicError(name));
      }
      var serviceName := registry.characteristics[name].primaryService;
      if Cached(cache, serviceName, name) {
        return Returned(cache[serviceName].characteristics[name].characteristic);
      }
      if serviceName in cache {
        var c := browser.GetCharacteristic(cache[serviceName].service, name);
        if c.Some? {
          cache := StoreCharacteristic(cache, serviceName, name, c.value);
        }
        return Pending;
      }
      if apiServer.None? {
        return Failed(Error.TypeError);
      }
      var service := browser.GetPrimaryService(apiServer.value, serviceName);
      if service.None? {
        return Failed(ReturnCharacteristicError(name));
      }
      cache := cache[serviceName := ServiceEntry(service.value, map[])];
      var c := browser.GetCharacteristic(service.value, name);
      if c.None? {
        return Failed(ReturnCharacteristicError(name));
      }
      cache := StoreCharacteristic(cache, serviceName, name, c.value);
      return Returned(c.value);
    }

    /** `getValue(name)`: reads the characteristic and decodes the value. */
    method GetValue(name: JsString) returns (r: Result<Record, Error>)
      requires Valid()
      modifies this`cache, this`warnings, browser`log
      ensures Valid()
      ensures name !in registry.characteristics ==>
        r == Err(CharacteristicError(name)) && cache == old(cache) && browser.log == old(browser.log)
        && warnings == old(warnings)
      ensures name in registry.characteristics ==>
        var def := registry.characteristics[name];
        var s := Resolve(registry.characteristics, old(cache), apiServer, browser.objects, |old(browser.log)|, name);
        && warnings == old(warnings) + ModeWarning(def, name, "read")
        && cache == s.cache
        && (!s.lookup.Returned? ==> r == Err(ReadError) && browser.log == old(browser.log) + s.calls)
        && (s.lookup.Returned? ==>
              && browser.log == old(browser.log) + s.calls + [Call.ReadValue(s.lookup.characteristic)]
              && var view := browser.values(|old(browser.log)| + |s.calls|);
                 r == if view.None? then Err(ReadError) else ReadResult(def, view.value))
    {
      if name !in registry.characteristics {
        return Err(CharacteristicError(name));
      }
      var def := registry.characteristics[name];
      warnings := warnings + ModeWarning(def, name, "read");
      var lookup := ReturnCharacteristic(name);
      if !lookup.Returned? {
        return Err(ReadError);
      }
      r := ReadDecoded(browser, def, lookup.characteristic);
    }

    /** `writeValue(name, value)`: encodes the value when the entry has an
        encoder and writes it. */
    method WriteValue(name: JsString, value: Input) returns (r: Result<bool, Error>)
      requires Valid()
      modifies this`cache, this`warnings, browser`log
      ensures Valid()
      ensures name !in registry.characteristics ==>
        r == Err(CharacteristicError(name)) && cache == old(cache) && browser.log == old(browser.log)
        && warnings == old(warnings)
      ensures name in registry.characteristics ==>
        var def := registry.characteristics[name];
        var s := Resolve(registry.characteristics, old(cache), apiServer, browser.objects, |old(browser.log)|, name);
        var payload := WritePayload(def, name, value);
        && warnings == old(warnings) + ModeWarning(def, name, "write")
        && cache == s.cache
        && (!s.lookup.Returned? || payload.Err? ==> r == Err(WriteError(name)) && browser.log == old(browser.log) + s.calls)
        && (s.lookup.Returned? && payload.Ok? ==>
              && browser.log == old(browser.log) + s.calls + [Call.WriteValue(s.lookup.characteristic, payload.value)]
              && r == if browser.acks(|old(browser.log)| + |s.calls|) then Ok(true) else Err(WriteError(name)))
    {
      if name !in registry.characteristics {
        return Err(CharacteristicError(name));
      }
      var def := registry.characteristics[name];
      warnings := warnings + ModeWarning(def, name, "write");
      var lookup := ReturnCharacteristic(name);
      if !lookup.Returned? {
        return Err(WriteError(name));
      }
      var payload := value;
      if def.prep.Some? {
        var prepared := PrepValue(def.prep.value, value);
        if prepared.Err? {
          return Err(WriteError(name));
        }
        payload := Bytes(prepared.value);
      }
      var ok := browser.WriteValue(lookup.characteristic, payload);
      return if ok then Ok(true) else Err(WriteError(name));
    }

    /** `startNotifications(name)`: starts notifications on the characteristic;
        the cached entry is marked as notifying only once the browser has
        started them. A failure to start is not reported to the caller. */
    method StartNotifications(name: JsString) returns (r: Result<(), Error>)
      requires Valid()
      modifies this`cache, this`warnings, browser`log
      ensures Valid()
      ensures name !in registry.characteristics ==>
        r == Err(CharacteristicError(name)) && cache == old(cache) && browser.log == old(browser.log)
        && warnings == old(warnings)
      ensures name in registry.characteristics ==>
        var def := registry.characteristics[name];
        var s := Resolve(registry.characteristics, old(cache), apiServer, browser.objects, |old(browser.log)|, name);
        && warnings == old(warnings) + ModeWarning(def, name, "notify")
        && (!s.lookup.Returned? ==>
              r == Err(StartNotificationsError(name)) && cache == s.cache && browser.log == old(browser.log) + s.calls)
        && (s.lookup.Returned? ==>
              && r == Ok(())
              && browser.log == old(browser.log) + s.calls + [Call.StartNotifications(s.lookup.characteristic)]
              && cache == if browser.acks(|old(browser.log)| + |s.calls|)
                          then SetNotifying(s.cache, def.primaryService, name, true)
                          else s.cache)
    {
      if name !in registry.characteristics {
        return Err(CharacteristicError(name));
      }
      var def := registry.characteristics[name];
      warnings := warnings + ModeWarning(def, name, "notify");
      var lookup := ReturnCharacteristic(name);
      if !lookup.Returned? {
        return Err(StartNotificationsError(name));
      }
      var ok := browser.StartNotifications(lookup.characteristic);
      if ok {
        SetNotifyingConsistent(registry.characteristics, cache, def.primaryService, name, true);
        cache := SetNotifying(cache, def.primaryService, name, true);
      }
      return Ok(());
    }

    /** `stopNotifications(name)`: stops the notifications of a characteristic
        whose cached entry is notifying; the entry is marked as not notifying
        only once the browser has stopped them. */
    method StopNotifications(name: JsString) returns (r: Result<(), Error>)
      requires Valid()
      modifies this`cache, browser`log
      ensures Valid()
      ensures name !in registry.characteristics ==>
        r == Err(CharacteristicError(name)) && cache == old(cache) && browser.log == old(browser.log)
      ensures name in registry.characteristics ==>
        var serviceName := registry.characteristics[name].primaryService;
        && (!Cached(old(cache), serviceName, name) ==>
              r == Err(Error.TypeError) && cache == old(cache) && browser.log == old(browser.log))
        && (Cached(old(cache), serviceName, name) && !old(cache)[serviceName].characteristics[name].notifying ==>
              r == Err(StopNotificationsNotNotifying(name)) && cache == old(cache) && browser.log == old(browser.log))
        && (Cached(old(cache), serviceName, name) && old(cache)[serviceName].characteristics[name].notifying ==>
              && r == Ok(())
              && browser.log == old(browser.log) + [Call.StopNotifications(old(cache)[serviceName].characteristics[name].characteristic)]
              && cache == if browser.acks(|old(browser.log)|)
                          then SetNotifying(old(cache), serviceName, name, false)
                          else old(cache))
    {
      if name !in registry.characteristics {
        return Err(CharacteristicError(name));
      }
      var serviceName := registry.characteristics[name].primaryService;
      if !Cached(cache, serviceName, name) {
        return Err(Error.TypeError);
      }
      if !cache[serviceName].characteristics[name].notifying {
        return Err(StopNotificationsNotNotifying(name));
      }
      var lookup := ReturnCharacteristic(name);
      var ok := browser.StopNotifications(lookup.characteristic);
      if ok {
        SetNotifyingConsistent(registry.characteristics, cache, serviceName, name, false);
        cache := SetNotifying(cache, serviceName, name, false);
      }
      return Ok(());
    }

    /** `addCharacteristic(name, service, properties)` of the library: adds an
        entry without codecs when every check passes. */
    method AddCharacteristic(name: Arg, service: Arg, properties: Arg) returns (r: Result<bool, Error>)
      requires Valid()
      modifies registry`characteristics, this`warnings
      ensures Valid()
      ensures var check := AddCharacteristicCheck(old(registry.characteristics), name, service, properties, false);
        && (check.Some? ==>
              r == Err(check.value) && registry.characteristics == old(registry.characteristics)
              && warnings == old(warnings))
        && (check.None? ==>
              && r == Ok(true)
              && registry.characteristics
                 == old(registry.characteristics)[name.s := Definition(service.s, properties.items, None, None)]
              && warnings == old(warnings) + [NotFullySupported(name.s)])
    {
      var check := AddCharacteristicCheck(registry.characteristics, name, service, properties, false);
      if check.Some? {
        return Err(check.value);
      }
      AddCharacteristicAccepts(registry.characteristics, name, service, properties);
      warnings := warnings + [NotFullySupported(name.s)];
      registry.characteristics := registry.characteristics[name.s := Definition(service.s, properties.items, None, None)];
      return Ok(true);
    }

    /** The bundled `addCharacteristic`, whose properties check reads the
        misspelt `constuctor`: it rejects every call and never extends the
        registry. */
    method AddCharacteristicBundled(name: Arg, service: Arg, properties: Arg) returns (r: Result<bool, Error>)
      ensures r == Err(AddCharacteristicCheck(registry.characteristics, name, service, properties, true).value)
      ensures r.Err?
    {
      AddCharacteristicBundledRejects(registry.characteristics, name, service, properties);
      var check := AddCharacteristicCheck(registry.characteristics, name, service, properties, true);
      return Err(check.value);
    }
  }
}
