# Web Bluetooth wrapper — a Dafny model

This project models the core of a small JavaScript wrapper around the Web
Bluetooth API. The wrapper has two halves:

- **The characteristic table** (`gattCharacteristicsMapping`). It maps each
  GATT characteristic name to its primary service, its access modes, and
  optionally a `parseValue` decoder (DataView → result object) and a
  `prepValue` encoder (value → DataView).
- **The session object** (`BluetoothDevice`). It builds the options object
  for `navigator.bluetooth.requestDevice` from the caller's filters, connects
  to a device's GATT server, and caches the service and characteristic objects
  it resolves. It reads, writes and (un)subscribes characteristics by name,
  running the table's codecs on the data. It can also add new entries to the
  shared table.

The earlier draft of the session (`Bluetooth.acquire` and class `Device`) is
modelled beside it.

Files and modules:

| file | module | what it holds |
|---|---|---|
| values.dfy | `Values` | bytes, JavaScript strings (one `char` per UTF-16 code unit), `Option`/`Result`, result keys and values, the error keys of the error handler |
| byteview.dfy | `ByteView` | the DataView getters and setters used by the codecs: width, signedness, endianness, `RangeError` past the end |
| bits.dfy | `Bits` | `flags & mask` on non-negative integers and its relation to single bits |
| enums.dfy | `Enums` | `switch`-based label tables, as intended (one label per code) and as written (fall-through) |
| measurements.dfy | `Measurements` | the flag-gated decoders `heart_rate_measurement`, `csc_measurement`, `glucose_measurement` and `cycling_power_measurement`, the first three with encoders and round trips |
| codecs.dfy | `Codecs` | every other `parseValue`/`prepValue` of the table and the decoder/encoder dispatch |
| registry.dfy | `Registry` | the default table, the adopted service list, the shared registry object, `addCharacteristic`'s checks |
| request.dfy | `Request` | the `requestDevice` options built from a filter object, for the library and for the draft |
| transport.dfy | `Transport` | the browser: a log of the calls made to it, and oracles for what each call resolves with |
| session.dfy | `Session` | class `BluetoothDevice`, the cache and `_returnCharacteristic` |
| draft.dfy | `Draft` | `Bluetooth.acquire` and class `Device` of the earlier draft |

The browser is not modelled; it is an oracle instead. Class
`Transport.Browser` logs every call. What the n-th call resolves with is read
from functions fixed when the browser is created: an object handle, a byte
value, or a success flag. `None` or `false` means the call rejects. "Makes no
transport call" is stated as "the log is unchanged". A device's GATT server
has the same handle as the device.

JavaScript exceptions become `Err` results carrying the error handler's key
(`Values.Error`). A property read on `null`/`undefined` becomes
`Error.TypeError`. A rejection that the draft passes on unchanged becomes
`TransportRejected`. Console warnings are collected in the session's
`warnings` field.

Where the description of the library and its code disagree, the model
follows the code, with one exception given below the list:

- `addCharacteristic` with an empty service name reports
  `new_characteristic_missing_params`, because `''` is falsy. It does not
  report `improper_service_format`.
- `stopNotifications` on a characteristic that has never been resolved
  throws a `TypeError` from `cache[service][name].notifying`. It does not
  report `stop_notifications_not_notifying`.
- `disconnect` leaves `apiServer`, `apiDevice` and the cache as they are.
- With `optional_services`, `connect` sends no `optionalServices` at all. It
  only appends the unknown names to the shared service list.
- The draft's `Device.connect` reads `this.gattServiceList`, which `Device`
  does not have, so it sends no optional services unless the caller names
  some.

The exception is the decoders listed under "## Findings". Each is modelled
twice: once as written and once corrected. The dispatch `Codecs.Decode` runs
the corrected version, and so do the session and registry members built on
it. The versions as written are stated beside them, each with a lemma
that exhibits the input on which the two differ.

## Model

| member | source | states |
|---|---|---|
| ByteView.Get | dist/build.js:594-606 | a fixed-width DataView read fails with RangeError exactly when it runs past byteLength, and otherwise yields a value in the format's range |
| ByteView.GetEncode | dist/build.js:565-569 | a value in a format's range, written with that format, is read back unchanged |
| ByteView.EncodeGet | dist/build.js:594-606 | the bytes a read covers are exactly the encoding of the value it yields |
| ByteView.LEBytesRoundTrip | dist/build.js:934-942 | little-endian decoding of any bytes is below 256^n and re-encodes to the same bytes |
| ByteView.BEBytesRoundTrip | lib/utils/bluetoothMap.js:125 | big-endian decoding of any bytes is below 256^n and re-encodes to the same bytes |
| Bits.AndBit | lib/utils/bluetoothMap.js:125-136 | `flags & 2^k` is 2^k when bit k of the flags is set and 0 otherwise |
| Enums.LabelRoundTrip | lib/main2.js:14-23 | in a table of distinct labels, each code in range maps to a label that gives that code back, and every other code maps to the default, which gives no code back |
| Enums.CodeRoundTrip | lib/main2.js:14-23 | a label that names a code is the label of that code |
| Enums.AsWrittenIsFallback | dist/build.js:540-557 | a switch whose cases have no `break` leaves the default label for every code |
| Enums.BodySensorLocationDistinct | lib/main2.js:15-22 | the seven body-sensor-location labels and "Unknown" are pairwise different |
| Enums.BarometricPressureTrendDistinct | dist/build.js:802-825 | the ten barometric-pressure-trend labels and the default are pairwise different |
| Enums.SensorLocationDistinct | dist/build.js:955-992 | the seventeen sensor-location labels and "Unknown" are pairwise different |
| Enums.BodySensorLocationFallsThrough | dist/build.js:540-557 | as written, code 1 (chest) is reported as "Unknown", whereas the intended label is "Chest" |
| Measurements.HeartRateMeasurementLength | dist/build.js:586-614 | a heart-rate measurement decodes exactly when the view holds the flags byte and every fixed field its flags announce; otherwise the error is RangeError |
| Measurements.HeartRateMeasurementHeader | dist/build.js:586-603 | heartRate is the u16 LE at 1 when flag 0x1 is set and the byte at 1 otherwise; contactDetected is present exactly when flag 0x4 is set and then equals flag 0x2; no other keys appear |
| Measurements.HeartRateMeasurementEnergy | dist/build.js:604-607 | energyExpended is present exactly when flag 0x8 is set, and is then the u16 LE right after the heart rate |
| Measurements.HeartRateMeasurementRr | dist/build.js:608-614 | rrIntervals is present exactly when flag 0x10 is set, and is read from the offset after the energy field |
| Measurements.RrFrom | dist/build.js:609-613 | the RR list from a start offset has max(0, (byteLength − start) div 2) entries |
| Measurements.RrFromEntries | dist/build.js:609-613 | entry i of the RR list is the u16 LE at start + 2i |
| Measurements.ReadRrIntervals | lib/utils/bluetoothMap.js:306-310 | the RR loop, which runs while index + 1 < byteLength, computes that list |
| Measurements.RrIntervalsShape | dist/build.js:610-612 | each RR entry whose two bytes are in the view is their little-endian value |
| Measurements.ParseHeartRateMeasurement | lib/utils/bluetoothMap.js:279-312 | the step-by-step decoder, with its running index and loop, returns what the heart-rate decoder specifies |
| Measurements.HeartRateMeasurementExample | dist/build.js:584-616 | bytes [0x16, 0x4B, 0x00, 0x01] decode to heartRate 75, contactDetected true and rrIntervals [256] |
| Measurements.RrFromPacked | dist/build.js:609-613 | u16 values packed little-endian after any prefix are read back as the same list |
| Measurements.HeartRateFlagBits | dist/build.js:587-591 | the flags byte of an encoded heart-rate sample has bit 0x1 exactly when the rate is wide, 0x2 when contact is detected, 0x4 when contact is reported, 0x8 when energy is present and 0x10 when RR intervals are present |
| Measurements.HeartRateRoundTrip | dist/build.js:584-616 | every heart-rate sample that fits its fields, once encoded as section 3.1 of the Heart Rate Service specification lays it out, decodes to exactly its own record |
| Measurements.CscMeasurementLength | dist/build.js:928-945 | a CSC measurement decodes exactly when the view holds the fields its flags announce; otherwise the error is RangeError |
| Measurements.CscMeasurementFields | dist/build.js:928-945 | flag 0x1 gives the wheel revolutions (u32 LE at 1) and the wheel event time (u16 LE at 5); flag 0x2 gives the crank revolutions and crank event time (u16 LE each) right after; nothing else appears |
| Measurements.CscFlagBits | dist/build.js:929-930 | the flags byte of an encoded CSC sample has bit 0x1 exactly when wheel data is present and 0x2 exactly when crank data is present |
| Measurements.CscRoundTrip | dist/build.js:926-946 | every speed-and-cadence sample, once encoded as section 3.1 of the Cycling Speed and Cadence Service specification lays it out, decodes to exactly its own record |
| Measurements.GlucoseMeasurementLength | dist/build.js:469-490 | a glucose measurement decodes exactly when the view holds the fields its flags announce; otherwise the error is RangeError |
| Measurements.GlucoseMeasurementFields | dist/build.js:469-490 | time_offset is present exactly when flag 0x1 is set and is the sint16 LE at 1; the molPerL key is present exactly when flags 0x2 and 0x4 are set, the kgPerL key exactly when 0x2 is set without 0x4, and either holds the sint16 LE after the time offset |
| Measurements.GlucoseFlagBits | dist/build.js:470-472 | the flags byte of an encoded glucose sample has bit 0x1 exactly when a time offset is present, 0x2 when a concentration is present and 0x4 when it is in mol/L |
| Measurements.GlucoseRoundTrip | dist/build.js:467-491 | every glucose sample decodes back to its own record after encoding |
| Measurements.PowerFlagsRead | dist/build.js:1009 | the cycling power flags are the big-endian u16 at offset 0 |
| Measurements.SharedMaskBits | dist/build.js:1014-1022 | the mask 0x12 that gates every trailing field is set exactly when flag 0x10 or flag 0x2 is set |
| Measurements.CyclingPowerMeasurementLength | dist/build.js:1007-1088 | a cycling power measurement decodes exactly when flag 0x10 is clear and the view holds every field the flags announce; a view too short for the fields before the 0x10 test is a RangeError, then flag 0x10 is a TypeError (`value.Uint32` is not a function), then a view too short for the trailing fields is a RangeError |
| Measurements.Int16BEBytes | dist/build.js:1026 | a big-endian sint16 read is the two's-complement value of its two bytes |
| Measurements.PowerLeading | dist/build.js:1024-1037 | the fields before the 0x10 test in byte terms, with exactly their keys: instantaneous_power from bytes 1 and 2 (overlapping the flags), pedal_power_balance from byte 3 under flag 0x2, accumulated_torque as a big-endian u16 under flag 0x4 |
| Measurements.PowerLeadingRead | dist/build.js:1026-1037 | the decoder's two optional reads yield that leading record whenever the view holds the fields |
| Measurements.CyclingPowerMeasurementFields | dist/build.js:1024-1087 | a decoded measurement is the leading record, followed by the trailing fields from the end of the leading ones exactly when flag 0x2 is set |
| Measurements.TrailingFieldsKeys | dist/build.js:1044-1086 | the trailing blocks add exactly their nine keys and keep every other key |
| Measurements.TrailingCrankValues | dist/build.js:1044-1049 | the crank revolutions and the crank event time are the little-endian u16 of their own two bytes |
| Measurements.TrailingMagnitudeValues | dist/build.js:1050-1063 | the four extreme force and torque magnitudes are the big-endian sint16 of their own two bytes |
| Measurements.TrailingAngleValues | dist/build.js:1072-1086 | the dead spot angles and the accumulated energy are the big-endian u16 of their own two bytes |
| Codecs.ReadFields | dist/build.js:840-863 | a decoder of fixed-offset fields succeeds exactly when every field lies inside the view, fails with RangeError otherwise, and yields exactly the fields' keys |
| Codecs.ReadFieldsValue | dist/build.js:840-863 | each field's key holds the reading of its own format at its own offset, scaled by its resolution |
| Codecs.SingleReading | dist/build.js:642-794 | a one-field environmental decoder fails exactly on a view too short for its format, and otherwise yields exactly its key, holding the reading at offset 0 |
| Codecs.BatteryLevelByte | dist/build.js:329-334 | battery_level is the unsigned byte at offset 0, and an empty view is a RangeError |
| Codecs.SignedByteReadings | lib/utils/bluetoothMap.js:377 | dew_point, heat_index, wind_chill and tx_power_level read the two's-complement value of byte 0, between −128 and 127 |
| Codecs.ScaledUint16Reading | lib/utils/bluetoothMap.js:355-486 | the scaled readings take the big-endian u16 at offset 0 times their resolution |
| Codecs.PressureReading | dist/build.js:735-744 | pressure is the big-endian u32 at offset 0 times 0.1 |
| Codecs.TemperatureReading | dist/build.js:745-754 | temperature is the big-endian sint16 at offset 0 times 0.01 |
| Codecs.CscFeatureBits | dist/build.js:367-384 | with the intended mask, each csc_feature key is present exactly when its own flag bit (0x1, 0x2, 0x4) is set, and is then true |
| Codecs.CscFeatureMaskCounterexample | dist/build.js:372 | as written, flags 0x0001 also report multiple sensor locations; the intended decoder reports only wheel data |
| Codecs.BitRecordValue | lib/utils/bluetoothMap.js:126-136 | with distinct keys, key i of a flag record holds `flags & 2^i` |
| Codecs.GlucoseFeatureBits | dist/build.js:442-458 | glucose_feature sets exactly its eleven keys, key i holding 2^i when bit i of the big-endian u16 at 0 is set and 0 otherwise |
| Codecs.EnumeratedCodes | lib/main2.js:14-23 | the intended enumerated decoders map each code in range to its own label and every other code to the default, and the label gives the code back |
| Codecs.EnumeratedAsWrittenIsDefault | dist/build.js:955-992 | as written, every enumerated reading that succeeds yields the default label |
| Codecs.BodySensorLocationCounterexample | dist/build.js:536-558 | as written, the view [1] reads as "Unknown"; intended, it reads as "Chest" |
| Codecs.Latin1 | dist/build.js:416-419 | the decoded device name has one character per byte |
| Codecs.DecodeDeviceName | dist/build.js:413-421 | the decoding loop builds that string, character i being byte i |
| Codecs.LowBytes | dist/build.js:425-427 | the encoded device name has one byte per character |
| Codecs.PrepDeviceName | dist/build.js:422-429 | the encoding loop fills a fresh buffer of `value.length` bytes, byte i being the char code of character i mod 256 |
| Codecs.DeviceNameRoundTrip | lib/utils/bluetoothMap.js:89-106 | a name whose char codes are all below 256 survives encoding then decoding |
| Codecs.DeviceNameBytesRoundTrip | dist/build.js:413-429 | any bytes survive decoding then encoding |
| Codecs.DeviceNameWideCharacter | dist/build.js:426 | a char code of 256 or more loses its high bits ("Ā" is sent as 0), so the round trip fails for it |
| Codecs.Elevation24Value | dist/build.js:672-681 | the intended elevation decoder succeeds exactly on views of 3 bytes or more, and yields the signed 24-bit big-endian value of the first three bytes |
| Codecs.Elevation24RoundTrip | dist/build.js:672-681 | every signed 24-bit elevation is read back from its three big-endian bytes |
| Codecs.ElevationCounterexample | dist/build.js:678 | as written, [0x00, 0x80, 0x00] (elevation 32768) reads as −32768 |
| Codecs.WeightSelectorBits | dist/build.js:887-906 | the intended weight selector is bits 3 to 6 of the flags |
| Codecs.HeightSelectorBits | dist/build.js:907-918 | the intended height selector is bits 7 to 9 of the flags |
| Codecs.SelectorsAsWritten | lib/utils/bluetoothMap.js:591-606 | as written, operator precedence makes the selectors the low four and the low three bits of the flags |
| Codecs.WeightSelectorCounterexample | dist/build.js:887 | any flags whose bits 3 to 6 hold 1 (0x08, for one) announce 0.5 kg resolution; the selector as written is then 8 or more, which reads "Could not resolve" |
| Codecs.WeightScaleFeatureResolutions | dist/build.js:883-918 | the intended decoder labels bits 3 to 6 and bits 7 to 9 of the big-endian int32 flags with one resolution each |
| Codecs.WeightScaleFeatureAsWrittenResolutions | dist/build.js:887-918 | as written, both resolutions always read "Could not resolve" |
| Codecs.ControlPointOneByte | dist/build.js:565-570 | heart_rate_control_point always yields a one-byte buffer, holding a number mod 256 |
| Codecs.Parse | dist/build.js:413-421 | running a decoder as the source does, loops included, gives the decoder's specified result |
| Codecs.PrepValue | dist/build.js:422-429 | running an encoder as the source does, over a fresh buffer, gives the encoder's specified bytes |
| Registry.GattRegistry.constructor | dist/build.js:324-1091 | the shared registry starts as the default table and the adopted service list |
| Registry.AddCharacteristicAccepts | lib/BluetoothDevice.js:233-250 | the library's checks pass exactly for a new, non-empty string name, a non-empty string service and a non-empty array of properties |
| Registry.AddCharacteristicOrder | lib/BluetoothDevice.js:233-244 | an existing name is reported before anything else, then a name that is not a non-empty string, then a missing service |
| Registry.AddCharacteristicBundledRejects | dist/build.js:269-271 | the bundled checks reject every call: where the library would accept, they report improper_properties_format; elsewhere they agree with the library |
| Request.UuidExamples | lib/BluetoothDevice.js:48 | the UUID pattern accepts a canonical lower-case UUID and any string that starts like one, and rejects upper case and service names |
| Request.ServicesMembers | lib/BluetoothDevice.js:60-68 | a service is kept exactly when it is requested and in the list, and dropped exactly when it is requested and not in the list |
| Request.KnownServicesAppend | lib/BluetoothDevice.js:62-66 | filtering distributes over concatenation, so kept services stay in request order |
| Request.ServicesPartition | lib/BluetoothDevice.js:62-66 | every requested service is either kept or dropped |
| Request.ExtendServices | lib/BluetoothDevice.js:69-72 | walking the optional services keeps the old list as a prefix, and the result holds exactly the old names and the optional ones |
| Request.ExtendServicesNoDuplicates | lib/BluetoothDevice.js:70-71 | extending a list without repetitions never introduces one |
| Request.ExtendServicesKnown | lib/BluetoothDevice.js:70-71 | optional services that are all known leave the list unchanged |
| Request.LibraryRequest | lib/BluetoothDevice.js:50-73 | the request fails with no_filters exactly when the filter object has no keys, and with uuid_error exactly when a given UUID fails the pattern; otherwise optionalServices is the whole list without optional_services and absent with it |
| Request.LibraryRequestAdoptedServices | lib/BluetoothDevice.js:60-68 | the services filter the library sends names adopted services only |
| Request.LibraryFilterOrder | lib/BluetoothDevice.js:51-68 | one filter entry per truthy constraint, name first and services last |
| Request.DraftRequest | lib/main2.js:61-67 | the draft sends the caller's optionalServices when given and the fallback otherwise; without filters it sends nothing |
| Request.DraftAgreesOnFilters | lib/main2.js:61-65 | on requests the library accepts whose services are all adopted, the draft sends the same filter entries |
| Request.KnownServicesAll | lib/BluetoothDevice.js:62-66 | nothing is dropped from a request whose services are all in the list |
| Transport.Browser.GattConnect | lib/BluetoothDevice.js:78 | connecting logs the call, and the server is connected afterwards exactly when the call succeeds |
| Transport.Browser.Disconnect | lib/BluetoothDevice.js:92 | disconnecting logs the call, and the server is disconnected afterwards exactly when the call succeeds |
| Session.StoreCharacteristic | lib/BluetoothDevice.js:282 | storing a resolved characteristic caches it, not notifying, and leaves every other cache entry as it was |
| Session.SetNotifying | lib/BluetoothDevice.js:183 | setting the notification flag of a cached characteristic changes that flag only |
| Session.Resolve | lib/BluetoothDevice.js:269-297 | unknown names fail with characteristic_error and make no call; a cached characteristic is returned with no call; a returned characteristic is in the cache afterwards; at most two calls are made; no call means no cache change |
| Session.ResolveKeepsCache | lib/BluetoothDevice.js:277-292 | resolving never loses or changes a cached characteristic, and stores characteristics only under the service the registry names |
| Session.StoreConsistent | lib/BluetoothDevice.js:282-283 | storing a characteristic under the service its registry entry names keeps the cache consistent with the registry |
| Session.SetNotifyingConsistent | lib/BluetoothDevice.js:183 | flipping the notification flag of a cached characteristic keeps the cache consistent with the registry |
| Session.ResolveTwice | lib/BluetoothDevice.js:277-278 | a second lookup of a returned characteristic is answered from the cache with no transport call |
| Session.ModeWarning | lib/BluetoothDevice.js:111-117 | an operation warns exactly when the entry does not list its access mode, and still proceeds |
| Session.ServiceWarnings | lib/BluetoothDevice.js:63-64 | one warning per dropped service, in order |
| Session.FilterServices | lib/BluetoothDevice.js:60-68 | the services walk keeps exactly the adopted services in order and warns once for each of the others |
| Session.ReadResultShape | lib/BluetoothDevice.js:121-125 | a read result always holds rawValue; it holds the decoded fields besides when there is a decoder and nothing else otherwise; a decoder that throws makes it read_error |
| Session.ReadDecoded | lib/BluetoothDevice.js:120-125 | reading a resolved characteristic logs one readValue call and yields read_error when it rejects, the read result of its bytes otherwise |
| Session.WritePayload | lib/BluetoothDevice.js:153 | writeValue sends the encoder's bytes when the entry has an encoder and the value unchanged otherwise |
| Session.BatteryLevelRead | lib/BluetoothDevice.js:121-124 | a battery level reads as its byte beside rawValue |
| Session.BluetoothDevice.constructor | lib/BluetoothDevice.js:28-33 | a new session has no device, no server and an empty cache |
| Session.BluetoothDevice.Connected | lib/BluetoothDevice.js:35-37 | no_device before a device is chosen, and otherwise whether its server is connected |
| Session.BluetoothDevice.Connect | lib/BluetoothDevice.js:45-85 | no transport call when the request fails; the device is set only once requestDevice resolves and the server only once connect resolves; any rejection is user_cancelled |
| Session.BluetoothDevice.ExtendServiceList | lib/BluetoothDevice.js:69-72 | the optional-services loop extends the shared list as ExtendServices describes |
| Session.BluetoothDevice.BuildRequest | lib/BluetoothDevice.js:46-73 | the step-by-step request building yields LibraryRequest on the list as it stood, with the service warnings and the list extension as side effects only on success |
| Session.BluetoothDevice.Disconnect | lib/BluetoothDevice.js:91-94 | not_connected without a call when the server is not connected; otherwise true exactly when the server is disconnected afterwards, and issue_disconnecting if not; the cache is untouched |
| Session.BluetoothDevice.ReturnCharacteristic | lib/BluetoothDevice.js:269-297 | the cache walk behaves as Resolve, and the cache stays consistent with the registry |
| Session.BluetoothDevice.GetValue | lib/BluetoothDevice.js:104-126 | characteristic_error with no call for an unknown name; otherwise a read warning when 'read' is not listed, then the read result of the resolved characteristic, or read_error |
| Session.BluetoothDevice.WriteValue | lib/BluetoothDevice.js:138-156 | characteristic_error with no call for an unknown name; otherwise a write warning when 'write' is not listed, then the payload written to the resolved characteristic and true on success, write_error otherwise |
| Session.BluetoothDevice.StartNotifications | lib/BluetoothDevice.js:166-191 | characteristic_error with no call for an unknown name; the entry is marked notifying only after the browser starts notifications |
| Session.BluetoothDevice.StopNotifications | lib/BluetoothDevice.js:200-221 | stop_notifications_not_notifying with no call when the entry is not notifying; the flag is cleared only after the browser stops notifications |
| Session.BluetoothDevice.AddCharacteristic | lib/BluetoothDevice.js:232-261 | the first failing check is reported and nothing changes; otherwise exactly one entry, without codecs, is added, a warning is issued and the result is true |
| Session.BluetoothDevice.AddCharacteristicBundled | dist/build.js:253-282 | the bundled version reports an error for every call |
| Draft.BodySensorLocationSwitch | lib/main2.js:13-24 | codes 0 to 6 map to their labels, each giving its code back; every other code maps to "Unknown" |
| Draft.DraftRead | lib/main2.js:236-240 | nothing for an empty value, otherwise the first byte, decoded to its label when the entry has a decoder |
| Draft.DraftAgreesWithLibraryDecoder | lib/main2.js:13-24 | the draft's body_sensor_location reading is the label the library's intended decoder reports |
| Draft.BuildDraftRequest | lib/main2.js:57-67 | the push-by-push request building yields DraftRequest |
| Draft.Acquire | lib/main2.js:54-81 | acquire asks for a device with the whole service list as the default optional services, and resolves with the chosen device |
| Draft.Device.constructor | lib/main2.js:87-92 | a new device has no device and no server |
| Draft.Device.CheckConnectionStatus | lib/main2.js:97-99 | a TypeError before a device is chosen, and otherwise whether its server is connected |
| Draft.Device.Connect | lib/main2.js:109-140 | the request sends no default optional services; the device and server are set only as their calls resolve |
| Draft.Device.Disconnect | lib/main2.js:148-176 | not connected: an error with no call; otherwise true exactly when the server is disconnected afterwards, an error if not |
| Draft.Device.GetValue | lib/main2.js:216-249 | an unknown name is a TypeError; an entry without 'read' yields nothing with no call; every rejection yields nothing; otherwise the first byte as DraftRead describes |
| Draft.DraftServiceListIsLibraryList | lib/main2.js:28-37 | the draft's service list is the library's adopted service list |

## Left out

- The browser itself. `requestDevice`, `gatt.connect`, `getPrimaryService`, `getCharacteristic`, `readValue`, `writeValue`, `startNotifications`, `stopNotifications` and `disconnect` are an oracle. It answers each call with a success or a failure fixed in advance.
- Promise scheduling and interleaving. Each session method runs to completion. The cache update of the `_returnCharacteristic` branch for a cached service, which happens later in the source, is applied at once in the model.
- Session.BluetoothDevice.StartNotifications: the `characteristicvaluechanged` listener and the `transmissionCallback` deliveries are not modelled. Only the `notifying` flag and the start call are.
- Errors thrown synchronously and rejections are both `Err` results. The model does not tell a throwing call from a rejected promise.
- Decoders that scale a reading (`* 0.01`, `* 0.1`, `* 0.001`, `* 0.0000001`) yield the exact `real` product. IEEE rounding is not modelled.
- Strings hold one character per UTF-16 code unit. Characters at or above U+10000 and lone surrogates are not modelled.
- Codecs.ControlPointByte: `ToNumber` is modelled only for integers, strings of decimal digits (their value) and everything else (NaN, stored as 0). Signs, fractions, whitespace and hexadecimal strings are not.
- Draft.Acquire returns the chosen device's handle. It does not construct the `Device` that wraps it.
- Registry lookups use `in` on a map. The JavaScript object's inherited properties (`constructor`, `toString`, …), which make those lookups truthy, are not modelled. Neither is a characteristic named `cachedService`, whose cache entry would collide with the service object.
- `addCharacteristic` arguments are `undefined`, strings or arrays of strings. Numbers, objects and other values are not modelled.
- Session.BluetoothDevice.Valid: it is proved per session. Two sessions sharing one registry, where one adds characteristics the other has cached, are not modelled.
- The library filter object (`requestParams`) is copied into the session. An alias shared with the caller, who may mutate it between calls, is not modelled.
- The message texts of the error handlers (lib/errorHandler.js, lib/utils/errorHandler.js) are not modelled. The model keeps the error keys. The draft's `throw new Error(...)` texts map to the same keys (`NotConnected`, `IssueDisconnecting`).
- Console output is not modelled. The library's `console.warn` calls become `Session.Warning` values; the draft's `console.log` calls are dropped.
- Measurements.CyclingPowerMeasurement is modelled as written only. It reads the power at offset 1, gates the pedal power balance by flag 0x2 and every trailing block by mask 0x12, and throws a TypeError on flag 0x10. The layout that the Bluetooth Cycling Power Measurement characteristic defines, which it evidently aims at, is not modelled, and the extreme angles (commented out in the source) are not read.
- Codecs.Parse: it is proved equal to `Codecs.Decode`, which runs the corrected csc_feature, elevation, weight_scale_feature and enumerated decoders listed under "## Findings". For those characteristics it does not state what the code as written returns; the as-written members (`CscFeatureAsWritten`, `ElevationAsWritten`, `WeightScaleFeatureAsWritten`, `EnumeratedReadingAsWritten`) state that.
- Session.BluetoothDevice.GetValue: its read result runs `Codecs.Decode`, so for the characteristics under "## Findings" it states the corrected decoder's fields, not those the code as written returns.
- Registry.GattRegistry.constructor: the default table it installs names the corrected decoders for csc_feature, elevation, weight_scale_feature, body_sensor_location, barometric_pressure_trend and sensor_location.
- `sc_control_point` (dist/build.js:996-1003) returns an undeclared `result`. It is modelled as a decoder that always fails with ReferenceError.
- The incomplete `csc_measurement` of lib/utils/bluetoothMap.js:613-633 is not part of this model. It has syntax errors; the complete one in dist/build.js is modelled.
- lib/main.js is not part of this model. It is a superseded draft that does not parse, and its table duplicates the other files.
- Build tooling (gulpfile.js) and the browser test pages (test/) are not part of this model.

## Findings

| source | as written | input that shows it | evidently intended | confidence | as-written member | corrected member |
|---|---|---|---|---|---|---|
| dist/build.js:540-557 | the `switch` cases of body_sensor_location (and barometric_pressure_trend, 802-825, and sensor_location, 955-992) have no `break`, so every code falls through to the default label | the view [1] gives location "Unknown" | each code gets its own label, as the draft's switch at lib/main2.js:14-23 does | high, not executed | Codecs.BodySensorLocationCounterexample | Codecs.EnumeratedCodes |
| dist/build.js:269 | `propertiesArr.constuctor` is always undefined, so the bundled `addCharacteristic` rejects every new characteristic with improper_properties_format | addCharacteristic("my_char", "my_service", ["read"]) | the check `constructor !== Array` of lib/BluetoothDevice.js:248, which accepts a non-empty array | high, not executed | Session.BluetoothDevice.AddCharacteristicBundled | Session.BluetoothDevice.AddCharacteristic |
| dist/build.js:372 | csc_feature tests multiple sensor locations with mask 0x3, the union of the wheel and crank bits | flags 0x0001 (wheel data only) also report multiple_sensors_supported | mask 0x4, bit 2 of the CSC Feature field | high, not executed | Codecs.CscFeatureMaskCounterexample | Codecs.CscFeatureBits |
| dist/build.js:887 | `flags & 0x78 >> 3` parses as `flags & (0x78 >> 3)`, the low four bits, and likewise `flags & 0x380 >> 7` at 907 is the low three bits; with no `break` the label is always "Could not resolve" anyway | any flags whose bits 3 to 6 hold 1 (0x08, 0.5 kg resolution) give a selector of 8 or more | `(flags & 0x78) >> 3` and `(flags & 0x380) >> 7`, each case ending the switch | high, not executed | Codecs.WeightSelectorCounterexample | Codecs.WeightScaleFeatureResolutions |
| dist/build.js:678 | elevation ORs three `getInt8` reads, so a byte of 0x80 or more in the middle or low position sign-extends over the higher bytes | [0x00, 0x80, 0x00] reads as −32768 | the signed 24-bit big-endian value of the three bytes (32768 here) | medium, not executed | Codecs.ElevationCounterexample | Codecs.Elevation24Value |
