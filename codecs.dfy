/** The `parseValue` / `prepValue` codecs of the characteristic table: what
    each decoder makes of a DataView and what each encoder puts into one. */
module Codecs {
  import opened Values
  import opened ByteView
  import opened Bits
  import opened Enums
  import Measurements

  // ---------------------------------------------------------------------
  // Fixed-offset readings
  // ---------------------------------------------------------------------

  /** `result.<key> = view.get<format>(offset)`, times `scale` when present
      (the environmental readings multiply by a resolution constant). */
  datatype Field = Field(key: Key, format: Format, offset: nat, scale: Option<real>)

  /** A raw reading times its resolution, as an exact real. */
  function Scale(x: int, c: real): real {
    x as real * c
  }

  function Reading(f: Field, x: int): Value {
    match f.scale
    case None => Num(x)
    case Some(c) => Real(Scale(x, c))
  }

  predicate InView(f: Field, view: seq<Byte>) {
    f.offset + f.format.Width() <= |view|
  }

  function KeysOf(fields: seq<Field>): set<Key> {
    set i | 0 <= i < |fields| :: fields[i].key
  }

  /** The readings in source order; the first one past the end of the view
      throws. */
  function ReadFields(fields: seq<Field>, view: seq<Byte>): (r: Result<Record, DecodeError>)
    ensures r.Ok? <==> forall i | 0 <= i < |fields| :: InView(fields[i], view)
    ensures r.Err? ==> r.error == RangeError
    ensures r.Ok? ==> r.value.Keys == KeysOf(fields)
    decreases |fields|
  {
    if fields == [] then Ok(map[])
    else
      var f := fields[|fields| - 1];
      var init := fields[..|fields| - 1];
      assert KeysOf(fields) == KeysOf(init) + {f.key} by {
        assert forall i | 0 <= i < |init| :: init[i] == fields[i];
      }
      match ReadFields(init, view)
      case Err(e) => Err(e)
      case Ok(m) =>
        match Get(f.format, view, f.offset)
        case Err(e) => Err(e)
        case Ok(x) => Ok(m[f.key := Reading(f, x)])
  }

  /** A field whose key no later field reuses keeps its own reading. */
  lemma {:induction false} ReadFieldsValue(fields: seq<Field>, view: seq<Byte>, i: nat)
    requires ReadFields(fields, view).Ok?
    requires i < |fields|
    requires forall j | i < j < |fields| :: fields[j].key != fields[i].key
    ensures InView(fields[i], view)
    ensures ReadFields(fields, view).value[fields[i].key]
         == Reading(fields[i], Get(fields[i].format, view, fields[i].offset).value)
    decreases |fields|
  {
    if i < |fields| - 1 {
      var init := fields[..|fields| - 1];
      ReadFieldsValue(init, view, i);
    }
  }

  /** One reading at offset 0. */
  function Single(key: Key, format: Format, scale: Option<real>): Decoder {
    Fields([Field(key, format, 0, scale)])
  }

  const BATTERY_LEVEL := Single(BatteryLevel, Uint8, None)
  const APPARENT_WIND_DIRECTION := Single(ApparentWindDirection, Uint16(false), Some(0.01))
  const APPARENT_WIND_SPEED := Single(ApparentWindSpeed, Uint16(false), Some(0.01))
  const DEW_POINT := Single(DewPoint, Int8, None)
  const GUST_FACTOR := Single(GustFactor, Uint8, Some(0.1))
  const HEAT_INDEX := Single(HeatIndex, Int8, None)
  const HUMIDITY := Single(Humidity, Uint16(false), Some(0.01))
  const IRRADIANCE := Single(Irradiance, Uint16(false), Some(0.1))
  const RAINFALL := Single(Rainfall, Uint16(false), Some(0.001))
  const PRESSURE := Single(Pressure, Uint32(false), Some(0.1))
  const TEMPERATURE := Single(Temperature, Int16(false), Some(0.01))
  const TRUE_WIND_DIRECTION := Single(TrueWindDirection, Uint16(false), Some(0.01))
  const TRUE_WIND_SPEED := Single(TrueWindSpeed, Uint16(false), Some(0.01))
  const UV_INDEX := Single(UvIndex, Uint8, None)
  const WIND_CHILL := Single(WindChill, Int8, None)
  const MAGNETIC_DECLINATION := Single(MagneticDeclination, Uint16(false), Some(0.01))
  const MAGNETIC_FLUX_DENSITY_2D := Fields([
    Field(MagneticFluxDensityXAxis, Int16(true), 0, Some(0.0000001)),
    Field(MagneticFluxDensityYAxis, Int16(true), 2, Some(0.0000001))])
  const MAGNETIC_FLUX_DENSITY_3D := Fields([
    Field(MagneticFluxDensityXAxis, Int16(true), 0, Some(0.0000001)),
    Field(MagneticFluxDensityYAxis, Int16(true), 2, Some(0.0000001)),
    Field(MagneticFluxDensityZAxis, Int16(true), 4, Some(0.0000001))])
  const TX_POWER_LEVEL := Single(TxPowerLevel, Int8, None)

  /** A one-field decoder fails on a view too short for its format and
      otherwise yields exactly its key. */
  lemma SingleReading(key: Key, format: Format, scale: Option<real>, view: seq<Byte>)
    ensures var r := Decode(Single(key, format, scale), view);
      && (r.Ok? <==> format.Width() <= |view|)
      && (r.Err? ==> r.error == RangeError)
      && (r.Ok? ==> r.value == map[key := Reading(Field(key, format, 0, scale), Get(format, view, 0).value)])
  {
    var fields := [Field(key, format, 0, scale)];
    if format.Width() <= |view| {
      ReadFieldsValue(fields, view, 0);
      assert KeysOf(fields) == {key};
      var m := ReadFields(fields, view).value;
      assert m == map[key := m[key]];
    }
  }

  /** battery_level is the unsigned byte at offset 0. */
  lemma BatteryLevelByte(view: seq<Byte>)
    ensures Decode(BATTERY_LEVEL, view)
         == if |view| == 0 then Err(RangeError) else Ok(map[BatteryLevel := Num(view[0])])
  {
    SingleReading(BatteryLevel, Uint8, None, view);
    if |view| > 0 {
      Uint8Byte(view, 0);
    }
  }

  /** dew_point, heat_index, wind_chill and tx_power_level read a signed byte:
      the two's-complement value of byte 0, between -128 and 127. */
  lemma SignedByteReadings(key: Key, view: seq<Byte>)
    requires |view| > 0
    ensures var n := if view[0] < 128 then view[0] as int else view[0] as int - 256;
      && -128 <= n <= 127
      && Decode(Single(key, Int8, None), view) == Ok(map[key := Num(n)])
  {
    SingleReading(key, Int8, None, view);
    assert view[0..1][..0] == [];
  }

  /** The big-endian 16-bit value of the first two bytes. */
  function FirstWordBE(view: seq<Byte>): nat
    requires |view| >= 2
  {
    256 * view[0] as int + view[1] as int
  }

  /** The scaled u16 readings take the big-endian 16-bit value at offset 0. */
  lemma ScaledUint16Reading(key: Key, factor: real, view: seq<Byte>)
    ensures Decode(Single(key, Uint16(false), Some(factor)), view)
         == if |view| < 2 then Err(RangeError)
            else Ok(map[key := Real(Scale(FirstWordBE(view), factor))])
  {
    SingleReading(key, Uint16(false), Some(factor), view);
    if |view| >= 2 {
      Unsigned16BE(Uint16(false), view, 0);
      assert Get(Uint16(false), view, 0).value == FirstWordBE(view);
    }
  }

  /** pressure takes the big-endian 32-bit unsigned value at offset 0. */
  lemma PressureReading(view: seq<Byte>)
    ensures Decode(PRESSURE, view)
         == if |view| < 4 then Err(RangeError)
            else Ok(map[Pressure := Real(Scale(FromBE(view[0..4]), 0.1))])
  {
    SingleReading(Pressure, Uint32(false), Some(0.1), view);
  }

  /** temperature takes the big-endian 16-bit signed value at offset 0. */
  lemma TemperatureReading(view: seq<Byte>)
    ensures Decode(TEMPERATURE, view)
         == if |view| < 2 then Err(RangeError)
            else Ok(map[Temperature := Real(Scale(ToSigned(FirstWordBE(view), 2), 0.01))])
  {
    SingleReading(Temperature, Int16(false), Some(0.01), view);
    if |view| >= 2 {
      Unsigned16BE(Int16(false), view, 0);
    }
  }

  // ---------------------------------------------------------------------
  // Flag words
  // ---------------------------------------------------------------------

  /** The mask csc_feature tests for multiple sensor locations, as written. */
  const CSC_MULTIPLE_SENSORS_AS_WRITTEN: nat := 0x3
  /** Bit 2 of the CSC Feature field: multiple sensor locations supported. */
  const CSC_MULTIPLE_SENSORS: nat := 0x4

  /** `parseValue` of csc_feature with the given multiple-sensors mask: each
      key is set to true when its mask hits the big-endian u16 flags, and is
      absent otherwise. */
  function CscFeatureWith(view: seq<Byte>, multipleMask: nat): (r: Result<Record, DecodeError>) {
    match Get(Uint16(false), view, 0)
    case Err(e) => Err(e)
    case Ok(flags) =>
      var m: Record := if Has(flags, 0x1) then map[WheelRevolutionDataSupported := Bool(true)] else map[];
      var m := if Has(flags, 0x2) then m[CrankRevolutionDataSupported := Bool(true)] else m;
      Ok(if Has(flags, multipleMask) then m[MultipleSensorsSupported := Bool(true)] else m)
  }

  function CscFeatureAsWritten(view: seq<Byte>): (r: Result<Record, DecodeError>) {
    CscFeatureWith(view, CSC_MULTIPLE_SENSORS_AS_WRITTEN)
  }

  function CscFeature(view: seq<Byte>): (r: Result<Record, DecodeError>) {
    CscFeatureWith(view, CSC_MULTIPLE_SENSORS)
  }

  /** Each csc_feature key reports exactly one bit of the flags: wheel data
      bit 0, crank data bit 1, multiple sensors bit 2. */
  lemma CscFeatureBits(view: seq<Byte>)
    requires |view| >= 2
    ensures var flags := 256 * view[0] as int + view[1] as int;
      var r := CscFeature(view);
      && r.Ok?
      && (forall k | k in r.value :: r.value[k] == Bool(true))
      && (WheelRevolutionDataSupported in r.value <==> BitOf(flags, 0) == 1)
      && (CrankRevolutionDataSupported in r.value <==> BitOf(flags, 1) == 1)
      && (MultipleSensorsSupported in r.value <==> BitOf(flags, 2) == 1)
  {
    var flags := 256 * view[0] as int + view[1] as int;
    assert Get(Uint16(false), view, 0) == Ok(flags) by {
      Unsigned16BE(Uint16(false), view, 0);
    }
    assert Pow2(1) == 2 && Pow2(2) == 4;
    AndBit(flags, 0);
    AndBit(flags, 1);
    AndBit(flags, 2);
  }

  /** As written, the multiple-sensors key is set whenever wheel or crank data
      is supported: flags 0x0001 report multiple sensors. */
  lemma CscFeatureMaskCounterexample()
    ensures CscFeatureAsWritten([0x00, 0x01])
         == Ok(map[WheelRevolutionDataSupported := Bool(true), MultipleSensorsSupported := Bool(true)])
    ensures CscFeature([0x00, 0x01]) == Ok(map[WheelRevolutionDataSupported := Bool(true)])
  {
    var view: seq<Byte> := [0x00, 0x01];
    assert Get(Uint16(false), view, 0) == Ok(1) by {
      Unsigned16BE(Uint16(false), view, 0);
    }
  }

  /** The glucose_feature keys, for bits 0 to 10 of the flags. */
  const GLUCOSE_FEATURE_KEYS: seq<Key> := [
    LowBatteryDetectionSupported, SensorMalfunctionDetectionSupported,
    SensorSampleSizeSupported, SensorStripInsertionErrorDetectionSupported,
    SensorStripTypeErrorDetectionSupported, SensorResultHighLowDetectionSupported,
    SensorTemperatureHighLowDetectionSupported, SensorReadInterruptionDetectionSupported,
    GeneralDeviceFaultSupported, TimeFaultSupported, MultipleBondSupported]

  lemma GlucoseFeatureKeysDistinct()
    ensures forall i, j | 0 <= i < j < |GLUCOSE_FEATURE_KEYS| :: GLUCOSE_FEATURE_KEYS[i] != GLUCOSE_FEATURE_KEYS[j]
  {
  }

  /** `result[keys[i]] = flags & 2^i` for each i in order. */
  function BitRecord(keys: seq<Key>, flags: int): (m: Record)
    ensures forall k :: k in m <==> k in keys
    decreases |keys|
  {
    if keys == [] then map[]
    else
      var n := |keys| - 1;
      assert forall k :: k in keys <==> k in keys[..n] || k == keys[n] by {
        assert keys == keys[..n] + [keys[n]];
      }
      BitRecord(keys[..n], flags)[keys[n] := Num(And(flags, Pow2(n)))]
  }

  /** With distinct keys, key i holds bit i of the flags, as 2^i or 0. */
  lemma {:induction false} BitRecordValue(keys: seq<Key>, flags: int, i: nat)
    requires i < |keys|
    requires forall a, b | 0 <= a < b < |keys| :: keys[a] != keys[b]
    ensures BitRecord(keys, flags)[keys[i]] == Num(if BitOf(flags, i) == 1 then Pow2(i) else 0)
    decreases |keys|
  {
    var n := |keys| - 1;
    if i < n {
      BitRecordValue(keys[..n], flags, i);
      assert keys[..n][i] == keys[i];
    } else {
      AndBit(flags, i);
    }
  }

  /** `parseValue` of glucose_feature: key i is set to `flags & 2^i` (a
      number, not a boolean) for the big-endian u16 flags. */
  function GlucoseFeature(view: seq<Byte>): (r: Result<Record, DecodeError>) {
    match Get(Uint16(false), view, 0)
    case Err(e) => Err(e)
    case Ok(flags) => Ok(BitRecord(GLUCOSE_FEATURE_KEYS, flags))
  }

  /** glucose_feature sets all eleven keys, and key i holds 2^i when bit i of
      the big-endian u16 flags is set and 0 when it is clear. */
  lemma GlucoseFeatureBits(view: seq<Byte>, i: nat)
    requires |view| >= 2 && i < |GLUCOSE_FEATURE_KEYS|
    ensures GlucoseFeature(view).Ok?
    ensures forall k :: k in GlucoseFeature(view).value <==> k in GLUCOSE_FEATURE_KEYS
    ensures GlucoseFeature(view).value[GLUCOSE_FEATURE_KEYS[i]]
         == Num(if BitOf(FirstWordBE(view), i) == 1 then Pow2(i) else 0)
  {
    var flags := FirstWordBE(view);
    assert Get(Uint16(false), view, 0) == Ok(flags) by {
      Unsigned16BE(Uint16(false), view, 0);
    }
    GlucoseFeatureKeysDistinct();
    BitRecordValue(GLUCOSE_FEATURE_KEYS, flags, i);
  }

  // ---------------------------------------------------------------------
  // Enumerated readings
  // ---------------------------------------------------------------------

  /** `parseValue` of an enumerated characteristic: the label of the code read
      at offset 0. */
  function EnumeratedReading(key: Key, format: Format, table: Table, view: seq<Byte>): (r: Result<Record, DecodeError>) {
    match Get(format, view, 0)
    case Err(e) => Err(e)
    case Ok(code) => Ok(map[key := Text(Label(table, code))])
  }

  /** The same switch as written, without `break`. */
  function EnumeratedReadingAsWritten(key: Key, format: Format, table: Table, view: seq<Byte>): (r: Result<Record, DecodeError>) {
    match Get(format, view, 0)
    case Err(e) => Err(e)
    case Ok(code) => Ok(map[key := Text(LabelAsWritten(table, code))])
  }

  /** Each code of the table reads back as its own label and the label
      identifies the code; every other code reads as the default label. */
  lemma EnumeratedCodes(key: Key, format: Format, table: Table, view: seq<Byte>)
    requires Distinct(table)
    requires EnumeratedReading(key, format, table, view).Ok?
    ensures var code := Get(format, view, 0).value;
      var name := EnumeratedReading(key, format, table, view).value[key].s;
      && (0 <= code < |table.labels| ==> name == table.labels[code] && CodeOf(table, name) == Some(code))
      && (!(0 <= code < |table.labels|) ==> name == table.fallback && CodeOf(table, name) == None)
  {
    LabelRoundTrip(table, Get(format, view, 0).value);
  }

  /** As written, every enumerated reading yields the default label. */
  lemma EnumeratedAsWrittenIsDefault(key: Key, format: Format, table: Table, view: seq<Byte>)
    requires EnumeratedReadingAsWritten(key, format, table, view).Ok?
    ensures EnumeratedReadingAsWritten(key, format, table, view).value == map[key := Text(table.fallback)]
  {
    AsWrittenIsFallback(table, Get(format, view, 0).value);
  }

  /** body_sensor_location [1] is the chest, which the switch as written
      reports as "Unknown". */
  lemma BodySensorLocationCounterexample()
    ensures EnumeratedReading(Location, Uint8, BODY_SENSOR_LOCATION, [1]) == Ok(map[Location := Text("Chest")])
    ensures EnumeratedReadingAsWritten(Location, Uint8, BODY_SENSOR_LOCATION, [1]) == Ok(map[Location := Text("Unknown")])
  {
    Uint8Byte([1], 0);
  }

  // ---------------------------------------------------------------------
  // gap.device_name
  // ---------------------------------------------------------------------

  /** `String.fromCharCode` of each byte, in order. */
  function Latin1(bytes: seq<Byte>): (s: JsString)
    ensures |s| == |bytes|
  {
    seq(|bytes|, i requires 0 <= i < |bytes| => bytes[i] as char)
  }

  /** The decode loop, one character per byte. */
  method DecodeDeviceName(view: seq<Byte>) returns (name: JsString)
    ensures name == Latin1(view)
  {
    name := [];
    for i := 0 to |view|
      invariant name == Latin1(view[..i])
    {
      name := name + [view[i] as char];
    }
    assert view[..|view|] == view;
  }

  /** `charCodeAt(0)` of each character stored with `setUint8`, which keeps
      the code modulo 256. */
  function LowBytes(s: JsString): (b: seq<Byte>)
    ensures |b| == |s|
  {
    seq(|s|, i requires 0 <= i < |s| => s[i] as int % 256)
  }

  /** The encode loop over a fresh zero-filled buffer of `value.length` bytes. */
  method PrepDeviceName(value: JsString) returns (buffer: array<Byte>)
    ensures fresh(buffer)
    ensures buffer[..] == LowBytes(value)
  {
    buffer := new Byte[|value|](_ => 0);
    for i := 0 to |value|
      invariant buffer[..i] == LowBytes(value)[..i]
    {
      buffer[i] := value[i] as int % 256;
    }
  }

  /** A name whose characters all have codes below 256 survives encoding and
      decoding. */
  lemma DeviceNameRoundTrip(s: JsString)
    requires forall i | 0 <= i < |s| :: s[i] as int < 256
    ensures Latin1(LowBytes(s)) == s
  {
    var t := Latin1(LowBytes(s));
    forall i | 0 <= i < |s|
      ensures t[i] == s[i]
    {
      assert t[i] as int == s[i] as int;
    }
  }

  /** Any bytes survive decoding and encoding. */
  lemma DeviceNameBytesRoundTrip(b: seq<Byte>)
    ensures LowBytes(Latin1(b)) == b
  {
  }

  /** A character code of 256 or more loses its high bits: "Ā" is sent
      as the byte 0 and read back as "\0". */
  lemma DeviceNameWideCharacter()
    ensures LowBytes("Ā") == [0]
    ensures Latin1(LowBytes("Ā")) != "Ā"
  {
    assert Latin1([0])[0] == '\0';
  }

  // ---------------------------------------------------------------------
  // elevation
  // ---------------------------------------------------------------------

  /** ToInt32 of a value in the int32 range, as a 32-bit pattern. */
  function Int32Bits(x: int): bv32
    requires -0x8000_0000 <= x < 0x8000_0000
  {
    (if x < 0 then x + 0x1_0000_0000 else x) as bv32
  }

  /** The signed value of a 32-bit pattern. */
  function Int32Value(b: bv32): int {
    if (b as int) < 0x8000_0000 then b as int else b as int - 0x1_0000_0000
  }

  /** `parseValue` of elevation as written:
      `getInt8(0) << 16 | getInt8(1) << 8 | getInt8(2)` on int32 values. Bytes
      1 and 2 are sign-extended, so a byte of 0x80 or more sets all the bits
      above it. */
  function ElevationAsWritten(view: seq<Byte>): (r: Result<Record, DecodeError>) {
    match Get(Int8, view, 0)
    case Err(e) => Err(e)
    case Ok(b0) =>
      match Get(Int8, view, 1)
      case Err(e) => Err(e)
      case Ok(b1) =>
        match Get(Int8, view, 2)
        case Err(e) => Err(e)
        case Ok(b2) =>
          Ok(map[Elevation := Num(Int32Value((Int32Bits(b0) << 16) | (Int32Bits(b1) << 8) | Int32Bits(b2)))])
  }

  /** elevation as a signed 24-bit big-endian value: the high byte signed, the
      two low bytes unsigned. */
  function Elevation24(view: seq<Byte>): (r: Result<Record, DecodeError>) {
    match Get(Int8, view, 0)
    case Err(e) => Err(e)
    case Ok(b0) =>
      match Get(Uint8, view, 1)
      case Err(e) => Err(e)
      case Ok(b1) =>
        match Get(Uint8, view, 2)
        case Err(e) => Err(e)
        case Ok(b2) => Ok(map[Elevation := Num(b0 * 0x1_0000 + b1 * 0x100 + b2)])
  }

  /** The corrected elevation is the two's-complement value of the first
      three bytes, and fails exactly on views shorter than that. */
  lemma Elevation24Value(view: seq<Byte>)
    ensures Elevation24(view).Ok? <==> |view| >= 3
    ensures Elevation24(view).Err? ==> Elevation24(view).error == RangeError
    ensures |view| >= 3 ==>
      Elevation24(view) == Ok(map[Elevation := Num(ToSigned(FromBE(view[..3]), 3))])
  {
    if |view| >= 3 {
      var bytes := view[..3];
      assert bytes[..2][..1][..0] == [];
      assert bytes[..2][..1] == [view[0]];
      assert view[0..1] == [view[0]];
      Uint8Byte(view, 1);
      Uint8Byte(view, 2);
    }
  }

  /** Every signed 24-bit elevation is read back from its three bytes. */
  lemma Elevation24RoundTrip(x: int)
    requires -0x80_0000 <= x < 0x80_0000
    ensures Elevation24(ToBE(ToUnsigned(x, 3), 3)) == Ok(map[Elevation := Num(x)])
  {
    var u := ToUnsigned(x, 3);
    BERoundTrip(u, 3);
    Elevation24Value(ToBE(u, 3));
    assert ToBE(u, 3)[..3] == ToBE(u, 3);
  }

  /** As written, [0x00, 0x80, 0x00] (elevation 0x008000) reads as -32768. */
  lemma ElevationCounterexample()
    ensures ElevationAsWritten([0x00, 0x80, 0x00]) == Ok(map[Elevation := Num(-32768)])
    ensures Elevation24([0x00, 0x80, 0x00]) == Ok(map[Elevation := Num(32768)])
  {
    var view: seq<Byte> := [0x00, 0x80, 0x00];
    Int8Byte(view, 0);
    Int8Byte(view, 1);
    Int8Byte(view, 2);
    Uint8Byte(view, 1);
    Uint8Byte(view, 2);
    ElevationBits();
  }

  /** The int32 arithmetic of the counterexample: 0 << 16 | -128 << 8 | 0. */
  lemma ElevationBits()
    ensures Int32Value((Int32Bits(0) << 16) | (Int32Bits(-128) << 8) | Int32Bits(0)) == -32768
  {
    assert Int32Bits(-128) == 0xFFFF_FF80;
    assert (Int32Bits(0) << 16) | (Int32Bits(-128) << 8) | Int32Bits(0) == 0xFFFF_8000;
  }

  // ---------------------------------------------------------------------
  // weight_scale_feature
  // ---------------------------------------------------------------------

  /** The weight-resolution selector as written: `flags & 0x78 >> 3`, where
      `>>` binds tighter than `&`. */
  function WeightSelectorAsWritten(flags: int): (r: nat) {
    And(flags, 0x78 / 8)
  }

  /** The height-resolution selector as written: `flags & 0x380 >> 7`. */
  function HeightSelectorAsWritten(flags: int): (r: nat) {
    And(flags, 0x380 / 128)
  }

  /** Bits 3 to 6 of the flags: `(flags & 0x78) >> 3`. */
  function WeightSelector(flags: int): (r: nat) {
    And(flags, 0x78) / 8
  }

  /** Bits 7 to 9 of the flags: `(flags & 0x380) >> 7`. */
  function HeightSelector(flags: int): (r: nat) {
    And(flags, 0x380) / 128
  }

  /** The corrected weight selector is bits 3 to 6 of the flags. */
  lemma WeightSelectorBits(flags: int)
    ensures WeightSelector(flags) == (flags / 8) % 16
  {
    var y := flags / 2 / 2 / 2;
    AndEvenMask(flags, 0x3C);
    AndEvenMask(flags / 2, 0x1E);
    AndEvenMask(flags / 2 / 2, 0xF);
    AndLowBits(y);
    assert y == flags / 8;
  }

  /** The corrected height selector is bits 7 to 9 of the flags. */
  lemma HeightSelectorBits(flags: int)
    ensures HeightSelector(flags) == (flags / 128) % 8
  {
    var y := flags / 2 / 2 / 2 / 2;
    AndEvenMask(flags, 0x1C0);
    AndEvenMask(flags / 2, 0xE0);
    AndEvenMask(flags / 2 / 2, 0x70);
    AndEvenMask(flags / 2 / 2 / 2, 0x38);
    assert And(flags, 0x380) == 16 * And(y, 0x38);
    AndEvenMask(y, 0x1C);
    AndEvenMask(y / 2, 0xE);
    AndEvenMask(y / 2 / 2, 0x7);
    AndLowBits(y / 2 / 2 / 2);
    assert y / 2 / 2 / 2 == flags / 128;
  }

  /** As written the selectors are the low four and the low three bits. */
  lemma SelectorsAsWritten(flags: int)
    ensures WeightSelectorAsWritten(flags) == flags % 16
    ensures HeightSelectorAsWritten(flags) == flags % 8
  {
    AndLowBits(flags);
  }

  /** Flags whose bits 3 to 6 hold 1 (0x08, for one) announce a weight
      resolution of 0.5 kg; the selector as written reads 8 or more and finds
      no label. */
  lemma WeightSelectorCounterexample(flags: int)
    requires (flags / 8) % 16 == 1
    ensures WeightSelectorAsWritten(flags) >= 8
    ensures Label(WEIGHT_RESOLUTION, WeightSelectorAsWritten(flags)) == "Could not resolve"
    ensures Label(WEIGHT_RESOLUTION, (flags / 8) % 16) == "Resolution of 0.5 kg or 1 lb"
  {
    SelectorsAsWritten(flags);
    NibbleHighBit(flags);
  }

  /** `parseValue` of weight_scale_feature with the selectors and the switch
      given: three flags kept as numbers and two resolution labels, for the
      big-endian int32 flags. */
  function WeightScaleFeatureWith(view: seq<Byte>, asWritten: bool): (r: Result<Record, DecodeError>) {
    match Get(Int32(false), view, 0)
    case Err(e) => Err(e)
    case Ok(flags) =>
      var weight := if asWritten then LabelAsWritten(WEIGHT_RESOLUTION, WeightSelectorAsWritten(flags))
                    else Label(WEIGHT_RESOLUTION, WeightSelector(flags));
      var height := if asWritten then LabelAsWritten(HEIGHT_RESOLUTION, HeightSelectorAsWritten(flags))
                    else Label(HEIGHT_RESOLUTION, HeightSelector(flags));
      Ok(map[TimeStampSupported := Num(And(flags, 0x1)),
             MultipleSensorsSupported := Num(And(flags, 0x2)),
             BmiSupported := Num(And(flags, 0x4)),
             WeightMeasurementResolution := Text(weight),
             HeightMeasurementResolution := Text(height)])
  }

  function WeightScaleFeatureAsWritten(view: seq<Byte>): (r: Result<Record, DecodeError>) {
    WeightScaleFeatureWith(view, true)
  }

  function WeightScaleFeature(view: seq<Byte>): (r: Result<Record, DecodeError>) {
    WeightScaleFeatureWith(view, false)
  }

  /** The corrected decoder labels bits 3 to 6 and bits 7 to 9 of the flags,
      each code by its own label. */
  lemma WeightScaleFeatureResolutions(view: seq<Byte>)
    requires |view| >= 4
    ensures var flags := ToSigned(FromBE(view[..4]), 4);
      var r := WeightScaleFeature(view);
      && r.Ok?
      && r.value[WeightMeasurementResolution] == Text(Label(WEIGHT_RESOLUTION, (flags / 8) % 16))
      && r.value[HeightMeasurementResolution] == Text(Label(HEIGHT_RESOLUTION, (flags / 128) % 8))
  {
    var flags := Get(Int32(false), view, 0).value;
    assert view[0..4] == view[..4];
    WeightSelectorBits(flags);
    HeightSelectorBits(flags);
  }

  /** As written, both resolutions always read "Could not resolve". */
  lemma WeightScaleFeatureAsWrittenResolutions(view: seq<Byte>)
    requires WeightScaleFeatureAsWritten(view).Ok?
    ensures WeightScaleFeatureAsWritten(view).value[WeightMeasurementResolution] == Text("Could not resolve")
    ensures WeightScaleFeatureAsWritten(view).value[HeightMeasurementResolution] == Text("Could not resolve")
  {
    var flags := Get(Int32(false), view, 0).value;
    AsWrittenIsFallback(WEIGHT_RESOLUTION, WeightSelectorAsWritten(flags));
    AsWrittenIsFallback(HEIGHT_RESOLUTION, HeightSelectorAsWritten(flags));
  }

  // ---------------------------------------------------------------------
  // heart_rate_control_point
  // ---------------------------------------------------------------------

  predicate IsDigit(c: CodeUnit) {
    '0' <= c <= '9'
  }

  function Digit(c: CodeUnit): nat
    requires IsDigit(c)
  {
    c as int - '0' as int
  }

  /** The value of a string of decimal digits. */
  function DecimalValue(s: JsString): nat
    requires forall i | 0 <= i < |s| :: IsDigit(s[i])
  {
    if s == [] then 0 else 10 * DecimalValue(s[..|s| - 1]) + Digit(s[|s| - 1])
  }

  /** `setUint8(0, value)`: ToUint8 of ToNumber(value). A string of digits is
      its decimal value; any other string or a buffer is NaN, stored as 0. */
  function ControlPointByte(value: Input): (r: Byte) {
    match value
    case Number(n) => n % 256
    case Str(s) => if forall i | 0 <= i < |s| :: IsDigit(s[i]) then DecimalValue(s) % 256 else 0
    case Bytes(_) => 0
  }

  // ---------------------------------------------------------------------
  // The codec table's decoders and encoders
  // ---------------------------------------------------------------------

  /** The `parseValue` functions of the table. */
  datatype Decoder =
    | Fields(fields: seq<Field>)
    | Enumerated(key: Key, format: Format, table: Table)
    | CscFeatureFlags
    | DeviceNameText
    | GlucoseFeatureFlags
    | GlucoseMeasurementRecord
    | HeartRateMeasurementRecord
    | ElevationReading
    | WeightScaleFeatureFlags
    | CscMeasurementRecord
    | CyclingPowerMeasurementRecord
    | ScControlPointUndefined   // its body returns an undeclared `result`

  /** The `prepValue` functions of the table. */
  datatype Encoder =
    | DeviceNameBytes
    | ControlPointValue

  function Decode(d: Decoder, view: seq<Byte>): (r: Result<Record, DecodeError>) {
    match d
    case Fields(fields) => ReadFields(fields, view)
    case Enumerated(key, format, table) => EnumeratedReading(key, format, table, view)
    case CscFeatureFlags => CscFeature(view)
    case DeviceNameText => Ok(map[DeviceName := Text(Latin1(view))])
    case GlucoseFeatureFlags => GlucoseFeature(view)
    case GlucoseMeasurementRecord => Measurements.GlucoseMeasurement(view)
    case HeartRateMeasurementRecord => Measurements.HeartRateMeasurement(view)
    case ElevationReading => Elevation24(view)
    case WeightScaleFeatureFlags => WeightScaleFeature(view)
    case CscMeasurementRecord => Measurements.CscMeasurement(view)
    case CyclingPowerMeasurementRecord => Measurements.CyclingPowerMeasurement(view)
    case ScControlPointUndefined => Err(ReferenceError)
  }

  function Prep(e: Encoder, value: Input): (r: Result<seq<Byte>, DecodeError>) {
    match e
    case DeviceNameBytes => if value.Str? then Ok(LowBytes(value.s)) else Err(DecodeError.TypeError)
    case ControlPointValue => Ok([ControlPointByte(value)])
  }

  /** heart_rate_control_point always yields a one-byte buffer. */
  lemma ControlPointOneByte(value: Input)
    ensures Prep(ControlPointValue, value).Ok?
    ensures |Prep(ControlPointValue, value).value| == 1
    ensures value.Number? ==> Prep(ControlPointValue, value).value[0] == value.n % 256
  {
  }

  /** A decoder run step by step, with the loops of the device-name and the
      RR-interval decoders. It computes `Decode`, so for csc_feature,
      elevation, weight_scale_feature and the enumerated readings it runs the
      corrected decoders; their versions as written are the `AsWritten`
      members above. */
  method Parse(d: Decoder, view: seq<Byte>) returns (r: Result<Record, DecodeError>)
    ensures r == Decode(d, view)
  {
    match d {
      case DeviceNameText =>
        var name := DecodeDeviceName(view);
        r := Ok(map[DeviceName := Text(name)]);
      case HeartRateMeasurementRecord =>
        r := Measurements.ParseHeartRateMeasurement(view);
      case _ =>
        r := Decode(d, view);
    }
  }

  /** An encoder run as the source runs it, filling a fresh buffer. */
  method PrepValue(e: Encoder, value: Input) returns (r: Result<seq<Byte>, DecodeError>)
    ensures r == Prep(e, value)
  {
    match e {
      case DeviceNameBytes =>
        if value.Str? {
          var buffer := PrepDeviceName(value.s);
          r := Ok(buffer[..]);
        } else {
          r := Err(DecodeError.TypeError);
        }
      case ControlPointValue =>
        var buffer := new Byte[1](_ => 0);
        buffer[0] := ControlPointByte(value);
        assert buffer[..] == [buffer[0]];
        r := Ok(buffer[..]);
    }
  }
}
