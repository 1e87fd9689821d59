/** The flag-gated measurement decoders: a leading flags byte says which
    optional fields follow, and a running index walks over them. Each decoder
    is paired with an encoder that lays a sample out as the Bluetooth SIG
    format does, and a round-trip lemma ties the two together. */
module Measurements {
  import opened Values
  import opened ByteView
  import opened Bits

  // ---------------------------------------------------------------------
  // heart_rate_measurement (Heart Rate Service, section 3.1)
  // ---------------------------------------------------------------------

  /** The RR intervals: little-endian 16-bit values read from `index` on while
      `index + 1 < byteLength`, so a trailing odd byte is ignored. */
  function RrFrom(view: seq<Byte>, index: nat): (r: seq<int>)
    ensures |r| == if index <= |view| then (|view| - index) / 2 else 0
    decreases |view| - index
  {
    if index + 1 < |view| then [Get(Uint16(true), view, index).value] + RrFrom(view, index + 2)
    else []
  }

  /** Entry i of the RR list is the little-endian u16 at `index + 2i`. */
  lemma {:induction false} RrFromEntries(view: seq<Byte>, index: nat, i: nat)
    requires i < |RrFrom(view, index)|
    ensures Get(Uint16(true), view, index + 2 * i) == Ok(RrFrom(view, index)[i])
    decreases i
  {
    if i > 0 {
      RrFromEntries(view, index + 2, i - 1);
    }
  }

  /** The loop that collects the RR intervals. */
  method ReadRrIntervals(view: seq<Byte>, start: nat) returns (rr: seq<int>)
    ensures rr == RrFrom(view, start)
  {
    rr := [];
    var index := start;
    while index + 1 < |view|
      invariant rr + RrFrom(view, index) == RrFrom(view, start)
      decreases |view| - index
    {
      var v := Get(Uint16(true), view, index);
      rr := rr + [v.value];
      index := index + 2;
    }
  }

  /** Adds the RR intervals when flag 0x10 is set. */
  function WithRrIntervals(m: Record, flags: int, view: seq<Byte>, index: nat): (r: Record) {
    if Has(flags, 0x10) then m[RrIntervals := Nums(RrFrom(view, index))] else m
  }

  /** `parseValue` of heart_rate_measurement. */
  function HeartRateMeasurement(view: seq<Byte>): (r: Result<Record, DecodeError>) {
    match Get(Uint8, view, 0)
    case Err(e) => Err(e)
    case Ok(flags) =>
      var rateFormat := if Has(flags, 0x1) then Uint16(true) else Uint8;
      match Get(rateFormat, view, 1)
      case Err(e) => Err(e)
      case Ok(rate) =>
        var index := 1 + rateFormat.Width();
        var m := map[HeartRate := Num(rate)];
        var m := if Has(flags, 0x4) then m[ContactDetected := Bool(Has(flags, 0x2))] else m;
        if Has(flags, 0x8) then
          match Get(Uint16(true), view, index)
          case Err(e) => Err(e)
          case Ok(energy) => Ok(WithRrIntervals(m[EnergyExpended := Num(energy)], flags, view, index + 2))
        else
          Ok(WithRrIntervals(m, flags, view, index))
  }

  /** The decoder as the source runs it, with its loop. */
  method ParseHeartRateMeasurement(view: seq<Byte>) returns (r: Result<Record, DecodeError>)
    ensures r == HeartRateMeasurement(view)
  {
    var flagsRead := Get(Uint8, view, 0);
    if flagsRead.Err? {
      return Err(flagsRead.error);
    }
    var flags := flagsRead.value;
    var rateFormat := if Has(flags, 0x1) then Uint16(true) else Uint8;
    var rate := Get(rateFormat, view, 1);
    if rate.Err? {
      return Err(rate.error);
    }
    var index := 1 + rateFormat.Width();
    var m := map[HeartRate := Num(rate.value)];
    if Has(flags, 0x4) {
      m := m[ContactDetected := Bool(Has(flags, 0x2))];
    }
    if Has(flags, 0x8) {
      var energy := Get(Uint16(true), view, index);
      if energy.Err? {
        return Err(energy.error);
      }
      m := m[EnergyExpended := Num(energy.value)];
      index := index + 2;
    }
    if Has(flags, 0x10) {
      var rr := ReadRrIntervals(view, index);
      m := m[RrIntervals := Nums(rr)];
    }
    return Ok(m);
  }

  /** The start of the field after the heart rate: 3 when flag 0x1 selects
      a 16-bit rate, 2 otherwise. */
  function RateEnd(flags: int): nat {
    if Has(flags, 0x1) then 3 else 2
  }

  /** The start of the RR intervals: after the energy field when flag 0x8 is set. */
  function RrStart(flags: int): nat {
    if Has(flags, 0x8) then RateEnd(flags) + 2 else RateEnd(flags)
  }

  /** A heart_rate_measurement decodes exactly when its view holds every
      fixed field its flags announce; otherwise a read runs past the end. */
  lemma HeartRateMeasurementLength(view: seq<Byte>)
    ensures var r := HeartRateMeasurement(view);
      && (r.Ok? <==> |view| > 0 && RrStart(view[0]) <= |view|)
      && (r.Err? ==> r.error == RangeError)
  {
    if |view| > 0 {
      Uint8Byte(view, 0);
    }
  }

  /** The heart rate is a little-endian u16 at offset 1 when flag 0x1 is set
      and the byte at offset 1 otherwise; the contact status is present
      exactly when flag 0x4 (sensor present) is set, and is then flag 0x2. */
  lemma HeartRateMeasurementHeader(view: seq<Byte>)
    requires HeartRateMeasurement(view).Ok?
    ensures var flags := view[0];
      var m := HeartRateMeasurement(view).value;
      && m.Keys <= {HeartRate, ContactDetected, EnergyExpended, RrIntervals}
      && m[HeartRate] == Num(if Has(flags, 0x1) then view[1] as int + 256 * view[2] as int else view[1])
      && (ContactDetected in m <==> Has(flags, 0x4))
      && (ContactDetected in m ==> m[ContactDetected] == Bool(Has(flags, 0x2)))
  {
    Uint8Byte(view, 0);
    if Has(view[0], 0x1) {
      Uint16LEBytes(view, 1);
    } else {
      Uint8Byte(view, 1);
    }
  }

  /** The energy expended is present exactly when flag 0x8 is set, and is then
      the little-endian u16 right after the heart rate. */
  lemma HeartRateMeasurementEnergy(view: seq<Byte>)
    requires HeartRateMeasurement(view).Ok?
    ensures var m := HeartRateMeasurement(view).value;
      && (EnergyExpended in m <==> Has(view[0], 0x8))
      && (EnergyExpended in m ==>
            m[EnergyExpended] == Num(view[RateEnd(view[0])] as int + 256 * view[RateEnd(view[0]) + 1] as int))
  {
    Uint8Byte(view, 0);
    if Has(view[0], 0x8) {
      Uint16LEBytes(view, RateEnd(view[0]));
    }
  }

  /** The RR intervals are present exactly when flag 0x10 is set, and are read
      from the offset after the energy field. */
  lemma HeartRateMeasurementRr(view: seq<Byte>)
    requires HeartRateMeasurement(view).Ok?
    ensures var m := HeartRateMeasurement(view).value;
      && (RrIntervals in m <==> Has(view[0], 0x10))
      && (RrIntervals in m ==> m[RrIntervals] == Nums(RrFrom(view, RrStart(view[0]))))
  {
    HeartRateMeasurementLength(view);
    Uint8Byte(view, 0);
    var flags := view[0];
    var rateFormat := if Has(flags, 0x1) then Uint16(true) else Uint8;
    var m0 := map[HeartRate := Num(Get(rateFormat, view, 1).value)];
    var m1 := if Has(flags, 0x4) then m0[ContactDetected := Bool(Has(flags, 0x2))] else m0;
    var m2 := if Has(flags, 0x8) then m1[EnergyExpended := Num(Get(Uint16(true), view, RateEnd(flags)).value)] else m1;
    assert RrIntervals !in m2;
    assert HeartRateMeasurement(view) == Ok(WithRrIntervals(m2, flags, view, RrStart(flags)));
  }

  /** The RR list holds max(0, (byteLength - start) div 2) values, each the
      little-endian u16 at start + 2i. */
  lemma RrIntervalsShape(view: seq<Byte>, start: nat, i: nat)
    requires start + 2 * i + 1 < |view|
    ensures |RrFrom(view, start)| == (if |view| - start < 0 then 0 else (|view| - start) / 2)
    ensures i < |RrFrom(view, start)|
    ensures RrFrom(view, start)[i] == view[start + 2 * i] as int + 256 * view[start + 2 * i + 1] as int
  {
    RrFromEntries(view, start, i);
    Uint16LEBytes(view, start + 2 * i);
  }

  /** Flags 0x16 (contact sensor present and contact detected, RR intervals
      present), an 8-bit rate of 0x4B and one RR interval 0x0100. */
  lemma HeartRateMeasurementExample()
    ensures HeartRateMeasurement([0x16, 0x4B, 0x00, 0x01])
         == Ok(map[HeartRate := Num(75), ContactDetected := Bool(true), RrIntervals := Nums([256])])
  {
    var s := HeartRateSample(false, 75, Some(true), None, Some([256]));
    assert EncodeHeartRateMeasurement(s) == [0x16, 0x4B, 0x00, 0x01];
    HeartRateRoundTrip(s);
  }

  /** A heart-rate sample as a sensor sends it. */
  datatype HeartRateSample = HeartRateSample(
    wide: bool,                 // heart rate sent as u16 rather than u8
    heartRate: nat,
    contact: Option<bool>,      // None: no contact sensor
    energy: Option<nat>,
    rrIntervals: Option<seq<nat>>)
  {
    predicate Fits() {
      && heartRate < (if wide then 0x1_0000 else 0x100)
      && (energy.Some? ==> energy.value < 0x1_0000)
      && (rrIntervals.Some? ==> forall i | 0 <= i < |rrIntervals.value| :: rrIntervals.value[i] < 0x1_0000)
    }

    function Flags(): nat {
      Flag(wide) + 2 * Flag(contact == Some(true)) + 4 * Flag(contact.Some?)
        + 8 * Flag(energy.Some?) + 16 * Flag(rrIntervals.Some?)
    }

    /** The record a decoder should produce for this sample. */
    function Record(): Record {
      var m := map[HeartRate := Num(heartRate)];
      var m := if contact.Some? then m[ContactDetected := Bool(contact.value)] else m;
      var m := if energy.Some? then m[EnergyExpended := Num(energy.value)] else m;
      if rrIntervals.Some? then m[RrIntervals := Nums(rrIntervals.value)] else m
    }
  }

  /** Values laid out as consecutive little-endian u16 fields. */
  function PackU16(xs: seq<nat>): (r: seq<Byte>)
    requires forall i | 0 <= i < |xs| :: xs[i] < 0x1_0000
    ensures |r| == 2 * |xs|
  {
    if xs == [] then [] else Encode(Uint16(true), xs[0]) + PackU16(xs[1..])
  }

  /** The encoder the decoder inverts. */
  function EncodeHeartRateMeasurement(s: HeartRateSample): seq<Byte>
    requires s.Fits()
  {
    [s.Flags()]
      + Encode(if s.wide then Uint16(true) else Uint8, s.heartRate)
      + (if s.energy.Some? then Encode(Uint16(true), s.energy.value) else [])
      + (if s.rrIntervals.Some? then PackU16(s.rrIntervals.value) else [])
  }

  /** The RR loop reads back every packed value and stops at the end. */
  lemma {:induction false} RrFromPacked(prefix: seq<Byte>, xs: seq<nat>)
    requires forall i | 0 <= i < |xs| :: xs[i] < 0x1_0000
    ensures RrFrom(prefix + PackU16(xs), |prefix|) == xs
    decreases |xs|
  {
    if xs != [] {
      var e, rest := Encode(Uint16(true), xs[0]), PackU16(xs[1..]);
      var view := prefix + PackU16(xs);
      assert view == prefix + e + rest;
      GetAt(Uint16(true), xs[0], prefix, rest);
      assert RrFrom(view, |prefix|) == [xs[0]] + RrFrom(view, |prefix| + 2);
      assert view == (prefix + e) + rest;
      RrFromPacked(prefix + e, xs[1..]);
      assert xs == [xs[0]] + xs[1..];
    }
  }

  /** The parts of an encoded sample: flags and heart rate, energy, RR list. */
  function HeartRateHead(s: HeartRateSample): seq<Byte>
    requires s.Fits()
  {
    [s.Flags()] + Encode(if s.wide then Uint16(true) else Uint8, s.heartRate)
  }

  function HeartRateEnergy(s: HeartRateSample): seq<Byte>
    requires s.Fits()
  {
    if s.energy.Some? then Encode(Uint16(true), s.energy.value) else []
  }

  function HeartRateRr(s: HeartRateSample): seq<Byte>
    requires s.Fits()
  {
    if s.rrIntervals.Some? then PackU16(s.rrIntervals.value) else []
  }

  lemma HeartRateParts(s: HeartRateSample)
    requires s.Fits()
    ensures EncodeHeartRateMeasurement(s) == HeartRateHead(s) + HeartRateEnergy(s) + HeartRateRr(s)
    ensures |HeartRateHead(s)| == if s.wide then 3 else 2
  {
  }

  /** The flags and the heart rate sit where the decoder reads them. */
  lemma HeartRateHeadReads(s: HeartRateSample)
    requires s.Fits()
    ensures var view := EncodeHeartRateMeasurement(s);
      && Get(Uint8, view, 0) == Ok(s.Flags())
      && Get(if s.wide then Uint16(true) else Uint8, view, 1) == Ok(s.heartRate)
  {
    var view := EncodeHeartRateMeasurement(s);
    var rateFormat := if s.wide then Uint16(true) else Uint8;
    var rest := HeartRateEnergy(s) + HeartRateRr(s);
    HeartRateParts(s);
    assert view == [s.Flags()] + Encode(rateFormat, s.heartRate) + rest;
    Uint8Byte(view, 0);
    GetAt(rateFormat, s.heartRate, [s.Flags()], rest);
  }

  /** The energy and the RR list sit where the decoder reads them. */
  lemma HeartRateTailReads(s: HeartRateSample)
    requires s.Fits()
    ensures var view := EncodeHeartRateMeasurement(s);
      var index := |HeartRateHead(s)|;
      && (s.energy.Some? ==> Get(Uint16(true), view, index) == Ok(s.energy.value))
      && (s.rrIntervals.Some? ==>
            RrFrom(view, index + |HeartRateEnergy(s)|) == s.rrIntervals.value)
  {
    var head, energy, rr := HeartRateHead(s), HeartRateEnergy(s), HeartRateRr(s);
    HeartRateParts(s);
    if s.energy.Some? {
      GetAt(Uint16(true), s.energy.value, head, rr);
    }
    if s.rrIntervals.Some? {
      RrFromPacked(head + energy, s.rrIntervals.value);
      assert head + energy + rr == (head + energy) + PackU16(s.rrIntervals.value);
    }
  }

  /** Decoding an encoded sample gives back exactly the sample's fields. */
  lemma HeartRateRoundTrip(s: HeartRateSample)
    requires s.Fits()
    ensures HeartRateMeasurement(EncodeHeartRateMeasurement(s)) == Ok(s.Record())
  {
    HeartRateParts(s);
    HeartRateHeadReads(s);
    HeartRateTailReads(s);
    HeartRateFlagBits(s);
  }

  /** Each flag of an encoded sample announces the field it stands for. */
  lemma HeartRateFlagBits(s: HeartRateSample)
    ensures Has(s.Flags(), 0x1) == s.wide
    ensures Has(s.Flags(), 0x2) == (s.contact == Some(true))
    ensures Has(s.Flags(), 0x4) == s.contact.Some?
    ensures Has(s.Flags(), 0x8) == s.energy.Some?
    ensures Has(s.Flags(), 0x10) == s.rrIntervals.Some?
  {
    FlagsHas(s.wide, s.contact == Some(true), s.contact.Some?, s.energy.Some?, s.rrIntervals.Some?);
  }

  // ---------------------------------------------------------------------
  // csc_measurement (Cycling Speed and Cadence Service, section 3.1)
  // ---------------------------------------------------------------------

  /** Adds the crank revolution data at `index` when flag 0x2 is set. */
  function WithCrankData(m: Record, flags: int, view: seq<Byte>, index: nat): (r: Result<Record, DecodeError>) {
    if Has(flags, 0x2) then
      match Get(Uint16(true), view, index)
      case Err(e) => Err(e)
      case Ok(revolutions) =>
        match Get(Uint16(true), view, index + 2)
        case Err(e) => Err(e)
        case Ok(time) =>
          Ok(m[CumulativeCrankRevolutions := Num(revolutions)][LastCrankEventTimePer1024s := Num(time)])
    else Ok(m)
  }

  /** `parseValue` of csc_measurement: with flag 0x1 a u32 and a u16 of wheel
      data, then with flag 0x2 two u16 of crank data, all little-endian. */
  function CscMeasurement(view: seq<Byte>): (r: Result<Record, DecodeError>) {
    match Get(Uint8, view, 0)
    case Err(e) => Err(e)
    case Ok(flags) =>
      if Has(flags, 0x1) then
        match Get(Uint32(true), view, 1)
        case Err(e) => Err(e)
        case Ok(revolutions) =>
          match Get(Uint16(true), view, 5)
          case Err(e) => Err(e)
          case Ok(time) =>
            WithCrankData(map[CumulativeWheelRevolutions := Num(revolutions),
                              LastWheelEventTimePer1024s := Num(time)], flags, view, 7)
      else WithCrankData(map[], flags, view, 1)
  }

  /** Where the crank data starts: after 6 bytes of wheel data when flag 0x1 is set. */
  function CrankStart(flags: int): nat {
    if Has(flags, 0x1) then 7 else 1
  }

  /** The length a csc_measurement needs for the fields its flags announce. */
  function CscLength(flags: int): nat {
    CrankStart(flags) + (if Has(flags, 0x2) then 4 else 0)
  }

  /** A csc_measurement decodes exactly when the view holds every field its
      flags announce; otherwise a read runs past the end. */
  lemma CscMeasurementLength(view: seq<Byte>)
    ensures var r := CscMeasurement(view);
      && (r.Ok? <==> |view| > 0 && CscLength(view[0]) <= |view|)
      && (r.Err? ==> r.error == RangeError)
  {
    if |view| > 0 {
      Uint8Byte(view, 0);
    }
  }

  /** Flag 0x1 brings the cumulative wheel revolutions (u32 LE at 1) and the
      last wheel event time (u16 LE at 5); flag 0x2 brings the cumulative
      crank revolutions and the last crank event time (u16 LE each) right
      after; nothing else is in the result. */
  lemma CscMeasurementFields(view: seq<Byte>)
    requires CscMeasurement(view).Ok?
    ensures var flags := view[0];
      var m := CscMeasurement(view).value;
      var c := CrankStart(flags);
      && m.Keys <= {CumulativeWheelRevolutions, LastWheelEventTimePer1024s,
                    CumulativeCrankRevolutions, LastCrankEventTimePer1024s}
      && (CumulativeWheelRevolutions in m <==> Has(flags, 0x1))
      && (LastWheelEventTimePer1024s in m <==> Has(flags, 0x1))
      && (Has(flags, 0x1) ==>
            && m[CumulativeWheelRevolutions] == Num(FromLE(view[1..5]))
            && m[LastWheelEventTimePer1024s] == Num(view[5] as int + 256 * view[6] as int))
      && (CumulativeCrankRevolutions in m <==> Has(flags, 0x2))
      && (LastCrankEventTimePer1024s in m <==> Has(flags, 0x2))
      && (Has(flags, 0x2) ==>
            && m[CumulativeCrankRevolutions] == Num(view[c] as int + 256 * view[c + 1] as int)
            && m[LastCrankEventTimePer1024s] == Num(view[c + 2] as int + 256 * view[c + 3] as int))
  {
    Uint8Byte(view, 0);
    var flags := view[0];
    var c := CrankStart(flags);
    if Has(flags, 0x1) {
      Uint16LEBytes(view, 5);
    }
    if Has(flags, 0x2) {
      Uint16LEBytes(view, c);
      Uint16LEBytes(view, c + 2);
    }
  }

  /** Revolution data: a cumulative count and the time of the last event in
      1/1024 s. */
  datatype RevolutionData = RevolutionData(cumulative: nat, lastEventTime: nat)

  /** A speed-and-cadence sample as a sensor sends it. */
  datatype CscSample = CscSample(wheel: Option<RevolutionData>, crank: Option<RevolutionData>)
  {
    predicate Fits() {
      && (wheel.Some? ==> wheel.value.cumulative < 0x1_0000_0000 && wheel.value.lastEventTime < 0x1_0000)
      && (crank.Some? ==> crank.value.cumulative < 0x1_0000 && crank.value.lastEventTime < 0x1_0000)
    }

    function Flags(): nat {
      Flag(wheel.Some?) + 2 * Flag(crank.Some?)
    }

    /** The record a decoder should produce for this sample. */
    function Record(): Record {
      var m: Record := if wheel.Some? then
        map[CumulativeWheelRevolutions := Num(wheel.value.cumulative),
            LastWheelEventTimePer1024s := Num(wheel.value.lastEventTime)]
      else map[];
      if crank.Some? then
        m[CumulativeCrankRevolutions := Num(crank.value.cumulative)]
         [LastCrankEventTimePer1024s := Num(crank.value.lastEventTime)]
      else m
    }
  }

  function CscWheelBytes(s: CscSample): seq<Byte>
    requires s.Fits()
  {
    if s.wheel.Some? then
      Encode(Uint32(true), s.wheel.value.cumulative) + Encode(Uint16(true), s.wheel.value.lastEventTime)
    else []
  }

  function CscCrankBytes(s: CscSample): seq<Byte>
    requires s.Fits()
  {
    if s.crank.Some? then
      Encode(Uint16(true), s.crank.value.cumulative) + Encode(Uint16(true), s.crank.value.lastEventTime)
    else []
  }

  /** The encoder the decoder inverts. */
  function EncodeCscMeasurement(s: CscSample): seq<Byte>
    requires s.Fits()
  {
    [s.Flags()] + CscWheelBytes(s) + CscCrankBytes(s)
  }

  /** The flags sit where the decoder reads them. */
  lemma CscFlagsRead(s: CscSample)
    requires s.Fits()
    ensures Get(Uint8, EncodeCscMeasurement(s), 0) == Ok(s.Flags())
  {
    var view := EncodeCscMeasurement(s);
    assert view[0] == s.Flags();
    Uint8Byte(view, 0);
  }

  /** The wheel data sits where the decoder reads it. */
  lemma CscWheelReads(s: CscSample)
    requires s.Fits()
    ensures var view := EncodeCscMeasurement(s);
      s.wheel.Some? ==>
        && Get(Uint32(true), view, 1) == Ok(s.wheel.value.cumulative)
        && Get(Uint16(true), view, 5) == Ok(s.wheel.value.lastEventTime)
  {
    if s.wheel.Some? {
      var view := EncodeCscMeasurement(s);
      var w, crank := s.wheel.value, CscCrankBytes(s);
      var e32, e16 := Encode(Uint32(true), w.cumulative), Encode(Uint16(true), w.lastEventTime);
      assert view == [s.Flags()] + e32 + e16 + crank;
      GetAt(Uint32(true), w.cumulative, [s.Flags()], e16 + crank);
      assert [s.Flags()] + e32 + (e16 + crank) == view;
      GetAt(Uint16(true), w.lastEventTime, [s.Flags()] + e32, crank);
    }
  }

  /** The crank data sits where the decoder reads it. */
  lemma CscCrankReads(s: CscSample)
    requires s.Fits()
    ensures var view := EncodeCscMeasurement(s);
      var c := 1 + |CscWheelBytes(s)|;
      s.crank.Some? ==>
        && Get(Uint16(true), view, c) == Ok(s.crank.value.cumulative)
        && Get(Uint16(true), view, c + 2) == Ok(s.crank.value.lastEventTime)
  {
    var view := EncodeCscMeasurement(s);
    var wheel := CscWheelBytes(s);
    if s.crank.Some? {
      var k := s.crank.value;
      var e1, e2 := Encode(Uint16(true), k.cumulative), Encode(Uint16(true), k.lastEventTime);
      GetAt(Uint16(true), k.cumulative, [s.Flags()] + wheel, e2);
      assert [s.Flags()] + wheel + e1 + e2 == view;
      GetAt(Uint16(true), k.lastEventTime, [s.Flags()] + wheel + e1, []);
      assert [s.Flags()] + wheel + e1 + e2 + [] == view;
    }
  }

  /** Decoding an encoded sample gives back exactly the sample's fields. */
  lemma CscRoundTrip(s: CscSample)
    requires s.Fits()
    ensures CscMeasurement(EncodeCscMeasurement(s)) == Ok(s.Record())
  {
    CscFlagsRead(s);
    CscWheelReads(s);
    CscCrankReads(s);
    CscFlagBits(s);
  }

  /** Each flag of an encoded sample announces the data it stands for. */
  lemma CscFlagBits(s: CscSample)
    ensures Has(s.Flags(), 0x1) == s.wheel.Some?
    ensures Has(s.Flags(), 0x2) == s.crank.Some?
  {
    FlagsHas(s.wheel.Some?, s.crank.Some?, false, false, false);
  }

  // ---------------------------------------------------------------------
  // glucose_measurement
  // ---------------------------------------------------------------------

  /** Adds the glucose concentration at `index` when flag 0x2 is set, under
      the molPerL key when flag 0x4 is set and the kgPerL key otherwise. */
  function WithConcentration(m: Record, flags: int, view: seq<Byte>, index: nat): (r: Result<Record, DecodeError>) {
    if Has(flags, 0x2) then
      match Get(Int16(true), view, index)
      case Err(e) => Err(e)
      case Ok(c) =>
        Ok(m[(if Has(flags, 0x4) then GlucoseConcentraitonMolPerL else GlucoseConcentraitonKgPerL) := Num(c)])
    else Ok(m)
  }

  /** `parseValue` of glucose_measurement: with flag 0x1 a signed 16-bit time
      offset at 1, then with flag 0x2 a signed 16-bit concentration, both
      little-endian. Flags 0x8 and 0x10 are read but not used. */
  function GlucoseMeasurement(view: seq<Byte>): (r: Result<Record, DecodeError>) {
    match Get(Uint8, view, 0)
    case Err(e) => Err(e)
    case Ok(flags) =>
      if Has(flags, 0x1) then
        match Get(Int16(true), view, 1)
        case Err(e) => Err(e)
        case Ok(offset) => WithConcentration(map[TimeOffset := Num(offset)], flags, view, 3)
      else WithConcentration(map[], flags, view, 1)
  }

  /** Where the concentration starts: after the time offset when flag 0x1 is set. */
  function ConcentrationStart(flags: int): nat {
    if Has(flags, 0x1) then 3 else 1
  }

  /** A glucose_measurement decodes exactly when the view holds every field
      its flags announce; otherwise a read runs past the end. */
  lemma GlucoseMeasurementLength(view: seq<Byte>)
    ensures var r := GlucoseMeasurement(view);
      && (r.Ok? <==> |view| > 0 && ConcentrationStart(view[0]) + (if Has(view[0], 0x2) then 2 else 0) <= |view|)
      && (r.Err? ==> r.error == RangeError)
  {
    if |view| > 0 {
      Uint8Byte(view, 0);
    }
  }

  /** The time offset is present exactly when flag 0x1 is set and is the
      signed little-endian 16-bit value at 1; a concentration key is present
      exactly when flag 0x2 is set, the molPerL one when flag 0x4 is also set
      and the kgPerL one otherwise, never both. */
  lemma GlucoseMeasurementFields(view: seq<Byte>)
    requires GlucoseMeasurement(view).Ok?
    ensures var flags := view[0];
      var m := GlucoseMeasurement(view).value;
      var c := ConcentrationStart(flags);
      && m.Keys <= {TimeOffset, GlucoseConcentraitonMolPerL, GlucoseConcentraitonKgPerL}
      && (TimeOffset in m <==> Has(flags, 0x1))
      && (Has(flags, 0x1) ==> m[TimeOffset] == Num(ToSigned(view[1] as int + 256 * view[2] as int, 2)))
      && (GlucoseConcentraitonMolPerL in m <==> Has(flags, 0x2) && Has(flags, 0x4))
      && (GlucoseConcentraitonKgPerL in m <==> Has(flags, 0x2) && !Has(flags, 0x4))
      && (Has(flags, 0x2) ==>
            m[if Has(flags, 0x4) then GlucoseConcentraitonMolPerL else GlucoseConcentraitonKgPerL]
              == Num(ToSigned(view[c] as int + 256 * view[c + 1] as int, 2)))
  {
    Uint8Byte(view, 0);
    var flags := view[0];
    var c := ConcentrationStart(flags);
    if Has(flags, 0x1) {
      Uint16LEBytes(view, 1);
    }
    if Has(flags, 0x2) {
      Uint16LEBytes(view, c);
    }
  }

  /** A concentration and the unit flag that names it. */
  datatype Concentration = Concentration(molPerL: bool, value: int)

  /** A glucose sample as a meter sends it. */
  datatype GlucoseSample = GlucoseSample(timeOffset: Option<int>, concentration: Option<Concentration>)
  {
    predicate Fits() {
      && (timeOffset.Some? ==> -0x8000 <= timeOffset.value < 0x8000)
      && (concentration.Some? ==> -0x8000 <= concentration.value.value < 0x8000)
    }

    function Flags(): nat {
      Flag(timeOffset.Some?) + 2 * Flag(concentration.Some?)
        + 4 * Flag(concentration.Some? && concentration.value.molPerL)
    }

    /** The record a decoder should produce for this sample. */
    function Record(): Record {
      var m: Record := if timeOffset.Some? then map[TimeOffset := Num(timeOffset.value)] else map[];
      if concentration.Some? then
        var key := if concentration.value.molPerL then GlucoseConcentraitonMolPerL else GlucoseConcentraitonKgPerL;
        m[key := Num(concentration.value.value)]
      else m
    }
  }

  function GlucoseTimeBytes(s: GlucoseSample): seq<Byte>
    requires s.Fits()
  {
    if s.timeOffset.Some? then Encode(Int16(true), s.timeOffset.value) else []
  }

  function GlucoseConcentrationBytes(s: GlucoseSample): seq<Byte>
    requires s.Fits()
  {
    if s.concentration.Some? then Encode(Int16(true), s.concentration.value.value) else []
  }

  /** The encoder the decoder inverts. */
  function EncodeGlucoseMeasurement(s: GlucoseSample): seq<Byte>
    requires s.Fits()
  {
    [s.Flags()] + GlucoseTimeBytes(s) + GlucoseConcentrationBytes(s)
  }

  /** The flags sit where the decoder reads them. */
  lemma GlucoseFlagsRead(s: GlucoseSample)
    requires s.Fits()
    ensures Get(Uint8, EncodeGlucoseMeasurement(s), 0) == Ok(s.Flags())
  {
    var view := EncodeGlucoseMeasurement(s);
    assert view[0] == s.Flags();
    Uint8Byte(view, 0);
  }

  /** The time offset and the concentration sit where the decoder reads them. */
  lemma GlucoseReads(s: GlucoseSample)
    requires s.Fits()
    ensures var view := EncodeGlucoseMeasurement(s);
      && (s.timeOffset.Some? ==> Get(Int16(true), view, 1) == Ok(s.timeOffset.value))
      && (s.concentration.Some? ==>
            Get(Int16(true), view, 1 + |GlucoseTimeBytes(s)|) == Ok(s.concentration.value.value))
  {
    var view := EncodeGlucoseMeasurement(s);
    var time, conc := GlucoseTimeBytes(s), GlucoseConcentrationBytes(s);
    if s.timeOffset.Some? {
      GetAt(Int16(true), s.timeOffset.value, [s.Flags()], conc);
    }
    if s.concentration.Some? {
      GetAt(Int16(true), s.concentration.value.value, [s.Flags()] + time, []);
      assert [s.Flags()] + time + conc + [] == view;
    }
  }

  /** Decoding an encoded sample gives back exactly the sample's fields. */
  lemma GlucoseRoundTrip(s: GlucoseSample)
    requires s.Fits()
    ensures GlucoseMeasurement(EncodeGlucoseMeasurement(s)) == Ok(s.Record())
  {
    GlucoseFlagsRead(s);
    GlucoseReads(s);
    GlucoseFlagBits(s);
  }

  /** Each flag of an encoded sample announces the field it stands for. */
  lemma GlucoseFlagBits(s: GlucoseSample)
    ensures Has(s.Flags(), 0x1) == s.timeOffset.Some?
    ensures Has(s.Flags(), 0x2) == s.concentration.Some?
    ensures Has(s.Flags(), 0x4) == (s.concentration.Some? && s.concentration.value.molPerL)
  {
    FlagsHas(s.timeOffset.Some?, s.concentration.Some?, s.concentration.Some? && s.concentration.value.molPerL,
             false, false);
  }

  // ---------------------------------------------------------------------
  // cycling_power_measurement (dist/build.js:1004-1084, as written)
  // ---------------------------------------------------------------------

  /** Adds `key`, read with format `f` at `index`, when `present`. */
  function WithOptionalReading(m: Record, present: bool, key: Key, f: Format, view: seq<Byte>, index: nat)
    : (r: Result<Record, DecodeError>)
  {
    if !present then Ok(m)
    else
      match Get(f, view, index)
      case Err(e) => Err(e)
      case Ok(x) => Ok(m[key := Num(x)])
  }

  /** The keys of the fields every `flags & 0x12` test announces. */
  const TRAILING_KEYS: set<Key> := {
    CumulativeCrankRevolutions, LastCrankEventTimePer1024s,
    MaximumForceMagnitude, MinimumForceMagnitude, MaximumTorqueMagnitude, MinimumTorqueMagnitude,
    TopDeadSpotAngle, BottomDeadSpotAngle, AccumulatedEnergy}

  /** Those fields, added to `m` in source order from `index` on: the crank
      revolution data (u16 little-endian), the extreme force and torque
      magnitudes (sint16 big-endian), the dead spot angles and the
      accumulated energy (u16 big-endian); the extreme angles block reads
      nothing. All nine are two bytes wide, so one of the reads runs past the
      end, and throws a RangeError, exactly when the eighteen bytes are not
      all in the view. */
  function WithTrailingFields(m: Record, view: seq<Byte>, index: nat): (r: Result<Record, DecodeError>) {
    if |view| < index + 18 then Err(RangeError)
    else
      Ok(m[CumulativeCrankRevolutions := Num(Get(Uint16(true), view, index).value)]
          [LastCrankEventTimePer1024s := Num(Get(Uint16(true), view, index + 2).value)]
          [MaximumForceMagnitude := Num(Get(Int16(false), view, index + 4).value)]
          [MinimumForceMagnitude := Num(Get(Int16(false), view, index + 6).value)]
          [MaximumTorqueMagnitude := Num(Get(Int16(false), view, index + 8).value)]
          [MinimumTorqueMagnitude := Num(Get(Int16(false), view, index + 10).value)]
          [TopDeadSpotAngle := Num(Get(Uint16(false), view, index + 12).value)]
          [BottomDeadSpotAngle := Num(Get(Uint16(false), view, index + 14).value)]
          [AccumulatedEnergy := Num(Get(Uint16(false), view, index + 16).value)])
  }

  /** Where `accumulated_torque` starts: after the pedal power balance byte
      when flag 0x2 is set. */
  function PedalEnd(flags: int): nat {
    if Has(flags, 0x2) then 4 else 3
  }

  /** Where the trailing fields start: after the accumulated torque when flag
      0x4 is set. */
  function PowerEnd(flags: int): nat {
    if Has(flags, 0x4) then PedalEnd(flags) + 2 else PedalEnd(flags)
  }

  /** `parseValue` of cycling_power_measurement: the flags are a big-endian
      u16 at 0, yet `instantaneous_power` (sint16 big-endian) is read at 1;
      `pedal_power_balance` (a byte) follows when flag 0x2 is set and
      `accumulated_torque` (u16 big-endian) when flag 0x4 is set. Flag 0x10
      calls `value.Uint32`, which is not a function, so the decoder throws a
      TypeError; every later field is gated by the same mask 0x12. */
  function CyclingPowerMeasurement(view: seq<Byte>): (r: Result<Record, DecodeError>) {
    match Get(Uint16(false), view, 0)
    case Err(e) => Err(e)
    case Ok(flags) =>
      match Get(Int16(false), view, 1)
      case Err(e) => Err(e)
      case Ok(power) =>
        match WithOptionalReading(map[InstantaneousPower := Num(power)], Has(flags, 0x2), PedalPowerBalance, Uint8, view, 3)
        case Err(e) => Err(e)
        case Ok(m) =>
          match WithOptionalReading(m, Has(flags, 0x4), AccumulatedTorque, Uint16(false), view, PedalEnd(flags))
          case Err(e) => Err(e)
          case Ok(m) =>
            if Has(flags, 0x10) then Err(DecodeError.TypeError)
            else if Has(flags, 0x12) then WithTrailingFields(m, view, PowerEnd(flags))
            else Ok(m)
  }

  /** The mask 0x12 tests bit 4 or bit 1: since bit 4 already made the
      decoder throw, the trailing fields are present exactly when flag 0x2
      is set. */
  lemma SharedMaskBits(flags: int)
    ensures Has(flags, 0x12) <==> Has(flags, 0x10) || Has(flags, 0x2)
  {
    var x2 := flags / 2;
    var x4, x8 := x2 / 2, x2 / 2 / 2;
    var x16 := x8 / 2;
    AndEvenMask(flags, 9);
    AndOddMask(x2, 4);
    AndEvenMask(x4, 2);
    AndEvenMask(x8, 1);
    AndOddMask(x16, 0);
    AndEvenMask(flags, 8);
    AndEvenMask(x2, 4);
    AndEvenMask(flags, 1);
    AndOddMask(x2, 0);
    assert And(flags, 0x12) == And(flags, 0x10) + And(flags, 0x2);
  }

  /** The length a cycling_power_measurement needs when flag 0x10 is clear. */
  function CyclingPowerLength(flags: int): nat {
    PowerEnd(flags) + (if Has(flags, 0x2) then 18 else 0)
  }

  /** The flags: the big-endian u16 at 0. */
  function PowerFlags(view: seq<Byte>): nat
    requires |view| >= 2
  {
    256 * view[0] as int + view[1] as int
  }

  /** The flags are read where the decoder reads them. */
  lemma PowerFlagsRead(view: seq<Byte>)
    requires |view| >= 2
    ensures Get(Uint16(false), view, 0) == Ok(PowerFlags(view))
  {
    Unsigned16BE(Uint16(false), view, 0);
  }

  /** A cycling_power_measurement decodes exactly when flag 0x10 is clear and
      the view holds every field its flags announce. A view too short for
      the flags, the power and the optional fields before flag 0x10 is
      tested throws a RangeError; otherwise flag 0x10 throws a TypeError;
      otherwise a view too short for the trailing fields throws a RangeError. */
  lemma CyclingPowerMeasurementLength(view: seq<Byte>)
    ensures var r := CyclingPowerMeasurement(view);
      && (|view| < 3 ==> r == Err(RangeError))
      && (|view| >= 3 ==>
            var flags := PowerFlags(view);
            && (r.Ok? <==> !Has(flags, 0x10) && CyclingPowerLength(flags) <= |view|)
            && (r.Err? ==> r.error == (if Has(flags, 0x10) && PowerEnd(flags) <= |view|
                                       then DecodeError.TypeError else RangeError)))
  {
    if |view| >= 2 {
      PowerFlagsRead(view);
      SharedMaskBits(PowerFlags(view));
    }
  }

  /** The value of a big-endian sint16 field: the two's-complement reading of
      its two bytes. */
  function Signed16BE(view: seq<Byte>, offset: nat): int
    requires offset + 2 <= |view|
  {
    var u := 256 * view[offset] as int + view[offset + 1] as int;
    if u < 0x8000 then u else u - 0x1_0000
  }

  /** The two's-complement reading of a big-endian sint16 field. */
  lemma Int16BEBytes(view: seq<Byte>, offset: nat)
    requires offset + 2 <= |view|
    ensures Get(Int16(false), view, offset) == Ok(Signed16BE(view, offset))
  {
    Unsigned16BE(Int16(false), view, offset);
  }

  /** The trailing fields add exactly the nine trailing keys and keep `m`
      for every other key. */
  lemma TrailingFieldsKeys(m: Record, view: seq<Byte>, index: nat)
    requires index + 18 <= |view|
    ensures var r := WithTrailingFields(m, view, index);
      && r.Ok? && r.value.Keys == m.Keys + TRAILING_KEYS
      && (forall k | k in m && k !in TRAILING_KEYS :: r.value[k] == m[k])
  {
  }

  /** The crank revolution data: two little-endian u16, each from its own two
      bytes. */
  lemma TrailingCrankValues(m: Record, view: seq<Byte>, index: nat)
    requires index + 18 <= |view|
    ensures var r := WithTrailingFields(m, view, index).value;
      && r[CumulativeCrankRevolutions] == Num(view[index] as int + 256 * view[index + 1] as int)
      && r[LastCrankEventTimePer1024s] == Num(view[index + 2] as int + 256 * view[index + 3] as int)
  {
    Uint16LEBytes(view, index);
    Uint16LEBytes(view, index + 2);
  }

  /** The extreme force and torque magnitudes: four big-endian sint16. */
  lemma TrailingMagnitudeValues(m: Record, view: seq<Byte>, index: nat)
    requires index + 18 <= |view|
    ensures var r := WithTrailingFields(m, view, index).value;
      && r[MaximumForceMagnitude] == Num(Signed16BE(view, index + 4))
      && r[MinimumForceMagnitude] == Num(Signed16BE(view, index + 6))
      && r[MaximumTorqueMagnitude] == Num(Signed16BE(view, index + 8))
      && r[MinimumTorqueMagnitude] == Num(Signed16BE(view, index + 10))
  {
    Int16BEBytes(view, index + 4);
    Int16BEBytes(view, index + 6);
    Int16BEBytes(view, index + 8);
    Int16BEBytes(view, index + 10);
  }

  /** The dead spot angles and the accumulated energy: three big-endian u16. */
  lemma TrailingAngleValues(m: Record, view: seq<Byte>, index: nat)
    requires index + 18 <= |view|
    ensures var r := WithTrailingFields(m, view, index).value;
      && r[TopDeadSpotAngle] == Num(256 * view[index + 12] as int + view[index + 13] as int)
      && r[BottomDeadSpotAngle] == Num(256 * view[index + 14] as int + view[index + 15] as int)
      && r[AccumulatedEnergy] == Num(256 * view[index + 16] as int + view[index + 17] as int)
  {
    Unsigned16BE(Uint16(false), view, index + 12);
    Unsigned16BE(Uint16(false), view, index + 14);
    Unsigned16BE(Uint16(false), view, index + 16);
  }

  /** The fields before the flag 0x10 test, in byte terms: the power from
      bytes 1 and 2, the pedal power balance (byte 3) when flag 0x2 is set
      and the accumulated torque (u16 big-endian at PedalEnd) when flag 0x4
      is set. It holds the power, the pedal power balance exactly when flag
      0x2 is set and the accumulated torque exactly when flag 0x4 is set. */
  function PowerLeading(view: seq<Byte>): (m: Record)
    requires |view| >= 3 && PowerEnd(PowerFlags(view)) <= |view|
    ensures var flags := PowerFlags(view);
      m.Keys == {InstantaneousPower}
        + (if Has(flags, 0x2) then {PedalPowerBalance} else {})
        + (if Has(flags, 0x4) then {AccumulatedTorque} else {})
  {
    var flags := PowerFlags(view);
    var t := PedalEnd(flags);
    var m0 := map[InstantaneousPower := Num(Signed16BE(view, 1))];
    var m1 := if Has(flags, 0x2) then m0[PedalPowerBalance := Num(view[3])] else m0;
    if Has(flags, 0x4) then m1[AccumulatedTorque := Num(256 * view[t] as int + view[t + 1] as int)] else m1
  }

  /** The two optional reads before the flag 0x10 test yield the leading
      record whenever the view holds the fields they announce. */
  lemma PowerLeadingRead(view: seq<Byte>)
    requires |view| >= 3 && PowerEnd(PowerFlags(view)) <= |view|
    ensures var flags := PowerFlags(view);
      var m := WithOptionalReading(map[InstantaneousPower := Num(Signed16BE(view, 1))],
                                   Has(flags, 0x2), PedalPowerBalance, Uint8, view, 3);
      && m.Ok?
      && WithOptionalReading(m.value, Has(flags, 0x4), AccumulatedTorque, Uint16(false), view, PedalEnd(flags))
         == Ok(PowerLeading(view))
  {
    var flags := PowerFlags(view);
    if Has(flags, 0x2) {
      Uint8Byte(view, 3);
    }
    if Has(flags, 0x4) {
      Unsigned16BE(Uint16(false), view, PedalEnd(flags));
    }
  }

  /** A decoded cycling_power_measurement is the leading record, followed by
      the trailing fields from PowerEnd on exactly when flag 0x2 is set. */
  lemma CyclingPowerMeasurementFields(view: seq<Byte>)
    requires CyclingPowerMeasurement(view).Ok?
    ensures |view| >= 3 && CyclingPowerLength(PowerFlags(view)) <= |view|
    ensures var flags := PowerFlags(view);
      CyclingPowerMeasurement(view).value ==
        if Has(flags, 0x2) then WithTrailingFields(PowerLeading(view), view, PowerEnd(flags)).value
        else PowerLeading(view)
  {
    CyclingPowerMeasurementLength(view);
    PowerFlagsRead(view);
    Int16BEBytes(view, 1);
    PowerLeadingRead(view);
    SharedMaskBits(PowerFlags(view));
  }
}
