/** The enumerated decoders: a `switch` from a small integer code to a fixed
    label with a default for every other code. */
module Enums {
  import opened Values

  /** A switch over the consecutive codes 0 .. |labels| - 1 whose `default`
      yields `fallback`. */
  datatype Table = Table(labels: seq<JsString>, fallback: JsString)

  /** No two codes share a label, and the default label is none of them. */
  predicate Distinct(t: Table) {
    && (forall i, j | 0 <= i < j < |t.labels| :: t.labels[i] != t.labels[j])
    && t.fallback !in t.labels
  }

  /** The label of a switch in which every case ends the switch (`return` or
      `break`). */
  function Label(t: Table, code: int): (r: JsString) {
    if 0 <= code < |t.labels| then t.labels[code] else t.fallback
  }

  /** The assignments a switch without any `break` performs, in order: that of
      the matching case and of every case after it, then the default's. */
  function Assignments(t: Table, code: int): (r: seq<JsString>)
    ensures |r| > 0
  {
    (if 0 <= code < |t.labels| then t.labels[code..] else []) + [t.fallback]
  }

  /** The label such a switch leaves in the result: the last one assigned. */
  function LabelAsWritten(t: Table, code: int): (r: JsString) {
    var a := Assignments(t, code);
    a[|a| - 1]
  }

  /** Without `break`, every code ends on the default label. */
  lemma AsWrittenIsFallback(t: Table, code: int)
    ensures LabelAsWritten(t, code) == t.fallback
  {
  }

  /** The first position of `x` in `xs`. */
  function IndexOf(xs: seq<JsString>, x: JsString): (r: Option<nat>)
    ensures r.Some? ==> r.value < |xs| && xs[r.value] == x
    ensures r.None? <==> x !in xs
  {
    if xs == [] then None
    else if xs[0] == x then Some(0)
    else match IndexOf(xs[1..], x)
      case None => None
      case Some(k) => Some(k + 1)
  }

  /** In a sequence without repetitions, the position of each element is found. */
  lemma {:induction false} IndexOfDistinct(xs: seq<JsString>, k: nat)
    requires k < |xs|
    requires forall i, j | 0 <= i < j < |xs| :: xs[i] != xs[j]
    ensures IndexOf(xs, xs[k]) == Some(k)
  {
    if k > 0 {
      assert xs[0] != xs[k];
      IndexOfDistinct(xs[1..], k - 1);
      assert xs[1..][k - 1] == xs[k];
    }
  }

  /** The code a label stands for, if it is not the default label. */
  function CodeOf(t: Table, name: JsString): (r: Option<nat>) {
    IndexOf(t.labels, name)
  }

  /** Each code maps to exactly one label, and the label gives the code back;
      every other code maps to the default, which gives no code back. */
  lemma LabelRoundTrip(t: Table, code: int)
    requires Distinct(t)
    ensures CodeOf(t, Label(t, code)) == if 0 <= code < |t.labels| then Some(code) else None
  {
    if 0 <= code < |t.labels| {
      IndexOfDistinct(t.labels, code);
    }
  }

  /** A label a code maps to is found again from that code. */
  lemma CodeRoundTrip(t: Table, name: JsString)
    ensures CodeOf(t, name).Some? ==> Label(t, CodeOf(t, name).value) == name
  {
  }

  /** Length, first and last code unit of a label: labels with different
      signatures differ. */
  function Signature(s: JsString): int {
    if s == [] then 0 else |s| * 0x1_0000_0000 + s[0] as int * 0x1_0000 + s[|s| - 1] as int
  }

  /** A table is distinct when a map from signatures gives back each label's
      code, and gives the default label no code. */
  lemma DistinctByRank(t: Table, rank: map<int, int>)
    requires forall k | 0 <= k < |t.labels| :: Signature(t.labels[k]) in rank && rank[Signature(t.labels[k])] == k
    requires Signature(t.fallback) in rank && rank[Signature(t.fallback)] == -1
    ensures Distinct(t)
  {
  }

  /** heart_rate service, body_sensor_location (a Uint8 code). */
  const BODY_SENSOR_LOCATION := Table(
    ["Other", "Chest", "Wrist", "Finger", "Hand", "Ear Lobe", "Foot"],
    "Unknown")

  /** environmental_sensing service, barometric_pressure_trend (a Uint8 code). */
  const BAROMETRIC_PRESSURE_TREND := Table(
    ["Unknown", "Continuously falling", "Continously rising", "Falling, then steady",
     "Rising, then steady", "Falling before a lesser rise", "Falling before a greater rise",
     "Rising before a greater fall", "Rising before a lesser fall", "Steady"],
    "Could not resolve to trend")

  /** cycling_speed_and_cadence service, sensor_location (a Uint16 code). */
  const SENSOR_LOCATION := Table(
    ["Other", "Top of show", "In shoe", "Hip", "Front Wheel", "Left Crank", "Right Crank",
     "Left Pedal", "Right Pedal", "Front Hub", "Rear Dropout", "Chainstay", "Rear Wheel",
     "Rear Hub", "Chest", "Spider", "Chain Ring"],
    "Unknown")

  /** weight_scale_feature, weight measurement resolution (bits 3 to 6). */
  const WEIGHT_RESOLUTION := Table(
    ["Not specified", "Resolution of 0.5 kg or 1 lb", "Resolution of 0.2 kg or 0.5 lb",
     "Resolution of 0.1 kg or 0.2 lb", "Resolution of 0.05 kg or 0.1 lb",
     "Resolution of 0.02 kg or 0.05 lb", "Resolution of 0.01 kg or 0.02 lb",
     "Resolution of 0.005 kg or 0.01 lb"],
    "Could not resolve")

  /** weight_scale_feature, height measurement resolution (bits 7 to 9). */
  const HEIGHT_RESOLUTION := Table(
    ["Not specified", "Resolution of 0.1 meter or 1 inch",
     "Resolution of 0.005 meter or 0.5 inch", "Resolution of 0.001 meter or 0.1 inch"],
    "Could not resolve")

  lemma BodySensorLocationDistinct()
    ensures Distinct(BODY_SENSOR_LOCATION)
  {
  }

  /** The signatures of the barometric_pressure_trend labels and of its default label. */
  lemma BarometricPressureTrendSignatures()
    ensures Signature(BAROMETRIC_PRESSURE_TREND.labels[0]) == 30070341742
    ensures Signature(BAROMETRIC_PRESSURE_TREND.labels[1]) == 85903736935
    ensures Signature(BAROMETRIC_PRESSURE_TREND.labels[2]) == 77313802343
    ensures Signature(BAROMETRIC_PRESSURE_TREND.labels[3]) == 85903933561
    ensures Signature(BAROMETRIC_PRESSURE_TREND.labels[4]) == 81609752697
    ensures Signature(BAROMETRIC_PRESSURE_TREND.labels[5]) == 120263671909
    ensures Signature(BAROMETRIC_PRESSURE_TREND.labels[6]) == 124558639205
    ensures Signature(BAROMETRIC_PRESSURE_TREND.labels[7]) == 120264458348
    ensures Signature(BAROMETRIC_PRESSURE_TREND.labels[8]) == 115969491052
    ensures Signature(BAROMETRIC_PRESSURE_TREND.labels[9]) == 25775243385
    ensures Signature(BAROMETRIC_PRESSURE_TREND.fallback) == 111673540708
  {
  }

  lemma BarometricPressureTrendDistinct()
    ensures Distinct(BAROMETRIC_PRESSURE_TREND)
  {
    BarometricPressureTrendSignatures();
    DistinctByRank(BAROMETRIC_PRESSURE_TREND, map[
      30070341742 := 0, 85903736935 := 1, 77313802343 := 2, 85903933561 := 3, 81609752697 := 4,
      120263671909 := 5, 124558639205 := 6, 120264458348 := 7, 115969491052 := 8, 25775243385 := 9,
      111673540708 := -1]);
  }

  /** The signatures of the sensor_location labels and of its default label. */
  lemma SensorLocationSignaturesLow()
    ensures Signature(SENSOR_LOCATION.labels[0]) == 21480013938
    ensures Signature(SENSOR_LOCATION.labels[1]) == 47250145399
    ensures Signature(SENSOR_LOCATION.labels[2]) == 30069555301
    ensures Signature(SENSOR_LOCATION.labels[3]) == 12889620592
    ensures Signature(SENSOR_LOCATION.labels[4]) == 47249227884
    ensures Signature(SENSOR_LOCATION.labels[5]) == 42954653803
    ensures Signature(SENSOR_LOCATION.labels[6]) == 47250014315
    ensures Signature(SENSOR_LOCATION.labels[7]) == 42954653804
    ensures Signature(SENSOR_LOCATION.labels[8]) == 47250014316
  {
  }

  lemma SensorLocationSignaturesHigh()
    ensures Signature(SENSOR_LOCATION.labels[9]) == 38659293282
    ensures Signature(SENSOR_LOCATION.labels[10]) == 51544981620
    ensures Signature(SENSOR_LOCATION.labels[11]) == 38659096697
    ensures Signature(SENSOR_LOCATION.labels[12]) == 42955047020
    ensures Signature(SENSOR_LOCATION.labels[13]) == 34365112418
    ensures Signature(SENSOR_LOCATION.labels[14]) == 21479227508
    ensures Signature(SENSOR_LOCATION.labels[15]) == 25775243378
    ensures Signature(SENSOR_LOCATION.labels[16]) == 42954063975
    ensures Signature(SENSOR_LOCATION.fallback) == 30070341742
  {
  }

  lemma SensorLocationDistinct()
    ensures Distinct(SENSOR_LOCATION)
  {
    SensorLocationSignaturesLow();
    SensorLocationSignaturesHigh();
    DistinctByRank(SENSOR_LOCATION, map[
      21480013938 := 0, 47250145399 := 1, 30069555301 := 2, 12889620592 := 3, 47249227884 := 4,
      42954653803 := 5, 47250014315 := 6, 42954653804 := 7, 47250014316 := 8, 38659293282 := 9,
      51544981620 := 10, 38659096697 := 11, 42955047020 := 12, 34365112418 := 13,
      21479227508 := 14, 25775243378 := 15, 42954063975 := 16, 30070341742 := -1]);
  }

  lemma WeightResolutionDistinct()
    ensures Distinct(WEIGHT_RESOLUTION)
  {
  }

  lemma HeightResolutionDistinct()
    ensures Distinct(HEIGHT_RESOLUTION)
  {
  }

  /** As written, body_sensor_location reports code 1 (chest) as "Unknown". */
  lemma BodySensorLocationFallsThrough()
    ensures LabelAsWritten(BODY_SENSOR_LOCATION, 1) == "Unknown"
    ensures Label(BODY_SENSOR_LOCATION, 1) == "Chest"
  {
  }
}
