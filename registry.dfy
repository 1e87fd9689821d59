/** The characteristic table (`gattCharacteristicsMapping`) and the list of
    adopted services (`gattServiceList`) that every session shares, and the
    checks `addCharacteristic` makes before it extends the table. */
module Registry {
  import opened Values
  import opened ByteView
  import opened Enums
  import opened Codecs

  /** An entry of the table: the service the characteristic lives in, its
      access modes, and its codecs when it has them. Every entry of the source,
      default or added, has a one-element `primaryServices` array; the model
      keeps that element, the service a session looks the characteristic up in. */
  datatype Definition = Definition(
    primaryService: JsString,
    includedProperties: seq<JsString>,
    parse: Option<Decoder>,
    prep: Option<Encoder>)

  /** The table a session starts from. */
  const DEFAULT: map<JsString, Definition> := map[
      "battery_level" := Definition("battery_service", ["read", "notify"], Some(BATTERY_LEVEL), None),
      "blood_pressure_feature" := Definition("blood_pressure", ["read"], None, None),
      "body_composition_feature" := Definition("body_composition", ["read"], None, None),
      "bond_management_feature" := Definition("bond_management_feature", ["read"], None, None),
      "cgm_feature" := Definition("continuous_glucose_monitoring", ["read"], None, None),
      "cgm_session_run_time" := Definition("continuous_glucose_monitoring", ["read"], None, None),
      "cgm_session_start_time" := Definition("continuous_glucose_monitoring", ["read", "write"], None, None),
      "cgm_status" := Definition("continuous_glucose_monitoring", ["read"], None, None),
      "csc_feature" := Definition("cycling_speed_and_cadence", ["read"], Some(CscFeatureFlags), None),
      "current_time" := Definition("current_time", ["read", "write", "notify"], None, None),
      "cycling_power_feature" := Definition("cycling_power", ["read"], None, None),
      "firmware_revision_string" := Definition("device_information", ["read"], None, None),
      "hardware_revision_string" := Definition("device_information", ["read"], None, None),
      "ieee_11073_20601_regulatory_certification_data_list" := Definition("device_information", ["read"], None, None),
      "gap.appearance" := Definition("generic_access", ["read"], None, None),
      "gap.device_name" := Definition("generic_access", ["read", "write"], Some(DeviceNameText), Some(DeviceNameBytes)),
      "gap.peripheral_preferred_connection_parameters" := Definition("generic_access", ["read"], None, None),
      "gap.peripheral_privacy_flag" := Definition("generic_access", ["read"], None, None),
      "glucose_feature" := Definition("glucose", ["read"], Some(GlucoseFeatureFlags), None),
      "http_entity_body" := Definition("http_proxy", ["read", "write"], None, None),
      "glucose_measurement" := Definition("glucose", ["notify"], Some(GlucoseMeasurementRecord), None),
      "http_headers" := Definition("http_proxy", ["read", "write"], None, None),
      "https_security" := Definition("http_proxy", ["read", "write"], None, None),
      "intermediate_temperature" := Definition("health_thermometer", ["read", "write", "indicate"], None, None),
      "local_time_information" := Definition("current_time", ["read", "write"], None, None),
      "manufacturer_name_string" := Definition("device_information", ["read"], None, None),
      "model_number_string" := Definition("device_information", ["read"], None, None),
      "pnp_id" := Definition("device_information", ["read"], None, None),
      "protocol_mode" := Definition("human_interface_device", ["read", "writeWithoutResponse"], None, None),
      "reference_time_information" := Definition("current_time", ["read"], None, None),
      "supported_new_alert_category" := Definition("alert_notification", ["read"], None, None),
      "body_sensor_location" := Definition("heart_rate", ["read"], Some(Enumerated(Location, Uint8, BODY_SENSOR_LOCATION)), None),
      "heart_rate_control_point" := Definition("heart_rate", ["write"], None, Some(ControlPointValue)),
      "heart_rate_measurement" := Definition("heart_rate", ["notify"], Some(HeartRateMeasurementRecord), None),
      "serial_number_string" := Definition("device_information", ["read"], None, None),
      "software_revision_string" := Definition("device_information", ["read"], None, None),
      "supported_unread_alert_category" := Definition("alert_notification", ["read"], None, None),
      "system_id" := Definition("device_information", ["read"], None, None),
      "temperature_type" := Definition("health_thermometer", ["read"], None, None),
      "descriptor_value_changed" := Definition("environmental_sensing", ["indicate", "writeAux", "extProp"], None, None),
      "apparent_wind_direction" := Definition("environmental_sensing", ["read", "notify", "writeAux", "extProp"], Some(APPARENT_WIND_DIRECTION), None),
      "apparent_wind_speed" := Definition("environmental_sensing", ["read", "notify", "writeAux", "extProp"], Some(APPARENT_WIND_SPEED), None),
      "dew_point" := Definition("environmental_sensing", ["read", "notify", "writeAux", "extProp"], Some(DEW_POINT), None),
      "elevation" := Definition("environmental_sensing", ["read", "notify", "writeAux", "extProp"], Some(ElevationReading), None),
      "gust_factor" := Definition("environmental_sensing", ["read", "notify", "writeAux", "extProp"], Some(GUST_FACTOR), None),
      "heat_index" := Definition("environmental_sensing", ["read", "notify", "writeAux", "extProp"], Some(HEAT_INDEX), None),
      "humidity" := Definition("environmental_sensing", ["read", "notify", "writeAux", "extProp"], Some(HUMIDITY), None),
      "irradiance" := Definition("environmental_sensing", ["read", "notify", "writeAux", "extProp"], Some(IRRADIANCE), None),
      "rainfall" := Definition("environmental_sensing", ["read", "notify", "writeAux", "extProp"], Some(RAINFALL), None),
      "pressure" := Definition("environmental_sensing", ["read", "notify", "writeAux", "extProp"], Some(PRESSURE), None),
      "temperature" := Definition("environmental_sensing", ["read", "notify", "writeAux", "extProp"], Some(TEMPERATURE), None),
      "true_wind_direction" := Definition("environmental_sensing", ["read", "notify", "writeAux", "extProp"], Some(TRUE_WIND_DIRECTION), None),
      "true_wind_speed" := Definition("environmental_sensing", ["read", "notify", "writeAux", "extProp"], Some(TRUE_WIND_SPEED), None),
      "uv_index" := Definition("environmental_sensing", ["read", "notify", "writeAux", "extProp"], Some(UV_INDEX), None),
      "wind_chill" := Definition("environmental_sensing", ["read", "notify", "writeAux", "extProp"], Some(WIND_CHILL), None),
      "barometric_pressure_trend" := Definition("environmental_sensing", ["read", "notify", "writeAux", "extProp"], Some(Enumerated(BarometricPressureTrend, Uint8, BAROMETRIC_PRESSURE_TREND)), None),
      "magnetic_declination" := Definition("environmental_sensing", ["read", "notify", "writeAux", "extProp"], Some(MAGNETIC_DECLINATION), None),
      "magnetic_flux_density_2D" := Definition("environmental_sensing", ["read", "notify", "writeAux", "extProp"], Some(MAGNETIC_FLUX_DENSITY_2D), None),
      "magnetic_flux_density_3D" := Definition("environmental_sensing", ["read", "notify", "writeAux", "extProp"], Some(MAGNETIC_FLUX_DENSITY_3D), None),
      "tx_power_level" := Definition("tx_power", ["read"], Some(TX_POWER_LEVEL), None),
      "weight_scale_feature" := Definition("weight_scale", ["read"], Some(WeightScaleFeatureFlags), None),
      "csc_measurement" := Definition("cycling_speed_and_cadence", ["notify"], Some(CscMeasurementRecord), None),
      "sensor_location" := Definition("cycling_speed_and_cadence", ["read"], Some(Enumerated(Location, Uint16(false), SENSOR_LOCATION)), None),
      "sc_control_point" := Definition("cycling_speed_and_cadence", ["write", "indicate"], Some(ScControlPointUndefined), None),
      "cycling_power_measurement" := Definition("cycling_power", ["notify"], Some(CyclingPowerMeasurementRecord), None)]

  /** The adopted services offered as optional services when connecting. */
  const SERVICE_LIST: seq<JsString> := [
    "alert_notification", "automation_io", "battery_service", "blood_pressure",
    "body_composition", "bond_management", "continuous_glucose_monitoring", "current_time",
    "cycling_power", "cycling_speed_and_cadence", "device_information",
    "environmental_sensing", "generic_access", "generic_attribute", "glucose",
    "health_thermometer", "heart_rate", "human_interface_device", "immediate_alert",
    "indoor_positioning", "internet_protocol_support", "link_loss", "location_and_navigation",
    "next_dst_change", "phone_alert_status", "pulse_oximeter", "reference_time_update",
    "running_speed_and_cadence", "scan_parameters", "tx_power", "user_data", "weight_scale"]

  /** The registry object itself: the table and the service list, which
      `addCharacteristic` and `connect` extend in place. */
  class GattRegistry {
    var characteristics: map<JsString, Definition>
    var services: seq<JsString>

    constructor ()
      ensures characteristics == DEFAULT && services == SERVICE_LIST
    {
      characteristics := DEFAULT;
      services := SERVICE_LIST;
    }
  }

  // ---------------------------------------------------------------------
  // addCharacteristic's checks
  // ---------------------------------------------------------------------

  /** An argument of `addCharacteristic`: left out, a string, or an array of
      strings. */
  datatype Arg =
    | Undefined
    | StringArg(s: JsString)
    | ArrayArg(items: seq<JsString>)

  /** The elements of an array joined with commas, as `String(array)` does. */
  function Join(items: seq<JsString>): JsString
    decreases |items|
  {
    if items == [] then []
    else if |items| == 1 then items[0]
    else items[0] + [','] + Join(items[1..])
  }

  /** The property name an argument is turned into when used as a key. */
  function PropertyKey(a: Arg): JsString {
    match a
    case Undefined => "undefined"
    case StringArg(s) => s
    case ArrayArg(items) => Join(items)
  }

  /** JavaScript truthiness of an argument: the empty string is falsy, every
      array is truthy. */
  predicate Truthy(a: Arg) {
    match a
    case Undefined => false
    case StringArg(s) => s != []
    case ArrayArg(_) => true
  }

  /** The first of `addCharacteristic`'s checks that fails, in source order, or
      None when the characteristic may be added. With `bundled`, the properties
      check reads the misspelt `constuctor` property, which is never `Array`. */
  function AddCharacteristicCheck(mapping: map<JsString, Definition>, name: Arg, service: Arg,
                                  properties: Arg, bundled: bool): Option<Error>
  {
    if PropertyKey(name) in mapping then Some(AddCharacteristicExistsError(PropertyKey(name)))
    else if !name.StringArg? || name.s == [] then Some(ImproperCharacteristicFormat)
    else if !Truthy(service) || !Truthy(properties) then Some(NewCharacteristicMissingParams)
    else if !service.StringArg? || service.s == [] then Some(ImproperServiceFormat)
    else if bundled || !properties.ArrayArg? || properties.items == [] then Some(ImproperPropertiesFormat)
    else None
  }

  /** The library's checks admit exactly a new non-empty name with a non-empty
      service name and a non-empty array of properties. */
  lemma AddCharacteristicAccepts(mapping: map<JsString, Definition>, name: Arg, service: Arg, properties: Arg)
    ensures AddCharacteristicCheck(mapping, name, service, properties, false).None?
        <==> && name.StringArg? && name.s != [] && name.s !in mapping
             && service.StringArg? && service.s != []
             && properties.ArrayArg? && properties.items != []
  {
  }

  /** A name already in the table is reported as existing before anything else
      is looked at; a new name that is not a non-empty string is reported next,
      whatever the other arguments are. */
  lemma AddCharacteristicOrder(mapping: map<JsString, Definition>, name: Arg, service: Arg, properties: Arg, bundled: bool)
    ensures PropertyKey(name) in mapping ==>
      AddCharacteristicCheck(mapping, name, service, properties, bundled) == Some(AddCharacteristicExistsError(PropertyKey(name)))
    ensures PropertyKey(name) !in mapping && !(name.StringArg? && name.s != []) ==>
      AddCharacteristicCheck(mapping, name, service, properties, bundled) == Some(ImproperCharacteristicFormat)
    ensures PropertyKey(name) !in mapping && name.StringArg? && name.s != [] && service == Undefined ==>
      AddCharacteristicCheck(mapping, name, service, properties, bundled) == Some(NewCharacteristicMissingParams)
  {
  }

  /** The bundled checks reject every call: where the library would add the
      characteristic they report an improper properties array instead, and
      elsewhere they agree with the library. */
  lemma AddCharacteristicBundledRejects(mapping: map<JsString, Definition>, name: Arg, service: Arg, properties: Arg)
    ensures AddCharacteristicCheck(mapping, name, service, properties, true).Some?
    ensures AddCharacteristicCheck(mapping, name, service, properties, true)
         == if AddCharacteristicCheck(mapping, name, service, properties, false).Some?
            then AddCharacteristicCheck(mapping, name, service, properties, false)
            else Some(ImproperPropertiesFormat)
  {
  }
}
