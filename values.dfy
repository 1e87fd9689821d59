/** Shared value types of the Web Bluetooth wrapper: bytes, JavaScript strings,
    the key/value records that the characteristic decoders return, and the
    error keys of the wrapper's error handler. */
module Values {

  /** One octet of a DataView. */
  type Byte = b: int | 0 <= b < 256

  /** One character of a JavaScript string, standing for one UTF-16 code unit
      (the strings of the model are the ones whose characters are all below
      U+10000, so that each character is one code unit). */
  type CodeUnit = char

  type JsString = seq<CodeUnit>

  datatype Option<+T> = None | Some(value: T)

  datatype Result<+T, +E> = Ok(value: T) | Err(error: E)

  /** What a DataView or a decoder body can throw. */
  datatype DecodeError =
    | RangeError      // a fixed-width read past byteLength
    | TypeError       // a method called on a value that does not have it
    | ReferenceError  // a name that is not defined

  /** The property names that decoders put on their result objects (written in
      PascalCase; the source's spelling, typos included, is given beside each). */
  datatype Key =
    | RawValue                                    // rawValue
    | BatteryLevel                                // battery_level
    | WheelRevolutionDataSupported                // wheel_revolution_data_supported
    | CrankRevolutionDataSupported                // crank_revolution_data_supported
    | MultipleSensorsSupported                    // multiple_sensors_supported
    | DeviceName                                  // device_name
    | LowBatteryDetectionSupported                // low_battery_detection_supported
    | SensorMalfunctionDetectionSupported         // sensor_malfunction_detection_supported
    | SensorSampleSizeSupported                   // sensor_sample_size_supported
    | SensorStripInsertionErrorDetectionSupported // sensor_strip_insertion_error_detection_supported
    | SensorStripTypeErrorDetectionSupported      // sensor_strip_type_error_detection_supported
    | SensorResultHighLowDetectionSupported       // sensor_result_highLow_detection_supported
    | SensorTemperatureHighLowDetectionSupported  // sensor_temperature_highLow_detection_supported
    | SensorReadInterruptionDetectionSupported    // sensor_read_interruption_detection_supported
    | GeneralDeviceFaultSupported                 // general_device_fault_supported
    | TimeFaultSupported                          // time_fault_supported
    | MultipleBondSupported                       // multiple_bond_supported
    | TimeOffset                                  // time_offset
    | GlucoseConcentraitonMolPerL                 // glucose_concentraiton_molPerL
    | GlucoseConcentraitonKgPerL                  // glucose_concentraiton_kgPerL
    | Location                                    // location
    | HeartRate                                   // heartRate
    | ContactDetected                             // contactDetected
    | EnergyExpended                              // energyExpended
    | RrIntervals                                 // rrIntervals
    | ApparentWindDirection                       // apparent_wind_direction
    | ApparentWindSpeed                           // apparent_wind_speed
    | DewPoint                                    // dew_point
    | Elevation                                   // elevation
    | GustFactor                                  // gust_factor
    | HeatIndex                                   // heat_index
    | Humidity                                    // humidity
    | Irradiance                                  // irradiance
    | Rainfall                                    // rainfall
    | Pressure                                    // pressure
    | Temperature                                 // temperature
    | TrueWindDirection                           // true_wind_direction
    | TrueWindSpeed                               // true_wind_speed
    | UvIndex                                     // uv_index
    | WindChill                                   // wind_chill
    | BarometricPressureTrend                     // barometric_pressure_trend
    | MagneticDeclination                         // magnetic_declination
    | MagneticFluxDensityXAxis                    // magnetic_flux_density_x_axis
    | MagneticFluxDensityYAxis                    // magnetic_flux_density_y_axis
    | MagneticFluxDensityZAxis                    // magnetic_flux_density_z_axis
    | TxPowerLevel                                // tx_power_level
    | TimeStampSupported                          // time_stamp_supported
    | BmiSupported                                // BMI_supported
    | WeightMeasurementResolution                 // weight_measurement_resolution
    | HeightMeasurementResolution                 // height_measurement_resolution
    | CumulativeWheelRevolutions                  // cumulative_wheel_revolutions
    | LastWheelEventTimePer1024s                  // last_wheel_event_time_per_1024s
    | CumulativeCrankRevolutions                  // cumulative_crank_revolutions
    | LastCrankEventTimePer1024s                  // last_crank_event_time_per_1024s
    | InstantaneousPower                          // instantaneous_power
    | PedalPowerBalance                           // pedal_power_balance
    | AccumulatedTorque                           // accumulated_torque
    | MaximumForceMagnitude                       // maximum_force_magnitude
    | MinimumForceMagnitude                       // minimum_force_magnitude
    | MaximumTorqueMagnitude                      // maximum_torque_magnitude
    | MinimumTorqueMagnitude                      // minimum_torque_magnitude
    | TopDeadSpotAngle                            // top_dead_spot_angle
    | BottomDeadSpotAngle                         // bottom_dead_spot_angle
    | AccumulatedEnergy                           // accumulated_energy

  /** A property value. JavaScript has one number type; integers read from the
      view are `Num`, readings multiplied by a resolution constant are `Real`
      (the exact product, without IEEE rounding). `Raw` is the DataView a read
      resolved with. */
  datatype Value =
    | Num(n: int)
    | Real(x: real)
    | Bool(b: bool)
    | Text(s: JsString)
    | Nums(ns: seq<int>)
    | Raw(bytes: seq<Byte>)

  /** A value handed to `writeValue`: a string, a number (integers only), or a
      byte buffer. */
  datatype Input =
    | Str(s: JsString)
    | Number(n: int)
    | Bytes(b: seq<Byte>)

  /** A result object: the keys it has and their values. */
  type Record = map<Key, Value>

  /** The error keys of the wrapper's error handler, which always throws. */
  datatype Error =
    | NoFilters
    | UuidError
    | UserCancelled
    | NoDevice
    | NotConnected
    | IssueDisconnecting
    | CharacteristicError(name: JsString)
    | ReadError
    | WriteError(name: JsString)
    | StartNotificationsError(name: JsString)
    | StopNotificationsError(name: JsString)
    | StopNotificationsNotNotifying(name: JsString)
    | ReturnCharacteristicError(name: JsString)
    | AddCharacteristicExistsError(name: JsString)
    | ImproperCharacteristicFormat
    | NewCharacteristicMissingParams
    | ImproperServiceFormat
    | ImproperPropertiesFormat
    | TypeError            // a property read on null or undefined
    | TransportRejected    // a transport rejection passed on without a key
}
