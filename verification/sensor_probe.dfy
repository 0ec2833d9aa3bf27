/** Sensor identification: the code read from the sysfs sensor_version
    attribute, or a negative error. The file I/O and the `%d` scan are not
    modelled; a probe is given by how it ended. */
module SensorProbe {
  import opened HalTypes

  /** How reading the sensor_version attribute ended. */
  datatype ProbeOutcome =
    | OpenFailed(openErrno: Errno)
    | ReadFailed(readErrno: Errno)
    | Unparsable
    | Parsed(value: int32)

  /** The result of get_sensor_version: the parsed code on success, and on
      each failure a negative code, `-errno` of the failing system
      call or `-EINVAL` when the content is not a decimal integer. */
  function SensorVersion(p: ProbeOutcome): (v: int32)
    ensures p.Parsed? ==> v == p.value
    ensures !p.Parsed? ==> v < 0
    ensures p.OpenFailed? ==> v == -(p.openErrno as int)
    ensures p.ReadFailed? ==> v == -(p.readErrno as int)
    ensures p.Unparsable? ==> v == -EINVAL
  {
    match p
    case OpenFailed(e) => -(e as int)
    case ReadFailed(e) => -(e as int)
    case Unparsable => -EINVAL
    case Parsed(x) => x
  }
}
