/** The channel configuration the normaliser and the live timer use. */
module Config {
  import opened Samples

  /** FIELD_MAPPINGS: the ThingSpeak field number each metric is stored in. */
  function FieldIndex(m: Metric): nat {
    match m
    case Temperature => 2
    case Humidity => 3
    case Pm25 => 5
    case Pm10 => 6
    case Co2 => 1
    case No2 => 4
  }

  /** UPDATE_INTERVAL: the live-mode polling period in milliseconds. */
  const UpdateIntervalMs: nat := 15000
}
