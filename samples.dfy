/** The canonical sample the ThingSpeak normaliser produces and the rest of
    the dashboard consumes. */
module Samples {
  import opened Outcomes

  /** The six metrics, in the order the dashboard lists them. */
  datatype Metric = Temperature | Humidity | Pm25 | Pm10 | Co2 | No2

  const AllMetrics: seq<Metric> := [Temperature, Humidity, Pm25, Pm10, Co2, No2]

  /** A feed record's `created_at`, copied verbatim; `None` when the record
      has no such key (the property is then `undefined`). */
  type Timestamp = Option<string>

  /** One reading; a metric that is `None` was `null` in the source. */
  datatype Sample = Sample(
    timestamp: Timestamp,
    temperature: Option<real>,
    humidity: Option<real>,
    pm25: Option<real>,
    pm10: Option<real>,
    co2: Option<real>,
    no2: Option<real>)
  {
    /** `item[metric]`. */
    function Get(m: Metric): Option<real> {
      match m
      case Temperature => temperature
      case Humidity => humidity
      case Pm25 => pm25
      case Pm10 => pm10
      case Co2 => co2
      case No2 => no2
    }

    /** The historical filter's test: at least one metric is not `null`. */
    predicate HasReading() {
      temperature != None || humidity != None || pm25 != None
      || pm10 != None || co2 != None || no2 != None
    }
  }

  lemma HasReadingMeansSomeMetric(s: Sample)
    ensures s.HasReading() <==> exists m: Metric :: s.Get(m).Some?
  {
    if s.HasReading() {
      var m :| m in AllMetrics && s.Get(m).Some?;
    }
  }
}
