/**
  Types and constants shared by the ECS CloudWatch plugin: the plugin's
  configuration, the CloudWatch request and response shapes it uses, and the
  graph schema it hands to the Mackerel plugin helper.

  Metric values are Go `float64`s that the plugin only copies; they are modelled
  as `real`. Timestamps are whole seconds.
*/
module Ecs {

  datatype Option<+T> = None | Some(value: T)

  /** A Go `(value, error)` return: the error is carried as its message. */
  datatype Result<+T> = Ok(value: T) | Err(error: string)

  /** The CloudWatch namespace every request is made in. */
  const Namespace: string := "AWS/ECS"

  /** The statistic kinds the plugin asks CloudWatch for. */
  datatype Statistic = Average | Minimum | Maximum | SampleCount

  /** The CloudWatch name of a statistic (the `metricsType…` constants). */
  function StatisticName(k: Statistic): string
  {
    match k
    case Average => "Average"
    case Minimum => "Minimum"
    case Maximum => "Maximum"
    case SampleCount => "SampleCount"
  }

  /** The statistics every non-task graph carries, in the order they are
      declared and fetched. */
  const Summaries: seq<Statistic> := [Average, Minimum, Maximum]

  /** Reads a statistic name back: the `switch metric.Type` of getLastPoint.
      Any other string selects no statistic. */
  function ParseStatistic(s: string): (r: Option<Statistic>)
    ensures r.Some? ==> StatisticName(r.value) == s
    ensures r.None? ==> forall k :: StatisticName(k) != s
  {
    if s == "Average" then Some(Average)
    else if s == "Minimum" then Some(Minimum)
    else if s == "Maximum" then Some(Maximum)
    else if s == "SampleCount" then Some(SampleCount)
    else None
  }

  /** One query: a CloudWatch metric name and the statistic name to ask for
      (the Go `metrics` struct). */
  datatype Metric = Metric(name: string, statType: string)

  datatype Dimension = Dimension(name: string, value: string)

  /** The fields of a GetMetricStatistics request the plugin sets. */
  datatype Request = Request(
    namespace: string,
    metricName: string,
    dimensions: seq<Dimension>,
    startTime: int,
    endTime: int,
    period: int,
    statistics: seq<string>)

  /** One returned data point, carrying a value for every statistic kind. */
  datatype DataPoint = DataPoint(
    timestamp: int,
    average: real,
    minimum: real,
    maximum: real,
    sampleCount: real)

  /** The CloudWatch client: answers a request with data points or an error. */
  type CloudWatch = Request -> Result<seq<DataPoint>>

  /** The plugin's configuration and its CloudWatch client; credentials and
      region only matter for building the client and are not kept. */
  datatype Plugin = Plugin(
    clusterName: string,
    serviceName: string,
    prefix: string,
    cloudWatch: CloudWatch)

  /** One line of a graph: the snapshot key it shows and its label (`label`
      is a Dafny keyword, hence `caption`). */
  datatype GraphMetric = GraphMetric(name: string, caption: string)

  /** One graph of the schema. */
  datatype Graph = Graph(caption: string, unit: string, metrics: seq<GraphMetric>)

  const CPUUtilization: string := "CPUUtilization"
  const MemoryUtilization: string := "MemoryUtilization"
  const CPUReservation: string := "CPUReservation"
  const MemoryReservation: string := "MemoryReservation"
  const Task: string := "Task"
}
