# ECS CloudWatch plugin for Mackerel, modelled in Dafny

The plugin reads the utilization metrics of an Amazon ECS cluster, or of one
service in it, from CloudWatch and hands a flat snapshot of values plus a graph
schema to the Mackerel plugin helper. This project models its core, all in
`lib/aws-ecs.go`:

- `ecs.dfy` (module `Ecs`): the plugin configuration, the statistic names, the
  CloudWatch request and data-point shapes and the graph schema types. The
  CloudWatch client is a total function from a request to data points or an
  error, kept in the plugin record as the Go struct keeps its client.
- `graphs.dfy` (module `Graphs`): `MetricKeyPrefix` and `GraphDefinition`. The
  schema always has the CPU and memory utilization graphs. It adds the task
  graph when a service is configured and the two reservation graphs otherwise.
  Each graph is proved equal to one reference graph written once for every
  name.
- `lastpoint.dfy` (module `LastPoint`): `getLastPoint`. It covers the
  dimensions, the three-minute request, the error for an empty series, and the
  selection loop written as a left fold. The fold is proved to end on the first
  point with the smallest timestamp when that point is before the selection
  clock reading. When no point is, the fold reports 0.
- `fetch.dfy` (module `Fetch`): `FetchMetrics`. Each graph turns into its
  queries, and the answers are stored under their keys. A failed query is
  skipped. The snapshot is characterised key by key. For one set of clock
  readings shared by the whole pass, it is proved independent of the order
  the graphs are visited in. It is also proved never larger than the schema's line
  names, equal to them when every query is answered, and empty when every
  query fails.

Metric values are Go `float64`s that are only copied; they are `real` here, and
the zero value the selection starts from is `0.0`. Timestamps are whole
seconds. The two clock readings of `getLastPoint` are parameters. The first
bounds the request window and the second starts the selection.

The graph captions use the configured prefix as it is (`lib/aws-ecs.go:155`),
not the defaulted `MetricKeyPrefix()`. So an empty prefix gives metric keys
prefixed "ECS", but every caption starts with a bare space
(`Graphs.EmptyPrefixCaptions`). The selection loop replaces its marker only on
a strictly earlier timestamp (`lib/aws-ecs.go:102-118`), so it keeps the
earliest point in the window, the first of equally early ones.

## Model

| member | source | states |
|---|---|---|
| Ecs.ParseStatistic | lib/aws-ecs.go:107-116 | a statistic name selects a statistic exactly when it is one of the four names, and then the one whose name it is |
| Graphs.MetricKeyPrefix | lib/aws-ecs.go:42-47 | the key prefix is never empty: "ECS" for an empty prefix, the prefix itself otherwise |
| Graphs.ReplaceHyphens | lib/aws-ecs.go:156 | same length, every hyphen becomes a space, every other character is kept, and no hyphen is left |
| Graphs.LabelPrefix | lib/aws-ecs.go:155-156 | the caption prefix is the title-cased configured prefix with every hyphen turned into a space and every other character kept, so it has no hyphen |
| Graphs.GraphDefinition | lib/aws-ecs.go:154-207 | the utilization graphs are always there; the task graph is there iff a service is configured, each reservation graph iff none is; so exactly one of the two branches is taken |
| Graphs.GraphDefinitionIsReference | lib/aws-ecs.go:155-206 | every graph is captioned label prefix + " " + name; the task graph is an "integer" graph with the single line TaskRunning/Running; every other graph is a "percentage" graph with lines name+Average, name+Minimum, name+Maximum labelled by their statistic |
| Graphs.EmptyPrefixCaptions | lib/aws-ecs.go:154-160 | with an empty prefix the key prefix is "ECS" while every caption is a space followed by the graph name |
| LastPoint.Dimensions | lib/aws-ecs.go:69-80 | the first dimension is ClusterName = cluster; there is a second, ServiceName = service, iff a service is configured |
| LastPoint.BuildRequest | lib/aws-ecs.go:82-90 | the request is in namespace AWS/ECS for the metric's name and single statistic, with the scope's dimensions; it has a 60-second period and covers the 180 seconds up to the first clock reading, so three whole periods |
| LastPoint.Extract | lib/aws-ecs.go:107-116 | the value kept is the field of the statistic the name selects, and the value kept so far when the name is none of the four |
| LastPoint.Scan | lib/aws-ecs.go:102-118 | the final marker is at most the starting marker and every timestamp, and is either the starting marker, with the value untouched, or some point's timestamp; LastPoint.ScanPicksFirstEarliest states which point |
| LastPoint.EarliestIndex | lib/aws-ecs.go:100-118 | every non-empty series has exactly one first point with the smallest timestamp |
| LastPoint.ScanKeepsWhenNoneEarlier | lib/aws-ecs.go:102-118 | when no point is strictly before the marker the loop leaves marker and value as they were |
| LastPoint.ScanPicksFirstEarliest | lib/aws-ecs.go:102-118 | the loop ends on the first earliest point with that point's selected field when that point is strictly before the marker, and changes nothing otherwise |
| LastPoint.GetLastPoint | lib/aws-ecs.go:66-121 | a query error is passed on unchanged; an empty series gives "fetched no datapoints"; otherwise the result is the requested field of the first earliest point if it is before the second clock reading, and 0 if it is not |
| LastPoint.AscendingSeriesReportsFirst | lib/aws-ecs.go:100-118 | for points in ascending time order the oldest point's value is reported, not the newest |
| LastPoint.TieGoesToFirst | lib/aws-ecs.go:104-106 | of two equally early points the first one is reported, since the comparison is strict |
| LastPoint.NothingBeforeMarkerReportsZero | lib/aws-ecs.go:102-120 | a non-empty series with no point before the clock reading reports 0 with no error |
| Fetch.Queries | lib/aws-ecs.go:128-147 | the task graph issues one query, every other graph one per summary statistic |
| Fetch.QueriesListed | lib/aws-ecs.go:128-147 | the task query asks for the SampleCount of CPUUtilization under TaskRunning; every other graph asks for its own metric with Average, Minimum, Maximum in order, each stored under the graph name followed by the statistic name |
| Fetch.Plan | lib/aws-ecs.go:127 | a pass issues at least as many queries as it visits graphs; Fetch.PlanMembers states which |
| Fetch.PlanMembers | lib/aws-ecs.go:127-148 | a pass issues exactly the queries of the graphs it visits |
| Fetch.QueryKeyInjective | lib/aws-ecs.go:128-147 | two queries of any graphs with the same snapshot key are the same query, so no answer overwrites another's |
| Fetch.PlanKeysDetermineQueries | lib/aws-ecs.go:127-148 | within a pass a snapshot key always belongs to one query |
| Fetch.Store | lib/aws-ecs.go:139-147 | every stored key belongs to a query whose answer it holds, and every successful query's answer is stored under its key |
| Fetch.StoreHoldsAnswers | lib/aws-ecs.go:124-151 | for any answers, a pass over the graphs stores under each key the answer of the query it belongs to, and a query's key is present iff that query succeeded |
| Fetch.FetchMetrics | lib/aws-ecs.go:124-151 | the pass never fails; a key is present iff it is the key of a query of some schema graph that succeeded, and it holds that answer |
| Fetch.QueriesFollowSchema | lib/aws-ecs.go:127-147 | the queries of a graph are its lines in order: same keys, a summary line asks for the statistic it is labelled with, the task line asks for the SampleCount of CPUUtilization |
| Fetch.SnapshotKeysAreLines | lib/aws-ecs.go:124-151 | every snapshot key is the name of a line of the schema |
| Fetch.AnsweredLineStored | lib/aws-ecs.go:130-146 | the i-th query of a schema graph is stored under the name of the graph's i-th line, and that key is in the snapshot whenever that one query's request returns data points, whatever the other queries get |
| Fetch.AnsweredPassFillsSchema | lib/aws-ecs.go:124-151 | when every query returns data points the snapshot's keys are exactly the schema's line names |
| Fetch.FailingPassYieldsEmptySnapshot | lib/aws-ecs.go:130-146 | when every query errs or returns no points the pass still succeeds, with an empty snapshot |
| Fetch.AnswersDetermineSnapshot | lib/aws-ecs.go:127-148 | the answers to the schema's queries determine the snapshot completely |
| Fetch.FetchOrderIrrelevant | lib/aws-ecs.go:127 | any two orders of visiting the schema's graphs give the same snapshot |
| Fetch.TaskQueryIsServiceScoped | lib/aws-ecs.go:128-130 | the task graph issues one query: CPUUtilization, SampleCount, with the cluster and service dimensions |
| Fetch.GraphLineNames | lib/aws-ecs.go:158-206 | every line name of the schema is one of the seven service-scope names or one of the twelve cluster-scope names |
| Fetch.LineNamesWithin | lib/aws-ecs.go:158-206 | the line names of the schema lie within the listed names of its scope |
| Fetch.SnapshotSize | lib/aws-ecs.go:124-151 | a snapshot has at most 7 keys with a service configured and at most 12 without |

## Left out

- `prepare` (session and credential setup) and `Do` (flag parsing, the fatal exit on a setup error, handing off to the plugin helper): process plumbing with no logic to state.
- The CloudWatch `GetMetricStatistics` call itself: it is the `cloudWatch` function of the plugin record, an arbitrary total function of the request.
- `time.Now()`: the two readings of one query are the `Clock` parameter.
- Fetch.FetchMetrics: gives every query of a pass the same two clock readings, while the source reads the clock afresh for each query. This is what makes the snapshot independent of the visiting order.
- Go map iteration order in `FetchMetrics`: the visiting order is a parameter, any duplicate-free listing of the schema's graph names.
- `log.Printf` of failed queries: output only; a failed query simply leaves its key out.
- Float semantics of `float64`: values are only copied, so they are `real`.
- `strings.Title`: its Unicode word rules are not modelled; it is the `title` parameter of `GraphDefinition`, and only the hyphen replacement and the concatenation are.
- Missing statistic fields in a returned data point: CloudWatch fills in only the statistic a request asks for, and the source dereferences that one field's pointer, which would panic if it were nil; the model's data points carry a value for every statistic and only the requested one is read. Likewise the loop dereferences every point's timestamp pointer (`lib/aws-ecs.go:105-106`), which would panic on a nil timestamp; a model data point always has a timestamp.
- Fields of the helper's graph and metric records that the plugin leaves unset (stacking, diff, scale), and the credential and region fields of the plugin record.
