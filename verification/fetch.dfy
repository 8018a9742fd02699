/**
  One collection pass (FetchMetrics): every graph of the schema is turned into
  its queries, every query is answered by getLastPoint, and the answers are
  stored under the keys of the graph lines; a failed query leaves its key out.
*/
module Fetch {
  import opened Ecs
  import opened Graphs
  import opened LastPoint

  /** One query of a pass and the snapshot key its answer is stored under. */
  datatype Query = Query(key: string, metric: Metric)

  /** The queries the pass issues for one graph: the task graph is the sample
      count of CPU utilization, stored under TaskRunning; every other graph is
      its summary statistics, each stored under the graph name followed by the
      statistic name. */
  function Queries(name: string): (qs: seq<Query>)
    ensures |qs| == if name == Task then 1 else |Summaries|
  {
    if name == Task then
      [Query(name + "Running", Metric(CPUUtilization, StatisticName(SampleCount)))]
    else
      seq(|Summaries|, i requires 0 <= i < |Summaries| =>
        Query(name + StatisticName(Summaries[i]), Metric(name, StatisticName(Summaries[i]))))
  }

  /** The task graph asks for the sample count of CPU utilization under the
      key TaskRunning; every other graph asks for its own metric once per
      summary statistic, in order, under the graph name followed by the
      statistic's name. */
  lemma QueriesListed(name: string)
    ensures name == Task ==> Queries(name) == [Query("TaskRunning", Metric(CPUUtilization, "SampleCount"))]
    ensures name != Task ==> forall i :: 0 <= i < |Queries(name)| ==>
      && Queries(name)[i].metric.name == name
      && ParseStatistic(Queries(name)[i].metric.statType) == Some(Summaries[i])
      && Queries(name)[i].key == name + Queries(name)[i].metric.statType
  {
    if name == Task {
      assert name + "Running" == "TaskRunning";
    }
  }

  /** The queries of a pass over `names`, in the order they are issued. */
  function Plan(names: seq<string>): (qs: seq<Query>)
    ensures |qs| >= |names|
  {
    if names == [] then []
    else Plan(names[..|names| - 1]) + Queries(names[|names| - 1])
  }

  /** A pass issues exactly the queries of the graphs it goes over. */
  lemma {:induction false} PlanMembers(names: seq<string>)
    ensures forall q :: q in Plan(names) <==> exists i :: 0 <= i < |names| && q in Queries(names[i])
  {
    if names != [] {
      var init := names[..|names| - 1];
      PlanMembers(init);
      forall q | q in Plan(names)
        ensures exists i :: 0 <= i < |names| && q in Queries(names[i])
      {
        if q in Plan(init) {
          var i :| 0 <= i < |init| && q in Queries(init[i]);
          assert names[i] == init[i];
        } else {
          assert q in Queries(names[|names| - 1]);
        }
      }
      forall q | exists i :: 0 <= i < |names| && q in Queries(names[i])
        ensures q in Plan(names)
      {
        var i :| 0 <= i < |names| && q in Queries(names[i]);
        if i < |init| {
          assert init[i] == names[i];
        }
      }
    }
  }

  /** No two queries of `qs` share a key unless they are the same query. */
  ghost predicate KeysDetermineQueries(qs: seq<Query>)
  {
    forall i, j :: 0 <= i < |qs| && 0 <= j < |qs| && qs[i].key == qs[j].key ==> qs[i] == qs[j]
  }

  /** Two keys that end in suffixes of the same length are equal only when
      their heads and their suffixes are. */
  lemma {:induction false} SplitKey(a: string, s: string, b: string, t: string)
    requires |s| == |t| && a + s == b + t
    ensures a == b && s == t
  {
    assert a == (a + s)[..|a|];
    assert b == (b + t)[..|b|];
    assert s == (a + s)[|a|..];
    assert t == (b + t)[|b|..];
  }

  /** The key of a query names the query: whichever graphs two queries come
      from, they are the same query when their keys agree. */
  lemma QueryKeyInjective(n1: string, n2: string, q1: Query, q2: Query)
    requires q1 in Queries(n1) && q2 in Queries(n2) && q1.key == q2.key
    ensures q1 == q2
  {
    var i1 :| 0 <= i1 < |Queries(n1)| && Queries(n1)[i1] == q1;
    var i2 :| 0 <= i2 < |Queries(n2)| && Queries(n2)[i2] == q2;
    var s1 := if n1 == Task then "Running" else StatisticName(Summaries[i1]);
    var s2 := if n2 == Task then "Running" else StatisticName(Summaries[i2]);
    assert q1.key == n1 + s1;
    assert q2.key == n2 + s2;
    SplitKey(n1, s1, n2, s2);
    if n1 != Task && n2 != Task {
      assert i1 == i2;
    }
  }

  /** The queries of any pass have keys that determine them. */
  lemma PlanKeysDetermineQueries(names: seq<string>)
    ensures KeysDetermineQueries(Plan(names))
  {
    var qs := Plan(names);
    PlanMembers(names);
    forall i, j | 0 <= i < |qs| && 0 <= j < |qs| && qs[i].key == qs[j].key
      ensures qs[i] == qs[j]
    {
      assert qs[i] in qs && qs[j] in qs;
      var a :| 0 <= a < |names| && qs[i] in Queries(names[a]);
      var b :| 0 <= b < |names| && qs[j] in Queries(names[b]);
      QueryKeyInjective(names[a], names[b], qs[i], qs[j]);
    }
  }

  /** Runs the queries of `qs` in order, each answered by `ans`, and stores
      each answer under its key; a failed query stores nothing. */
  function Store(ans: Metric -> Result<real>, qs: seq<Query>): (stat: map<string, real>)
    requires KeysDetermineQueries(qs)
    ensures forall k :: k in stat ==> exists q :: q in qs && q.key == k && ans(q.metric) == Ok(stat[k])
    ensures forall q :: q in qs && ans(q.metric).Ok? ==> q.key in stat && stat[q.key] == ans(q.metric).value
  {
    if qs == [] then map[]
    else
      var earlier := Store(ans, qs[..|qs| - 1]);
      var q := qs[|qs| - 1];
      assert qs == qs[..|qs| - 1] + [q];
      match ans(q.metric)
      case Ok(v) => earlier[q.key := v]
      case Err(_) => earlier
  }

  /** `stat` holds the answers `ans` gives to the queries `plan` makes of the
      graphs `g`, keyed as a pass keys them, and nothing else. */
  ghost predicate HoldsAnswers(ans: Metric -> Result<real>, plan: string -> seq<Query>, g: set<string>, stat: map<string, real>)
  {
    && (forall k :: k in stat ==> exists n, q :: n in g && q in plan(n) && q.key == k)
    && (forall n, q :: n in g && q in plan(n) ==> (q.key in stat <==> ans(q.metric).Ok?))
    && (forall n, q :: n in g && q in plan(n) && q.key in stat ==> ans(q.metric) == Ok(stat[q.key]))
  }

  /** A pass over `names` stores exactly the answers to the queries of the
      graphs it visits. */
  lemma StoreHoldsAnswers(ans: Metric -> Result<real>, names: seq<string>, g: set<string>)
    requires forall n :: n in names <==> n in g
    ensures KeysDetermineQueries(Plan(names))
    ensures HoldsAnswers(ans, Queries, g, Store(ans, Plan(names)))
  {
    PlanKeysDetermineQueries(names);
    PlanMembers(names);
    var stat := Store(ans, Plan(names));
    forall k | k in stat
      ensures exists n, q :: n in g && q in Queries(n) && q.key == k
    {
      var q :| q in Plan(names) && q.key == k && ans(q.metric) == Ok(stat[k]);
      var a :| 0 <= a < |names| && q in Queries(names[a]);
      assert names[a] in g;
    }
    forall n, q | n in g && q in Queries(n) && q.key in stat
      ensures ans(q.metric) == Ok(stat[q.key])
    {
      var q' :| q' in Plan(names) && q'.key == q.key && ans(q'.metric) == Ok(stat[q.key]);
      var a :| 0 <= a < |names| && q' in Queries(names[a]);
      QueryKeyInjective(n, names[a], q, q');
    }
    forall n, q | n in g && q in Queries(n)
      ensures q.key in stat <==> ans(q.metric).Ok?
    {
      assert q in Plan(names);
    }
  }

  /** The answers of a pass: every query is answered by getLastPoint with the
      pass's clock readings. */
  function Answers(p: Plugin, clock: Clock): Metric -> Result<real>
  {
    m => GetLastPoint(p, clock, m)
  }

  /** `order` lists every graph of the schema exactly once, as ranging over a
      Go map does. */
  ghost predicate Enumerates(order: seq<string>, g: map<string, Graph>)
  {
    && (forall i, j :: 0 <= i < j < |order| ==> order[i] != order[j])
    && (forall n :: n in order <==> n in g)
  }

  /** FetchMetrics: never fails; a key is in the snapshot exactly when it is
      the key of a query of some graph of the schema and that query succeeded,
      and then it holds that query's answer. */
  function FetchMetrics(p: Plugin, title: string -> string, clock: Clock, order: seq<string>)
    : (r: Result<map<string, real>>)
    requires Enumerates(order, GraphDefinition(p, title))
    ensures r.Ok?
    ensures forall k :: k in r.value ==>
      exists n, q :: n in GraphDefinition(p, title) && q in Queries(n) && q.key == k
    ensures forall n, q :: n in GraphDefinition(p, title) && q in Queries(n) ==>
      (q.key in r.value <==> GetLastPoint(p, clock, q.metric).Ok?)
    ensures forall n, q :: n in GraphDefinition(p, title) && q in Queries(n) && q.key in r.value ==>
      GetLastPoint(p, clock, q.metric) == Ok(r.value[q.key])
  {
    StoreHoldsAnswers(Answers(p, clock), order, GraphDefinition(p, title).Keys);
    Ok(Store(Answers(p, clock), Plan(order)))
  }

  /** The queries of a graph are its lines: one query per line, stored under
      the line's name; a summary line asks for the statistic it is labelled
      with, and the task line asks for the sample count of CPU utilization. */
  lemma QueriesFollowSchema(p: Plugin, title: string -> string, n: string)
    requires n in GraphDefinition(p, title)
    ensures var lines := GraphDefinition(p, title)[n].metrics;
      && |Queries(n)| == |lines|
      && (forall i :: 0 <= i < |lines| ==> Queries(n)[i].key == lines[i].name)
      && (n != Task ==> forall i :: 0 <= i < |lines| ==> Queries(n)[i].metric == Metric(n, lines[i].caption))
      && (n == Task ==> Queries(n)[0].metric == Metric(CPUUtilization, "SampleCount"))
  {
    GraphDefinitionIsReference(p, title);
  }

  /** The names of all lines of a schema. */
  ghost function LineNames(g: map<string, Graph>): set<string>
  {
    set n, m | n in g && m in g[n].metrics :: m.name
  }

  lemma LineNamed(g: map<string, Graph>, n: string, i: int)
    requires n in g && 0 <= i < |g[n].metrics|
    ensures g[n].metrics[i].name in LineNames(g)
  {
    assert g[n].metrics[i] in g[n].metrics;
  }

  /** Every key of a snapshot names a line of the schema; a snapshot is never
      a superset of what the schema declares. */
  lemma SnapshotKeysAreLines(p: Plugin, title: string -> string, clock: Clock, order: seq<string>)
    requires Enumerates(order, GraphDefinition(p, title))
    ensures FetchMetrics(p, title, clock, order).value.Keys <= LineNames(GraphDefinition(p, title))
  {
    var g := GraphDefinition(p, title);
    forall k | k in FetchMetrics(p, title, clock, order).value
      ensures k in LineNames(g)
    {
      var n, q :| n in g && q in Queries(n) && q.key == k;
      QueriesFollowSchema(p, title, n);
      var i :| 0 <= i < |Queries(n)| && Queries(n)[i] == q;
      LineNamed(g, n, i);
    }
  }

  /** A line of the schema whose own query CloudWatch answers with some data
      points is in the snapshot, whatever the other queries of the pass get. */
  lemma AnsweredLineStored(p: Plugin, title: string -> string, clock: Clock, order: seq<string>, n: string, i: int)
    requires Enumerates(order, GraphDefinition(p, title))
    requires n in GraphDefinition(p, title) && 0 <= i < |Queries(n)|
    requires var answer := p.cloudWatch(BuildRequest(p, Queries(n)[i].metric, clock.now));
      answer.Ok? && answer.value != []
    ensures i < |GraphDefinition(p, title)[n].metrics|
    ensures GraphDefinition(p, title)[n].metrics[i].name == Queries(n)[i].key
    ensures Queries(n)[i].key in FetchMetrics(p, title, clock, order).value
  {
    QueriesFollowSchema(p, title, n);
    assert Queries(n)[i] in Queries(n);
  }

  /** When CloudWatch answers every request with some data points, the
      snapshot holds a value for every line of the schema. */
  lemma AnsweredPassFillsSchema(p: Plugin, title: string -> string, clock: Clock, order: seq<string>)
    requires Enumerates(order, GraphDefinition(p, title))
    requires forall req :: p.cloudWatch(req).Ok? && p.cloudWatch(req).value != []
    ensures FetchMetrics(p, title, clock, order).value.Keys == LineNames(GraphDefinition(p, title))
  {
    var g := GraphDefinition(p, title);
    SnapshotKeysAreLines(p, title, clock, order);
    forall k | k in LineNames(g)
      ensures k in FetchMetrics(p, title, clock, order).value
    {
      var n, m :| n in g && m in g[n].metrics && m.name == k;
      var i :| 0 <= i < |g[n].metrics| && g[n].metrics[i] == m;
      QueriesFollowSchema(p, title, n);
      AnsweredLineStored(p, title, clock, order, n, i);
    }
  }

  /** When every query fails, whether by a CloudWatch error or by an empty
      series, the snapshot is empty and the pass still succeeds. */
  lemma FailingPassYieldsEmptySnapshot(p: Plugin, title: string -> string, clock: Clock, order: seq<string>)
    requires Enumerates(order, GraphDefinition(p, title))
    requires forall req :: p.cloudWatch(req).Err? || p.cloudWatch(req) == Ok([])
    ensures FetchMetrics(p, title, clock, order) == Ok(map[])
  {
  }

  /** Only one map holds the answers to the queries of a set of graphs. */
  lemma AnswersDetermineSnapshot(ans: Metric -> Result<real>, plan: string -> seq<Query>, g: set<string>,
                                 s1: map<string, real>, s2: map<string, real>)
    requires HoldsAnswers(ans, plan, g, s1) && HoldsAnswers(ans, plan, g, s2)
    ensures s1 == s2
  {
    forall k | k in s1
      ensures k in s2 && s2[k] == s1[k]
    {
      var n, q :| n in g && q in plan(n) && q.key == k;
    }
    assert s1.Keys == s2.Keys;
  }

  /** The order in which the schema's graphs are gone over does not change the
      snapshot. */
  lemma FetchOrderIrrelevant(p: Plugin, title: string -> string, clock: Clock, o1: seq<string>, o2: seq<string>)
    requires Enumerates(o1, GraphDefinition(p, title))
    requires Enumerates(o2, GraphDefinition(p, title))
    ensures FetchMetrics(p, title, clock, o1) == FetchMetrics(p, title, clock, o2)
  {
    var g := GraphDefinition(p, title);
    AnswersDetermineSnapshot(m => GetLastPoint(p, clock, m), Queries, g.Keys, FetchMetrics(p, title, clock, o1).value, FetchMetrics(p, title, clock, o2).value);
  }

  /** The task count is asked for at service scope: the cluster and the service
      dimension, the CPU utilization metric, the sample count statistic. */
  lemma TaskQueryIsServiceScoped(p: Plugin, title: string -> string, now: int)
    requires Task in GraphDefinition(p, title)
    ensures |Queries(Task)| == 1
    ensures var req := BuildRequest(p, Queries(Task)[0].metric, now);
      && req.dimensions == [Dimension("ClusterName", p.clusterName), Dimension("ServiceName", p.serviceName)]
      && req.metricName == CPUUtilization
      && req.statistics == ["SampleCount"]
  {
  }

  /** The line names of the schema at service scope. */
  const ServiceLines: set<string> :=
    {"CPUUtilizationAverage", "CPUUtilizationMinimum", "CPUUtilizationMaximum",
     "MemoryUtilizationAverage", "MemoryUtilizationMinimum", "MemoryUtilizationMaximum",
     "TaskRunning"}

  /** The line names of the schema at cluster scope. */
  const ClusterLines: set<string> :=
    {"CPUUtilizationAverage", "CPUUtilizationMinimum", "CPUUtilizationMaximum",
     "MemoryUtilizationAverage", "MemoryUtilizationMinimum", "MemoryUtilizationMaximum",
     "CPUReservationAverage", "CPUReservationMinimum", "CPUReservationMaximum",
     "MemoryReservationAverage", "MemoryReservationMinimum", "MemoryReservationMaximum"}

  /** The names of the lines of one graph of the schema. */
  lemma GraphLineNames(p: Plugin, title: string -> string, n: string, m: GraphMetric)
    requires n in GraphDefinition(p, title) && m in GraphDefinition(p, title)[n].metrics
    ensures m.name in (if p.serviceName != "" then ServiceLines else ClusterLines)
  {
    EntryIsReferenceGraph(p, title, n);
    ReferenceGraphListed(LabelPrefix(p, title), n);
    if n == CPUUtilization {
      assert n + "Average" == "CPUUtilizationAverage";
      assert n + "Minimum" == "CPUUtilizationMinimum";
      assert n + "Maximum" == "CPUUtilizationMaximum";
    } else if n == MemoryUtilization {
      assert n + "Average" == "MemoryUtilizationAverage";
      assert n + "Minimum" == "MemoryUtilizationMinimum";
      assert n + "Maximum" == "MemoryUtilizationMaximum";
    } else if n == Task {
      assert n + "Running" == "TaskRunning";
    } else if n == CPUReservation {
      assert n + "Average" == "CPUReservationAverage";
      assert n + "Minimum" == "CPUReservationMinimum";
      assert n + "Maximum" == "CPUReservationMaximum";
    } else {
      assert n == MemoryReservation;
      assert n + "Average" == "MemoryReservationAverage";
      assert n + "Minimum" == "MemoryReservationMinimum";
      assert n + "Maximum" == "MemoryReservationMaximum";
    }
  }

  /** Every line of the schema is one of the listed line names of its scope. */
  lemma LineNamesWithin(p: Plugin, title: string -> string)
    ensures LineNames(GraphDefinition(p, title)) <= if p.serviceName != "" then ServiceLines else ClusterLines
  {
    var g := GraphDefinition(p, title);
    forall k | k in LineNames(g)
      ensures k in (if p.serviceName != "" then ServiceLines else ClusterLines)
    {
      var n, m :| n in g && m in g[n].metrics && m.name == k;
      GraphLineNames(p, title, n, m);
    }
  }

  lemma ServiceLineCount()
    ensures |ServiceLines| == 7
  {
  }

  lemma ClusterLineCount()
    ensures |ClusterLines| == 12
  {
  }

  /** A subset is no larger than its superset. */
  lemma {:induction false} SubsetNoLarger(a: set<string>, b: set<string>)
    requires a <= b
    ensures |a| <= |b|
    decreases a
  {
    if a != {} {
      var x :| x in a;
      SubsetNoLarger(a - {x}, b - {x});
    }
  }

  /** A snapshot has at most seven keys at service scope and at most twelve
      at cluster scope. */
  lemma SnapshotSize(p: Plugin, title: string -> string, clock: Clock, order: seq<string>)
    requires Enumerates(order, GraphDefinition(p, title))
    ensures |FetchMetrics(p, title, clock, order).value| <= if p.serviceName != "" then 7 else 12
  {
    var keys := FetchMetrics(p, title, clock, order).value.Keys;
    var lines := if p.serviceName != "" then ServiceLines else ClusterLines;
    SnapshotKeysAreLines(p, title, clock, order);
    LineNamesWithin(p, title);
    ServiceLineCount();
    ClusterLineCount();
    SubsetNoLarger(keys, lines);
  }
}
