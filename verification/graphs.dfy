/**
  The graph schema of the plugin: the metric-key prefix and the graph
  definition, whose shape depends on whether a service is configured.
*/
module Graphs {
  import opened Ecs

  /** The prefix of every metric key; "ECS" stands in for an empty one. */
  function MetricKeyPrefix(p: Plugin): (r: string)
    ensures r != ""
    ensures p.prefix != "" ==> r == p.prefix
    ensures p.prefix == "" ==> r == "ECS"
  {
    if p.prefix == "" then "ECS" else p.prefix
  }

  /** `strings.Replace(s, "-", " ", -1)`: every hyphen becomes a space. */
  function ReplaceHyphens(s: string): (r: string)
    ensures |r| == |s|
    ensures forall i :: 0 <= i < |s| ==> r[i] == (if s[i] == '-' then ' ' else s[i])
    ensures '-' !in r
  {
    if s == [] then []
    else [if s[0] == '-' then ' ' else s[0]] + ReplaceHyphens(s[1..])
  }

  /** The words in front of every graph label: the title-cased prefix with
      hyphens turned into spaces. `title` stands for Go's `strings.Title`. */
  function LabelPrefix(p: Plugin, title: string -> string): (r: string)
    ensures |r| == |title(p.prefix)| && '-' !in r
    ensures forall i :: 0 <= i < |r| ==> r[i] == (if title(p.prefix)[i] == '-' then ' ' else title(p.prefix)[i])
  {
    ReplaceHyphens(title(p.prefix))
  }

  /** The graph names of the schema for the plugin's scope. */
  function GraphNames(p: Plugin): set<string>
  {
    if p.serviceName != "" then {CPUUtilization, MemoryUtilization, Task}
    else {CPUUtilization, MemoryUtilization, CPUReservation, MemoryReservation}
  }

  /** The schema: utilization graphs always, plus the task graph when a service
      is configured and the reservation graphs otherwise. */
  function GraphDefinition(p: Plugin, title: string -> string): (g: map<string, Graph>)
    ensures CPUUtilization in g && MemoryUtilization in g
    ensures Task in g <==> p.serviceName != ""
    ensures CPUReservation in g <==> p.serviceName == ""
    ensures MemoryReservation in g <==> p.serviceName == ""
    ensures g.Keys == GraphNames(p)
  {
    var labelPrefix := LabelPrefix(p, title);
    var baseGraphs := map[
      "CPUUtilization" := Graph(labelPrefix + " CPUUtilization", "percentage", [
        GraphMetric("CPUUtilizationAverage", "Average"),
        GraphMetric("CPUUtilizationMinimum", "Minimum"),
        GraphMetric("CPUUtilizationMaximum", "Maximum")]),
      "MemoryUtilization" := Graph(labelPrefix + " MemoryUtilization", "percentage", [
        GraphMetric("MemoryUtilizationAverage", "Average"),
        GraphMetric("MemoryUtilizationMinimum", "Minimum"),
        GraphMetric("MemoryUtilizationMaximum", "Maximum")])];
    if p.serviceName != "" then
      baseGraphs["Task" := Graph(labelPrefix + " Task", "integer", [
        GraphMetric("TaskRunning", "Running")])]
    else
      baseGraphs
        ["CPUReservation" := Graph(labelPrefix + " CPUReservation", "percentage", [
          GraphMetric("CPUReservationAverage", "Average"),
          GraphMetric("CPUReservationMinimum", "Minimum"),
          GraphMetric("CPUReservationMaximum", "Maximum")])]
        ["MemoryReservation" := Graph(labelPrefix + " MemoryReservation", "percentage", [
          GraphMetric("MemoryReservationAverage", "Average"),
          GraphMetric("MemoryReservationMinimum", "Minimum"),
          GraphMetric("MemoryReservationMaximum", "Maximum")])]
  }

  /** The graph a name stands for, written once for every name: the task graph
      counts running tasks, every other graph shows the summary statistics of
      the metric of the same name. */
  function ReferenceGraph(labelPrefix: string, n: string): Graph
  {
    if n == Task then Graph(labelPrefix + " " + n, "integer", [GraphMetric(n + "Running", "Running")])
    else Graph(labelPrefix + " " + n, "percentage",
               seq(|Summaries|, i requires 0 <= i < |Summaries| =>
                 GraphMetric(n + StatisticName(Summaries[i]), StatisticName(Summaries[i]))))
  }

  /** The reference graph of a name, listed out. */
  lemma ReferenceGraphListed(labelPrefix: string, n: string)
    ensures n == Task ==>
      (ReferenceGraph(labelPrefix, n) ==
       Graph(labelPrefix + " " + n, "integer", [GraphMetric(n + "Running", "Running")]))
    ensures n != Task ==>
      (ReferenceGraph(labelPrefix, n) ==
       Graph(labelPrefix + " " + n, "percentage",
         [GraphMetric(n + "Average", "Average"), GraphMetric(n + "Minimum", "Minimum"),
          GraphMetric(n + "Maximum", "Maximum")]))
  {
  }

  /** The graphs of the schema one by one, each against its reference graph. */
  lemma CPUUtilizationEntry(p: Plugin, title: string -> string)
    requires CPUUtilization in GraphNames(p)
    ensures GraphDefinition(p, title)[CPUUtilization] == ReferenceGraph(LabelPrefix(p, title), CPUUtilization)
  {
    var n, lp := CPUUtilization, LabelPrefix(p, title);
    var lines := [
        GraphMetric("CPUUtilizationAverage", "Average"),
        GraphMetric("CPUUtilizationMinimum", "Minimum"),
        GraphMetric("CPUUtilizationMaximum", "Maximum")];
    assert ReferenceGraph(lp, n) == Graph(lp + " CPUUtilization", "percentage", lines) by {
      ReferenceGraphListed(lp, n);
      assert lp + " " + n == lp + ([' '] + n);
      assert [' '] + n == " CPUUtilization";
      assert n + "Average" == "CPUUtilizationAverage";
      assert n + "Minimum" == "CPUUtilizationMinimum";
      assert n + "Maximum" == "CPUUtilizationMaximum";
    }
    assert GraphDefinition(p, title)[n] == Graph(lp + " CPUUtilization", "percentage", lines);
  }

  lemma MemoryUtilizationEntry(p: Plugin, title: string -> string)
    requires MemoryUtilization in GraphNames(p)
    ensures GraphDefinition(p, title)[MemoryUtilization] == ReferenceGraph(LabelPrefix(p, title), MemoryUtilization)
  {
    var n, lp := MemoryUtilization, LabelPrefix(p, title);
    var lines := [
        GraphMetric("MemoryUtilizationAverage", "Average"),
        GraphMetric("MemoryUtilizationMinimum", "Minimum"),
        GraphMetric("MemoryUtilizationMaximum", "Maximum")];
    assert ReferenceGraph(lp, n) == Graph(lp + " MemoryUtilization", "percentage", lines) by {
      ReferenceGraphListed(lp, n);
      assert lp + " " + n == lp + ([' '] + n);
      assert [' '] + n == " MemoryUtilization";
      assert n + "Average" == "MemoryUtilizationAverage";
      assert n + "Minimum" == "MemoryUtilizationMinimum";
      assert n + "Maximum" == "MemoryUtilizationMaximum";
    }
    assert GraphDefinition(p, title)[n] == Graph(lp + " MemoryUtilization", "percentage", lines);
  }

  lemma CPUReservationEntry(p: Plugin, title: string -> string)
    requires CPUReservation in GraphNames(p)
    ensures GraphDefinition(p, title)[CPUReservation] == ReferenceGraph(LabelPrefix(p, title), CPUReservation)
  {
    var n, lp := CPUReservation, LabelPrefix(p, title);
    var lines := [
        GraphMetric("CPUReservationAverage", "Average"),
        GraphMetric("CPUReservationMinimum", "Minimum"),
        GraphMetric("CPUReservationMaximum", "Maximum")];
    assert ReferenceGraph(lp, n) == Graph(lp + " CPUReservation", "percentage", lines) by {
      ReferenceGraphListed(lp, n);
      assert lp + " " + n == lp + ([' '] + n);
      assert [' '] + n == " CPUReservation";
      assert n + "Average" == "CPUReservationAverage";
      assert n + "Minimum" == "CPUReservationMinimum";
      assert n + "Maximum" == "CPUReservationMaximum";
    }
    assert GraphDefinition(p, title)[n] == Graph(lp + " CPUReservation", "percentage", lines);
  }

  lemma MemoryReservationEntry(p: Plugin, title: string -> string)
    requires MemoryReservation in GraphNames(p)
    ensures GraphDefinition(p, title)[MemoryReservation] == ReferenceGraph(LabelPrefix(p, title), MemoryReservation)
  {
    var n, lp := MemoryReservation, LabelPrefix(p, title);
    var lines := [
        GraphMetric("MemoryReservationAverage", "Average"),
        GraphMetric("MemoryReservationMinimum", "Minimum"),
        GraphMetric("MemoryReservationMaximum", "Maximum")];
    assert ReferenceGraph(lp, n) == Graph(lp + " MemoryReservation", "percentage", lines) by {
      ReferenceGraphListed(lp, n);
      assert lp + " " + n == lp + ([' '] + n);
      assert [' '] + n == " MemoryReservation";
      assert n + "Average" == "MemoryReservationAverage";
      assert n + "Minimum" == "MemoryReservationMinimum";
      assert n + "Maximum" == "MemoryReservationMaximum";
    }
    assert GraphDefinition(p, title)[n] == Graph(lp + " MemoryReservation", "percentage", lines);
  }

  lemma TaskEntry(p: Plugin, title: string -> string)
    requires Task in GraphNames(p)
    ensures GraphDefinition(p, title)[Task] == ReferenceGraph(LabelPrefix(p, title), Task)
  {
    var n, lp := Task, LabelPrefix(p, title);
    var lines := [
        GraphMetric("TaskRunning", "Running")];
    assert ReferenceGraph(lp, n) == Graph(lp + " Task", "integer", lines) by {
      ReferenceGraphListed(lp, n);
      assert lp + " " + n == lp + ([' '] + n);
      assert [' '] + n == " Task";
      assert n + "Running" == "TaskRunning";
    }
    assert GraphDefinition(p, title)[n] == Graph(lp + " Task", "integer", lines);
  }

  /** One graph the schema lists is the reference graph of its name. */
  lemma EntryIsReferenceGraph(p: Plugin, title: string -> string, n: string)
    requires n in GraphDefinition(p, title)
    ensures GraphDefinition(p, title)[n] == ReferenceGraph(LabelPrefix(p, title), n)
  {
    if n == CPUUtilization {
      CPUUtilizationEntry(p, title);
    } else if n == MemoryUtilization {
      MemoryUtilizationEntry(p, title);
    } else if n == Task {
      TaskEntry(p, title);
    } else if n == CPUReservation {
      CPUReservationEntry(p, title);
    } else {
      MemoryReservationEntry(p, title);
    }
  }

  /** Each graph the schema lists is the reference graph of its name. */
  lemma GraphDefinitionIsReference(p: Plugin, title: string -> string)
    ensures forall n :: n in GraphDefinition(p, title) ==>
      GraphDefinition(p, title)[n] == ReferenceGraph(LabelPrefix(p, title), n)
  {
    forall n | n in GraphDefinition(p, title)
      ensures GraphDefinition(p, title)[n] == ReferenceGraph(LabelPrefix(p, title), n)
    {
      EntryIsReferenceGraph(p, title, n);
    }
  }

  /** The captions use the configured prefix as it is, not the metric-key
      prefix: with an empty prefix the keys are prefixed "ECS" but every
      caption starts with a bare space. */
  lemma EmptyPrefixCaptions(p: Plugin, title: string -> string)
    requires p.prefix == "" && title("") == ""
    ensures MetricKeyPrefix(p) == "ECS"
    ensures forall n :: n in GraphDefinition(p, title) ==> GraphDefinition(p, title)[n].caption == " " + n
  {
    GraphDefinitionIsReference(p, title);
    assert LabelPrefix(p, title) == "";
  }
}
