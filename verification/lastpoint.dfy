/**
  One CloudWatch query and the choice of the data point it reports
  (getLastPoint): the request is built from the plugin's scope, and of the
  returned points the earliest one before a clock reading is kept.
*/
module LastPoint {
  import opened Ecs

  /** The two clock readings a query takes: `now` bounds the request window,
      and `least` is the later reading the selection starts from. */
  datatype Clock = Clock(now: int, least: int)

  const NoDatapoints: string := "fetched no datapoints"

  /** The lookback of every request, and its aggregation period, in seconds. */
  const WindowSeconds: int := 180
  const PeriodSeconds: int := 60

  /** The dimensions of every request: the cluster, and the service when one
      is configured. */
  function Dimensions(p: Plugin): (ds: seq<Dimension>)
    ensures 1 <= |ds| <= 2
    ensures ds[0] == Dimension("ClusterName", p.clusterName)
    ensures |ds| == 2 <==> p.serviceName != ""
    ensures |ds| == 2 ==> ds[1] == Dimension("ServiceName", p.serviceName)
  {
    var cluster := [Dimension("ClusterName", p.clusterName)];
    if p.serviceName != "" then cluster + [Dimension("ServiceName", p.serviceName)] else cluster
  }

  /** The request for one metric: the last three minutes up to `now`, in
      one-minute periods, for the one statistic asked for. */
  function BuildRequest(p: Plugin, m: Metric, now: int): (req: Request)
    ensures req.namespace == Namespace && req.metricName == m.name
    ensures req.statistics == [m.statType]
    ensures req.dimensions == Dimensions(p)
    ensures req.period == PeriodSeconds && req.startTime == now - WindowSeconds
    ensures req.endTime == now && req.startTime < req.endTime
    ensures req.endTime - req.startTime == 3 * req.period
  {
    Request(Namespace, m.name, Dimensions(p), now - WindowSeconds, now, PeriodSeconds, [m.statType])
  }

  /** The value of one statistic in a data point. */
  function Field(dp: DataPoint, k: Statistic): real
  {
    match k
    case Average => dp.average
    case Minimum => dp.minimum
    case Maximum => dp.maximum
    case SampleCount => dp.sampleCount
  }

  /** The value the selection keeps when it picks `dp`: the field the statistic
      name selects, or the value kept so far when the name selects none. */
  function Extract(dp: DataPoint, statType: string, kept: real): (r: real)
    ensures forall k :: StatisticName(k) == statType ==> r == Field(dp, k)
    ensures (forall k :: StatisticName(k) != statType) ==> r == kept
  {
    match ParseStatistic(statType)
    case Some(k) => Field(dp, k)
    case None => kept
  }

  /** The selection loop as a left fold: the marker `least` and the value `val`
      are replaced whenever a point is strictly earlier than the marker. */
  function Scan(ps: seq<DataPoint>, statType: string, least: int, val: real): (r: (int, real))
    ensures r.0 <= least && forall j :: 0 <= j < |ps| ==> r.0 <= ps[j].timestamp
    ensures r.0 == least || exists j :: 0 <= j < |ps| && ps[j].timestamp == r.0
    ensures r.0 == least ==> r.1 == val
  {
    if ps == [] then (least, val)
    else if ps[0].timestamp < least then
      Scan(ps[1..], statType, ps[0].timestamp, Extract(ps[0], statType, val))
    else
      Scan(ps[1..], statType, least, val)
  }

  /** `i` is the first point of `ps` with the smallest timestamp. */
  ghost predicate IsFirstEarliest(ps: seq<DataPoint>, i: int)
  {
    && 0 <= i < |ps|
    && (forall j :: 0 <= j < |ps| ==> ps[i].timestamp <= ps[j].timestamp)
    && (forall j :: 0 <= j < i ==> ps[i].timestamp < ps[j].timestamp)
  }

  /** The first earliest point of a non-empty series, found from the right. */
  function EarliestIndex(ps: seq<DataPoint>): (i: nat)
    requires |ps| > 0
    ensures IsFirstEarliest(ps, i)
    ensures forall j :: IsFirstEarliest(ps, j) ==> j == i
  {
    if |ps| == 1 then 0
    else
      var j := EarliestIndex(ps[1..]) + 1;
      if ps[0].timestamp <= ps[j].timestamp then 0 else j
  }

  /** When no point is earlier than the marker, the fold changes nothing. */
  lemma {:induction false} ScanKeepsWhenNoneEarlier(ps: seq<DataPoint>, statType: string, least: int, val: real)
    requires forall j :: 0 <= j < |ps| ==> least <= ps[j].timestamp
    ensures Scan(ps, statType, least, val) == (least, val)
  {
    if ps != [] {
      ScanKeepsWhenNoneEarlier(ps[1..], statType, least, val);
    }
  }

  /** The fold ends on the first earliest point when that point is before the
      marker, and changes nothing otherwise. */
  lemma {:induction false} ScanPicksFirstEarliest(ps: seq<DataPoint>, statType: string, least: int, val: real, i: int)
    requires IsFirstEarliest(ps, i)
    ensures ps[i].timestamp < least ==>
      Scan(ps, statType, least, val) == (ps[i].timestamp, Extract(ps[i], statType, val))
    ensures least <= ps[i].timestamp ==> Scan(ps, statType, least, val) == (least, val)
  {
    if least <= ps[i].timestamp {
      ScanKeepsWhenNoneEarlier(ps, statType, least, val);
    } else if i == 0 {
      ScanKeepsWhenNoneEarlier(ps[1..], statType, ps[0].timestamp, Extract(ps[0], statType, val));
    } else {
      var val' := if ps[0].timestamp < least then Extract(ps[0], statType, val) else val;
      var least' := if ps[0].timestamp < least then ps[0].timestamp else least;
      assert IsFirstEarliest(ps[1..], i - 1);
      ScanPicksFirstEarliest(ps[1..], statType, least', val', i - 1);
      assert Extract(ps[i], statType, val') == Extract(ps[i], statType, val);
    }
  }

  /** getLastPoint: a query error is passed on, an empty series is an error,
      and otherwise the value reported is the requested statistic of the
      earliest point (the first of equally early ones) when it is before the
      selection marker, and 0 when no point is. */
  function GetLastPoint(p: Plugin, clock: Clock, m: Metric): (r: Result<real>)
    ensures p.cloudWatch(BuildRequest(p, m, clock.now)).Err? ==>
      r == Err(p.cloudWatch(BuildRequest(p, m, clock.now)).error)
    ensures p.cloudWatch(BuildRequest(p, m, clock.now)) == Ok([]) ==> r == Err(NoDatapoints)
    ensures p.cloudWatch(BuildRequest(p, m, clock.now)).Ok? && p.cloudWatch(BuildRequest(p, m, clock.now)).value != [] ==>
      var ps := p.cloudWatch(BuildRequest(p, m, clock.now)).value;
      r.Ok? && forall i :: IsFirstEarliest(ps, i) ==>
        r.value == (if ps[i].timestamp < clock.least then Extract(ps[i], m.statType, 0.0) else 0.0)
  {
    var response := p.cloudWatch(BuildRequest(p, m, clock.now));
    if response.Err? then Err(response.error)
    else if |response.value| == 0 then Err(NoDatapoints)
    else
      var ps := response.value;
      ScanPicksFirstEarliest(ps, m.statType, clock.least, 0.0, EarliestIndex(ps));
      Ok(Scan(ps, m.statType, clock.least, 0.0).1)
  }

  /** A series in ascending time order that starts before the marker reports
      its first point, not its newest one. */
  lemma AscendingSeriesReportsFirst(p: Plugin, clock: Clock, m: Metric, k: Statistic)
    requires ParseStatistic(m.statType) == Some(k)
    requires p.cloudWatch(BuildRequest(p, m, clock.now)).Ok?
    requires var ps := p.cloudWatch(BuildRequest(p, m, clock.now)).value;
      && |ps| > 0
      && ps[0].timestamp < clock.least
      && forall i, j :: 0 <= i < j < |ps| ==> ps[i].timestamp < ps[j].timestamp
    ensures GetLastPoint(p, clock, m) == Ok(Field(p.cloudWatch(BuildRequest(p, m, clock.now)).value[0], k))
  {
    var ps := p.cloudWatch(BuildRequest(p, m, clock.now)).value;
    assert IsFirstEarliest(ps, 0);
  }

  /** Of two points with the same timestamp before the marker, the first one is
      reported. */
  lemma TieGoesToFirst(p: Plugin, clock: Clock, m: Metric, a: DataPoint, b: DataPoint)
    requires p.cloudWatch(BuildRequest(p, m, clock.now)) == Ok([a, b])
    requires a.timestamp == b.timestamp < clock.least
    ensures GetLastPoint(p, clock, m) == Ok(Extract(a, m.statType, 0.0))
  {
    assert IsFirstEarliest([a, b], 0);
  }

  /** A non-empty series with no point before the marker reports 0 without an
      error. */
  lemma NothingBeforeMarkerReportsZero(p: Plugin, clock: Clock, m: Metric)
    requires p.cloudWatch(BuildRequest(p, m, clock.now)).Ok?
    requires var ps := p.cloudWatch(BuildRequest(p, m, clock.now)).value;
      && |ps| > 0
      && forall i :: 0 <= i < |ps| ==> clock.least <= ps[i].timestamp
    ensures GetLastPoint(p, clock, m) == Ok(0.0)
  {
    var ps := p.cloudWatch(BuildRequest(p, m, clock.now)).value;
    var i := EarliestIndex(ps);
  }
}
