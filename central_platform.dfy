/**
 * The central ingestor (`central-platform/main.py`): it subscribes to the
 * gateways' processed channels, dispatches each message by substring tests on
 * its topic, and turns a metrics payload into one time-series point per metric,
 * written one after another to the sink. The sink is modelled as the sequence
 * of points it has accepted; status and alert messages are only logged.
 */
module CentralPlatform {
  import opened Wrappers
  import opened Json
  import opened Mqtt
  import OtelProcessor

  // ---------------------------------------------------------------------------
  // Subscriptions and dispatch

  /** The topic filters `on_mqtt_connect` subscribes to, in order. */
  const Subscriptions := ["greengrid/edge/+/metrics", "greengrid/edge/+/status", "greengrid/edge/+/alerts"]

  /** `on_mqtt_connect`: the subscriptions made for a connect result code. */
  function OnConnect(rc: int): (subscriptions: seq<string>)
    ensures rc == 0 ==> subscriptions == [EdgeFilter("metrics"), EdgeFilter("status"), EdgeFilter("alerts")]
    ensures rc != 0 ==> subscriptions == []
  {
    assert EdgeFilter("metrics") == "greengrid/edge/" + "+" + "/" + "metrics" == Subscriptions[0];
    assert EdgeFilter("status") == "greengrid/edge/" + "+" + "/" + "status" == Subscriptions[1];
    assert EdgeFilter("alerts") == "greengrid/edge/" + "+" + "/" + "alerts" == Subscriptions[2];
    if rc == 0 then Subscriptions else []
  }

  /** The handler `on_mqtt_message` runs for a topic. */
  datatype Handler = MetricsHandler | StatusHandler | AlertsHandler | NoHandler

  /** The `if`/`elif` chain: the first of `/metrics`, `/status`, `/alerts` that occurs in the topic wins. */
  function Route(topic: string): (h: Handler)
    ensures h == MetricsHandler <==> Contains(topic, "/metrics")
    ensures h == StatusHandler <==> !Contains(topic, "/metrics") && Contains(topic, "/status")
    ensures h == AlertsHandler <==> !Contains(topic, "/metrics") && !Contains(topic, "/status") && Contains(topic, "/alerts")
    ensures h == NoHandler <==> !Contains(topic, "/metrics") && !Contains(topic, "/status") && !Contains(topic, "/alerts")
  {
    if Contains(topic, "/metrics") then MetricsHandler
    else if Contains(topic, "/status") then StatusHandler
    else if Contains(topic, "/alerts") then AlertsHandler
    else NoHandler
  }

  /** Every gateway's `metrics` topic reaches `process_metrics`, whatever the gateway id. */
  lemma MetricsTopicRouted(gatewayId: string)
    ensures Route(EdgeTopic(gatewayId, "metrics")) == MetricsHandler
  {
    assert EdgeTopic(gatewayId, "metrics") == ("greengrid/edge/" + gatewayId) + "/metrics";
    ContainsSuffix("greengrid/edge/" + gatewayId, "/metrics");
  }

  /**
   * The order of the tests matters: a status message from a gateway whose id
   * begins with `metrics` contains `/metrics` and is handed to `process_metrics`.
   */
  lemma StatusOfMetricsNamedGateway(rest: string)
    ensures Route(EdgeTopic("metrics" + rest, "status")) == MetricsHandler
  {
    assert EdgeTopic("metrics" + rest, "status") == "greengrid/edge" + "/metrics" + (rest + "/status");
    ContainsInfix("greengrid/edge", "/metrics", rest + "/status");
  }

  /** A string contains whatever occurs inside it. */
  lemma {:induction false} ContainsInfix(p: string, sub: string, q: string)
    ensures Contains(p + sub + q, sub)
    decreases |p|
  {
    if p == [] {
      assert p + sub + q == sub + q;
      assert (sub + q)[..|sub|] == sub;
    } else {
      assert (p + sub + q)[1..] == p[1..] + sub + q;
      ContainsInfix(p[1..], sub, q);
    }
  }

  /**
   * Every message the middleware republishes for a gateway with a single-level
   * id matches one of the subscriptions and is routed to `process_metrics`.
   */
  lemma ReceivesFilteredMetrics(gatewayId: string)
    requires '/' !in gatewayId
    ensures exists f :: f in OnConnect(0) && TopicMatches(f, EdgeTopic(gatewayId, "metrics"))
    ensures Route(EdgeTopic(gatewayId, "metrics")) == MetricsHandler
  {
    EdgeTopicMatched("metrics", gatewayId);
    assert EdgeFilter("metrics") in OnConnect(0);
    MetricsTopicRouted(gatewayId);
  }

  // ---------------------------------------------------------------------------
  // Points and `process_metrics`

  /** One time-series point: measurement, tags, one field and the time it carries. */
  datatype Point = Point(measurement: string, tags: seq<(string, Option<Value>)>, field: string, value: real, time: Value)

  /** The measurement every metric is written to. */
  const Measurement := "telco_metrics"

  /**
   * `float(v)`: numbers and bools convert; a string is parsed (`parseFloat`,
   * `None` for text such as `'discharging'`); `None`, lists and dicts raise.
   */
  function FloatOf(v: Value, parseFloat: string -> Option<real>): (r: Option<real>)
    ensures IsNum(v) ==> r == Some(Num(v))
    ensures v.Null? || v.List? || v.Dict? ==> r == None
  {
    match v
    case Str(s) => parseFloat(s)
    case Null => None
    case List(_) => None
    case Dict(_) => None
    case _ => Some(Num(v))
  }

  /** `data.get('timestamp', datetime.utcnow().isoformat())`: the payload's value whenever the key is present. */
  function PointTime(data: Entries, ingestedAt: string): Value {
    GetOr(data, "timestamp", Str(ingestedAt))
  }

  /** The two tags, `data.get('gateway_id')` and `data.get('gateway_type')`, absent values included. */
  function PointTags(data: Entries): seq<(string, Option<Value>)> {
    [("gateway_id", Lookup(data, "gateway_id")), ("gateway_type", Lookup(data, "gateway_type"))]
  }

  /**
   * The points the loop writes from the metrics starting at position `k`: one
   * per metric in order, stopping at the first value `float()` rejects or the
   * first write the sink refuses (`accepts(k)` is false when write `k` raises).
   */
  function Points(metrics: Entries, k: nat, tags: seq<(string, Option<Value>)>, time: Value,
                  parseFloat: string -> Option<real>, accepts: nat -> bool): seq<Point>
    decreases |metrics|
  {
    if metrics == [] then []
    else
      match FloatOf(metrics[0].1, parseFloat)
      case None => []
      case Some(x) =>
        if !accepts(k) then []
        else [Point(Measurement, tags, metrics[0].0, x, time)] + Points(metrics[1..], k + 1, tags, time, parseFloat, accepts)
  }

  /** One step of the loop: the points from position `i` on, unfolded once. */
  lemma PointsAt(metrics: Entries, i: nat, tags: seq<(string, Option<Value>)>, time: Value,
                 parseFloat: string -> Option<real>, accepts: nat -> bool)
    requires i < |metrics|
    ensures Points(metrics[i..], i, tags, time, parseFloat, accepts)
      == if FloatOf(metrics[i].1, parseFloat).None? || !accepts(i) then []
         else [Point(Measurement, tags, metrics[i].0, FloatOf(metrics[i].1, parseFloat).value, time)]
              + Points(metrics[i + 1..], i + 1, tags, time, parseFloat, accepts)
  {
    assert metrics[i..][0] == metrics[i];
    assert metrics[i..][1..] == metrics[i + 1..];
  }

  /** A metric the loop gets through: it converts and its write is accepted. */
  predicate Stored(metrics: Entries, j: nat, k: nat, parseFloat: string -> Option<real>, accepts: nat -> bool)
    requires j < |metrics|
  {
    FloatOf(metrics[j].1, parseFloat).Some? && accepts(k + j)
  }

  /**
   * The written points are a prefix of the metrics, one point each, with
   * measurement, tags, field name, converted value and time; the loop stops
   * exactly at the first metric it does not get through.
   */
  lemma {:induction false} PointsPrefix(metrics: Entries, k: nat, tags: seq<(string, Option<Value>)>, time: Value,
                                        parseFloat: string -> Option<real>, accepts: nat -> bool)
    ensures var p := Points(metrics, k, tags, time, parseFloat, accepts);
      && |p| <= |metrics|
      && (forall j :: 0 <= j < |p| ==>
            Stored(metrics, j, k, parseFloat, accepts)
            && p[j] == Point(Measurement, tags, metrics[j].0, FloatOf(metrics[j].1, parseFloat).value, time))
      && (|p| < |metrics| ==> !Stored(metrics, |p|, k, parseFloat, accepts))
    decreases |metrics|
  {
    if metrics != [] && FloatOf(metrics[0].1, parseFloat).Some? && accepts(k) {
      var rest := Points(metrics[1..], k + 1, tags, time, parseFloat, accepts);
      PointsPrefix(metrics[1..], k + 1, tags, time, parseFloat, accepts);
      var p := Points(metrics, k, tags, time, parseFloat, accepts);
      assert p[1..] == rest;
      forall j | 1 <= j < |p|
        ensures Stored(metrics, j, k, parseFloat, accepts)
        ensures p[j] == Point(Measurement, tags, metrics[j].0, FloatOf(metrics[j].1, parseFloat).value, time)
      {
        assert metrics[1..][j - 1] == metrics[j] && p[j] == rest[j - 1];
        assert Stored(metrics[1..], j - 1, k + 1, parseFloat, accepts);
      }
      if |p| < |metrics| {
        assert metrics[1..][|rest|] == metrics[|p|];
      }
    }
  }

  /** When every metric converts and every write is accepted, all of them are written. */
  lemma {:induction false} PointsAll(metrics: Entries, k: nat, tags: seq<(string, Option<Value>)>, time: Value,
                                     parseFloat: string -> Option<real>, accepts: nat -> bool)
    requires forall j :: 0 <= j < |metrics| ==> Stored(metrics, j, k, parseFloat, accepts)
    ensures |Points(metrics, k, tags, time, parseFloat, accepts)| == |metrics|
    decreases |metrics|
  {
    if metrics != [] {
      assert Stored(metrics, 0, k, parseFloat, accepts);
      var rest, next := metrics[1..], k + 1;
      forall j | 0 <= j < |rest|
        ensures Stored(rest, j, next, parseFloat, accepts)
      {
        assert Stored(metrics, j + 1, k, parseFloat, accepts);
        assert rest[j] == metrics[j + 1];
      }
      PointsAll(rest, next, tags, time, parseFloat, accepts);
    }
  }

  /**
   * What `process_metrics(data)` writes, for any decoded payload. The metrics
   * are `data.get('metrics', {})` read as the middleware reads them: a value
   * that is not a dict raises at `.items()` before any write.
   */
  function StoredPoints(payload: Value, ingestedAt: string, parseFloat: string -> Option<real>, accepts: nat -> bool): seq<Point> {
    if !payload.Dict? then []
    else
      var data := payload.entries;
      Points(OtelProcessor.RawMetrics(data), 0, PointTags(data), PointTime(data, ingestedAt), parseFloat, accepts)
  }

  /** A payload without `metrics`, or with a `metrics` value that is not a dict, writes nothing. */
  lemma NoMetricsNoWrites(data: Entries, ingestedAt: string, parseFloat: string -> Option<real>, accepts: nat -> bool)
    requires Lookup(data, "metrics").None? || !Lookup(data, "metrics").value.Dict?
    ensures StoredPoints(Dict(data), ingestedAt, parseFloat, accepts) == []
  {
  }

  /** Every point of a payload carries its `timestamp` when it has one, the ingestion time otherwise. */
  lemma PointTimes(data: Entries, ingestedAt: string, parseFloat: string -> Option<real>, accepts: nat -> bool)
    ensures var p := StoredPoints(Dict(data), ingestedAt, parseFloat, accepts);
      forall j :: 0 <= j < |p| ==>
        && p[j].time == (if Lookup(data, "timestamp").Some? then Lookup(data, "timestamp").value else Str(ingestedAt))
        && p[j].tags == [("gateway_id", Lookup(data, "gateway_id")), ("gateway_type", Lookup(data, "gateway_type"))]
        && p[j].measurement == "telco_metrics"
  {
    PointsPrefix(OtelProcessor.RawMetrics(data), 0, PointTags(data), PointTime(data, ingestedAt), parseFloat, accepts);
  }

  /**
   * A string the parser rejects stops the loop part-way: of a charge reading, a
   * `'discharging'` status and a current, only the first is written.
   */
  lemma PartialWrite(parseFloat: string -> Option<real>, accepts: nat -> bool)
    requires parseFloat("discharging") == None && accepts(0)
    ensures var data := [("gateway_id", Str("CELL_SITE_001")),
                         ("metrics", Dict([("battery_soc", Float(85.0)),
                                           ("battery_bms_charging_status", Str("discharging")),
                                           ("battery_current", Float(12.5))]))];
      StoredPoints(Dict(data), "now", parseFloat, accepts)
        == [Point("telco_metrics", [("gateway_id", Some(Str("CELL_SITE_001"))), ("gateway_type", None)],
                  "battery_soc", 85.0, Str("now"))]
  {
    var m := [("battery_soc", Float(85.0)), ("battery_bms_charging_status", Str("discharging")),
              ("battery_current", Float(12.5))];
    var data := [("gateway_id", Str("CELL_SITE_001")), ("metrics", Dict(m))];
    assert OtelProcessor.RawMetrics(data) == m;
    assert Lookup(data, "timestamp") == None && Lookup(data, "gateway_type") == None;
    assert m[1..][0].1 == Str("discharging");
  }

  /**
   * The two services together: of a payload the middleware filtered, only the
   * metrics the gateway type's keywords keep are stored, under its id, type and
   * timestamp.
   */
  lemma StoresOnlyKept(data: Entries, filteredAt: string, ingestedAt: string,
                       parseFloat: string -> Option<real>, accepts: nat -> bool)
    requires !OtelProcessor.FilterRaises(data)
    ensures var p := StoredPoints(Dict(OtelProcessor.Filtered(data, filteredAt)), ingestedAt, parseFloat, accepts);
      forall j :: 0 <= j < |p| ==>
        && OtelProcessor.Keep(p[j].field, OtelProcessor.Includes(OtelProcessor.RuleFor(OtelProcessor.GatewayTypeOf(data))))
        && p[j].tags == PointTags(data)
        && p[j].time == PointTime(data, ingestedAt)
  {
    var f := OtelProcessor.Filtered(data, filteredAt);
    var keywords := OtelProcessor.Includes(OtelProcessor.RuleFor(OtelProcessor.GatewayTypeOf(data)));
    var metrics := OtelProcessor.RawMetrics(f);
    assert metrics == OtelProcessor.FilteredMetrics(OtelProcessor.RawMetrics(data), keywords);
    assert PointTags(f) == PointTags(data) && PointTime(f, ingestedAt) == PointTime(data, ingestedAt);
    PointsPrefix(metrics, 0, PointTags(f), PointTime(f, ingestedAt), parseFloat, accepts);
    var p := StoredPoints(Dict(f), ingestedAt, parseFloat, accepts);
    forall j | 0 <= j < |p|
      ensures OtelProcessor.Keep(p[j].field, keywords)
    {
      assert metrics[j] in metrics;
      OtelProcessor.FilteredPass(OtelProcessor.RawMetrics(data), keywords, metrics[j]);
    }
  }

  // ---------------------------------------------------------------------------
  // The ingestor process: the sink and the message callback

  class Ingestor {
    var written: seq<Point>    // the points the sink has accepted, in order

    constructor ()
      ensures written == []
    {
      written := [];
    }

    /**
     * `process_metrics(data)`: one point per metric, written in order until
     * a conversion fails or a write raises; the exception is caught there.
     */
    method ProcessMetrics(payload: Value, ingestedAt: string, parseFloat: string -> Option<real>, accepts: nat -> bool)
      modifies this`written
      ensures written == old(written) + StoredPoints(payload, ingestedAt, parseFloat, accepts)
    {
      if !payload.Dict? {
        return;
      }
      var data := payload.entries;
      var tags, time, metrics := PointTags(data), PointTime(data, ingestedAt), OtelProcessor.RawMetrics(data);
      var i := 0;
      var failed := false;
      while i < |metrics| && !failed
        invariant 0 <= i <= |metrics|
        invariant old(written) + Points(metrics, 0, tags, time, parseFloat, accepts)
                  == written + (if failed then [] else Points(metrics[i..], i, tags, time, parseFloat, accepts))
        decreases |metrics| - i, !failed
      {
        PointsAt(metrics, i, tags, time, parseFloat, accepts);
        var x := FloatOf(metrics[i].1, parseFloat);
        if x.None? || !accepts(i) {
          failed := true;
        } else {
          written := written + [Point(Measurement, tags, metrics[i].0, x.value, time)];
          i := i + 1;
        }
      }
      if !failed {
        assert metrics[i..] == [];
      }
    }

    /**
     * `on_mqtt_message` for a payload that decoded to `payload` (`None` when
     * it is not valid JSON, which the handler catches): only a metrics topic
     * writes; status and alert messages are logged and nothing is stored.
     */
    method OnMessage(topic: string, payload: Option<Value>, ingestedAt: string,
                     parseFloat: string -> Option<real>, accepts: nat -> bool)
      modifies this`written
      ensures payload.Some? && Route(topic) == MetricsHandler ==>
        written == old(written) + StoredPoints(payload.value, ingestedAt, parseFloat, accepts)
      ensures payload.None? || Route(topic) != MetricsHandler ==> written == old(written)
    {
      if payload.None? {
        return;
      }
      match Route(topic)
      case MetricsHandler => ProcessMetrics(payload.value, ingestedAt, parseFloat, accepts);
      case StatusHandler =>
      case AlertsHandler =>
      case NoHandler =>
    }
  }
}
