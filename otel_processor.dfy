/**
 * The middleware filter and router (`mqtt-middleware/otel_processor.py`). It
 * receives every gateway's raw message, keeps only the metrics whose lower-cased
 * name contains one of the include keywords registered for the gateway type,
 * stamps the payload with the filtering time and sampling rate, and republishes
 * it on the gateway's `metrics` channel. The tracing spans, counters and
 * histograms around this are left out.
 */
module OtelProcessor {
  import opened Wrappers
  import opened Seqs
  import opened Json
  import opened Mqtt

  /** One entry of `METRIC_FILTERS`: the include keywords and the sampling rate. */
  datatype Rule = Rule(keywords: seq<string>, sampleRateMs: int)

  /** `filter_rules.get('sample_rate_ms', 1000)` for a type without a rule. */
  const DefaultSampleRateMs := 1000

  /** `METRIC_FILTERS`, keyed by `gateway_type`, in source order. */
  const MetricFilters: seq<(string, Rule)> := [
    ("CELL", Rule(["voltage", "current", "power", "battery", "solar", "temperature",
                   "signal_strength", "connected_users"], 5000)),
    ("DATACENTER", Rule(["voltage", "current", "power", "temperature", "humidity",
                         "cpu_usage", "memory_usage", "network_throughput", "ups_status"], 100)),
    ("SWITCHROOM", Rule(["voltage", "current", "power", "temperature", "humidity",
                         "hvac_status", "door_status", "fire_alarm", "switch_status"], 1000))
  ]

  /** The rule registered under `name` in a table of rules. */
  function FindRule(table: seq<(string, Rule)>, name: string): (r: Option<Rule>)
    ensures r.Some? <==> exists i :: 0 <= i < |table| && table[i].0 == name
    ensures r.Some? ==> (name, r.value) in table
  {
    if table == [] then None
    else if table[0].0 == name then Some(table[0].1)
    else
      var r := FindRule(table[1..], name);
      assert forall i :: 1 <= i < |table| ==> table[i] == table[1..][i - 1];
      r
  }

  /**
   * `METRIC_FILTERS.get(gateway_type, {})`: only a string can equal one of the
   * string keys, so any other value finds no rule.
   */
  function RuleFor(gatewayType: Value): Option<Rule> {
    if gatewayType.Str? then FindRule(MetricFilters, gatewayType.s) else None
  }

  /** `filter_rules.get('include', [])`. */
  function Includes(rule: Option<Rule>): seq<string> {
    if rule.Some? then rule.value.keywords else []
  }

  /** `filter_rules.get('sample_rate_ms', 1000)`. */
  function SampleRate(rule: Option<Rule>): int {
    if rule.Some? then rule.value.sampleRateMs else DefaultSampleRateMs
  }

  /** The table's rates and the default, for every gateway type. */
  lemma SampleRates(gatewayType: Value)
    ensures gatewayType == Str("CELL") ==> SampleRate(RuleFor(gatewayType)) == 5000
    ensures gatewayType == Str("DATACENTER") ==> SampleRate(RuleFor(gatewayType)) == 100
    ensures gatewayType == Str("SWITCHROOM") ==> SampleRate(RuleFor(gatewayType)) == 1000
    ensures gatewayType !in {Str("CELL"), Str("DATACENTER"), Str("SWITCHROOM")} ==>
      RuleFor(gatewayType) == None && SampleRate(RuleFor(gatewayType)) == DefaultSampleRateMs
  {
    if gatewayType.Str? && RuleFor(gatewayType).Some? {
      var i :| 0 <= i < |MetricFilters| && MetricFilters[i].0 == gatewayType.s;
      assert i == 0 || i == 1 || i == 2;
    }
  }

  // ---------------------------------------------------------------------------
  // The keep test and the filtered metrics

  /** `any(included in lname for included in include_list)`. */
  function Matches(lname: string, keywords: seq<string>): bool {
    if keywords == [] then false else Contains(lname, keywords[0]) || Matches(lname, keywords[1..])
  }

  /** The test one metric passes to be kept: some keyword occurs in its lower-cased name. */
  predicate Keep(name: string, keywords: seq<string>) {
    Matches(Lower(name), keywords)
  }

  /** `any` over the keywords is an existential over their positions. */
  lemma {:induction false} MatchesSome(lname: string, keywords: seq<string>)
    ensures Matches(lname, keywords) <==> exists j :: 0 <= j < |keywords| && Contains(lname, keywords[j])
  {
    if keywords != [] {
      MatchesSome(lname, keywords[1..]);
      if exists j :: 0 <= j < |keywords| && Contains(lname, keywords[j]) {
        var j :| 0 <= j < |keywords| && Contains(lname, keywords[j]);
        if j > 0 {
          assert keywords[1..][j - 1] == keywords[j];
        }
      }
      if exists j :: 0 <= j < |keywords[1..]| && Contains(lname, keywords[1..][j]) {
        var j :| 0 <= j < |keywords[1..]| && Contains(lname, keywords[1..][j]);
        assert keywords[1..][j] == keywords[j + 1];
      }
    }
  }

  /**
   * A metric is kept exactly when some include keyword is a substring of its
   * lower-cased name.
   */
  lemma KeepIff(name: string, keywords: seq<string>)
    ensures Keep(name, keywords) <==> exists j :: 0 <= j < |keywords| && Contains(Lower(name), keywords[j])
  {
    MatchesSome(Lower(name), keywords);
  }

  /** With no keywords nothing is kept. */
  lemma KeepNothing(name: string)
    ensures !Keep(name, [])
  {
  }

  /** The metrics that pass, in their original order. */
  function KeptPairs(raw: Entries, keywords: seq<string>): Entries
    decreases |raw|
  {
    if raw == [] then []
    else
      var e := raw[|raw| - 1];
      KeptPairs(raw[..|raw| - 1], keywords) + (if Keep(e.0, keywords) then [e] else [])
  }

  /** A pair is kept exactly when it is one of the metrics and its name passes. */
  lemma {:induction false} KeptMembers(raw: Entries, keywords: seq<string>, p: (string, Value))
    ensures p in KeptPairs(raw, keywords) <==> p in raw && Keep(p.0, keywords)
    decreases |raw|
  {
    if raw != [] {
      var init, e := raw[..|raw| - 1], raw[|raw| - 1];
      KeptMembers(init, keywords, p);
      assert raw == init + [e];
    }
  }

  /** The kept metrics are a subsequence of the input: names, values and order preserved. */
  lemma {:induction false} KeptSubsequence(raw: Entries, keywords: seq<string>)
    ensures Subsequence(KeptPairs(raw, keywords), raw)
    decreases |raw|
  {
    if raw != [] {
      var init, e := raw[..|raw| - 1], raw[|raw| - 1];
      KeptSubsequence(init, keywords);
      assert raw == init + [e];
      if Keep(e.0, keywords) {
        SubsequenceSnoc(KeptPairs(init, keywords), init, e);
      } else {
        assert KeptPairs(raw, keywords) == KeptPairs(init, keywords) + [] == KeptPairs(init, keywords);
        SubsequenceExtend(KeptPairs(init, keywords), init, e);
        assert Subsequence(KeptPairs(init, keywords), raw);
      }
    }
  }

  /** Both sequences may grow by the same element. */
  lemma {:induction false} SubsequenceSnoc<T>(a: seq<T>, b: seq<T>, x: T)
    requires Subsequence(a, b)
    ensures Subsequence(a + [x], b + [x])
    decreases |b|
  {
    if a == [] {
      if b != [] {
        SubsequenceSnoc(a, b[1..], x);
        assert (b + [x])[1..] == b[1..] + [x];
      }
    } else if a[0] == b[0] && Subsequence(a[1..], b[1..]) {
      SubsequenceSnoc(a[1..], b[1..], x);
      assert (a + [x])[1..] == a[1..] + [x] && (b + [x])[1..] == b[1..] + [x];
    } else {
      SubsequenceSnoc(a, b[1..], x);
      assert (b + [x])[1..] == b[1..] + [x];
    }
  }

  /** The larger sequence may grow on its own. */
  lemma {:induction false} SubsequenceExtend<T>(a: seq<T>, b: seq<T>, x: T)
    requires Subsequence(a, b)
    ensures Subsequence(a, b + [x])
    decreases |b|
  {
    if a != [] {
      if a[0] == b[0] && Subsequence(a[1..], b[1..]) {
        SubsequenceExtend(a[1..], b[1..], x);
        assert (b + [x])[1..] == b[1..] + [x];
      } else {
        SubsequenceExtend(a, b[1..], x);
        assert (b + [x])[1..] == b[1..] + [x];
      }
    }
  }

  /** A sequence whose every name passes is kept whole. */
  lemma {:induction false} KeptAll(m: Entries, keywords: seq<string>)
    requires forall p :: p in m ==> Keep(p.0, keywords)
    ensures KeptPairs(m, keywords) == m
    decreases |m|
  {
    if m != [] {
      var init := m[..|m| - 1];
      assert forall p :: p in init ==> p in m;
      KeptAll(init, keywords);
      assert m == init + [m[|m| - 1]];
    }
  }

  /** Keeping is idempotent. */
  lemma KeptTwice(raw: Entries, keywords: seq<string>)
    ensures KeptPairs(KeptPairs(raw, keywords), keywords) == KeptPairs(raw, keywords)
  {
    forall p | p in KeptPairs(raw, keywords)
      ensures Keep(p.0, keywords)
    {
      KeptMembers(raw, keywords, p);
    }
    KeptAll(KeptPairs(raw, keywords), keywords);
  }

  /** Without repeated names, the kept pairs have none either, and their names come from the input. */
  lemma {:induction false} KeptDistinct(raw: Entries, keywords: seq<string>)
    requires DistinctKeys(raw)
    ensures DistinctKeys(KeptPairs(raw, keywords)) && Keys(KeptPairs(raw, keywords)) <= Keys(raw)
    decreases |raw|
  {
    if raw != [] {
      var init, e := raw[..|raw| - 1], raw[|raw| - 1];
      assert raw == init + [e];
      DistinctAppend(init, [e]);
      KeysAppend(init, [e]);
      KeptDistinct(init, keywords);
      var k := KeptPairs(init, keywords);
      if Keep(e.0, keywords) {
        DistinctAppend(k, [e]);
        KeysAppend(k, [e]);
      } else {
        assert k + [] == k;
      }
    }
  }

  /** The names a run of assignments leaves are those it assigned, each once. */
  lemma {:induction false} PutAllFresh(m: Entries, pairs: Entries)
    requires DistinctKeys(m)
    ensures DistinctKeys(PutAll(m, pairs))
    decreases |pairs|
  {
    if pairs != [] {
      PutAllFresh(Put(m, pairs[0].0, pairs[0].1), pairs[1..]);
    }
  }

  /** A pair of a dict comes with its key. */
  lemma {:induction false} KeyOfMember(m: Entries, p: (string, Value))
    requires p in m
    ensures p.0 in Keys(m)
  {
    if m[0] != p {
      KeyOfMember(m[1..], p);
    }
  }

  /** A key of a dict comes with a pair. */
  lemma {:induction false} MemberOfKey(m: Entries, k: string) returns (v: Value)
    requires k in Keys(m)
    ensures (k, v) in m
  {
    if m[0].0 == k {
      v := m[0].1;
    } else {
      v := MemberOfKey(m[1..], k);
    }
  }

  /**
   * The `filtered_metrics` dict the loop builds: each kept pair assigned in
   * turn. When the input has no repeated names it is exactly the kept pairs.
   */
  function FilteredMetrics(raw: Entries, keywords: seq<string>): (r: Entries)
    ensures DistinctKeys(r)
    ensures DistinctKeys(raw) ==> r == KeptPairs(raw, keywords)
  {
    PutAllFresh([], KeptPairs(raw, keywords));
    KeptAppended(raw, keywords);
    PutAll([], KeptPairs(raw, keywords))
  }

  /** Assigning kept pairs without repeated names into an empty dict lists them in order. */
  lemma KeptAppended(raw: Entries, keywords: seq<string>)
    ensures DistinctKeys(raw) ==> PutAll([], KeptPairs(raw, keywords)) == KeptPairs(raw, keywords)
  {
    if DistinctKeys(raw) {
      KeptDistinct(raw, keywords);
      assert [] + KeptPairs(raw, keywords) == KeptPairs(raw, keywords);
      PutAllDistinct([], KeptPairs(raw, keywords));
    }
  }

  /** Every metric left after filtering has a name that passes. */
  lemma FilteredPass(raw: Entries, keywords: seq<string>, p: (string, Value))
    requires p in FilteredMetrics(raw, keywords)
    ensures Keep(p.0, keywords)
  {
    KeyOfMember(FilteredMetrics(raw, keywords), p);
    PutAllKeys([], KeptPairs(raw, keywords));
    var v := MemberOfKey(KeptPairs(raw, keywords), p.0);
    KeptMembers(raw, keywords, (p.0, v));
  }

  /** Filtering the filtered metrics again changes nothing. */
  lemma FilteredTwice(raw: Entries, keywords: seq<string>)
    ensures FilteredMetrics(FilteredMetrics(raw, keywords), keywords) == FilteredMetrics(raw, keywords)
  {
    var f := FilteredMetrics(raw, keywords);
    forall p | p in f
      ensures Keep(p.0, keywords)
    {
      FilteredPass(raw, keywords, p);
    }
    KeptAll(f, keywords);
  }

  // ---------------------------------------------------------------------------
  // `filter_metrics` on one payload dict

  /** `data.get('gateway_type', 'UNKNOWN')`. */
  function GatewayTypeOf(data: Entries): Value {
    GetOr(data, "gateway_type", Str("UNKNOWN"))
  }

  /**
   * The cases in which the body of `filter_metrics` raises before its first
   * assignment: `len()` or `.items()` of a `metrics` value that is not a dict,
   * or an unhashable (list or dict) `gateway_type` used as a key.
   */
  predicate FilterRaises(data: Entries) {
    || (Lookup(data, "metrics").Some? && !Lookup(data, "metrics").value.Dict?)
    || GatewayTypeOf(data).List? || GatewayTypeOf(data).Dict?
  }

  /** `data.get('metrics', {})` where it is a dict. */
  function RawMetrics(data: Entries): Entries {
    match Lookup(data, "metrics")
    case Some(Dict(m)) => m
    case _ => []
  }

  /**
   * What `filter_metrics` returns for a payload dict: the payload with
   * `metrics`, `filtered_at` and `sample_rate_ms` assigned, or the payload
   * untouched when the body raised.
   */
  function Filtered(data: Entries, filteredAt: string): (r: Entries)
    ensures FilterRaises(data) ==> r == data
    ensures !FilterRaises(data) ==>
      && Lookup(r, "metrics") == Some(Dict(FilteredMetrics(RawMetrics(data), Includes(RuleFor(GatewayTypeOf(data))))))
      && Lookup(r, "filtered_at") == Some(Str(filteredAt))
      && Lookup(r, "sample_rate_ms") == Some(Int(SampleRate(RuleFor(GatewayTypeOf(data)))))
    ensures forall k :: k != "metrics" && k != "filtered_at" && k != "sample_rate_ms" ==> Lookup(r, k) == Lookup(data, k)
  {
    if FilterRaises(data) then data
    else
      var rule := RuleFor(GatewayTypeOf(data));
      var d1 := Put(data, "metrics", Dict(FilteredMetrics(RawMetrics(data), Includes(rule))));
      var d2 := Put(d1, "filtered_at", Str(filteredAt));
      Put(d2, "sample_rate_ms", Int(SampleRate(rule)))
  }

  /** `filter_metrics(data)`: the keep loop, then the three assignments into the payload. */
  method FilterMetrics(data: Entries, filteredAt: string) returns (r: Entries)
    ensures r == Filtered(data, filteredAt)
  {
    if FilterRaises(data) {
      return data;
    }
    var rule := RuleFor(GatewayTypeOf(data));
    var filtered := FilterLoop(RawMetrics(data), Includes(rule));
    r := Put(data, "metrics", Dict(filtered));
    r := Put(r, "filtered_at", Str(filteredAt));
    r := Put(r, "sample_rate_ms", Int(SampleRate(rule)));
  }

  /** `for metric_name, metric_value in raw_metrics.items()`: assign each metric that passes. */
  method FilterLoop(raw: Entries, keywords: seq<string>) returns (filtered: Entries)
    ensures filtered == FilteredMetrics(raw, keywords)
  {
    filtered := [];
    var i := 0;
    while i < |raw|
      invariant 0 <= i <= |raw|
      invariant filtered == PutAll([], KeptPairs(raw[..i], keywords))
    {
      assert raw[..i + 1] == raw[..i] + [raw[i]];
      assert raw[..i + 1][..i] == raw[..i];
      assert raw[..i + 1][i] == raw[i];
      if Keep(raw[i].0, keywords) {
        assert KeptPairs(raw[..i + 1], keywords) == KeptPairs(raw[..i], keywords) + [(raw[i].0, raw[i].1)];
        PutAllSnoc([], KeptPairs(raw[..i], keywords), raw[i].0, raw[i].1);
        filtered := Put(filtered, raw[i].0, raw[i].1);
      } else {
        assert KeptPairs(raw[..i + 1], keywords) == KeptPairs(raw[..i], keywords) + [] == KeptPairs(raw[..i], keywords);
      }
      i := i + 1;
    }
    assert raw[..|raw|] == raw;
  }

  /**
   * A payload of an unknown or missing gateway type loses all its metrics and
   * gets the default sampling rate.
   */
  lemma UnknownTypeDropsAll(data: Entries, filteredAt: string)
    requires !FilterRaises(data)
    requires GatewayTypeOf(data) !in {Str("CELL"), Str("DATACENTER"), Str("SWITCHROOM")}
    ensures Lookup(Filtered(data, filteredAt), "metrics") == Some(Dict([]))
    ensures Lookup(Filtered(data, filteredAt), "sample_rate_ms") == Some(Int(DefaultSampleRateMs))
  {
    SampleRates(GatewayTypeOf(data));
    KeptNone(RawMetrics(data));
  }

  /** No keywords, no metrics. */
  lemma {:induction false} KeptNone(raw: Entries)
    ensures KeptPairs(raw, []) == []
    decreases |raw|
  {
    if raw != [] {
      KeptNone(raw[..|raw| - 1]);
    }
  }

  /** A payload without `gateway_type` is filtered as type `UNKNOWN`, which has no rule. */
  lemma MissingTypeIsUnknown(data: Entries)
    requires Lookup(data, "gateway_type") == None
    ensures GatewayTypeOf(data) == Str("UNKNOWN") && RuleFor(GatewayTypeOf(data)) == None
  {
    SampleRates(Str("UNKNOWN"));
  }

  /**
   * Filtering an already-filtered payload again keeps its metrics as they are
   * (only `filtered_at` is stamped again).
   */
  lemma FilterIdempotent(data: Entries, t1: string, t2: string)
    requires !FilterRaises(data)
    ensures !FilterRaises(Filtered(data, t1))
    ensures Lookup(Filtered(Filtered(data, t1), t2), "metrics") == Lookup(Filtered(data, t1), "metrics")
    ensures Lookup(Filtered(Filtered(data, t1), t2), "sample_rate_ms") == Lookup(Filtered(data, t1), "sample_rate_ms")
  {
    var keywords := Includes(RuleFor(GatewayTypeOf(data)));
    FilteredShape(data, t1);
    FilteredTwice(RawMetrics(data), keywords);
  }

  /** After filtering, the type is the same and `metrics` holds the filtered dict. */
  lemma FilteredShape(data: Entries, filteredAt: string)
    requires !FilterRaises(data)
    ensures GatewayTypeOf(Filtered(data, filteredAt)) == GatewayTypeOf(data)
    ensures RawMetrics(Filtered(data, filteredAt)) == FilteredMetrics(RawMetrics(data), Includes(RuleFor(GatewayTypeOf(data))))
    ensures !FilterRaises(Filtered(data, filteredAt))
  {
    assert Lookup(Filtered(data, filteredAt), "gateway_type") == Lookup(data, "gateway_type");
  }

  // ---------------------------------------------------------------------------
  // The MQTT callbacks

  /** The topic filter `on_connect` subscribes to. */
  const RawSubscription := "greengrid/edge/+/raw"

  /** `on_connect`: the subscriptions made for a connect result code. */
  function OnConnect(rc: int): (subscriptions: seq<string>)
    ensures rc == 0 ==> subscriptions == [EdgeFilter("raw")]
    ensures rc != 0 ==> subscriptions == []
  {
    assert EdgeFilter("raw") == "greengrid/edge/" + "+" + "/" + "raw";
    assert "greengrid/edge/" + "+" + "/" + "raw" == RawSubscription;
    if rc == 0 then [RawSubscription] else []
  }

  /** The middleware receives the raw messages of exactly the gateways with single-level ids. */
  lemma SubscribedToRaw(topic: string)
    ensures (exists f :: f in OnConnect(0) && TopicMatches(f, topic)) <==>
            exists gatewayId :: '/' !in gatewayId && topic == EdgeTopic(gatewayId, "raw")
  {
    EdgeFilterMatches("raw", topic);
  }

  /** `f"{gateway_id}"`: a string as it is; other values through `str()`, supplied as `render`. */
  function TopicSegment(v: Value, render: Value -> string): string {
    if v.Str? then v.s else render(v)
  }

  /**
   * `on_message`, for a payload that decoded to `payload` (`None` when the
   * bytes are not valid JSON): the one publish call it makes, if any. A
   * payload that is not a dict raises at `payload.get` and the handler
   * catches it; a publish call that raises is caught as well.
   */
  method OnMessage(payload: Option<Value>, filteredAt: string, render: Value -> string) returns (call: Option<Publish>)
    ensures payload.None? || !payload.value.Dict? ==> call == None
    ensures payload.Some? && payload.value.Dict? ==>
      call == Some(Publish(EdgeTopic(TopicSegment(GetOr(payload.value.entries, "gateway_id", Str("unknown")), render), "metrics"),
                           Dict(Filtered(payload.value.entries, filteredAt)), 1))
  {
    if payload.None? || !payload.value.Dict? {
      return None;
    }
    var data := FilterMetrics(payload.value.entries, filteredAt);
    var gatewayId := GetOr(data, "gateway_id", Str("unknown"));
    call := Some(Publish(EdgeTopic(TopicSegment(gatewayId, render), "metrics"), Dict(data), 1));
  }
}
