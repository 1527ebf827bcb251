# Greengrid telemetry relay: a Dafny model

Greengrid relays telemetry in three stages:

1. Edge gateways (a cell site and a datacenter) sample their equipment and publish readings over MQTT.
2. A middleware service filters each gateway's metrics by gateway type and republishes them.
3. A central ingestor subscribes to the processed topics and writes one time-series point per metric.

This project models the deterministic logic of the four services and proves what each of them promises.

- **Wrappers, Seqs, Json, Builtins** (`json.dfy`): the Python values the services exchange.
  - A JSON value is `Value`. A dict is an ordered sequence of key/value pairs, so insertion order is kept.
  - `Put` is dict assignment `d[k] = v`: it replaces the value in place, or appends a new key.
  - `Lookup`/`GetOr` are `d.get`.
  - `Update`, `Update3` and `Set2` are the nested in-place writes the gateways make.
  - `Lower` and `Contains` are `str.lower` and `in` on strings.
  - `Clamp`, `Add` and `Trunc` are `max(lo, min(hi, x))`, numeric `+` and `int()`.
- **Mqtt** (`mqtt.dfy`):
  - the publish call record and the result of a publish call;
  - the `greengrid/edge/<gateway_id>/<channel>` topic scheme;
  - the connection events;
  - topic-filter matching with the single-level wildcard `+` (section 4.7 of the MQTT 3.1.1 standard).
- **CellGateway** (`cell_gateway.dfy`): the cell-site gateway.
  - The class `Gateway` holds `is_connected`, the bounded `offline_buffer` and `device_states`. It records, in order, every publish call that returned.
  - Its operations are the five-second publish tick, the connect/disconnect callbacks, the buffer drain and the genset control action.
  - The device readings are flattened to `<device>_<key>` metrics.
- **DatacenterGateway** (`datacenter_gateway.dfy`): the high-frequency datacenter gateway.
  - It has no buffer and publishes at QoS 0 only while connected.
  - One step of `generate_high_freq_metrics` clamps three random-walk readings, and the PUE falls back to 1.0 when the IT power is not positive.
  - The two-level flattener has type-dependent inclusion rules.
- **OtelProcessor** (`otel_processor.dfy`): the middleware.
  - It holds the `METRIC_FILTERS` table and the case-insensitive keyword keep-filter.
  - The payload is rewritten in place: `metrics`, `filtered_at` and `sample_rate_ms`.
  - It subscribes to `greengrid/edge/+/raw` and republishes to `/metrics`, and it contains every error.
- **CentralPlatform** (`central_platform.dfy`): the ingestor.
  - Subscriptions; dispatch by ordered substring tests on the topic.
  - `process_metrics` writes points one by one and stops at the first value `float()` rejects or the first write that raises.
  - The class `Ingestor` holds what the sink has accepted.

Inputs the model does not compute are parameters:

- Random draws are records of reals: `CellDraws`, `DcDraws`.
- Clock readings, the hour of day and ISO timestamps are strings and ints.
- The outcome of each publish call, including the status publish in the connect callbacks: `SendOutcome`, or a function from call number to outcome for a drain.
- Whether a payload decodes as JSON: `Option<Value>`.
- `str()` of a non-string gateway id: `render`.
- `float()` of a string: `parseFloat`.
- Whether the k-th sink write raises: `accepts`.

Draining the cell gateway's buffer does not stop at the first failure (`edge-gateway-cell/main.py:184-189`). A publish call that raises loses the message already popped, draining continues, and the return code of a publish call is never checked.

## Model

| member | source | states |
|---|---|---|
| Json.Lookup | central-platform/main.py:88-91 | `d.get(k)` finds a value exactly when `k` is a key, and the value found is paired with `k` in the dict |
| Json.Put | mqtt-middleware/otel_processor.py:87-91 | `d[k] = v` makes `k` map to `v` and leaves every other key's value alone; a new key is appended at the end and an existing key adds no entry; keys stay distinct |
| Json.PutInPlace | mqtt-middleware/otel_processor.py:87-91 | on a key already present, `d[k] = v` overwrites the key's first entry where it stands: the entries before and after it are unchanged and keep their order |
| Json.PutAllDistinct | mqtt-middleware/otel_processor.py:84-87 | assigning pairs whose keys are all new, one after another, appends them in order |
| Json.LookupPutAll | mqtt-middleware/otel_processor.py:84-87 | after a run of assignments, a key holds the value of its last assignment (`LastValue`), even when it was assigned more than once, or its old value when it was not assigned; with distinct names that is the pair's own value |
| Json.LastAssignmentWins | edge-gateway-datacenter/main.py:237-243 | of two assignments to one name, as when two flattened names coincide, the second value is the one kept |
| Json.Set2 | edge-gateway-cell/main.py:263 | `s[a][b] = v` sets that one reading and changes no other reading and no other device |
| Json.Update | edge-gateway-cell/main.py:112-139 | a group of writes below one device sets exactly those readings in that device and leaves every other device, and the device's other readings, unchanged |
| Json.Update3 | edge-gateway-datacenter/main.py:179-217 | the same for writes two levels down, `s[a][b][c] = v` |
| Json.Lower | mqtt-middleware/otel_processor.py:86 | `name.lower()` keeps the length and lower-cases each ASCII letter in place |
| Json.ContainsSuffix | central-platform/main.py:75 | a string contains (with `in`) any string it ends with |
| Builtins.Clamp | edge-gateway-datacenter/main.py:180-181 | `max(lo, min(hi, x))` lies in `[lo, hi]`, is `x` strictly inside the bounds, and is the int bound itself when `x` reaches it |
| Builtins.Add | edge-gateway-datacenter/main.py:179 | numeric `+` adds the values and gives a float exactly when one operand is a float |
| Builtins.Trunc | edge-gateway-cell/main.py:132 | `int(x)` truncates toward zero |
| Mqtt.JoinLevels | mqtt-middleware/otel_processor.py:115 | splitting a topic at `/` and joining the levels again gives the topic back, and no level contains `/` |
| Mqtt.EdgeTopicLevels | edge-gateway-cell/main.py:206 | `greengrid/edge/<id>/<channel>` has exactly the four levels `greengrid`, `edge`, id and channel when neither contains `/` |
| Mqtt.EdgeFilterMatches | mqtt-middleware/otel_processor.py:115 | a topic matches `greengrid/edge/+/<channel>` if and only if it is the channel's topic of some single-level gateway id |
| CellGateway.BoundedAppend | edge-gateway-cell/main.py:212-215 | appending to a `deque(maxlen=BUFFER_SIZE)` never exceeds the bound, appends when there is room, and drops exactly the oldest entry when full |
| CellGateway.AppendEachKeepsNewest | edge-gateway-cell/main.py:208-216 | after any run of appends the buffer holds exactly the newest `BUFFER_SIZE` messages of everything appended, oldest first |
| CellGateway.EvictionExample | edge-gateway-cell/main.py:35 | with room for three, appending A, B, C, D keeps B, C, D, and a drain whose publish calls all return republishes B, C, D in that order at QoS 1 |
| CellGateway.ResentAllReturned | edge-gateway-cell/main.py:184-187 | when no publish call raises, the drain republishes every buffered entry once, in FIFO order, with its own topic and payload at QoS 1 |
| CellGateway.ResentIsSubsequence | edge-gateway-cell/main.py:184-189 | whatever the calls do, the drain only loses entries: what is republished is a subsequence of the buffer, in FIFO order |
| CellGateway.FlattenDevices | edge-gateway-cell/main.py:142-146 | the nested loops build exactly the dict of the flattened `<device>_<key>` pairs |
| CellGateway.CellPairsCover | edge-gateway-cell/main.py:143-146 | every second-level key of every device yields `<device>_<key>` with its value unchanged, strings included |
| CellGateway.CellPairsOnly | edge-gateway-cell/main.py:143-146 | every emitted pair comes from one device key that way |
| CellGateway.FlattenLookup | edge-gateway-cell/main.py:142-146 | when the flattened names are distinct, the metrics dict is exactly the pair sequence, and each `<device>_<key>` looks up the reading itself |
| CellGateway.InitialDevicesOk | edge-gateway-cell/main.py:38-98 | the start-up `device_states` has the shape the generator and the genset control need, with a state of charge of 75.3 |
| CellGateway.Generate | edge-gateway-cell/main.py:100-139 | one call of `generate_realistic_metrics` keeps that shape, stores the clamped state of charge (within [20, 100]) and leaves the genset status alone |
| CellGateway.UpdateKeepsOk | edge-gateway-cell/main.py:112-139 | writing below any device other than the battery keeps the shape and the state of charge |
| CellGateway.GensetControl | edge-gateway-cell/main.py:259-265 | only `start` and `stop` are accepted, setting the status to `running` and `standby`; any other action is an error and changes nothing; no other reading changes |
| CellGateway.AfterPublish | edge-gateway-cell/main.py:205-216 | one publication keeps the buffer bound; a publish call is recorded exactly when connected and the call returned; the message is buffered while disconnected or on a non-zero return code; the buffer is untouched on success or when the call raised |
| CellGateway.Gateway.constructor | edge-gateway-cell/main.py:33-98 | a new gateway is disconnected with an empty buffer, no publish calls and the start-up device states |
| CellGateway.Gateway.Enqueue | edge-gateway-cell/main.py:212-215 | a buffered message is a bounded append |
| CellGateway.Gateway.Tick | edge-gateway-cell/main.py:191-222 | one iteration of `publish_metrics`: the readings are refreshed, then the flattened readings are published at QoS 1 to `/raw`, or buffered, as `AfterPublish` says |
| CellGateway.Gateway.Refresh | edge-gateway-cell/main.py:100-139 | the device states are replaced by one generation step |
| CellGateway.Gateway.PublishReadings | edge-gateway-cell/main.py:195-216 | the raw message of the current readings is sent or buffered as `AfterPublish` says |
| CellGateway.Gateway.SendBuffered | edge-gateway-cell/main.py:179-189 | the drain empties the buffer and records the republished entries in FIFO order |
| CellGateway.Gateway.OnConnect | edge-gateway-cell/main.py:150-171 | on `rc == 0`: connected and buffer drained, then one status message (`online`, location) at QoS 1 on `/status`, recorded exactly when that call returned (it is outside any `try`, so a raise leaves the callback after the drain); otherwise disconnected, with the buffer and the publish calls untouched |
| CellGateway.Gateway.OnDisconnect | edge-gateway-cell/main.py:173-177 | a disconnect clears the flag and keeps the buffer |
| CellGateway.Gateway.Deliver | edge-gateway-cell/main.py:228-231 | the two registered callbacks: afterwards the gateway is connected exactly when the event was a successful connect; a successful connect empties the buffer, records the drained calls (`Resent`) and then the status call when it returned; a refused connect or a lost connection changes neither buffer nor publish calls |
| CellGateway.Gateway.ControlGenset | edge-gateway-cell/main.py:259-265 | the action updates the device states and replies as `GensetControl` says |
| DatacenterGateway.FlattenStates | edge-gateway-datacenter/main.py:232-245 | the three nested loops build exactly the dict of the flattened pairs |
| DatacenterGateway.LeafPairsMembers | edge-gateway-datacenter/main.py:237-240 | inside a device dict, a pair is emitted if and only if it is an `int`/`float` leaf, named `<category>_<key>_<subkey>` with its value |
| DatacenterGateway.DcPairsMembers | edge-gateway-datacenter/main.py:233-243 | a pair is emitted if and only if it comes from a dict category, as a numeric second-level leaf or as a top-level number or string |
| DatacenterGateway.NestedLeafEmitted | edge-gateway-datacenter/main.py:236-240 | every numeric leaf of a device dict is emitted with its value |
| DatacenterGateway.ScalarItemEmitted | edge-gateway-datacenter/main.py:241-243 | every top-level number or string is emitted as `<category>_<key>`, so strings are included at that level |
| DatacenterGateway.EmittedScalars | edge-gateway-datacenter/main.py:238-243 | no list, dict or `None` value is ever emitted |
| DatacenterGateway.FlattenDistinct | edge-gateway-datacenter/main.py:232-245 | when the names are distinct, the metrics dict is exactly the pair sequence |
| DatacenterGateway.FlattenExample | edge-gateway-datacenter/main.py:233-243 | a CRAC unit's `status` and `alarms` are skipped and its `power_kw` kept; a top-level `smoke_detector` string is kept; a non-dict category is skipped |
| DatacenterGateway.Step | edge-gateway-datacenter/main.py:174-229 | one generation step keeps the shape; UPS load, rack CPU and rack memory are those readings moved by their draws and clamped to [60, 70], [40, 90], [60, 80]; the PUE is 1.0 when the IT power is not positive and total over IT power otherwise |
| DatacenterGateway.InitialStatesOk | edge-gateway-datacenter/main.py:35-172 | the start-up `device_states` has that shape, with the three clamped readings inside their bounds |
| DatacenterGateway.Gateway.constructor | edge-gateway-datacenter/main.py:25-35 | a new gateway is disconnected, has made no publish calls and holds the start-up states |
| DatacenterGateway.Gateway.Tick | edge-gateway-datacenter/main.py:269-293 | while disconnected, nothing is generated, published or buffered; while connected, one generation step runs and the flattened readings go to `/raw` at QoS 0, recorded when the call returned |
| DatacenterGateway.Gateway.Refresh | edge-gateway-datacenter/main.py:174-229 | the states are replaced by one generation step |
| DatacenterGateway.Gateway.PublishReadings | edge-gateway-datacenter/main.py:274-287 | the raw message of the current readings is published at QoS 0 |
| DatacenterGateway.Gateway.OnConnect | edge-gateway-datacenter/main.py:247-267 | connected exactly when `rc == 0`; then one status message at QoS 1 on `/status` with `high_frequency` true and `sampling_rate_ms`, recorded exactly when that call returned; otherwise no publish |
| DatacenterGateway.Gateway.Deliver | edge-gateway-datacenter/main.py:299-301 | only `on_connect` is registered: a successful connect sets the flag and records the status call when it returned; a refused connect clears the flag and publishes nothing; a lost connection changes neither the flag nor the publish calls |
| OtelProcessor.FindRule | mqtt-middleware/otel_processor.py:80 | `METRIC_FILTERS.get(gateway_type)` finds a rule exactly when the type is in the table, and the rule found is the table's |
| OtelProcessor.SampleRates | mqtt-middleware/otel_processor.py:49-65 | `sample_rate_ms` is 5000 for CELL, 100 for DATACENTER, 1000 for SWITCHROOM, and the default 1000 for any other type, which brings no keywords |
| OtelProcessor.KeepIff | mqtt-middleware/otel_processor.py:86 | a metric is kept if and only if some include keyword is a substring of its lower-cased name |
| OtelProcessor.KeptMembers | mqtt-middleware/otel_processor.py:84-87 | a pair survives the loop if and only if it is in the input and passes the keep test |
| OtelProcessor.KeptSubsequence | mqtt-middleware/otel_processor.py:84-87 | the kept metrics are a subsequence of the input: same names, same values, same order |
| OtelProcessor.KeptTwice | mqtt-middleware/otel_processor.py:84-87 | keeping twice keeps the same pairs |
| OtelProcessor.FilteredMetrics | mqtt-middleware/otel_processor.py:84-87 | the filtered dict has distinct keys, and when the input's names are distinct (as in any decoded dict) it is exactly the kept pairs in order |
| OtelProcessor.FilteredPass | mqtt-middleware/otel_processor.py:86-87 | every metric in the filtered dict passes the keep test |
| OtelProcessor.FilteredTwice | mqtt-middleware/otel_processor.py:84-87 | filtering filtered metrics again changes nothing |
| OtelProcessor.Filtered | mqtt-middleware/otel_processor.py:67-108 | when the body raises, the payload is returned unchanged; otherwise `metrics` holds the filtered metrics, `filtered_at` the time and `sample_rate_ms` the rule's rate; every other field is preserved |
| OtelProcessor.FilterMetrics | mqtt-middleware/otel_processor.py:67-108 | the in-place rewrite of the payload computes `Filtered` |
| OtelProcessor.FilterLoop | mqtt-middleware/otel_processor.py:84-87 | the keep loop computes the filtered metrics |
| OtelProcessor.UnknownTypeDropsAll | mqtt-middleware/otel_processor.py:73-91 | an unregistered gateway type gets the empty rule: no metric survives and the rate is the default 1000 |
| OtelProcessor.MissingTypeIsUnknown | mqtt-middleware/otel_processor.py:73 | a payload without `gateway_type` is treated as `UNKNOWN` |
| OtelProcessor.FilterIdempotent | mqtt-middleware/otel_processor.py:86-87 | filtering an already filtered payload leaves its metrics unchanged |
| OtelProcessor.OnConnect | mqtt-middleware/otel_processor.py:110-117 | on `rc == 0` the one subscription is `greengrid/edge/+/raw`, which receives exactly every gateway's raw topic (`SubscribedToRaw`); otherwise none |
| OtelProcessor.SubscribedToRaw | mqtt-middleware/otel_processor.py:115 | the subscription receives exactly the gateways' raw topics |
| OtelProcessor.OnMessage | mqtt-middleware/otel_processor.py:119-146 | an undecodable or non-dict payload publishes nothing; a dict payload gives exactly one publish at QoS 1 to `greengrid/edge/<gateway_id or 'unknown'>/metrics` carrying the filtered payload |
| CentralPlatform.OnConnect | central-platform/main.py:55-64 | on `rc == 0` the subscriptions are exactly the `metrics`, `status` and `alerts` filters, in that order, so every middleware republish is received (`ReceivesFilteredMetrics`); otherwise none |
| CentralPlatform.Route | central-platform/main.py:75-80 | `/metrics` is checked first, then `/status`, then `/alerts`: each handler runs exactly when its substring occurs and no earlier one does; no handler runs when none occurs |
| CentralPlatform.MetricsTopicRouted | central-platform/main.py:75-76 | every gateway's `metrics` topic reaches `process_metrics` |
| CentralPlatform.StatusOfMetricsNamedGateway | central-platform/main.py:75-78 | because of the test order, a status message from any gateway whose id begins with `metrics` goes to `process_metrics` |
| CentralPlatform.ReceivesFilteredMetrics | central-platform/main.py:55-76 | every middleware republish for a single-level gateway id matches a subscription and reaches `process_metrics` |
| CentralPlatform.FloatOf | central-platform/main.py:98 | `float()` converts numbers and bools to their value and rejects `None`, lists and dicts |
| CentralPlatform.PointsPrefix | central-platform/main.py:94-101 | the points written are one per metric, in map order, over a prefix of the metrics. Each has measurement `telco_metrics`, the two tags, the metric's name as field and its converted value. The loop stops exactly at the first metric that does not convert or whose write raises |
| CentralPlatform.PointsAll | central-platform/main.py:94-101 | when every value converts and every write succeeds, every metric is written |
| CentralPlatform.NoMetricsNoWrites | central-platform/main.py:91-94 | a payload without `metrics`, or whose `metrics` is not a dict, writes nothing |
| CentralPlatform.PointTimes | central-platform/main.py:88-99 | every point carries the payload's `timestamp` when present, otherwise the ingestion time, with tags `gateway_id` and `gateway_type` as the payload gives them (absent included) |
| CentralPlatform.PartialWrite | central-platform/main.py:94-106 | of a charge reading, a `'discharging'` status and a current, only the first is written: the loop stops at the string and later metrics are skipped |
| CentralPlatform.StoresOnlyKept | mqtt-middleware/otel_processor.py:84-91 | of a payload the middleware filtered, only metrics kept for the gateway type are stored, under the original id, type and timestamp |
| CentralPlatform.Ingestor.constructor | central-platform/main.py:50 | a new sink holds no points |
| CentralPlatform.Ingestor.ProcessMetrics | central-platform/main.py:85-106 | the writes of `process_metrics` are appended to the sink, and the exception that stops the loop is contained |
| CentralPlatform.Ingestor.OnMessage | central-platform/main.py:66-114 | only a decodable payload on a metrics topic writes; undecodable payloads, status and alert messages and other topics store nothing |

## Left out

- Logging, tracing and metrics instruments: OpenTelemetry spans, counters, histograms and every logger call. They have no effect on the data path.
- The Flask endpoints `/health`, `/api/metrics`, `/api/pue`, `/api/sites`, `/api/metrics/realtime`, `/api/esg/report` and `/api/dashboard/summary`. They are HTTP plumbing over hard-coded or current data. Only the `control_genset` decision is modelled.
- `scripts/monitoring/monitor-mqtt.py` is not part of this model. It is a console dashboard.
- Threads and timing: the paho client loops, `time.sleep`, and the race between the publisher thread and the callbacks. Each event is modelled as one atomic step.
- JSON encoding and decoding, MQTT transport, InfluxDB and PostgreSQL clients. Payloads are modelled as decoded values. Decoding is an `Option`, and publish and write outcomes are inputs.
- The clocks (`datetime.utcnow()`, `datetime.now().hour`, `time.time()`): they are parameters.
- Random draws: they are parameters. The ranges `random.uniform` draws from are not assumed.
- Floating point: reals are exact. `round(·, 2)` on the cell's PV power and `round(·, 3)` on the datacenter's PUE are omitted. Float overflow of `float()` on a huge int is not modelled.
- Python integers are unbounded, as in the model.
- The recursive reconnect in the middleware's `main()` and the initial `connect` calls of every service: process-level retry and I/O.
- Json.Lower: lower-cases ASCII letters only, because Unicode case mapping is not available; the table's keywords are ASCII.
- Mqtt.TopicMatches: models the `+` wildcard only, because no subscription in the system uses `#`.
- CentralPlatform.FloatOf: takes the parsing of strings (`'1.5'`, `' inf '`, `'discharging'`) as the parameter `parseFloat`, because Python's float grammar is not modelled.
- CentralPlatform.Points: a write that raises is taken to store nothing. The conversion of the point's time and tag values happens inside the sink client, and is part of the `accepts` outcome.
- OtelProcessor.OnMessage: the topic segment of a non-string gateway id is its `str()`, supplied as `render`.
- The setup of handles (`init_influxdb`, `init_mqtt` on the central platform): a failed InfluxDB setup makes every write raise, which the `accepts` parameter covers.
