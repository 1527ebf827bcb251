/**
 * The datacenter edge gateway (`edge-gateway-datacenter/main.py`): a
 * three-level `device_states` dict refreshed in place by
 * `generate_high_freq_metrics`, a two-level flattener with type-dependent
 * inclusion rules, and a publisher that sends at QoS 0 only while connected
 * and keeps no buffer.
 */
module DatacenterGateway {
  import opened Wrappers
  import opened Json
  import opened Builtins
  import opened Mqtt

  const GatewayType := "DATACENTER"

  // ---------------------------------------------------------------------------
  // Flattening: the nested loops at the end of `generate_high_freq_metrics`

  /** The int/float (and bool) leaves of one nested dict, as `<prefix>_<subkey>`, in order. */
  function LeafPairs(prefix: string, sub: Entries): Entries
    decreases |sub|
  {
    if sub == [] then []
    else
      var e := sub[|sub| - 1];
      LeafPairs(prefix, sub[..|sub| - 1]) + (if IsNum(e.1) then [(prefix + "_" + e.0, e.1)] else [])
  }

  /**
   * What one `key, value` item of a category contributes: the numeric leaves
   * of a nested dict, or the item itself when it is an int, float or str.
   * Lists and `None` contribute nothing.
   */
  function ItemPairs(category: string, item: (string, Value)): Entries {
    if item.1.Dict? then LeafPairs(category + "_" + item.0, item.1.entries)
    else if IsNum(item.1) || item.1.Str? then [(category + "_" + item.0, item.1)]
    else []
  }

  /** The items of one category dict, in order. */
  function CategoryPairs(category: string, data: Entries): Entries
    decreases |data|
  {
    if data == [] then []
    else CategoryPairs(category, data[..|data| - 1]) + ItemPairs(category, data[|data| - 1])
  }

  /** All categories; a category whose value is not a dict is skipped. */
  function DcPairs(states: Entries): Entries
    decreases |states|
  {
    if states == [] then []
    else
      var c := states[|states| - 1];
      DcPairs(states[..|states| - 1]) + (if c.1.Dict? then CategoryPairs(c.0, c.1.entries) else [])
  }

  /** The `metrics` dict the loops build: the pairs assigned one after another. */
  function Flatten(states: Entries): Entries {
    PutAll([], DcPairs(states))
  }

  /** The innermost loop: `for subkey, subvalue in value.items()`. */
  method FlattenLeaves(metrics: Entries, prefix: string, sub: Entries) returns (m: Entries)
    ensures m == PutAll(metrics, LeafPairs(prefix, sub))
  {
    m := metrics;
    var j := 0;
    assert LeafPairs(prefix, sub[..0]) == [];
    while j < |sub|
      invariant 0 <= j <= |sub|
      invariant m == PutAll(metrics, LeafPairs(prefix, sub[..j]))
    {
      LeafStep(metrics, prefix, sub, j);
      if IsNum(sub[j].1) {
        m := Put(m, prefix + "_" + sub[j].0, sub[j].1);
      }
      j := j + 1;
    }
    assert sub[..j] == sub;
  }

  lemma LeafStep(metrics: Entries, prefix: string, sub: Entries, j: nat)
    requires j < |sub|
    ensures PutAll(metrics, LeafPairs(prefix, sub[..j + 1])) ==
      if IsNum(sub[j].1) then Put(PutAll(metrics, LeafPairs(prefix, sub[..j])), prefix + "_" + sub[j].0, sub[j].1)
      else PutAll(metrics, LeafPairs(prefix, sub[..j]))
  {
    assert sub[..j + 1][..j] == sub[..j];
    assert sub[..j + 1][j] == sub[j];
    if IsNum(sub[j].1) {
      PutAllSnoc(metrics, LeafPairs(prefix, sub[..j]), prefix + "_" + sub[j].0, sub[j].1);
    } else {
      assert LeafPairs(prefix, sub[..j + 1]) == LeafPairs(prefix, sub[..j]) + [];
      assert LeafPairs(prefix, sub[..j]) + [] == LeafPairs(prefix, sub[..j]);
    }
  }

  /** The middle loop: `for key, value in data.items()` with its `isinstance` branches. */
  method FlattenCategory(metrics: Entries, category: string, data: Entries) returns (m: Entries)
    ensures m == PutAll(metrics, CategoryPairs(category, data))
  {
    m := metrics;
    var i := 0;
    assert CategoryPairs(category, data[..0]) == [];
    while i < |data|
      invariant 0 <= i <= |data|
      invariant m == PutAll(metrics, CategoryPairs(category, data[..i]))
    {
      CategoryStep(metrics, category, data, i);
      var key, value := data[i].0, data[i].1;
      if value.Dict? {
        m := FlattenLeaves(m, category + "_" + key, value.entries);
      } else if IsNum(value) || value.Str? {
        m := Put(m, category + "_" + key, value);
      }
      i := i + 1;
    }
    assert data[..i] == data;
  }

  lemma CategoryStep(metrics: Entries, category: string, data: Entries, i: nat)
    requires i < |data|
    ensures PutAll(metrics, CategoryPairs(category, data[..i + 1])) ==
      PutAll(PutAll(metrics, CategoryPairs(category, data[..i])), ItemPairs(category, data[i]))
    ensures !data[i].1.Dict? && (IsNum(data[i].1) || data[i].1.Str?) ==>
      PutAll(metrics, CategoryPairs(category, data[..i + 1])) ==
      Put(PutAll(metrics, CategoryPairs(category, data[..i])), category + "_" + data[i].0, data[i].1)
    ensures !data[i].1.Dict? && !(IsNum(data[i].1) || data[i].1.Str?) ==>
      PutAll(metrics, CategoryPairs(category, data[..i + 1])) == PutAll(metrics, CategoryPairs(category, data[..i]))
  {
    assert data[..i + 1][..i] == data[..i];
    PutAllAppend(metrics, CategoryPairs(category, data[..i]), ItemPairs(category, data[i]));
    var m := PutAll(metrics, CategoryPairs(category, data[..i]));
    if !data[i].1.Dict? && (IsNum(data[i].1) || data[i].1.Str?) {
      assert ItemPairs(category, data[i]) == [] + [(category + "_" + data[i].0, data[i].1)];
      PutAllSnoc(m, [], category + "_" + data[i].0, data[i].1);
    }
  }

  /** The outer loop: `for category, data in device_states.items()` with `isinstance(data, dict)`. */
  method FlattenStates(states: Entries) returns (metrics: Entries)
    ensures metrics == Flatten(states)
  {
    metrics := [];
    var i := 0;
    assert DcPairs(states[..0]) == [];
    while i < |states|
      invariant 0 <= i <= |states|
      invariant metrics == PutAll([], DcPairs(states[..i]))
    {
      StatesStep(states, i);
      var category, data := states[i].0, states[i].1;
      if data.Dict? {
        metrics := FlattenCategory(metrics, category, data.entries);
      }
      i := i + 1;
    }
    assert states[..i] == states;
  }

  lemma StatesStep(states: Entries, i: nat)
    requires i < |states|
    ensures states[i].1.Dict? ==>
      PutAll([], DcPairs(states[..i + 1])) ==
      PutAll(PutAll([], DcPairs(states[..i])), CategoryPairs(states[i].0, states[i].1.entries))
    ensures !states[i].1.Dict? ==> DcPairs(states[..i + 1]) == DcPairs(states[..i])
  {
    assert states[..i + 1][..i] == states[..i];
    if states[i].1.Dict? {
      PutAllAppend([], DcPairs(states[..i]), CategoryPairs(states[i].0, states[i].1.entries));
    } else {
      assert DcPairs(states[..i + 1]) == DcPairs(states[..i]) + [];
    }
  }

  /** A pair comes from a nested dict exactly when it names a numeric leaf of it. */
  lemma {:induction false} LeafPairsMembers(prefix: string, sub: Entries, p: (string, Value))
    ensures p in LeafPairs(prefix, sub) <==> exists e :: e in sub && IsNum(e.1) && p == (prefix + "_" + e.0, e.1)
    decreases |sub|
  {
    if sub != [] {
      var init, e := sub[..|sub| - 1], sub[|sub| - 1];
      LeafPairsMembers(prefix, init, p);
      assert sub == init + [e];
      assert forall x :: x in sub <==> x in init || x == e;
    }
  }

  /** A pair comes from a category exactly when one of its items contributes it. */
  lemma {:induction false} CategoryPairsMembers(category: string, data: Entries, p: (string, Value))
    ensures p in CategoryPairs(category, data) <==> exists item :: item in data && p in ItemPairs(category, item)
    decreases |data|
  {
    if data != [] {
      var init, e := data[..|data| - 1], data[|data| - 1];
      CategoryPairsMembers(category, init, p);
      assert data == init + [e];
      assert forall x :: x in data <==> x in init || x == e;
    }
  }

  /** A pair comes from the states exactly when some dict category contributes it. */
  lemma {:induction false} DcPairsMembers(states: Entries, p: (string, Value))
    ensures p in DcPairs(states) <==>
      exists c :: c in states && c.1.Dict? && p in CategoryPairs(c.0, c.1.entries)
    decreases |states|
  {
    if states != [] {
      var init, c := states[..|states| - 1], states[|states| - 1];
      DcPairsMembers(init, p);
      assert states == init + [c];
      assert forall x :: x in states <==> x in init || x == c;
    }
  }

  /**
   * Every int/float leaf of a nested device dict is emitted, as
   * `<category>_<key>_<subkey>` with the value unchanged. That nothing else
   * there is emitted (`status`, `alarms`) is LeafPairsMembers.
   */
  lemma NestedLeafEmitted(states: Entries, category: string, data: Entries, key: string, sub: Entries, leaf: (string, Value))
    requires (category, Dict(data)) in states && (key, Dict(sub)) in data && leaf in sub
    ensures IsNum(leaf.1) ==> (category + "_" + key + "_" + leaf.0, leaf.1) in DcPairs(states)
  {
    if IsNum(leaf.1) {
      var p := (category + "_" + key + "_" + leaf.0, leaf.1);
      LeafPairsMembers(category + "_" + key, sub, p);
      CategoryPairsMembers(category, data, p);
      DcPairsMembers(states, p);
    }
  }

  /** A top-level int, float or str item is emitted as `<category>_<key>` with its value. */
  lemma ScalarItemEmitted(states: Entries, category: string, data: Entries, item: (string, Value))
    requires (category, Dict(data)) in states && item in data
    requires IsNum(item.1) || item.1.Str?
    ensures (category + "_" + item.0, item.1) in DcPairs(states)
  {
    var p := (category + "_" + item.0, item.1);
    CategoryPairsMembers(category, data, p);
    DcPairsMembers(states, p);
  }

  /** Every emitted value is an int, float or str: no list, dict or `None` reaches `metrics`. */
  lemma EmittedScalars(states: Entries, p: (string, Value))
    requires p in DcPairs(states)
    ensures IsNum(p.1) || p.1.Str?
  {
    DcPairsMembers(states, p);
    var c :| c in states && c.1.Dict? && p in CategoryPairs(c.0, c.1.entries);
    CategoryPairsMembers(c.0, c.1.entries, p);
    var item :| item in c.1.entries && p in ItemPairs(c.0, item);
    if item.1.Dict? {
      LeafPairsMembers(c.0 + "_" + item.0, item.1.entries, p);
    }
  }

  /** When the generated names do not collide, `metrics` is exactly the emitted pairs. */
  lemma FlattenDistinct(states: Entries)
    requires DistinctKeys(DcPairs(states))
    ensures Flatten(states) == DcPairs(states)
  {
    PutAllDistinct([], DcPairs(states));
    assert [] + DcPairs(states) == DcPairs(states);
  }

  /**
   * The inclusion rules on a small state: a nested dict keeps only its number
   * (`power_kw`, not `status` or `alarms`), a top-level string is kept
   * (`smoke_detector`), and a non-dict category is skipped.
   */
  lemma FlattenExample()
    ensures DcPairs([("cooling_systems", Dict([("crac_1", Dict([("status", Str("running")), ("power_kw", Float(12.5)),
                                                                ("alarms", List([]))]))])),
                     ("environmental", Dict([("smoke_detector", Str("normal"))])),
                     ("version", Int(2))])
         == [("cooling_systems_crac_1_power_kw", Float(12.5)), ("environmental_smoke_detector", Str("normal"))]
  {
    var s0, s1, s2 := ("status", Str("running")), ("power_kw", Float(12.5)), ("alarms", List([]));
    var crac := [s0, s1, s2];
    var leaf := ("cooling_systems_crac_1_power_kw", Float(12.5));
    assert [s0][..0] == [] && [s0, s1][..1] == [s0] && crac[..2] == [s0, s1];
    assert "cooling_systems" + "_" + "crac_1" == "cooling_systems_crac_1";
    assert "cooling_systems_crac_1" + "_" + "power_kw" == leaf.0;
    assert "environmental" + "_" + "smoke_detector" == "environmental_smoke_detector";
    assert LeafPairs("cooling_systems_crac_1", [s0]) == [];
    assert LeafPairs("cooling_systems_crac_1", [s0, s1]) == [leaf];
    assert LeafPairs("cooling_systems_crac_1", crac) == [leaf];
    var cooling := [("crac_1", Dict(crac))];
    assert cooling[..0] == [];
    assert CategoryPairs("cooling_systems", cooling) == [leaf];
    var smoke := ("environmental_smoke_detector", Str("normal"));
    var env := [("smoke_detector", Str("normal"))];
    assert env[..0] == [];
    assert CategoryPairs("environmental", env) == [smoke];
    var c0, c1, c2 := ("cooling_systems", Dict(cooling)), ("environmental", Dict(env)), ("version", Int(2));
    assert [c0][..0] == [] && [c0, c1][..1] == [c0] && [c0, c1, c2][..2] == [c0, c1];
    assert DcPairs([c0]) == [leaf];
    assert DcPairs([c0, c1]) == [leaf, smoke];
    assert DcPairs([c0, c1, c2]) == [leaf, smoke];
  }

  // ---------------------------------------------------------------------------
  // The equipment states and one step of `generate_high_freq_metrics`

  /** The numeric reading at `path`, when there is one, lies in [lo, hi]. */
  predicate NumIn(v: Option<Value>, lo: real, hi: real) {
    v.Some? && IsNum(v.value) && lo <= Num(v.value) <= hi
  }

  predicate IsNumAt(v: Option<Value>) {
    v.Some? && IsNum(v.value)
  }

  /**
   * What `generate_high_freq_metrics` relies on and keeps: the devices it
   * writes are dicts, the readings it reads are numbers, and the three
   * random-walk readings lie within their clamp bounds.
   */
  predicate DcOk(s: Entries) {
    && IsDict2(s, "ups_systems", "ups_1") && IsDict2(s, "cooling_systems", "crac_1")
    && IsDict2(s, "servers", "rack_1") && IsDict2(s, "network_switches", "core_switch_1")
    && IsDict2(s, "power_distribution", "pdu_1")
    && IsDictAt(s, "environmental") && IsDictAt(s, "pue_metrics")
    && NumIn(Get3(s, "ups_systems", "ups_1", "load_percent"), 60.0, 70.0)
    && NumIn(Get3(s, "servers", "rack_1", "cpu_avg_percent"), 40.0, 90.0)
    && NumIn(Get3(s, "servers", "rack_1", "memory_avg_percent"), 60.0, 80.0)
    && IsNumAt(Get3(s, "cooling_systems", "crac_1", "power_kw"))
    && IsNumAt(Get3(s, "cooling_systems", "crac_2", "power_kw"))
    && IsNumAt(Get3(s, "power_distribution", "pdu_2", "power_total_kw"))
  }

  /** The values of `random.uniform` drawn by one call, in source order. */
  datatype DcDraws = DcDraws(
    loadDelta: real, inputVoltage: real, outputVoltage: real,
    supplyTemp: real, returnTemp: real, humidity: real,
    cpuDelta: real, memoryDelta: real, inletTemp: real, rx: real, tx: real,
    switchCpu: real, switchTemp: real, throughput: real,
    pduCurrent: real, hotAisle: real, coldAisle: real)

  /** The number stored at `s[a][b][c]`; only read where `DcOk` says there is one. */
  function Reading(s: Entries, a: string, b: string, c: string): real {
    var v := Get3(s, a, b, c);
    if v.Some? && IsNum(v.value) then Num(v.value) else 0.0
  }

  /** `pdu_1.power_total_kw` after the step: the new `current_l1` times 0.66. */
  function PduPower(d: DcDraws): real {
    (85.5 + d.pduCurrent) * 0.66
  }

  /** `it_power`: the two PDUs' power, the first one freshly written. */
  function ItPower(s: Entries, d: DcDraws): real
    requires DcOk(s)
  {
    PduPower(d) + Reading(s, "power_distribution", "pdu_2", "power_total_kw")
  }

  /** `cooling_power`: the two CRAC units' power, as Python adds them. */
  function CoolingPower(s: Entries): Value
    requires DcOk(s)
  {
    Add(Get3(s, "cooling_systems", "crac_1", "power_kw").value, Get3(s, "cooling_systems", "crac_2", "power_kw").value)
  }

  /** `total_power`: IT, cooling and the fixed 25.1 kW of lighting and other loads. */
  function TotalPower(s: Entries, d: DcDraws): real
    requires DcOk(s)
  {
    ItPower(s, d) + Num(CoolingPower(s)) + 25.1
  }

  /** The PUE written by the step; the division is guarded by `it_power > 0`. */
  function Pue(s: Entries, d: DcDraws): real
    requires DcOk(s)
  {
    if ItPower(s, d) > 0.0 then TotalPower(s, d) / ItPower(s, d) else 1.0
  }

  /** The writes three levels down, one row per device, in source order. */
  function DeviceRows(s: Entries, d: DcDraws): seq<(string, string, Entries)> {
    [ ("ups_systems", "ups_1", UpsRow(Reading(s, "ups_systems", "ups_1", "load_percent"), d)),
      ("cooling_systems", "crac_1", CracRow(d)),
      ("servers", "rack_1", RackRow(Reading(s, "servers", "rack_1", "cpu_avg_percent"),
                                    Reading(s, "servers", "rack_1", "memory_avg_percent"), d)),
      ("network_switches", "core_switch_1", SwitchRow(d)),
      ("power_distribution", "pdu_1", PduRow(d)) ]
  }

  /** `ups_1`: the load takes its step and is clamped to [60, 70]; the voltages are redrawn. */
  function UpsRow(load: real, d: DcDraws): Entries {
    [ ("load_percent", Clamp(60, 70, load + d.loadDelta)),
      ("input_voltage", Float(220.0 + d.inputVoltage)),
      ("output_voltage", Float(220.0 + d.outputVoltage)) ]
  }

  /** `crac_1`: temperatures and humidity redrawn; its `power_kw` is left alone. */
  function CracRow(d: DcDraws): Entries {
    [ ("supply_temp_c", Float(18.5 + d.supplyTemp)),
      ("return_temp_c", Float(28.2 + d.returnTemp)),
      ("humidity_percent", Float(45.0 + d.humidity)) ]
  }

  /** `rack_1`: CPU clamped to [40, 90], memory to [60, 80], the rest redrawn. */
  function RackRow(cpu: real, memory: real, d: DcDraws): Entries {
    [ ("cpu_avg_percent", Clamp(40, 90, cpu + d.cpuDelta)),
      ("memory_avg_percent", Clamp(60, 80, memory + d.memoryDelta)),
      ("inlet_temp_c", Float(22.5 + d.inletTemp)),
      ("network_rx_gbps", Float(2.5 + d.rx)),
      ("network_tx_gbps", Float(1.8 + d.tx)) ]
  }

  function SwitchRow(d: DcDraws): Entries {
    [ ("cpu_percent", Float(25.5 + d.switchCpu)),
      ("temperature_c", Float(45.0 + d.switchTemp)),
      ("throughput_gbps", Float(15.5 + d.throughput)) ]
  }

  /** `pdu_1`: a new `current_l1`, and the power derived from it. */
  function PduRow(d: DcDraws): Entries {
    [ ("current_l1", Float(85.5 + d.pduCurrent)), ("power_total_kw", Float(PduPower(d))) ]
  }

  /** The writes two levels down: the aisle temperatures, then the PUE figures. */
  function CategoryRows(s: Entries, d: DcDraws): seq<(string, Entries)>
    requires DcOk(s)
  {
    [ ("environmental", [("hot_aisle_temp_c", Float(32.5 + d.hotAisle)), ("cold_aisle_temp_c", Float(20.5 + d.coldAisle))]),
      ("pue_metrics", PueRow(s, d)) ]
  }

  function PueRow(s: Entries, d: DcDraws): Entries
    requires DcOk(s)
  {
    [ ("it_power_kw", Float(ItPower(s, d))), ("total_facility_power_kw", Float(TotalPower(s, d))),
      ("cooling_power_kw", CoolingPower(s)), ("pue", Float(Pue(s, d))) ]
  }

  /**
   * The in-place updates of `generate_high_freq_metrics`. Every reading the
   * source takes is either a value no earlier write of the step touches or
   * `pdu_1.power_total_kw`, which is computed from the draw directly; so all
   * reads are taken from the state before the step. `+=` followed by the clamp
   * is one write of the clamped value; `round(·, 3)` on the PUE is omitted.
   */
  function Step(s: Entries, d: DcDraws): (r: Entries)
    requires DcOk(s)
    ensures DcOk(r)
    ensures Clamped(r, s, d)
    ensures ItPower(s, d) <= 0.0 ==> Get2(r, "pue_metrics", "pue") == Some(Float(1.0))
    ensures ItPower(s, d) > 0.0 ==> Get2(r, "pue_metrics", "pue") == Some(Float(TotalPower(s, d) / ItPower(s, d)))
  {
    DeviceSteps(s, d);
    CategorySteps(UpdateAll3(s, DeviceRows(s, d)), s, d);
    UpdateAll(UpdateAll3(s, DeviceRows(s, d)), CategoryRows(s, d))
  }

  /**
   * The three random-walk readings of `r` are those of `s` moved by their
   * draws and clamped: load to [60, 70], CPU to [40, 90], memory to [60, 80].
   */
  predicate Clamped(r: Entries, s: Entries, d: DcDraws) {
    && Get3(r, "ups_systems", "ups_1", "load_percent")
       == Some(Clamp(60, 70, Reading(s, "ups_systems", "ups_1", "load_percent") + d.loadDelta))
    && Get3(r, "servers", "rack_1", "cpu_avg_percent")
       == Some(Clamp(40, 90, Reading(s, "servers", "rack_1", "cpu_avg_percent") + d.cpuDelta))
    && Get3(r, "servers", "rack_1", "memory_avg_percent")
       == Some(Clamp(60, 80, Reading(s, "servers", "rack_1", "memory_avg_percent") + d.memoryDelta))
  }

  /** The three readings `Clamped` looks at are the same in `r` and `t`. */
  predicate SameClampedReadings(r: Entries, t: Entries) {
    && Get3(r, "ups_systems", "ups_1", "load_percent") == Get3(t, "ups_systems", "ups_1", "load_percent")
    && Get3(r, "servers", "rack_1", "cpu_avg_percent") == Get3(t, "servers", "rack_1", "cpu_avg_percent")
    && Get3(r, "servers", "rack_1", "memory_avg_percent") == Get3(t, "servers", "rack_1", "memory_avg_percent")
  }

  /** The five device writes of a step keep the shape and land the clamped readings. */
  lemma DeviceSteps(s: Entries, d: DcDraws)
    requires DcOk(s)
    ensures DcOk(UpdateAll3(s, DeviceRows(s, d))) && Clamped(UpdateAll3(s, DeviceRows(s, d)), s, d)
  {
    var load := Reading(s, "ups_systems", "ups_1", "load_percent");
    var cpu := Reading(s, "servers", "rack_1", "cpu_avg_percent");
    var memory := Reading(s, "servers", "rack_1", "memory_avg_percent");
    UpsRowKeys(load, d);
    CracRowKeys(d);
    RackRowKeys(cpu, memory, d);
    DeviceWrites(s, DeviceRows(s, d), Clamp(60, 70, load + d.loadDelta), Clamp(40, 90, cpu + d.cpuDelta),
                 Clamp(60, 80, memory + d.memoryDelta));
  }

  lemma UpsRowKeys(load: real, d: DcDraws)
    ensures DistinctKeys(UpsRow(load, d))
    ensures Lookup(UpsRow(load, d), "load_percent") == Some(Clamp(60, 70, load + d.loadDelta))
  {
    ThreeKeys(UpsRow(load, d));
  }

  lemma CracRowKeys(d: DcDraws)
    ensures "power_kw" !in Keys(CracRow(d))
  {
    ThreeKeys(CracRow(d));
  }

  lemma RackRowKeys(cpu: real, memory: real, d: DcDraws)
    ensures DistinctKeys(RackRow(cpu, memory, d))
    ensures Lookup(RackRow(cpu, memory, d), "cpu_avg_percent") == Some(Clamp(40, 90, cpu + d.cpuDelta))
    ensures Lookup(RackRow(cpu, memory, d), "memory_avg_percent") == Some(Clamp(60, 80, memory + d.memoryDelta))
  {
    FiveKeys(RackRow(cpu, memory, d));
  }

  /**
   * Five device writes in the order of a step keep `DcOk` when the UPS row
   * writes a bounded load, the CRAC row leaves `power_kw` alone and the rack
   * row writes bounded CPU and memory readings.
   */
  lemma DeviceWrites(s: Entries, rows: seq<(string, string, Entries)>, load: Value, cpu: Value, memory: Value)
    requires DcOk(s) && |rows| == 5
    requires rows[0].0 == "ups_systems" && rows[0].1 == "ups_1" && DistinctKeys(rows[0].2)
    requires Lookup(rows[0].2, "load_percent") == Some(load) && IsNum(load) && 60.0 <= Num(load) <= 70.0
    requires rows[1].0 == "cooling_systems" && rows[1].1 == "crac_1" && "power_kw" !in Keys(rows[1].2)
    requires rows[2].0 == "servers" && rows[2].1 == "rack_1" && DistinctKeys(rows[2].2)
    requires Lookup(rows[2].2, "cpu_avg_percent") == Some(cpu) && IsNum(cpu) && 40.0 <= Num(cpu) <= 90.0
    requires Lookup(rows[2].2, "memory_avg_percent") == Some(memory) && IsNum(memory) && 60.0 <= Num(memory) <= 80.0
    requires rows[3].0 == "network_switches" && rows[3].1 == "core_switch_1"
    requires rows[4].0 == "power_distribution" && rows[4].1 == "pdu_1"
    ensures DcOk(UpdateAll3(s, rows))
    ensures Get3(UpdateAll3(s, rows), "ups_systems", "ups_1", "load_percent") == Some(load)
    ensures Get3(UpdateAll3(s, rows), "servers", "rack_1", "cpu_avg_percent") == Some(cpu)
    ensures Get3(UpdateAll3(s, rows), "servers", "rack_1", "memory_avg_percent") == Some(memory)
  {
    assert rows[..3] + rows[3..] == rows;
    UpdateAll3Append(s, rows[..3], rows[3..]);
    FirstWrites(s, rows[..3], load, cpu, memory);
    LastWrites(UpdateAll3(s, rows[..3]), rows[3..]);
  }

  /** The UPS, CRAC and rack writes of `DeviceWrites`. */
  lemma FirstWrites(s: Entries, rows: seq<(string, string, Entries)>, load: Value, cpu: Value, memory: Value)
    requires DcOk(s) && |rows| == 3
    requires rows[0].0 == "ups_systems" && rows[0].1 == "ups_1" && DistinctKeys(rows[0].2)
    requires Lookup(rows[0].2, "load_percent") == Some(load) && IsNum(load) && 60.0 <= Num(load) <= 70.0
    requires rows[1].0 == "cooling_systems" && rows[1].1 == "crac_1" && "power_kw" !in Keys(rows[1].2)
    requires rows[2].0 == "servers" && rows[2].1 == "rack_1" && DistinctKeys(rows[2].2)
    requires Lookup(rows[2].2, "cpu_avg_percent") == Some(cpu) && IsNum(cpu) && 40.0 <= Num(cpu) <= 90.0
    requires Lookup(rows[2].2, "memory_avg_percent") == Some(memory) && IsNum(memory) && 60.0 <= Num(memory) <= 80.0
    ensures DcOk(UpdateAll3(s, rows))
    ensures Get3(UpdateAll3(s, rows), "ups_systems", "ups_1", "load_percent") == Some(load)
    ensures Get3(UpdateAll3(s, rows), "servers", "rack_1", "cpu_avg_percent") == Some(cpu)
    ensures Get3(UpdateAll3(s, rows), "servers", "rack_1", "memory_avg_percent") == Some(memory)
  {
    UpdateAll3Three(s, rows);
    var s1 := Update3(s, "ups_systems", "ups_1", rows[0].2);
    LoadWriteOk(s, rows[0].2, load);
    var s2 := Update3(s1, "cooling_systems", "crac_1", rows[1].2);
    Update3KeepsOk(s1, "cooling_systems", "crac_1", rows[1].2);
    RackWriteOk(s2, rows[2].2, cpu, memory);
  }

  /** The switch and PDU writes of `DeviceWrites`: nothing `DcOk` constrains is touched. */
  lemma LastWrites(t: Entries, rows: seq<(string, string, Entries)>)
    requires DcOk(t) && |rows| == 2
    requires rows[0].0 == "network_switches" && rows[0].1 == "core_switch_1"
    requires rows[1].0 == "power_distribution" && rows[1].1 == "pdu_1"
    ensures DcOk(UpdateAll3(t, rows)) && SameClampedReadings(UpdateAll3(t, rows), t)
  {
    UpdateAll3Two(t, rows);
    var t1 := Update3(t, "network_switches", "core_switch_1", rows[0].2);
    Update3KeepsOk(t, "network_switches", "core_switch_1", rows[0].2);
    Update3KeepsOk(t1, "power_distribution", "pdu_1", rows[1].2);
  }

  /** Three rows applied by `UpdateAll3` are three nested writes. */
  lemma UpdateAll3Three(s: Entries, rows: seq<(string, string, Entries)>)
    requires |rows| == 3
    ensures UpdateAll3(s, rows)
         == Update3(Update3(Update3(s, rows[0].0, rows[0].1, rows[0].2), rows[1].0, rows[1].1, rows[1].2),
                    rows[2].0, rows[2].1, rows[2].2)
  {
    var s1 := Update3(s, rows[0].0, rows[0].1, rows[0].2);
    UpdateAll3Two(s1, rows[1..]);
  }

  /** Two rows applied by `UpdateAll3` are two nested writes. */
  lemma UpdateAll3Two(s: Entries, rows: seq<(string, string, Entries)>)
    requires |rows| == 2
    ensures UpdateAll3(s, rows) == Update3(Update3(s, rows[0].0, rows[0].1, rows[0].2), rows[1].0, rows[1].1, rows[1].2)
  {
    var s1 := Update3(s, rows[0].0, rows[0].1, rows[0].2);
    assert UpdateAll3(s1, rows[1..]) == Update3(s1, rows[1].0, rows[1].1, rows[1].2) by { assert rows[1..][1..] == []; }
  }

  /** The two category writes of a step keep the shape and the clamped readings, and store the PUE. */
  lemma CategorySteps(t: Entries, s: Entries, d: DcDraws)
    requires DcOk(s) && DcOk(t) && Clamped(t, s, d)
    ensures DcOk(UpdateAll(t, CategoryRows(s, d))) && Clamped(UpdateAll(t, CategoryRows(s, d)), s, d)
    ensures Get2(UpdateAll(t, CategoryRows(s, d)), "pue_metrics", "pue") == Some(Float(Pue(s, d)))
  {
    PueRowKeys(s, d);
    CategoryWrites(t, CategoryRows(s, d)[0].1, PueRow(s, d), Float(Pue(s, d)));
  }

  lemma PueRowKeys(s: Entries, d: DcDraws)
    requires DcOk(s)
    ensures DistinctKeys(PueRow(s, d)) && Lookup(PueRow(s, d), "pue") == Some(Float(Pue(s, d)))
  {
    FourKeys(PueRow(s, d));
  }

  /** The environmental and PUE writes keep `DcOk` and the clamped readings, and store the PUE. */
  lemma CategoryWrites(t: Entries, env: Entries, pue: Entries, p: Value)
    requires DcOk(t) && DistinctKeys(pue) && Lookup(pue, "pue") == Some(p)
    ensures var r := UpdateAll(t, [("environmental", env), ("pue_metrics", pue)]);
      DcOk(r) && SameClampedReadings(r, t) && Get2(r, "pue_metrics", "pue") == Some(p)
  {
    var rows := [("environmental", env), ("pue_metrics", pue)];
    UpdateAllTwo(t, rows);
    var t1 := Update(t, "environmental", env);
    UpdateKeepsOk(t, "environmental", env);
    assert IsDictAt(t1, "pue_metrics");
    UpdateKeepsOk(t1, "pue_metrics", pue);
  }

  /** Two rows applied by `UpdateAll` are two nested writes. */
  lemma UpdateAllTwo(s: Entries, rows: seq<(string, Entries)>)
    requires |rows| == 2
    ensures UpdateAll(s, rows) == Update(Update(s, rows[0].0, rows[0].1), rows[1].0, rows[1].1)
  {
    var s1 := Update(s, rows[0].0, rows[0].1);
    assert UpdateAll(s1, rows[1..]) == Update(s1, rows[1].0, rows[1].1) by { assert rows[1..][1..] == []; }
  }

  /** A write three levels down that touches none of the readings `DcOk` constrains keeps it. */
  lemma Update3KeepsOk(s: Entries, a: string, b: string, u: Entries)
    requires DcOk(s)
    requires a != "ups_systems" && a != "servers"
    requires a == "cooling_systems" && b == "crac_1" ==> "power_kw" !in Keys(u)
    requires a == "cooling_systems" ==> b != "crac_2"
    requires a == "power_distribution" ==> b != "pdu_2"
    ensures DcOk(Update3(s, a, b, u)) && SameClampedReadings(Update3(s, a, b, u), s)
  {
    var r := Update3(s, a, b, u);
    assert Lookup(r, "ups_systems") == Lookup(s, "ups_systems");
    assert Lookup(r, "servers") == Lookup(s, "servers");
    assert Get3(r, "ups_systems", "ups_1", "load_percent") == Get3(s, "ups_systems", "ups_1", "load_percent");
    assert Get3(r, "servers", "rack_1", "cpu_avg_percent") == Get3(s, "servers", "rack_1", "cpu_avg_percent");
    assert Get3(r, "servers", "rack_1", "memory_avg_percent") == Get3(s, "servers", "rack_1", "memory_avg_percent");
    Get3Kept(s, a, b, u, "cooling_systems", "crac_1", "power_kw");
    Get3Kept(s, a, b, u, "cooling_systems", "crac_2", "power_kw");
    Get3Kept(s, a, b, u, "power_distribution", "pdu_2", "power_total_kw");
  }

  /** One reading that a write three levels down does not reach is unchanged. */
  lemma Get3Kept(s: Entries, a: string, b: string, u: Entries, a': string, b': string, c': string)
    requires a' != a || b' != b || c' !in Keys(u)
    ensures Get3(Update3(s, a, b, u), a', b', c') == Get3(s, a', b', c')
  {
    var r := Update3(s, a, b, u);
    if a' != a {
      assert Lookup(r, a') == Lookup(s, a');
    } else if b' != b {
      assert Get2(r, a', b') == Get2(s, a', b');
    }
  }

  /** A write two levels down below a category other than the five device ones keeps `DcOk`. */
  lemma UpdateKeepsOk(s: Entries, a: string, u: Entries)
    requires DcOk(s)
    requires a != "ups_systems" && a != "cooling_systems" && a != "servers"
    requires a != "network_switches" && a != "power_distribution"
    ensures DcOk(Update(s, a, u)) && SameClampedReadings(Update(s, a, u), s)
  {
    var r := Update(s, a, u);
    assert Lookup(r, "ups_systems") == Lookup(s, "ups_systems");
    assert Lookup(r, "cooling_systems") == Lookup(s, "cooling_systems");
    assert Lookup(r, "servers") == Lookup(s, "servers");
    assert Lookup(r, "network_switches") == Lookup(s, "network_switches");
    assert Lookup(r, "power_distribution") == Lookup(s, "power_distribution");
    assert IsDictAt(r, "environmental") && IsDictAt(r, "pue_metrics");
    DcOkFromDevices(s, r);
  }

  /** `DcOk` only looks at the five device categories, apart from the two category dicts. */
  lemma DcOkFromDevices(s: Entries, r: Entries)
    requires DcOk(s)
    requires Lookup(r, "ups_systems") == Lookup(s, "ups_systems")
    requires Lookup(r, "cooling_systems") == Lookup(s, "cooling_systems")
    requires Lookup(r, "servers") == Lookup(s, "servers")
    requires Lookup(r, "network_switches") == Lookup(s, "network_switches")
    requires Lookup(r, "power_distribution") == Lookup(s, "power_distribution")
    requires IsDictAt(r, "environmental") && IsDictAt(r, "pue_metrics")
    ensures DcOk(r) && SameClampedReadings(r, s)
  {
  }

  /** Writing the UPS row keeps `DcOk` when the new load lies within [60, 70]. */
  lemma LoadWriteOk(s: Entries, u: Entries, v: Value)
    requires DcOk(s) && DistinctKeys(u) && Lookup(u, "load_percent") == Some(v)
    requires IsNum(v) && 60.0 <= Num(v) <= 70.0
    ensures DcOk(Update3(s, "ups_systems", "ups_1", u))
    ensures Get3(Update3(s, "ups_systems", "ups_1", u), "ups_systems", "ups_1", "load_percent") == Some(v)
  {
    var r := Update3(s, "ups_systems", "ups_1", u);
    assert Get3(r, "ups_systems", "ups_1", "load_percent") == Some(v);
    Get3Kept(s, "ups_systems", "ups_1", u, "servers", "rack_1", "cpu_avg_percent");
    Get3Kept(s, "ups_systems", "ups_1", u, "servers", "rack_1", "memory_avg_percent");
    Get3Kept(s, "ups_systems", "ups_1", u, "cooling_systems", "crac_1", "power_kw");
    Get3Kept(s, "ups_systems", "ups_1", u, "cooling_systems", "crac_2", "power_kw");
    Get3Kept(s, "ups_systems", "ups_1", u, "power_distribution", "pdu_2", "power_total_kw");
  }

  /** Writing the rack row keeps `DcOk` when CPU lies within [40, 90] and memory within [60, 80]. */
  lemma RackWriteOk(s: Entries, u: Entries, cpu: Value, mem: Value)
    requires DcOk(s) && DistinctKeys(u)
    requires Lookup(u, "cpu_avg_percent") == Some(cpu) && Lookup(u, "memory_avg_percent") == Some(mem)
    requires IsNum(cpu) && 40.0 <= Num(cpu) <= 90.0 && IsNum(mem) && 60.0 <= Num(mem) <= 80.0
    ensures DcOk(Update3(s, "servers", "rack_1", u))
    ensures Get3(Update3(s, "servers", "rack_1", u), "servers", "rack_1", "cpu_avg_percent") == Some(cpu)
    ensures Get3(Update3(s, "servers", "rack_1", u), "servers", "rack_1", "memory_avg_percent") == Some(mem)
    ensures Get3(Update3(s, "servers", "rack_1", u), "ups_systems", "ups_1", "load_percent")
         == Get3(s, "ups_systems", "ups_1", "load_percent")
  {
    var r := Update3(s, "servers", "rack_1", u);
    assert Get3(r, "servers", "rack_1", "cpu_avg_percent") == Some(cpu);
    assert Get3(r, "servers", "rack_1", "memory_avg_percent") == Some(mem);
    Get3Kept(s, "servers", "rack_1", u, "ups_systems", "ups_1", "load_percent");
    Get3Kept(s, "servers", "rack_1", u, "cooling_systems", "crac_1", "power_kw");
    Get3Kept(s, "servers", "rack_1", u, "cooling_systems", "crac_2", "power_kw");
    Get3Kept(s, "servers", "rack_1", u, "power_distribution", "pdu_2", "power_total_kw");
  }

  lemma ThreeKeys(u: Entries)
    requires |u| == 3 && u[0].0 != u[1].0 && u[0].0 != u[2].0 && u[1].0 != u[2].0
    ensures DistinctKeys(u) && Keys(u) == {u[0].0, u[1].0, u[2].0} && Lookup(u, u[0].0) == Some(u[0].1)
  {
    var t := u[1..];
    assert t[1..][1..] == [];
    assert Keys(t[1..]) == {u[2].0} && DistinctKeys(t[1..]);
    assert Keys(t) == {u[1].0, u[2].0} && DistinctKeys(t);
  }

  lemma FourKeys(u: Entries)
    requires |u| == 4
    requires u[0].0 != u[1].0 && u[0].0 != u[2].0 && u[0].0 != u[3].0
    requires u[1].0 != u[2].0 && u[1].0 != u[3].0 && u[2].0 != u[3].0
    ensures DistinctKeys(u) && Lookup(u, u[3].0) == Some(u[3].1)
  {
    ThreeKeys(u[1..]);
    assert u[1..][2] == u[3];
  }

  lemma FiveKeys(u: Entries)
    requires |u| == 5
    requires u[0].0 != u[1].0 && u[0].0 != u[2].0 && u[0].0 != u[3].0 && u[0].0 != u[4].0
    requires u[1].0 != u[2].0 && u[1].0 != u[3].0 && u[1].0 != u[4].0
    requires u[2].0 != u[3].0 && u[2].0 != u[4].0 && u[3].0 != u[4].0
    ensures DistinctKeys(u) && Lookup(u, u[0].0) == Some(u[0].1) && Lookup(u, u[1].0) == Some(u[1].1)
  {
    ThreeKeys(u[2..]);
    var t := u[1..];
    assert t[1..] == u[2..];
    assert Keys(t) == {u[1].0} + Keys(u[2..]) && DistinctKeys(t);
  }

  // ---------------------------------------------------------------------------
  // The equipment states at start-up

  /** `device_states` at start-up, one category and one device per function. */
  function InitialStates(): Entries {
    [ ("ups_systems", Dict(InitialUpsSystems())),
      ("cooling_systems", Dict(InitialCooling())),
      ("servers", Dict(InitialServers())),
      ("network_switches", Dict(InitialSwitches())),
      ("power_distribution", Dict(InitialPower())),
      ("environmental", Dict(InitialEnvironmental())),
      ("pue_metrics", Dict(InitialPue())) ]
  }

  function InitialUpsSystems(): Entries {
    [("ups_1", Dict(InitialUps1())), ("ups_2", Dict(InitialUps2()))]
  }

  function InitialCooling(): Entries {
    [("crac_1", Dict(InitialCrac1())), ("crac_2", Dict(InitialCrac2()))]
  }

  function InitialServers(): Entries {
    [("rack_1", Dict(InitialRack1())), ("rack_2", Dict(InitialRack2()))]
  }

  function InitialSwitches(): Entries {
    [("core_switch_1", Dict(InitialSwitch1())), ("core_switch_2", Dict(InitialSwitch2()))]
  }

  function InitialPower(): Entries {
    [("pdu_1", Dict(InitialPdu1())), ("pdu_2", Dict(InitialPdu2()))]
  }

  function InitialUps1(): Entries {
    [ ("status", Str("online")), ("load_percent", Float(65.5)), ("input_voltage", Float(220.0)),
      ("output_voltage", Float(220.0)), ("input_frequency", Float(50.0)), ("output_frequency", Float(50.0)),
      ("battery_voltage", Float(240.0)), ("battery_current", Float(0.0)), ("battery_soc_percent", Float(100.0)),
      ("battery_temp", Float(25.0)), ("estimated_runtime_min", Int(45)), ("alarms", List([])) ]
  }

  function InitialUps2(): Entries {
    [ ("status", Str("online")), ("load_percent", Float(68.2)), ("input_voltage", Float(220.0)),
      ("output_voltage", Float(220.0)), ("battery_soc_percent", Float(100.0)), ("estimated_runtime_min", Int(42)) ]
  }

  function InitialCrac1(): Entries {
    [ ("status", Str("running")), ("supply_temp_c", Float(18.5)), ("return_temp_c", Float(28.2)),
      ("humidity_percent", Float(45.0)), ("fan_speed_percent", Float(75.0)), ("compressor_status", Str("on")),
      ("power_kw", Float(12.5)), ("alarms", List([])) ]
  }

  function InitialCrac2(): Entries {
    [ ("status", Str("running")), ("supply_temp_c", Float(18.8)), ("return_temp_c", Float(28.5)),
      ("humidity_percent", Float(46.0)), ("fan_speed_percent", Float(72.0)), ("compressor_status", Str("on")),
      ("power_kw", Float(12.2)) ]
  }

  function InitialRack1(): Entries {
    [ ("total_servers", Int(42)), ("active_servers", Int(42)), ("cpu_avg_percent", Float(45.5)),
      ("memory_avg_percent", Float(68.2)), ("disk_avg_percent", Float(55.0)), ("inlet_temp_c", Float(22.5)),
      ("power_kw", Float(15.8)), ("network_rx_gbps", Float(2.5)), ("network_tx_gbps", Float(1.8)) ]
  }

  function InitialRack2(): Entries {
    [ ("total_servers", Int(42)), ("active_servers", Int(40)), ("cpu_avg_percent", Float(52.3)),
      ("memory_avg_percent", Float(71.5)), ("disk_avg_percent", Float(62.0)), ("inlet_temp_c", Float(23.1)),
      ("power_kw", Float(16.2)), ("network_rx_gbps", Float(3.1)), ("network_tx_gbps", Float(2.3)) ]
  }

  function InitialSwitch1(): Entries {
    [ ("status", Str("active")), ("uptime_hours", Int(8520)), ("cpu_percent", Float(25.5)),
      ("memory_percent", Float(42.0)), ("temperature_c", Float(45.0)), ("port_utilization_percent", Float(65.0)),
      ("total_ports", Int(48)), ("active_ports", Int(42)), ("throughput_gbps", Float(15.5)),
      ("packet_loss_percent", Float(0.01)), ("errors", Int(0)) ]
  }

  function InitialSwitch2(): Entries {
    [ ("status", Str("active")), ("uptime_hours", Int(8520)), ("cpu_percent", Float(28.2)),
      ("memory_percent", Float(45.5)), ("temperature_c", Float(46.5)), ("port_utilization_percent", Float(68.0)),
      ("total_ports", Int(48)), ("active_ports", Int(44)), ("throughput_gbps", Float(17.2)),
      ("packet_loss_percent", Float(0.02)) ]
  }

  function InitialPdu1(): Entries {
    [ ("voltage_l1", Float(220.0)), ("voltage_l2", Float(220.0)), ("voltage_l3", Float(220.0)),
      ("current_l1", Float(85.5)), ("current_l2", Float(87.2)), ("current_l3", Float(84.8)),
      ("power_total_kw", Float(56.5)), ("energy_kwh", Float(125600.0)), ("power_factor", Float(0.98)) ]
  }

  function InitialPdu2(): Entries {
    [ ("voltage_l1", Float(220.0)), ("voltage_l2", Float(220.0)), ("voltage_l3", Float(220.0)),
      ("current_l1", Float(82.3)), ("current_l2", Float(83.5)), ("current_l3", Float(81.9)),
      ("power_total_kw", Float(54.2)), ("energy_kwh", Float(118900.0)), ("power_factor", Float(0.97)) ]
  }

  function InitialEnvironmental(): Entries {
    [ ("hot_aisle_temp_c", Float(32.5)), ("cold_aisle_temp_c", Float(20.5)), ("ambient_humidity_percent", Float(45.0)),
      ("differential_pressure_pa", Float(15.0)), ("smoke_detector", Str("normal")), ("water_leak_detector", Str("normal")) ]
  }

  function InitialPue(): Entries {
    [ ("pue", Float(1.45)), ("it_power_kw", Float(110.7)), ("total_facility_power_kw", Float(160.5)),
      ("cooling_power_kw", Float(24.7)), ("lighting_power_kw", Float(5.1)), ("other_power_kw", Float(20.0)) ]
  }

  /** The start-up states satisfy `DcOk`, stated so that the literal itself stays folded. */
  lemma InitialStatesOk()
    ensures forall s :: s == InitialStates() ==> DcOk(s)
  {
    InitialLoadAt(); InitialRackAt(); InitialCoolingPowerAt(); InitialPduAt(); InitialSwitchAt();
    InitialEnvironmentalAt(); InitialPueAt();
    DcOkOf(InitialStates());
  }

  /** `DcOk` from its conjuncts, with the readings given as the numbers they are. */
  lemma DcOkOf(s: Entries)
    requires IsDict2(s, "ups_systems", "ups_1") && IsDict2(s, "cooling_systems", "crac_1")
    requires IsDict2(s, "servers", "rack_1") && IsDict2(s, "network_switches", "core_switch_1")
    requires IsDict2(s, "power_distribution", "pdu_1")
    requires IsDictAt(s, "environmental") && IsDictAt(s, "pue_metrics")
    requires Get3(s, "ups_systems", "ups_1", "load_percent") == Some(Float(65.5))
    requires Get3(s, "servers", "rack_1", "cpu_avg_percent") == Some(Float(45.5))
    requires Get3(s, "servers", "rack_1", "memory_avg_percent") == Some(Float(68.2))
    requires Get3(s, "cooling_systems", "crac_1", "power_kw") == Some(Float(12.5))
    requires Get3(s, "cooling_systems", "crac_2", "power_kw") == Some(Float(12.2))
    requires Get3(s, "power_distribution", "pdu_2", "power_total_kw") == Some(Float(54.2))
    ensures DcOk(s)
  {
  }

  lemma InitialSwitchAt()
    ensures IsDict2(InitialStates(), "network_switches", "core_switch_1")
  {
    InitialSwitchesAt(); InitialSwitch1At();
    Get3Of(InitialStates(), "network_switches", "core_switch_1", "status", InitialSwitches(), InitialSwitch1());
  }

  lemma InitialLoadAt()
    ensures IsDict2(InitialStates(), "ups_systems", "ups_1")
    ensures Get3(InitialStates(), "ups_systems", "ups_1", "load_percent") == Some(Float(65.5))
  {
    InitialUpsAt(); InitialUps1At(); InitialLoad();
    Get3Of(InitialStates(), "ups_systems", "ups_1", "load_percent", InitialUpsSystems(), InitialUps1());
  }

  lemma InitialRackAt()
    ensures IsDict2(InitialStates(), "servers", "rack_1")
    ensures Get3(InitialStates(), "servers", "rack_1", "cpu_avg_percent") == Some(Float(45.5))
    ensures Get3(InitialStates(), "servers", "rack_1", "memory_avg_percent") == Some(Float(68.2))
  {
    InitialServersAt(); InitialRack1At(); InitialCpu(); InitialMemory();
    Get3Of(InitialStates(), "servers", "rack_1", "cpu_avg_percent", InitialServers(), InitialRack1());
    Get3Of(InitialStates(), "servers", "rack_1", "memory_avg_percent", InitialServers(), InitialRack1());
  }

  lemma InitialCoolingPowerAt()
    ensures IsDict2(InitialStates(), "cooling_systems", "crac_1")
    ensures Get3(InitialStates(), "cooling_systems", "crac_1", "power_kw") == Some(Float(12.5))
    ensures Get3(InitialStates(), "cooling_systems", "crac_2", "power_kw") == Some(Float(12.2))
  {
    InitialCoolingAt(); InitialCrac1At(); InitialCrac2At(); InitialCrac1Power(); InitialCrac2Power();
    Get3Of(InitialStates(), "cooling_systems", "crac_1", "power_kw", InitialCooling(), InitialCrac1());
    Get3Of(InitialStates(), "cooling_systems", "crac_2", "power_kw", InitialCooling(), InitialCrac2());
  }

  lemma InitialPduAt()
    ensures IsDict2(InitialStates(), "power_distribution", "pdu_1")
    ensures Get3(InitialStates(), "power_distribution", "pdu_2", "power_total_kw") == Some(Float(54.2))
  {
    InitialPowerAt(); InitialPdu1At(); InitialPdu2At(); InitialPdu2Power();
    Get3Of(InitialStates(), "power_distribution", "pdu_1", "power_total_kw", InitialPower(), InitialPdu1());
    Get3Of(InitialStates(), "power_distribution", "pdu_2", "power_total_kw", InitialPower(), InitialPdu2());
  }

  /* One fact per lemma: several literal lookups in one proof context cost far more than each alone. */

  lemma InitialUpsAt()
    ensures Lookup(InitialStates(), "ups_systems") == Some(Dict(InitialUpsSystems()))
  {
  }

  lemma InitialCoolingAt()
    ensures Lookup(InitialStates(), "cooling_systems") == Some(Dict(InitialCooling()))
  {
  }

  lemma InitialServersAt()
    ensures Lookup(InitialStates(), "servers") == Some(Dict(InitialServers()))
  {
  }

  lemma InitialSwitchesAt()
    ensures Lookup(InitialStates(), "network_switches") == Some(Dict(InitialSwitches()))
  {
  }

  lemma InitialPowerAt()
    ensures Lookup(InitialStates(), "power_distribution") == Some(Dict(InitialPower()))
  {
  }

  lemma InitialEnvironmentalAt()
    ensures IsDictAt(InitialStates(), "environmental")
  {
  }

  lemma InitialPueAt()
    ensures IsDictAt(InitialStates(), "pue_metrics")
  {
  }

  lemma InitialUps1At()
    ensures Lookup(InitialUpsSystems(), "ups_1") == Some(Dict(InitialUps1()))
  {
  }

  lemma InitialCrac1At()
    ensures Lookup(InitialCooling(), "crac_1") == Some(Dict(InitialCrac1()))
  {
  }

  lemma InitialCrac2At()
    ensures Lookup(InitialCooling(), "crac_2") == Some(Dict(InitialCrac2()))
  {
  }

  lemma InitialRack1At()
    ensures Lookup(InitialServers(), "rack_1") == Some(Dict(InitialRack1()))
  {
  }

  lemma InitialSwitch1At()
    ensures Lookup(InitialSwitches(), "core_switch_1") == Some(Dict(InitialSwitch1()))
  {
  }

  lemma InitialPdu1At()
    ensures Lookup(InitialPower(), "pdu_1") == Some(Dict(InitialPdu1()))
  {
  }

  lemma InitialPdu2At()
    ensures Lookup(InitialPower(), "pdu_2") == Some(Dict(InitialPdu2()))
  {
  }

  lemma InitialLoad()
    ensures Lookup(InitialUps1(), "load_percent") == Some(Float(65.5))
  {
  }

  lemma InitialCrac1Power()
    ensures Lookup(InitialCrac1(), "power_kw") == Some(Float(12.5))
  {
  }

  lemma InitialCrac2Power()
    ensures Lookup(InitialCrac2(), "power_kw") == Some(Float(12.2))
  {
  }

  lemma InitialCpu()
    ensures Lookup(InitialRack1(), "cpu_avg_percent") == Some(Float(45.5))
  {
  }

  lemma InitialMemory()
    ensures Lookup(InitialRack1(), "memory_avg_percent") == Some(Float(68.2))
  {
  }

  lemma InitialPdu2Power()
    ensures Lookup(InitialPdu2(), "power_total_kw") == Some(Float(54.2))
  {
  }

  // ---------------------------------------------------------------------------
  // Messages

  /** The payload of one publish tick. */
  function RawMessage(gatewayId: string, location: Value, timestamp: string, metrics: Entries): Value {
    Dict([("gateway_id", Str(gatewayId)), ("gateway_type", Str(GatewayType)), ("location", location),
          ("timestamp", Str(timestamp)), ("metrics", Dict(metrics))])
  }

  /** The status announced after a successful connect, with the sampling settings. */
  function StatusMessage(gatewayId: string, location: Value, samplingRateMs: int, timestamp: string): Value {
    Dict([("gateway_id", Str(gatewayId)), ("gateway_type", Str(GatewayType)), ("status", Str("online")),
          ("location", location), ("high_frequency", Bool(true)), ("sampling_rate_ms", Int(samplingRateMs)),
          ("timestamp", Str(timestamp))])
  }

  // ---------------------------------------------------------------------------
  // The gateway process state: `is_connected` and `device_states`

  class Gateway {
    const gatewayId: string
    const location: Value
    const samplingRateMs: int      // SAMPLING_RATE_MS
    var connected: bool            // is_connected
    var published: seq<Publish>    // the publish calls that returned, in order
    var devices: Entries           // device_states

    predicate Valid()
      reads this`devices
    {
      DcOk(devices)
    }

    constructor (gatewayId: string, lat: real, lon: real, samplingRateMs: int)
      ensures this.gatewayId == gatewayId && location == Location(lat, lon) && this.samplingRateMs == samplingRateMs
      ensures !connected && published == [] && devices == InitialStates()
      ensures Valid()
    {
      this.gatewayId := gatewayId;
      location := Location(lat, lon);
      this.samplingRateMs := samplingRateMs;
      connected := false;
      published := [];
      devices := InitialStates();
      InitialStatesOk();
    }

    /**
     * One iteration of `publish_metrics`. While connected: refresh the readings
     * in place, flatten them and publish the raw message at QoS 0 (a call that
     * raises is caught by the loop and the message is lost). While disconnected
     * nothing is generated, published or kept.
     */
    method Tick(d: DcDraws, timestamp: string, outcome: SendOutcome)
      requires Valid()
      modifies this`devices, this`published
      ensures Valid()
      ensures !old(connected) ==> devices == old(devices) && published == old(published)
      ensures old(connected) ==> devices == Step(old(devices), d) && PublishedReadings(old(published), timestamp, outcome)
    {
      if connected {
        Refresh(d);
        PublishReadings(timestamp, outcome);
      }
    }

    /** `generate_high_freq_metrics`: the readings are refreshed in place. */
    method Refresh(d: DcDraws)
      requires Valid()
      modifies this`devices
      ensures Valid()
      ensures devices == Step(old(devices), d)
    {
      devices := Step(devices, d);
    }

    /** A publish of the flattened readings to `/raw` at QoS 0, kept only when the call returned. */
    ghost predicate PublishedReadings(published0: seq<Publish>, timestamp: string, outcome: SendOutcome)
      reads this
    {
      var m := Publish(EdgeTopic(gatewayId, "raw"), RawMessage(gatewayId, location, timestamp, Flatten(devices)), 0);
      published == published0 + (if outcome.Returned? then [m] else [])
    }

    /** The publishing half of a connected tick: flatten, build the raw message and send it. */
    method PublishReadings(timestamp: string, outcome: SendOutcome)
      modifies this`published
      ensures PublishedReadings(old(published), timestamp, outcome)
    {
      var metrics := FlattenStates(devices);
      if outcome.Returned? {
        published := published + [Publish(EdgeTopic(gatewayId, "raw"), RawMessage(gatewayId, location, timestamp, metrics), 0)];
      }
    }

    /**
     * `on_mqtt_connect`: on `rc == 0` mark connected and publish one status
     * message at QoS 1 on `/status`; otherwise mark disconnected. The status
     * call is outside any `try`: when it raises, the flag is already set and
     * no status call is recorded.
     */
    method OnConnect(rc: int, statusOutcome: SendOutcome, timestamp: string)
      requires Valid()
      modifies this`connected, this`published
      ensures Valid()
      ensures connected <==> rc == 0
      ensures rc == 0 ==>
        published == old(published) + (if statusOutcome.Returned?
                                        then [Publish(EdgeTopic(gatewayId, "status"),
                                                      StatusMessage(gatewayId, location, samplingRateMs, timestamp), 1)]
                                        else [])
      ensures rc != 0 ==> published == old(published)
    {
      if rc == 0 {
        connected := true;
        if statusOutcome.Returned? {
          published := published + [Publish(EdgeTopic(gatewayId, "status"),
                                            StatusMessage(gatewayId, location, samplingRateMs, timestamp), 1)];
        }
      } else {
        connected := false;
      }
    }

    /**
     * The callbacks `init_mqtt` registers: only `on_connect`. A lost
     * connection reaches no handler, so `is_connected` stays as it was.
     */
    method Deliver(e: Event, statusOutcome: SendOutcome, timestamp: string)
      requires Valid()
      modifies this`connected, this`published
      ensures Valid()
      ensures e.ConnAck? ==> (connected <==> e.rc == 0)
      ensures e.ConnAck? && e.rc == 0 ==>
        published == old(published) + (if statusOutcome.Returned?
                                        then [Publish(EdgeTopic(gatewayId, "status"),
                                                      StatusMessage(gatewayId, location, samplingRateMs, timestamp), 1)]
                                        else [])
      ensures e.ConnAck? && e.rc != 0 ==> published == old(published)
      ensures e.ConnectionLost? ==> connected == old(connected) && published == old(published)
    {
      match e
      case ConnAck(rc) => OnConnect(rc, statusOutcome, timestamp);
      case ConnectionLost(_) =>
    }
  }
}
