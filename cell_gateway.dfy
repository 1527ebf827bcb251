/**
 * The cell-site edge gateway: a bounded offline buffer, the connection flag
 * set by the MQTT callbacks, the five-second publish tick, the drain of the
 * buffer on reconnect, the flattening of the device readings into metric
 * names, and the genset control action.
 */
module CellGateway {
  import opened Wrappers
  import opened Seqs
  import opened Json
  import opened Builtins
  import opened Mqtt

  const GatewayType := "CELL"

  /** `{'topic': topic, 'payload': payload}` as kept in `offline_buffer`. */
  datatype BufferedMessage = BufferedMessage(topic: string, payload: Value)

  // ---------------------------------------------------------------------------
  // The offline buffer: `deque(maxlen=capacity)`

  /** The newest `n` elements of `s`. */
  function Newest<T>(s: seq<T>, n: nat): seq<T> {
    if |s| <= n then s else s[|s| - n..]
  }

  /**
   * `offline_buffer.append(m)` on a deque with `maxlen == capacity`: when the
   * deque is full the oldest entry is dropped; with capacity 0 nothing is kept.
   */
  function BoundedAppend(buf: seq<BufferedMessage>, capacity: nat, m: BufferedMessage): (r: seq<BufferedMessage>)
    requires |buf| <= capacity
    ensures |r| <= capacity
    ensures |buf| < capacity ==> r == buf + [m]
    ensures 0 < |buf| == capacity ==> r == buf[1..] + [m]
    ensures capacity == 0 ==> r == []
  {
    Newest(buf + [m], capacity)
  }

  /** A run of appends, oldest first. */
  function AppendEach(buf: seq<BufferedMessage>, capacity: nat, ms: seq<BufferedMessage>): (r: seq<BufferedMessage>)
    requires |buf| <= capacity
    ensures |r| <= capacity
    decreases |ms|
  {
    if ms == [] then buf else AppendEach(BoundedAppend(buf, capacity, ms[0]), capacity, ms[1..])
  }

  lemma NewestTwice<T>(x: seq<T>, y: seq<T>, n: nat)
    ensures Newest(Newest(x, n) + y, n) == Newest(x + y, n)
  {
    if |x| > n {
      assert Newest(x, n) + y == (x + y)[|x| - n..];
    }
  }

  /**
   * However many messages are appended, the buffer holds exactly the newest
   * `capacity` of everything appended, oldest first.
   */
  lemma {:induction false} AppendEachKeepsNewest(buf: seq<BufferedMessage>, capacity: nat, ms: seq<BufferedMessage>)
    requires |buf| <= capacity
    ensures AppendEach(buf, capacity, ms) == Newest(buf + ms, capacity)
    decreases |ms|
  {
    if ms == [] {
      assert buf + ms == buf;
    } else {
      var b' := BoundedAppend(buf, capacity, ms[0]);
      AppendEachKeepsNewest(b', capacity, ms[1..]);
      NewestTwice(buf + [ms[0]], ms[1..], capacity);
      assert buf + [ms[0]] + ms[1..] == buf + ms;
    }
  }

  // ---------------------------------------------------------------------------
  // Draining the buffer: `send_buffered_messages`

  /** Each buffered entry republished with its own topic and payload at QoS 1. */
  function Republish(buf: seq<BufferedMessage>): (r: seq<Publish>)
    ensures |r| == |buf|
  {
    seq(|buf|, i requires 0 <= i < |buf| => Publish(buf[i].topic, buf[i].payload, 1))
  }

  /**
   * The publish calls that return while draining `buf`, where the `k`-th call
   * of the drain behaves as `outcome(k)`. The result code is never checked; a
   * call that raises loses the entry it had already popped, and draining goes on.
   */
  function Resent(buf: seq<BufferedMessage>, outcome: nat -> SendOutcome, k: nat): seq<Publish>
    decreases |buf|
  {
    if buf == [] then []
    else
      var rest := Resent(buf[1..], outcome, k + 1);
      if outcome(k).Raised? then rest else [Publish(buf[0].topic, buf[0].payload, 1)] + rest
  }

  /** When no call raises, every entry is republished once, in FIFO order. */
  lemma {:induction false} ResentAllReturned(buf: seq<BufferedMessage>, outcome: nat -> SendOutcome, k: nat)
    requires forall i :: k <= i < k + |buf| ==> outcome(i).Returned?
    ensures Resent(buf, outcome, k) == Republish(buf)
    decreases |buf|
  {
    if buf != [] {
      ResentAllReturned(buf[1..], outcome, k + 1);
      assert Republish(buf) == [Publish(buf[0].topic, buf[0].payload, 1)] + Republish(buf[1..]);
    }
  }

  /** In every case the drain only drops entries: no reordering, no duplicates. */
  lemma {:induction false} ResentIsSubsequence(buf: seq<BufferedMessage>, outcome: nat -> SendOutcome, k: nat)
    ensures Subsequence(Resent(buf, outcome, k), Republish(buf))
    decreases |buf|
  {
    if buf != [] {
      ResentIsSubsequence(buf[1..], outcome, k + 1);
      var r := Republish(buf);
      assert r[1..] == Republish(buf[1..]);
      var rest := Resent(buf[1..], outcome, k + 1);
      if outcome(k).Raised? {
        SubsequenceDropHead(rest, r);
      } else {
        assert ([r[0]] + rest)[1..] == rest;
      }
    }
  }

  lemma SubsequenceDropHead<T>(a: seq<T>, b: seq<T>)
    requires b != [] && Subsequence(a, b[1..])
    ensures Subsequence(a, b)
  {
  }

  // ---------------------------------------------------------------------------
  // Device readings and their flattening

  /** `{device}_{key}` for every key of one device, in order. */
  function RowPairs(device: string, values: Entries): Entries {
    seq(|values|, j requires 0 <= j < |values| => (device + "_" + values[j].0, values[j].1))
  }

  /** Every (metric name, value) pair the flattening loop assigns, in loop order. */
  function CellPairs(devices: Entries): Entries
    requires AllDicts(devices)
  {
    if devices == [] then []
    else
      var n := |devices| - 1;
      assert devices[n] in devices;
      CellPairs(devices[..n]) + RowPairs(devices[n].0, devices[n].1.entries)
  }

  /** The `metrics` dict built by the loop in `generate_realistic_metrics`. */
  function Flatten(devices: Entries): Entries
    requires AllDicts(devices)
  {
    PutAll([], CellPairs(devices))
  }

  /** The nested loops of `generate_realistic_metrics` that compile `metrics`. */
  method FlattenDevices(devices: Entries) returns (metrics: Entries)
    requires AllDicts(devices)
    ensures metrics == Flatten(devices)
    ensures Keys(metrics) == Keys(CellPairs(devices))
  {
    metrics := [];
    var i := 0;
    while i < |devices|
      invariant 0 <= i <= |devices|
      invariant metrics == PutAll([], CellPairs(devices[..i]))
    {
      assert devices[i] in devices;
      var device := devices[i].0;
      var values := devices[i].1.entries;
      ghost var done := CellPairs(devices[..i]);
      var j := 0;
      RowStart(done, device, values);
      while j < |values|
        invariant 0 <= j <= |values|
        invariant metrics == PutAll([], done + RowPairs(device, values[..j]))
      {
        RowStep(done, device, values, j);
        metrics := Put(metrics, device + "_" + values[j].0, values[j].1);
        j := j + 1;
      }
      DeviceStep(devices, i);
      i := i + 1;
    }
    assert devices[..i] == devices;
    PutAllKeys([], CellPairs(devices));
  }

  lemma RowStart(done: Entries, device: string, values: Entries)
    ensures done + RowPairs(device, values[..0]) == done
  {
    assert RowPairs(device, values[..0]) == [];
  }

  lemma RowStep(done: Entries, device: string, values: Entries, j: nat)
    requires j < |values|
    ensures PutAll([], done + RowPairs(device, values[..j + 1]))
         == Put(PutAll([], done + RowPairs(device, values[..j])), device + "_" + values[j].0, values[j].1)
  {
    var p := (device + "_" + values[j].0, values[j].1);
    assert RowPairs(device, values[..j + 1]) == RowPairs(device, values[..j]) + [p];
    assert done + RowPairs(device, values[..j + 1]) == (done + RowPairs(device, values[..j])) + [p];
    PutAllSnoc([], done + RowPairs(device, values[..j]), p.0, p.1);
  }

  lemma DeviceStep(devices: Entries, i: nat)
    requires AllDicts(devices) && i < |devices|
    ensures devices[i].1.Dict?
    ensures CellPairs(devices[..i + 1]) == CellPairs(devices[..i]) + RowPairs(devices[i].0, devices[i].1.entries[..|devices[i].1.entries|])
  {
    assert devices[i] in devices;
    assert devices[..i + 1][..i] == devices[..i];
    assert devices[i].1.entries[..|devices[i].1.entries|] == devices[i].1.entries;
  }

  /** Every second-level key of every device yields `{device}_{key}` with its value unchanged. */
  lemma {:induction false} CellPairsCover(devices: Entries, i: nat, j: nat)
    requires AllDicts(devices) && i < |devices|
    requires devices[i] in devices && j < |devices[i].1.entries|
    ensures (devices[i].0 + "_" + devices[i].1.entries[j].0, devices[i].1.entries[j].1) in CellPairs(devices)
    decreases |devices|
  {
    var n := |devices| - 1;
    assert devices[n] in devices;
    var row := RowPairs(devices[n].0, devices[n].1.entries);
    if i == n {
      assert row[j] in row;
    } else {
      assert devices[..n][i] == devices[i];
      CellPairsCover(devices[..n], i, j);
    }
  }

  /** Nothing else is emitted: each pair comes from one device key. */
  lemma {:induction false} CellPairsOnly(devices: Entries, p: (string, Value))
    requires AllDicts(devices) && p in CellPairs(devices)
    ensures exists i, j :: 0 <= i < |devices| && devices[i].1.Dict? && 0 <= j < |devices[i].1.entries|
                           && p == (devices[i].0 + "_" + devices[i].1.entries[j].0, devices[i].1.entries[j].1)
    decreases |devices|
  {
    var n := |devices| - 1;
    assert devices[n] in devices;
    var row := RowPairs(devices[n].0, devices[n].1.entries);
    if p in CellPairs(devices[..n]) {
      CellPairsOnly(devices[..n], p);
      var i, j :| 0 <= i < n && devices[..n][i].1.Dict? && 0 <= j < |devices[..n][i].1.entries|
                  && p == (devices[..n][i].0 + "_" + devices[..n][i].1.entries[j].0, devices[..n][i].1.entries[j].1);
      assert devices[..n][i] == devices[i];
    } else {
      assert p in row;
      var j :| 0 <= j < |row| && row[j] == p;
      assert p == (devices[n].0 + "_" + devices[n].1.entries[j].0, devices[n].1.entries[j].1);
    }
  }

  /**
   * When no two device keys flatten to the same name (the case for the gateway's
   * own readings), each key gives exactly one metric, `{device}_{key}`, whose value
   * is the reading itself, strings included.
   */
  lemma FlattenLookup(devices: Entries, i: nat, j: nat)
    requires AllDicts(devices) && i < |devices| && devices[i] in devices
    requires j < |devices[i].1.entries|
    requires DistinctKeys(CellPairs(devices))
    ensures Lookup(Flatten(devices), devices[i].0 + "_" + devices[i].1.entries[j].0) == Some(devices[i].1.entries[j].1)
    ensures Flatten(devices) == CellPairs(devices)
  {
    assert [] + CellPairs(devices) == CellPairs(devices);
    PutAllDistinct([], CellPairs(devices));
    CellPairsCover(devices, i, j);
    LookupMember(CellPairs(devices), (devices[i].0 + "_" + devices[i].1.entries[j].0, devices[i].1.entries[j].1));
  }

  // ---------------------------------------------------------------------------
  // The readings themselves

  /** `device_states` at start-up, one device per function. */
  function InitialDevices(): Entries {
    [ ("energy_meter", Dict(InitialEnergyMeter())),
      ("battery_bms", Dict(InitialBattery())),
      ("solar_mppt", Dict(InitialSolar())),
      ("genset_control", Dict(InitialGenset())),
      ("telco_equipment", Dict(InitialTelco())),
      ("end_user_meter", Dict(InitialEndUserMeter())) ]
  }

  function InitialEnergyMeter(): Entries {
    [ ("voltage_l1", Float(220.0)), ("voltage_l2", Float(220.0)), ("voltage_l3", Float(220.0)),
      ("current_l1", Float(15.0)), ("current_l2", Float(14.5)), ("current_l3", Float(15.2)),
      ("power_total_kw", Float(9.8)), ("energy_total_kwh", Float(1250.5)),
      ("power_factor", Float(0.95)), ("frequency", Float(50.0)) ]
  }

  function InitialBattery(): Entries {
    [ ("voltage", Float(48.2)), ("current", Float(-12.5)), ("soc_percent", Float(75.3)),
      ("soh_percent", Float(98.5)), ("temperature", Float(28.5)),
      ("charging_status", Str("discharging")), ("cycles", Int(450)), ("capacity_ah", Float(200.0)) ]
  }

  function InitialSolar(): Entries {
    [ ("pv_voltage", Float(85.5)), ("pv_current", Float(8.2)), ("pv_power_kw", Float(0.7)),
      ("battery_voltage", Float(48.2)), ("battery_current", Float(12.0)),
      ("daily_energy_kwh", Float(5.8)), ("total_energy_kwh", Float(3250.0)),
      ("mppt_efficiency", Float(98.2)) ]
  }

  function InitialGenset(): Entries {
    [ ("status", Str("standby")), ("voltage", Float(0.0)), ("current", Float(0.0)),
      ("power_kw", Float(0.0)), ("frequency", Float(0.0)), ("fuel_level_percent", Float(85.0)),
      ("runtime_hours", Int(1250)), ("temperature", Float(35.0)) ]
  }

  function InitialTelco(): Entries {
    [ ("2g_status", Str("active")), ("3g_status", Str("active")), ("4g_status", Str("active")),
      ("5g_status", Str("active")), ("signal_strength_dbm", Float(-65.0)),
      ("connected_users", Int(145)), ("data_throughput_mbps", Float(125.5)),
      ("equipment_temp", Float(42.0)) ]
  }

  function InitialEndUserMeter(): Entries {
    [ ("active_users", Int(12)), ("total_consumption_kwh", Float(45.2)), ("avg_power_kw", Float(3.5)),
      ("peak_power_kw", Float(5.8)), ("power_quality", Str("good")) ]
  }

  /**
   * The shape `generate_realistic_metrics` and `control_genset` rely on: every
   * device is a dict, the devices they write exist, and the battery's state of
   * charge is a number within the clamp bounds [20, 100].
   */
  predicate DevicesOk(s: Entries) {
    && AllDicts(s)
    && CellDevices <= Keys(s)
    && Get2(s, "battery_bms", "soc_percent").Some?
    && IsNum(Get2(s, "battery_bms", "soc_percent").value)
    && 20.0 <= Num(Get2(s, "battery_bms", "soc_percent").value) <= 100.0
  }

  /** The devices the generator and the genset control write. */
  const CellDevices := {"energy_meter", "battery_bms", "solar_mppt", "genset_control", "telco_equipment", "end_user_meter"}

  /** The same fact, usable where the literal itself is better left folded. */
  lemma InitialStateOk()
    ensures forall d :: d == InitialDevices() ==> DevicesOk(d)
  {
    InitialDevicesOk();
  }

  lemma InitialDevicesOk()
    ensures DevicesOk(InitialDevices())
  {
    InitialAllDicts();
    InitialDevicesPresent();
    InitialStateOfCharge();
  }

  lemma InitialAllDicts()
    ensures AllDicts(InitialDevices())
  {
  }

  lemma InitialDevicesPresent()
    ensures IsDictAt(InitialDevices(), "energy_meter") && IsDictAt(InitialDevices(), "battery_bms")
    ensures IsDictAt(InitialDevices(), "solar_mppt") && IsDictAt(InitialDevices(), "genset_control")
    ensures IsDictAt(InitialDevices(), "telco_equipment") && IsDictAt(InitialDevices(), "end_user_meter")
  {
  }

  lemma InitialStateOfCharge()
    ensures Get2(InitialDevices(), "battery_bms", "soc_percent") == Some(Float(75.3))
  {
    InitialBatteryEntry();
    InitialBatteryCharge();
  }

  lemma InitialBatteryEntry()
    ensures Lookup(InitialDevices(), "battery_bms") == Some(Dict(InitialBattery()))
  {
    var d := InitialDevices();
    assert d[0].0 != "battery_bms" && d[1].0 == "battery_bms";
  }

  lemma InitialBatteryCharge()
    ensures Lookup(InitialBattery(), "soc_percent") == Some(Float(75.3))
  {
    var b := InitialBattery();
    assert b[0].0 != "soc_percent" && b[1].0 != "soc_percent" && b[2].0 == "soc_percent";
  }

  /** Writing below a device other than the battery keeps the shape and the charge. */
  lemma UpdateKeepsOk(s: Entries, a: string, updates: Entries)
    requires DevicesOk(s) && a != "battery_bms"
    ensures DevicesOk(Update(s, a, updates))
    ensures Get2(Update(s, a, updates), "battery_bms", "soc_percent") == Get2(s, "battery_bms", "soc_percent")
    ensures a != "genset_control" ==> Get2(Update(s, a, updates), "genset_control", "status") == Get2(s, "genset_control", "status")
  {
    var r := Update(s, a, updates);
    assert Lookup(r, "battery_bms") == Lookup(s, "battery_bms");
    if a != "genset_control" {
      assert Lookup(r, "genset_control") == Lookup(s, "genset_control");
    }
  }

  /** The random draws of one call of `generate_realistic_metrics` (values of `random.uniform`). */
  datatype CellDraws = CellDraws(
    solarFactor: real, pvVoltage: real, pvCurrent: real,
    loadVariation: real, voltageL1: real,
    socDelta: real, batteryTemp: real,
    users: real, throughput: real, signal: real, equipmentTemp: real,
    activeUsers: real, avgPower: real)

  /** The solar factor: the drawn factor between 06:00 and 18:59, zero at night. */
  function SolarFactor(hour: int, draw: real): real {
    if 6 <= hour <= 18 then draw else 0.0
  }

  /**
   * The in-place updates of `generate_realistic_metrics`, device by device in
   * source order. The state of charge is read before any battery field is
   * written, so every read sees the value from before the call. Float rounding
   * is not modelled (values are exact reals; `round(·, 2)` is omitted).
   */
  function Generate(s: Entries, hour: int, d: CellDraws): (r: Entries)
    requires DevicesOk(s)
    ensures DevicesOk(r)
    ensures Get2(r, "battery_bms", "soc_percent")
         == Some(Clamp(20, 100, Num(Get2(s, "battery_bms", "soc_percent").value) + d.socDelta))
    ensures Get2(r, "genset_control", "status") == Get2(s, "genset_control", "status")
  {
    var pvV := 85.5 + d.pvVoltage;
    var pvI := 8.2 * SolarFactor(hour, d.solarFactor) + d.pvCurrent;
    var load := 9.8 + d.loadVariation;
    var soc := Clamp(20, 100, Num(Get2(s, "battery_bms", "soc_percent").value) + d.socDelta);
    var solar := [("pv_voltage", Float(pvV)), ("pv_current", Float(pvI)), ("pv_power_kw", Float(pvV * pvI / 1000.0))];
    var meter := [("power_total_kw", Float(load)), ("current_l1", Float(load / 0.66)), ("voltage_l1", Float(220.0 + d.voltageL1))];
    var battery := [("soc_percent", soc), ("voltage", Float(42.0 + Num(soc) / 100.0 * 10.0)),
                    ("temperature", Float(28.5 + d.batteryTemp))];
    var telco := [("connected_users", Int(Trunc(145.0 + d.users))), ("data_throughput_mbps", Float(125.5 + d.throughput)),
                  ("signal_strength_dbm", Float(-65.0 + d.signal)), ("equipment_temp", Float(42.0 + d.equipmentTemp))];
    var users := [("active_users", Int(Trunc(12.0 + d.activeUsers))), ("avg_power_kw", Float(3.5 + d.avgPower))];
    var rows := [("solar_mppt", solar), ("energy_meter", meter), ("battery_bms", battery),
                 ("telco_equipment", telco), ("end_user_meter", users)];
    GenerateSteps(s, solar, meter, battery, telco, users, soc);
    UpdateAll(s, rows)
  }

  /** The five device updates of `Generate` keep the shape and store the clamped charge. */
  lemma GenerateSteps(s: Entries, solar: Entries, meter: Entries, battery: Entries, telco: Entries, users: Entries, soc: Value)
    requires DevicesOk(s) && IsNum(soc) && 20.0 <= Num(soc) <= 100.0
    requires |battery| == 3 && battery[0] == ("soc_percent", soc) && battery[1].0 == "voltage" && battery[2].0 == "temperature"
    ensures var r := UpdateAll(s, [("solar_mppt", solar), ("energy_meter", meter), ("battery_bms", battery),
                                   ("telco_equipment", telco), ("end_user_meter", users)]);
      && DevicesOk(r)
      && Get2(r, "battery_bms", "soc_percent") == Some(soc)
      && Get2(r, "genset_control", "status") == Get2(s, "genset_control", "status")
  {
    var rows := [("solar_mppt", solar), ("energy_meter", meter), ("battery_bms", battery),
                 ("telco_equipment", telco), ("end_user_meter", users)];
    UpdateAllFive(s, rows);
    var s1 := Update(s, "solar_mppt", solar);
    UpdateKeepsOk(s, "solar_mppt", solar);
    var s2 := Update(s1, "energy_meter", meter);
    UpdateKeepsOk(s1, "energy_meter", meter);
    var s3 := Update(s2, "battery_bms", battery);
    BatteryUpdateOk(s2, battery, soc);
    var s4 := Update(s3, "telco_equipment", telco);
    UpdateKeepsOk(s3, "telco_equipment", telco);
    UpdateKeepsOk(s4, "end_user_meter", users);
  }

  /** Five rows applied by `UpdateAll` are five nested updates. */
  lemma UpdateAllFive(s: Entries, rows: seq<(string, Entries)>)
    requires |rows| == 5
    ensures UpdateAll(s, rows)
         == Update(Update(Update(Update(Update(s, rows[0].0, rows[0].1), rows[1].0, rows[1].1),
                                 rows[2].0, rows[2].1), rows[3].0, rows[3].1), rows[4].0, rows[4].1)
  {
    var s1 := Update(s, rows[0].0, rows[0].1);
    var s2 := Update(s1, rows[1].0, rows[1].1);
    var s3 := Update(s2, rows[2].0, rows[2].1);
    var s4 := Update(s3, rows[3].0, rows[3].1);
    assert UpdateAll(s4, rows[4..]) == Update(s4, rows[4].0, rows[4].1) by {
      assert rows[4..][1..] == [];
    }
    assert UpdateAll(s3, rows[3..]) == UpdateAll(s4, rows[4..]) by { assert rows[3..][1..] == rows[4..]; }
    assert UpdateAll(s2, rows[2..]) == UpdateAll(s3, rows[3..]) by { assert rows[2..][1..] == rows[3..]; }
    assert UpdateAll(s1, rows[1..]) == UpdateAll(s2, rows[2..]) by { assert rows[1..][1..] == rows[2..]; }
  }

  /** Writing the battery fields keeps the shape and stores the clamped charge. */
  lemma BatteryUpdateOk(s: Entries, battery: Entries, soc: Value)
    requires DevicesOk(s) && IsNum(soc) && 20.0 <= Num(soc) <= 100.0
    requires |battery| == 3 && battery[0] == ("soc_percent", soc)
    requires battery[1].0 == "voltage" && battery[2].0 == "temperature"
    ensures DevicesOk(Update(s, "battery_bms", battery))
    ensures Get2(Update(s, "battery_bms", battery), "battery_bms", "soc_percent") == Some(soc)
    ensures Get2(Update(s, "battery_bms", battery), "genset_control", "status") == Get2(s, "genset_control", "status")
  {
    BatteryKeys(battery, soc);
    var r := Update(s, "battery_bms", battery);
    assert Get2(r, "battery_bms", "soc_percent") == Some(soc);
    assert Lookup(r, "genset_control") == Lookup(s, "genset_control");
  }

  lemma BatteryKeys(battery: Entries, soc: Value)
    requires |battery| == 3 && battery[0] == ("soc_percent", soc)
    requires battery[1].0 == "voltage" && battery[2].0 == "temperature"
    ensures DistinctKeys(battery) && "soc_percent" in Keys(battery) && Lookup(battery, "soc_percent") == Some(soc)
  {
    var t2 := battery[1..][1..];
    assert t2[1..] == [];
    assert Keys(t2) == {"temperature"} && DistinctKeys(t2);
    assert Keys(battery[1..]) == {"voltage", "temperature"} && DistinctKeys(battery[1..]);
  }

  // ---------------------------------------------------------------------------
  // Genset control: `POST /api/control/genset/<action>`

  /** The HTTP answer: 200 with the action, or 400 "Invalid action". */
  datatype GensetReply = Accepted(action: string) | InvalidAction

  /**
   * `control_genset`: only `start` (status `running`) and `stop` (status
   * `standby`) are accepted; any other action changes nothing.
   */
  function GensetControl(s: Entries, action: string): (r: (Entries, GensetReply))
    requires DevicesOk(s)
    ensures r.1.Accepted? <==> action == "start" || action == "stop"
    ensures r.1.Accepted? ==> r.1.action == action
    ensures action == "start" ==> Get2(r.0, "genset_control", "status") == Some(Str("running"))
    ensures action == "stop" ==> Get2(r.0, "genset_control", "status") == Some(Str("standby"))
    ensures r.1 == InvalidAction ==> r.0 == s
    ensures forall a, b :: a != "genset_control" || b != "status" ==> Get2(r.0, a, b) == Get2(s, a, b)
    ensures DevicesOk(r.0)
  {
    if action == "start" || action == "stop" then
      (Set2(s, "genset_control", "status", Str(if action == "start" then "running" else "standby")), Accepted(action))
    else
      (s, InvalidAction)
  }

  // ---------------------------------------------------------------------------
  // Messages

  /** The payload of one publish tick. */
  function RawMessage(gatewayId: string, location: Value, timestamp: string, metrics: Entries): Value {
    Dict([("gateway_id", Str(gatewayId)), ("gateway_type", Str(GatewayType)), ("location", location),
          ("timestamp", Str(timestamp)), ("metrics", Dict(metrics))])
  }

  /** The status announced after a successful connect. */
  function StatusMessage(gatewayId: string, location: Value, timestamp: string): Value {
    Dict([("gateway_id", Str(gatewayId)), ("gateway_type", Str(GatewayType)), ("status", Str("online")),
          ("location", location), ("timestamp", Str(timestamp))])
  }


  /**
   * The publish calls and the buffer after one publication of `m` at QoS 1:
   * buffered without a publish attempt while disconnected; lost when the call
   * raised; published when it returned, and also buffered when its return code
   * is non-zero.
   */
  function AfterPublish(published0: seq<Publish>, buffer0: seq<BufferedMessage>, capacity: nat, connected: bool,
                        m: BufferedMessage, outcome: SendOutcome): (r: (seq<Publish>, seq<BufferedMessage>))
    requires |buffer0| <= capacity
    ensures |r.1| <= capacity
    ensures r.0 == published0 || r.0 == published0 + [Publish(m.topic, m.payload, 1)]
    ensures r.0 != published0 <==> connected && outcome.Returned?
    ensures !connected || (outcome.Returned? && outcome.rc != 0) ==> r.1 == BoundedAppend(buffer0, capacity, m)
    ensures connected && (outcome.Raised? || outcome.rc == 0) ==> r.1 == buffer0
  {
    if !connected then (published0, BoundedAppend(buffer0, capacity, m))
    else if outcome.Raised? then (published0, buffer0)
    else (published0 + [Publish(m.topic, m.payload, 1)], if outcome.rc != 0 then BoundedAppend(buffer0, capacity, m) else buffer0)
  }

  // ---------------------------------------------------------------------------
  // The gateway process state: `is_connected`, `offline_buffer`, `device_states`

  class Gateway {
    const gatewayId: string
    const capacity: nat            // BUFFER_SIZE
    const location: Value
    var connected: bool            // is_connected
    var buffer: seq<BufferedMessage>   // offline_buffer, oldest first
    var published: seq<Publish>    // the publish calls that returned, in order
    var devices: Entries           // device_states

    predicate Valid()
      reads this`buffer, this`devices
    {
      |buffer| <= capacity && DevicesOk(devices)
    }

    constructor (gatewayId: string, capacity: nat, lat: real, lon: real)
      ensures this.gatewayId == gatewayId && this.capacity == capacity && location == Location(lat, lon)
      ensures !connected && buffer == [] && published == [] && devices == InitialDevices()
      ensures Valid()
    {
      this.gatewayId := gatewayId;
      this.capacity := capacity;
      location := Location(lat, lon);
      connected := false;
      buffer := [];
      published := [];
      devices := InitialDevices();
      InitialStateOk();
    }

    /** `offline_buffer.append({'topic': topic, 'payload': payload})`. */
    method Enqueue(m: BufferedMessage)
      requires Valid()
      modifies this`buffer
      ensures Valid()
      ensures buffer == BoundedAppend(old(buffer), capacity, m)
    {
      buffer := BoundedAppend(buffer, capacity, m);
    }

    /**
     * One iteration of `publish_metrics`: refresh and flatten the readings, then
     * publish at QoS 1 while connected (buffering only when `rc != 0`), or buffer
     * without any publish attempt while disconnected. A publish that raises is
     * caught by the loop and the message is lost.
     */
    method Tick(hour: int, draws: CellDraws, timestamp: string, outcome: SendOutcome)
      requires Valid()
      modifies this`devices, this`buffer, this`published
      ensures devices == Generate(old(devices), hour, draws)
      ensures Valid()
      ensures (published, buffer)
           == AfterPublish(old(published), old(buffer), capacity, connected, ReadingsMessage(timestamp), outcome)
    {
      Refresh(hour, draws);
      PublishReadings(timestamp, outcome);
    }

    /** `generate_realistic_metrics`: the device readings are refreshed in place. */
    method Refresh(hour: int, draws: CellDraws)
      requires Valid()
      modifies this`devices
      ensures Valid()
      ensures devices == Generate(old(devices), hour, draws)
    {
      devices := Generate(devices, hour, draws);
    }

    /** The raw message carrying the current readings, flattened. */
    function ReadingsMessage(timestamp: string): BufferedMessage
      requires AllDicts(devices)
      reads this`devices
    {
      BufferedMessage(EdgeTopic(gatewayId, "raw"), RawMessage(gatewayId, location, timestamp, Flatten(devices)))
    }

    /** The publishing half of `publish_metrics`: flatten, build the raw message and send or buffer it. */
    method PublishReadings(timestamp: string, outcome: SendOutcome)
      requires Valid()
      modifies this`buffer, this`published
      ensures Valid()
      ensures (published, buffer)
           == AfterPublish(old(published), old(buffer), capacity, connected, ReadingsMessage(timestamp), outcome)
    {
      var metrics := FlattenDevices(devices);
      var m := BufferedMessage(EdgeTopic(gatewayId, "raw"), RawMessage(gatewayId, location, timestamp, metrics));
      if !connected {
        Enqueue(m);
      } else if outcome.Returned? {
        published := published + [Publish(m.topic, m.payload, 1)];
        if outcome.rc != 0 {
          Enqueue(m);
        }
      }
    }

    /**
     * `send_buffered_messages`: pop from the left and republish each entry with
     * its own topic and payload at QoS 1 until the buffer is empty; the `k`-th
     * call behaves as `outcome(k)`.
     */
    method SendBuffered(outcome: nat -> SendOutcome)
      requires Valid()
      modifies this`buffer, this`published
      ensures Valid()
      ensures buffer == []
      ensures published == old(published) + Resent(old(buffer), outcome, 0)
    {
      var popped: nat := 0;
      while buffer != []
        invariant popped <= |old(buffer)| && buffer == old(buffer)[popped..]
        invariant old(published) + Resent(old(buffer), outcome, 0) == published + Resent(buffer, outcome, popped)
        decreases |buffer|
      {
        var msg := buffer[0];
        assert buffer[1..] == old(buffer)[popped + 1..];
        buffer := buffer[1..];
        if outcome(popped).Returned? {
          published := published + [Publish(msg.topic, msg.payload, 1)];
        }
        popped := popped + 1;
      }
    }

    /**
     * `on_mqtt_connect`: on `rc == 0` mark connected, drain the buffer, then
     * publish one status message at QoS 1; otherwise mark disconnected and
     * leave the buffer alone. The status call is outside any `try`: when it
     * raises, the exception leaves the callback after the flag and the drain
     * have taken effect, and no status call is recorded.
     */
    method OnConnect(rc: int, outcome: nat -> SendOutcome, statusOutcome: SendOutcome, timestamp: string)
      requires Valid()
      modifies this
      ensures Valid()
      ensures devices == old(devices)
      ensures rc == 0 ==>
        && connected && buffer == []
        && published == old(published) + Resent(old(buffer), outcome, 0)
                         + (if statusOutcome.Returned?
                            then [Publish(EdgeTopic(gatewayId, "status"), StatusMessage(gatewayId, location, timestamp), 1)]
                            else [])
      ensures rc != 0 ==> !connected && buffer == old(buffer) && published == old(published)
    {
      if rc == 0 {
        connected := true;
        SendBuffered(outcome);
        if statusOutcome.Returned? {
          published := published + [Publish(EdgeTopic(gatewayId, "status"), StatusMessage(gatewayId, location, timestamp), 1)];
        }
      } else {
        connected := false;
      }
    }

    /** `on_mqtt_disconnect`: mark disconnected; the buffer is kept. */
    method OnDisconnect()
      requires Valid()
      modifies this`connected
      ensures Valid()
      ensures !connected
    {
      connected := false;
    }

    /** The callbacks `init_mqtt` registers: `on_connect` and `on_disconnect`. */
    method Deliver(e: Event, outcome: nat -> SendOutcome, statusOutcome: SendOutcome, timestamp: string)
      requires Valid()
      modifies this
      ensures Valid()
      ensures devices == old(devices)
      ensures connected == (e.ConnAck? && e.rc == 0)
      ensures e.ConnAck? && e.rc == 0 ==>
        && buffer == []
        && published == old(published) + Resent(old(buffer), outcome, 0)
                         + (if statusOutcome.Returned?
                            then [Publish(EdgeTopic(gatewayId, "status"), StatusMessage(gatewayId, location, timestamp), 1)]
                            else [])
      ensures e.ConnAck? && e.rc != 0 ==> buffer == old(buffer) && published == old(published)
      ensures e.ConnectionLost? ==> buffer == old(buffer) && published == old(published)
    {
      match e
      case ConnAck(rc) => OnConnect(rc, outcome, statusOutcome, timestamp);
      case ConnectionLost(_) => OnDisconnect();
    }

    /** `control_genset(action)`. */
    method ControlGenset(action: string) returns (reply: GensetReply)
      requires Valid()
      modifies this`devices
      ensures Valid()
      ensures (devices, reply) == GensetControl(old(devices), action)
    {
      var r := GensetControl(devices, action);
      devices := r.0;
      reply := r.1;
    }
  }

  /**
   * The example of a three-entry buffer: appending A, B, C, D keeps B, C, D,
   * and a drain whose calls all return republishes B, C, D in that order.
   */
  lemma EvictionExample(a: BufferedMessage, b: BufferedMessage, c: BufferedMessage, d: BufferedMessage,
                        outcome: nat -> SendOutcome)
    requires forall i :: outcome(i).Returned?
    ensures AppendEach([], 3, [a, b, c, d]) == [b, c, d]
    ensures Resent(AppendEach([], 3, [a, b, c, d]), outcome, 0)
         == [Publish(b.topic, b.payload, 1), Publish(c.topic, c.payload, 1), Publish(d.topic, d.payload, 1)]
  {
    AppendEachKeepsNewest([], 3, [a, b, c, d]);
    assert [] + [a, b, c, d] == [a, b, c, d];
    ResentAllReturned([b, c, d], outcome, 0);
  }
}
