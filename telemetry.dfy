/**
 * The dashboard's per-arm telemetry state (`robot_state` in camera_web/app.py):
 * each arm has a `connected` flag, an optional bus and the last published
 * snapshot. Bus calls are abstract: connecting yields success or failure, and
 * each of the five `sync_read` calls yields a register column or a failure.
 * Each operation is atomic here (the lock that serialises them is left out).
 */
module Telemetry {
  import opened Wrappers
  import opened Robot

  /** One motor's entry in a snapshot; voltage in tenths of a volt. */
  datatype MotorReading = MotorReading(voltage: int, temp: int, load: int, current: int, position: int)

  /** The `data` dict of an arm after a successful read. */
  datatype Snapshot = Snapshot(motors: map<Motor, MotorReading>, minVoltage: int, maxTemp: int, timestamp: int)

  /** A bus object, created for the serial port it talks to. */
  datatype BusHandle = BusHandle(port: string)

  /** `{"connected": ..., "bus": ..., "data": ...}`; `data == None` is the initial `{}`. */
  datatype ArmState = ArmState(connected: bool, bus: Option<BusHandle>, data: Option<Snapshot>)

  /** What the five `sync_read` calls of one tick return: a column each, or None if the call raised. */
  datatype BusReads = BusReads(
    voltage: Option<map<Motor, int>>,
    temp: Option<map<Motor, int>>,
    load: Option<map<Motor, int>>,
    current: Option<map<Motor, int>>,
    position: Option<map<Motor, int>>)

  /** Per arm, what `robot_data` returns: everything but the bus. */
  datatype ArmView = ArmView(connected: bool, data: Option<Snapshot>)

  /** The invariant every arm keeps: a connected arm has a bus. */
  predicate ArmOk(st: ArmState)
  {
    st.connected ==> st.bus.Some?
  }

  const InitialArm: ArmState := ArmState(false, None, None)

  /** All five reads returned, and every column has a value for each motor (else `x[name]` raises). */
  predicate ReadsComplete(r: BusReads)
  {
    && r.voltage.Some? && r.temp.Some? && r.load.Some? && r.current.Some? && r.position.Some?
    && Total(r.voltage.value) && Total(r.temp.value) && Total(r.load.value)
    && Total(r.current.value) && Total(r.position.value)
  }

  /** s is the snapshot built from the complete reads r at time now. */
  ghost predicate SnapshotOf(s: Snapshot, r: BusReads, now: int)
    requires ReadsComplete(r)
  {
    && Total(s.motors)
    && (forall n :: n in s.motors ==>
          s.motors[n] == MotorReading(r.voltage.value[n], r.temp.value[n], r.load.value[n],
                                      r.current.value[n], r.position.value[n]))
    && Summarised(s)
    && s.timestamp == now
  }

  /** min_voltage is the least motor voltage of the snapshot and max_temp the greatest motor temperature. */
  ghost predicate Summarised(s: Snapshot)
  {
    && (forall n :: n in s.motors ==> s.minVoltage <= s.motors[n].voltage)
    && (exists n :: n in s.motors && s.minVoltage == s.motors[n].voltage)
    && (forall n :: n in s.motors ==> s.maxTemp >= s.motors[n].temp)
    && (exists n :: n in s.motors && s.maxTemp == s.motors[n].temp)
  }

  /**
   * Lines 97-119 of one tick: read the five columns and build the new snapshot,
   * or None when a read raised or a column lacks a motor.
   */
  method BuildSnapshot(r: BusReads, now: int) returns (s: Option<Snapshot>)
    ensures s.Some? <==> ReadsComplete(r)
    ensures s.Some? ==> SnapshotOf(s.value, r, now)
  {
    if !ReadsComplete(r) {
      return None;
    }
    var motors: map<Motor, MotorReading> := map[];
    for i := 0 to |MOTORS|
      invariant forall n :: n in motors ==> n.Id() <= i
      invariant forall k :: 0 <= k < i ==> MOTORS[k] in motors
      invariant forall n :: n in motors ==>
        motors[n] == MotorReading(r.voltage.value[n], r.temp.value[n], r.load.value[n],
                                  r.current.value[n], r.position.value[n])
    {
      var name := MOTORS[i];
      motors := motors[name := MotorReading(r.voltage.value[name], r.temp.value[name], r.load.value[name],
                                            r.current.value[name], r.position.value[name])];
    }
    var minV := SeqMin(Column(r.voltage.value));
    var maxT := SeqMax(Column(r.temp.value));
    var snap := Snapshot(motors, minV, maxT, now);
    forall n: Motor ensures n in motors {
      assert MOTORS[n.Id() - 1] == n;
    }
    ColumnMinIsLeast(r.voltage.value);
    ColumnMaxIsGreatest(r.temp.value);
    ghost var nv: Motor :| minV == r.voltage.value[nv];
    assert motors[nv].voltage == minV;
    ghost var nt: Motor :| maxT == r.temp.value[nt];
    assert motors[nt].temp == maxT;
    return Some(snap);
  }

  /** The new state of one arm after `connect_robots` visits it with the given port and connect outcome. */
  function ConnectArm(st: ArmState, port: Option<string>, ok: bool): (r: ArmState)
    ensures ArmOk(st) ==> ArmOk(r)
    ensures r.data == st.data
    ensures !Configured(port) ==> r == st
    ensures Configured(port) ==> (r.connected <==> ok)
    ensures Configured(port) && ok ==> r.bus == Some(BusHandle(port.value))
    ensures !ok ==> r.bus == st.bus
  {
    if !Configured(port) then st
    else if ok then st.(bus := Some(BusHandle(port.value)), connected := true)
    else st.(connected := false)
  }

  /** The new state of one arm after one tick of `read_robot_data`, given its read outcomes. */
  ghost predicate ReadArm(st: ArmState, r: BusReads, now: int, st': ArmState)
  {
    if !(st.connected && st.bus.Some?) then st' == st
    else if ReadsComplete(r) then
      st'.connected == st.connected && st'.bus == st.bus && st'.data.Some? && SnapshotOf(st'.data.value, r, now)
    else st' == st.(connected := false)
  }

  /** Lines 93-122 for one arm: a connected arm with a bus is read; a complete read replaces its data, a failed one disconnects it. */
  method PollArm(st: ArmState, r: BusReads, now: int) returns (st': ArmState)
    ensures ReadArm(st, r, now, st')
    ensures ArmOk(st) ==> ArmOk(st')
  {
    st' := st;
    if st.connected && st.bus.Some? {
      var snap := BuildSnapshot(r, now);
      if snap.Some? {
        st' := st.(data := snap);
      } else {
        st' := st.(connected := false);
      }
    }
  }

  /** The state of one arm after the teardown half of `reconnect`. */
  function TearDownArm(st: ArmState): (r: ArmState)
    ensures ArmOk(st) ==> ArmOk(r)
    ensures r.bus == None && r.data == st.data
    ensures r.connected ==> st.connected
    ensures st.bus.Some? ==> !r.connected
  {
    if st.bus.Some? then st.(bus := None, connected := false) else st
  }

  /** A failed tick leaves the last snapshot in place and only drops the connected flag. */
  lemma FailedReadKeepsData(st: ArmState, r: BusReads, now: int, st': ArmState)
    requires ArmOk(st) && ReadArm(st, r, now, st') && !ReadsComplete(r)
    ensures st'.data == st.data && st'.bus == st.bus
    ensures !st'.connected
  {
  }

  /** A tick never brings an arm back: only a connect can set `connected`. */
  lemma ReadNeverConnects(st: ArmState, r: BusReads, now: int, st': ArmState)
    requires ReadArm(st, r, now, st')
    ensures st'.connected ==> st.connected
    ensures ArmOk(st) ==> ArmOk(st')
  {
  }

  /** A summarised snapshot's min_voltage is `min` of the voltage column its motors were read from. */
  lemma SnapshotMinIsLeastReading(s: Snapshot, volts: map<Motor, int>)
    requires Total(volts) && Summarised(s)
    requires forall n :: n in s.motors ==> s.motors[n].voltage == volts[n]
    requires Total(s.motors)
    ensures s.minVoltage == SeqMin(Column(volts))
  {
    var col := Column(volts);
    var i :| 0 <= i < |col| && SeqMin(col) == col[i];
    var x := MOTORS[i];
    assert col[x.Id() - 1] == volts[x];
    assert s.minVoltage <= s.motors[x].voltage;
    var n :| n in s.motors && s.minVoltage == s.motors[n].voltage;
    assert col[n.Id() - 1] == volts[n];
  }

  /** For the voltages 7.2, 7.4, 7.0, 7.5, 7.3, 7.1 V the snapshot reports 7.0 V as its minimum. */
  lemma SnapshotMinExample(s: Snapshot, r: BusReads, now: int)
    requires ReadsComplete(r) && SnapshotOf(s, r, now)
    requires Column(r.voltage.value) == [72, 74, 70, 75, 73, 71]
    ensures s.minVoltage == 70
  {
    SnapshotMinIsLeastReading(s, r.voltage.value);
    ExampleColumnMin();
  }

  /** Python's `min` of the example voltages. */
  lemma ExampleColumnMin()
    ensures SeqMin([72, 74, 70, 75, 73, 71]) == 70
  {
    var col := [72, 74, 70, 75, 73, 71];
    assert SeqMin(col) <= col[2];
  }

  /** Everything that can happen to one arm: a polling tick, a startup connect, a reconnect. */
  datatype Event = Poll(tick: BusReads, now: int) | Connect(ok: bool) | Reconnect(ok: bool)

  ghost predicate Step(port: Option<string>, st: ArmState, e: Event, st': ArmState)
  {
    match e
    case Poll(r, now) => ReadArm(st, r, now, st')
    case Connect(ok) => st' == ConnectArm(st, port, ok)
    case Reconnect(ok) => st' == ConnectArm(TearDownArm(st), port, ok)
  }

  /** states[i + 1] follows from states[i] by events[i], starting from the initial record. */
  ghost predicate IsRun(port: Option<string>, states: seq<ArmState>, events: seq<Event>)
  {
    && |states| == |events| + 1
    && states[0] == InitialArm
    && forall i :: 0 <= i < |events| ==> Step(port, states[i], events[i], states[i + 1])
  }

  /** `connected ==> bus != None` holds in every state an arm can reach. */
  lemma {:induction false} RunKeepsArmOk(port: Option<string>, states: seq<ArmState>, events: seq<Event>)
    requires IsRun(port, states, events)
    ensures forall i :: 0 <= i < |states| ==> ArmOk(states[i])
  {
    if events != [] {
      var n := |events| - 1;
      RunKeepsArmOk(port, states[..n + 1], events[..n]);
      assert ArmOk(states[n]);
      match events[n]
      case Poll(r, now) => ReadNeverConnects(states[n], r, now, states[n + 1]);
      case Connect(ok) =>
      case Reconnect(ok) =>
    }
  }

  /** An arm without a configured port keeps its initial record forever: never connected, no bus, no data. */
  lemma {:induction false} UnconfiguredArmStaysIdle(port: Option<string>, states: seq<ArmState>, events: seq<Event>)
    requires IsRun(port, states, events) && !Configured(port)
    ensures forall i :: 0 <= i < |states| ==> states[i] == InitialArm
  {
    if events != [] {
      var n := |events| - 1;
      UnconfiguredArmStaysIdle(port, states[..n + 1], events[..n]);
      assert states[n] == InitialArm;
    }
  }

  /** ARMS lists every arm. */
  lemma ArmsListed(a: Arm)
    ensures a == ARMS[0] || a == ARMS[1]
  {
  }

  /** `robot_state`: one record per arm, updated in place. */
  class RobotState {
    var arms: map<Arm, ArmState>

    ghost predicate Valid()
      reads this
    {
      arms.Keys == {Leader, Follower} && forall a :: a in arms ==> ArmOk(arms[a])
    }

    constructor ()
      ensures Valid()
      ensures arms == map[Leader := InitialArm, Follower := InitialArm]
    {
      arms := map[Leader := InitialArm, Follower := InitialArm];
    }

    /** `connect_robots`: try each arm that has a port configured. */
    method ConnectRobots(ports: Ports, connects: Arm -> bool)
      requires Valid()
      modifies this
      ensures Valid()
      ensures forall a :: a in arms ==> arms[a] == ConnectArm(old(arms[a]), ports.PortOf(a), connects(a))
    {
      for i := 0 to |ARMS|
        invariant Valid()
        invariant forall k :: 0 <= k < i ==> arms[ARMS[k]] == ConnectArm(old(arms[ARMS[k]]), ports.PortOf(ARMS[k]), connects(ARMS[k]))
        invariant forall k :: i <= k < |ARMS| ==> arms[ARMS[k]] == old(arms[ARMS[k]])
      {
        var arm := ARMS[i];
        arms := arms[arm := ConnectArm(arms[arm], ports.PortOf(arm), connects(arm))];
      }
      forall a | a in arms { ArmsListed(a); }
    }

    /**
     * `read_robot_data`: one polling tick over both arms. Both arms' snapshots
     * get the same `now`; the code takes `time.time()` once per arm, so their
     * timestamps may differ slightly.
     */
    method ReadRobotData(tick: Arm -> BusReads, now: int)
      requires Valid()
      modifies this
      ensures Valid()
      ensures forall a :: a in arms ==> ReadArm(old(arms[a]), tick(a), now, arms[a])
    {
      for i := 0 to |ARMS|
        invariant Valid()
        invariant forall k :: 0 <= k < i ==> ReadArm(old(arms[ARMS[k]]), tick(ARMS[k]), now, arms[ARMS[k]])
        invariant forall k :: i <= k < |ARMS| ==> arms[ARMS[k]] == old(arms[ARMS[k]])
      {
        var arm := ARMS[i];
        var st' := PollArm(arms[arm], tick(arm), now);
        arms := arms[arm := st'];
      }
      forall a | a in arms { ArmsListed(a); }
    }

    /** `reconnect`: drop every bus, then connect again; always answers "ok". */
    method Reconnect(ports: Ports, connects: Arm -> bool) returns (status: string)
      requires Valid()
      modifies this
      ensures Valid()
      ensures forall a :: a in arms ==> arms[a] == ConnectArm(TearDownArm(old(arms[a])), ports.PortOf(a), connects(a))
      ensures status == "ok"
    {
      for i := 0 to |ARMS|
        invariant Valid()
        invariant forall k :: 0 <= k < i ==> arms[ARMS[k]] == TearDownArm(old(arms[ARMS[k]]))
        invariant forall k :: i <= k < |ARMS| ==> arms[ARMS[k]] == old(arms[ARMS[k]])
      {
        var arm := ARMS[i];
        if arms[arm].bus.Some? {
          arms := arms[arm := arms[arm].(bus := None, connected := false)];
        }
      }
      forall a | a in arms { ArmsListed(a); }
      ConnectRobots(ports, connects);
      status := "ok";
    }

    /** `robot_data`: the connected flag and data of each arm; the bus never leaves the store. */
    function RobotData(): (view: map<Arm, ArmView>)
      reads this
      requires Valid()
      ensures view.Keys == {Leader, Follower}
      ensures forall a :: a in view ==> view[a].connected == arms[a].connected && view[a].data == arms[a].data
    {
      map a | a in arms :: ArmView(arms[a].connected, arms[a].data)
    }
  }
}
