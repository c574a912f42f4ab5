/**
 * monitor.py: one refresh of the single-arm monitor (read four registers,
 * fold the voltage minimum and temperature maximum over the six motors, tag
 * low motors, raise the summary warning), the two-arm summary line, and the
 * menu that decides which buses to open.
 */
module Monitor {
  import opened Robot
  import opened Console
  import opened MotorBus

  /** Below 6.0 V (in tenths) a motor may brown out. */
  const LOW_VOLTAGE: int := 60
  /** Below 6.5 V the summary asks for caution. */
  const CAUTION_VOLTAGE: int := 65
  /** Seeds of the two accumulators. */
  const MIN_VOLTAGE_SEED: int := 255
  const MAX_TEMP_SEED: int := 0

  /** One printed motor row; `low` is the " LOW!" tag after the voltage. */
  datatype MotorLine = MotorLine(motor: Motor, voltage: int, temp: int, load: int, current: int, low: bool)

  /** The message printed after the summary row, if any. */
  datatype Alert = BrownOut | Caution | NoAlert

  datatype Report = Report(lines: seq<MotorLine>, minVoltage: int, maxTemp: int, alert: Alert)

  /** Lines 68-71: the warning for the summary's minimum voltage. */
  function AlertFor(minVoltage: int): (a: Alert)
    ensures a == BrownOut <==> minVoltage < LOW_VOLTAGE
    ensures a == Caution <==> LOW_VOLTAGE <= minVoltage < CAUTION_VOLTAGE
    ensures a == NoAlert <==> CAUTION_VOLTAGE <= minVoltage
  {
    if minVoltage < LOW_VOLTAGE then BrownOut
    else if minVoltage < CAUTION_VOLTAGE then Caution
    else NoAlert
  }

  /** The four register columns `monitor` reads each refresh. */
  datatype Columns = Columns(voltage: map<Motor, int>, temp: map<Motor, int>,
                             load: map<Motor, int>, current: map<Motor, int>)

  predicate Complete(c: Columns)
  {
    Total(c.voltage) && Total(c.temp) && Total(c.load) && Total(c.current)
  }

  /** The row printed for motor n: its four readings, tagged low below 6.0 V. */
  function LineOf(c: Columns, n: Motor): MotorLine
    requires Complete(c)
  {
    MotorLine(n, c.voltage[n], c.temp[n], c.load[n], c.current[n], c.voltage[n] < LOW_VOLTAGE)
  }

  /** The rows printed for the motors ms, in order. */
  function Lines(c: Columns, ms: seq<Motor>): seq<MotorLine>
    requires Complete(c)
  {
    if ms == [] then [] else Lines(c, ms[..|ms| - 1]) + [LineOf(c, ms[|ms| - 1])]
  }

  /**
   * Row k of the report is motor k's row: its four readings, tagged " LOW!"
   * exactly when its voltage is below 6.0 V.
   */
  lemma {:induction false} LinesAt(c: Columns, ms: seq<Motor>)
    requires Complete(c)
    ensures |Lines(c, ms)| == |ms|
    ensures forall k :: 0 <= k < |ms| ==>
      var line := Lines(c, ms)[k];
      && line.motor == ms[k]
      && line.voltage == c.voltage[ms[k]] && line.temp == c.temp[ms[k]]
      && line.load == c.load[ms[k]] && line.current == c.current[ms[k]]
      && (line.low <==> c.voltage[ms[k]] < LOW_VOLTAGE)
  {
    if ms != [] {
      LinesAt(c, ms[..|ms| - 1]);
    }
  }

  /** One pass of the per-motor loop: the next row, and one step of each fold. */
  lemma SummaryStep(c: Columns, i: nat)
    requires Complete(c) && i < |MOTORS|
    ensures Lines(c, MOTORS[..i + 1]) == Lines(c, MOTORS[..i]) + [LineOf(c, MOTORS[i])]
    ensures MinFrom(MIN_VOLTAGE_SEED, Column(c.voltage)[..i + 1])
            == Min(MinFrom(MIN_VOLTAGE_SEED, Column(c.voltage)[..i]), c.voltage[MOTORS[i]])
    ensures MaxFrom(MAX_TEMP_SEED, Column(c.temp)[..i + 1])
            == Max(MaxFrom(MAX_TEMP_SEED, Column(c.temp)[..i]), c.temp[MOTORS[i]])
  {
    ColumnAt(c.voltage, i);
    ColumnAt(c.temp, i);
    MinFromStep(MIN_VOLTAGE_SEED, Column(c.voltage), i);
    MaxFromStep(MAX_TEMP_SEED, Column(c.temp), i);
    assert MOTORS[..i + 1][..i] == MOTORS[..i];
  }

  /** Lines 47-71: the per-motor loop over one set of readings and the summary after it. */
  method Summarise(c: Columns) returns (report: Report)
    requires Complete(c)
    ensures report.lines == Lines(c, MOTORS)
    ensures report.minVoltage == MinFrom(MIN_VOLTAGE_SEED, Column(c.voltage))
    ensures report.maxTemp == MaxFrom(MAX_TEMP_SEED, Column(c.temp))
    ensures report.alert == AlertFor(report.minVoltage)
  {
    var minVoltage := MIN_VOLTAGE_SEED;
    var maxTemp := MAX_TEMP_SEED;
    var lines: seq<MotorLine> := [];
    for i := 0 to |MOTORS|
      invariant lines == Lines(c, MOTORS[..i])
      invariant minVoltage == MinFrom(MIN_VOLTAGE_SEED, Column(c.voltage)[..i])
      invariant maxTemp == MaxFrom(MAX_TEMP_SEED, Column(c.temp)[..i])
    {
      var name := MOTORS[i];
      var v := c.voltage[name];
      var t := c.temp[name];
      SummaryStep(c, i);
      minVoltage := Min(minVoltage, v);
      maxTemp := Max(maxTemp, t);
      lines := lines + [LineOf(c, name)];
    }
    assert MOTORS[..|MOTORS|] == MOTORS;
    assert Column(c.voltage)[..|MOTORS|] == Column(c.voltage);
    assert Column(c.temp)[..|MOTORS|] == Column(c.temp);
    report := Report(lines, minVoltage, maxTemp, AlertFor(minVoltage));
  }

  /** The columns as the bus holds them. */
  function ColumnsOf(regs: Registers): Columns
    requires WellFormed(regs)
  {
    Columns(regs[PresentVoltage], regs[PresentTemperature], regs[PresentLoad], regs[PresentCurrent])
  }

  /**
   * One pass of the `while True` loop of `monitor`: four register reads, then
   * the summary. The method has no `modifies` clause: monitoring never writes.
   */
  method MonitorTick(bus: MotorsBus) returns (report: Report)
    requires bus.Valid()
    ensures Complete(ColumnsOf(bus.registers))
    ensures report.lines == Lines(ColumnsOf(bus.registers), MOTORS)
    ensures report.minVoltage == MinFrom(MIN_VOLTAGE_SEED, Column(bus.registers[PresentVoltage]))
    ensures report.maxTemp == MaxFrom(MAX_TEMP_SEED, Column(bus.registers[PresentTemperature]))
    ensures report.alert == AlertFor(report.minVoltage)
  {
    var voltage := bus.SyncReadAll(PresentVoltage);
    var temp := bus.SyncReadAll(PresentTemperature);
    var load := bus.SyncReadAll(PresentLoad);
    var current := bus.SyncReadAll(PresentCurrent);
    var c := Columns(voltage, temp, load, current);
    report := Summarise(c);
  }

  /**
   * The summary warns of a brown-out exactly when some motor row carries the
   * " LOW!" tag, and then never also prints the caution.
   */
  lemma BrownOutIffSomeMotorLow(volts: seq<int>)
    ensures AlertFor(MinFrom(MIN_VOLTAGE_SEED, volts)) == BrownOut
            <==> exists i :: 0 <= i < |volts| && volts[i] < LOW_VOLTAGE
  {
    MinFromBounds(MIN_VOLTAGE_SEED, volts);
    var m := MinFrom(MIN_VOLTAGE_SEED, volts);
    if exists i :: 0 <= i < |volts| && volts[i] < LOW_VOLTAGE {
      var i :| 0 <= i < |volts| && volts[i] < LOW_VOLTAGE;
      assert m <= volts[i];
    } else if m != MIN_VOLTAGE_SEED {
      var i :| 0 <= i < |volts| && m == volts[i];
    }
  }

  /** Which arms the summary of the "Both" mode covers, and its line for one arm. */
  datatype ArmSummary = ArmSummary(arm: Arm, minVoltage: int, maxTemp: int, low: bool)

  /** Lines 105-115: `min(voltage.values())`, `max(temp.values())` and the LOW VOLTAGE status of one arm. */
  method SummariseArm(bus: MotorsBus, arm: Arm) returns (s: ArmSummary)
    requires bus.Valid()
    ensures s.arm == arm
    ensures s.minVoltage in bus.registers[PresentVoltage].Values
    ensures forall v :: v in bus.registers[PresentVoltage].Values ==> s.minVoltage <= v
    ensures s.maxTemp in bus.registers[PresentTemperature].Values
    ensures forall t :: t in bus.registers[PresentTemperature].Values ==> s.maxTemp >= t
    ensures s.low <==> s.minVoltage < LOW_VOLTAGE
  {
    var voltage := bus.SyncReadAll(PresentVoltage);
    var temp := bus.SyncReadAll(PresentTemperature);
    var volts := Column(voltage);
    var temps := Column(temp);
    var minV := SeqMin(volts);
    var maxT := SeqMax(temps);
    forall v | v in voltage.Values ensures minV <= v {
      var n :| n in voltage && voltage[n] == v;
      assert volts[n.Id() - 1] == v;
    }
    forall t | t in temp.Values ensures maxT >= t {
      var n :| n in temp && temp[n] == t;
      assert temps[n.Id() - 1] == t;
    }
    ghost var iv :| 0 <= iv < |volts| && minV == volts[iv];
    assert voltage[MOTORS[iv]] == minV;
    ghost var it :| 0 <= it < |temps| && maxT == temps[it];
    assert temp[MOTORS[it]] == maxT;
    s := ArmSummary(arm, minV, maxT, minV < LOW_VOLTAGE);
  }

  /** What `main` does with the menu choice. */
  datatype Mode = MonitorOne(arm: Arm) | MonitorBoth | InvalidChoice

  /** Lines 85-126: the stripped choice "1", "2" or "3" picks a mode; anything else is invalid. */
  function ChooseMode(line: string): (m: Mode)
    ensures m == MonitorOne(Leader) <==> Strip(line) == "1"
    ensures m == MonitorOne(Follower) <==> Strip(line) == "2"
    ensures m == MonitorBoth <==> Strip(line) == "3"
    ensures m == InvalidChoice <==> Strip(line) !in {"1", "2", "3"}
  {
    var choice := Strip(line);
    if choice == "1" then MonitorOne(Leader)
    else if choice == "2" then MonitorOne(Follower)
    else if choice == "3" then MonitorBoth
    else InvalidChoice
  }

  /**
   * The arms whose bus `main` creates and connects for a mode, in creation
   * order: the table of `main`'s branches (monitor.py lines 87-126).
   */
  function BusesOpened(m: Mode): (arms: seq<Arm>)
    ensures |arms| == 0 <==> m == InvalidChoice
    ensures m.MonitorOne? ==> arms == [m.arm]
    ensures m == MonitorBoth ==> arms == ARMS
  {
    match m
    case MonitorOne(arm) => [arm]
    case MonitorBoth => [Leader, Follower]
    case InvalidChoice => []
  }

  /** Whatever is typed, no bus is opened unless the stripped line is "1", "2" or "3". */
  lemma InvalidChoiceOpensNoBus(line: string)
    ensures BusesOpened(ChooseMode(line)) == [] <==> Strip(line) !in {"1", "2", "3"}
  {
  }
}
