/**
 * test_motors.py: the interactive motor tester. An arm is chosen at a retry
 * prompt, then commands are run against its bus until "q": read positions,
 * move one motor, sweep every motor back and forth, return to the configured
 * default pose, relax or hold. Every bus write is recorded in the bus's log.
 */
module MotorTest {
  import opened Wrappers
  import opened Robot
  import opened Console
  import opened MotorBus

  /** Steps each motor moves either way in the sweep. */
  const OFFSET: int := 300
  /** The encoder range is 0..MAX_POSITION. */
  const MAX_POSITION: int := 4095

  predicate InEncoderRange(p: int)
  {
    0 <= p <= MAX_POSITION
  }

  /** Line 109: the forward target, clamped to the top of the encoder range. */
  function PosPlus(curr: int): (p: int)
    ensures p <= MAX_POSITION
    ensures curr <= MAX_POSITION ==> curr <= p
    ensures p == curr + OFFSET || p == MAX_POSITION
    ensures p <= curr + OFFSET
  {
    Min(MAX_POSITION, curr + OFFSET)
  }

  /** Line 110: the backward target, clamped to the bottom of the encoder range. */
  function PosMinus(curr: int): (p: int)
    ensures 0 <= p
    ensures 0 <= curr ==> p <= curr
    ensures p == curr - OFFSET || p == 0
    ensures curr - OFFSET <= p
  {
    Max(0, curr - OFFSET)
  }

  /** From a position in range, both sweep targets stay in range and straddle it. */
  lemma SweepTargetsInRange(curr: int)
    requires InEncoderRange(curr)
    ensures InEncoderRange(PosPlus(curr)) && InEncoderRange(PosMinus(curr))
    ensures PosMinus(curr) <= curr <= PosPlus(curr)
  {
  }

  /** Lines 114-124: the three goal writes for one motor, each addressed to that motor alone. */
  function Sweep(name: Motor, curr: int): seq<Write>
  {
    [ Write(GoalPosition, map[name := PosPlus(curr)]),
      Write(GoalPosition, map[name := PosMinus(curr)]),
      Write(GoalPosition, map[name := curr]) ]
  }

  /** Lines 107-124: the sweeps of the given motors, in order. */
  function SweepWrites(names: seq<Motor>, current: map<Motor, int>): (ws: seq<Write>)
    requires Total(current)
    ensures |ws| == 3 * |names|
  {
    if names == [] then []
    else
      var n := |names| - 1;
      SweepWrites(names[..n], current) + Sweep(names[n], current[names[n]])
  }

  /**
   * The writes of the i-th motor are the i-th block of three: +300, -300, back
   * to the start, each addressed to that motor alone.
   */
  lemma {:induction false} SweepWritesAt(names: seq<Motor>, current: map<Motor, int>, i: nat)
    requires Total(current)
    requires i < |names|
    ensures SweepWrites(names, current)[3 * i..3 * i + 3] == Sweep(names[i], current[names[i]])
  {
    var n := |names| - 1;
    var prefix := SweepWrites(names[..n], current);
    if i < n {
      SweepWritesAt(names[..n], current, i);
      assert SweepWrites(names, current)[3 * i..3 * i + 3] == prefix[3 * i..3 * i + 3];
    } else {
      assert |prefix| == 3 * i;
    }
  }

  /** The "s" command: torque on for every motor, then each motor's sweep. */
  function SequenceWrites(current: map<Motor, int>): seq<Write>
    requires Total(current)
  {
    [Write(TorqueEnable, AllMotors(1))] + SweepWrites(MOTORS, current)
  }

  /** The goal column after the sweeps of `names`: each swept motor's last goal is its start. */
  function Restored(goals: map<Motor, int>, names: seq<Motor>, current: map<Motor, int>): map<Motor, int>
    requires Total(current)
  {
    if names == [] then goals
    else
      var n := |names| - 1;
      Restored(goals, names[..n], current)[names[n] := current[names[n]]]
  }

  lemma {:induction false} RestoredAt(goals: map<Motor, int>, names: seq<Motor>, current: map<Motor, int>, m: Motor)
    requires Total(current)
    ensures m in names ==> m in Restored(goals, names, current) && Restored(goals, names, current)[m] == current[m]
    ensures m !in names ==> (m in Restored(goals, names, current) <==> m in goals)
    ensures m !in names && m in goals ==> Restored(goals, names, current)[m] == goals[m]
  {
    if names != [] {
      var n := |names| - 1;
      RestoredAt(goals, names[..n], current, m);
      assert m in names && m != names[n] ==> m in names[..n];
    }
  }

  /** One motor's sweep leaves only its final goal, its starting position, behind. */
  lemma ApplySweep(regs: Registers, name: Motor, curr: int)
    requires GoalPosition in regs
    ensures ApplyWrites(regs, Sweep(name, curr)) == regs[GoalPosition := regs[GoalPosition][name := curr]]
  {
    var sweep := Sweep(name, curr);
    assert sweep[..2] == [sweep[0], sweep[1]];
    ApplyWritesTwo(regs, sweep[0], sweep[1]);
    var g := regs[GoalPosition];
    WriteOne(g, name, PosPlus(curr));
    WriteOne(g[name := PosPlus(curr)], name, PosMinus(curr));
    WriteOne(g[name := PosPlus(curr)][name := PosMinus(curr)], name, curr);
    assert g[name := PosPlus(curr)][name := PosMinus(curr)][name := curr] == g[name := curr];
  }

  /** The sweeps of `names` change the goal column only, to Restored. */
  lemma {:induction false} SweepWritesEffect(regs: Registers, names: seq<Motor>, current: map<Motor, int>)
    requires GoalPosition in regs
    requires Total(current)
    ensures ApplyWrites(regs, SweepWrites(names, current))
            == regs[GoalPosition := Restored(regs[GoalPosition], names, current)]
  {
    if names == [] {
      assert regs[GoalPosition := regs[GoalPosition]] == regs;
    } else {
      var n := |names| - 1;
      var prefix := SweepWrites(names[..n], current);
      SweepWritesEffect(regs, names[..n], current);
      ApplyWritesAppend(regs, prefix, Sweep(names[n], current[names[n]]));
      ApplySweep(ApplyWrites(regs, prefix), names[n], current[names[n]]);
    }
  }

  /**
   * The sweep brings every motor back: after the sweeps of `names`, each of
   * those motors' goal is its starting position, the other motors' goals are
   * as before, and no other register is touched.
   */
  lemma SweepEndsWhereItStarted(regs: Registers, names: seq<Motor>, current: map<Motor, int>)
    requires WellFormed(regs)
    requires Total(current)
    ensures WellFormed(ApplyWrites(regs, SweepWrites(names, current)))
    ensures forall i :: 0 <= i < |names| ==>
      ApplyWrites(regs, SweepWrites(names, current))[GoalPosition][names[i]] == current[names[i]]
    ensures forall m :: m !in names ==>
      ApplyWrites(regs, SweepWrites(names, current))[GoalPosition][m] == regs[GoalPosition][m]
    ensures forall reg :: reg != GoalPosition ==> ApplyWrites(regs, SweepWrites(names, current))[reg] == regs[reg]
  {
    SweepWritesEffect(regs, names, current);
    var goals := Restored(regs[GoalPosition], names, current);
    forall m: Motor ensures m in goals
    {
      RestoredAt(regs[GoalPosition], names, current, m);
    }
    forall i | 0 <= i < |names| ensures goals[names[i]] == current[names[i]]
    {
      RestoredAt(regs[GoalPosition], names, current, names[i]);
    }
    forall m | m !in names ensures goals[m] == regs[GoalPosition][m]
    {
      RestoredAt(regs[GoalPosition], names, current, m);
    }
  }

  /** Sweeping every motor leaves each goal at the position it started from. */
  lemma RestoredAll(goals: map<Motor, int>, current: map<Motor, int>)
    requires Total(current)
    ensures Restored(goals, MOTORS, current) == current
  {
    var r := Restored(goals, MOTORS, current);
    forall m: Motor ensures m in r && r[m] == current[m] {
      assert MOTORS[m.Id() - 1] == m;
      RestoredAt(goals, MOTORS, current, m);
    }
  }

  /** `int(input()) - 1` checked against the motor list: which motor the number n selects. */
  function SelectMotor(n: int): (motor: Option<Motor>)
    ensures motor.Some? <==> 1 <= n <= |MOTORS|
    ensures motor.Some? ==> motor.value.Id() == n
  {
    var index := n - 1;
    if 0 <= index < |MOTORS| then Some(MOTORS[index]) else None
  }

  /** What the "m" command ends with. */
  datatype MoveOutcome = Moved(name: Motor, target: int) | InvalidInput | InvalidMotor | PositionOutOfRange

  /**
   * Lines 162-180: the motor number and target typed at the two prompts
   * (None when `int()` raises ValueError) decide the outcome.
   */
  function MoveDecision(motor: Option<int>, target: Option<int>): (o: MoveOutcome)
    ensures o.Moved? <==> motor.Some? && 1 <= motor.value <= |MOTORS| && target.Some? && InEncoderRange(target.value)
    ensures o.Moved? ==> o.name.Id() == motor.value && o.target == target.value
    ensures o == InvalidMotor <==> motor.Some? && !(1 <= motor.value <= |MOTORS|)
    ensures o == PositionOutOfRange <==> motor.Some? && 1 <= motor.value <= |MOTORS| && target.Some? && !InEncoderRange(target.value)
  {
    if motor.None? then InvalidInput
    else match SelectMotor(motor.value)
      case None => InvalidMotor
      case Some(name) =>
        if target.None? then InvalidInput
        else if InEncoderRange(target.value) then Moved(name, target.value)
        else PositionOutOfRange
  }

  /** The writes of the "m" command: torque on, then the goal, for the chosen motor only. */
  function MoveWrites(o: MoveOutcome): seq<Write>
  {
    if o.Moved? then [Write(TorqueEnable, map[o.name := 1]), Write(GoalPosition, map[o.name := o.target])]
    else []
  }

  /** The commands of the loop, with what was typed at the "m" command's two prompts. */
  datatype Command =
    | Quit | ReadPositions | Move(motor: Option<int>, target: Option<int>) | Sequence
    | ReturnHome | Relax | Hold | Unknown

  /** Line 82: the command word, stripped and lower-cased. */
  function ParseCommand(line: string, motor: Option<int>, target: Option<int>): (c: Command)
    ensures c == Quit <==> Lower(Strip(line)) == "q"
    ensures c == ReadPositions <==> Lower(Strip(line)) == "r"
    ensures c == Sequence <==> Lower(Strip(line)) == "s"
    ensures c == ReturnHome <==> Lower(Strip(line)) == "return"
    ensures c == Relax <==> Lower(Strip(line)) == "relax"
    ensures c == Hold <==> Lower(Strip(line)) == "hold"
    ensures c.Move? <==> Lower(Strip(line)) == "m"
    ensures c.Move? ==> c == Move(motor, target)
    ensures c == Unknown <==> Lower(Strip(line)) !in {"q", "r", "s", "m", "return", "relax", "hold"}
  {
    var cmd := Lower(Strip(line));
    if cmd == "q" then Quit
    else if cmd == "r" then ReadPositions
    else if cmd == "s" then Sequence
    else if cmd == "return" then ReturnHome
    else if cmd == "relax" then Relax
    else if cmd == "hold" then Hold
    else if cmd == "m" then Move(motor, target)
    else Unknown
  }

  /** " Relax" typed with a trailing newline is the "relax" command: case and padding are ignored. */
  lemma TypedRelaxParses(motor: Option<int>, target: Option<int>)
    ensures ParseCommand(" Relax\n", motor, target) == Relax
  {
    PaddedTokenStrips("Relax", " ", "\n");
    assert " " + "Relax" + "\n" == " Relax\n";
    assert Strip(" Relax\n") == "Relax";
    WordIgnoresCase("Relax", "relax");
    assert Lower("Relax") == "relax";
  }

  /** The writes one command issues, given the present positions and the configured default pose. */
  function CommandWrites(c: Command, present: map<Motor, int>, defaults: map<Motor, int>): seq<Write>
    requires Total(present)
  {
    match c
    case Sequence => SequenceWrites(present)
    case ReturnHome => [Write(TorqueEnable, AllMotors(1)), Write(GoalPosition, defaults)]
    case Relax => [Write(TorqueEnable, AllMotors(0)), Write(Lock, AllMotors(0))]
    case Hold => [Write(TorqueEnable, AllMotors(1)), Write(Lock, AllMotors(1))]
    case Move(motor, target) => MoveWrites(MoveDecision(motor, target))
    case Quit => []
    case ReadPositions => []
    case Unknown => []
  }

  /** Writing the same value to every motor, in two registers. */
  lemma ApplyAllMotors(regs: Registers, r1: Register, r2: Register, v: int)
    requires WellFormed(regs)
    ensures ApplyWrites(regs, [Write(r1, AllMotors(v)), Write(r2, AllMotors(v))])
            == regs[r1 := AllMotors(v)][r2 := AllMotors(v)]
  {
    ApplyWritesTwo(regs, Write(r1, AllMotors(v)), Write(r2, AllMotors(v)));
    assert regs[r1] + AllMotors(v) == AllMotors(v);
    var mid := regs[r1 := AllMotors(v)];
    assert mid[r2] + AllMotors(v) == AllMotors(v);
  }

  /** "relax" frees every motor and "hold" locks every motor, torque and lock alike. */
  lemma RelaxAndHoldSetEveryMotor(regs: Registers, present: map<Motor, int>, defaults: map<Motor, int>)
    requires WellFormed(regs) && Total(present)
    ensures ApplyWrites(regs, CommandWrites(Relax, present, defaults)) == regs[TorqueEnable := AllMotors(0)][Lock := AllMotors(0)]
    ensures ApplyWrites(regs, CommandWrites(Hold, present, defaults)) == regs[TorqueEnable := AllMotors(1)][Lock := AllMotors(1)]
  {
    assert CommandWrites(Relax, present, defaults) == [Write(TorqueEnable, AllMotors(0)), Write(Lock, AllMotors(0))];
    assert CommandWrites(Hold, present, defaults) == [Write(TorqueEnable, AllMotors(1)), Write(Lock, AllMotors(1))];
    ApplyAllMotors(regs, TorqueEnable, Lock, 0);
    ApplyAllMotors(regs, TorqueEnable, Lock, 1);
  }

  /** The commands the loop runs: those before the first "q". */
  function UntilQuit(cs: seq<Command>): (run: seq<Command>)
    ensures |run| <= |cs| && run == cs[..|run|] && Quit !in run
    ensures |run| < |cs| ==> cs[|run|] == Quit
  {
    if cs == [] || cs[0] == Quit then [] else [cs[0]] + UntilQuit(cs[1..])
  }

  /** The writes of a run of commands, in order. */
  function CommandsWrites(cs: seq<Command>, present: map<Motor, int>, defaults: map<Motor, int>): seq<Write>
    requires Total(present)
  {
    if cs == [] then []
    else CommandsWrites(cs[..|cs| - 1], present, defaults) + CommandWrites(cs[|cs| - 1], present, defaults)
  }

  /** Relax (v = 0) or hold (v = 1): torque and lock written with v for every motor. */
  method SetTorqueAndLock(bus: MotorsBus, v: int)
    requires bus.Valid()
    modifies bus
    ensures bus.Valid()
    ensures bus.writes == old(bus.writes) + [Write(TorqueEnable, AllMotors(v)), Write(Lock, AllMotors(v))]
    ensures bus.registers == old(bus.registers)[TorqueEnable := AllMotors(v)][Lock := AllMotors(v)]
    ensures bus.registers == ApplyWrites(old(bus.registers), [Write(TorqueEnable, AllMotors(v)), Write(Lock, AllMotors(v))])
  {
    ghost var before := bus.registers;
    bus.SyncWrite(TorqueEnable, AllMotors(v));
    bus.SyncWrite(Lock, AllMotors(v));
    ApplyAllMotors(before, TorqueEnable, Lock, v);
    ApplyWritesTwo(before, Write(TorqueEnable, AllMotors(v)), Write(Lock, AllMotors(v)));
  }

  /** Lines 128-143, "return": torque on everywhere, then every goal to the configured default pose. */
  method ReturnToDefault(bus: MotorsBus, defaults: map<Motor, int>)
    requires bus.Valid() && Total(defaults)
    modifies bus
    ensures bus.Valid()
    ensures bus.writes == old(bus.writes) + [Write(TorqueEnable, AllMotors(1)), Write(GoalPosition, defaults)]
    ensures bus.registers == old(bus.registers)[TorqueEnable := AllMotors(1)][GoalPosition := defaults]
    ensures bus.registers == ApplyWrites(old(bus.registers), [Write(TorqueEnable, AllMotors(1)), Write(GoalPosition, defaults)])
  {
    ghost var before := bus.registers;
    bus.SyncWrite(TorqueEnable, AllMotors(1));
    assert bus.registers[TorqueEnable] == AllMotors(1);
    bus.SyncWrite(GoalPosition, defaults);
    assert bus.registers[GoalPosition] == defaults;
    ReturnEffect(before, defaults);
  }

  /** Lines 157-180, "m": move one motor, if both typed values are acceptable. */
  method MoveMotor(bus: MotorsBus, motor: Option<int>, target: Option<int>) returns (o: MoveOutcome)
    requires bus.Valid()
    modifies bus
    ensures bus.Valid()
    ensures o == MoveDecision(motor, target)
    ensures bus.writes == old(bus.writes) + MoveWrites(o)
    ensures o.Moved? ==> bus.registers == old(bus.registers)[TorqueEnable := old(bus.registers)[TorqueEnable][o.name := 1]]
                                                            [GoalPosition := old(bus.registers)[GoalPosition][o.name := o.target]]
    ensures !o.Moved? ==> bus.registers == old(bus.registers)
    ensures bus.registers == ApplyWrites(old(bus.registers), MoveWrites(o))
  {
    if motor.None? {
      return InvalidInput;
    }
    var selected := SelectMotor(motor.value);
    if selected.None? {
      return InvalidMotor;
    }
    var name := selected.value;
    var currentPos := bus.SyncRead(PresentPosition, [name]);
    if target.None? {
      return InvalidInput;
    }
    var pos := target.value;
    if InEncoderRange(pos) {
      bus.SyncWrite(TorqueEnable, map[name := 1]);
      bus.SyncWrite(GoalPosition, map[name := pos]);
      WriteOne(old(bus.registers)[TorqueEnable], name, 1);
      WriteOne(old(bus.registers)[GoalPosition], name, pos);
      o := Moved(name, pos);
      MoveEffect(old(bus.registers), name, pos);
    } else {
      o := PositionOutOfRange;
    }
  }

  /**
   * Lines 93-126, "s": read every present position, turn torque on, then sweep
   * each motor to +300, -300 and back, clamped to the encoder range.
   */
  method RunSequence(bus: MotorsBus)
    requires bus.Valid()
    modifies bus
    ensures bus.Valid()
    ensures bus.writes == old(bus.writes) + SequenceWrites(old(bus.registers)[PresentPosition])
    ensures bus.registers[TorqueEnable] == AllMotors(1)
    ensures bus.registers[GoalPosition] == old(bus.registers)[PresentPosition]
    ensures forall r :: r != TorqueEnable && r != GoalPosition ==> bus.registers[r] == old(bus.registers)[r]
    ensures bus.registers == ApplyWrites(old(bus.registers), SequenceWrites(old(bus.registers)[PresentPosition]))
  {
    var current := bus.SyncRead(PresentPosition, MOTORS);
    EveryMotorListed();
    assert current == bus.registers[PresentPosition];
    bus.SyncWrite(TorqueEnable, AllMotors(1));
    ghost var torqued := bus.registers;
    SweepAll(bus, current);
    Associative(old(bus.writes), [Write(TorqueEnable, AllMotors(1))], SweepWrites(MOTORS, current));
    RestoredAll(torqued[GoalPosition], current);
    SequenceEffect(old(bus.registers));
  }

  /** Lines 107-124: the loop over the motors, sweeping each in turn from its position before the loop. */
  method SweepAll(bus: MotorsBus, current: map<Motor, int>)
    requires bus.Valid() && Total(current)
    modifies bus
    ensures bus.Valid()
    ensures bus.writes == old(bus.writes) + SweepWrites(MOTORS, current)
    ensures bus.registers == old(bus.registers)[GoalPosition := Restored(old(bus.registers)[GoalPosition], MOTORS, current)]
  {
    ghost var goals := old(bus.registers)[GoalPosition];
    for i := 0 to |MOTORS|
      invariant bus.Valid()
      invariant bus.writes == old(bus.writes) + SweepWrites(MOTORS[..i], current)
      invariant bus.registers == old(bus.registers)[GoalPosition := Restored(goals, MOTORS[..i], current)]
    {
      var name := MOTORS[i];
      var currPos := current[name];
      SweepMotor(bus, name, currPos);
      assert MOTORS[..i + 1][..i] == MOTORS[..i];
      Associative(old(bus.writes), SweepWrites(MOTORS[..i], current), Sweep(name, currPos));
    }
    assert MOTORS[..|MOTORS|] == MOTORS;
  }

  /** Lines 108-124: one motor's sweep to +300, -300 and back to where it was. */
  method SweepMotor(bus: MotorsBus, name: Motor, currPos: int)
    requires bus.Valid()
    modifies bus
    ensures bus.Valid()
    ensures bus.writes == old(bus.writes) + Sweep(name, currPos)
    ensures bus.registers == old(bus.registers)[GoalPosition := old(bus.registers)[GoalPosition][name := currPos]]
  {
    var posPlus := PosPlus(currPos);
    var posMinus := PosMinus(currPos);
    bus.SyncWrite(GoalPosition, map[name := posPlus]);
    ghost var w1 := bus.writes;
    bus.SyncWrite(GoalPosition, map[name := posMinus]);
    ghost var w2 := bus.writes;
    bus.SyncWrite(GoalPosition, map[name := currPos]);
    assert w1 == old(bus.writes) + [Sweep(name, currPos)[0]];
    assert w2 == old(bus.writes) + Sweep(name, currPos)[..2];
    ghost var g := old(bus.registers)[GoalPosition];
    WriteOne(g, name, posPlus);
    WriteOne(g[name := posPlus], name, posMinus);
    WriteOne(g[name := posPlus][name := posMinus], name, currPos);
    assert g[name := posPlus][name := posMinus][name := currPos] == g[name := currPos];
  }

  /** One pass of the command loop (any command but "q"). */
  method Execute(bus: MotorsBus, c: Command, defaults: map<Motor, int>)
    requires bus.Valid() && Total(defaults)
    modifies bus
    ensures bus.Valid()
    ensures bus.writes == old(bus.writes) + CommandWrites(c, old(bus.registers)[PresentPosition], defaults)
    ensures bus.registers == ApplyWrites(old(bus.registers), CommandWrites(c, old(bus.registers)[PresentPosition], defaults))
    ensures bus.registers[PresentPosition] == old(bus.registers)[PresentPosition]
  {
    match c
    case ReadPositions =>
      var positions := bus.SyncRead(PresentPosition, MOTORS);
    case Move(motor, target) =>
      var o := MoveMotor(bus, motor, target);
    case Sequence =>
      RunSequence(bus);
    case ReturnHome =>
      ReturnToDefault(bus, defaults);
    case Relax =>
      SetTorqueAndLock(bus, 0);
    case Hold =>
      SetTorqueAndLock(bus, 1);
    case Quit =>
    case Unknown =>
  }

  /** The registers after the "m" command's two writes. */
  lemma MoveEffect(regs: Registers, name: Motor, target: int)
    requires WellFormed(regs)
    ensures ApplyWrites(regs, MoveWrites(Moved(name, target)))
            == regs[TorqueEnable := regs[TorqueEnable][name := 1]][GoalPosition := regs[GoalPosition][name := target]]
  {
    ApplyWritesTwo(regs, Write(TorqueEnable, map[name := 1]), Write(GoalPosition, map[name := target]));
    WriteOne(regs[TorqueEnable], name, 1);
    WriteOne(regs[GoalPosition], name, target);
  }

  /** The registers after the "return" command's two writes. */
  lemma ReturnEffect(regs: Registers, defaults: map<Motor, int>)
    requires WellFormed(regs) && Total(defaults)
    ensures ApplyWrites(regs, [Write(TorqueEnable, AllMotors(1)), Write(GoalPosition, defaults)])
            == regs[TorqueEnable := AllMotors(1)][GoalPosition := defaults]
  {
    ApplyWritesTwo(regs, Write(TorqueEnable, AllMotors(1)), Write(GoalPosition, defaults));
    assert regs[TorqueEnable] + AllMotors(1) == AllMotors(1);
    assert regs[GoalPosition] + defaults == defaults;
  }

  /** The registers after the "s" command's writes: torque on, every goal back at its present position. */
  lemma SequenceEffect(regs: Registers)
    requires WellFormed(regs)
    ensures ApplyWrites(regs, SequenceWrites(regs[PresentPosition]))
            == regs[TorqueEnable := AllMotors(1)][GoalPosition := regs[PresentPosition]]
  {
    var present := regs[PresentPosition];
    var torque := Write(TorqueEnable, AllMotors(1));
    ApplyWritesAppend(regs, [torque], SweepWrites(MOTORS, present));
    ApplyWritesOne(regs, torque);
    assert regs[TorqueEnable] + AllMotors(1) == AllMotors(1);
    var torqued := regs[TorqueEnable := AllMotors(1)];
    SweepWritesEffect(torqued, MOTORS, present);
    RestoredAll(torqued[GoalPosition], present);
  }

  /** Everything a session writes: relax, the commands before the first "q", and torque off if "q" came. */
  function SessionWrites(cs: seq<Command>, present: map<Motor, int>, defaults: map<Motor, int>): seq<Write>
    requires Total(present)
  {
    [Write(TorqueEnable, AllMotors(0)), Write(Lock, AllMotors(0))]
    + CommandsWrites(UntilQuit(cs), present, defaults)
    + (if Quit in cs then [Write(TorqueEnable, AllMotors(0))] else [])
  }

  /**
   * Lines 64-183 after connecting: relax the arm, run commands until "q",
   * then switch torque off. If the input ends before a "q", `input()` raises
   * and the script stops without that last write. The registers end up
   * exactly as the session's writes, applied in order, leave them.
   */
  method RunSession(bus: MotorsBus, defaults: map<Motor, int>, commands: seq<Command>) returns (quit: bool)
    requires bus.Valid() && Total(defaults)
    modifies bus
    ensures bus.Valid()
    ensures quit <==> Quit in commands
    ensures bus.writes == old(bus.writes) + SessionWrites(commands, old(bus.registers)[PresentPosition], defaults)
    ensures bus.registers == ApplyWrites(old(bus.registers), SessionWrites(commands, old(bus.registers)[PresentPosition], defaults))
    ensures quit ==> bus.registers[TorqueEnable] == AllMotors(0)
  {
    ghost var before := bus.registers;
    ghost var relax := [Write(TorqueEnable, AllMotors(0)), Write(Lock, AllMotors(0))];
    SetTorqueAndLock(bus, 0);
    ghost var relaxed := bus.registers;
    quit := RunCommands(bus, defaults, commands);
    ghost var run := CommandsWrites(UntilQuit(commands), before[PresentPosition], defaults);
    ghost var ran := bus.registers;
    ghost var tail: seq<Write> := [];
    if quit {
      DisableTorque(bus);
      tail := [Write(TorqueEnable, AllMotors(0))];
    }
    assert relaxed == ApplyWrites(before, relax);
    assert ran == ApplyWrites(relaxed, run);
    assert bus.registers == ApplyWrites(ran, tail);
    ApplyWritesThree(before, relax, run, tail);
    assert bus.writes == old(bus.writes) + relax + run + tail;
    Associative(old(bus.writes), relax, run);
    Associative(old(bus.writes), relax + run, tail);
    assert SessionWrites(commands, before[PresentPosition], defaults) == relax + run + tail;
  }

  /** Lines 182-183: torque off for every motor before disconnecting. */
  method DisableTorque(bus: MotorsBus)
    requires bus.Valid()
    modifies bus
    ensures bus.Valid()
    ensures bus.writes == old(bus.writes) + [Write(TorqueEnable, AllMotors(0))]
    ensures bus.registers == ApplyWrites(old(bus.registers), [Write(TorqueEnable, AllMotors(0))])
    ensures bus.registers[TorqueEnable] == AllMotors(0)
  {
    bus.SyncWrite(TorqueEnable, AllMotors(0));
    ApplyWritesOne(old(bus.registers), Write(TorqueEnable, AllMotors(0)));
    assert bus.registers[TorqueEnable] == AllMotors(0);
  }

  /** Lines 69-180: the command loop, up to (not including) the first "q". */
  method RunCommands(bus: MotorsBus, defaults: map<Motor, int>, commands: seq<Command>) returns (quit: bool)
    requires bus.Valid() && Total(defaults)
    modifies bus
    ensures bus.Valid()
    ensures quit <==> Quit in commands
    ensures bus.writes == old(bus.writes) + CommandsWrites(UntilQuit(commands), old(bus.registers)[PresentPosition], defaults)
    ensures bus.registers == ApplyWrites(old(bus.registers), CommandsWrites(UntilQuit(commands), old(bus.registers)[PresentPosition], defaults))
    ensures bus.registers[PresentPosition] == old(bus.registers)[PresentPosition]
  {
    ghost var present := bus.registers[PresentPosition];
    var i := 0;
    while i < |commands| && commands[i] != Quit
      invariant 0 <= i <= |commands| && Quit !in commands[..i]
      invariant bus.Valid()
      invariant bus.registers[PresentPosition] == present
      invariant bus.writes == old(bus.writes) + CommandsWrites(commands[..i], present, defaults)
      invariant bus.registers == ApplyWrites(old(bus.registers), CommandsWrites(commands[..i], present, defaults))
    {
      Execute(bus, commands[i], defaults);
      ApplyWritesAppend(old(bus.registers), CommandsWrites(commands[..i], present, defaults), CommandWrites(commands[i], present, defaults));
      assert commands[..i + 1][..i] == commands[..i];
      Associative(old(bus.writes), CommandsWrites(commands[..i], present, defaults), CommandWrites(commands[i], present, defaults));
      i := i + 1;
    }
    QuitPrefix(commands, i);
    quit := i < |commands|;
    assert !quit ==> commands[..i] == commands;
  }

  /** The loop stops at the first "q": the commands it ran are exactly UntilQuit. */
  lemma {:induction false} QuitPrefix(cs: seq<Command>, i: nat)
    requires i <= |cs| && Quit !in cs[..i] && (i == |cs| || cs[i] == Quit)
    ensures cs[..i] == UntilQuit(cs)
  {
    if i > 0 {
      assert cs[0] in cs[..i];
      assert cs[1..][..i - 1] == cs[..i][1..];
      assert forall c :: c in cs[1..][..i - 1] ==> c in cs[..i];
      QuitPrefix(cs[1..], i - 1);
    }
  }

  /** The arm chosen by one line at the "Enter choice (1/2)" prompt, if any. */
  function ArmChoice(line: string): (arm: Option<Arm>)
    ensures arm == Some(Leader) <==> Strip(line) == "1"
    ensures arm == Some(Follower) <==> Strip(line) == "2"
    ensures arm == None <==> Strip(line) !in {"1", "2"}
  {
    var choice := Strip(line);
    if choice == "1" then Some(Leader) else if choice == "2" then Some(Follower) else None
  }

  datatype Selection = Selection(arm: Arm, port: Option<string>)

  /**
   * Lines 26-39, `select_arm`: prompt until a line reads "1" or "2". `used`
   * counts the lines consumed; None means the input ran out first.
   */
  method SelectArm(inputs: seq<string>, ports: Ports) returns (selected: Option<Selection>, used: nat)
    ensures used <= |inputs|
    ensures selected.None? ==> used == |inputs|
    ensures selected.Some? ==> 0 < used && ArmChoice(inputs[used - 1]) == Some(selected.value.arm)
                                && selected.value.port == ports.PortOf(selected.value.arm)
    ensures forall k :: 0 <= k < used && (selected.None? || k < used - 1) ==> ArmChoice(inputs[k]) == None
  {
    used := 0;
    while used < |inputs|
      invariant used <= |inputs|
      invariant forall k :: 0 <= k < used ==> ArmChoice(inputs[k]) == None
    {
      var choice := ArmChoice(inputs[used]);
      used := used + 1;
      if choice.Some? {
        return Some(Selection(choice.value, ports.PortOf(choice.value))), used;
      }
    }
    return None, used;
  }
}
