/**
 * The Feetech motor bus as the command-line scripts use it: a register file
 * holding one value per motor for each register, batched reads of a register
 * for a list of motors, and batched writes that are also kept in a log in the
 * order they were issued. What the motors physically do after a write (moving
 * towards a goal, the present position changing) is not modelled.
 */
module MotorBus {
  import opened Robot

  datatype Register =
    | PresentVoltage | PresentTemperature | PresentLoad | PresentCurrent | PresentPosition
    | GoalPosition | TorqueEnable | Lock

  /** One `sync_write(register, {motor: value, ...})`. */
  datatype Write = Write(register: Register, values: map<Motor, int>)

  type Registers = map<Register, map<Motor, int>>

  /** Every register holds one value per motor. */
  ghost predicate WellFormed(regs: Registers)
  {
    forall reg: Register :: reg in regs && Total(regs[reg])
  }

  /** The same value for every motor: `{name: v for name in MOTOR_NAMES}`. */
  function AllMotors(v: int): (m: map<Motor, int>)
    ensures Total(m) && forall x :: x in m ==> m[x] == v
  {
    EveryMotorListed();
    map x: Motor | x in MOTORS :: v
  }

  /** The register file after one write: the written motors take the new values, nothing else changes. */
  function ApplyWrite(regs: Registers, w: Write): (regs': Registers)
    ensures WellFormed(regs) ==> WellFormed(regs')
  {
    var before := if w.register in regs then regs[w.register] else map[];
    regs[w.register := before + w.values]
  }

  /**
   * Writing one motor's value is updating that motor's entry. A fact about map
   * union that the proofs of the single-motor writes call to rewrite one form into the other.
   */
  lemma WriteOne(m: map<Motor, int>, name: Motor, v: int)
    ensures m + map[name := v] == m[name := v]
  {
  }

  /** The register file after a sequence of writes, applied in order. */
  function ApplyWrites(regs: Registers, ws: seq<Write>): Registers
  {
    if ws == [] then regs else ApplyWrite(ApplyWrites(regs, ws[..|ws| - 1]), ws[|ws| - 1])
  }

  /** Applying two batches of writes is applying the first, then the second. */
  lemma {:induction false} ApplyWritesAppend(regs: Registers, a: seq<Write>, b: seq<Write>)
    ensures ApplyWrites(regs, a + b) == ApplyWrites(ApplyWrites(regs, a), b)
  {
    if b != [] {
      var n := |b| - 1;
      assert (a + b)[..|a + b| - 1] == a + b[..n];
      ApplyWritesAppend(regs, a, b[..n]);
    } else {
      assert a + b == a;
    }
  }

  /** Applying three batches in a row is applying their concatenation. */
  lemma ApplyWritesThree(regs: Registers, a: seq<Write>, b: seq<Write>, c: seq<Write>)
    ensures ApplyWrites(regs, a + b + c) == ApplyWrites(ApplyWrites(ApplyWrites(regs, a), b), c)
  {
    ApplyWritesAppend(regs, a + b, c);
    ApplyWritesAppend(regs, a, b);
  }

  /**
   * Logs are concatenated in any grouping: a sequence fact the method proofs
   * call to regroup a log extended batch by batch.
   */
  lemma Associative(a: seq<Write>, b: seq<Write>, c: seq<Write>)
    ensures (a + b) + c == a + (b + c)
  {
  }

  lemma ApplyWritesOne(regs: Registers, w: Write)
    ensures ApplyWrites(regs, [w]) == ApplyWrite(regs, w)
  {
    assert [w][..0] == [];
  }

  lemma ApplyWritesTwo(regs: Registers, w1: Write, w2: Write)
    ensures ApplyWrites(regs, [w1, w2]) == ApplyWrite(ApplyWrite(regs, w1), w2)
  {
    assert [w1, w2][..1] == [w1];
    ApplyWritesOne(regs, w1);
  }

  /** Writes that only name motors of the arm keep the register file well formed. */
  lemma {:induction false} ApplyWritesWellFormed(regs: Registers, ws: seq<Write>)
    requires WellFormed(regs)
    ensures WellFormed(ApplyWrites(regs, ws))
  {
    if ws != [] {
      ApplyWritesWellFormed(regs, ws[..|ws| - 1]);
    }
  }

  /** A register that no write names keeps its values. */
  lemma {:induction false} ApplyWritesUntouched(regs: Registers, ws: seq<Write>, reg: Register)
    requires reg in regs && forall i :: 0 <= i < |ws| ==> ws[i].register != reg
    ensures reg in ApplyWrites(regs, ws) && ApplyWrites(regs, ws)[reg] == regs[reg]
  {
    if ws != [] {
      ApplyWritesUntouched(regs, ws[..|ws| - 1], reg);
    }
  }

  /**
   * A connected `FeetechMotorsBus` for the six motors of one arm: its register
   * file and the log of every write issued on it.
   */
  class MotorsBus {
    var registers: Registers
    /** Every sync_write issued on this bus, oldest first. */
    var writes: seq<Write>

    ghost predicate Valid()
      reads this
    {
      WellFormed(registers)
    }

    constructor (regs: Registers)
      requires WellFormed(regs)
      ensures Valid() && registers == regs && writes == []
    {
      registers := regs;
      writes := [];
    }

    /** `sync_read(register)` with no motor list: the register of every motor on the bus. */
    method SyncReadAll(reg: Register) returns (values: map<Motor, int>)
      requires Valid()
      ensures values == registers[reg]
      ensures Total(values)
    {
      values := registers[reg];
    }

    /** `sync_read(register, names)`: the current value of the register for each named motor. */
    method SyncRead(reg: Register, names: seq<Motor>) returns (values: map<Motor, int>)
      requires Valid()
      ensures values.Keys == set n | n in names
      ensures forall n :: n in values ==> values[n] == registers[reg][n]
    {
      values := map n | n in names :: registers[reg][n];
    }

    /** `sync_write(register, values)`. */
    method SyncWrite(reg: Register, values: map<Motor, int>)
      requires Valid()
      modifies this
      ensures Valid()
      ensures writes == old(writes) + [Write(reg, values)]
      ensures registers == ApplyWrite(old(registers), Write(reg, values))
      ensures forall r :: r != reg ==> registers[r] == old(registers[r])
    {
      registers := ApplyWrite(registers, Write(reg, values));
      writes := writes + [Write(reg, values)];
    }
  }
}
