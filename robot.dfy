/**
 * What the three scripts share: the six motors of an SO-101 arm, their bus ids,
 * the two arms and their configured serial ports, and the min/max folds used to
 * summarise one register column over the six motors.
 */
module Robot {
  import opened Wrappers

  /** The six motors of one arm. */
  datatype Motor = ShoulderPan | ShoulderLift | ElbowFlex | WristFlex | WristRoll | Gripper
  {
    /** The name under which the bus, the scripts and the dashboard know this motor. */
    function Name(): string
    {
      match this
      case ShoulderPan => "shoulder_pan"
      case ShoulderLift => "shoulder_lift"
      case ElbowFlex => "elbow_flex"
      case WristFlex => "wrist_flex"
      case WristRoll => "wrist_roll"
      case Gripper => "gripper"
    }

    /** Bus id of the motor: its 1-based place in MOTORS. */
    function Id(): (id: int)
      ensures 1 <= id <= |MOTORS| && MOTORS[id - 1] == this
    {
      match this
      case ShoulderPan => 1
      case ShoulderLift => 2
      case ElbowFlex => 3
      case WristFlex => 4
      case WristRoll => 5
      case Gripper => 6
    }
  }

  /** The motors of one arm, in bus order (`MOTOR_NAMES`). */
  const MOTORS: seq<Motor> := [ShoulderPan, ShoulderLift, ElbowFlex, WristFlex, WristRoll, Gripper]

  /** MOTORS lists every motor. */
  lemma EveryMotorListed()
    ensures forall x: Motor :: x in MOTORS
  {
    forall x: Motor ensures x in MOTORS {
      assert MOTORS[x.Id() - 1] == x;
    }
  }

  /** No two motors share a name, so a name picks out exactly one motor (and id). */
  lemma NamesDistinct(a: Motor, b: Motor)
    ensures a.Name() == b.Name() ==> a == b
  {
    if a != b {
      assert a.Name()[..2] != b.Name()[..2] || a.Name()[2] != b.Name()[2] || |a.Name()| != |b.Name()|
        || a.Name()[6] != b.Name()[6];
    }
  }

  /** A register column or reading table with an entry for every motor. */
  predicate Total<V>(m: map<Motor, V>)
  {
    forall x: Motor :: x in m
  }

  datatype Arm = Leader | Follower

  /** The order in which the dashboard visits the arms. */
  const ARMS: seq<Arm> := [Leader, Follower]

  /** LEADER_ARM_PORT and FOLLOWER_ARM_PORT as read from the environment. */
  datatype Ports = Ports(leader: Option<string>, follower: Option<string>)
  {
    function PortOf(arm: Arm): Option<string>
    {
      match arm
      case Leader => leader
      case Follower => follower
    }
  }

  /** Python truthiness of an optional port: unset and "" both mean "not configured". */
  predicate Configured(port: Option<string>)
  {
    port.Some? && port.value != ""
  }

  /** One register column (motor to raw value) laid out in MOTORS order: each motor's value sits at its bus id - 1. */
  function Column(values: map<Motor, int>): (col: seq<int>)
    requires Total(values)
    ensures |col| == |MOTORS|
    ensures forall x: Motor :: col[x.Id() - 1] == values[x]
  {
    seq(|MOTORS|, i requires 0 <= i < |MOTORS| => values[MOTORS[i]])
  }

  /** Entry i of a column is the value of the i-th motor of MOTORS. */
  lemma ColumnAt(values: map<Motor, int>, i: nat)
    requires Total(values) && i < |MOTORS|
    ensures Column(values)[i] == values[MOTORS[i]]
  {
  }

  function Min(a: int, b: int): int { if a <= b then a else b }

  function Max(a: int, b: int): int { if a >= b then a else b }

  /** `m = seed; for x in s: m = min(m, x)`: the least of the seed and all of s. */
  function MinFrom(seed: int, s: seq<int>): int
  {
    if s == [] then seed else Min(MinFrom(seed, s[..|s| - 1]), s[|s| - 1])
  }

  /** The min fold is a lower bound of the seed and of s, and is the seed or an element of s. */
  lemma {:induction false} MinFromBounds(seed: int, s: seq<int>)
    ensures MinFrom(seed, s) <= seed && forall i :: 0 <= i < |s| ==> MinFrom(seed, s) <= s[i]
    ensures MinFrom(seed, s) == seed || exists i :: 0 <= i < |s| && MinFrom(seed, s) == s[i]
  {
    if s != [] {
      var n := |s| - 1;
      MinFromBounds(seed, s[..n]);
      var m := MinFrom(seed, s[..n]);
      if m != seed && m <= s[n] {
        var j :| 0 <= j < n && m == s[..n][j];
        assert MinFrom(seed, s) == s[j];
      }
    }
  }

  /** `m = seed; for x in s: m = max(m, x)`: the greatest of the seed and all of s. */
  function MaxFrom(seed: int, s: seq<int>): int
  {
    if s == [] then seed else Max(MaxFrom(seed, s[..|s| - 1]), s[|s| - 1])
  }

  /** The max fold is an upper bound of the seed and of s, and is the seed or an element of s. */
  lemma {:induction false} MaxFromBounds(seed: int, s: seq<int>)
    ensures MaxFrom(seed, s) >= seed && forall i :: 0 <= i < |s| ==> MaxFrom(seed, s) >= s[i]
    ensures MaxFrom(seed, s) == seed || exists i :: 0 <= i < |s| && MaxFrom(seed, s) == s[i]
  {
    if s != [] {
      var n := |s| - 1;
      MaxFromBounds(seed, s[..n]);
      var m := MaxFrom(seed, s[..n]);
      if m != seed && m >= s[n] {
        var j :| 0 <= j < n && m == s[..n][j];
        assert MaxFrom(seed, s) == s[j];
      }
    }
  }

  /** One more step of the min fold. */
  lemma MinFromStep(seed: int, s: seq<int>, i: nat)
    requires i < |s|
    ensures MinFrom(seed, s[..i + 1]) == Min(MinFrom(seed, s[..i]), s[i])
  {
    assert s[..i + 1][..i] == s[..i];
  }

  /** One more step of the max fold. */
  lemma MaxFromStep(seed: int, s: seq<int>, i: nat)
    requires i < |s|
    ensures MaxFrom(seed, s[..i + 1]) == Max(MaxFrom(seed, s[..i]), s[i])
  {
    assert s[..i + 1][..i] == s[..i];
  }

  /** Python's `min(s)` on a non-empty sequence: an element of s no greater than any other. */
  function SeqMin(s: seq<int>): (m: int)
    requires |s| > 0
    ensures forall i :: 0 <= i < |s| ==> m <= s[i]
    ensures exists i :: 0 <= i < |s| && m == s[i]
  {
    MinFromBounds(s[0], s[1..]);
    MinFrom(s[0], s[1..])
  }

  /** Python's `max(s)` on a non-empty sequence: an element of s no smaller than any other. */
  function SeqMax(s: seq<int>): (m: int)
    requires |s| > 0
    ensures forall i :: 0 <= i < |s| ==> m >= s[i]
    ensures exists i :: 0 <= i < |s| && m == s[i]
  {
    MaxFromBounds(s[0], s[1..]);
    MaxFrom(s[0], s[1..])
  }

  /** `min` over a full motor column is some motor's value and no greater than any motor's. */
  lemma ColumnMinIsLeast(values: map<Motor, int>)
    requires Total(values)
    ensures forall x: Motor :: SeqMin(Column(values)) <= values[x]
    ensures exists x: Motor :: SeqMin(Column(values)) == values[x]
  {
    var col := Column(values);
    var i :| 0 <= i < |col| && SeqMin(col) == col[i];
    ColumnAt(values, i);
    forall x: Motor ensures SeqMin(col) <= values[x] {
      assert col[x.Id() - 1] == values[x];
    }
  }

  /** `max` over a full motor column is some motor's value and no smaller than any motor's. */
  lemma ColumnMaxIsGreatest(values: map<Motor, int>)
    requires Total(values)
    ensures forall x: Motor :: SeqMax(Column(values)) >= values[x]
    ensures exists x: Motor :: SeqMax(Column(values)) == values[x]
  {
    var col := Column(values);
    var i :| 0 <= i < |col| && SeqMax(col) == col[i];
    ColumnAt(values, i);
    forall x: Motor ensures SeqMax(col) >= values[x] {
      assert col[x.Id() - 1] == values[x];
    }
  }

  /** A seeded fold is the seed combined with the unseeded minimum. */
  lemma {:induction false} MinFromIsSeededMin(seed: int, s: seq<int>)
    requires |s| > 0
    ensures MinFrom(seed, s) == Min(seed, SeqMin(s))
  {
    MinFromBounds(seed, s);
    var m := MinFrom(seed, s);
    assert m == seed || exists i :: 0 <= i < |s| && m == s[i];
  }

  /** A seeded fold is the seed combined with the unseeded maximum. */
  lemma {:induction false} MaxFromIsSeededMax(seed: int, s: seq<int>)
    requires |s| > 0
    ensures MaxFrom(seed, s) == Max(seed, SeqMax(s))
  {
    MaxFromBounds(seed, s);
    var m := MaxFrom(seed, s);
    assert m == seed || exists i :: 0 <= i < |s| && m == s[i];
  }
}
