# SO-101 arm telemetry and motor-test logic

This project models the decision-making parts of three scripts that drive a pair of SO-101 robot arms. Each arm is a "leader" or a "follower" with six Feetech motors on one serial bus. All the hardware (serial bus, camera, sockets, web server) is abstracted away, leaving the state changes and arithmetic around it.

- **`camera_web/app.py`, the dashboard server.**
  - Per arm, it keeps a record `{connected, bus, data}`.
    - `connect_robots` opens a bus for every arm that has a port configured.
    - `read_robot_data` polls each connected arm once. It reads five registers, builds a snapshot with the arm's minimum voltage and maximum temperature, or marks the arm disconnected when a read fails.
    - `reconnect` drops every bus and connects again.
    - `robot_data` publishes everything but the bus.
  - `find_available_port` picks the port the server listens on.
  - The page script's `getVoltageClass` and `getTempClass` colour the readings.
- **`monitor.py`, the console monitor.** Each refresh reads four registers. It folds the minimum voltage (seeded with 255) and the maximum temperature (seeded with 0) over the six motors, tags low motors, and prints a brown-out warning or a caution. A menu picks one arm or both.
- **`test_motors.py`, the interactive motor tester.**
  - An arm is chosen at a retry prompt. The arm is relaxed, and then commands are run until `q`: read, move one motor, sweep every motor, return to the configured pose, relax, and hold. Torque is switched off at the end.
  - The sweep clamps its targets to the encoder range 0..4095. Each motor gets three goal writes, the last of which returns it to where it started.

Files:

| file | contents |
|---|---|
| `wrappers.dfy` | `Option`, `Result` |
| `robot.dfy` | the six motors, their bus ids, the two arms and their ports, the min/max folds |
| `console.dfy` | `str.strip()` / `str.lower()` of typed lines |
| `telemetry.dfy` | the per-arm records of the dashboard, as a class `RobotState` |
| `dashboard.dfy` | the two colour classifiers |
| `server.dfy` | `find_available_port` |
| `motor_bus.dfy` | the motor bus as a class: a register file and a log of writes |
| `monitor.dfy` | `monitor` and `main` of the console monitor |
| `motor_test.dfy` | the motor tester |

Voltages are integer tenths of a volt throughout, as the bus reports them. The thresholds 6.0 V and 6.5 V are therefore 60 and 65.

A bus operation that can fail in the dashboard is a parameter:

- a connect attempt gives a success flag;
- each `sync_read` gives `Some(column)`, or `None` when it raises.

The scripts' bus (`MotorsBus`) holds one value per motor for every register. Each `sync_write` updates that register file and is also appended to a log, so a command's effect can be stated both as the exact writes it issues and as the registers it leaves.

## Model

| member | source | states |
|---|---|---|
| Robot.Motor.Id | camera_web/app.py:33-34 | a motor's bus id is its 1-based place in the motor list, and indexing the list at id - 1 gives the motor back |
| Robot.EveryMotorListed | camera_web/app.py:33 | the motor list names every motor of the arm |
| Robot.NamesDistinct | camera_web/app.py:33 | two motors with the same name are the same motor |
| Robot.Column | monitor.py:50-54 | a register column laid out in motor-list order has six entries, and each motor's value sits at its bus id - 1 |
| Robot.MinFromBounds | monitor.py:47-55 | the running minimum is at most the seed and every value seen, and equals the seed or one of the values |
| Robot.MaxFromBounds | monitor.py:48-56 | the running maximum is at least the seed and every value seen, and equals the seed or one of the values |
| Robot.MinFromStep | monitor.py:55 | one loop iteration takes the min of the accumulator and the next value |
| Robot.MaxFromStep | monitor.py:56 | one loop iteration takes the max of the accumulator and the next value |
| Robot.SeqMin | camera_web/app.py:116 | `min` of a non-empty sequence is one of its elements and no greater than any |
| Robot.SeqMax | camera_web/app.py:117 | `max` of a non-empty sequence is one of its elements and no smaller than any |
| Robot.ColumnMinIsLeast | camera_web/app.py:116 | `min` over a full motor column is some motor's value and no greater than any motor's |
| Robot.ColumnMaxIsGreatest | camera_web/app.py:117 | `max` over a full motor column is some motor's value and no smaller than any motor's |
| Robot.MinFromIsSeededMin | monitor.py:47-55 | after the loop, min_voltage is min(255, least of the readings) |
| Robot.MaxFromIsSeededMax | monitor.py:48-56 | after the loop, max_temp is max(0, greatest of the readings) |
| Console.Strip | test_motors.py:33 | the stripped line is a contiguous slice of the line that drops only whitespace (everything `str.isspace()` accepts, including 0x1C-0x1F) from either end, and neither starts nor ends with whitespace |
| Console.SeparatorBeforeChoiceStrips | test_motors.py:33-35 | a "1" typed after the separator 0x1C strips to "1" and so picks the leader |
| Console.WordIgnoresCase | test_motors.py:82 | a typed word lower-cases to a lower-case command word exactly when it has the same length and each letter matches in either case |
| Console.PaddedTokenStrips | monitor.py:85 | a choice typed with surrounding whitespace is read as the choice itself |
| Telemetry.BuildSnapshot | camera_web/app.py:98-119 | a snapshot is built exactly when all five reads return a value for every motor; it then has exactly the six motors, each with its five readings; min_voltage is the least motor voltage and max_temp the greatest temperature, both attained; the timestamp is the given time |
| Telemetry.PollArm | camera_web/app.py:95-122 | an arm that is not connected or has no bus is left alone; a complete read replaces its data and keeps bus and flag; a failed read only clears `connected`; connected implies bus is kept |
| Telemetry.ConnectArm | camera_web/app.py:78-88 | an arm without a configured port (unset or empty) is unchanged; otherwise `connected` becomes the connect outcome, a success stores a bus for that port, a failure keeps the old bus; data is never touched; connected implies bus is kept |
| Telemetry.TearDownArm | camera_web/app.py:467-475 | afterwards the arm has no bus and its data is kept; an arm that had a bus is disconnected, and none becomes connected |
| Telemetry.FailedReadKeepsData | camera_web/app.py:120-122 | after a failed read, data and bus are exactly as before and the arm is disconnected |
| Telemetry.ReadNeverConnects | camera_web/app.py:95-122 | a polling tick never sets `connected` and keeps connected implies bus |
| Telemetry.SnapshotMinExample | camera_web/app.py:116 | for readings 72, 74, 70, 75, 73, 71 the snapshot's min_voltage is 70 |
| Telemetry.SnapshotMinIsLeastReading | camera_web/app.py:116 | a summarised snapshot's min_voltage equals Python's `min` of the voltage column its motors were read from |
| Telemetry.RunKeepsArmOk | camera_web/app.py:40-43 | over any sequence of ticks, connects and reconnects from the initial record, connected implies bus in every state |
| Telemetry.UnconfiguredArmStaysIdle | camera_web/app.py:78-79 | an arm without a configured port keeps its initial record forever: never connected, no bus, no data |
| Telemetry.ArmsListed | camera_web/app.py:94 | the loops over "leader", "follower" visit every arm |
| Telemetry.RobotState.constructor | camera_web/app.py:40-43 | both arms start disconnected with no bus and no data |
| Telemetry.RobotState.ConnectRobots | camera_web/app.py:75-88 | each arm becomes ConnectArm of its old record, its port and its connect outcome; connected implies bus is kept |
| Telemetry.RobotState.ReadRobotData | camera_web/app.py:91-122 | each arm's new record is the polled record of its old one with that arm's reads; connected implies bus is kept |
| Telemetry.RobotState.Reconnect | camera_web/app.py:465-479 | each arm is torn down and then connected again, and the status is "ok" |
| Telemetry.RobotState.RobotData | camera_web/app.py:450-461 | the view has both arms, each with its connected flag and data, and no bus |
| Dashboard.VoltageClass | camera_web/app.py:298-302 | danger below 6.0 V, warning from 6.0 V up to but not including 6.5 V, good from 6.5 V: exactly one holds |
| Dashboard.TempClass | camera_web/app.py:304-308 | danger above 60, warning above 45 up to 60, good at 45 or below: exactly one holds |
| Dashboard.SummaryShowsWorstCard | camera_web/app.py:359-367 | the summary's voltage (temperature) class is the class of some motor card and at least as severe as every card's |
| Server.FindAvailablePort | camera_web/app.py:482-491 | returns the first bindable port of [start, start + attempts), every earlier port being taken; fails with the range only when every port in it is taken; a port outside 0..65535 reached before a free one raises out of the loop |
| Server.BusyPortsExample | camera_web/app.py:482-491 | with 5001 to 5003 taken the server gets 5004; with no attempts it fails with the empty range 5001-5001 |
| MotorBus.AllMotors | test_motors.py:66 | `{name: v for name in MOTOR_NAMES}` has every motor, each with value v |
| MotorBus.ApplyWrite | test_motors.py:115 | a write keeps every register holding one value per motor |
| MotorBus.ApplyWritesAppend | test_motors.py:69-180 | applying two batches of writes in turn is applying their concatenation |
| MotorBus.ApplyWritesWellFormed | test_motors.py:69-180 | any sequence of writes keeps every register holding one value per motor |
| MotorBus.ApplyWritesUntouched | test_motors.py:107-124 | a register that no write names keeps its values |
| MotorBus.MotorsBus.constructor | test_motors.py:47-54 | a fresh bus over the six motors with an empty write log |
| MotorBus.MotorsBus.SyncReadAll | monitor.py:36-39 | reading a register gives its value for every motor |
| MotorBus.MotorsBus.SyncRead | test_motors.py:102 | reading a register for some motors gives exactly those motors, each with its current value |
| MotorBus.MotorsBus.SyncWrite | test_motors.py:115 | the write is appended to the log, the written motors of that register take the new values, and no other register changes |
| Monitor.AlertFor | monitor.py:68-71 | brown-out warning iff the minimum is below 60, caution iff it is from 60 up to 64, nothing from 65 on; never both |
| Monitor.LinesAt | monitor.py:50-63 | one row per motor in motor-list order, with that motor's four readings, tagged " LOW!" exactly when its voltage is below 60 |
| Monitor.SummaryStep | monitor.py:50-63 | one pass of the per-motor loop appends that motor's row and takes one min step and one max step with its voltage and temperature |
| Monitor.Summarise | monitor.py:47-71 | the rows, min_voltage as the fold seeded with 255 over the voltages, max_temp as the fold seeded with 0 over the temperatures, and the alert for min_voltage |
| Monitor.MonitorTick | monitor.py:35-71 | one refresh reports on the bus's present registers as Summarise does, and writes nothing (no `modifies`) |
| Monitor.BrownOutIffSomeMotorLow | monitor.py:60-69 | the summary's brown-out warning appears exactly when some motor's row is tagged low |
| Monitor.SummariseArm | monitor.py:105-115 | the "both" line of an arm gives the least voltage and greatest temperature of its motors, both attained, and LOW VOLTAGE exactly when below 6.0 V |
| Monitor.ChooseMode | monitor.py:85-126 | stripped "1", "2" and "3" choose leader, follower and both; every other line is invalid |
| Monitor.BusesOpened | monitor.py:87-101 | one arm's bus for "1" or "2", both buses in leader-follower order for "3", none for an invalid choice |
| Monitor.InvalidChoiceOpensNoBus | monitor.py:125-126 | no bus is created exactly when the stripped choice is not "1", "2" or "3" |
| MotorTest.PosPlus | test_motors.py:109 | the forward target is min(4095, position + 300): at most both, equal to one of them, and not below a position within range |
| MotorTest.PosMinus | test_motors.py:110 | the backward target is max(0, position - 300): at least both, equal to one of them, and not above a non-negative position |
| MotorTest.SweepTargetsInRange | test_motors.py:109-110 | from a position in 0..4095 both targets are in 0..4095 and straddle it |
| MotorTest.SweepWrites | test_motors.py:107-124 | the sweep issues three writes per motor |
| MotorTest.SweepWritesAt | test_motors.py:107-124 | the i-th motor's three writes are the i-th block: +300 clamped, -300 clamped, then its start, each to that motor alone |
| MotorTest.RestoredAt | test_motors.py:115-123 | after sweeping some motors, each swept motor's goal is its start and every other goal is as before |
| MotorTest.ApplySweep | test_motors.py:114-123 | one motor's three writes leave its goal at its start and change nothing else |
| MotorTest.SweepWritesEffect | test_motors.py:107-124 | the sweeps change only the goal register |
| MotorTest.SweepEndsWhereItStarted | test_motors.py:107-124 | after the sweep each swept motor's goal is its starting position, other motors' goals and all other registers are unchanged |
| MotorTest.RestoredAll | test_motors.py:102-124 | sweeping every motor leaves the whole goal column equal to the positions read before the sweep |
| MotorTest.SelectMotor | test_motors.py:163-165 | the number n is accepted iff 1 <= n <= 6 and selects the motor whose id is n |
| MotorTest.MoveDecision | test_motors.py:162-180 | a move happens iff the motor number is 1..6 and the target is a number in 0..4095; an out-of-range number is refused as an invalid motor, an out-of-range target as out of range |
| MotorTest.ParseCommand | test_motors.py:82-157 | the stripped, lower-cased word selects its command: "q" quit, "r" read, "s" sequence, "return", "relax", "hold", "m" move with the typed values, each iff that word; any other word does nothing |
| MotorTest.TypedRelaxParses | test_motors.py:82-148 | " Relax" followed by a newline is read as the "relax" command |
| MotorTest.ApplyAllMotors | test_motors.py:145-155 | writing one value to every motor in two registers sets both columns to that value |
| MotorTest.RelaxAndHoldSetEveryMotor | test_motors.py:145-155 | "relax" sets torque and lock of every motor to 0, "hold" to 1, and changes nothing else |
| MotorTest.UntilQuit | test_motors.py:84-85 | the commands run are the longest prefix without "q", and the next command, if any, is "q" |
| MotorTest.QuitPrefix | test_motors.py:84-85 | the loop that stops at the first "q" ran exactly the commands before it |
| MotorTest.SetTorqueAndLock | test_motors.py:145-155 | torque then lock are written with v for every motor, and only those two registers change |
| MotorTest.ReturnToDefault | test_motors.py:128-143 | torque on for every motor, then the configured pose as goals; only those two registers change |
| MotorTest.MoveMotor | test_motors.py:157-180 | the outcome is MoveDecision of the typed values; a move writes torque on then the goal for that motor alone, anything else writes nothing |
| MotorTest.RunSequence | test_motors.py:93-126 | the "s" writes in order; afterwards torque is on everywhere, each goal equals the position read before the sweep, and no other register changes |
| MotorTest.SweepAll | test_motors.py:107-124 | the motors are swept in motor-list order, each from its position before the loop |
| MotorTest.SweepMotor | test_motors.py:108-124 | the three writes of one motor's sweep, in order; only that motor's goal changes, back to its start |
| MotorTest.Execute | test_motors.py:87-180 | one command's writes and their effect on the registers; present positions are never written |
| MotorTest.MoveEffect | test_motors.py:172-173 | the "m" writes set the chosen motor's torque to 1 and goal to the target, nothing else |
| MotorTest.ReturnEffect | test_motors.py:132-135 | the "return" writes set torque on everywhere and the goals to the configured pose |
| MotorTest.SequenceEffect | test_motors.py:102-124 | the "s" writes leave torque on everywhere and every goal at its present position |
| MotorTest.RunSession | test_motors.py:64-183 | relax, the commands before the first "q", then torque off if "q" came: the log and the final registers are exactly those writes applied in order, and after "q" every motor's torque is off |
| MotorTest.DisableTorque | test_motors.py:182-183 | torque off for every motor, nothing else changes |
| MotorTest.RunCommands | test_motors.py:69-180 | the loop stops exactly at the first "q", having issued the writes of the commands before it |
| MotorTest.ArmChoice | test_motors.py:33-39 | stripped "1" is the leader, "2" the follower, anything else no choice |
| MotorTest.SelectArm | test_motors.py:26-39 | prompts until a line reads "1" or "2" and returns that arm with its port; every line before it was refused; when the input runs out first, every line was refused |

## Left out

- Threads and locks (`robot_lock`, `camera_lock`, the polling thread, the threaded server): each dashboard operation is atomic in the model.
- The camera, frame capture, colour conversion, JPEG encoding and the frame stream: these are calls into OpenCV and the robot library.
- Flask routing, the HTML page, JSON serialisation and `time.time()`: the page is reduced to its two classifiers, `robot_data` to the view it returns, and the timestamp is a parameter.
- The float division `voltage / 10`: voltages stay in integer tenths, and the page's 6.0 V and 6.5 V thresholds are 60 and 65.
- The socket bind of `find_available_port`: it is the set of occupied ports.
- Connecting a bus, each `sync_read` of the dashboard, and the disconnect in `reconnect`: these are outcomes given as parameters. A failed disconnect is ignored by the code, so it is not modelled.
- `input()`, `print`, `time.sleep`, the `.env` and `config.yaml` loading: typed lines and the configured pose are parameters, and printed text is reduced to what decides behaviour (row tags, the alert, the outcome of "m").
- Exceptions from the bus in `monitor.py` and `test_motors.py`: a failing read or write would stop those scripts. The model's bus never fails.
- Ctrl+C and the endless `while True` of `monitor` and of the "both" mode: one refresh is modelled (`MonitorTick`, `SummariseArm`).
- The motors' physical motion: a goal write does not change the present position.
- Console.Lower: `str.lower()` is modelled on ASCII letters only; other letters are left as they are. (`str.strip()` removes every character `str.isspace()` accepts.)
- MotorTest.ReturnToDefault: the configured pose is a map over the six motors. Extra keys in the configuration's `default_position` cannot be represented, and a missing key (a KeyError when it is printed) is excluded by the precondition.
- MotorBus.MotorsBus.Valid: the class invariant does not tie the register file to the initial registers through the whole log. Instead, each operation and the whole session state their registers as the log's writes applied to the registers before the call.
- An arm that fails a read stays disconnected until `connect_robots` or `reconnect`: `read_robot_data` skips disconnected arms (camera_web/app.py:95), so no later tick brings it back.
- The other scripts of the repository (dataset analysis, plotting, inference, teleoperation, calibration, relax, reset) are not part of this model.
