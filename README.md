# Rocketeer targeting and command sequencing, in Dafny

This project models the core of `rocketeer.py`, a driver for a USB missile launcher that pans, tilts and fires.
The core is three parts:

- **Primitives.** A move command is sent as one control transfer, followed by a timed wait and a STOP. A shot is a FIRE transfer with a stabilise wait before the volley and a reload wait after each shot. The LED is switched by its own report.
- **Coordinate translator.** It turns an absolute target `(x, y)` into at most one horizontal and one vertical timed pulse, at 50 ms per unit. It then records the new position.
- **Command sequencer.** It dispatches a named command, matching the name without regard to case. It also runs a command set: an ordered list of (command, value) steps, each from the state the previous step left.

The device never appears in the model. Only what it is sent matters. Each transfer and each wait is appended to an event trace, so every behaviour is an exact statement about three things:

- the current position;
- the stored coordinates record, which stands in for the `rocket_coordinates` file;
- the trace.

Modules:

- `Protocol` (`protocol.dfy`): the command bytes and the two device variants (Thunder and Original). It gives the framing of a command and of an LED setting into one control transfer, and `CommandOf`, which reads a command byte back from a transfer.
- `Motion` (`motion.dfy`): the trace each primitive leaves, namely a move, an LED setting and a clamped volley of shots.
- `Translator` (`translator.dfy`): the coordinates-to-pulses plan (`Plan`) and the position recorded afterwards (`NextPosition`). `Displace` is an independent reference semantics that says where a sequence of pulses moves the launcher.
- `Sequencer` (`sequencer.dfy`): the specification of `run_command` (`Run`) and of `run_command_set` (`RunSet`) as functions on a `State` of position, record and trace. It also holds the static table of command sets.
- `Rocketeer` (`rocketeer.dfy`): class `Launcher`. Its fields are the position, the record, the trace and the device variant. Its methods do in place what the Python procedures do, and each is proved equal to the specification above.
- `Wrappers` (`wrappers.dfy`): an `Option` type.

A transfer is recorded as its wValue and its data bytes. The wValue is 0 on a Thunder and 0x0200 on the original device. The request type (0x21), the request (0x09) and the index (0) never vary, so they are not recorded. A wait is recorded in integer milliseconds: `time.sleep(ms / 1000.0)` becomes `Wait(ms)`, `time.sleep(0.5)` becomes `Wait(500)` and `time.sleep(4.5)` becomes `Wait(4500)`.

One behaviour of the code that the model keeps: a command-set value that splits into three or more comma-separated pieces is skipped (rocketeer.py:257-260).

One that it does not model: a missing coordinates file makes `initCoordinates` raise (rocketeer.py:263), which ends the program. The model has no file; the constructor takes the stored pair as given (see "## Left out").

## Model

| member | source | states |
|---|---|---|
| Protocol.CommandPacket | rocketeer.py:158-162 | `send_cmd` framing: a Thunder gets the 8-byte report `[0x02, cmd, 0,0,0,0,0,0]` with wValue 0; the original device gets `[cmd]` with wValue 0x0200; reading the command back gives `cmd` |
| Protocol.CommandOfInverse | rocketeer.py:158-162 | a transfer reads back as command `cmd` exactly when it is the framing of `cmd` (both directions) |
| Protocol.CommandPacketInjective | rocketeer.py:158-162 | two commands are framed into the same transfer exactly when they are the same command |
| Protocol.LedPacket | rocketeer.py:164-168 | the LED transfer exists only on a Thunder, carries the level at byte 1 of an 8-byte report, and never reads back as a motion command |
| Motion.MoveEvents | rocketeer.py:170-173 | `send_move(cmd, ms)` is exactly three events: the `cmd` transfer, `Wait(ms)`, the STOP transfer |
| Motion.LedEvents | rocketeer.py:164-168 | `led` appends one transfer carrying the level on a Thunder and nothing on the original device; no LED event reads as a command |
| Motion.Shots | rocketeer.py:201-203 | the shot count lies in 1..4; a count in 1..4 is kept and any other becomes 1 |
| Motion.Volley | rocketeer.py:206-208 | `n` shots are `2n` events, alternately the FIRE transfer and `Wait(4500)` |
| Motion.VolleyCounts | rocketeer.py:206-208 | a volley of `n` shots holds exactly `n` FIRE transfers and no STOP |
| Motion.FireCounts | rocketeer.py:201-208 | a fire command starts with `Wait(500)`, has `1 + 2*Shots(count)` events, exactly `Shots(count)` FIRE transfers and no STOP |
| Motion.FireEvents | rocketeer.py:204-208 | no contract of its own: `Wait(500)` and then the volley of the clamped count; `FireCounts` and `RunFire` state what it holds |
| Translator.HorizontalPulse | rocketeer.py:222-232 | at most one horizontal pulse, none exactly when the x coordinates agree, a positive multiple of 50 ms long |
| Translator.VerticalPulse | rocketeer.py:223-238 | at most one vertical pulse, none exactly when the y coordinates agree, a positive multiple of 50 ms long |
| Translator.Plan | rocketeer.py:222-238 | at most two pulses, none exactly when the target is the current position, any horizontal pulse before any vertical one, each a positive multiple of 50 ms |
| Translator.PlanAxisRules | rocketeer.py:222-238 | with `dX = x - tx`: `dX < 0` gives RIGHT for `-dX*50` ms first, `dX > 0` gives LEFT for `dX*50` ms first, `dX = 0` gives no horizontal pulse; the same for y with UP, DOWN and the last pulse |
| Translator.NextPosition | rocketeer.py:240-249 | the recorded position is the target; an axis whose delta is zero keeps its previous value |
| Translator.PlanReachesTarget | rocketeer.py:222-249 | carrying out the plan, read as physical motion at 50 ms per unit, lands on the target, which is also the recorded position |
| Sequencer.Lower | rocketeer.py:177 | lower-casing keeps the length, leaves no upper-case ASCII letter, and changes only the upper-case letters, each by 32 |
| Sequencer.LowerIdempotent | rocketeer.py:177 | lower-casing twice is lower-casing once |
| Sequencer.Classify | rocketeer.py:177-251 | a name is unknown exactly when its lower-cased form is none of the thirteen command names; a direction is one of UP, DOWN, LEFT, RIGHT |
| Sequencer.LedLevel | rocketeer.py:196-200 | the LED level is 0 exactly when the value is 0, and 1 otherwise |
| Sequencer.PulseEvents | rocketeer.py:227-238 | one three-event move per pulse of the plan, so three events per pulse; `PulseEventsAppend` and `RunCoordinates` state how it composes and what the coordinates branch appends |
| Sequencer.Run | rocketeer.py:176-251 | a command only appends to the trace, and keeps the position equal to the record once they are equal |
| Sequencer.Exec | rocketeer.py:178-251 | each branch of the dispatch only appends to the trace, and keeps the position equal to the record once they are equal |
| Sequencer.RunIgnoresCase | rocketeer.py:177 | a command behaves the same under any capitalisation of its name |
| Sequencer.RunMove | rocketeer.py:178-185 | `right`, `left`, `up` and `down` append RIGHT, LEFT, UP and DOWN respectively, then `Wait(value)` and STOP, and change neither position nor record |
| Sequencer.RunZero | rocketeer.py:186-193 | `zero`, `park` and `reset` append DOWN/2000 ms/STOP then LEFT/8000 ms/STOP and set position and record to (0, 0) from any state |
| Sequencer.RunPause | rocketeer.py:194-195 | `pause` and `sleep` append only `Wait(value)` |
| Sequencer.RunLed | rocketeer.py:196-200 | `led` sends level 0 for value 0 and level 1 otherwise on a Thunder, nothing on the original device, and moves nothing |
| Sequencer.RunFire | rocketeer.py:201-208 | `fire` and `shoot` append `Wait(500)` and then the clamped count of FIRE-and-`Wait(4500)` pairs, with exactly that many FIRE transfers and no STOP, and do not move |
| Sequencer.RunCoordinates | rocketeer.py:209-249 | `coordinates` appends the plan's moves, at most six events, and sets both position and record to the target |
| Sequencer.RunCoordinatesHere | rocketeer.py:240-249 | targeting the current position appends nothing and keeps the position, but the record is still rewritten with it |
| Sequencer.RunUnknown | rocketeer.py:250-251 | an unknown name changes neither position, record nor trace |
| Sequencer.RunSet | rocketeer.py:254-260 | a command set only appends to the trace and keeps position equal to record once they are equal |
| Sequencer.RunStep | rocketeer.py:256-260 | one pass of the loop: like a command, a step only appends to the trace and keeps position equal to record once they are; `RunSetSplit` states how its value is split |
| Sequencer.RunSetAppend | rocketeer.py:255-260 | running two lists of steps one after the other equals running their concatenation, so each step sees the state the previous one left |
| Sequencer.RunSetFirst | rocketeer.py:255-260 | the first step runs from the initial state and the rest run from the state it leaves |
| Sequencer.RunSetSplit | rocketeer.py:256-260 | a step whose value is a number, or a text of one piece, runs the command with that piece and 0; a value of two pieces runs it with both; a value of three or more pieces is skipped; the rest runs from the state that leaves |
| Sequencer.ExecShift | rocketeer.py:178-251 | a branch run after extra earlier events does the same to position and record and appends the same events after them |
| Sequencer.RunStepShift | rocketeer.py:256-260 | the same for one step of a command set |
| Sequencer.RunTraceIndependent | rocketeer.py:176-251 | what a command does to position and record, and the events it appends, do not depend on the trace before it |
| Sequencer.RunSetTraceIndependent | rocketeer.py:254-260 | the same for a whole command set: its outcome is its outcome from an empty trace, with the earlier trace in front |
| Sequencer.RunSetSkipsInert | rocketeer.py:254-260 | a step with an unknown name or with more than two pieces does not stop the rest; the set runs as if that step were absent |
| Sequencer.CommandSets | rocketeer.py:59-89 | no contract of its own: the eight configured sets, `sequence` being the six steps of `SEQUENCE`; `TargetSets`, `SequenceSet` and `CommandSetsHaveNoInertStep` state what they do |
| Sequencer.CommandSetsHaveNoInertStep | rocketeer.py:59-89 | every step of every configured set names a known command and has one or two pieces, so no configured step is skipped |
| Sequencer.TargetSets | rocketeer.py:59-80 | each single-target command set is one `coordinates` step and ends at, and records, its target from any state |
| Sequencer.SequenceSteps | rocketeer.py:81-88 | the six steps of "sequence", from (0, 0) with an empty trace, end at (90, 15) with exactly the moves RIGHT 4250, UP 500, UP 250, RIGHT 250, each target followed by one shot |
| Sequencer.SequenceSet | rocketeer.py:81-88 | the "sequence" command set from (0, 0), after any earlier trace, ends at (90, 15), records it, appends exactly the moves RIGHT 4250, UP 500, UP 250, RIGHT 250 with one shot after each target, and sends exactly three FIRE transfers |
| Rocketeer.Launcher.constructor | rocketeer.py:262-270 | at start-up the position is the stored record and nothing has been sent |
| Rocketeer.Launcher.SendCmd | rocketeer.py:158-162 | appends exactly the framed command transfer |
| Rocketeer.Launcher.Led | rocketeer.py:164-168 | appends exactly the LED events of the device |
| Rocketeer.Launcher.Sleep | rocketeer.py:172 | appends exactly one wait |
| Rocketeer.Launcher.SendMove | rocketeer.py:170-173 | appends exactly command, wait, STOP; the position is outside its frame |
| Rocketeer.Launcher.UpdateCoordinates | rocketeer.py:272-280 | both the position in memory and the stored record become (x, y) |
| Rocketeer.Launcher.Fire | rocketeer.py:201-208 | the loop appends `Wait(500)` and then one FIRE and `Wait(4500)` per clamped shot |
| Rocketeer.Launcher.MoveTo | rocketeer.py:209-249 | appends the plan's moves from the old position and sets position and record to the target |
| Rocketeer.Launcher.RunCommand | rocketeer.py:176-251 | the new position, record and trace are those `Sequencer.Run` gives for the old state; position and record stay equal |
| Rocketeer.Launcher.RunCommandSet | rocketeer.py:254-260 | the loop leaves the state `Sequencer.RunSet` gives for the old state and the whole list; position and record stay equal |
| Rocketeer.SequenceFromOrigin | rocketeer.py:81-88 | a fresh launcher with stored record (0, 0) running "sequence" ends at (90, 15), records it, and has fired three times |

## Left out

- USB discovery and set-up (`setup_usb`, rocketeer.py:129-155), the device handle, and the `ctrl_transfer` call itself. These are foreign library I/O. A transfer is only appended to the trace, tagged with the device variant chosen at construction. The "device not found" failure is not modelled.
- Real sleeping. Each `time.sleep` becomes an integer-millisecond `Wait` event. A negative duration, which makes `time.sleep` raise, is recorded like any other wait. In the source, `send_move` has already sent the move command when that wait raises (rocketeer.py:170-173). STOP is then never sent, the motor keeps running, and the process ends. The model does not capture this.
- File I/O in `initCoordinates` and `updateCoordinates` (rocketeer.py:262-280). The file is a stored pair of integers, `record`. The constructor takes that record as a parameter. Opening, reading and writing the file, the crash when it is missing, and the parsing of its lines are not modelled.
- Command-line handling: `main` (rocketeer.py:282-305) and `usage` (rocketeer.py:106-126). `main` runs a command set when the name is in the table and otherwise runs the name as a single command, so a set name takes precedence over a command name. The model offers both operations separately.
- The printed messages ("Moving to 0,0", "Moving to coordinates", "Unknown command", "There is no LED on this device"). They are not part of the trace.
- Python 2 typing of command-set values. A step's value reaches `run_command` as text, and positions are sometimes stored as text. The model passes integers throughout, with these consequences:
  - A joined value such as `"85, 10"` is given as its integer pieces (`Joined([85, 10])`). The splitting of the text and the stripping of spaces by `int()` are not modelled.
  - As written, a text count in a command set compares as greater than every integer, so `("fire", 3)` in a set fires once.
  - A text value for `led` never equals 0, so it always turns the LED on.
  - A text duration for a move or a pause raises a TypeError. For a move, the command has already been sent, so STOP is never sent, the motor keeps running, and the process ends (rocketeer.py:170-173).
  - The model instead gives these steps the integer behaviour of a direct command.
- Sequencer.Lower: it lower-cases ASCII letters only, as a Python 2 byte string does. No other character is folded.
- The unused imports and the "stalk" mode. No code for them is present.
- Loss of atomicity between a move and the write of the new position when the process is killed. The model has no crash.
