/**
 * The command sequencer as a specification: what one named command does to
 * the launcher's state (rocketeer.py:176-251), what a command set does
 * step by step (254-260), and the statically configured command sets (59-89).
 */
module Sequencer {
  import opened Wrappers
  import opened Protocol
  import opened Motion
  import opened Translator

  // The fixed recovery sequence of `zero`: down, then left, long enough to reach the corner.
  const ZERO_DOWN_MS := 2000
  const ZERO_LEFT_MS := 8000

  /**
   * Everything a command can change: the logical position, the stored
   * record standing in for the coordinates file, and the trace of events
   * sent to the device so far.
   */
  datatype State = State(pos: Position, record: Position, trace: seq<Event>)

  predicate IsUpper(c: char)
  {
    'A' <= c <= 'Z'
  }

  /** ASCII lower-casing, as a byte string's `lower()` does. */
  function Lower(s: string): (r: string)
    ensures |r| == |s|
    ensures forall i :: 0 <= i < |r| ==> !IsUpper(r[i])
    ensures forall i :: 0 <= i < |r| ==>
      if IsUpper(s[i]) then r[i] as int == s[i] as int + 32 else r[i] == s[i]
  {
    seq(|s|, i requires 0 <= i < |s| => if IsUpper(s[i]) then (s[i] as int + 32) as char else s[i])
  }

  /** Lower-casing a name that is already lower-case changes nothing. */
  lemma LowerFixesLowerCase(s: string)
    requires forall i :: 0 <= i < |s| ==> !IsUpper(s[i])
    ensures Lower(s) == s
  {
    assert forall i :: 0 <= i < |s| ==> Lower(s)[i] == s[i];
  }

  lemma LowerIdempotent(s: string)
    ensures Lower(Lower(s)) == Lower(s)
  {
    LowerFixesLowerCase(Lower(s));
  }

  /** What a command name selects. */
  datatype Command = Move(dir: byte) | Zero | Pause | Led | Fire | Coordinates | Unknown

  const KNOWN_NAMES: set<string> :=
    {"right", "left", "up", "down", "zero", "park", "reset", "pause", "sleep", "led", "fire", "shoot", "coordinates"}

  /** The branch `run_command` takes for a name, compared after lower-casing. */
  function Classify(name: string): (c: Command)
    ensures c == Unknown <==> Lower(name) !in KNOWN_NAMES
    ensures c.Move? ==> c.dir in {UP, DOWN, LEFT, RIGHT}
  {
    var command := Lower(name);
    if command == "right" then Move(RIGHT)
    else if command == "left" then Move(LEFT)
    else if command == "up" then Move(UP)
    else if command == "down" then Move(DOWN)
    else if command == "zero" || command == "park" || command == "reset" then Zero
    else if command == "pause" || command == "sleep" then Pause
    else if command == "led" then Led
    else if command == "fire" || command == "shoot" then Fire
    else if command == "coordinates" then Coordinates
    else Unknown
  }

  /** The level `led` is given: 0 for a value of 0, 1 for anything else. */
  function LedLevel(value: int): (level: byte)
    ensures level == 0 <==> value == 0
    ensures level <= 1
  {
    if value == 0 then 0x00 else 0x01
  }

  /** The moves a plan turns into, one `send_move` per pulse. */
  function PulseEvents(v: Variant, plan: seq<Pulse>): (r: seq<Event>)
    ensures |r| == 3 * |plan|
    decreases |plan|
  {
    if plan == [] then [] else MoveEvents(v, plan[0].dir, plan[0].ms) + PulseEvents(v, plan[1..])
  }

  /** The moves of two plans one after the other are the moves of their concatenation. */
  lemma {:induction false} PulseEventsAppend(v: Variant, a: seq<Pulse>, b: seq<Pulse>)
    ensures PulseEvents(v, a + b) == PulseEvents(v, a) + PulseEvents(v, b)
    decreases |a|
  {
    if a == [] {
      assert a + b == b;
    } else {
      assert (a + b)[1..] == a[1..] + b;
      PulseEventsAppend(v, a[1..], b);
    }
  }

  /**
   * `run_command(name, value, value2)` on device `v` from state `s`. It only
   * ever appends to the trace, and it keeps the position and the record
   * equal once they are.
   */
  function Run(v: Variant, s: State, name: string, value: int, value2: int): (r: State)
    ensures s.trace <= r.trace
    ensures s.pos == s.record ==> r.pos == r.record
  {
    Exec(v, s, Classify(name), value, value2)
  }

  /** The branch of `run_command` that command `c` selects. */
  function Exec(v: Variant, s: State, c: Command, value: int, value2: int): (r: State)
    ensures s.trace <= r.trace
    ensures s.pos == s.record ==> r.pos == r.record
  {
    match c
    case Move(dir) => s.(trace := s.trace + MoveEvents(v, dir, value))
    case Zero =>
      State(ORIGIN, ORIGIN, s.trace + MoveEvents(v, DOWN, ZERO_DOWN_MS) + MoveEvents(v, LEFT, ZERO_LEFT_MS))
    case Pause => s.(trace := s.trace + [Wait(value)])
    case Led => s.(trace := s.trace + LedEvents(v, LedLevel(value)))
    case Fire => s.(trace := s.trace + FireEvents(v, value))
    case Coordinates =>
      var target := Position(value, value2);
      var p := NextPosition(s.pos, target);
      State(p, p, s.trace + PulseEvents(v, Plan(s.pos, target)))
    case Unknown => s
  }

  /** Command names are matched without regard to case. */
  lemma RunIgnoresCase(v: Variant, s: State, name: string, value: int, value2: int)
    ensures Classify(name) == Classify(Lower(name))
    ensures Run(v, s, name, value, value2) == Run(v, s, Lower(name), value, value2)
  {
    LowerIdempotent(name);
  }

  /**
   * `right`, `left`, `up` and `down` send RIGHT, LEFT, UP and DOWN
   * respectively, then wait for the value and send STOP; position and record
   * are left alone.
   */
  lemma RunMove(v: Variant, s: State, name: string, value: int, value2: int)
    requires Lower(name) in {"right", "left", "up", "down"}
    ensures var dir := if Lower(name) == "right" then RIGHT
                       else if Lower(name) == "left" then LEFT
                       else if Lower(name) == "up" then UP
                       else DOWN;
      Run(v, s, name, value, value2) ==
      s.(trace := s.trace + [CommandPacket(v, dir), Wait(value), CommandPacket(v, STOP)])
  {
  }

  /**
   * `zero`, `park` and `reset` append down 2000 ms and left 8000 ms, each
   * ending in STOP, and then put both position and record at (0, 0),
   * whatever they were.
   */
  lemma RunZero(v: Variant, s: State, name: string, value: int, value2: int)
    requires Lower(name) in {"zero", "park", "reset"}
    ensures var r := Run(v, s, name, value, value2);
      r.pos == ORIGIN && r.record == ORIGIN &&
      r.trace == s.trace + [CommandPacket(v, DOWN), Wait(2000), CommandPacket(v, STOP),
                            CommandPacket(v, LEFT), Wait(8000), CommandPacket(v, STOP)]
  {
  }

  /** `pause` and `sleep` append one wait and send nothing. */
  lemma RunPause(v: Variant, s: State, name: string, value: int, value2: int)
    requires Lower(name) in {"pause", "sleep"}
    ensures Run(v, s, name, value, value2) == s.(trace := s.trace + [Wait(value)])
  {
  }

  /** `led` sends level 0 for a value of 0 and level 1 otherwise, and only on a Thunder. */
  lemma RunLed(v: Variant, s: State, name: string, value: int, value2: int)
    requires Lower(name) == "led"
    ensures var r := Run(v, s, name, value, value2);
      r.pos == s.pos && r.record == s.record &&
      r.trace == s.trace + (if v == Thunder then [Packet(0, Report(LED_REPORT, if value == 0 then 0 else 1))] else [])
  {
  }

  /**
   * `fire` and `shoot` append the stabilise wait and then, for the clamped
   * count, FIRE and the reload wait per shot; no STOP, no change of position.
   */
  lemma RunFire(v: Variant, s: State, name: string, value: int, value2: int)
    requires Lower(name) in {"fire", "shoot"}
    ensures var r := Run(v, s, name, value, value2); var added := r.trace[|s.trace|..];
      r.pos == s.pos && r.record == s.record &&
      added == [Wait(500)] + Volley(v, Shots(value)) &&
      multiset(added)[CommandPacket(v, FIRE)] == Shots(value) &&
      multiset(added)[CommandPacket(v, STOP)] == 0
  {
    RunFireAppends(v, s, name, value, value2);
    AppendedPart(s.trace, FireEvents(v, value));
    FireCounts(v, value);
  }

  lemma RunFireAppends(v: Variant, s: State, name: string, value: int, value2: int)
    requires Lower(name) in {"fire", "shoot"}
    ensures Run(v, s, name, value, value2) == s.(trace := s.trace + FireEvents(v, value))
  {
    assert Classify(name) == Fire;
  }

  /**
   * `coordinates` appends the plan's moves (at most one horizontal, then at
   * most one vertical) and then sets position and record to the target.
   */
  lemma RunCoordinates(v: Variant, s: State, name: string, value: int, value2: int)
    requires Lower(name) == "coordinates"
    ensures var r := Run(v, s, name, value, value2); var target := Position(value, value2);
      r.pos == target && r.record == target &&
      r.trace == s.trace + PulseEvents(v, Plan(s.pos, target)) &&
      |r.trace| <= |s.trace| + 6
  {
  }

  /** Targeting the current position sends nothing, keeps the position, and still rewrites the record. */
  lemma RunCoordinatesHere(v: Variant, s: State, name: string)
    requires Lower(name) == "coordinates"
    ensures Run(v, s, name, s.pos.x, s.pos.y) == s.(record := s.pos)
  {
  }

  /** An unknown name changes nothing at all. */
  lemma RunUnknown(v: Variant, s: State, name: string, value: int, value2: int)
    requires Lower(name) !in KNOWN_NAMES
    ensures Run(v, s, name, value, value2) == s
  {
  }

  /**
   * The value of a command-set step: a number, or a comma-joined text whose
   * pieces are given here already converted to integers.
   */
  datatype StepValue = Scalar(n: int) | Joined(parts: seq<int>)

  datatype Step = Step(command: string, value: StepValue)

  /** The pieces `str(value).split(',')` yields: a number has no comma, so it is one piece. */
  function Pieces(value: StepValue): seq<int>
  {
    match value
    case Scalar(n) => [n]
    case Joined(parts) => parts
  }

  /** The arguments a step runs with: its one piece and 0, or its two pieces; none for any other count. */
  function Arguments(value: StepValue): Option<(int, int)>
  {
    var values := Pieces(value);
    if |values| == 1 then Some((values[0], 0))
    else if |values| == 2 then Some((values[0], values[1]))
    else None
  }

  /** One step of a command set. Like a command, it only appends and keeps position and record equal. */
  function RunStep(v: Variant, s: State, step: Step): (r: State)
    ensures s.trace <= r.trace
    ensures s.pos == s.record ==> r.pos == r.record
  {
    match Arguments(step.value)
    case Some((a, b)) => Run(v, s, step.command, a, b)
    case None => s
  }

  /** A step that has no effect: an unknown name, or a value of more than two pieces. */
  predicate Inert(step: Step)
  {
    Classify(step.command) == Unknown || Arguments(step.value).None?
  }

  /**
   * `run_command_set(steps)`: the steps in order, each from the state the
   * previous one left. Like every command, it only appends to the trace and
   * keeps position and record equal once they are.
   */
  function RunSet(v: Variant, s: State, steps: seq<Step>): (r: State)
    ensures s.trace <= r.trace
    ensures s.pos == s.record ==> r.pos == r.record
    decreases |steps|
  {
    if steps == [] then s else RunStep(v, RunSet(v, s, steps[..|steps| - 1]), steps[|steps| - 1])
  }

  /** Running two lists of steps one after the other is running their concatenation. */
  lemma {:induction false} RunSetAppend(v: Variant, s: State, a: seq<Step>, b: seq<Step>)
    ensures RunSet(v, s, a + b) == RunSet(v, RunSet(v, s, a), b)
    decreases |b|
  {
    if b == [] {
      assert a + b == a;
    } else {
      var b' := b[..|b| - 1];
      assert (a + b)[..|a + b| - 1] == a + b';
      assert (a + b)[|a + b| - 1] == b[|b| - 1];
      RunSetAppend(v, s, a, b');
    }
  }

  /** The first step runs from the initial state and the rest from the state it leaves. */
  lemma RunSetFirst(v: Variant, s: State, step: Step, rest: seq<Step>)
    ensures RunSet(v, s, [step] + rest) == RunSet(v, RunStep(v, s, step), rest)
  {
    RunSetAppend(v, s, [step], rest);
    assert [step][..0] == [];
  }

  /**
   * How a step's value is split before it runs: a number, or a text of one
   * piece, runs the command with that piece and 0; a value of two pieces runs
   * it with both; a value
   * of three or more pieces is skipped and the next step runs from the same
   * state.
   */
  lemma RunSetSplit(v: Variant, s: State, command: string, n: int, a: int, b: int, parts: seq<int>, rest: seq<Step>)
    ensures RunSet(v, s, [Step(command, Scalar(n))] + rest) == RunSet(v, Run(v, s, command, n, 0), rest)
    ensures RunSet(v, s, [Step(command, Joined([n]))] + rest) == RunSet(v, Run(v, s, command, n, 0), rest)
    ensures RunSet(v, s, [Step(command, Joined([a, b]))] + rest) == RunSet(v, Run(v, s, command, a, b), rest)
    ensures |parts| >= 3 ==> RunSet(v, s, [Step(command, Joined(parts))] + rest) == RunSet(v, s, rest)
  {
    RunSetFirst(v, s, Step(command, Scalar(n)), rest);
    RunSetFirst(v, s, Step(command, Joined([n])), rest);
    RunSetFirst(v, s, Step(command, Joined([a, b])), rest);
    RunSetFirst(v, s, Step(command, Joined(parts)), rest);
  }

  /**
   * A command run after more events `t` does the same to position and record
   * and appends the same events: what it does depends on the position, not on
   * the trace before it.
   */
  lemma ExecShift(v: Variant, t: seq<Event>, m: State, c: Command, value: int, value2: int)
    ensures var r := Exec(v, m, c, value, value2);
      Exec(v, m.(trace := t + m.trace), c, value, value2) == r.(trace := t + r.trace)
  {
    var e := match c
      case Move(dir) => MoveEvents(v, dir, value)
      case Zero => MoveEvents(v, DOWN, ZERO_DOWN_MS) + MoveEvents(v, LEFT, ZERO_LEFT_MS)
      case Pause => [Wait(value)]
      case Led => LedEvents(v, LedLevel(value))
      case Fire => FireEvents(v, value)
      case Coordinates => PulseEvents(v, Plan(m.pos, Position(value, value2)))
      case Unknown => [];
    assert Exec(v, m, c, value, value2).trace == m.trace + e;
    assert Exec(v, m.(trace := t + m.trace), c, value, value2).trace == (t + m.trace) + e;
    AppendAssociative(t, m.trace, e);
  }

  lemma AppendedPart(a: seq<Event>, b: seq<Event>)
    ensures (a + b)[|a|..] == b
  {
  }

  lemma AppendAssociative(a: seq<Event>, b: seq<Event>, c: seq<Event>)
    ensures (a + b) + c == a + (b + c)
  {
  }

  /** The outcome of a named command is its outcome from an empty trace, after the earlier trace. */
  lemma RunTraceIndependent(v: Variant, s: State, name: string, value: int, value2: int)
    ensures var r0 := Run(v, s.(trace := []), name, value, value2);
      Run(v, s, name, value, value2) == r0.(trace := s.trace + r0.trace)
  {
    ExecShift(v, s.trace, s.(trace := []), Classify(name), value, value2);
    assert s.trace + [] == s.trace;
    assert s.(trace := []).(trace := s.trace + []) == s;
  }

  /** A step run after more events `t` gives the same outcome, after those events. */
  lemma RunStepShift(v: Variant, t: seq<Event>, m: State, step: Step)
    ensures var r := RunStep(v, m, step);
      RunStep(v, m.(trace := t + m.trace), step) == r.(trace := t + r.trace)
  {
    match Arguments(step.value)
    case None =>
    case Some((a, b)) =>
      ExecShift(v, t, m, Classify(step.command), a, b);
  }

  /** The same for a whole command set: its outcome is the outcome from an empty trace, after the earlier trace. */
  lemma {:induction false} RunSetTraceIndependent(v: Variant, s: State, steps: seq<Step>)
    ensures var r0 := RunSet(v, s.(trace := []), steps);
      RunSet(v, s, steps) == r0.(trace := s.trace + r0.trace)
    decreases |steps|
  {
    if steps == [] {
      assert s.trace + [] == s.trace;
    } else {
      var init, last := steps[..|steps| - 1], steps[|steps| - 1];
      var m0 := RunSet(v, s.(trace := []), init);
      RunSetTraceIndependent(v, s, init);
      RunStepShift(v, s.trace, m0, last);
    }
  }

  /** A step with no effect does not stop the steps after it: the set runs as if it were not there. */
  lemma RunSetSkipsInert(v: Variant, s: State, before: seq<Step>, bad: Step, after: seq<Step>)
    requires Inert(bad)
    ensures RunSet(v, s, before + [bad] + after) == RunSet(v, s, before + after)
  {
    var mid := RunSet(v, s, before);
    RunSetAppend(v, s, before + [bad], after);
    RunSetAppend(v, s, before, [bad]);
    assert [bad][..0] == [];
    assert RunStep(v, mid, bad) == mid;
    RunSetAppend(v, s, before, after);
  }

  /** The statically configured command sets. */
  function CommandSets(): map<string, seq<Step>>
  {
    map[
      "paco" := [Step("coordinates", Joined([0, 0]))],
      "moises" := [Step("coordinates", Joined([85, 15]))],
      "fran" := [Step("coordinates", Joined([90, 15]))],
      "pedro" := [Step("coordinates", Joined([22, 9]))],
      "roberto" := [Step("coordinates", Joined([40, 5]))],
      "franco" := [Step("coordinates", Joined([85, 10]))],
      "pablo" := [Step("coordinates", Joined([102, 15]))],
      "sequence" := SEQUENCE
    ]
  }

  /** The "sequence" set: three targets, each followed by one shot. */
  const SEQUENCE: seq<Step> := [
    Step("coordinates", Joined([85, 10])),
    Step("fire", Scalar(1)),
    Step("coordinates", Joined([85, 15])),
    Step("fire", Scalar(1)),
    Step("coordinates", Joined([90, 15])),
    Step("fire", Scalar(1))
  ]

  /**
   * Each single-target command set ends at its target, from wherever the
   * launcher was, and records it.
   */
  lemma TargetSets(v: Variant, s: State, name: string)
    requires name in CommandSets() && name != "sequence"
    ensures var steps := CommandSets()[name];
      |steps| == 1 && steps[0].value.Joined? && |steps[0].value.parts| == 2 &&
      var target := Position(steps[0].value.parts[0], steps[0].value.parts[1]);
      RunSet(v, s, steps).pos == target && RunSet(v, s, steps).record == target
  {
    var steps := CommandSets()[name];
    assert |steps| == 1 && steps[0].command == "coordinates" && steps[0].value.Joined?
      && |steps[0].value.parts| == 2;
    SingleCoordinatesSet(v, s, steps);
  }

  /** A set made of one two-piece "coordinates" step ends at that target and records it. */
  lemma SingleCoordinatesSet(v: Variant, s: State, steps: seq<Step>)
    requires |steps| == 1 && steps[0].command == "coordinates" && steps[0].value.Joined?
    requires |steps[0].value.parts| == 2
    ensures var target := Position(steps[0].value.parts[0], steps[0].value.parts[1]);
      RunSet(v, s, steps).pos == target && RunSet(v, s, steps).record == target
  {
    var parts := steps[0].value.parts;
    assert steps[0] == Step("coordinates", Joined([parts[0], parts[1]]));
    RunSetLast(v, s, steps);
    assert steps[..0] == [];
    CoordinatesStep(v, s, parts[0], parts[1]);
  }

  /** Every step of every configured command set names a known command and has one or two pieces, so none is skipped. */
  lemma CommandSetsHaveNoInertStep(name: string, i: int)
    requires name in CommandSets() && 0 <= i < |CommandSets()[name]|
    ensures !Inert(CommandSets()[name][i])
  {
    LowerFixesLowerCase("coordinates");
    LowerFixesLowerCase("fire");
    assert Classify("coordinates") == Coordinates;
    assert Classify("fire") == Fire;
  }

  /** A "coordinates" step with two pieces runs the coordinates command. */
  lemma CoordinatesStep(v: Variant, s: State, tx: int, ty: int)
    ensures var target := Position(tx, ty);
      RunStep(v, s, Step("coordinates", Joined([tx, ty]))) ==
      State(target, target, s.trace + PulseEvents(v, Plan(s.pos, target)))
  {
    LowerFixesLowerCase("coordinates");
  }

  /** A "fire" step with value 1 fires one shot. */
  lemma FireStep(v: Variant, s: State)
    ensures RunStep(v, s, Step("fire", Scalar(1))) == s.(trace := s.trace + FireEvents(v, 1))
  {
    LowerFixesLowerCase("fire");
  }

  /** The moves of a plan with one pulse, or one pulse per axis. */
  lemma PulseEventsOfPlan(v: Variant, current: Position, target: Position)
    ensures var plan := Plan(current, target);
      (|plan| == 1 ==> PulseEvents(v, plan) == MoveEvents(v, plan[0].dir, plan[0].ms)) &&
      (|plan| == 2 ==>
        PulseEvents(v, plan) == MoveEvents(v, plan[0].dir, plan[0].ms) + MoveEvents(v, plan[1].dir, plan[1].ms))
  {
    var plan := Plan(current, target);
    if |plan| == 1 {
      assert plan[1..] == [];
      assert PulseEvents(v, plan) == MoveEvents(v, plan[0].dir, plan[0].ms) + [];
    } else if |plan| == 2 {
      assert plan[1..][1..] == [];
      assert PulseEvents(v, plan[1..]) == MoveEvents(v, plan[1].dir, plan[1].ms) + [];
    }
  }

  /** The events the "sequence" set appends when it starts at (0, 0). */
  function SequenceTrace(v: Variant): seq<Event>
  {
    MoveEvents(v, RIGHT, 4250) + MoveEvents(v, UP, 500) + FireEvents(v, 1)
    + MoveEvents(v, UP, 250) + FireEvents(v, 1)
    + MoveEvents(v, RIGHT, 250) + FireEvents(v, 1)
  }

  /** One aim-and-shoot pair of steps, from a known position to a target whose plan is given. */
  lemma AimAndShoot(v: Variant, s: State, tx: int, ty: int, moves: seq<Event>)
    requires PulseEvents(v, Plan(s.pos, Position(tx, ty))) == moves
    ensures RunStep(v, RunStep(v, s, Step("coordinates", Joined([tx, ty]))), Step("fire", Scalar(1)))
      == State(Position(tx, ty), Position(tx, ty), s.trace + moves + FireEvents(v, 1))
  {
    CoordinatesStep(v, s, tx, ty);
    FireStep(v, RunStep(v, s, Step("coordinates", Joined([tx, ty]))));
  }

  /** The six steps of "sequence", one at a time, from (0, 0) and an empty trace. */
  lemma SequenceSteps(v: Variant, s0: State)
    requires s0.pos == ORIGIN && s0.trace == []
    ensures RunStep(v, RunStep(v, RunStep(v, RunStep(v, RunStep(v, RunStep(v, s0,
        SEQUENCE[0]), SEQUENCE[1]), SEQUENCE[2]), SEQUENCE[3]), SEQUENCE[4]), SEQUENCE[5])
      == State(Position(90, 15), Position(90, 15), SequenceTrace(v))
  {
    var m1 := MoveEvents(v, RIGHT, 4250) + MoveEvents(v, UP, 500);
    var m2 := MoveEvents(v, UP, 250);
    var m3 := MoveEvents(v, RIGHT, 250);
    assert PulseEvents(v, Plan(ORIGIN, Position(85, 10))) == m1 by {
      PulseEventsOfPlan(v, ORIGIN, Position(85, 10));
      assert Plan(ORIGIN, Position(85, 10)) == [Pulse(RIGHT, 4250), Pulse(UP, 500)];
    }
    assert PulseEvents(v, Plan(Position(85, 10), Position(85, 15))) == m2 by {
      PulseEventsOfPlan(v, Position(85, 10), Position(85, 15));
      assert Plan(Position(85, 10), Position(85, 15)) == [Pulse(UP, 250)];
    }
    assert PulseEvents(v, Plan(Position(85, 15), Position(90, 15))) == m3 by {
      PulseEventsOfPlan(v, Position(85, 15), Position(90, 15));
      assert Plan(Position(85, 15), Position(90, 15)) == [Pulse(RIGHT, 250)];
    }
    var s2 := State(Position(85, 10), Position(85, 10), s0.trace + m1 + FireEvents(v, 1));
    assert RunStep(v, RunStep(v, s0, SEQUENCE[0]), SEQUENCE[1]) == s2 by {
      AimAndShoot(v, s0, 85, 10, m1);
    }
    var s4 := State(Position(85, 15), Position(85, 15), s2.trace + m2 + FireEvents(v, 1));
    assert RunStep(v, RunStep(v, s2, SEQUENCE[2]), SEQUENCE[3]) == s4 by {
      AimAndShoot(v, s2, 85, 15, m2);
    }
    var s6 := State(Position(90, 15), Position(90, 15), s4.trace + m3 + FireEvents(v, 1));
    assert RunStep(v, RunStep(v, s4, SEQUENCE[4]), SEQUENCE[5]) == s6 by {
      AimAndShoot(v, s4, 90, 15, m3);
    }
    assert s0.trace + m1 == m1;
  }

  /**
   * The "sequence" set run from (0, 0): three targets, each followed by one
   * shot, ending at (90, 15) with exactly three FIRE transfers sent.
   */
  lemma SequenceSet(v: Variant, s: State)
    requires s.pos == ORIGIN
    ensures "sequence" in CommandSets()
    ensures var r := RunSet(v, s, CommandSets()["sequence"]);
      r.pos == Position(90, 15) && r.record == Position(90, 15) &&
      r.trace == s.trace + SequenceTrace(v) &&
      multiset(r.trace[|s.trace|..])[CommandPacket(v, FIRE)] == 3
  {
    assert CommandSets()["sequence"] == SEQUENCE;
    var s0 := s.(trace := []);
    RunSetSixSteps(v, s0, SEQUENCE);
    SequenceSteps(v, s0);
    RunSetTraceIndependent(v, s, SEQUENCE);
    FireShotCount(v);
    assert (s.trace + SequenceTrace(v))[|s.trace|..] == SequenceTrace(v);
  }

  /** The last step runs from the state the others leave. */
  lemma RunSetLast(v: Variant, s: State, steps: seq<Step>)
    requires |steps| > 0
    ensures RunSet(v, s, steps) == RunStep(v, RunSet(v, s, steps[..|steps| - 1]), steps[|steps| - 1])
  {
  }

  /** A set of six steps is those steps run one after the other. */
  lemma RunSetSixSteps(v: Variant, s0: State, steps: seq<Step>)
    requires |steps| == 6
    ensures RunSet(v, s0, steps) ==
      RunStep(v, RunStep(v, RunStep(v, RunStep(v, RunStep(v, RunStep(v, s0,
        steps[0]), steps[1]), steps[2]), steps[3]), steps[4]), steps[5])
  {
    RunSetLast(v, s0, steps);
    RunSetLast(v, s0, steps[..5]);
    RunSetLast(v, s0, steps[..4]);
    RunSetLast(v, s0, steps[..3]);
    RunSetLast(v, s0, steps[..2]);
    RunSetLast(v, s0, steps[..1]);
    assert steps[..5][..4] == steps[..4];
    assert steps[..4][..3] == steps[..3];
    assert steps[..3][..2] == steps[..2];
    assert steps[..2][..1] == steps[..1];
    assert steps[..1][..0] == [];
  }

  /** Three moves and three single shots hold three FIRE transfers. */
  lemma FireShotCount(v: Variant)
    ensures multiset(SequenceTrace(v))[CommandPacket(v, FIRE)] == 3
  {
    var fire := CommandPacket(v, FIRE);
    var mr1, mu1 := MoveEvents(v, RIGHT, 4250), MoveEvents(v, UP, 500);
    var mu2, mr3 := MoveEvents(v, UP, 250), MoveEvents(v, RIGHT, 250);
    var f := FireEvents(v, 1);
    MoveHoldsNoFire(v, RIGHT, 4250);
    MoveHoldsNoFire(v, UP, 500);
    MoveHoldsNoFire(v, UP, 250);
    MoveHoldsNoFire(v, RIGHT, 250);
    FireCounts(v, 1);
    assert multiset(SequenceTrace(v)) ==
      multiset(mr1) + multiset(mu1) + multiset(f) + multiset(mu2) + multiset(f) + multiset(mr3) + multiset(f);
  }

  /** A move of any direction other than FIRE sends no FIRE transfer. */
  lemma MoveHoldsNoFire(v: Variant, cmd: byte, ms: int)
    requires cmd != FIRE
    ensures multiset(MoveEvents(v, cmd, ms))[CommandPacket(v, FIRE)] == 0
  {
    CommandPacketInjective(v, cmd, FIRE);
    CommandPacketInjective(v, STOP, FIRE);
  }
}
