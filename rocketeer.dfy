/**
 * The launcher as the program drives it: one object whose fields are the
 * current coordinates, the stored coordinates record, the device variant and
 * the trace of everything sent to the device. Each method changes those
 * fields as the corresponding procedure of rocketeer.py does, and is proved
 * to agree with the specification functions of Motion and Sequencer.
 */
module Rocketeer {
  import opened Protocol
  import opened Motion
  import opened Translator
  import opened Sequencer

  class Launcher {
    /** The device variant found at start-up; it selects the framing of every transfer. */
    const variant: Variant
    /** The current coordinates. */
    var pos: Position
    /** The two integers of the coordinates file. */
    var record: Position
    /** Every transfer and wait so far, oldest first. */
    var trace: seq<Event>

    /** The state the specification functions speak about. */
    function Snapshot(): State
      reads this
    {
      State(pos, record, trace)
    }

    /** The position in memory agrees with the stored record. */
    predicate Valid()
      reads this
    {
      pos == record
    }

    /** Start-up: the coordinates are read from the stored record, and nothing has been sent yet. */
    constructor (variant: Variant, stored: Position)
      ensures this.variant == variant && pos == stored && record == stored && trace == []
      ensures Valid()
    {
      this.variant := variant;
      pos := stored;
      record := stored;
      trace := [];
    }

    /** `send_cmd`: one control transfer carrying `cmd`, framed for the device. */
    method SendCmd(cmd: byte)
      modifies this`trace
      ensures trace == old(trace) + [CommandPacket(variant, cmd)]
    {
      if variant == Thunder {
        trace := trace + [Packet(0, [0x02, cmd, 0x00, 0x00, 0x00, 0x00, 0x00, 0x00])];
      } else {
        trace := trace + [Packet(0x0200, [cmd])];
      }
    }

    /** `led`: the LED report on a Thunder; the original device has no LED, so nothing is sent. */
    method Led(level: byte)
      modifies this`trace
      ensures trace == old(trace) + LedEvents(variant, level)
    {
      if variant == Thunder {
        trace := trace + [Packet(0, [0x03, level, 0x00, 0x00, 0x00, 0x00, 0x00, 0x00])];
      }
    }

    /** A blocking wait of `ms` milliseconds. */
    method Sleep(ms: int)
      modifies this`trace
      ensures trace == old(trace) + [Wait(ms)]
    {
      trace := trace + [Wait(ms)];
    }

    /** `send_move`: the command, the wait, then STOP, and the position is not touched. */
    method SendMove(cmd: byte, ms: int)
      modifies this`trace
      ensures trace == old(trace) + MoveEvents(variant, cmd, ms)
    {
      SendCmd(cmd);
      Sleep(ms);
      SendCmd(STOP);
    }

    /** `updateCoordinates`: both the coordinates in memory and the stored record become (x, y). */
    method UpdateCoordinates(x: int, y: int)
      modifies this`pos, this`record
      ensures pos == Position(x, y) && record == Position(x, y)
      ensures Valid()
    {
      pos := Position(x, y);
      record := Position(x, y);
    }

    /** The fire branch: the stabilise wait, then one FIRE and one reload wait per shot. */
    method Fire(count: int)
      modifies this`trace
      ensures trace == old(trace) + FireEvents(variant, count)
    {
      var shots := count;
      if shots < 1 || shots > MAX_SHOTS {
        shots := 1;
      }
      Sleep(STABILISE_MS);
      var i := 0;
      while i < shots
        invariant 0 <= i <= shots
        invariant trace == old(trace) + [Wait(STABILISE_MS)] + Volley(variant, i)
      {
        SendCmd(FIRE);
        Sleep(RELOAD_MS);
        i := i + 1;
      }
    }

    /** The coordinates branch: at most one horizontal and one vertical move, then the new position is stored. */
    method MoveTo(value: int, value2: int)
      modifies this`trace, this`pos, this`record
      ensures var target := Position(value, value2);
        pos == target && record == target &&
        trace == old(trace) + PulseEvents(variant, Plan(old(pos), target))
    {
      ghost var start, target, before := pos, Position(value, value2), trace;
      var deltaX := pos.x - value;
      var deltaY := pos.y - value2;
      var changeX, changeY := false, false;
      if deltaX < 0 {
        SendMove(RIGHT, Abs(deltaX) * MS_PER_UNIT);
        changeX := true;
      } else if deltaX > 0 {
        SendMove(LEFT, Abs(deltaX) * MS_PER_UNIT);
        changeX := true;
      }
      assert trace == before + PulseEvents(variant, HorizontalPulse(start, target));
      if deltaY < 0 {
        SendMove(UP, Abs(deltaY) * MS_PER_UNIT);
        changeY := true;
      } else if deltaY > 0 {
        SendMove(DOWN, Abs(deltaY) * MS_PER_UNIT);
        changeY := true;
      }
      assert trace == before + PulseEvents(variant, HorizontalPulse(start, target))
        + PulseEvents(variant, VerticalPulse(start, target));
      var newX, newY := pos.x, pos.y;
      if changeX {
        newX := value;
      }
      if changeY {
        newY := value2;
      }
      PulseEventsAppend(variant, HorizontalPulse(start, target), VerticalPulse(start, target));
      UpdateCoordinates(newX, newY);
    }

    /** `run_command`: the branch the lower-cased name selects; an unknown name changes nothing. */
    method RunCommand(command: string, value: int, value2: int)
      modifies this`trace, this`pos, this`record
      ensures Snapshot() == Run(variant, old(Snapshot()), command, value, value2)
      ensures old(Valid()) ==> Valid()
    {
      var name := Lower(command);
      if name == "right" {
        SendMove(RIGHT, value);
      } else if name == "left" {
        SendMove(LEFT, value);
      } else if name == "up" {
        SendMove(UP, value);
      } else if name == "down" {
        SendMove(DOWN, value);
      } else if name == "zero" || name == "park" || name == "reset" {
        SendMove(DOWN, ZERO_DOWN_MS);
        SendMove(LEFT, ZERO_LEFT_MS);
        UpdateCoordinates(0, 0);
      } else if name == "pause" || name == "sleep" {
        Sleep(value);
      } else if name == "led" {
        if value == 0 {
          Led(0x00);
        } else {
          Led(0x01);
        }
      } else if name == "fire" || name == "shoot" {
        Fire(value);
      } else if name == "coordinates" {
        MoveTo(value, value2);
      }
    }

    /** `run_command_set`: every step in order, each split into one or two values; other steps are skipped. */
    method RunCommandSet(commands: seq<Step>)
      modifies this`trace, this`pos, this`record
      ensures Snapshot() == RunSet(variant, old(Snapshot()), commands)
      ensures old(Valid()) ==> Valid()
    {
      var i := 0;
      while i < |commands|
        invariant 0 <= i <= |commands|
        invariant Snapshot() == RunSet(variant, old(Snapshot()), commands[..i])
      {
        var step := commands[i];
        var values := Pieces(step.value);
        if |values| == 1 {
          RunCommand(step.command, values[0], 0);
        } else if |values| == 2 {
          RunCommand(step.command, values[0], values[1]);
        }
        assert commands[..i + 1][..i] == commands[..i];
        i := i + 1;
      }
      assert commands[..i] == commands;
    }
  }

  /**
   * The "sequence" command set run on a fresh launcher whose stored record
   * is (0, 0): it ends at (90, 15), records that, and has fired three times.
   */
  method SequenceFromOrigin(v: Variant) returns (pos: Position, record: Position, shots: nat)
    ensures pos == Position(90, 15) && record == Position(90, 15)
    ensures shots == 3
  {
    var launcher := new Launcher(v, ORIGIN);
    SequenceSet(v, launcher.Snapshot());
    launcher.RunCommandSet(CommandSets()["sequence"]);
    pos, record := launcher.pos, launcher.record;
    shots := multiset(launcher.trace)[CommandPacket(v, FIRE)];
  }
}
