/**
 * The motion primitives as the traces they leave: a timed move that always
 * ends with STOP (rocketeer.py:170-173), an LED setting (164-168) and a
 * volley of shots with its stabilise and reload waits (201-208).
 */
module Motion {
  import opened Wrappers
  import opened Protocol

  const STABILISE_MS := 500
  const RELOAD_MS := 4500
  const MAX_SHOTS := 4

  /** `send_move(cmd, ms)`: the command, a wait of `ms`, then STOP. */
  function MoveEvents(v: Variant, cmd: byte, ms: int): (r: seq<Event>)
    ensures |r| == 3
    ensures CommandOf(v, r[0]) == Some(cmd)
    ensures r[1] == Wait(ms)
    ensures CommandOf(v, r[2]) == Some(STOP)
  {
    [CommandPacket(v, cmd), Wait(ms), CommandPacket(v, STOP)]
  }

  /** `led(level)`: one LED transfer on a Thunder, nothing on the original device. */
  function LedEvents(v: Variant, level: byte): (r: seq<Event>)
    ensures v == Original ==> r == []
    ensures v == Thunder ==> |r| == 1 && r[0].Packet? && |r[0].data| == 8 && r[0].data[1] == level
    ensures forall i :: 0 <= i < |r| ==> CommandOf(v, r[i]) == None
  {
    match LedPacket(v, level)
    case Some(e) => [e]
    case None => []
  }

  /** The number of shots a fire command takes: a count outside 1..4 becomes 1. */
  function Shots(count: int): (n: nat)
    ensures 1 <= n <= MAX_SHOTS
    ensures 1 <= count <= MAX_SHOTS ==> n == count
    ensures !(1 <= count <= MAX_SHOTS) ==> n == 1
  {
    if count < 1 || count > MAX_SHOTS then 1 else count
  }

  /** `n` shots, each a FIRE transfer followed by the reload wait. */
  function Volley(v: Variant, n: nat): (r: seq<Event>)
    ensures |r| == 2 * n
    ensures forall i :: 0 <= i < |r| ==>
      r[i] == if i % 2 == 0 then CommandPacket(v, FIRE) else Wait(RELOAD_MS)
  {
    if n == 0 then [] else Volley(v, n - 1) + [CommandPacket(v, FIRE), Wait(RELOAD_MS)]
  }

  /** The whole fire command: the stabilise wait, then the clamped volley. */
  function FireEvents(v: Variant, count: int): seq<Event>
  {
    [Wait(STABILISE_MS)] + Volley(v, Shots(count))
  }

  /** A volley of `n` holds exactly `n` FIRE transfers and no STOP. */
  lemma {:induction false} VolleyCounts(v: Variant, n: nat)
    ensures multiset(Volley(v, n))[CommandPacket(v, FIRE)] == n
    ensures multiset(Volley(v, n))[CommandPacket(v, STOP)] == 0
  {
    if n > 0 {
      VolleyCounts(v, n - 1);
      CommandPacketInjective(v, FIRE, STOP);
      assert Volley(v, n) == Volley(v, n - 1) + [CommandPacket(v, FIRE), Wait(RELOAD_MS)];
    }
  }

  /**
   * A fire command starts with the stabilise wait, fires exactly the clamped
   * count of shots, and never sends STOP.
   */
  lemma FireCounts(v: Variant, count: int)
    ensures FireEvents(v, count)[0] == Wait(STABILISE_MS)
    ensures |FireEvents(v, count)| == 1 + 2 * Shots(count)
    ensures multiset(FireEvents(v, count))[CommandPacket(v, FIRE)] == Shots(count)
    ensures multiset(FireEvents(v, count))[CommandPacket(v, STOP)] == 0
  {
    VolleyCounts(v, Shots(count));
  }
}
