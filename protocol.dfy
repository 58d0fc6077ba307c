/**
 * The launcher's control protocol: the command bytes, and how each of the two
 * supported devices frames a command or an LED setting into one control
 * transfer (rocketeer.py:95-101, 158-168).
 */
module Protocol {
  import opened Wrappers

  newtype byte = n: int | 0 <= n < 256

  // Command bytes understood by both devices.
  const DOWN: byte := 0x01
  const UP: byte := 0x02
  const LEFT: byte := 0x04
  const RIGHT: byte := 0x08
  const FIRE: byte := 0x10
  const STOP: byte := 0x20

  // Report ids a Thunder expects as the first byte of its 8-byte report.
  const MOVE_REPORT: byte := 0x02
  const LED_REPORT: byte := 0x03

  /** The two devices, told apart at start-up by their USB vendor and product ids. */
  datatype Variant = Thunder | Original

  /**
   * What the launcher experiences: a control transfer with wValue `value`
   * carrying `data`, or a blocking wait of `ms` milliseconds. The request
   * type (0x21), the request (0x09, SET_REPORT) and the index (0) are the
   * same for every transfer and are not recorded.
   */
  datatype Event = Packet(value: int, data: seq<byte>) | Wait(ms: int)

  /** The wValue each device expects on a transfer. */
  function TransferValue(v: Variant): int
  {
    match v
    case Thunder => 0
    case Original => 0x0200
  }

  /** A Thunder report: report id, payload, then six zero bytes. */
  function Report(id: byte, payload: byte): seq<byte>
  {
    [id, payload, 0, 0, 0, 0, 0, 0]
  }

  /** The transfer `send_cmd(cmd)` issues on device `v`. */
  function CommandPacket(v: Variant, cmd: byte): (e: Event)
    ensures CommandOf(v, e) == Some(cmd)
    ensures e.Packet? && e.value == TransferValue(v)
    ensures |e.data| == (if v == Thunder then 8 else 1)
  {
    match v
    case Thunder => Packet(TransferValue(v), Report(MOVE_REPORT, cmd))
    case Original => Packet(TransferValue(v), [cmd])
  }

  /** Reads back the command byte a transfer carries on device `v`, if it is a command transfer. */
  function CommandOf(v: Variant, e: Event): Option<byte>
  {
    if !e.Packet? || e.value != TransferValue(v) then None
    else match v
      case Thunder =>
        if |e.data| == 8 && e.data == Report(MOVE_REPORT, e.data[1]) then Some(e.data[1]) else None
      case Original =>
        if |e.data| == 1 then Some(e.data[0]) else None
  }

  /** A transfer decodes to `cmd` exactly when it is the framing of `cmd`. */
  lemma CommandOfInverse(v: Variant, e: Event, cmd: byte)
    ensures CommandOf(v, e) == Some(cmd) <==> e == CommandPacket(v, cmd)
  {
    if CommandOf(v, e) == Some(cmd) {
      match v
      case Thunder =>
        assert e.data == Report(MOVE_REPORT, cmd);
      case Original =>
        assert e.data == [cmd];
    }
  }

  /** Distinct commands are framed into distinct transfers. */
  lemma CommandPacketInjective(v: Variant, a: byte, b: byte)
    ensures CommandPacket(v, a) == CommandPacket(v, b) <==> a == b
  {
    if CommandPacket(v, a) == CommandPacket(v, b) {
      assert CommandOf(v, CommandPacket(v, a)) == Some(a);
    }
  }

  /**
   * The transfer `led(level)` issues: a Thunder gets an LED report carrying
   * the level; the original device has no LED and gets nothing.
   */
  function LedPacket(v: Variant, level: byte): (r: Option<Event>)
    ensures r.Some? <==> v == Thunder
    ensures r.Some? ==> r.value.Packet? && r.value.value == TransferValue(v)
    ensures r.Some? ==> |r.value.data| == 8 && r.value.data[1] == level
    ensures r.Some? ==> CommandOf(v, r.value) == None
  {
    match v
    case Thunder => Some(Packet(TransferValue(v), Report(LED_REPORT, level)))
    case Original => None
  }
}
