/**
 * The coordinate translator: how an absolute target becomes at most one
 * horizontal and one vertical timed pulse, and which position the launcher
 * believes it holds afterwards (rocketeer.py:209-249).
 */
module Translator {
  import opened Protocol

  /** The launcher's logical position, in calibration units from the bottom-left corner. */
  datatype Position = Position(x: int, y: int)

  const ORIGIN := Position(0, 0)

  /** Milliseconds of motion per unit of distance, on both axes. */
  const MS_PER_UNIT := 50

  /** One timed directional move: the direction's command byte and its duration. */
  datatype Pulse = Pulse(dir: byte, ms: int)

  predicate Horizontal(p: Pulse)
  {
    p.dir == LEFT || p.dir == RIGHT
  }

  predicate Vertical(p: Pulse)
  {
    p.dir == UP || p.dir == DOWN
  }

  function Abs(n: int): nat
  {
    if n < 0 then -n else n
  }

  /** The horizontal pulse, if any: right when the target lies right of the position, left when it lies left. */
  function HorizontalPulse(current: Position, target: Position): (r: seq<Pulse>)
    ensures |r| <= 1 && (r == [] <==> current.x == target.x)
    ensures forall i :: 0 <= i < |r| ==> Horizontal(r[i]) && r[i].ms > 0 && r[i].ms % MS_PER_UNIT == 0
  {
    var deltaX := current.x - target.x;
    if deltaX < 0 then [Pulse(RIGHT, Abs(deltaX) * MS_PER_UNIT)]
    else if deltaX > 0 then [Pulse(LEFT, Abs(deltaX) * MS_PER_UNIT)]
    else []
  }

  /** The vertical pulse, if any: up when the target lies above the position, down when it lies below. */
  function VerticalPulse(current: Position, target: Position): (r: seq<Pulse>)
    ensures |r| <= 1 && (r == [] <==> current.y == target.y)
    ensures forall i :: 0 <= i < |r| ==> Vertical(r[i]) && r[i].ms > 0 && r[i].ms % MS_PER_UNIT == 0
  {
    var deltaY := current.y - target.y;
    if deltaY < 0 then [Pulse(UP, Abs(deltaY) * MS_PER_UNIT)]
    else if deltaY > 0 then [Pulse(DOWN, Abs(deltaY) * MS_PER_UNIT)]
    else []
  }

  /**
   * The pulses a `coordinates` command issues: at most two, the horizontal
   * one first, none at all when the target is the current position, each a
   * positive whole number of calibration units long.
   */
  function Plan(current: Position, target: Position): (r: seq<Pulse>)
    ensures |r| <= 2
    ensures r == [] <==> current == target
    ensures forall i, j :: 0 <= i < j < |r| ==> Horizontal(r[i]) && Vertical(r[j])
    ensures forall i :: 0 <= i < |r| ==> Horizontal(r[i]) || Vertical(r[i])
    ensures forall i :: 0 <= i < |r| ==> r[i].ms > 0 && r[i].ms % MS_PER_UNIT == 0
  {
    HorizontalPulse(current, target) + VerticalPulse(current, target)
  }

  /**
   * The position recorded after the move: an axis takes the target's value
   * only if it moved and otherwise keeps its own, which always lands on the
   * target itself.
   */
  function NextPosition(current: Position, target: Position): (r: Position)
    ensures r == target
    ensures current.x == target.x ==> r.x == current.x
    ensures current.y == target.y ==> r.y == current.y
  {
    var changeX := current.x - target.x != 0;
    var changeY := current.y - target.y != 0;
    Position(if changeX then target.x else current.x, if changeY then target.y else current.y)
  }

  /** Where one pulse takes the launcher: RIGHT and UP increase x and y, LEFT and DOWN decrease them. */
  function Shift(p: Position, pulse: Pulse): Position
  {
    var units := pulse.ms / MS_PER_UNIT;
    if pulse.dir == RIGHT then p.(x := p.x + units)
    else if pulse.dir == LEFT then p.(x := p.x - units)
    else if pulse.dir == UP then p.(y := p.y + units)
    else if pulse.dir == DOWN then p.(y := p.y - units)
    else p
  }

  /** Where a sequence of pulses takes the launcher, one after the other. */
  function Displace(p: Position, pulses: seq<Pulse>): Position
    decreases |pulses|
  {
    if pulses == [] then p else Displace(Shift(p, pulses[0]), pulses[1..])
  }

  /** Carrying out the plan physically moves the launcher onto the target, the position that is then recorded. */
  lemma PlanReachesTarget(current: Position, target: Position)
    ensures Displace(current, Plan(current, target)) == target
    ensures Displace(current, Plan(current, target)) == NextPosition(current, target)
  {
    var h := HorizontalPulse(current, target);
    var v := VerticalPulse(current, target);
    var mid := Position(target.x, current.y);
    assert Displace(current, h) == mid by {
      if h != [] {
        assert h[1..] == [];
      }
    }
    assert Displace(mid, v) == target by {
      if v != [] {
        assert v[1..] == [];
      }
    }
    DisplaceAppend(current, h, v);
  }

  lemma {:induction false} DisplaceAppend(p: Position, a: seq<Pulse>, b: seq<Pulse>)
    ensures Displace(p, a + b) == Displace(Displace(p, a), b)
    decreases |a|
  {
    if a != [] {
      assert (a + b)[1..] == a[1..] + b;
      DisplaceAppend(Shift(p, a[0]), a[1..], b);
    } else {
      assert a + b == b;
    }
  }

  /**
   * The direction and duration rules per axis, with deltaX = x - tx and
   * deltaY = y - ty: negative means right (up), positive means left (down),
   * |delta| * 50 ms; zero means no pulse on that axis.
   */
  lemma PlanAxisRules(current: Position, target: Position)
    ensures var r := Plan(current, target); var deltaX := current.x - target.x;
      (deltaX < 0 ==> |r| >= 1 && r[0] == Pulse(RIGHT, -deltaX * MS_PER_UNIT)) &&
      (deltaX > 0 ==> |r| >= 1 && r[0] == Pulse(LEFT, deltaX * MS_PER_UNIT)) &&
      (deltaX == 0 ==> forall i :: 0 <= i < |r| ==> !Horizontal(r[i]))
    ensures var r := Plan(current, target); var deltaY := current.y - target.y;
      (deltaY < 0 ==> |r| >= 1 && r[|r| - 1] == Pulse(UP, -deltaY * MS_PER_UNIT)) &&
      (deltaY > 0 ==> |r| >= 1 && r[|r| - 1] == Pulse(DOWN, deltaY * MS_PER_UNIT)) &&
      (deltaY == 0 ==> forall i :: 0 <= i < |r| ==> !Vertical(r[i]))
  {
  }
}
