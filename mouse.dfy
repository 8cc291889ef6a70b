/**
 * The mouse (mouse.js): which buttons are held, where the pointer was last
 * seen, and the queue of motions recorded while a button was held. Each
 * recorded motion carries the pointer's movement since the last event,
 * clamped componentwise to the grid scale, and the pointer's new position.
 */
module MouseInput {

  /** A point in client (window) coordinates. */
  datatype Point = Point(x: real, y: real)

  /** The fields of a DOM mouse event that the handlers read. */
  datatype MouseEvent = MouseEvent(button: int, clientX: real, clientY: real)

  /** One recorded motion: the buttons held, the clamped movement and the new position. */
  datatype Motion = Motion(left: bool, right: bool, drag: Point, position: Point)

  /** `Math.min(Math.max(v, -r), r)`. */
  function Clamp(v: real, r: real): (c: real)
    ensures r >= 0.0 ==> -r <= c <= r
    ensures r >= 0.0 && -r <= v <= r ==> c == v
    ensures r >= 0.0 && v < -r ==> c == -r
    ensures r >= 0.0 && v > r ==> c == r
    ensures r < 0.0 ==> c == r
  {
    var m := if v > -r then v else -r;
    if m < r then m else r
  }

  /** Both components of `p` lie in `[-r, r]`. */
  predicate Within(p: Point, r: real)
  {
    -r <= p.x <= r && -r <= p.y <= r
  }

  /** The movement from `from` to `to`, clamped componentwise to `[-r, r]`. */
  function Drag(from: Point, to: Point, r: real): (d: Point)
    ensures r >= 0.0 ==> Within(d, r)
    ensures r >= 0.0 && Within(Point(to.x - from.x, to.y - from.y), r) ==> d == Point(to.x - from.x, to.y - from.y)
  {
    Point(Clamp(to.x - from.x, r), Clamp(to.y - from.y, r))
  }

  /** The primary (left) button's number in a DOM mouse event. */
  const LeftButton := 0
  /** The secondary (right) button's number in a DOM mouse event. */
  const RightButton := 2

  class Mouse {
    /** The grid scale, which bounds each component of a recorded movement. */
    const scale: real
    var left: bool
    var right: bool
    var position: Point
    var motions: seq<Motion>

    /** Every recorded movement lies within the grid scale. */
    ghost predicate Valid()
      reads this
    {
      scale >= 0.0 ==> forall i :: 0 <= i < |motions| ==> Within(motions[i].drag, scale)
    }

    /** No button held, the pointer at the origin, nothing recorded. */
    constructor (scale: real)
      ensures Valid()
      ensures this.scale == scale
      ensures !left && !right && position == Point(0.0, 0.0) && motions == []
    {
      this.scale := scale;
      left, right := false, false;
      position := Point(0.0, 0.0);
      motions := [];
    }

    /** A button went down: remember where, and note the left or right button as held. */
    method MouseDown(event: MouseEvent)
      requires Valid()
      modifies this
      ensures Valid()
      ensures position == Point(event.clientX, event.clientY)
      ensures left == (event.button == LeftButton || old(left))
      ensures right == (event.button == RightButton || old(right))
      ensures motions == old(motions)
    {
      position := Point(event.clientX, event.clientY);
      left := if event.button == LeftButton then true else left;
      right := if event.button == RightButton then true else right;
    }

    /** A button went up: the left or right button is no longer held; nothing else changes. */
    method MouseUp(event: MouseEvent)
      requires Valid()
      modifies this
      ensures Valid()
      ensures left == (event.button != LeftButton && old(left))
      ensures right == (event.button != RightButton && old(right))
      ensures position == old(position) && motions == old(motions)
    {
      left := if event.button == LeftButton then false else left;
      right := if event.button == RightButton then false else right;
    }

    /**
     * The pointer moved: while a button is held, record one motion with the
     * clamped movement since the last position; in any case the event's
     * position becomes the last position.
     */
    method MouseMove(event: MouseEvent)
      requires Valid()
      modifies this
      ensures Valid()
      ensures var to := Point(event.clientX, event.clientY);
        motions == old(motions) + (if old(left) || old(right) then [Motion(old(left), old(right), Drag(old(position), to, scale), to)] else [])
      ensures position == Point(event.clientX, event.clientY)
      ensures left == old(left) && right == old(right)
    {
      var r := scale;
      var x := event.clientX;
      var y := event.clientY;
      if left || right {
        var dx := x - position.x;
        var dy := y - position.y;
        var drag := Point(Clamp(dx, r), Clamp(dy, r));
        var to := Point(x, y);
        motions := motions + [Motion(left, right, drag, to)];
      }
      position := Point(x, y);
    }
  }
}
