/** A paddle: where `paddle_configure` places it, how `update` moves it, how it answers an edge. */
module Paddle {
  import opened Entity

  /** Which end of the field a paddle guards. */
  datatype Identifier = LeftPaddle | RightPaddle

  /** The field is cut into this many vertical sections; a paddle is centred in an end one. */
  const FieldWidthRatio: int := 6
  const MinWidth: int := 8
  const MinHeight: int := 128

  /** C's `/` on `int`: the quotient truncated toward zero. */
  function TruncDiv(a: int, b: int): (q: int)
    requires b > 0
    ensures a >= 0 ==> 0 <= a - b * q < b
    ensures a < 0 ==> -b < a - b * q <= 0
  {
    if a >= 0 then a / b else -((-a) / b)
  }

  /** The width of one field section. */
  function UnitWidth(field: Box): int
  {
    TruncDiv(field.x + field.w, FieldWidthRatio)
  }

  /** Where the paddle's field section begins horizontally. */
  function SectionX(field: Box, id: Identifier): int
  {
    match id
    case LeftPaddle => field.x
    case RightPaddle => (field.x + field.w) - UnitWidth(field)
  }

  /** The paddle `paddle_configure` produces: its corner at the centre of its section, 8 by 128, at rest. */
  function Configured(field: Box, id: Identifier): Body
  {
    Body(Box(SectionX(field, id) + TruncDiv(UnitWidth(field), 2), field.y + TruncDiv(field.h, 2),
             MinWidth, MinHeight),
         0, 0)
  }

  /** The vertical velocity `out_of_bounds` leaves a paddle with after it crossed `edge`. */
  function EdgeResponse(edge: Edge, vy: int): int
  {
    match edge
    case TopEdge => Directed(DirDown, vy)
    case BottomEdge => Directed(DirUp, vy)
    case _ => vy
  }

  /** Both paddles have the same size, rest, and height; they lie one field width less one section apart. */
  lemma PaddleLayout(field: Box)
    ensures Configured(field, RightPaddle).transform.x - Configured(field, LeftPaddle).transform.x
            == field.w - UnitWidth(field)
    ensures Configured(field, RightPaddle).transform.y == Configured(field, LeftPaddle).transform.y
    ensures forall id :: Configured(field, id).transform.w == 8 && Configured(field, id).transform.h == 128
    ensures forall id :: Configured(field, id).vx == 0 && Configured(field, id).vy == 0
  {
  }

  /** The paddle's corner sits at mid-height of the field, rounding toward the top. */
  lemma CornerAtMidHeight(field: Box, id: Identifier)
    requires field.h >= 0
    ensures var y := Configured(field, id).transform.y;
            field.y <= y <= field.y + field.h && 0 <= field.h - 2 * (y - field.y) < 2
  {
  }

  /** The paddle's corner lies horizontally within its own field section. */
  lemma CornerWithinSection(field: Box, id: Identifier)
    requires field.x + field.w >= 0
    ensures 0 <= UnitWidth(field)
    ensures SectionX(field, id) <= Configured(field, id).transform.x <= SectionX(field, id) + UnitWidth(field)
  {
  }

  /** On a field at the origin, as the game sets it up, the left paddle's corner is left of the right one's and both corners lie inside the field. */
  lemma CornersInsideGameField(w: int, h: int)
    requires w >= 0 && h >= 0
    ensures var field := Box(0, 0, w, h);
            var l := Configured(field, LeftPaddle).transform;
            var r := Configured(field, RightPaddle).transform;
            0 <= l.x <= r.x <= w && 0 <= l.y == r.y <= h
  {
    CornerWithinSection(Box(0, 0, w, h), LeftPaddle);
    CornerWithinSection(Box(0, 0, w, h), RightPaddle);
  }

  /** A paddle that crossed the top edge moves down, one that crossed the bottom edge moves up, at the same speed. */
  lemma EdgeResponseTurnsAway(edge: Edge, vy: int)
    ensures Abs(EdgeResponse(edge, vy)) == Abs(vy)
    ensures edge == TopEdge ==> EdgeResponse(edge, vy) >= 0
    ensures edge == BottomEdge ==> EdgeResponse(edge, vy) <= 0
    ensures edge != TopEdge && edge != BottomEdge ==> EdgeResponse(edge, vy) == vy
  {
  }

  /** A paddle entity, whose fields its operations update in place. */
  class Paddle {
    var x: int
    var y: int
    var w: int
    var h: int
    var vx: int
    var vy: int

    /** The paddle's transform and velocity. */
    function Snapshot(): Body
      reads this
    {
      Body(Box(x, y, w, h), vx, vy)
    }

    /** `entity_init`: a zero-initialised entity. */
    constructor ()
      ensures Snapshot() == Body(Box(0, 0, 0, 0), 0, 0)
    {
      x, y, w, h := 0, 0, 0, 0;
      vx, vy := 0, 0;
    }

    /** `entity_set_velocity`. */
    method SetVelocity(newVx: int, newVy: int)
      modifies this
      ensures Snapshot() == old(Snapshot()).(vx := newVx, vy := newVy)
    {
      vx, vy := newVx, newVy;
    }

    /** `entity_set_direction`, on the vertical velocity only: the speed is kept and pointed as `d` says. */
    method SetDirection(d: Direction)
      modifies this
      ensures Snapshot() == old(Snapshot()).(vy := Directed(d, old(vy)))
    {
      vy := Directed(d, vy);
    }

    /** `paddle_configure`: the new state depends on `field` and `id` alone. */
    method Configure(field: Box, id: Identifier)
      modifies this
      ensures Snapshot() == Configured(field, id)
    {
      var unit := TruncDiv(field.x + field.w, FieldWidthRatio);
      var sectionX := 0;
      var sectionW, sectionY, sectionH := unit, field.y, field.h;
      match id {
        case LeftPaddle => sectionX := field.x;
        case RightPaddle => sectionX := (field.x + field.w) - unit;
      }
      x := sectionX + TruncDiv(sectionW, 2);
      y := sectionY + TruncDiv(sectionH, 2);
      w := MinWidth;
      h := MinHeight;
      SetVelocity(0, 0);
    }

    /** `update`, with the displacement `(int)(v * delta)` supplied as `dx`, `dy`: only the position moves. */
    method Update(dx: int, dy: int)
      modifies this
      ensures x == old(x) + dx && y == old(y) + dy
      ensures w == old(w) && h == old(h) && vx == old(vx) && vy == old(vy)
    {
      x := x + dx;
      y := y + dy;
    }

    /** `out_of_bounds`: the top edge turns the paddle down, the bottom edge up, any other edge changes nothing. */
    method OutOfBounds(edge: Edge)
      modifies this
      ensures edge == TopEdge ==> vy == Directed(DirDown, old(vy))
      ensures edge == BottomEdge ==> vy == Directed(DirUp, old(vy))
      ensures edge != TopEdge && edge != BottomEdge ==> vy == old(vy)
      ensures Snapshot() == old(Snapshot()).(vy := EdgeResponse(edge, old(vy)))
    {
      match edge {
        case TopEdge => SetDirection(DirDown);
        case BottomEdge => SetDirection(DirUp);
        case _ =>
      }
    }
  }
}
