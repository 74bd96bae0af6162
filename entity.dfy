/** The plain values an entity is made of: its box (`aabb_t`), its velocity, and its edges. */
module Entity {

  /** An axis-aligned box: its corner and its size, in pixels. */
  datatype Box = Box(x: int, y: int, w: int, h: int)

  /** The transform and velocity of an entity. */
  datatype Body = Body(transform: Box, vx: int, vy: int)

  /** The field edge an entity has crossed, as the collision pipeline classifies it. */
  datatype Edge = NoEdge | TopEdge | BottomEdge | LeftEdge | RightEdge

  /** The vertical direction an out-of-bounds response asks an entity to move in (`entity_set_direction`). */
  datatype Direction = DirUp | DirDown

  function Abs(n: int): int
  {
    if n < 0 then -n else n
  }

  /** The vertical velocity after `entity_set_direction`: same speed, pointed down (y grows downward) or up. */
  function Directed(d: Direction, vy: int): (r: int)
    ensures Abs(r) == Abs(vy)
    ensures d == DirDown ==> r >= 0
    ensures d == DirUp ==> r <= 0
  {
    match d
    case DirDown => Abs(vy)
    case DirUp => -Abs(vy)
  }
}
