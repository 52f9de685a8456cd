/** Player kinematics: input sets the velocity, each frame applies gravity,
    moves on X and then on Y testing the four hitbox corners against the
    map, clamps the position to the map content and latches death on a
    hazard. Velocities are in pixels per second and the frame time is in
    seconds. */
module PlayerModel {
  import opened CppMath
  import opened SdlTypes
  import opened TiledMap

  const Speed: real := 180.0
  const JumpForce: real := -480.0
  const Gravity: real := 1200.0

  /** The sprite is 16x24 pixels; the hitbox sits inside it. */
  const SpriteWidth: int := 16
  const SpriteHeight: int := 24
  const Hitbox: Rect := Rect(2, 4, 12, 18)

  /** The player's mutable state as a value. */
  datatype Body = Body(x: real, y: real, vx: real, vy: real, onGround: bool, dead: bool)

  /** Tile sizes the queries can divide by. */
  predicate Queryable(m: TileMap) { m.tileWidth != 0 && m.tileHeight != 0 }

  // ---------------------------------------------------------------------
  // Specification of one frame

  /** The four test points of the source's `testPoints` arrays, in their
      order: top-left, top-right, bottom-left, bottom-right. */
  datatype Quad = Quad(topLeft: Point, topRight: Point, bottomLeft: Point, bottomRight: Point)

  /** `testPoints[i]`. */
  function CornerAt(q: Quad, i: int): Point
    requires 0 <= i < 4
  {
    if i == 0 then q.topLeft else if i == 1 then q.topRight else if i == 2 then q.bottomLeft else q.bottomRight
  }

  /** The four hitbox corners of a player at (x, y), truncated to pixels. */
  function Corners(x: real, y: real): Quad {
    var left, right := Trunc(x + Hitbox.x as real), Trunc(x + (Hitbox.x + Hitbox.w - 1) as real);
    var top, bottom := Trunc(y + Hitbox.y as real), Trunc(y + (Hitbox.y + Hitbox.h - 1) as real);
    Quad(Point(left, top), Point(right, top), Point(left, bottom), Point(right, bottom))
  }

  /** One corner test of the X and Y moves. */
  predicate Solid(m: TileMap, p: Point)
    requires Queryable(m)
  {
    IsColliding(m, p.x, p.y)
  }

  /** One of the two top corners collides. */
  predicate TopHit(m: TileMap, q: Quad)
    requires Queryable(m)
  {
    Solid(m, q.topLeft) || Solid(m, q.topRight)
  }

  /** One of the two bottom corners collides. */
  predicate BottomHit(m: TileMap, q: Quad)
    requires Queryable(m)
  {
    Solid(m, q.bottomLeft) || Solid(m, q.bottomRight)
  }

  predicate AnyHit(m: TileMap, q: Quad)
    requires Queryable(m)
  {
    TopHit(m, q) || BottomHit(m, q)
  }

  /** One of the four corners is hazardous. */
  predicate HazardAt(m: TileMap, p: Point)
    requires Queryable(m)
  {
    IsHazard(m, p.x, p.y)
  }

  predicate HazardIn(m: TileMap, q: Quad)
    requires Queryable(m)
  {
    HazardAt(m, q.topLeft) || HazardAt(m, q.topRight) || HazardAt(m, q.bottomLeft) || HazardAt(m, q.bottomRight)
  }

  /** handleInput: horizontal velocity from the arrow keys (right wins), and
      a jump from the ground on space or up. A dead player ignores input. */
  function Input(b: Body, keys: Keys): (r: Body)
    ensures r.x == b.x && r.y == b.y && r.dead == b.dead
  {
    if b.dead then b
    else
      var vx := if keys.right then Speed else if keys.left then -Speed else 0.0;
      if (keys.space || keys.up) && b.onGround then b.(vx := vx, vy := JumpForce, onGround := false)
      else b.(vx := vx)
  }

  /** The horizontal move to `nx`: kept when no corner there collides,
      otherwise undone with the horizontal velocity zeroed. */
  function MoveXTo(m: TileMap, b: Body, nx: real): (r: Body)
    requires Queryable(m)
    ensures r.y == b.y && r.vy == b.vy && r.onGround == b.onGround && r.dead == b.dead
    ensures r.x == nx || (r.x == b.x && r.vx == 0.0)
  {
    if AnyHit(m, Corners(nx, b.y)) then b.(vx := 0.0) else b.(x := nx)
  }

  /** The y a landing player snaps to: the hitbox bottom on the top edge of
      the tile row its bottom reached. */
  function SnapY(m: TileMap, ny: real): real
    requires Queryable(m)
  {
    var tileY := CDiv(Trunc(ny + (Hitbox.y + Hitbox.h) as real), m.tileHeight);
    (tileY * m.tileHeight - Hitbox.y - Hitbox.h) as real
  }

  /** The vertical move to `ny`: a bottom-corner hit while falling lands,
      a top-corner hit while rising is undone, any other hit keeps the new
      y, and no hit at all leaves the ground. */
  function MoveYTo(m: TileMap, b: Body, ny: real): (r: Body)
    requires Queryable(m)
    ensures r.x == b.x && r.vx == b.vx && r.dead == b.dead
    ensures r.onGround && !b.onGround ==> r.vy == 0.0
  {
    var pts := Corners(b.x, ny);
    var top, bottom := TopHit(m, pts), BottomHit(m, pts);
    if top || bottom then
      if bottom && b.vy > 0.0 then b.(y := SnapY(m, ny), vy := 0.0, onGround := true)
      else if top && b.vy < 0.0 then b.(vy := 0.0)
      else b.(y := ny)
    else b.(y := ny, onGround := false)
  }

  /** Keep the sprite inside the map content; reaching the bottom edge
      counts as standing on ground. */
  function Clamp(m: TileMap, b: Body): (r: Body)
    ensures r.vx == b.vx && r.dead == b.dead
    ensures r.onGround != b.onGround ==> r.onGround && r.vy == 0.0
  {
    var cw, ch := m.contentPixelWidth as real, m.contentPixelHeight as real;
    var x1 := if b.x < 0.0 then 0.0 else b.x;
    var x2 := if x1 + SpriteWidth as real > cw then cw - SpriteWidth as real else x1;
    var y1 := if b.y < 0.0 then 0.0 else b.y;
    if y1 + SpriteHeight as real > ch then b.(x := x2, y := ch - SpriteHeight as real, vy := 0.0, onGround := true)
    else b.(x := x2, y := y1)
  }

  /** checkCollisionsWithHazards: a living player with a hazardous corner dies. */
  function Hazard(m: TileMap, b: Body): (r: Body)
    requires Queryable(m)
    ensures r == b.(dead := r.dead)
    ensures b.dead ==> r.dead
  {
    if !b.dead && HazardIn(m, Corners(b.x, b.y)) then b.(dead := true) else b
  }

  /** One explicit Euler step: a quantity `p` changing at rate `v` for `dt`
      seconds. */
  function Advance(p: real, v: real, dt: real): real {
    p + v * dt
  }

  /** update: one frame of physics; a dead player does not move. */
  function Stepped(m: TileMap, b: Body, dt: real): (r: Body)
    requires Queryable(m)
    ensures b.dead ==> r == b
    ensures r.vx == b.vx || r.vx == 0.0
  {
    if b.dead then b
    else
      var vy := Advance(b.vy, Gravity, dt);
      Settle(m, b.(vy := vy), Advance(b.x, b.vx, dt), Advance(b.y, vy, dt))
  }

  /** The rest of a frame once gravity is applied: move toward `nx`, then
      toward `ny` (the X move never changes y or the vertical velocity, so
      the source's target y is this `ny`), clamp, check hazards. */
  function Settle(m: TileMap, b: Body, nx: real, ny: real): Body
    requires Queryable(m)
  {
    Hazard(m, Clamp(m, MoveYTo(m, MoveXTo(m, b, nx), ny)))
  }

  /** Frames of input followed by physics, as the game loop drives them. */
  function Frames(m: TileMap, b: Body, inputs: seq<Keys>, dts: seq<real>): Body
    requires Queryable(m) && |inputs| == |dts|
  {
    if |inputs| == 0 then b
    else
      var n := |inputs| - 1;
      Stepped(m, Input(Frames(m, b, inputs[..n], dts[..n]), inputs[n]), dts[n])
  }

  // ---------------------------------------------------------------------
  // Properties of a frame

  /** Death is final: input, physics and the hazard check leave a dead
      player exactly as it is, over any number of frames. */
  lemma {:induction false} DeadPlayerIsFrozen(m: TileMap, b: Body, inputs: seq<Keys>, dts: seq<real>)
    requires Queryable(m) && |inputs| == |dts| && b.dead
    ensures Frames(m, b, inputs, dts) == b
  {
    if |inputs| > 0 {
      var n := |inputs| - 1;
      DeadPlayerIsFrozen(m, b, inputs[..n], dts[..n]);
    }
  }

  /** Input never kills or revives, never moves the player, makes the
      horizontal velocity right-if-held, else left-if-held, else zero, and
      jumps exactly when a jump key is held on the ground. */
  lemma InputRules(b: Body, keys: Keys)
    requires !b.dead
    ensures var r := Input(b, keys);
      && r.x == b.x && r.y == b.y && !r.dead
      && (keys.right ==> r.vx == Speed)
      && (keys.left && !keys.right ==> r.vx == -Speed)
      && (!keys.left && !keys.right ==> r.vx == 0.0)
      && ((keys.space || keys.up) && b.onGround <==> r.vy == JumpForce && !r.onGround && b.onGround)
      && (!((keys.space || keys.up) && b.onGround) ==> r.vy == b.vy && r.onGround == b.onGround)
  {
  }

  /** The horizontal move either reaches `nx`, where no corner collides,
      or leaves x unchanged and stops; so a player whose corners are all
      free stays free. */
  lemma MoveXNeverEntersWall(m: TileMap, b: Body, nx: real)
    requires Queryable(m)
    ensures var r := MoveXTo(m, b, nx);
      && r.y == b.y && r.vy == b.vy && r.onGround == b.onGround && r.dead == b.dead
      && ((r.x == nx && r.vx == b.vx && !AnyHit(m, Corners(r.x, r.y)))
          || (r.x == b.x && r.vx == 0.0 && AnyHit(m, Corners(nx, b.y))))
      && (!AnyHit(m, Corners(b.x, b.y)) ==> !AnyHit(m, Corners(r.x, r.y)))
  {
  }

  /** A landing puts the hitbox bottom exactly on a tile-row boundary, never
      below the point the fall reached and less than one tile above it. */
  lemma LandingSnapsToTileTop(m: TileMap, ny: real)
    requires Queryable(m) && m.tileHeight > 0
    requires ny + (Hitbox.y + Hitbox.h) as real >= 0.0
    ensures var bottom := SnapY(m, ny) + (Hitbox.y + Hitbox.h) as real;
      && (exists row: int :: bottom == (row * m.tileHeight) as real)
      && SnapY(m, ny) <= ny
      && ny - SnapY(m, ny) < m.tileHeight as real
  {
    var t := Trunc(ny + 22.0);
    TruncBounds(ny + 22.0);
    var q := CDiv(t, m.tileHeight);
    CDivOfNonNegative(t, m.tileHeight);
    assert SnapY(m, ny) + 22.0 == (q * m.tileHeight) as real;
  }

  /** A bottom-corner contact while falling lands the player on a tile
      top; a top-corner contact while rising keeps the old y; no contact at
      all leaves the ground. The horizontal state is untouched. */
  lemma VerticalOutcomes(m: TileMap, b: Body, ny: real)
    requires Queryable(m)
    ensures var r := MoveYTo(m, b, ny);
      var pts := Corners(b.x, ny);
      && r.x == b.x && r.vx == b.vx && r.dead == b.dead
      && (BottomHit(m, pts) && b.vy > 0.0 ==> r.onGround && r.vy == 0.0 && r.y == SnapY(m, ny))
      && (TopHit(m, pts) && b.vy < 0.0 ==> r.y == b.y && r.vy == 0.0 && r.onGround == b.onGround)
      && (!AnyHit(m, pts) ==> !r.onGround && r.y == ny && r.vy == b.vy)
  {
  }

  /** After a frame of a living player the sprite lies inside the content
      (when the content is at least one sprite large), and a player pushed
      back from the bottom edge stands on ground with no vertical speed. */
  lemma FrameStaysInContent(m: TileMap, b: Body, dt: real)
    requires Queryable(m) && !b.dead
    ensures var r := Stepped(m, b, dt);
      && (m.contentPixelWidth >= SpriteWidth ==>
            0.0 <= r.x && r.x + SpriteWidth as real <= m.contentPixelWidth as real)
      && r.x + SpriteWidth as real <= m.contentPixelWidth as real
      && (m.contentPixelHeight >= SpriteHeight ==>
            0.0 <= r.y && r.y + SpriteHeight as real <= m.contentPixelHeight as real)
      && r.y + SpriteHeight as real <= m.contentPixelHeight as real
  {
    var vy := Advance(b.vy, Gravity, dt);
    var movedY := MoveYTo(m, MoveXTo(m, b.(vy := vy), Advance(b.x, b.vx, dt)), Advance(b.y, vy, dt));
    ClampKeepsInside(m, movedY);
    HazardLatch(m, Clamp(m, movedY));
  }

  /** The content clamp: x then y are pulled back inside the content;
      a player pushed up from below the bottom edge lands. */
  lemma ClampKeepsInside(m: TileMap, b: Body)
    ensures var r := Clamp(m, b);
      && r.dead == b.dead && r.vx == b.vx
      && (m.contentPixelWidth >= SpriteWidth ==>
            0.0 <= r.x && r.x + SpriteWidth as real <= m.contentPixelWidth as real)
      && r.x + SpriteWidth as real <= m.contentPixelWidth as real
      && (m.contentPixelHeight >= SpriteHeight ==>
            0.0 <= r.y && r.y + SpriteHeight as real <= m.contentPixelHeight as real)
      && r.y + SpriteHeight as real <= m.contentPixelHeight as real
      && (b.y + SpriteHeight as real > m.contentPixelHeight as real ==> r.onGround && r.vy == 0.0)
      && ((0.0 <= b.x && b.x + SpriteWidth as real <= m.contentPixelWidth as real
           && 0.0 <= b.y && b.y + SpriteHeight as real <= m.contentPixelHeight as real) ==> r == b)
  {
  }

  /** The hazard check kills a living player exactly when one of its four
      corners is hazardous, and changes nothing else. */
  lemma HazardLatch(m: TileMap, b: Body)
    requires Queryable(m)
    ensures Hazard(m, b).dead <==> b.dead || HazardIn(m, Corners(b.x, b.y))
    ensures Hazard(m, b).(dead := b.dead) == b
  {
  }

  /** getWorldRect: the hitbox in world pixels. It always lies inside the
      sprite rectangle [x, x+16) x [y, y+24), whatever the position. */
  function HitboxRect(x: real, y: real): (r: Rect)
    ensures r.w == Hitbox.w && r.h == Hitbox.h
    ensures x <= r.x as real && (r.x + r.w) as real <= x + SpriteWidth as real
    ensures y <= r.y as real && (r.y + r.h) as real <= y + SpriteHeight as real
  {
    TruncBounds(x + Hitbox.x as real);
    TruncBounds(y + Hitbox.y as real);
    Rect(Trunc(x + Hitbox.x as real), Trunc(y + Hitbox.y as real), Hitbox.w, Hitbox.h)
  }

  // ---------------------------------------------------------------------
  // The corner loops

  /** The X-move loop over the four corners: stops at the first colliding one. */
  method AnyCornerColliding(m: TileMap, pts: Quad) returns (collideX: bool)
    requires Queryable(m)
    ensures collideX <==> AnyHit(m, pts)
  {
    collideX := false;
    var i := 0;
    while i < 4
      invariant 0 <= i <= 4
      invariant forall j :: 0 <= j < i ==> !Solid(m, CornerAt(pts, j))
    {
      if Solid(m, CornerAt(pts, i)) {
        collideX := true;
        break;
      }
      i := i + 1;
    }
    assert CornerAt(pts, 0) == pts.topLeft && CornerAt(pts, 1) == pts.topRight;
    assert CornerAt(pts, 2) == pts.bottomLeft && CornerAt(pts, 3) == pts.bottomRight;
  }

  /** The Y-move loop: visits every corner, flagging top corners (the first
      two) and bottom corners (the other two) separately. */
  method ClassifyCorners(m: TileMap, pts: Quad) returns (collideY: bool, collideTop: bool, collideBottom: bool)
    requires Queryable(m)
    ensures collideTop <==> TopHit(m, pts)
    ensures collideBottom <==> BottomHit(m, pts)
    ensures collideY <==> AnyHit(m, pts)
  {
    collideY, collideTop, collideBottom := false, false, false;
    var i := 0;
    while i < 4
      invariant 0 <= i <= 4
      invariant collideTop <==> exists j :: 0 <= j < i && j < 2 && Solid(m, CornerAt(pts, j))
      invariant collideBottom <==> exists j :: 2 <= j < i && Solid(m, CornerAt(pts, j))
      invariant collideY <==> collideTop || collideBottom
    {
      if Solid(m, CornerAt(pts, i)) {
        collideY := true;
        if i < 2 {
          collideTop := true;
        } else {
          collideBottom := true;
        }
      }
      i := i + 1;
    }
    assert CornerAt(pts, 0) == pts.topLeft && CornerAt(pts, 1) == pts.topRight;
    assert CornerAt(pts, 2) == pts.bottomLeft && CornerAt(pts, 3) == pts.bottomRight;
  }

  /** The hazard loop over the four corners: the index of the first
      hazardous one, if any. */
  method FirstHazardCorner(m: TileMap, pts: Quad) returns (found: bool, index: int)
    requires Queryable(m)
    ensures found <==> HazardIn(m, pts)
    ensures found ==>
      0 <= index < 4 && HazardAt(m, CornerAt(pts, index))
      && forall j :: 0 <= j < index ==> !HazardAt(m, CornerAt(pts, j))
  {
    var i := 0;
    while i < 4
      invariant 0 <= i <= 4
      invariant forall j :: 0 <= j < i ==> !HazardAt(m, CornerAt(pts, j))
    {
      if HazardAt(m, CornerAt(pts, i)) {
        return true, i;
      }
      i := i + 1;
    }
    assert CornerAt(pts, 0) == pts.topLeft && CornerAt(pts, 1) == pts.topRight;
    assert CornerAt(pts, 2) == pts.bottomLeft && CornerAt(pts, 3) == pts.bottomRight;
    return false, -1;
  }

  // ---------------------------------------------------------------------
  // The player object

  class Player {
    var x: real
    var y: real
    var vx: real
    var vy: real
    var onGround: bool
    var dead: bool
    var wasOnGround: bool

    function State(): Body
      reads this
    {
      Body(x, y, vx, vy, onGround, dead)
    }

    /** A new player at the origin, at rest, alive and not on ground. */
    constructor ()
      ensures State() == Body(0.0, 0.0, 0.0, 0.0, false, false)
      ensures wasOnGround
    {
      x, y, vx, vy := 0.0, 0.0, 0.0, 0.0;
      onGround, dead := false, false;
      wasOnGround := true;
    }

    function Position(): FPoint
      reads this
    {
      FPoint(x, y)
    }

    method SetPosition(p: FPoint)
      modifies this
      ensures Position() == p
      ensures State() == old(State()).(x := p.x, y := p.y)
      ensures wasOnGround == old(wasOnGround)
    {
      x, y := p.x, p.y;
    }

    predicate IsDead()
      reads this
    {
      dead
    }

    method Kill()
      modifies this
      ensures State() == old(State()).(dead := true)
      ensures wasOnGround == old(wasOnGround)
    {
      dead := true;
    }

    /** Revives in place: position and velocity are kept. */
    method Respawn()
      modifies this
      ensures State() == old(State()).(dead := false)
      ensures wasOnGround == old(wasOnGround)
    {
      dead := false;
    }

    /** getWorldRect. */
    function WorldRect(): Rect
      reads this
    {
      HitboxRect(x, y)
    }

    method HandleInput(keys: Keys)
      modifies this
      ensures State() == Input(old(State()), keys)
      ensures wasOnGround == old(wasOnGround)
    {
      if dead {
        return;
      }
      vx := 0.0;
      if keys.left {
        vx := -Speed;
      }
      if keys.right {
        vx := Speed;
      }
      if (keys.space || keys.up) && onGround {
        vy := JumpForce;
        onGround := false;
      }
    }

    method Update(m: TileMap, dt: real)
      requires Queryable(m)
      modifies this
      ensures State() == Stepped(m, old(State()), dt)
      ensures wasOnGround == old(wasOnGround)
    {
      if dead {
        return;
      }
      var start := State();
      vy := Advance(vy, Gravity, dt);
      // The X move changes neither y nor vy, so both targets follow from
      // the state at the start of the frame and the new vertical velocity.
      MoveHorizontally(m, Advance(start.x, start.vx, dt));
      MoveVertically(m, Advance(start.y, Advance(start.vy, Gravity, dt), dt));
      ClampToContent(m);
      CheckCollisionsWithHazards(m);
    }

    /** Lines 67-89 of update: try the move to `nx`, undo it on a hit. */
    method MoveHorizontally(m: TileMap, nx: real)
      requires Queryable(m)
      modifies this
      ensures State() == MoveXTo(m, old(State()), nx)
      ensures wasOnGround == old(wasOnGround)
    {
      var oldX := x;
      x := nx;
      var collideX := AnyCornerColliding(m, Corners(x, y));
      if collideX {
        x := oldX;
        vx := 0.0;
      }
    }

    /** Lines 91-130 of update: move to `ny`, then land, bump or leave the
        ground. */
    method MoveVertically(m: TileMap, ny: real)
      requires Queryable(m)
      modifies this
      ensures State() == MoveYTo(m, old(State()), ny)
      ensures wasOnGround == old(wasOnGround)
    {
      var oldY := y;
      y := ny;
      var collideY, collideTop, collideBottom := ClassifyCorners(m, Corners(x, y));
      if collideY {
        if collideBottom && vy > 0.0 {
          onGround := true;
          var worldY := y + (Hitbox.y + Hitbox.h) as real;
          var tileY := CDiv(Trunc(worldY), m.tileHeight);
          y := (tileY * m.tileHeight - Hitbox.y - Hitbox.h) as real;
          vy := 0.0;
        } else if collideTop && vy < 0.0 {
          y := oldY;
          vy := 0.0;
        }
      } else {
        onGround := false;
      }
    }

    /** Lines 143-159 of update: the content clamp. */
    method ClampToContent(m: TileMap)
      modifies this
      ensures State() == Clamp(m, old(State()))
      ensures wasOnGround == old(wasOnGround)
    {
      var contentWidth, contentHeight := m.contentPixelWidth as real, m.contentPixelHeight as real;
      if x < 0.0 {
        x := 0.0;
      }
      if x + SpriteWidth as real > contentWidth {
        x := contentWidth - SpriteWidth as real;
      }
      if y < 0.0 {
        y := 0.0;
      }
      if y + SpriteHeight as real > contentHeight {
        y := contentHeight - SpriteHeight as real;
        vy := 0.0;
        onGround := true;
      }
    }

    method CheckCollisionsWithHazards(m: TileMap)
      requires Queryable(m)
      modifies this
      ensures State() == Hazard(m, old(State()))
      ensures wasOnGround == old(wasOnGround)
    {
      if dead {
        return;
      }
      var found, index := FirstHazardCorner(m, Corners(x, y));
      if found {
        Kill();
      }
    }
  }
}
