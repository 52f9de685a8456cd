/** The camera: its top-left corner follows the player's centre, pinned
    inside the map when the map is larger than the screen and centred on
    the map when it is not. Positions are map pixels; the render scale is
    fixed at 1, so the sprite is 16x24 pixels. */
module CameraModel {
  import opened CppMath
  import opened SdlTypes

  /** Sprite size the camera centres on. */
  const SpriteWidth: int := 16
  const SpriteHeight: int := 24

  /** `std::clamp(v, lo, hi)` for `lo <= hi`. */
  function Clamp(v: real, lo: real, hi: real): (r: real)
    requires lo <= hi
    ensures lo <= r <= hi
    ensures lo <= v <= hi ==> r == v
    ensures v < lo ==> r == lo
    ensures hi < v ==> r == hi
  {
    if v < lo then lo else if hi < v then hi else v
  }

  /** The screen coordinate that puts a sprite of `spriteSize` at `pos` in
      the middle of a screen of `screenSize`. */
  function Target(pos: real, spriteSize: int, screenSize: int): real {
    pos + spriteSize as real / 2.0 - screenSize as real / 2.0
  }

  /** One axis of `follow`: a map no larger than the screen is centred
      (its origin sits half the surplus to the left/top); otherwise the
      target is clamped to [0, mapSize - screenSize]. */
  function FollowAxis(pos: real, spriteSize: int, mapSize: int, screenSize: int): (o: real)
    ensures mapSize > screenSize ==> 0.0 <= o <= (mapSize - screenSize) as real
    ensures mapSize <= screenSize ==> o <= 0.0
  {
    if mapSize <= screenSize then (mapSize - screenSize) as real / 2.0
    else Clamp(Target(pos, spriteSize, screenSize), 0.0, Max0(mapSize - screenSize) as real)
  }

  /** `std::max(0.0f, (float)d)`. */
  function Max0(d: int): int { if d < 0 then 0 else d }

  /** `getView`: the camera origin truncated to pixels, screen-sized. */
  function ViewOf(x: real, y: real, screenWidth: int, screenHeight: int): (r: Rect)
    ensures r.w == screenWidth && r.h == screenHeight
    ensures 0.0 <= x ==> 0 <= r.x && r.x as real <= x
    ensures 0.0 <= y ==> 0 <= r.y && r.y as real <= y
  {
    TruncBounds(x);
    TruncBounds(y);
    Rect(Trunc(x), Trunc(y), screenWidth, screenHeight)
  }

  /** A map that fits on the screen is centred whatever the player does,
      and its offset is never positive. */
  lemma SmallMapIsCentred(pos: real, pos': real, spriteSize: int, mapSize: int, screenSize: int)
    requires mapSize <= screenSize
    ensures FollowAxis(pos, spriteSize, mapSize, screenSize) == (mapSize - screenSize) as real / 2.0
    ensures FollowAxis(pos, spriteSize, mapSize, screenSize) <= 0.0
    ensures FollowAxis(pos, spriteSize, mapSize, screenSize) == FollowAxis(pos', spriteSize, mapSize, screenSize)
  {
  }

  /** On a map larger than the screen the camera never shows anything
      outside the map; it sits exactly on the centring target whenever that
      target is in range, and on the nearer edge otherwise. */
  lemma LargeMapIsClamped(pos: real, spriteSize: int, mapSize: int, screenSize: int)
    requires mapSize > screenSize
    ensures var c, t := FollowAxis(pos, spriteSize, mapSize, screenSize), Target(pos, spriteSize, screenSize);
      && 0.0 <= c <= (mapSize - screenSize) as real
      && (0.0 <= t <= (mapSize - screenSize) as real ==> c == t)
      && (t < 0.0 ==> c == 0.0)
      && ((mapSize - screenSize) as real < t ==> c == (mapSize - screenSize) as real)
  {
  }

  /** The camera moves with the player: never backwards as the player
      moves forwards. */
  lemma FollowIsMonotone(pos: real, pos': real, spriteSize: int, mapSize: int, screenSize: int)
    requires pos <= pos'
    ensures FollowAxis(pos, spriteSize, mapSize, screenSize) <= FollowAxis(pos', spriteSize, mapSize, screenSize)
  {
  }

  /** On a map larger than the screen the truncated view rectangle lies
      within the map's pixels. */
  lemma ViewStaysOnLargeMap(pos: real, spriteSize: int, mapSize: int, screenSize: int)
    requires mapSize > screenSize
    ensures var c := FollowAxis(pos, spriteSize, mapSize, screenSize);
      0 <= Trunc(c) && Trunc(c) + screenSize <= mapSize
  {
    var c := FollowAxis(pos, spriteSize, mapSize, screenSize);
    LargeMapIsClamped(pos, spriteSize, mapSize, screenSize);
    TruncBounds(c);
  }

  class Camera {
    var x: real
    var y: real
    const screenWidth: int
    const screenHeight: int
    const mapPixelWidth: int
    const mapPixelHeight: int

    /** A camera at the map origin for the given screen and map sizes. */
    constructor (screenW: int, screenH: int, mapPixelW: int, mapPixelH: int)
      ensures screenWidth == screenW && screenHeight == screenH
      ensures mapPixelWidth == mapPixelW && mapPixelHeight == mapPixelH
      ensures x == 0.0 && y == 0.0
    {
      screenWidth, screenHeight := screenW, screenH;
      mapPixelWidth, mapPixelHeight := mapPixelW, mapPixelH;
      x, y := 0.0, 0.0;
    }

    /** `follow(playerPos, 1.0f)`: the new origin depends on the player
        position and the constants only, never on the previous origin, so
        following the same position twice leaves the camera where it is. */
    method Follow(playerPos: FPoint)
      modifies this
      ensures x == FollowAxis(playerPos.x, SpriteWidth, mapPixelWidth, screenWidth)
      ensures y == FollowAxis(playerPos.y, SpriteHeight, mapPixelHeight, screenHeight)
    {
      var centreX := playerPos.x + SpriteWidth as real / 2.0;
      var centreY := playerPos.y + SpriteHeight as real / 2.0;
      var targetX := centreX - screenWidth as real / 2.0;
      var targetY := centreY - screenHeight as real / 2.0;
      var minX, minY := 0.0, 0.0;
      var maxX := Max0(mapPixelWidth - screenWidth) as real;
      var maxY := Max0(mapPixelHeight - screenHeight) as real;
      if mapPixelWidth <= screenWidth {
        x := (mapPixelWidth - screenWidth) as real / 2.0;
      } else {
        x := Clamp(targetX, minX, maxX);
      }
      if mapPixelHeight <= screenHeight {
        y := (mapPixelHeight - screenHeight) as real / 2.0;
      } else {
        y := Clamp(targetY, minY, maxY);
      }
    }

    /** `getView`. */
    function View(): Rect
      reads this
    {
      ViewOf(x, y, screenWidth, screenHeight)
    }
  }
}
