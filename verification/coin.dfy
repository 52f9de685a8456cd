/** The coin ledger: coins are pixel rectangles; a collection pass over
    the player's hitbox marks every live coin it overlaps as collected,
    counts it into the score, asks the map to clear the coin's tile, and
    then erases the collected coins from the list, keeping the others in
    their order. */
module Coins {
  import opened CppMath
  import opened SdlTypes

  datatype Coin = Coin(rect: Rect, alive: bool)

  /** Half-open overlap: the rectangles share a pixel column range and a
      pixel row range; rectangles that only touch along an edge do not
      overlap. */
  predicate Intersects(a: Rect, b: Rect) {
    !(a.x + a.w <= b.x || b.x + b.w <= a.x || a.y + a.h <= b.y || b.y + b.h <= a.y)
  }

  /** Pixel `p` lies in `r` (half-open on the right and bottom). */
  predicate Covers(r: Rect, p: Point) {
    r.x <= p.x < r.x + r.w && r.y <= p.y < r.y + r.h
  }

  lemma IntersectsIsSymmetric(a: Rect, b: Rect)
    ensures Intersects(a, b) <==> Intersects(b, a)
  {
  }

  /** Two rectangles side by side, or one on top of the other, do not
      intersect. */
  lemma TouchingEdgesDoNotIntersect(a: Rect, b: Rect)
    requires a.x + a.w == b.x || a.y + a.h == b.y
    ensures !Intersects(a, b)
  {
  }

  /** For non-empty rectangles the test is exact: they intersect iff some
      pixel lies in both. */
  lemma IntersectsIffSharedPixel(a: Rect, b: Rect)
    requires a.w > 0 && a.h > 0 && b.w > 0 && b.h > 0
    ensures Intersects(a, b) <==> exists p :: Covers(a, p) && Covers(b, p)
  {
    if Intersects(a, b) {
      var p := Point(if a.x < b.x then b.x else a.x, if a.y < b.y then b.y else a.y);
      assert Covers(a, p) && Covers(b, p);
    }
  }

  // ---------------------------------------------------------------------
  // Specification of spawning

  /** The coin spawned at `p`: a live `size`x`size` square at the rounded
      point. */
  function SpawnedCoin(p: FPoint, size: int): (c: Coin)
    ensures c.alive && c.rect.w == size && c.rect.h == size
    ensures c.rect.x as real - 0.5 <= p.x <= c.rect.x as real + 0.5
    ensures c.rect.y as real - 0.5 <= p.y <= c.rect.y as real + 0.5
  {
    Coin(Rect(Round(p.x), Round(p.y), size, size), true)
  }

  /** The coins spawned for `pts`, one per point, in order. */
  function Spawned(pts: seq<FPoint>, size: int): seq<Coin> {
    seq(|pts|, i requires 0 <= i < |pts| => SpawnedCoin(pts[i], size))
  }

  /** Each spawned coin is alive, `size` square, and its corner is the
      point rounded to the nearest pixel. */
  lemma SpawnedCoins(pts: seq<FPoint>, size: int)
    ensures |Spawned(pts, size)| == |pts|
    ensures forall i :: 0 <= i < |pts| ==>
      var c := Spawned(pts, size)[i];
      && c.alive && c.rect.w == size && c.rect.h == size
      && c.rect.x as real - 0.5 <= pts[i].x <= c.rect.x as real + 0.5
      && c.rect.y as real - 0.5 <= pts[i].y <= c.rect.y as real + 0.5
  {
  }

  // ---------------------------------------------------------------------
  // Specification of a collection pass

  /** A coin the pass collects: still alive and overlapping the player. */
  predicate Hit(c: Coin, player: Rect) {
    c.alive && Intersects(c.rect, player)
  }

  /** The coins a pass collects, in list order. */
  function Hits(cs: seq<Coin>, player: Rect): (r: seq<Coin>)
    ensures |r| <= |cs|
    ensures forall i :: 0 <= i < |r| ==> Hit(r[i], player)
  {
    if |cs| == 0 then []
    else
      var last := cs[|cs| - 1];
      Hits(cs[..|cs| - 1], player) + (if Hit(last, player) then [last] else [])
  }

  /** Reference definition of what a pass keeps: the live coins that do
      not overlap the player, in list order. */
  function Misses(cs: seq<Coin>, player: Rect): (r: seq<Coin>)
    ensures |r| <= |cs|
    ensures forall i :: 0 <= i < |r| ==> r[i].alive && !Intersects(r[i].rect, player)
  {
    if |cs| == 0 then []
    else
      var last := cs[|cs| - 1];
      Misses(cs[..|cs| - 1], player) + (if last.alive && !Intersects(last.rect, player) then [last] else [])
  }

  /** A coin after the first loop of the pass: dead if it was hit. */
  function Marked(c: Coin, player: Rect): Coin {
    if Hit(c, player) then c.(alive := false) else c
  }

  /** The first loop of the pass: every hit coin is marked dead. */
  function Mark(cs: seq<Coin>, player: Rect): seq<Coin> {
    seq(|cs|, i requires 0 <= i < |cs| => Marked(cs[i], player))
  }

  /** The erase/remove_if step: the live coins, in list order. */
  function Living(cs: seq<Coin>): (r: seq<Coin>)
    ensures |r| <= |cs|
    ensures forall i :: 0 <= i < |r| ==> r[i].alive
  {
    if |cs| == 0 then []
    else
      var last := cs[|cs| - 1];
      Living(cs[..|cs| - 1]) + (if last.alive then [last] else [])
  }

  /** The tile positions the pass asks the map to clear: one per collected
      coin, its top-left corner. */
  function Corners(cs: seq<Coin>): seq<Point> {
    seq(|cs|, i requires 0 <= i < |cs| => Point(cs[i].rect.x, cs[i].rect.y))
  }

  /** One more coin scanned: it is appended to the hits iff it is hit. */
  lemma HitsExtend(cs: seq<Coin>, i: int, player: Rect)
    requires 0 <= i < |cs|
    ensures Hits(cs[..i + 1], player) == Hits(cs[..i], player) + (if Hit(cs[i], player) then [cs[i]] else [])
  {
    assert cs[..i + 1][..i] == cs[..i];
  }

  lemma MarkExtend(cs: seq<Coin>, i: int, player: Rect)
    requires 0 <= i < |cs|
    ensures Mark(cs[..i], player) + [Marked(cs[i], player)] + cs[i + 1..]
      == (Mark(cs[..i], player) + cs[i..])[i := Marked(cs[i], player)]
    ensures Mark(cs[..i + 1], player) == Mark(cs[..i], player) + [Marked(cs[i], player)]
  {
  }

  lemma CornersAppend(cs: seq<Coin>, c: Coin)
    ensures Corners(cs + [c]) == Corners(cs) + [Point(c.rect.x, c.rect.y)]
  {
  }

  /** Marking and then sweeping the dead leaves exactly the live coins that
      miss the player. */
  lemma {:induction false} MarkThenSweep(cs: seq<Coin>, player: Rect)
    ensures Living(Mark(cs, player)) == Misses(cs, player)
  {
    if |cs| > 0 {
      var n := |cs| - 1;
      MarkThenSweep(cs[..n], player);
      assert Mark(cs, player)[..n] == Mark(cs[..n], player);
    }
  }

  /** A coin survives a pass iff it was in the list, alive, and clear of
      the player. */
  lemma {:induction false} MissesMembers(cs: seq<Coin>, player: Rect, c: Coin)
    ensures c in Misses(cs, player) <==> c in cs && c.alive && !Intersects(c.rect, player)
  {
    if |cs| > 0 {
      var n := |cs| - 1;
      MissesMembers(cs[..n], player, c);
      assert cs == cs[..n] + [cs[n]];
    }
  }

  /** Survivors keep their relative order: the pass over a concatenation
      is the concatenation of the passes. */
  lemma {:induction false} MissesOfConcat(a: seq<Coin>, b: seq<Coin>, player: Rect)
    ensures Misses(a + b, player) == Misses(a, player) + Misses(b, player)
  {
    if |b| == 0 {
      assert a + b == a;
    } else {
      var n := |b| - 1;
      MissesOfConcat(a, b[..n], player);
      assert (a + b)[..|a + b| - 1] == a + b[..n];
    }
  }

  /** A list of live coins splits exactly into the collected and the
      surviving ones. */
  lemma {:induction false} HitsAndMissesPartition(cs: seq<Coin>, player: Rect)
    requires forall i :: 0 <= i < |cs| ==> cs[i].alive
    ensures |Hits(cs, player)| + |Misses(cs, player)| == |cs|
  {
    if |cs| > 0 {
      HitsAndMissesPartition(cs[..|cs| - 1], player);
    }
  }

  /** A coin cannot be collected twice: a second pass with the same
      hitbox collects nothing and keeps everything. */
  lemma {:induction false} SecondPassCollectsNothing(cs: seq<Coin>, player: Rect)
    ensures Hits(Misses(cs, player), player) == []
    ensures Misses(Misses(cs, player), player) == Misses(cs, player)
  {
    if |cs| > 0 {
      var n := |cs| - 1;
      SecondPassCollectsNothing(cs[..n], player);
      var init := Misses(cs[..n], player);
      var last := cs[n];
      if last.alive && !Intersects(last.rect, player) {
        var kept := init + [last];
        assert Misses(cs, player) == kept;
        assert kept[..|kept| - 1] == init;
        assert Hits(kept, player) == Hits(init, player) + [];
        assert Misses(kept, player) == Misses(init, player) + [last];
      } else {
        assert Misses(cs, player) == init;
      }
    }
  }

  class CoinManager {
    var coins: seq<Coin>

    constructor ()
      ensures coins == []
    {
      coins := [];
    }

    /** spawnFixed: one live `size`x`size` coin per point is appended, in
        order, after the coins already there. */
    method SpawnFixed(pts: seq<FPoint>, size: int)
      modifies this
      ensures coins == old(coins) + Spawned(pts, size)
    {
      var i := 0;
      while i < |pts|
        invariant 0 <= i <= |pts|
        invariant coins == old(coins) + Spawned(pts[..i], size)
      {
        coins := coins + [Coin(Rect(Round(pts[i].x), Round(pts[i].y), size, size), true)];
        assert Spawned(pts[..i + 1], size) == Spawned(pts[..i], size) + [SpawnedCoin(pts[i], size)];
        i := i + 1;
      }
      assert pts[..i] == pts;
    }

    /** updateOnPlayerCollision: the score grows by the number of coins
        collected, the result says whether there was any, the clear
        requests name the collected coins' corners in order, and the list
        keeps exactly the live coins that miss the player. */
    method UpdateOnPlayerCollision(playerRect: Rect, score: int)
      returns (collected: bool, newScore: int, clears: seq<Point>)
      modifies this
      ensures newScore == score + |Hits(old(coins), playerRect)|
      ensures collected <==> |Hits(old(coins), playerRect)| > 0
      ensures clears == Corners(Hits(old(coins), playerRect))
      ensures coins == Misses(old(coins), playerRect)
    {
      collected, newScore, clears := MarkCollected(playerRect, score);
      RemoveDead();
      MarkThenSweep(old(coins), playerRect);
    }

    /** The loop of updateOnPlayerCollision: marks each hit coin dead,
        counting it and requesting its tile be cleared. */
    method MarkCollected(playerRect: Rect, score: int)
      returns (collected: bool, newScore: int, clears: seq<Point>)
      modifies this
      ensures newScore == score + |Hits(old(coins), playerRect)|
      ensures collected <==> |Hits(old(coins), playerRect)| > 0
      ensures clears == Corners(Hits(old(coins), playerRect))
      ensures coins == Mark(old(coins), playerRect)
    {
      collected, newScore, clears := false, score, [];
      var i := 0;
      while i < |coins|
        invariant 0 <= i <= |coins| == |old(coins)|
        invariant coins == Mark(old(coins)[..i], playerRect) + old(coins)[i..]
        invariant newScore == score + |Hits(old(coins)[..i], playerRect)|
        invariant collected <==> |Hits(old(coins)[..i], playerRect)| > 0
        invariant clears == Corners(Hits(old(coins)[..i], playerRect))
      {
        HitsExtend(old(coins), i, playerRect);
        MarkExtend(old(coins), i, playerRect);
        var c := coins[i];
        assert c == old(coins)[i];
        if c.alive && Intersects(c.rect, playerRect) {
          CornersAppend(Hits(old(coins)[..i], playerRect), c);
          coins := coins[i := c.(alive := false)];
          newScore := newScore + 1;
          collected := true;
          clears := clears + [Point(c.rect.x, c.rect.y)];
        }
        i := i + 1;
      }
      assert old(coins)[..i] == old(coins);
      assert coins == Mark(old(coins), playerRect) + [];
    }

    /** `erase(remove_if(..., !alive), end)`: the live coins are compacted
        to the front in order and the tail is cut off. */
    method RemoveDead()
      modifies this
      ensures coins == Living(old(coins))
    {
      var w, r := 0, 0;
      while r < |coins|
        invariant |coins| == |old(coins)|
        invariant 0 <= w <= r <= |coins|
        invariant coins[..w] == Living(old(coins)[..r])
        invariant forall k :: r <= k < |coins| ==> coins[k] == old(coins)[k]
      {
        assert old(coins)[..r + 1][..r] == old(coins)[..r];
        var c := coins[r];
        assert c == old(coins)[r];
        assert Living(old(coins)[..r + 1]) == Living(old(coins)[..r]) + (if c.alive then [c] else []);
        if c.alive {
          coins := coins[w := c];
          w := w + 1;
        }
        r := r + 1;
      }
      assert old(coins)[..r] == old(coins);
      coins := coins[..w];
    }

    /** clear: no coins are left. */
    method Clear()
      modifies this
      ensures coins == []
    {
      coins := [];
    }
  }
}
