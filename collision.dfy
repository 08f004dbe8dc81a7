/**
 * engine/collision.go: integer axis-aligned boxes placed by their centre,
 * box–box overlap, and tests of a point or a box against a tile map's
 * collision layer (−1 marks an empty cell). Go's `/` truncates, so the
 * halving and the tile lookups use GoDiv; an index outside the layer and a
 * zero tile size are the Go panics they would be.
 */
module Collision {
  import opened GoInt
  import opened TileMap
  import Pixels
  import TextureAtlas

  /** A box: its size and its top-left corner. */
  datatype Collider = Collider(width: int, height: int, x: int, y: int)

  /** The point a collider was placed by: its top-left corner plus half its size. */
  function Centre(c: Collider): (int, int)
  {
    (c.x + GoDiv(c.width, 2), c.y + GoDiv(c.height, 2))
  }

  /** NewCollider: a width × height box whose centre is (x, y). */
  function NewCollider(width: int, height: int, x: int, y: int): (c: Collider)
    ensures c.width == width && c.height == height
    ensures Centre(c) == (x, y)
  {
    Collider(width, height, x - GoDiv(width, 2), y - GoDiv(height, 2))
  }

  /** SetPos: the same box moved so that its centre is (x, y). */
  function SetPos(c: Collider, x: int, y: int): (d: Collider)
    ensures d.width == c.width && d.height == c.height
    ensures Centre(d) == (x, y)
  {
    Collider(c.width, c.height, x - GoDiv(c.width, 2), y - GoDiv(c.height, 2))
  }

  /**
   * Moving a collider is placing a new one of the same size, only the last
   * move counts, and for a box of non-negative size the centre lies inside it.
   */
  lemma SetPosIsPlacement(c: Collider, x: int, y: int, x2: int, y2: int)
    ensures SetPos(c, x, y) == NewCollider(c.width, c.height, x, y)
    ensures SetPos(SetPos(c, x, y), x2, y2) == SetPos(c, x2, y2)
    ensures c.width >= 0 && c.height >= 0 ==>
      var d := SetPos(c, x, y);
      d.x <= x <= d.x + d.width && d.y <= y <= d.y + d.height
  {
    var d := SetPos(c, x, y);
    assert 0 <= c.width ==> 0 <= GoDiv(c.width, 2) <= c.width;
    assert 0 <= c.height ==> 0 <= GoDiv(c.height, 2) <= c.height;
  }

  /** Collides: the open boxes overlap on both axes. */
  predicate Collides(a: Collider, b: Collider)
  {
    a.x < b.x + b.width && a.x + a.width > b.x && a.y < b.y + b.height && a.y + a.height > b.y
  }

  /** The pixel (px, py) is one of the box's own: inside the half-open rectangle. */
  predicate Covers(c: Collider, px: int, py: int)
  {
    c.x <= px < c.x + c.width && c.y <= py < c.y + c.height
  }

  /** Overlap does not depend on the order of the two boxes. */
  lemma CollidesSymmetric(a: Collider, b: Collider)
    ensures Collides(a, b) <==> Collides(b, a)
  {
  }

  /** Boxes that only share an edge (b starts where a ends, on either axis) do not collide. */
  lemma CollidesStrict(a: Collider, b: Collider)
    requires b.x == a.x + a.width || b.y == a.y + a.height
    ensures !Collides(a, b)
  {
  }

  /** For boxes of positive size, colliding is having a pixel in common. */
  lemma {:induction false} CollidesIffSharedPixel(a: Collider, b: Collider)
    requires a.width > 0 && a.height > 0 && b.width > 0 && b.height > 0
    ensures Collides(a, b) <==> exists px, py :: Covers(a, px, py) && Covers(b, px, py)
  {
    if Collides(a, b) {
      var px := if a.x < b.x then b.x else a.x;
      var py := if a.y < b.y then b.y else a.y;
      assert Covers(a, px, py) && Covers(b, px, py);
    }
    if exists px, py :: Covers(a, px, py) && Covers(b, px, py) {
      var px, py :| Covers(a, px, py) && Covers(b, px, py);
      assert Collides(a, b);
    }
  }

  /** getTileIndex: the row-major cell index (y / tileSize)·width + x / tileSize; a zero tile size panics. */
  function GetTileIndex(t: Tilemap, x: int, y: int): (r: Outcome<int>)
    ensures r.Panic? <==> t.tileSize == 0
    ensures r.Panic? ==> r.fault == DivideByZero
  {
    if t.tileSize == 0 then Panic(DivideByZero)
    else Ok(GoDiv(y, t.tileSize) * t.width + GoDiv(x, t.tileSize))
  }

  /**
   * A pixel strictly inside the map lies in exactly one cell: the one whose
   * column and row strips contain it, with an index in [0, width·height).
   */
  lemma GetTileIndexCell(t: Tilemap, x: int, y: int)
    requires t.tileSize > 0 && t.width > 0
    requires 0 <= x < t.width * t.tileSize && 0 <= y < t.height * t.tileSize
    ensures var i := GetTileIndex(t, x, y).value;
      0 <= i < t.width * t.height &&
      GoMod(i, t.width) * t.tileSize <= x < GoMod(i, t.width) * t.tileSize + t.tileSize &&
      GoDiv(i, t.width) * t.tileSize <= y < GoDiv(i, t.width) * t.tileSize + t.tileSize
  {
    var ts, w := t.tileSize, t.width;
    var col, row := x / ts, y / ts;
    StripOf(x, ts, w);
    StripOf(y, ts, t.height);
    var i := row * w + col;
    assert GetTileIndex(t, x, y).value == i;
    Pixels.LemmaDivModUnique(i, w, row, col);
    TextureAtlas.MulLe(row, t.height - 1, w);
    assert (t.height - 1) * w + w == t.width * t.height;
  }

  /** The strip v / ts of a coordinate 0 ≤ v < n·ts is in [0, n) and contains v. */
  lemma StripOf(v: int, ts: int, n: int)
    requires ts > 0 && 0 <= v < n * ts
    ensures 0 <= v / ts < n && (v / ts) * ts <= v < (v / ts) * ts + ts
  {
    if v / ts >= n {
      TextureAtlas.MulLe(n, v / ts, ts);
    }
  }

  /** The centre of every cell generateVertices draws is looked up as that cell. */
  lemma TileCentreIndex(t: Tilemap, i: int)
    requires t.tileSize > 0 && t.width > 0 && 0 <= i < t.width * t.height
    ensures GetTileIndex(t, TileCentre(t, i).0, TileCentre(t, i).1) == Ok(i)
  {
    var ts, w := t.tileSize, t.width;
    var col, row, half := GoMod(i, w), GoDiv(i, w), GoDiv(ts, 2);
    DivModTruncated(i, w);
    assert row * w + col == i;
    assert 0 <= col && 0 <= row;
    assert half == ts / 2 && 0 <= half < ts;
    var (x, y) := TileCentre(t, i);
    assert x == col * ts + half && y == row * ts + half;
    Pixels.LemmaDivModUnique(x, ts, col, half);
    Pixels.LemmaDivModUnique(y, ts, row, half);
    assert GoDiv(x, ts) == col && GoDiv(y, ts) == row;
  }

  /** One cell of the collision layer: solid unless −1; an index outside the layer panics. */
  function Solid(collision: seq<int>, k: int): (r: Outcome<bool>)
  {
    if 0 <= k < |collision| then Ok(collision[k] != NoTile) else Panic(IndexOutOfRange)
  }

  /** Go's short-circuit `a || b` where either side may panic: b is evaluated only when a is false. */
  function OrElse(a: Outcome<bool>, b: Outcome<bool>): (r: Outcome<bool>)
  {
    match a
    case Panic(f) => Panic(f)
    case Ok(v) => if v then Ok(true) else b
  }

  /** The point lies outside [0, width·tileSize] × [0, height·tileSize] (the upper bounds included in the map). */
  predicate PointOutside(t: Tilemap, x: int, y: int)
  {
    x < 0 || x > t.width * t.tileSize || y < 0 || y > t.height * t.tileSize
  }

  /** CollidesMapPoint: true outside the map; otherwise whether the cell under the point is solid. */
  function CollidesMapPoint(t: Tilemap, x: int, y: int): (r: Outcome<bool>)
    ensures PointOutside(t, x, y) ==> r == Ok(true)
  {
    if PointOutside(t, x, y) then Ok(true)
    else
      match GetTileIndex(t, x, y)
      case Panic(f) => Panic(f)
      case Ok(idx) => Solid(t.collision, idx)
  }

  /**
   * On a map whose collision layer has a cell for every tile, a point
   * strictly inside the map never panics and hits exactly when its cell is
   * solid.
   */
  lemma CollidesMapPointInside(t: Tilemap, x: int, y: int)
    requires t.tileSize > 0 && t.width > 0 && |t.collision| == t.width * t.height
    requires 0 <= x < t.width * t.tileSize && 0 <= y < t.height * t.tileSize
    ensures var i := GetTileIndex(t, x, y).value;
      0 <= i < |t.collision| && CollidesMapPoint(t, x, y) == Ok(t.collision[i] != NoTile)
  {
    GetTileIndexCell(t, x, y);
    assert !PointOutside(t, x, y);
  }

  /**
   * The bottom boundary y = height·tileSize counts as inside, so at x = 0 the
   * lookup is one past the layer and panics.
   */
  lemma CollidesMapPointBottomEdge(t: Tilemap)
    requires t.tileSize > 0 && t.width > 0 && t.height >= 0 && |t.collision| == t.width * t.height
    ensures CollidesMapPoint(t, 0, t.height * t.tileSize) == Panic(IndexOutOfRange)
  {
    var y := t.height * t.tileSize;
    Pixels.LemmaDivModUnique(y, t.tileSize, t.height, 0);
    assert GoDiv(0, t.tileSize) == 0;
    assert GetTileIndex(t, 0, y) == Ok(t.height * t.width);
  }

  /**
   * The right boundary x = width·tileSize counts as inside too, and its column
   * index is width, so a point there in row r reads cell (r + 1)·width: the
   * first cell of the next row, or one past the layer on the last row.
   */
  lemma CollidesMapPointRightEdge(t: Tilemap, y: int)
    requires t.tileSize > 0 && t.width > 0 && |t.collision| == t.width * t.height
    requires 0 <= y < t.height * t.tileSize
    ensures var next := GoDiv(y, t.tileSize) + 1;
      GetTileIndex(t, t.width * t.tileSize, y) == Ok(next * t.width) &&
      (next < t.height ==> CollidesMapPoint(t, t.width * t.tileSize, y) == Ok(t.collision[next * t.width] != NoTile)) &&
      (next == t.height ==> CollidesMapPoint(t, t.width * t.tileSize, y) == Panic(IndexOutOfRange))
  {
    var ts, w := t.tileSize, t.width;
    var x := w * ts;
    Pixels.LemmaDivModUnique(x, ts, w, 0);
    StripOf(y, ts, t.height);
    var row := y / ts;
    assert GoDiv(y, ts) == row;
    assert GetTileIndex(t, x, y) == Ok(row * w + w);
    assert row * w + w == (row + 1) * w;
    assert !PointOutside(t, x, y);
    if row + 1 < t.height {
      TextureAtlas.MulLe(row + 2, t.height, w);
    }
  }

  /** The box extends past the map's pixel rectangle. */
  predicate BoxOutside(t: Tilemap, c: Collider)
  {
    c.x < 0 || c.x + c.width > t.width * t.tileSize || c.y < 0 || c.y + c.height > t.height * t.tileSize
  }

  /** The cell indices under the four corners: top-left, top-right, bottom-right, bottom-left. */
  function CornerCells(t: Tilemap, c: Collider): (k: seq<int>)
    requires t.tileSize != 0
  {
    [GetTileIndex(t, c.x, c.y).value, GetTileIndex(t, c.x + c.width, c.y).value,
     GetTileIndex(t, c.x + c.width, c.y + c.height).value, GetTileIndex(t, c.x, c.y + c.height).value]
  }

  /**
   * CollidesMapCollider as written: true when the box leaves the map; then a
   * guard that only catches corner indices greater than the layer's length,
   * so an index equal to it reaches the lookup and panics.
   */
  function CollidesMapCollider(t: Tilemap, c: Collider): (r: Outcome<bool>)
    ensures BoxOutside(t, c) ==> r == Ok(true)
    ensures !BoxOutside(t, c) && t.tileSize == 0 ==> r == Panic(DivideByZero)
  {
    if BoxOutside(t, c) then Ok(true)
    else if t.tileSize == 0 then Panic(DivideByZero)
    else
      var k := CornerCells(t, c);
      var n := |t.collision|;
      if k[0] > n || k[1] > n || k[2] > n || k[3] > n then Ok(true)
      else OrElse(Solid(t.collision, k[0]), OrElse(Solid(t.collision, k[1]),
             OrElse(Solid(t.collision, k[2]), Solid(t.collision, k[3]))))
  }

  /** Every corner index names a cell of the layer. */
  predicate CornersInLayer(t: Tilemap, c: Collider)
    requires t.tileSize != 0
  {
    forall j :: 0 <= j < 4 ==> 0 <= CornerCells(t, c)[j] < |t.collision|
  }

  /**
   * The guard as evidently intended: any corner index outside the layer
   * (negative or at least its length) counts as a collision, so the lookups
   * that follow never go out of range.
   */
  function CollidesMapColliderFixed(t: Tilemap, c: Collider): (r: Outcome<bool>)
    ensures BoxOutside(t, c) ==> r == Ok(true)
    ensures r.Panic? <==> !BoxOutside(t, c) && t.tileSize == 0
    ensures r.Panic? ==> r.fault == DivideByZero
    ensures !BoxOutside(t, c) && t.tileSize != 0 && !CornersInLayer(t, c) ==> r == Ok(true)
    ensures !BoxOutside(t, c) && t.tileSize != 0 && CornersInLayer(t, c) ==>
      r == Ok(exists j :: 0 <= j < 4 && t.collision[CornerCells(t, c)[j]] != NoTile)
  {
    if BoxOutside(t, c) then Ok(true)
    else if t.tileSize == 0 then Panic(DivideByZero)
    else
      var k := CornerCells(t, c);
      if !CornersInLayer(t, c) then Ok(true)
      else
        var hit := t.collision[k[0]] != NoTile || t.collision[k[1]] != NoTile ||
                   t.collision[k[2]] != NoTile || t.collision[k[3]] != NoTile;
        assert hit <==> exists j :: 0 <= j < 4 && t.collision[k[j]] != NoTile;
        Ok(hit)
  }

  /** With every corner inside the layer, the code as written and the corrected guard agree. */
  lemma CollidesMapColliderAgrees(t: Tilemap, c: Collider)
    requires t.tileSize != 0 && CornersInLayer(t, c)
    ensures CollidesMapCollider(t, c) == CollidesMapColliderFixed(t, c)
  {
    var k := CornerCells(t, c);
    assert 0 <= k[0] < |t.collision| && 0 <= k[1] < |t.collision|;
    assert 0 <= k[2] < |t.collision| && 0 <= k[3] < |t.collision|;
  }

  /**
   * With a positive tile size and non-negative map width and box size, the
   * code as written panics only when some
   * corner index equals the layer's length (the box reaches the bottom or
   * right edge of a map whose layer has width·height cells).
   */
  lemma CollidesMapColliderPanicsAtLength(t: Tilemap, c: Collider)
    requires t.tileSize > 0 && t.width >= 0 && c.width >= 0 && c.height >= 0
    requires CollidesMapCollider(t, c).Panic?
    ensures var k, n := CornerCells(t, c), |t.collision|;
      k[0] == n || k[1] == n || k[2] == n || k[3] == n
  {
    var k, n := CornerCells(t, c), |t.collision|;
    assert !BoxOutside(t, c) && k[0] <= n && k[1] <= n && k[2] <= n && k[3] <= n;
    NonNegativeIndex(t, c.x, c.y);
    NonNegativeIndex(t, c.x + c.width, c.y);
    NonNegativeIndex(t, c.x + c.width, c.y + c.height);
    NonNegativeIndex(t, c.x, c.y + c.height);
    if k[0] != n && k[1] != n && k[2] != n && k[3] != n {
      InLayer(t, c);
      CollidesMapColliderAgrees(t, c);
    }
  }

  /**
   * A box the code as written finds clear has every corner inside the
   * layer, so the corrected guard finds it clear too.
   */
  lemma ClearAsWrittenInLayer(t: Tilemap, c: Collider)
    requires CollidesMapCollider(t, c) == Ok(false)
    ensures t.tileSize != 0 && CornersInLayer(t, c)
    ensures CollidesMapColliderFixed(t, c) == Ok(false)
  {
    var k, n := CornerCells(t, c), |t.collision|;
    assert !BoxOutside(t, c) && t.tileSize != 0;
    assert Solid(t.collision, k[0]) == Ok(false);
    assert Solid(t.collision, k[1]) == Ok(false);
    assert Solid(t.collision, k[2]) == Ok(false);
    assert Solid(t.collision, k[3]) == Ok(false);
    InLayer(t, c);
    CollidesMapColliderAgrees(t, c);
  }

  lemma InLayer(t: Tilemap, c: Collider)
    requires t.tileSize != 0
    requires var k, n := CornerCells(t, c), |t.collision|;
      0 <= k[0] < n && 0 <= k[1] < n && 0 <= k[2] < n && 0 <= k[3] < n
    ensures CornersInLayer(t, c)
  {
  }

  /** Inside the map, with a positive tile size, corner indices are never negative. */
  lemma NonNegativeIndex(t: Tilemap, x: int, y: int)
    requires t.tileSize > 0 && x >= 0 && y >= 0 && t.width >= 0
    ensures GetTileIndex(t, x, y).value >= 0
  {
    TextureAtlas.MulLe(0, y / t.tileSize, t.width);
  }

  /**
   * An input the guard lets through: a 2 × 1 map of 2-pixel tiles with both
   * cells empty and a 1 × 2 box at the origin. The box's bottom corners fall
   * on index 2 = len(collision), which `p > len` does not catch.
   */
  lemma GuardCounterexample()
    ensures var t := Tilemap(2, 1, 2, [], [NoTile, NoTile], [], 0);
      var c := Collider(1, 2, 0, 0);
      CollidesMapCollider(t, c) == Panic(IndexOutOfRange) && CollidesMapColliderFixed(t, c) == Ok(true)
  {
    var t := Tilemap(2, 1, 2, [], [NoTile, NoTile], [], 0);
    var c := Collider(1, 2, 0, 0);
    assert CornerCells(t, c) == [0, 0, 2, 2];
    assert !CornersInLayer(t, c) by {
      assert CornerCells(t, c)[2] == 2;
    }
  }
}
