/** Tileset lookup and sprite-rectangle arithmetic for 32-pixel tiles, and
    the camera culling test. */
module Tiles {
  import opened Wrappers
  import HitTest

  const TileSize: int := 32

  /** An SDL_Rect. */
  datatype Rect = Rect(x: int, y: int, w: int, h: int)

  /** One tileset of a level: its global tile id range [firstGid, lastGid]
      and the pixel width of its sprite-sheet texture. */
  datatype Tileset = Tileset(firstGid: int, lastGid: int, textureWidth: int)

  /** The level's tileset table is a std::map keyed by first GID: ascending,
      without duplicates. Tiled numbers global tile ids from 1. The sprite
      arithmetic divides by the column count `textureWidth / 32` of the
      tileset a lookup finds, so that tileset must be at least one tile wide;
      the model asks this of every tileset, which leaves out levels that
      carry an unused narrower sheet. */
  ghost predicate WellFormed(ts: seq<Tileset>)
  {
    && (forall i, j :: 0 <= i < j < |ts| ==> ts[i].firstGid < ts[j].firstGid)
    && (forall i :: 0 <= i < |ts| ==> ts[i].firstGid >= 1 && ts[i].textureWidth >= TileSize)
  }

  predicate Contains(t: Tileset, gid: int)
  {
    t.firstGid <= gid <= t.lastGid
  }

  /** The first tileset, in ascending first-GID order, whose range holds `gid`. */
  function FirstContaining(ts: seq<Tileset>, gid: int): (r: Option<nat>)
    ensures r.Some? ==> r.value < |ts| && Contains(ts[r.value], gid)
    ensures r.Some? ==> forall j :: 0 <= j < r.value ==> !Contains(ts[j], gid)
    ensures r.None? ==> forall j :: 0 <= j < |ts| ==> !Contains(ts[j], gid)
    decreases |ts|
  {
    if ts == [] then None
    else if Contains(ts[0], gid) then Some(0)
    else match FirstContaining(ts[1..], gid)
         case None => None
         case Some(k) => Some(k + 1)
  }

  /** Where tile `index` of a sheet `textureWidth` pixels wide sits: tiles are
      laid out row by row, `textureWidth / 32` to a row. */
  function SpriteRect(index: nat, textureWidth: int): (r: Rect)
    requires textureWidth >= TileSize
    ensures r.w == TileSize && r.h == TileSize
    ensures 0 <= r.x && r.x + TileSize <= textureWidth && 0 <= r.y
    ensures r.x % TileSize == 0 && r.y % TileSize == 0
    ensures (r.y / TileSize) * (textureWidth / TileSize) + r.x / TileSize == index
  {
    var columns := textureWidth / TileSize;
    Rect((index % columns) * TileSize, (index / columns) * TileSize, TileSize, TileSize)
  }

  /** getTileSourceRect as a value: the first GID of the tileset holding
      `gid` and the rectangle of the tile in that tileset's sheet. */
  function TileSource(ts: seq<Tileset>, gid: int): Option<(int, Rect)>
    requires WellFormed(ts)
  {
    match FirstContaining(ts, gid)
    case None => None
    case Some(k) => Some((ts[k].firstGid, SpriteRect(gid - ts[k].firstGid, ts[k].textureWidth)))
  }

  /** Lookup fails exactly when no tileset's range holds `gid`; when several
      do, the one with the lowest first GID is used. */
  lemma TileSourceFound(ts: seq<Tileset>, gid: int)
    requires WellFormed(ts)
    ensures TileSource(ts, gid).None? <==> forall j :: 0 <= j < |ts| ==> !Contains(ts[j], gid)
    ensures TileSource(ts, gid).Some? ==>
      exists k :: 0 <= k < |ts| && Contains(ts[k], gid) && TileSource(ts, gid).value.0 == ts[k].firstGid
    ensures TileSource(ts, gid).Some? ==>
      forall j :: 0 <= j < |ts| && Contains(ts[j], gid) ==> TileSource(ts, gid).value.0 <= ts[j].firstGid
  {
    match FirstContaining(ts, gid)
    case None =>
    case Some(k) =>
      assert Contains(ts[k], gid);
  }

  /** isTileInRect: a 32x32 tile at (x, y) is culled exactly when it lies
      wholly left of, right of, above or below a W x H screen. */
  function IsTileInRect(tile: Rect, screenWidth: int, screenHeight: int): (r: bool)
    ensures !r ==> forall px, py :: HitTest.IsPointInRect(px, py, tile.x, tile.y, TileSize, TileSize) ==>
                      !HitTest.IsPointInRect(px, py, 0, 0, screenWidth, screenHeight)
  {
    !(tile.x + TileSize < 0 || tile.x > screenWidth || tile.y + TileSize < 0 || tile.y > screenHeight)
  }

  /** The culling test keeps a tile exactly when some pixel of the tile, its
      edges included, is also a pixel of the screen, its edges included. */
  lemma {:induction false} TileInRectIffOverlap(tile: Rect, screenWidth: int, screenHeight: int)
    requires screenWidth >= 0 && screenHeight >= 0
    ensures IsTileInRect(tile, screenWidth, screenHeight) <==>
      exists px, py :: HitTest.IsPointInRect(px, py, tile.x, tile.y, TileSize, TileSize) &&
                       HitTest.IsPointInRect(px, py, 0, 0, screenWidth, screenHeight)
  {
    if IsTileInRect(tile, screenWidth, screenHeight) {
      var px := if tile.x < 0 then 0 else tile.x;
      var py := if tile.y < 0 then 0 else tile.y;
      assert HitTest.IsPointInRect(px, py, tile.x, tile.y, TileSize, TileSize);
      assert HitTest.IsPointInRect(px, py, 0, 0, screenWidth, screenHeight);
    }
  }
}
