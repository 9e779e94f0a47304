/** GameLevel: the platform table, entity list and tileset table of one
    level, with the methods that build them from the level's collision
    objects and move the platforms once per frame. Map loading, rendering
    and the Box2D world are outside this model; the constructor takes what
    `load` would have read. */
module Level {
  import opened Wrappers
  import Tiles
  import P = Platforms
  import opened Loader

  /** Helper for Choose: lets the verifier pick a key of a non-empty set. */
  lemma EmptyOrMember(keys: set<int>)
    ensures keys == {} || exists k :: k in keys
  {
    if forall k :: k !in keys {
      assert keys == {};
    }
  }

  /** Some key of a non-empty key set; the loops below visit the keys of an
      unordered table in an order the model leaves open. */
  method Choose(keys: set<int>) returns (k: int)
    requires keys != {}
    ensures k in keys
  {
    EmptyOrMember(keys);
    k :| k in keys;
  }

  class GameLevel {
    var height: int
    var tilesets: seq<Tiles.Tileset>
    var collisionObjects: seq<MapObject>
    var movingPlatforms: map<int, P.MovingPlatform>
    var entities: seq<Entity>

    /** The tileset table is well formed and every platform keeps the
        platform invariant. */
    ghost predicate Valid()
      reads this
    {
      Tiles.WellFormed(tilesets) && P.TableInv(movingPlatforms)
    }

    /** A level as `load` leaves it: map height in tiles, tilesets and the
        objects of the "collisions" layer; no platforms or entities yet. */
    constructor (height: int, tilesets: seq<Tiles.Tileset>, collisionObjects: seq<MapObject>)
      requires Tiles.WellFormed(tilesets)
      ensures Valid()
      ensures this.height == height && this.tilesets == tilesets && this.collisionObjects == collisionObjects
      ensures movingPlatforms == map[] && entities == []
    {
      this.height := height;
      this.tilesets := tilesets;
      this.collisionObjects := collisionObjects;
      movingPlatforms := map[];
      entities := [];
    }

    /** getTileSourceRect: searches the tilesets in ascending first-GID order
        for one whose range holds `tileGid`; on success returns its first GID
        and the tile's rectangle in its sprite sheet. */
    method GetTileSourceRect(tileGid: int) returns (found: bool, tilesetGid: int, rect: Tiles.Rect)
      requires Tiles.WellFormed(tilesets)
      ensures found <==> Tiles.TileSource(tilesets, tileGid).Some?
      ensures found ==> (tilesetGid, rect) == Tiles.TileSource(tilesets, tileGid).value
      ensures !found ==> tilesetGid == -1
    {
      tilesetGid := -1;
      rect := Tiles.Rect(0, 0, 0, 0);
      var i := 0;
      while i < |tilesets|
        invariant 0 <= i <= |tilesets|
        invariant tilesetGid == -1
        invariant forall j :: 0 <= j < i ==> !Tiles.Contains(tilesets[j], tileGid)
      {
        if tilesets[i].firstGid <= tileGid <= tilesets[i].lastGid {
          tilesetGid := tilesets[i].firstGid;
          break;
        }
        i := i + 1;
      }

      if tilesetGid == -1 {
        found := false;
        return;
      }
      found := true;
      rect := Tiles.SpriteRect(tileGid - tilesetGid, tilesets[i].textureWidth);
    }

    /** The validation half of createEntity: skips a moving platform without
        a direction, a definition missing a required property and a tile no
        tileset holds; otherwise builds the platform record or the entity. */
    method PrepareEntity(obj: MapObject, movingPlatform: bool) returns (outcome: Result<Created, SkipReason>)
      requires Tiles.WellFormed(tilesets)
      ensures outcome == EntityOutcome(obj, movingPlatform, tilesets, height)
      ensures outcome.Ok? && outcome.value.PlatformCreated? ==> P.PlatformInv(outcome.value.platform)
    {
      var props := obj.properties;
      var movementType := P.NotSet;
      if movingPlatform {
        if "direction" !in props {
          return Err(MissingDirection);
        }
        movementType := props["direction"].intValue;
      }

      if MissingRequired(props, movingPlatform, movementType) {
        return Err(MissingProperties);
      }

      var found, tilesetGid, spriteRect := GetTileSourceRect(props["tileGID"].intValue);
      if !found {
        return Err(NoTileset);
      }

      if movingPlatform {
        NewPlatformStart(props, movementType, tilesetGid, spriteRect, height);
        outcome := Ok(PlatformCreated(obj.uid, NewPlatform(props, movementType, tilesetGid, spriteRect, height)));
      } else {
        var position := P.Vec2(ToWorldX(props["centerX"].intValue), ToWorldY(props["centerY"].intValue, height));
        outcome := Ok(EntityCreated(Entity(tilesetGid, spriteRect, position)));
      }
    }

    /** The storing half of createEntity: a platform is inserted under its
        id unless that id is taken, an entity is appended. */
    method Store(outcome: Result<Created, SkipReason>)
      requires Valid()
      requires outcome.Ok? && outcome.value.PlatformCreated? ==> P.PlatformInv(outcome.value.platform)
      modifies this
      ensures Valid()
      ensures height == old(height) && tilesets == old(tilesets) && collisionObjects == old(collisionObjects)
      ensures LevelObjects(movingPlatforms, entities, []) == Install(LevelObjects(old(movingPlatforms), old(entities), []), outcome)
    {
      if outcome.Ok? {
        var created := outcome.value;
        if created.PlatformCreated? {
          if created.uid !in movingPlatforms {
            movingPlatforms := movingPlatforms[created.uid := created.platform];
          }
        } else {
          entities := entities + [created.entity];
        }
      }
    }

    /** createEntity for one "entity" or "mp" object: nothing when the
        definition is skipped; otherwise the platform is inserted under the
        object's id (unless that id is taken) or the entity appended. */
    method CreateEntity(obj: MapObject, movingPlatform: bool)
      requires Valid()
      modifies this
      ensures Valid()
      ensures height == old(height) && tilesets == old(tilesets) && collisionObjects == old(collisionObjects)
      ensures LevelObjects(movingPlatforms, entities, []) ==
              Install(LevelObjects(old(movingPlatforms), old(entities), []), EntityOutcome(obj, movingPlatform, tilesets, height))
    {
      var outcome := PrepareEntity(obj, movingPlatform);
      Store(outcome);
    }

    /** createHitboxes: rebuilds the platform table and the entity list from
        the collision objects, and returns the static fixtures it creates,
        in object order. */
    method CreateHitboxes() returns (fixtures: seq<StaticFixture>)
      requires Valid()
      modifies this
      ensures Valid()
      ensures height == old(height) && tilesets == old(tilesets) && collisionObjects == old(collisionObjects)
      ensures LevelObjects(movingPlatforms, entities, fixtures) == BuildLevel(collisionObjects, tilesets, height)
    {
      movingPlatforms := map[];
      entities := [];
      fixtures := [];
      var i := 0;
      while i < |collisionObjects|
        invariant 0 <= i <= |collisionObjects|
        invariant Valid()
        invariant height == old(height) && tilesets == old(tilesets) && collisionObjects == old(collisionObjects)
        invariant LevelObjects(movingPlatforms, entities, fixtures) == BuildLevel(collisionObjects[..i], tilesets, height)
      {
        var obj := collisionObjects[i];
        assert collisionObjects[..i + 1][..i] == collisionObjects[..i];
        assert BuildLevel(collisionObjects[..i + 1], tilesets, height)
            == AddObject(BuildLevel(collisionObjects[..i], tilesets, height), obj, tilesets, height);
        if obj.objectType == "entity" || obj.objectType == "mp" {
          CreateEntity(obj, obj.objectType == "mp");
        } else {
          fixtures := fixtures + [StaticFixture(HitboxTag(obj.objectType, obj.properties), HitboxIsSensor(obj.objectType))];
        }
        i := i + 1;
      }
      assert collisionObjects[..i] == collisionObjects;
    }

    /** doMovingPlatformLogic: first gates every platform named in the button
        table on its press count, then reverses the active platforms at
        their boundaries. */
    method DoMovingPlatformLogic(buttons: map<int, int>)
      requires Valid()
      modifies this
      ensures Valid()
      ensures height == old(height) && tilesets == old(tilesets) && collisionObjects == old(collisionObjects)
      ensures entities == old(entities)
      ensures movingPlatforms == P.Update(old(movingPlatforms), buttons)
    {
      P.UpdateKeepsInv(movingPlatforms, buttons);
      GatePlatforms(buttons);
      CheckBoundaries();
    }

    /** The first loop of doMovingPlatformLogic: each entry of the button
        table looks its platform up (operator[] inserts a default record for
        an unknown id) and, if the platform uses a button, starts it when
        pressed and stops it otherwise. */
    method GatePlatforms(buttons: map<int, int>)
      modifies this
      ensures height == old(height) && tilesets == old(tilesets) && collisionObjects == old(collisionObjects)
      ensures entities == old(entities)
      ensures movingPlatforms == P.GatePass(old(movingPlatforms), buttons)
    {
      var pending := buttons.Keys;
      while pending != {}
        invariant pending <= buttons.Keys
        invariant height == old(height) && tilesets == old(tilesets) && collisionObjects == old(collisionObjects)
        invariant entities == old(entities)
        invariant movingPlatforms.Keys == old(movingPlatforms).Keys + (buttons.Keys - pending)
        invariant forall k :: k in movingPlatforms && k !in buttons ==> movingPlatforms[k] == old(movingPlatforms)[k]
        invariant forall k :: k in pending && k in old(movingPlatforms) ==> movingPlatforms[k] == old(movingPlatforms)[k]
        invariant forall k :: k in buttons && k !in pending ==>
          movingPlatforms[k] == P.GateStep(P.Lookup(old(movingPlatforms), k), buttons[k])
        decreases pending
      {
        var id := Choose(pending);
        var platform := P.Lookup(movingPlatforms, id);
        movingPlatforms := movingPlatforms[id := platform];
        if platform.usesButton {
          if buttons[id] < 1 {
            platform := platform.(body := platform.body.(velocity := P.Zero), active := false);
          } else {
            platform := platform.(body := platform.body.(velocity := P.Times(platform.direction, platform.speed)), active := true);
          }
          movingPlatforms := movingPlatforms[id := platform];
        }
        pending := pending - {id};
      }
      assert movingPlatforms.Keys == P.GatePass(old(movingPlatforms), buttons).Keys;
      forall k | k in movingPlatforms
        ensures movingPlatforms[k] == P.GatePass(old(movingPlatforms), buttons)[k]
      {
        if k !in buttons {
          assert k in old(movingPlatforms);
        }
      }
      assert movingPlatforms == P.GatePass(old(movingPlatforms), buttons);

    }

    /** The second loop of doMovingPlatformLogic: every active platform is
        checked against its horizontal boundaries (left first) and its
        vertical ones (top first), and turned round at the one it reached. */
    method CheckBoundaries()
      modifies this
      ensures height == old(height) && tilesets == old(tilesets) && collisionObjects == old(collisionObjects)
      ensures entities == old(entities)
      ensures movingPlatforms == P.BoundaryPass(old(movingPlatforms))
    {
      var remaining := movingPlatforms.Keys;
      while remaining != {}
        invariant remaining <= old(movingPlatforms).Keys
        invariant height == old(height) && tilesets == old(tilesets) && collisionObjects == old(collisionObjects)
        invariant entities == old(entities)
        invariant movingPlatforms.Keys == old(movingPlatforms).Keys
        invariant forall k :: k in remaining ==> movingPlatforms[k] == old(movingPlatforms)[k]
        invariant forall k :: k in old(movingPlatforms) && k !in remaining ==> movingPlatforms[k] == P.BoundaryStep(old(movingPlatforms)[k])
        decreases remaining
      {
        var id := Choose(remaining);
        var platform := movingPlatforms[id];
        if platform.active {
          var position := platform.body.position;
          var velocity := platform.body.velocity;
          var direction := platform.direction;

          if P.MovesHorizontally(platform) {
            if position.x - P.HalfExtent <= platform.xBounds.x {
              velocity := velocity.(x := platform.speed.x);
              direction := direction.(x := 1.0);
            } else if position.x + P.HalfExtent >= platform.xBounds.y {
              velocity := velocity.(x := -1.0 * platform.speed.x);
              direction := direction.(x := -1.0);
            }
          }

          if P.MovesVertically(platform) {
            if position.y + P.HalfExtent >= platform.yBounds.x {
              velocity := velocity.(y := -1.0 * platform.speed.y);
              direction := direction.(y := -1.0);
            } else if position.y - P.HalfExtent <= platform.yBounds.y {
              velocity := velocity.(y := platform.speed.y);
              direction := direction.(y := 1.0);
            }
          }

          platform := platform.(body := platform.body.(velocity := velocity), direction := direction);
          assert platform == P.BoundaryStep(movingPlatforms[id]);
          movingPlatforms := movingPlatforms[id := platform];
        }
        remaining := remaining - {id};
      }
      assert movingPlatforms.Keys == P.BoundaryPass(old(movingPlatforms)).Keys;
      forall k | k in movingPlatforms
        ensures movingPlatforms[k] == P.BoundaryPass(old(movingPlatforms))[k]
      {
      }
      assert movingPlatforms == P.BoundaryPass(old(movingPlatforms));
    }
  }
}
