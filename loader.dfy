/** The decisions GameLevel::createHitboxes and GameLevel::createEntity take
    once the Tiled and Box2D calls are stripped: which tag and sensor flag a
    static object gets, which entity or platform definitions are skipped,
    and how a new platform starts. */
module Loader {
  import opened Wrappers
  import opened Tags
  import Tiles
  import P = Platforms

  /** A Tiled object property; each accessor reads its own field. */
  datatype Property = Property(intValue: int, floatValue: real, boolValue: bool)

  type Properties = map<string, Property>

  /** An object of the "collisions" layer: its unique id, type and properties. */
  datatype MapObject = MapObject(uid: int, objectType: string, properties: Properties)

  /** The fixture created for a static object (ground, ladder, button, danger, finish). */
  datatype StaticFixture = StaticFixture(tag: int, isSensor: bool)

  /** A dynamic entity: sprite and the position its body is created at. */
  datatype Entity = Entity(tilesetGid: int, spriteRect: Tiles.Rect, position: P.Vec2)

  /** The user data chosen for a static object. */
  function HitboxTag(objectType: string, props: Properties): (tag: int)
    ensures !(objectType == "finish" || (objectType == "button" && tag != DefaultTag)) ==>
      tag in {DefaultTag, Ladder, DangerousTile}
  {
    if objectType == "ladder" then Ladder
    else if objectType == "button" then
      if "platformID" in props && props["platformID"].intValue < SmallTagLimit
      then Encode(Button, props["platformID"].intValue)
      else DefaultTag
    else if objectType == "danger" then DangerousTile
    else if objectType == "finish" then
      Encode(FinishPoint, if "level" in props then props["level"].intValue else 0)
    else DefaultTag
  }

  /** Ladders, buttons (valid or not) and finish points are sensors, so
      every solid static fixture is plain ground or a danger tile. */
  function HitboxIsSensor(objectType: string): (sensor: bool)
    ensures !sensor ==> forall props :: HitboxTag(objectType, props) in {DefaultTag, DangerousTile}
  {
    objectType == "ladder" || objectType == "button" || objectType == "finish"
  }

  /** A button whose platform id lies in [0, 100000) gets a tag that decodes
      to category Button and payload that id. */
  lemma ButtonTagRoundTrip(props: Properties)
    requires "platformID" in props && 0 <= props["platformID"].intValue < SmallTagLimit
    ensures CategoryOf(HitboxTag("button", props)) == Button
    ensures PayloadOf(HitboxTag("button", props), Button) == props["platformID"].intValue
  {
    RoundTrip(Button, props["platformID"].intValue);
  }

  /** A button without a platform id, or with one of 100000 or more, keeps the
      default tag 0 (it is still a sensor). */
  lemma InvalidButtonIsDefault(props: Properties)
    requires "platformID" !in props || props["platformID"].intValue >= SmallTagLimit
    ensures HitboxTag("button", props) == DefaultTag
    ensures HitboxIsSensor("button")
  {
  }

  /** A finish point carries its level (0 without one). */
  lemma FinishTagRoundTrip(props: Properties)
    requires "level" in props ==> 0 <= props["level"].intValue < PayloadBase
    ensures CategoryOf(HitboxTag("finish", props)) == FinishPoint
    ensures PayloadOf(HitboxTag("finish", props), FinishPoint) == (if "level" in props then props["level"].intValue else 0)
  {
    RoundTrip(FinishPoint, if "level" in props then props["level"].intValue else 0);
  }

  // ---------------------------------------------------------------------
  // createEntity

  datatype SkipReason = MissingDirection | MissingProperties | NoTileset

  /** The validation condition: the sprite and centre are required; a moving
      platform also needs the boundaries and velocity of each axis its
      movement type uses. */
  predicate MissingRequired(props: Properties, movingPlatform: bool, movementType: int)
  {
    || "tileGID" !in props || "centerX" !in props || "centerY" !in props
    || (movingPlatform &&
         (|| (("boundaryLeft" !in props || "boundaryRight" !in props || "horizontalVelocity" !in props) &&
              P.HorizontalType(movementType))
          || (("boundaryTop" !in props || "boundaryBottom" !in props || "verticalVelocity" !in props) &&
              P.VerticalType(movementType))))
  }

  /** The movement type of a definition that passes validation. */
  function CheckEntity(props: Properties, movingPlatform: bool): Result<int, SkipReason>
  {
    if movingPlatform && "direction" !in props then Err(MissingDirection)
    else
      var movementType := if movingPlatform then props["direction"].intValue else P.NotSet;
      if MissingRequired(props, movingPlatform, movementType) then Err(MissingProperties)
      else Ok(movementType)
  }

  /** Pixels to metres, and the map's y axis (downwards, in pixels) to
      Box2D's (upwards, in metres) for a level `height` tiles high. */
  function ToWorldX(pixels: int): real
  {
    (pixels as real) / 32.0
  }

  function ToWorldY(pixels: int, height: int): real
  {
    (height as real) - (pixels as real) / 32.0
  }

  /** The platform record createEntity builds for a validated definition. */
  function NewPlatform(props: Properties, movementType: int, tilesetGid: int, spriteRect: Tiles.Rect, height: int): (p: P.MovingPlatform)
    requires !MissingRequired(props, true, movementType)
    ensures P.PlatformInv(p)
  {
    var h := P.HorizontalType(movementType);
    var v := P.VerticalType(movementType);
    var direction := P.Vec2(if h then 1.0 else 0.0, if v then 1.0 else 0.0);
    var speed := P.Vec2(if h then props["horizontalVelocity"].floatValue else 0.0,
                        if v then props["verticalVelocity"].floatValue else 0.0);
    var xBounds := if h then P.Vec2(ToWorldX(props["boundaryLeft"].intValue), ToWorldX(props["boundaryRight"].intValue))
                   else P.Zero;
    var yBounds := if v then P.Vec2(ToWorldY(props["boundaryTop"].intValue, height), ToWorldY(props["boundaryBottom"].intValue, height))
                   else P.Zero;
    var usesButton := "usesButton" in props && props["usesButton"].boolValue;
    var position := P.Vec2(ToWorldX(props["centerX"].intValue), ToWorldY(props["centerY"].intValue, height));
    var body := P.KinematicBody(position, if usesButton then P.Zero else speed);
    P.MovingPlatform(tilesetGid, spriteRect, body, movementType, usesButton, !usesButton,
                     xBounds, yBounds, speed, direction)
  }

  /** A new platform: active exactly when it uses no button; direction 1 on
      each axis of its movement type and 0 on the others; moving at its
      speed when ungated and at rest when gated; and it keeps the platform
      invariant from the start. */
  lemma NewPlatformStart(props: Properties, movementType: int, tilesetGid: int, spriteRect: Tiles.Rect, height: int)
    requires !MissingRequired(props, true, movementType)
    ensures var p := NewPlatform(props, movementType, tilesetGid, spriteRect, height);
      && p.active == !p.usesButton
      && p.usesButton == ("usesButton" in props && props["usesButton"].boolValue)
      && p.direction.x == (if P.HorizontalType(movementType) then 1.0 else 0.0)
      && p.direction.y == (if P.VerticalType(movementType) then 1.0 else 0.0)
      && p.body.velocity == (if p.usesButton then P.Zero else p.speed)
      && P.PlatformInv(p)
  {
  }

  datatype Created = PlatformCreated(uid: int, platform: P.MovingPlatform) | EntityCreated(entity: Entity)

  /** What createEntity makes of one object, or why it makes nothing. */
  function EntityOutcome(obj: MapObject, movingPlatform: bool, tilesets: seq<Tiles.Tileset>, height: int): Result<Created, SkipReason>
    requires Tiles.WellFormed(tilesets)
  {
    var props := obj.properties;
    match CheckEntity(props, movingPlatform)
    case Err(e) => Err(e)
    case Ok(movementType) =>
      match Tiles.TileSource(tilesets, props["tileGID"].intValue)
      case None => Err(NoTileset)
      case Some((tilesetGid, rect)) =>
        if movingPlatform then Ok(PlatformCreated(obj.uid, NewPlatform(props, movementType, tilesetGid, rect, height)))
        else Ok(EntityCreated(Entity(tilesetGid, rect, P.Vec2(ToWorldX(props["centerX"].intValue), ToWorldY(props["centerY"].intValue, height)))))
  }

  /** createEntity creates nothing exactly when a moving platform lacks its
      direction, a required property is missing, or no tileset holds the
      tile. */
  lemma {:induction false} EntityOutcomeSkips(obj: MapObject, movingPlatform: bool, tilesets: seq<Tiles.Tileset>, height: int)
    requires Tiles.WellFormed(tilesets)
    ensures var props := obj.properties;
      EntityOutcome(obj, movingPlatform, tilesets, height).Err? <==>
        || (movingPlatform && "direction" !in props)
        || MissingRequired(props, movingPlatform, if movingPlatform then props["direction"].intValue else P.NotSet)
        || (forall j :: 0 <= j < |tilesets| ==> !Tiles.Contains(tilesets[j], props["tileGID"].intValue))
  {
    var props := obj.properties;
    if CheckEntity(props, movingPlatform).Ok? {
      Tiles.TileSourceFound(tilesets, props["tileGID"].intValue);
    }
  }

  /** Otherwise it creates a platform, keyed by the object's id and keeping
      the platform invariant, or an entity, as asked. */
  lemma {:induction false} EntityOutcomeCreates(obj: MapObject, movingPlatform: bool, tilesets: seq<Tiles.Tileset>, height: int)
    requires Tiles.WellFormed(tilesets)
    ensures var r := EntityOutcome(obj, movingPlatform, tilesets, height);
      r.Ok? ==> (r.value.PlatformCreated? <==> movingPlatform)
    ensures var r := EntityOutcome(obj, movingPlatform, tilesets, height);
      r.Ok? && movingPlatform ==> r.value.uid == obj.uid && P.PlatformInv(r.value.platform)
  {
    var props := obj.properties;
    var r := EntityOutcome(obj, movingPlatform, tilesets, height);
    match CheckEntity(props, movingPlatform)
    case Err(e) =>
    case Ok(movementType) =>
      match Tiles.TileSource(tilesets, props["tileGID"].intValue)
      case None =>
      case Some((g, rect)) =>
        if movingPlatform {
          NewPlatformStart(props, movementType, g, rect, height);
        }
  }

  // ---------------------------------------------------------------------
  // createHitboxes

  /** What createHitboxes has built so far. */
  datatype LevelObjects = LevelObjects(platforms: map<int, P.MovingPlatform>, entities: seq<Entity>, fixtures: seq<StaticFixture>)

  function EmptyLevel(): LevelObjects
  {
    LevelObjects(map[], [], [])
  }

  /** Stores what createEntity made: a platform is inserted under its id
      unless that id is taken (std::unordered_map::insert keeps the old
      entry), an entity is appended. */
  function Install(lo: LevelObjects, outcome: Result<Created, SkipReason>): LevelObjects
  {
    match outcome
    case Err(_) => lo
    case Ok(PlatformCreated(uid, p)) => if uid in lo.platforms then lo else lo.(platforms := lo.platforms[uid := p])
    case Ok(EntityCreated(e)) => lo.(entities := lo.entities + [e])
  }

  /** Installing a platform that keeps the platform invariant keeps the
      table invariant. */
  lemma InstallKeepsInv(lo: LevelObjects, outcome: Result<Created, SkipReason>)
    requires P.TableInv(lo.platforms)
    requires outcome.Ok? && outcome.value.PlatformCreated? ==> P.PlatformInv(outcome.value.platform)
    ensures P.TableInv(Install(lo, outcome).platforms)
  {
  }

  predicate IsEntityType(objectType: string)
  {
    objectType == "entity" || objectType == "mp"
  }

  /** One object of the collisions layer: entities and platforms go through
      createEntity (a second platform with the same id does not replace the
      first), everything else becomes a static fixture. */
  function AddObject(lo: LevelObjects, obj: MapObject, tilesets: seq<Tiles.Tileset>, height: int): LevelObjects
    requires Tiles.WellFormed(tilesets)
  {
    if IsEntityType(obj.objectType) then
      Install(lo, EntityOutcome(obj, obj.objectType == "mp", tilesets, height))
    else
      lo.(fixtures := lo.fixtures + [StaticFixture(HitboxTag(obj.objectType, obj.properties), HitboxIsSensor(obj.objectType))])
  }

  /** createHitboxes over the whole layer, starting from empty tables. */
  function BuildLevel(objects: seq<MapObject>, tilesets: seq<Tiles.Tileset>, height: int): LevelObjects
    requires Tiles.WellFormed(tilesets)
    decreases |objects|
  {
    if objects == [] then EmptyLevel()
    else AddObject(BuildLevel(objects[..|objects| - 1], tilesets, height), objects[|objects| - 1], tilesets, height)
  }

  /** How many objects of the layer are neither entities nor platforms. */
  function NonEntityCount(objects: seq<MapObject>): nat
    decreases |objects|
  {
    if objects == [] then 0
    else NonEntityCount(objects[..|objects| - 1]) + (if IsEntityType(objects[|objects| - 1].objectType) then 0 else 1)
  }

  /** Every platform the loader builds keeps the platform invariant and is
      keyed by the id of a platform object of the layer; fixtures and
      entities together are no more than the objects. */
  lemma {:induction false} BuildLevelSound(objects: seq<MapObject>, tilesets: seq<Tiles.Tileset>, height: int)
    requires Tiles.WellFormed(tilesets)
    ensures P.TableInv(BuildLevel(objects, tilesets, height).platforms)
    ensures forall uid :: uid in BuildLevel(objects, tilesets, height).platforms ==>
      exists i :: 0 <= i < |objects| && objects[i].uid == uid && objects[i].objectType == "mp"
    ensures |BuildLevel(objects, tilesets, height).fixtures| + |BuildLevel(objects, tilesets, height).entities| <= |objects|
    decreases |objects|
  {
    if objects != [] {
      var init := objects[..|objects| - 1];
      var last := objects[|objects| - 1];
      BuildLevelSound(init, tilesets, height);
      EntityOutcomeCreates(last, last.objectType == "mp", tilesets, height);
      var lo := BuildLevel(init, tilesets, height);
      forall uid | uid in BuildLevel(objects, tilesets, height).platforms
        ensures exists i :: 0 <= i < |objects| && objects[i].uid == uid && objects[i].objectType == "mp"
      {
        if uid in lo.platforms {
          var i :| 0 <= i < |init| && init[i].uid == uid && init[i].objectType == "mp";
          assert objects[i] == init[i];
        } else {
          assert objects[|objects| - 1].uid == uid;
        }
      }
    }
  }

  /** There are as many static fixtures as objects that are neither entities
      nor platforms, and each fixture carries the tag and sensor flag
      HitboxTag and HitboxIsSensor choose for one such object. */
  lemma {:induction false} BuildLevelFixtures(objects: seq<MapObject>, tilesets: seq<Tiles.Tileset>, height: int)
    requires Tiles.WellFormed(tilesets)
    ensures |BuildLevel(objects, tilesets, height).fixtures| == NonEntityCount(objects)
    ensures forall f :: f in BuildLevel(objects, tilesets, height).fixtures ==>
      exists i :: (0 <= i < |objects| && !IsEntityType(objects[i].objectType) &&
                   f == StaticFixture(HitboxTag(objects[i].objectType, objects[i].properties), HitboxIsSensor(objects[i].objectType)))
    decreases |objects|
  {
    if objects != [] {
      var init := objects[..|objects| - 1];
      var last := objects[|objects| - 1];
      BuildLevelFixtures(init, tilesets, height);
      var lo := BuildLevel(init, tilesets, height);
      if IsEntityType(last.objectType) {
        EntityInstallKeepsFixtures(lo, EntityOutcome(last, last.objectType == "mp", tilesets, height));
      }
      forall f | f in BuildLevel(objects, tilesets, height).fixtures
        ensures exists i :: (0 <= i < |objects| && !IsEntityType(objects[i].objectType) &&
                             f == StaticFixture(HitboxTag(objects[i].objectType, objects[i].properties), HitboxIsSensor(objects[i].objectType)))
      {
        if f in lo.fixtures {
          var i :| 0 <= i < |init| && !IsEntityType(init[i].objectType) &&
            f == StaticFixture(HitboxTag(init[i].objectType, init[i].properties), HitboxIsSensor(init[i].objectType));
          assert objects[i] == init[i];
        } else {
          assert objects[|objects| - 1] == last;
        }
      }
    }
  }

  /** The fixture of the i-th object that is neither an entity nor a
      platform sits at the position given by how many such objects come
      before it: with the count above, the fixtures are those objects'
      fixtures, one each, in layer order. */
  lemma {:induction false} BuildLevelFixturesInOrder(objects: seq<MapObject>, tilesets: seq<Tiles.Tileset>, height: int)
    requires Tiles.WellFormed(tilesets)
    ensures forall i :: 0 <= i < |objects| && !IsEntityType(objects[i].objectType) ==>
      && NonEntityCount(objects[..i]) < |BuildLevel(objects, tilesets, height).fixtures|
      && BuildLevel(objects, tilesets, height).fixtures[NonEntityCount(objects[..i])]
         == StaticFixture(HitboxTag(objects[i].objectType, objects[i].properties), HitboxIsSensor(objects[i].objectType))
    decreases |objects|
  {
    if objects != [] {
      var init := objects[..|objects| - 1];
      var last := objects[|objects| - 1];
      BuildLevelFixturesInOrder(init, tilesets, height);
      BuildLevelFixtures(init, tilesets, height);
      var lo := BuildLevel(init, tilesets, height);
      if IsEntityType(last.objectType) {
        EntityInstallKeepsFixtures(lo, EntityOutcome(last, last.objectType == "mp", tilesets, height));
      }
      var fixtures := BuildLevel(objects, tilesets, height).fixtures;
      assert fixtures[..|lo.fixtures|] == lo.fixtures;
      forall i | 0 <= i < |objects| && !IsEntityType(objects[i].objectType)
        ensures && NonEntityCount(objects[..i]) < |fixtures|
                && fixtures[NonEntityCount(objects[..i])]
                   == StaticFixture(HitboxTag(objects[i].objectType, objects[i].properties), HitboxIsSensor(objects[i].objectType))
      {
        if i < |init| {
          assert objects[..i] == init[..i];
          assert objects[i] == init[i];
        } else {
          assert objects[..i] == init;
        }
      }
    }
  }

  /** createEntity never adds a static fixture. */
  lemma EntityInstallKeepsFixtures(lo: LevelObjects, outcome: Result<Created, SkipReason>)
    ensures Install(lo, outcome).fixtures == lo.fixtures
  {
  }
}
