# cppPlatformer contact listener, level loader and platform controller in Dafny

This project models the gameplay core of a 2D SDL/Box2D platformer. It has three parts.

* **The contact listener** (`CollisionListener`). Box2D calls its `BeginContact` and `EndContact` synchronously for every pair of fixtures that start or stop touching. Each fixture carries one integer tag as user data. The listener turns the contacts into gameplay state:
  * the ground, danger, ladder and finish-point counters;
  * the exit level of the finish point last touched;
  * the set of moving-platform bodies and entity fixtures under the player's foot sensor;
  * the per-platform button press counts;
  * the player's gravity scale while on a ladder.
* **The level loader** (`GameLevel::createHitboxes`, `createEntity`, `getTileSourceRect`). It chooses the tag and sensor flag of every static object. It validates entity and moving-platform definitions, finds each tile's tileset and sprite rectangle, and builds the platform table.
* **The platform controller** (`GameLevel::doMovingPlatformLogic`). Once per frame it gates button-driven platforms on their press counts, then turns every active platform round at its boundaries.

The camera culling test `isTileInRect` and the menu hit tests `isPointInRect` and `isPointInButton` are modelled as well.

Layout, one module per file:

| file | module | what |
|---|---|---|
| `wrappers.dfy` | `Wrappers` | `Option`, `Result` |
| `tags.dfy` | `Tags` | tag constants, C++ truncating division, encoding as `category * 1000000 + payload` |
| `contact_rules.dfy` | `ContactRules` | `Begin`/`End` as functions on a `ContactState` value; runs of contact events |
| `collision_listener.dfy` | `Listener` | class `CollisionListener`, whose fields the callbacks update in place, proved equal to `Begin`/`End` |
| `hit_test.dfy` | `HitTest` | point-in-rectangle tests |
| `tiles.dfy` | `Tiles` | tileset table, sprite rectangles, culling test |
| `platforms.dfy` | `Platforms` | platform records, the gate and boundary passes, the platform invariant |
| `loader.dfy` | `Loader` | static fixture tags, entity validation, the platform record built, the whole layer as a fold |
| `game_level.dfy` | `Level` | class `GameLevel` with the search loop, `createEntity`, the `createHitboxes` loop and the two loops of `doMovingPlatformLogic` |
| `scenarios.dfy` | `Scenarios` | properties spanning loader, listener and controller |

The **platform invariant** (`Platforms.PlatformInv`) has three parts:
* an active platform moves at `direction * speed`;
* an inactive one stands still;
* the direction is +1 or -1 on each axis the movement type uses and 0 on the others.

The invariant holds for every platform the loader builds and is kept by every update. `GameLevel.Valid()` carries it for the whole table, together with the well-formedness of the tileset table:
* ascending, distinct first GIDs of at least 1;
* sheets at least one tile wide. The code divides by `tsWidth / 32` only for the tileset a lookup finds (`GameLevel.cpp:90-93`), but the model asks it of every tileset (see "## Left out").

Behaviour of the code that the model keeps as written:
* **Ground test.** `Box2dOverrides.cpp:67-68` excludes ladders and danger tiles by value and everything else by `tag < 100000`. A moving platform (tag 6) therefore counts as ground, and leaving it takes one ground contact away (`Scenarios.LeavingPlatformLeavesOneGround`). A button without a usable platform id keeps tag 0 and counts as ground too (`Scenarios.InvalidButtonIsGround`).
* **Tag decoding.** Tags are decoded with C++ `/`, which truncates toward zero, and the payload is taken by subtraction. A negative platform id therefore decodes into a different category (`Tags.NegativePayloadChangesCategory`).
* **Counters.** The counters are never clamped and can go negative: each one is exactly its begins minus its ends (`ContactRules.RunCounters`).
* **Finish points.** An end compares the tag with the bare constant 5, which an encoded finish tag for a non-negative level never equals, so for such a level the finish count never goes back down. The loader does not check the level, and a level of -4999995 would encode to 5 itself (`ContactRules.FinishEndKeepsCount`).
* **Phantom platforms.** `operator[]` inserts an inactive, zeroed platform for a button id that names no platform (`Platforms.PhantomPlatform`).

## Model

| member | source | states |
|---|---|---|
| Tags.CategoryOf | Box2dOverrides.cpp:45 | the category is the C++ quotient `tag / 1000000` truncated toward zero: `c * 1000000` brackets the tag from below for non-negative tags and from above for negative ones |
| Tags.RoundTrip | GameLevel.cpp:219-221 | a tag encoded from a category >= 0 and a payload in [0, 1000000) decodes to that category and payload |
| Tags.DecodeEncode | Box2dOverrides.cpp:45-48 | every non-negative tag is the encoding of its decoded category and a payload in [0, 1000000) |
| Tags.NegativePayloadChangesCategory | GameLevel.cpp:219-220 | a button tag built from platform id -5 is 6999995 and decodes as the moving-platform category |
| Tags.EncodedTagsAreLarge | Box2dOverrides.cpp:67-68 | an encoded finish or button tag with a non-negative payload is at least 100000 and equals no plain category |
| ContactRules.GravityTracksLadder | Box2dOverrides.cpp:79-81 | once the gravity scale agrees with the ladder count (0 on a ladder, 1 off it), every begin and every end keeps it in agreement |
| ContactRules.AtMostOneChainUpdate | Box2dOverrides.cpp:39-64 | a begin, and likewise an end, changes at most one of the ladder, danger and finish counters and the button table |
| ContactRules.FinishBeginRecordsEntrance | Box2dOverrides.cpp:45-54 | a finish tag `5000000 + level` touching the player body, either side first, adds one finish contact and records `level` as the exit |
| ContactRules.FinishEndKeepsCount | Box2dOverrides.cpp:101-102 | the end of that contact fires no chain branch, because it compares with the raw constant 5; a begin/end pair leaves the finish count one higher |
| ContactRules.ButtonPressAndRelease | Box2dOverrides.cpp:57-64 | a button tag `7000000 + id` touching anything but the foot sensor or another button creates the entry, adds one press on begin and removes one on end |
| ContactRules.SensorDoesNotPress | Box2dOverrides.cpp:57-61 | the foot sensor on a button changes no press count on begin or end |
| ContactRules.GroundCategories | Box2dOverrides.cpp:67-68 | under the foot sensor, plain ground, entities and moving platforms count as ground; ladders, danger tiles and encoded finish or button tags do not |
| ContactRules.MatchedPairRestores | Box2dOverrides.cpp:84-126 | the end of a contact undoes its begin for the ground, ladder and danger counters and every press count |
| ContactRules.SingleEndErases | Box2dOverrides.cpp:91-94 | the platforms underfoot form a set: after two begins of one contact, a single end removes the body |
| ContactRules.SingleEndErasesEntity | Box2dOverrides.cpp:116-120 | the same for entity fixtures underfoot |
| ContactRules.RunCounters | Box2dOverrides.h:31-38 | over any run of events, each counter ends at its start plus ground (resp. ladder, danger, finish) begins minus ends, never clamped |
| ContactRules.RunPressCount | Box2dOverrides.h:47-49 | over any run, a button's press count is its start plus the begins minus the ends that press it |
| ContactRules.LastFinishWins | Box2dOverrides.cpp:47-48 | a run that ends with a finish begin leaves that finish point's level as the exit, whatever came before |
| Listener.CollisionListener.constructor | Box2dOverrides.cpp:3-6 | counters 0, entrance -1, empty sets and table, no player body |
| Listener.CollisionListener.SetPlayerBody | Box2dOverrides.cpp:8 | stores the body and leaves the gameplay state alone |
| Listener.CollisionListener.NullPlayerBody | Box2dOverrides.cpp:9 | forgets the body and leaves the gameplay state alone |
| Listener.CollisionListener.Clear | Box2dOverrides.cpp:12-24 | back to the constructed state |
| Listener.CollisionListener.BeginContact | Box2dOverrides.cpp:26-82 | the fields become `Begin(old state, contact)`; the gravity scale becomes 0 when on a ladder; gravity stays consistent with the ladder count |
| Listener.CollisionListener.EndContact | Box2dOverrides.cpp:84-126 | the fields become `End(old state, contact)`; the gravity scale becomes 1 when off every ladder; gravity stays consistent with the ladder count |
| HitTest.IsPointInRect | PlatformerLogic.cpp:265-272 | inside exactly when within both closed extents |
| HitTest.IsPointInButton | PlatformerLogic.cpp:274-281 | inside exactly when within both closed extents of the button |
| HitTest.ButtonIsRect | PlatformerLogic.cpp:273-281 | the button test is the rectangle test on the button's fields |
| HitTest.CornersInside | PlatformerLogic.cpp:265-272 | both corners of a rectangle of non-negative size are inside |
| HitTest.NegativeSizeIsEmpty | PlatformerLogic.cpp:265-272 | a negative width or height contains no point |
| HitTest.TranslationInvariant | PlatformerLogic.cpp:265-272 | moving point and rectangle together keeps the answer |
| Tiles.FirstContaining | GameLevel.cpp:77-82 | the first tileset, in ascending first-GID order, whose range holds the GID, or none when no range does |
| Tiles.SpriteRect | GameLevel.cpp:88-93 | a 32x32 rectangle, tile-aligned, inside the sheet's width, at row-major position `index` |
| Tiles.TileSourceFound | GameLevel.cpp:76-96 | the lookup fails exactly when no tileset holds the GID; otherwise it picks the holding tileset with the lowest first GID |
| Tiles.IsTileInRect | GameLevel.cpp:145-154 | a culled tile shares no point with the screen; the converse is `Tiles.TileInRectIffOverlap` |
| Tiles.TileInRectIffOverlap | GameLevel.cpp:145-154 | a tile is kept exactly when some point of it, edges included, is a point of the screen |
| Platforms.StepsKeepInv | GameLevel.cpp:345-411 | the gate step and the boundary step of one platform keep the platform invariant |
| Platforms.StaysOnItsAxes | GameLevel.h:70-74 | a platform keeping the invariant has zero velocity on the axes its movement type does not use |
| Platforms.DefaultPlatformInv | GameLevel.cpp:347 | the zeroed record `operator[]` inserts keeps the invariant |
| Platforms.UpdateKeepsInv | GameLevel.cpp:345-411 | a whole update keeps the invariant of every platform in the table |
| Platforms.UpdateKeys | GameLevel.cpp:346-347 | after an update the table holds its old ids plus every id in the button table |
| Platforms.PhantomPlatform | GameLevel.cpp:347-350 | a button id without a platform gets the zeroed record, which uses no button and stays inactive |
| Platforms.UnpressedStops | GameLevel.cpp:352-355 | a gated platform whose count is below 1 ends inactive and at rest, keeping its direction |
| Platforms.PressedRuns | GameLevel.cpp:356-361 | a gated platform whose count is at least 1 ends active, moving at its (possibly reversed) direction times its speed, whatever its state before |
| Platforms.UngatedOnlyBounces | GameLevel.cpp:350 | a platform without a button, or not named by the button table, only goes through the boundary check and keeps its active flag |
| Platforms.InactiveUntouched | GameLevel.cpp:368-372 | the boundary check leaves an inactive platform unchanged |
| Platforms.BoundaryIdempotent | GameLevel.cpp:380-409 | checking the boundaries twice is checking them once: a platform at a boundary does not oscillate within a frame |
| Platforms.BoundaryReversal | GameLevel.cpp:380-409 | left (checked first) sends the platform right and right sends it left; top (checked first) sends it down and bottom sends it up; an axis without a hit keeps its velocity and direction |
| Loader.HitboxTag | GameLevel.cpp:209-240 | only finish points and buttons with a usable platform id carry encoded tags; every other object gets the plain ladder, danger or default tag. The decoding is stated by `Loader.ButtonTagRoundTrip`, `Loader.InvalidButtonIsDefault` and `Loader.FinishTagRoundTrip` |
| Loader.HitboxIsSensor | GameLevel.cpp:209-234 | ladders, buttons and finish points are sensors, so every solid static fixture is plain ground or a danger tile |
| Loader.ButtonTagRoundTrip | GameLevel.cpp:214-223 | a button with platform id in [0, 100000) gets a tag that decodes to the button category and that id |
| Loader.InvalidButtonIsDefault | GameLevel.cpp:214-223 | a button without a platform id, or with one of 100000 or more, keeps tag 0 and is still a sensor |
| Loader.FinishTagRoundTrip | GameLevel.cpp:231-240 | a finish point's tag decodes to the finish category and its level, or 0 without one |
| Loader.NewPlatform | GameLevel.cpp:308-337 | the record createEntity builds keeps the platform invariant; its starting values are stated by `Loader.NewPlatformStart` |
| Loader.NewPlatformStart | GameLevel.cpp:308-337 | a new platform is active exactly when it uses no button; direction 1 on its axes and 0 elsewhere; moving at its speed when ungated and at rest when gated; keeps the invariant |
| Loader.EntityOutcomeSkips | GameLevel.cpp:251-277 | createEntity makes nothing exactly when a platform lacks its direction, a required property is missing, or no tileset holds the tile |
| Loader.EntityOutcomeCreates | GameLevel.cpp:279-342 | otherwise it makes a platform, keyed by the object's id and keeping the invariant, exactly when asked for one, and an entity otherwise |
| Loader.InstallKeepsInv | GameLevel.cpp:337 | inserting a platform that keeps the invariant keeps the table invariant |
| Loader.BuildLevelSound | GameLevel.cpp:167-248 | every platform built keeps the invariant and is keyed by the id of an "mp" object of the layer; there are no more fixtures and entities than objects |
| Loader.BuildLevelFixtures | GameLevel.cpp:181-243 | there are as many static fixtures as objects that are neither "entity" nor "mp", and each fixture has the tag and sensor flag chosen for one such object |
| Loader.BuildLevelFixturesInOrder | GameLevel.cpp:172-247 | the fixture of each object that is neither "entity" nor "mp" sits at the position given by how many such objects precede it; with the count above, each such object gets its own fixture, in layer order |
| Loader.EntityInstallKeepsFixtures | GameLevel.cpp:181-184 | storing what createEntity made adds no static fixture |
| Level.GameLevel.GetTileSourceRect | GameLevel.cpp:76-96 | found exactly when some tileset holds the GID; then the first GID and rectangle of `TileSource`, else -1 |
| Level.GameLevel.PrepareEntity | GameLevel.cpp:250-331 | the validation and construction of createEntity give exactly `EntityOutcome`, and a platform made keeps the invariant |
| Level.GameLevel.Store | GameLevel.cpp:337-342 | the tables become `Install` of the outcome; the level stays valid |
| Level.GameLevel.CreateEntity | GameLevel.cpp:250-343 | the tables become `Install(old tables, EntityOutcome(...))`; the level stays valid; nothing else changes |
| Level.GameLevel.CreateHitboxes | GameLevel.cpp:167-248 | the platform table, entity list and fixtures returned are `BuildLevel` of the collision objects; the level stays valid |
| Level.GameLevel.DoMovingPlatformLogic | GameLevel.cpp:345-411 | the platform table becomes `Update(old table, buttons)`; the level stays valid; nothing else changes |
| Level.GameLevel.GatePlatforms | GameLevel.cpp:346-362 | the table becomes `GatePass(old table, buttons)` |
| Level.GameLevel.CheckBoundaries | GameLevel.cpp:364-410 | the table becomes `BoundaryPass(old table)` |
| Scenarios.LoadedButtonPresses | Box2dOverrides.cpp:57-64 | the tag createHitboxes gives a valid button is read back by the listener: a touch presses that platform id once and its end releases it |
| Scenarios.LoadedFinishRecordsLevel | Box2dOverrides.cpp:45-54 | the tag of a loaded finish point makes the player's touch record its level; the end never lowers the finish count |
| Scenarios.InvalidButtonIsGround | GameLevel.cpp:214-223 | the foot sensor in a button without a usable id counts as ground |
| Scenarios.ButtonDrivesPlatform | GameLevel.cpp:346-361 | one press of an unpressed button starts its gated platform at the next update, moving at direction times speed; applied to that updated table, the release update stops it at rest with its direction kept |
| Scenarios.LeavingPlatformLeavesOneGround | Box2dOverrides.cpp:90-113 | foot sensor on a platform and on ground gives 2 ground contacts; leaving the platform leaves 1 and no platform underfoot |

## Left out

- The Box2D world itself is not part of this model: body and fixture creation, chain and polygon shapes, stepping, and contact detection. Contacts are given as values with opaque body and fixture ids; the moving-platform and entity fixture tags (6 and 8) are taken as given.
- Kinematic bodies are records of position and velocity. Positions never change in this model, because only the physics step moves them.
- `GameLevel::load` (Tiled map parsing and texture loading) is not modelled. The `GameLevel` constructor takes the map height, the tileset table and the collision objects that `load` would read.
- Each tileset's texture width is a field of `Tiles.Tileset` rather than an `SDL_QueryTexture` call on the texture.
- The object property table is a map from name to a record of int, float and bool values. The Tiled property type checks are not modelled.
- Rendering (`GameLevel::render`, the debug draw), audio, fonts, menus and screen loops are not modelled. Neither are `dumpMovingPlatformData` and the console output in the callbacks.
- Tiles.WellFormed: every tileset must be at least 32 pixels wide, though the code needs this only of a tileset that a tile or entity lookup actually finds; a level with an unused narrower tileset, which the code loads, is outside the model.
- Tiles.IsTileInRect: the screen size is a parameter, not the global `SCREEN_WIDTH`/`SCREEN_HEIGHT`.
- Floating point is modelled as exact reals: the pixel-to-metre division by 32, speeds and positions. Rounding is not modelled.
- Integers are unbounded. The 32-bit overflow of a counter, or of a tag built from a huge level or platform id, is not modelled.
- Pointer-to-int casts of the user data are taken as the identity on tags.
- Level.GameLevel.GatePlatforms, Level.GameLevel.CheckBoundaries: the `unordered_map` iteration order is left open; each loop picks any unvisited key. The result is the same for every order, because each step touches only its own entry.
- Level.GameLevel.CreateHitboxes: the returned fixtures stand for the static bodies created in the world; their shapes and positions are not modelled.
