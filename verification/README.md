# A tile-based SDL platformer: game logic in Dafny

This project models the deterministic core of a small SDL2 side-scrolling
platformer, and proves properties of that model. The core has six parts:

- **Tile map.** `TiledMap` loads a Tiled JSON level into:
  - a row-major main-layer grid;
  - sets of solid (`Flat_Terrain`) and hazardous (`Spike`) tile ids;
  - a content size in pixels.

  It answers `isColliding` and `isHazard` for a world point, and culls the visible tile range for drawing.
- **Player.** It sets its velocity from the keyboard. Each frame it applies gravity, moves on x and then on y, and tests four hitbox corners against the map after each move. It then clamps itself to the content and latches into death on a spike.
- **Camera.** It centres the player and is pinned inside a map larger than the screen; a smaller map is centred.
- **Coins.** Coins are collected when they overlap the player's hitbox; collected coins are erased from the vector in place and the score counts them.
- **Start menu.** A cyclic selection over its items, exactly one of which is highlighted.
- **Game.** A state machine over MENU, PLAYING, PAUSED, DEATH_ANIMATION and WIN_ANIMATION. It owns all of the above, clamps the frame time, and decides death and the win.

There is one module per source unit:

- `sdl.dfy` (`SdlTypes`): rectangles, points, keys and events.
- `cppmath.dfy` (`CppMath`): the C++ float-to-int cast, integer division and `std::lround`, plus Uint32 subtraction.
- `json.dfy` (`Json`): a parsed JSON document.
- `tiledmap.dfy` (`TiledMap`)
- `player.dfy` (`PlayerModel`)
- `camera.dfy` (`CameraModel`)
- `coin.dfy` (`Coins`)
- `startmenu.dfy` (`Menu`)
- `game.dfy` (`GameModel`)

Code that changes objects step by step becomes a Dafny class, and each method is proved against a pure specification function:

- `Player` against `Stepped`;
- `Camera` against `FollowAxis`;
- `CoinManager` against `Hits`, `Misses`, `Mark` and `Living`;
- `StartMenu` against `Step` and `Frames`;
- `Game` against the helpers around `CanFollow`.

The properties are lemmas about those functions.

Positions and velocities are `real`. Every `(int)` cast and every C++ integer `/` is written out as truncation toward zero, and `SDL_GetTicks` differences wrap at 2^32. The render scale is 1, the value `startNewGame` sets. The two revisions of the start menu, `src/StartMenu.cpp` and `StartMenu.cpp`, have the same selection logic, so one model serves both.

## Model

| member | source | states |
|---|---|---|
| CppMath.TruncBounds | Player.h:20-21 | `(int)` on a float drops the fraction toward zero: at most 1 below a non-negative value and at most 1 above a negative one |
| CppMath.Round | src/Coin.cpp:22 | `std::lround` lands within 0.5 of its argument, is non-negative for a non-negative argument, and rounds a halfway case away from zero |
| CppMath.CDivRemainder | src/TiledMap.cpp:543-544 | C++ integer division leaves a remainder smaller than the divisor in magnitude, zero or with the dividend's sign |
| CppMath.CDivOfNonNegative | src/TiledMap.cpp:543-544 | for a non-negative coordinate the tile index is the floor quotient, so the coordinate lies inside that tile |
| CppMath.CDivOfNegative | src/TiledMap.cpp:543-544 | a negative coordinate gives an index of at most 0, and exactly 0 when it is within one tile of the origin |
| CppMath.U32Sub | src/Game.cpp:615 | the Uint32 tick difference is below 2^32 and is the plain difference when the clock did not wrap |
| TiledMap.Defaults | TiledMap.h:57-74 | the default map has 16x16 tiles, zero map and content size, and no coin tile |
| TiledMap.NoCoinTilesWithoutCoinRange | TiledMap.h:33-35 | `isCoinTile` is false for every gid when the coin range starts below zero or is empty |
| TiledMap.LoadFailsOnlyOnBadHeader | src/TiledMap.cpp:26-31 | construction fails with the header error exactly when `tilewidth`, `tileheight`, `width` or `height` is missing or not an integer |
| TiledMap.LoadedMapShape | src/TiledMap.cpp:236-239 | a loaded map keeps the header's sizes. Its content size is the main layer's columns and rows times the tile size, or the map size when the main layer is empty. Both layers are rectangular and no tile is a coin |
| TiledMap.LoadedClassification | src/TiledMap.cpp:40-117 | a gid is solid (hazardous) exactly when some valid tileset has a valid tile at that gid with a `Flat_Terrain` (`Spike`) property set to true |
| TiledMap.PropIdsMembers | src/TiledMap.cpp:95-117 | the property loop inserts a tile's gid exactly when one of its properties is the flag set to true |
| TiledMap.TileIdsMembers | src/TiledMap.cpp:85-117 | the tile loop's ids are exactly the gids `firstgid + id` of valid tiles carrying the flag |
| TiledMap.TilesetIdsMembers | src/TiledMap.cpp:42-117 | the tileset loop's ids are exactly those marked by a valid tile of a valid tileset; invalid entries are skipped |
| TiledMap.TilesetIdsSound | src/TiledMap.cpp:44-49 | every id the tileset loop inserts comes from a valid tileset and tile carrying the flag |
| TiledMap.TilesetIdsComplete | src/TiledMap.cpp:87-117 | every valid tile of a valid tileset carrying the flag has its gid inserted |
| TiledMap.ClassifyProps | src/TiledMap.cpp:96-118 | the property loop adds to the solid and hazard sets exactly that tile's flagged ids |
| TiledMap.ClassifyTiles | src/TiledMap.cpp:85-119 | the tile loop adds exactly the flagged gids of the tileset |
| TiledMap.ClassifyTilesets | src/TiledMap.cpp:40-146 | the tileset loop builds exactly the solid and hazard sets of the specification |
| TiledMap.GridCells | src/TiledMap.cpp:212-222 | a flattened layer has `height` rows of `width` cells. Cell (x, y) is `data[y*width+x]` when that entry exists and is an integer, else 0 |
| TiledMap.FlattenLayer | src/TiledMap.cpp:212-222 | the nested x/y loop builds exactly that grid |
| TiledMap.LayersOfShape | src/TiledMap.cpp:150-233 | the layer loop yields rectangular back and main grids, and fails only on a negative layer size (a layer of height 0 loads as an empty grid, see Left out) |
| TiledMap.LoadLayers | src/TiledMap.cpp:150-233 | the imperative layer loop computes the specified layers, stopping at the first negative size |
| TiledMap.LayersErrPropagates | src/TiledMap.cpp:212 | once a layer's size is negative the whole load fails with that error, whatever layers follow |
| TiledMap.Load | src/TiledMap.cpp:26-239 | the constructor's result is the specified loaded map or its error |
| TiledMap.Loaded | src/TiledMap.cpp:26-239 | the constructor as a value: the map a parsed level yields, or the first error. It has no contract of its own; LoadFailsOnlyOnBadHeader, LoadedMapShape and LoadedClassification characterise it |
| TiledMap.CellAt | src/TiledMap.cpp:554-555 | the corrected cell read: a non-empty tile id is always the cell stored in the main layer at that row and column |
| TiledMap.IsColliding | src/TiledMap.cpp:537-556 | `isColliding`: solid outside the layer, else whether the cell is a solid id. It has no contract of its own; QueriesReadTheMainLayer, OutsideContentIsSolid and NearOriginReadsColumnZero characterise it |
| TiledMap.IsHazard | src/TiledMap.cpp:284-315 | `isHazard`: never outside the layer, else whether the cell is a hazard id. It has no contract of its own; the same lemmas characterise it |
| TiledMap.QueriesReadTheMainLayer | src/TiledMap.cpp:537-556 | inside the layer, `isColliding` (`isHazard`) is membership of the main-layer cell in the solid (hazard) set |
| TiledMap.NearOriginReadsColumnZero | src/TiledMap.cpp:539-544 | a point less than one tile left of the origin truncates into column 0 and answers as column 0 does |
| TiledMap.OutsideContentIsSolid | src/TiledMap.cpp:549-551 | outside the content a point is colliding and not hazardous (isHazard's out-of-range branch is at src/TiledMap.cpp:297-299) |
| TiledMap.EmptyMainLayerPassesBoundsCheck | src/TiledMap.cpp:545-554 | as written: a header-only level loads, and point (0, 0) passes the bounds check with an empty main layer, so the read `mainLayer[0][0]` is out of range |
| TiledMap.MissingCellsReadAsEmpty | src/TiledMap.cpp:545-555 | corrected: at a point that passes the bounds check but whose cell the main layer lacks, `isColliding` holds exactly when 0 is a solid id and `isHazard` exactly when 0 is a hazard id |
| TiledMap.HeaderOnlyOriginIsOpen | src/TiledMap.cpp:545-555 | corrected, on the level of the finding: point (0, 0) of the header-only map, which the source reads out of range, neither collides nor is hazardous |
| TiledMap.VisibleRange | src/TiledMap.cpp:475-478 | the culling range satisfies `0 <= startX`, `endX <= layerWidth`, `0 <= startY` and `endY <= layerHeight` |
| TiledMap.VisibleRangeCoversView | src/TiledMap.cpp:389-392 | every tile whose pixel square overlaps the view lies inside the culling range |
| TiledMap.VisibleTiles | src/TiledMap.cpp:462-483 | the render loop yields nothing for an empty layer or missing textures. Otherwise it yields exactly the non-zero cells of the culling range, each read in bounds |
| PlayerModel.DeadPlayerIsFrozen | src/Player.cpp:58-61 | a dead player is unchanged by input, physics and the hazard check over any number of frames |
| PlayerModel.InputRules | src/Player.cpp:41-55 | horizontal velocity is +speed if right is held, else -speed if left is held, else 0. A jump happens exactly when space or up is held on the ground. Input never moves, kills or revives |
| PlayerModel.MoveXNeverEntersWall | src/Player.cpp:65-89 | the x move either reaches the new x with all corners free, or reverts x and zeroes `vx` because a corner collides |
| PlayerModel.LandingSnapsToTileTop | src/Player.cpp:117-123 | a landing puts the hitbox bottom on a tile-row boundary, at or above the fallen-to point and less than a tile above it |
| PlayerModel.VerticalOutcomes | src/Player.cpp:91-130 | on a bottom contact while falling the player lands; on a top contact while rising y reverts; with no contact the player leaves the ground |
| PlayerModel.ClampKeepsInside | src/Player.cpp:143-159 | after the clamp the sprite lies in the content when the content fits it. Pushing up from below grounds the player. A sprite already inside is unchanged |
| PlayerModel.FrameStaysInContent | src/Player.cpp:58-162 | after one frame of a living player the sprite lies inside the content, when the content is at least 16x24 |
| PlayerModel.HazardLatch | src/Player.cpp:164-185 | the hazard check kills exactly when a final corner is hazardous, and changes nothing else |
| PlayerModel.HitboxRect | Player.h:18-24 | `getWorldRect` is the 12x18 hitbox, lying inside the 16x24 sprite |
| PlayerModel.Input | src/Player.cpp:35-56 | input never moves the player and never kills or revives it (InputRules gives the velocity rules) |
| PlayerModel.MoveXTo | src/Player.cpp:67-89 | the horizontal move changes only x and vx: it reaches the new x, or keeps the old x with vx zeroed |
| PlayerModel.SnapY | src/Player.cpp:117-123 | the landing y. It has no contract of its own; LandingSnapsToTileTop characterises it |
| PlayerModel.MoveYTo | src/Player.cpp:91-130 | the vertical move leaves x, vx and life alone, and a player becomes grounded only by a landing that stops its fall |
| PlayerModel.Clamp | src/Player.cpp:143-159 | the clamp keeps vx and life, and changes the ground flag only to grounded with vy 0 |
| PlayerModel.Hazard | src/Player.cpp:164-185 | the hazard check changes only the dead flag, and a dead player stays dead |
| PlayerModel.Stepped | src/Player.cpp:58-162 | a dead player does not change, and a frame either keeps the horizontal velocity or zeroes it against a wall |
| PlayerModel.AnyCornerColliding | src/Player.cpp:78-84 | the x-test loop finds a collision exactly when a corner collides |
| PlayerModel.ClassifyCorners | src/Player.cpp:102-115 | the y-test loop sets top (bottom) exactly when a top (bottom) corner collides |
| PlayerModel.FirstHazardCorner | src/Player.cpp:177-184 | the hazard loop stops at the first hazardous corner, and finds one exactly when one exists |
| PlayerModel.Player.constructor | src/Player.cpp:7-19 | a new player is at rest at (0, 0), alive and not on the ground |
| PlayerModel.Player.SetPosition | Player.h:14-15 | `getPosition` after `setPosition(p)` returns p; nothing else changes |
| PlayerModel.Player.Kill | Player.h:30 | sets only `dead` |
| PlayerModel.Player.Respawn | Player.h:31 | clears only `dead`: position and velocity are kept |
| PlayerModel.Player.HandleInput | src/Player.cpp:35-56 | the new state is `Input` of the old one (see InputRules) |
| PlayerModel.Player.Update | src/Player.cpp:58-162 | the new state is one `Stepped` frame of the old (see the lemmas above) |
| PlayerModel.Player.MoveHorizontally | src/Player.cpp:65-89 | the new state is `MoveXTo` of the old |
| PlayerModel.Player.MoveVertically | src/Player.cpp:91-130 | the new state is `MoveYTo` of the old |
| PlayerModel.Player.ClampToContent | src/Player.cpp:143-159 | the new state is the clamp of the old |
| PlayerModel.Player.CheckCollisionsWithHazards | src/Player.cpp:164-185 | the new state is the hazard latch of the old |
| CameraModel.Clamp | src/Camera.h:44 | `std::clamp` stays in its bounds, and is the value itself inside them and the nearer bound outside |
| CameraModel.FollowAxis | src/Camera.h:17-55 | on a map larger than the screen the origin lies in [0, map - screen]; on a smaller map it is at most 0 |
| CameraModel.SmallMapIsCentred | src/Camera.h:41-43 | a map no wider than the screen is centred whatever the player does, at an offset of at most 0 |
| CameraModel.LargeMapIsClamped | src/Camera.h:27-45 | on a larger map the origin lies in [0, map - screen]. It equals the centring target when that target is in range, and the nearer edge otherwise |
| CameraModel.FollowIsMonotone | src/Camera.h:17-55 | the camera never moves back while the player moves forward |
| CameraModel.ViewOf | src/Camera.h:57-59 | `getView` is screen-sized, and for a non-negative origin its corner is the truncated origin |
| CameraModel.ViewStaysOnLargeMap | src/Camera.h:57-59 | on a larger map the view rectangle lies within the map's pixels |
| CameraModel.Camera.constructor | src/Camera.h:9-14 | sizes as given, origin at (0, 0) |
| CameraModel.Camera.Follow | src/Camera.h:17-55 | the origin is `FollowAxis` of the player position on each axis, independent of the old origin, so following twice changes nothing |
| Coins.IntersectsIsSymmetric | src/Coin.cpp:8-11 | the overlap test is symmetric |
| Coins.TouchingEdgesDoNotIntersect | src/Coin.cpp:8-11 | rectangles that only share an edge do not overlap |
| Coins.IntersectsIffSharedPixel | src/Coin.cpp:8-11 | for non-empty rectangles the test holds exactly when they share a pixel (half-open intervals) |
| Coins.Intersects | src/Coin.cpp:8-11 | the strict overlap test. It has no contract of its own; IntersectsIsSymmetric, TouchingEdgesDoNotIntersect and IntersectsIffSharedPixel characterise it |
| Coins.SpawnedCoin | src/Coin.cpp:20-24 | a spawned coin is alive and size by size, with its corner within half a pixel of the point |
| Coins.Hits | src/Coin.cpp:32-39 | a pass collects no more coins than there are, each alive and overlapping the player |
| Coins.Mark | src/Coin.cpp:32-36 | the first loop as a value: every hit coin marked dead. It has no contract of its own; MarkThenSweep characterises it |
| Coins.Misses | src/Coin.cpp:42-43 | no more coins survive than there were, each alive and clear of the player |
| Coins.Living | src/Coin.cpp:42-43 | the erase-remove keeps no more coins than there were, all alive |
| Coins.SpawnedCoins | src/Coin.cpp:18-26 | one alive size-by-size coin per point, in order, within half a pixel of the point |
| Coins.MarkThenSweep | src/Coin.cpp:32-43 | marking the hit coins dead and erasing the dead ones leaves exactly the coins that were missed, in order |
| Coins.MissesMembers | src/Coin.cpp:42-43 | a coin survives exactly when it was alive and did not overlap the player |
| Coins.MissesOfConcat | src/Coin.cpp:42-43 | survivors keep their relative order |
| Coins.HitsAndMissesPartition | src/Coin.cpp:32-43 | with all coins alive, every coin is either collected or kept |
| Coins.SecondPassCollectsNothing | src/Coin.cpp:29-46 | a second pass with the same hitbox collects nothing and keeps everything, so no coin counts twice |
| Coins.CoinManager.constructor | src/Coin.hpp:21 | a new manager has no coins |
| Coins.CoinManager.SpawnFixed | src/Coin.cpp:18-26 | the spawned coins are appended after the existing ones |
| Coins.CoinManager.UpdateOnPlayerCollision | src/Coin.cpp:29-46 | the score grows by the number of alive coins hit, and the result says whether any was hit. One tile clear is requested per collected coin at its corner. The survivors are exactly the missed coins |
| Coins.CoinManager.MarkCollected | src/Coin.cpp:30-39 | the first loop marks exactly the hit coins dead, counts them and records their corners |
| Coins.CoinManager.RemoveDead | src/Coin.cpp:42-43 | the erase-remove keeps exactly the alive coins in order |
| Coins.CoinManager.Clear | src/Coin.cpp:67-68 | no coins remain |
| Menu.Step | src/StartMenu.cpp:79-112 | each event keeps the selection index inside the item list and the item count unchanged |
| Menu.Steps | src/StartMenu.cpp:79-112 | so does a whole poll of events |
| Menu.Frames | src/StartMenu.cpp:172-176 | so does the run loop over frames |
| Menu.Choice | src/StartMenu.cpp:180-189 | selections 0, 1 and 2 map to themselves, anything else to 0 |
| Menu.UpDownKeepOneSelected | src/StartMenu.cpp:86-97 | Up moves to `(cur-1+n) % n`, wrapping from 0 to n-1, and Down to `(cur+1) % n`. Exactly one item stays highlighted and `quit` is untouched |
| Menu.PreviousIndex | src/StartMenu.cpp:89 | `(cur-1+n) % n` is n-1 at 0 and cur-1 otherwise |
| Menu.NextIndex | src/StartMenu.cpp:95 | `(cur+1) % n` is 0 at n-1 and cur+1 otherwise |
| Menu.SelectKeepsOneSelected | src/StartMenu.cpp:88-90 | moving the highlight keeps exactly one item highlighted |
| Menu.UpDownRoundTrip | StartMenu.cpp:100-114 | Up undoes Down and Down undoes Up |
| Menu.DownPresses | StartMenu.cpp:108-114 | k presses of Down move the selection to `(cur+k) % n` |
| Menu.ConfirmKeepsSelection | src/StartMenu.cpp:100-103 | Return and Space set only `quitMenu` |
| Menu.EscapeChoosesExit | src/StartMenu.cpp:105-108 | Escape selects the last item and quits without touching the highlight flags. So with the selection elsewhere, the highlight no longer matches it |
| Menu.OtherEventsKeepSelection | src/StartMenu.cpp:81-110 | the close event sets only `quitMenu`; clicks, other events and unbound keys change nothing |
| Menu.QuitIsFinal | src/StartMenu.cpp:172-176 | once the menu has quit, further frames are not handled |
| Menu.ResetIsConsistent | src/StartMenu.cpp:213-218 | reset puts a non-empty menu on the first item, highlighted alone, not quitting |
| Menu.StartMenu.constructor | src/StartMenu.h:1-46 | a new menu has no items, selection 0, not quitting |
| Menu.StartMenu.Init | src/StartMenu.cpp:21-38 | with the font, three items are appended and the first is highlighted; without it, init fails with no items |
| Menu.StartMenu.HandleEvent | src/StartMenu.cpp:81-110 | one event: the new state is `Step` of the old |
| Menu.StartMenu.HandleEvents | src/StartMenu.cpp:79-112 | the poll loop: the new state is `Steps` of the old |
| Menu.StartMenu.Run | src/StartMenu.cpp:169-190 | the new state is `Frames` of the old; when the menu finished, the result is `Choice` of the selection |
| Menu.StartMenu.Reset | StartMenu.cpp:237-243 | the new state is the consistent reset state of the same item count |
| GameModel.FrameDelta | src/Game.cpp:614-622 | the frame time is in [0, 0.05]. It is the measured interval in seconds when at most 50 ms, including across a clock wrap, and 0.05 when longer |
| GameModel.AfterUpdate | src/Game.cpp:221-243 | a dead player goes to the death screen even past the finish line; a living one at x >= 4600 wins; otherwise play continues |
| GameModel.AnimationFrame | src/Game.cpp:248-281 | a closed screen saw a quit. A screen that expires or stays saw no quit, key or click. It expires only once the display time has elapsed, and stays only before that |
| GameModel.QuietFrameWaitsForTimer | src/Game.cpp:265-281 | with no quit, key or click, an animation frame ends exactly when the elapsed time reaches the display time |
| GameModel.FirstPressDecides | src/Game.cpp:248-261 | the first quit, key or click decides the animation frame whatever the timer says: a quit closes, a key or click skips |
| GameModel.FailedLoadPlaysWithoutWorld | src/Game.cpp:140-146 | as written: when the level fails to load, choice 0 still enters PLAYING with no map, player or camera |
| GameModel.MenuAsWritten | src/Game.cpp:140-161 | as written: choices 0 and 1 enter PLAYING and others stay in MENU, whether or not a world exists; only choice 2 stops the game |
| GameModel.MenuGuarded | src/Game.cpp:140-161 | corrected: the menu enters PLAYING only with a world, and otherwise stays in MENU |
| GameModel.GuardedAgreesWhenWorldExists | src/Game.cpp:140-161 | the correction changes nothing when the level loads or a world is kept; only choice 2 stops the game |
| GameModel.Game.constructor | src/Game.cpp:27-85 | after init the game is in MENU and running, with score 0, no world, no coins and the clock read once. The menu has its three items exactly when its font loaded |
| GameModel.Game.Tick | src/Game.cpp:613-622 | `deltaTime` is the clamped tick difference and `lastUpdateTime` the new reading |
| GameModel.Game.HandleEvents | src/Game.cpp:171-187 | a quit event stops the loop; Escape changes the state only when PLAYING, and then to MENU |
| GameModel.Game.Update | src/Game.cpp:200-244 | outside PLAYING nothing changes, the camera included (so PAUSED never advances), and nothing is cleared or locked. In PLAYING, the player takes one input-and-physics step, coins and score follow its new hitbox, the camera follows it, and the state becomes `AfterUpdate` with the death or win time stamped. The cleared tiles are the collected coins' corners, and the lock is asked below y 480 |
| GameModel.Game.StepWorld | src/Game.cpp:205-219 | input, physics, coin pickup against the new hitbox and the camera follow, composed |
| GameModel.Game.CheckOutcome | src/Game.cpp:221-243 | death is checked first. Otherwise the camera follows again, the lock is requested below y 480, and the win starts at x >= 4600 |
| GameModel.Game.RunPlayingState | src/Game.cpp:189-198 | events, then update on the screen the events left: Escape during play returns to MENU and the world stands still; otherwise the world moves as update says. The screen moves only along `CanFollow` |
| GameModel.Game.RunDeathAnimation | src/Game.cpp:246-281 | a quit stops the loop. A key, a click or an elapsed display time returns to MENU and revives the player in place |
| GameModel.Game.RunWinAnimation | src/Game.cpp:321-352 | the same transitions as the death screen, without reviving the player |
| GameModel.Game.StartNewGame | src/Game.cpp:490-553 | the score becomes 0. If the level loads: a camera over its content, a player at rest at (100, 100), the spawned coins appended to the existing ones, and the camera centred on the player. Otherwise there is no world |
| GameModel.Game.RunMenuState | src/Game.cpp:131-169 | the menu is reset and run. An unfinished menu leaves the game as it was. A finished one leads where `MenuGuarded` says: a new game, with the same world, player, camera and coins as StartNewGame; the current world kept unchanged; or the loop stopped |
| GameModel.Game.ActOnChoice | src/Game.cpp:140-161 | the switch on the menu's choice, corrected: a new game as StartNewGame builds it, the current world kept unchanged, or the loop stopped, as `MenuGuarded` says |
| GameModel.Game.RunFrame | src/Game.cpp:612-650 | a frame measures the clamped time, then runs the current screen. The new state is what that screen's method promises: the menu, one playing (or paused) frame, or a death or win screen frame. The menu changes only on its own screen, and the state moves only along `CanFollow` |
| GameModel.Game.RunScreen | src/Game.cpp:634-650 | the switch on the current screen: each case does what its screen's method promises, and a paused game runs the playing frame, in which nothing moves |
| GameModel.Game.Run | src/Game.cpp:605-651 | the loop runs frames until the game stops; every frame's delta is at most 0.05 |

## Left out

- Rendering, textures, fonts, audio, music, logging and the static debug counters are not modelled. They have no effect on game state.
- SDL input is a parameter:
  - each frame's polled events are a list;
  - the keyboard snapshot is a `Keys` value;
  - `SDL_GetTicks` is an integer argument.

  The source reads the clock again inside a frame: for the death and win screens' elapsed time (src/Game.cpp:264, 337), and for the win and death stamps (src/Game.cpp:396, 484). The model uses the frame's single reading `now` for all of them. The frame delay and the 16 ms wait are left out.
- File reading and JSON parsing are not modelled. The level is an already parsed `Json` value, so their exceptions are not modelled.
- Image layers and item tiles are not modelled (textures only).
- IEEE float rounding is not modelled. Positions are exact reals, and `(int)` casts are truncation.
- 32-bit `int` is not modelled: integers are unbounded. This affects:
  - the narrowing `get<int>()` of JSON numbers (src/TiledMap.cpp:51, 208-209, 220);
  - `firstGid + localId` (src/TiledMap.cpp:92);
  - `y * layerWidth + x` (src/TiledMap.cpp:215);
  - `layerWidth * tileWidth` (src/TiledMap.cpp:238);
  - `++score` (src/Coin.cpp:35).

  `Trunc` is total, whereas `(int)` of a float outside the `int` range is undefined behaviour.
- A tile layer of height 0 is not modelled as written. It builds an empty grid, and the log line after it (src/TiledMap.cpp:226 for back, 229 for main) reads row 0 of that empty vector, which is undefined behaviour. The model loads the layer as an empty grid; for the main layer the queries then fall back to the map size, as in the first finding.
- The render scale is fixed at 1, as `startNewGame` sets it.
- The landing sound and its 300 ms cooldown, and the jump sound, are left out (audio only).
- `wasOnGround` is kept as a field that only the constructor sets.
- Three functions are not part of this model. `TiledMap::getCoinPositions` and `TiledMap::clearCoinTileAt` are declared in TiledMap.h but not defined in src/TiledMap.cpp. `Camera::setLockedCenterY`, called at src/Game.cpp:234, is not declared in src/Camera.h.
  - Update returns the lock request as a flag.
  - The coin spawn points are a constructor argument of the game.
  - The coin manager returns the clear requests as points.
- GameModel.Game.RunMenuState: the menu's `run` polls until it quits. The model takes a finite list of frames, and when they run out without a quit the game is left as it was.
- GameModel.Game.constructor: SDL, window, renderer and image-library failures in `init` are left out. Only the success path is modelled, with the menu's font as a parameter.
- GameModel.Game.RunMenuState, RunFrame and Run: these require a non-empty menu. With no items, Up and Down divide by zero in `StartMenu::handleEvents`, which is undefined behaviour.
- The tile size must not be 0. Both the queries and the landing snap divide by it, and the game requires it of the level it loads.
- The `startMenu == nullptr` branch of `runMenuState` is not modelled: `init` always creates the menu.
- Nothing ever enters PAUSED. It is kept in the state type and runs the playing frame like the source does.
- The game model uses the corrected menu transition; the as-written one is kept as `MenuAsWritten` for the finding below.
- `coins.clear` is never called by the game, so every new game appends its coins to those left from the last. This is modelled as written. It is not listed as a finding, because `getCoinPositions` has no definition to show what it returns, and the loader never sets a coin range.

## Findings

| source | as written | input that shows it | evidently intended | confidence | as-written member | corrected member |
|---|---|---|---|---|---|---|
| src/TiledMap.cpp:545-555 | with an empty main layer the bounds check uses `width` and `height` from the header, then reads `mainLayer[tileY][tileX]` | a level with only the four header fields (16x16 tiles, 10x10 map), queried at (0, 0) | a cell the main layer does not have reads as empty | not executed | TiledMap.EmptyMainLayerPassesBoundsCheck | TiledMap.MissingCellsReadAsEmpty |
| src/Game.cpp:140-146 | after `startNewGame` the state becomes PLAYING even when the level failed to load and map, player and camera are null; the next `update` dereferences the player | a level file that fails to load, then menu choice 0 | stay in the menu when no world was built | not executed | GameModel.FailedLoadPlaysWithoutWorld | GameModel.MenuGuarded |
