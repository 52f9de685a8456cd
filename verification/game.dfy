/** The game loop: a state machine over menu, playing, death and win
    screens that owns the level, the player, the camera, the coins and the
    start menu. Ticks, events and keyboard snapshots are parameters; the
    level file is a constant JSON document. */
module GameModel {
  import opened SdlTypes
  import opened CppMath
  import opened Json
  import opened TiledMap
  import opened PlayerModel
  import CameraModel
  import Coins
  import MenuModel = Menu

  datatype Option<T> = None | Some(value: T)

  /** `Game::GameState`. Nothing ever enters Paused; it runs the playing
      frame like Playing does. */
  datatype GameState = Menu | Playing | Paused | DeathAnimation | WinAnimation

  const ScreenWidth: int := 800
  const ScreenHeight: int := 350
  const InitialDeltaTime: real := 0.016
  const MaxDeltaTime: real := 0.05
  const DeathDisplayTime: int := 200000
  const WinDisplayTime: int := 300000
  const StartX: real := 100.0
  const StartY: real := 100.0
  /** Below this height update asks the camera to lock its centre. */
  const LockCentreFromY: real := 480.0
  /** Reaching this x wins the level. */
  const FinishX: real := 4600.0

  const TicksModulus: int := 0x1_0000_0000

  /** The level can be queried once loaded: a loaded map has non-zero tile
      sizes (the source divides by them). */
  predicate LevelUsable(level: Json) {
    Loaded(level).Ok? ==> Queryable(Loaded(level).value)
  }

  // ---------------------------------------------------------------------
  // Frame timing

  /** The frame time `run` computes from two `SDL_GetTicks` readings: the
      unsigned difference in seconds, capped at MAX_DELTA_TIME. */
  function FrameDelta(now: int, last: int): (d: real)
    ensures 0.0 <= d <= MaxDeltaTime
    ensures 0 <= last <= now < TicksModulus && now - last <= 50 ==> d == (now - last) as real / 1000.0
    ensures 0 <= last <= now < TicksModulus && now - last >= 50 ==> d == MaxDeltaTime
    ensures 0 <= now < last < TicksModulus && now + TicksModulus - last <= 50 ==>
      d == (now + TicksModulus - last) as real / 1000.0
  {
    var measured := U32Sub(now, last) as real / 1000.0;
    if measured > MaxDeltaTime then MaxDeltaTime else measured
  }

  // ---------------------------------------------------------------------
  // The state machine

  /** The screens a frame may move the game between: the menu starts a
      game (or stays), play ends in the menu, a death or a win, and the
      two animations return to the menu. */
  predicate CanFollow(a: GameState, b: GameState) {
    match a
    case Menu => b == Menu || b == Playing
    case Playing => b == Playing || b == Menu || b == DeathAnimation || b == WinAnimation
    case Paused => b == Paused
    case DeathAnimation => b == DeathAnimation || b == Menu
    case WinAnimation => b == WinAnimation || b == Menu
  }

  /** Where `update` leaves a playing game whose player ended the frame in
      `b`: death is checked before the finish line. */
  function AfterUpdate(b: Body): (s: GameState)
    ensures s == DeathAnimation <==> b.dead
    ensures s == WinAnimation <==> !b.dead && b.x >= FinishX
    ensures s == Playing <==> !b.dead && b.x < FinishX
  {
    if b.dead then DeathAnimation else if b.x >= FinishX then WinAnimation else Playing
  }

  /** How one frame of the death or win screen ends: the first quit or
      key/mouse press among the polled events decides, otherwise the timer
      does. */
  datatype AnimationEnd = Closed | Skipped | Expired | Showing

  function AnimationFrame(events: seq<Event>, elapsed: int, displayTime: int): (r: AnimationEnd)
    ensures r == Closed ==> Quit in events
    ensures r == Expired || r == Showing ==> forall i :: 0 <= i < |events| ==> events[i].OtherEvent?
    ensures r == Expired ==> elapsed >= displayTime
    ensures r == Showing ==> elapsed < displayTime
  {
    if |events| == 0 then (if elapsed >= displayTime then Expired else Showing)
    else match events[0]
      case Quit => Closed
      case KeyDown(_) => Skipped
      case MouseButtonDown => Skipped
      case OtherEvent => AnimationFrame(events[1..], elapsed, displayTime)
  }

  /** Without a quit, key or click the screen stays until the display time
      has elapsed, and then leaves. */
  lemma {:induction false} QuietFrameWaitsForTimer(events: seq<Event>, elapsed: int, displayTime: int)
    requires forall i :: 0 <= i < |events| ==> events[i].OtherEvent?
    ensures AnimationFrame(events, elapsed, displayTime) == (if elapsed >= displayTime then Expired else Showing)
  {
    if |events| > 0 {
      QuietFrameWaitsForTimer(events[1..], elapsed, displayTime);
    }
  }

  /** The first quit, key or click decides the frame, whatever the timer
      says and whatever follows it. */
  lemma {:induction false} FirstPressDecides(events: seq<Event>, k: nat, elapsed: int, displayTime: int)
    requires k < |events| && !events[k].OtherEvent?
    requires forall i :: 0 <= i < k ==> events[i].OtherEvent?
    ensures AnimationFrame(events, elapsed, displayTime) == (if events[k].Quit? then Closed else Skipped)
  {
    if k > 0 {
      FirstPressDecides(events[1..], k - 1, elapsed, displayTime);
    }
  }

  /** What a finished start menu leads to. `worldAfter`: map, player and
      camera exist afterwards; `newGame`: startNewGame ran. */
  datatype MenuOutcome = MenuOutcome(state: GameState, stops: bool, newGame: bool, worldAfter: bool)

  /** runMenuState as written (Game.cpp:140-161): choices 0 and 1 without a
      world start a new game and enter PLAYING even if the level failed to
      load, leaving map, player and camera null for update to dereference. */
  function MenuAsWritten(choice: int, worldPresent: bool, loads: bool): (r: MenuOutcome)
    ensures r.state == Playing <==> choice == 0 || choice == 1
    ensures r.state == Menu <==> !(choice == 0 || choice == 1)
    ensures r.stops <==> choice == 2
  {
    if choice == 0 then MenuOutcome(Playing, false, true, loads)
    else if choice == 1 then
      if worldPresent then MenuOutcome(Playing, false, false, true)
      else MenuOutcome(Playing, false, true, loads)
    else if choice == 2 then MenuOutcome(Menu, true, false, worldPresent)
    else MenuOutcome(Menu, false, false, worldPresent)
  }

  /** A level that fails to load still sends a new game into PLAYING with
      no world. */
  lemma FailedLoadPlaysWithoutWorld(worldPresent: bool)
    ensures var r := MenuAsWritten(0, worldPresent, false); r.state == Playing && !r.worldAfter
  {
  }

  /** runMenuState as evidently intended: a new game that produced no
      world stays in the menu. */
  function MenuGuarded(choice: int, worldPresent: bool, loads: bool): (r: MenuOutcome)
    ensures r.state == Playing ==> r.worldAfter
    ensures r.state == Playing || r.state == Menu
  {
    var w := MenuAsWritten(choice, worldPresent, loads);
    if w.state == Playing && !w.worldAfter then w.(state := Menu) else w
  }

  /** The guard changes nothing when the level loads, and whenever the
      written code would keep a world. */
  lemma GuardedAgreesWhenWorldExists(choice: int, worldPresent: bool, loads: bool)
    ensures MenuAsWritten(choice, worldPresent, loads).worldAfter ==>
      MenuGuarded(choice, worldPresent, loads) == MenuAsWritten(choice, worldPresent, loads)
    ensures loads ==> MenuGuarded(choice, worldPresent, loads) == MenuAsWritten(choice, worldPresent, loads)
    ensures MenuGuarded(choice, worldPresent, loads).stops <==> choice == 2
  {
  }

  /** One frame of input to the main loop: the tick reading, the events
      polled, the keyboard snapshot, and the events the start menu polls
      frame by frame while it is shown. */
  datatype Frame = Frame(now: int, events: seq<Event>, keys: Keys, menuFrames: seq<seq<Event>>)

  class Game {
    /** The level file the game loads on every new game. */
    const level: Json
    /** What the loaded map reports as coin positions. */
    const coinSpawns: seq<FPoint>
    const coins: Coins.CoinManager
    const startMenu: MenuModel.StartMenu

    var gameState: GameState
    var isRunning: bool
    var score: int
    var deltaTime: real
    var lastUpdateTime: int
    var deathStartTime: int
    var winStartTime: int
    var world: Option<TileMap>
    var player: Player?
    var camera: CameraModel.Camera?

    /** The world is all or nothing, it is built from the level, and a
        playing game has one. */
    predicate Valid()
      reads this
    {
      && LevelUsable(level)
      && (world.Some? <==> player != null)
      && (world.Some? <==> camera != null)
      && (world.Some? ==> Loaded(level) == Ok(world.value))
      && (camera != null ==>
            && camera.screenWidth == ScreenWidth && camera.screenHeight == ScreenHeight
            && camera.mapPixelWidth == world.value.contentPixelWidth
            && camera.mapPixelHeight == world.value.contentPixelHeight)
      && (gameState == Playing || gameState == Paused ==> world.Some?)
    }

    /** The start menu has items, so its Up/Down arithmetic is defined. */
    predicate MenuReady()
      reads startMenu
    {
      |startMenu.isSelected| > 0
    }

    /** `Game()` followed by a successful `init()`: menu screen, running,
        no world, the clock read once. The menu has its three items only
        if its font loaded. */
    constructor (level: Json, coinSpawns: seq<FPoint>, fontLoaded: bool, now: int)
      requires LevelUsable(level)
      ensures this.level == level && this.coinSpawns == coinSpawns
      ensures Valid()
      ensures gameState == Menu && isRunning && score == 0
      ensures deltaTime == InitialDeltaTime && lastUpdateTime == now
      ensures deathStartTime == 0 && winStartTime == 0
      ensures world.None? && player == null && camera == null
      ensures fresh(coins) && coins.coins == []
      ensures fresh(startMenu)
      ensures startMenu.State() == MenuModel.MenuState(if fontLoaded then [true, false, false] else [], 0, false)
      ensures MenuReady() <==> fontLoaded
    {
      this.level := level;
      this.coinSpawns := coinSpawns;
      var menu := new MenuModel.StartMenu();
      var ok := menu.Init(fontLoaded);
      startMenu := menu;
      coins := new Coins.CoinManager();
      gameState, isRunning, score := Menu, true, 0;
      deltaTime, lastUpdateTime := InitialDeltaTime, now;
      deathStartTime, winStartTime := 0, 0;
      world, player, camera := None, null, null;
    }

    /** The timing lines at the top of every `run` iteration. */
    method Tick(now: int)
      modifies this
      ensures deltaTime == FrameDelta(now, old(lastUpdateTime))
      ensures lastUpdateTime == now
      ensures gameState == old(gameState) && isRunning == old(isRunning) && score == old(score)
      ensures deathStartTime == old(deathStartTime) && winStartTime == old(winStartTime)
      ensures world == old(world) && player == old(player) && camera == old(camera)
    {
      deltaTime := U32Sub(now, lastUpdateTime) as real / 1000.0;
      lastUpdateTime := now;
      if deltaTime > MaxDeltaTime {
        deltaTime := MaxDeltaTime;
      }
    }

    /** handleEvents: a quit event stops the loop; Escape during play
        returns to the menu; everything else is ignored. */
    method HandleEvents(events: seq<Event>)
      modifies this
      ensures isRunning == (old(isRunning) && Quit !in events)
      ensures gameState == (if old(gameState) == Playing && KeyDown(Escape) in events then Menu else old(gameState))
      ensures score == old(score) && deltaTime == old(deltaTime) && lastUpdateTime == old(lastUpdateTime)
      ensures deathStartTime == old(deathStartTime) && winStartTime == old(winStartTime)
      ensures world == old(world) && player == old(player) && camera == old(camera)
    {
      var i := 0;
      while i < |events|
        invariant 0 <= i <= |events|
        invariant isRunning == (old(isRunning) && Quit !in events[..i])
        invariant gameState == (if old(gameState) == Playing && KeyDown(Escape) in events[..i] then Menu else old(gameState))
        invariant score == old(score) && deltaTime == old(deltaTime) && lastUpdateTime == old(lastUpdateTime)
        invariant deathStartTime == old(deathStartTime) && winStartTime == old(winStartTime)
        invariant world == old(world) && player == old(player) && camera == old(camera)
      {
        assert events[..i + 1] == events[..i] + [events[i]];
        match events[i] {
          case Quit =>
            isRunning := false;
          case KeyDown(k) =>
            if k == Escape && gameState == Playing {
              gameState := Menu;
            }
          case MouseButtonDown =>
          case OtherEvent =>
        }
        i := i + 1;
      }
      assert events[..i] == events;
    }

    /** What update does to the world, from the state before it to the
        state after it, when it finds the game on `screen`. Outside PLAYING
        nothing in the world changes, so a paused game stands still. In
        PLAYING the player takes one input-and-physics step, the coins and
        the score follow its new hitbox, the camera follows it, and the
        death or the win is decided and stamped with `now`. */
    twostate predicate Updated(screen: GameState, keys: Keys, now: int)
      reads this, player, camera, coins
    {
      && world == old(world) && player == old(player) && camera == old(camera)
      && (screen != Playing ==>
            && gameState == screen && score == old(score)
            && deathStartTime == old(deathStartTime) && winStartTime == old(winStartTime)
            && coins.coins == old(coins.coins)
            && (player != null ==> player.State() == old(player.State()))
            && (camera != null ==> camera.x == old(camera.x) && camera.y == old(camera.y)))
      && (screen == Playing ==>
            && world.Some? && Queryable(world.value) && player != null && camera != null
            && var b := Stepped(world.value, Input(old(player.State()), keys), deltaTime);
               var hitbox := HitboxRect(b.x, b.y);
               && player.State() == b
               && score == old(score) + |Coins.Hits(old(coins.coins), hitbox)|
               && coins.coins == Coins.Misses(old(coins.coins), hitbox)
               && camera.x == CameraModel.FollowAxis(b.x, CameraModel.SpriteWidth, camera.mapPixelWidth, ScreenWidth)
               && camera.y == CameraModel.FollowAxis(b.y, CameraModel.SpriteHeight, camera.mapPixelHeight, ScreenHeight)
               && gameState == AfterUpdate(b)
               && deathStartTime == (if b.dead then now else old(deathStartTime))
               && winStartTime == (if gameState == WinAnimation then now else old(winStartTime)))
    }

    /** update: input, physics, coin pickup and camera for one playing
        frame, then the death and finish checks (see Updated). Returns the
        coin tiles to clear and whether the camera was asked to lock its
        centre; outside PLAYING it asks for neither. */
    method Update(keys: Keys, now: int) returns (clears: seq<Point>, lockCentre: bool)
      requires Valid()
      modifies this, player, camera, coins
      ensures Valid()
      ensures isRunning == old(isRunning) && deltaTime == old(deltaTime) && lastUpdateTime == old(lastUpdateTime)
      ensures Updated(old(gameState), keys, now)
      ensures old(gameState) != Playing ==> clears == [] && !lockCentre
      ensures old(gameState) == Playing ==>
        var b := player.State();
        && clears == Coins.Corners(Coins.Hits(old(coins.coins), HitboxRect(b.x, b.y)))
        && lockCentre == (!b.dead && b.y >= LockCentreFromY)
    {
      clears, lockCentre := [], false;
      if gameState != Playing {
        return;
      }
      var newScore;
      clears, newScore := StepWorld(keys);
      score := newScore;
      lockCentre := CheckOutcome(now);
    }

    /** The end of update: a dead player starts the death screen
        (handlePlayerDeath); otherwise the camera follows again, a player
        below LockCentreFromY asks for the camera lock, and one past
        FinishX starts the win screen (handlePlayerWin). */
    method CheckOutcome(now: int) returns (lockCentre: bool)
      requires Valid() && gameState == Playing
      modifies this, camera
      ensures Valid()
      ensures world == old(world) && player == old(player) && camera == old(camera)
      ensures isRunning == old(isRunning) && score == old(score)
      ensures deltaTime == old(deltaTime) && lastUpdateTime == old(lastUpdateTime)
      ensures var b := player.State();
        && gameState == AfterUpdate(b)
        && deathStartTime == (if b.dead then now else old(deathStartTime))
        && winStartTime == (if gameState == WinAnimation then now else old(winStartTime))
        && lockCentre == (!b.dead && b.y >= LockCentreFromY)
        && (b.dead ==> camera.x == old(camera.x) && camera.y == old(camera.y))
        && (!b.dead ==>
              && camera.x == CameraModel.FollowAxis(b.x, CameraModel.SpriteWidth, camera.mapPixelWidth, ScreenWidth)
              && camera.y == CameraModel.FollowAxis(b.y, CameraModel.SpriteHeight, camera.mapPixelHeight, ScreenHeight))
    {
      lockCentre := false;
      if player.IsDead() {
        // handlePlayerDeath
        deathStartTime := now;
        gameState := DeathAnimation;
        return;
      }
      var pos := player.Position();
      camera.Follow(pos);
      if pos.y >= LockCentreFromY {
        lockCentre := true;
      }
      if pos.x >= FinishX {
        // handlePlayerWin
        winStartTime := now;
        gameState := WinAnimation;
      }
    }

    /** The part of update that acts on the world objects: keyboard, one
        physics step, the coin pickup against the new hitbox (returning the
        new score) and the camera following the player. */
    method StepWorld(keys: Keys) returns (clears: seq<Point>, newScore: int)
      requires Valid() && gameState == Playing
      modifies player, camera, coins
      ensures var b := Stepped(world.value, Input(old(player.State()), keys), deltaTime);
        var hitbox := HitboxRect(b.x, b.y);
        && player.State() == b
        && newScore == score + |Coins.Hits(old(coins.coins), hitbox)|
        && coins.coins == Coins.Misses(old(coins.coins), hitbox)
        && clears == Coins.Corners(Coins.Hits(old(coins.coins), hitbox))
        && camera.x == CameraModel.FollowAxis(b.x, CameraModel.SpriteWidth, camera.mapPixelWidth, ScreenWidth)
        && camera.y == CameraModel.FollowAxis(b.y, CameraModel.SpriteHeight, camera.mapPixelHeight, ScreenHeight)
    {
      player.HandleInput(keys);
      player.Update(world.value, deltaTime);
      var collected;
      collected, newScore, clears := coins.UpdateOnPlayerCollision(player.WorldRect(), score);
      camera.Follow(player.Position());
    }

    /** runPlayingState: events, then update with the frame's delta. The
        update finds the screen the events left: Escape during play has
        already returned to the menu, and then the world stands still. */
    method RunPlayingState(events: seq<Event>, keys: Keys, now: int)
      requires Valid()
      modifies this, player, camera, coins
      ensures Valid()
      ensures CanFollow(old(gameState), gameState)
      ensures isRunning == (old(isRunning) && Quit !in events)
      ensures deltaTime == old(deltaTime) && lastUpdateTime == old(lastUpdateTime)
      ensures Updated(if old(gameState) == Playing && KeyDown(Escape) in events then Menu else old(gameState), keys, now)
    {
      HandleEvents(events);
      var clears, lockCentre := Update(keys, now);
    }

    /** The world objects are the same ones, holding the same values, and
        the score is unchanged. */
    twostate predicate WorldKept()
      reads this, player, camera, coins
    {
      && world == old(world) && player == old(player) && camera == old(camera)
      && score == old(score) && coins.coins == old(coins.coins)
      && (player != null ==> player.State() == old(player.State()))
      && (camera != null ==> camera.x == old(camera.x) && camera.y == old(camera.y))
    }

    /** What one frame of the death screen does: the first quit, key or
        click, or else the timer, decides (AnimationFrame). A quit stops the
        loop; a skip or an expiry returns to the menu and revives the player
        where it died. Nothing else changes. */
    twostate predicate DeathScreenRan(events: seq<Event>, now: int)
      reads this, player, camera, coins
    {
      && world == old(world) && player == old(player) && camera == old(camera)
      && score == old(score) && coins.coins == old(coins.coins)
      && (camera != null ==> camera.x == old(camera.x) && camera.y == old(camera.y))
      && deathStartTime == old(deathStartTime) && winStartTime == old(winStartTime)
      && var end := AnimationFrame(events, U32Sub(now, old(deathStartTime)), DeathDisplayTime);
         && isRunning == (old(isRunning) && end != Closed)
         && gameState == (if end == Skipped || end == Expired then Menu else old(gameState))
         && (player != null ==>
               player.State() == old(player.State()).(dead := old(player.dead) && !(end == Skipped || end == Expired)))
    }

    /** runDeathAnimationState: quit stops the loop; a key or click, or the
        display time running out, returns to the menu with the player
        revived where it died. */
    method RunDeathAnimation(events: seq<Event>, now: int)
      modifies this, player
      ensures deltaTime == old(deltaTime) && lastUpdateTime == old(lastUpdateTime)
      ensures DeathScreenRan(events, now)
    {
      var i := 0;
      while i < |events|
        invariant 0 <= i <= |events|
        invariant forall j :: 0 <= j < i ==> events[j].OtherEvent?
        invariant unchanged(this)
      {
        match events[i]
        case Quit =>
          FirstPressDecides(events, i, U32Sub(now, deathStartTime), DeathDisplayTime);
          isRunning := false;
          return;
        case KeyDown(_) =>
          FirstPressDecides(events, i, U32Sub(now, deathStartTime), DeathDisplayTime);
          gameState := Menu;
          if player != null {
            player.Respawn();
          }
          return;
        case MouseButtonDown =>
          FirstPressDecides(events, i, U32Sub(now, deathStartTime), DeathDisplayTime);
          gameState := Menu;
          if player != null {
            player.Respawn();
          }
          return;
        case OtherEvent =>
        i := i + 1;
      }
      QuietFrameWaitsForTimer(events, U32Sub(now, deathStartTime), DeathDisplayTime);
      var elapsed := U32Sub(now, deathStartTime);
      if elapsed >= DeathDisplayTime {
        gameState := Menu;
        if player != null {
          player.Respawn();
        }
      }
    }

    /** What one frame of the win screen does: as the death screen, but
        the player is left as it is. */
    twostate predicate WinScreenRan(events: seq<Event>, now: int)
      reads this, player, camera, coins
    {
      && WorldKept()
      && deathStartTime == old(deathStartTime) && winStartTime == old(winStartTime)
      && var end := AnimationFrame(events, U32Sub(now, old(winStartTime)), WinDisplayTime);
         && isRunning == (old(isRunning) && end != Closed)
         && gameState == (if end == Skipped || end == Expired then Menu else old(gameState))
    }

    /** runWinAnimationState: as the death screen, but the player is left
        as it is. */
    method RunWinAnimation(events: seq<Event>, now: int)
      modifies this
      ensures deltaTime == old(deltaTime) && lastUpdateTime == old(lastUpdateTime)
      ensures WinScreenRan(events, now)
    {
      var i := 0;
      while i < |events|
        invariant 0 <= i <= |events|
        invariant forall j :: 0 <= j < i ==> events[j].OtherEvent?
        invariant unchanged(this)
      {
        match events[i]
        case Quit =>
          FirstPressDecides(events, i, U32Sub(now, winStartTime), WinDisplayTime);
          isRunning := false;
          return;
        case KeyDown(_) =>
          FirstPressDecides(events, i, U32Sub(now, winStartTime), WinDisplayTime);
          gameState := Menu;
          return;
        case MouseButtonDown =>
          FirstPressDecides(events, i, U32Sub(now, winStartTime), WinDisplayTime);
          gameState := Menu;
          return;
        case OtherEvent =>
        i := i + 1;
      }
      QuietFrameWaitsForTimer(events, U32Sub(now, winStartTime), WinDisplayTime);
      var elapsed := U32Sub(now, winStartTime);
      if elapsed >= WinDisplayTime {
        gameState := Menu;
      }
    }

    /** What startNewGame does to the world: the score is reset; if the
        level loads, a fresh camera over its content and a fresh player at
        rest at (100, 100) are created, the coins at the map's coin
        positions are appended to those already present, and the camera
        centres on the player; otherwise no world is left. */
    twostate predicate NewGameStarted()
      reads this, player, camera, coins
    {
      && score == 0
      && world == (if Loaded(level).Ok? then Some(Loaded(level).value) else None)
      && (world.None? ==> player == null && camera == null && coins.coins == old(coins.coins))
      && (world.Some? ==>
            && player != null && camera != null && fresh(player) && fresh(camera)
            && player.State() == Body(StartX, StartY, 0.0, 0.0, false, false)
            && camera.screenWidth == ScreenWidth && camera.screenHeight == ScreenHeight
            && camera.mapPixelWidth == world.value.contentPixelWidth
            && camera.mapPixelHeight == world.value.contentPixelHeight
            && camera.x == CameraModel.FollowAxis(StartX, CameraModel.SpriteWidth, camera.mapPixelWidth, ScreenWidth)
            && camera.y == CameraModel.FollowAxis(StartY, CameraModel.SpriteHeight, camera.mapPixelHeight, ScreenHeight)
            && coins.coins == old(coins.coins) + Coins.Spawned(coinSpawns, world.value.tileWidth))
    }

    /** startNewGame: the old world is dropped and the score reset, then
        the world is rebuilt from the level (see NewGameStarted). */
    method StartNewGame()
      requires LevelUsable(level)
      modifies this, coins
      ensures NewGameStarted()
      ensures gameState == old(gameState) && isRunning == old(isRunning)
      ensures deltaTime == old(deltaTime) && lastUpdateTime == old(lastUpdateTime)
      ensures deathStartTime == old(deathStartTime) && winStartTime == old(winStartTime)
    {
      world, player, camera := None, null, null;
      score := 0;
      var loaded := Load(level);
      if loaded.Err? {
        return;
      }
      var m := loaded.value;
      world := Some(m);
      var c := new CameraModel.Camera(ScreenWidth, ScreenHeight, m.contentPixelWidth, m.contentPixelHeight);
      var p := new Player();
      p.SetPosition(FPoint(StartX, StartY));
      coins.SpawnFixed(coinSpawns, m.tileWidth);
      c.Follow(p.Position());
      camera, player := c, p;
    }

    /** What one visit to the menu screen does, corrected: the menu is
        reset and run over its frames. A menu that did not finish leaves
        the game as it was. A finished one leads where MenuGuarded says:
        a new game (NewGameStarted), the present world kept, or the loop
        stopped. */
    twostate predicate MenuRan(menuFrames: seq<seq<Event>>)
      reads this, startMenu, player, camera, coins
    {
      && |old(startMenu.isSelected)| > 0
      && startMenu.State() == MenuModel.Frames(MenuModel.ResetState(|old(startMenu.isSelected)|), menuFrames)
      && deathStartTime == old(deathStartTime) && winStartTime == old(winStartTime)
      && var r := MenuGuarded(MenuModel.Choice(startMenu.currentSelection), old(world).Some?, Loaded(level).Ok?);
         if !startMenu.quitMenu then
           gameState == old(gameState) && isRunning == old(isRunning) && WorldKept()
         else
           && gameState == (if r.state == Playing then Playing else old(gameState))
           && isRunning == (old(isRunning) && !r.stops)
           && world.Some? == r.worldAfter
           && (r.newGame ==> NewGameStarted())
           && (!r.newGame ==> WorldKept())
    }

    /** runMenuState, corrected: see MenuRan. */
    method RunMenuState(menuFrames: seq<seq<Event>>)
      requires Valid() && MenuReady()
      modifies this, coins, startMenu
      ensures Valid() && MenuReady()
      ensures MenuRan(menuFrames)
      ensures deltaTime == old(deltaTime) && lastUpdateTime == old(lastUpdateTime)
      ensures player == old(player) || player == null || fresh(player)
      ensures camera == old(camera) || camera == null || fresh(camera)
    {
      startMenu.Reset();
      var finished, choice := startMenu.Run(menuFrames);
      if !finished {
        return;
      }
      ActOnChoice(choice);
    }

    /** The switch on the menu's choice, corrected: a new game, the present
        world continued, or the loop stopped, as MenuGuarded says. */
    method ActOnChoice(choice: int)
      requires Valid()
      modifies this, coins
      ensures Valid()
      ensures var r := MenuGuarded(choice, old(world).Some?, Loaded(level).Ok?);
        && gameState == (if r.state == Playing then Playing else old(gameState))
        && isRunning == (old(isRunning) && !r.stops)
        && world.Some? == r.worldAfter
        && (r.newGame ==> NewGameStarted())
        && (!r.newGame ==> WorldKept())
      ensures deathStartTime == old(deathStartTime) && winStartTime == old(winStartTime)
      ensures deltaTime == old(deltaTime) && lastUpdateTime == old(lastUpdateTime)
      ensures player == old(player) || player == null || fresh(player)
      ensures camera == old(camera) || camera == null || fresh(camera)
    {
      if choice == 0 {
        StartNewGame();
        if world.Some? {
          gameState := Playing;
        }
      } else if choice == 1 {
        if world.Some? && player != null && camera != null {
          gameState := Playing;
        } else {
          StartNewGame();
          if world.Some? {
            gameState := Playing;
          }
        }
      } else if choice == 2 {
        isRunning := false;
      }
    }

    /** One iteration of `run`: measure the frame, then run the current
        screen (see RunScreen). */
    method RunFrame(f: Frame)
      requires Valid() && MenuReady()
      modifies this, coins, startMenu, player, camera
      ensures Valid() && MenuReady()
      ensures CanFollow(old(gameState), gameState)
      ensures deltaTime == FrameDelta(f.now, old(lastUpdateTime)) && lastUpdateTime == f.now
      ensures old(gameState) == Menu ==> MenuRan(f.menuFrames)
      ensures old(gameState) == Playing || old(gameState) == Paused ==>
        && isRunning == (old(isRunning) && Quit !in f.events)
        && Updated(if old(gameState) == Playing && KeyDown(Escape) in f.events then Menu else old(gameState), f.keys, f.now)
      ensures old(gameState) == DeathAnimation ==> DeathScreenRan(f.events, f.now)
      ensures old(gameState) == WinAnimation ==> WinScreenRan(f.events, f.now)
      ensures old(gameState) != Menu ==> startMenu.State() == old(startMenu.State())
      ensures player == old(player) || player == null || fresh(player)
      ensures camera == old(camera) || camera == null || fresh(camera)
    {
      Tick(f.now);
      RunScreen(f);
    }

    /** The switch of `run` on the current screen: each screen does what
        its own method promises, the screen moves only as CanFollow allows,
        and the menu changes only on its own screen. */
    method RunScreen(f: Frame)
      requires Valid() && MenuReady()
      modifies this, coins, startMenu, player, camera
      ensures Valid() && MenuReady()
      ensures CanFollow(old(gameState), gameState)
      ensures deltaTime == old(deltaTime) && lastUpdateTime == old(lastUpdateTime)
      ensures old(gameState) == Menu ==> MenuRan(f.menuFrames)
      ensures old(gameState) == Playing || old(gameState) == Paused ==>
        && isRunning == (old(isRunning) && Quit !in f.events)
        && Updated(if old(gameState) == Playing && KeyDown(Escape) in f.events then Menu else old(gameState), f.keys, f.now)
      ensures old(gameState) == DeathAnimation ==> DeathScreenRan(f.events, f.now)
      ensures old(gameState) == WinAnimation ==> WinScreenRan(f.events, f.now)
      ensures old(gameState) != Menu ==> startMenu.State() == old(startMenu.State())
      ensures player == old(player) || player == null || fresh(player)
      ensures camera == old(camera) || camera == null || fresh(camera)
    {
      match gameState
      case Menu =>
        RunMenuState(f.menuFrames);
      case Playing =>
        RunPlayingState(f.events, f.keys, f.now);
      case Paused =>
        RunPlayingState(f.events, f.keys, f.now);
      case DeathAnimation =>
        RunDeathAnimation(f.events, f.now);
      case WinAnimation =>
        RunWinAnimation(f.events, f.now);
    }

    /** run's loop over the frames supplied, until the game stops running
        or the frames run out. Every frame's delta is at most
        MAX_DELTA_TIME. */
    method Run(frames: seq<Frame>) returns (played: nat)
      requires Valid() && MenuReady()
      modifies this, coins, startMenu, player, camera
      ensures Valid() && MenuReady()
      ensures played <= |frames|
      ensures played < |frames| ==> !isRunning
      ensures 0 < played ==> lastUpdateTime == frames[played - 1].now && 0.0 <= deltaTime <= MaxDeltaTime
    {
      played := 0;
      while played < |frames| && isRunning
        invariant Valid() && MenuReady()
        invariant played <= |frames|
        invariant 0 < played ==> lastUpdateTime == frames[played - 1].now && 0.0 <= deltaTime <= MaxDeltaTime
        invariant player == null || player == old(player) || fresh(player)
        invariant camera == null || camera == old(camera) || fresh(camera)
      {
        RunFrame(frames[played]);
        played := played + 1;
      }
    }
  }
}
