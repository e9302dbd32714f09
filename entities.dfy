/**
 * The game's tuning constants, its configuration (canvas and sprite sizes) and the
 * records it keeps: invaders, bombs, missiles and the defender.
 */
module Entities {
  import opened Geometry

  // Tuning constants declared at the top of game.js.
  const MaxMissiles := 2   // missiles in the air at once
  const MaxBombs := 8      // bombs in the air before emission stops
  const MaxInvaders := 40  // invaders created over a whole game
  const InvaderSpeed := 8
  const DefenderSpeed := 20

  // Constants written inline in game.js.
  const WaveSize := 4                // invaders per wave
  const InvaderSpacing := 10         // gap between neighbours in a wave
  const FallbackInvaderWidth := 30   // stride used while the invader image has width 0
  const Margin := 20                 // sprite size hard-coded in the edge and floor tests
  const DropStep := 40               // how far an invader steps down when it bounces
  const BombSpeed := 5
  const MissileSpeed := 10
  const CounterStep := 0.01          // bomb counter decrement per tick
  const BombChance := 0.05           // chance that an armed invader fires in a tick

  /**
   * Sizes fixed before the first tick: the canvas and the four sprite images.
   * An image that is not loaded has width and height 0.
   */
  datatype Config = Config(
    canvasWidth: nat, canvasHeight: nat,
    invaderWidth: nat, invaderHeight: nat,
    defenderWidth: nat, defenderHeight: nat,
    bombWidth: nat, bombHeight: nat,
    missileWidth: nat, missileHeight: nat)

  /** One value of Math.random(). */
  type Unit = r: real | 0.0 <= r < 1.0 witness 0.0

  /** An invader: its box, its horizontal direction (1 right, -1 left) and its bomb countdown. */
  datatype Invader = Invader(x: int, y: int, width: int, height: int, direction: int, bombCounter: real)
  {
    function Bounds(): Box {
      Box(x, y, width, height)
    }
  }

  /** Every module-level variable of the simulation. */
  datatype GameState = GameState(
    invaders: seq<Invader>,
    bombs: seq<Box>,
    missiles: seq<Box>,
    defender: Box,
    score: int,
    gameOver: bool,
    totalInvadersCreated: int)

  /** setInvaderBombCounter, given the random draw u: a countdown in [0.8, 0.85). */
  function SetInvaderBombCounter(u: Unit): (c: real)
    ensures 0.8 <= c < 0.85
  {
    u * 0.05 + 0.8
  }

  /** The horizontal stride of a wave: image width (or its fallback) plus the spacing. */
  function Stride(cfg: Config): nat {
    (if cfg.invaderWidth == 0 then FallbackInvaderWidth else cfg.invaderWidth) + InvaderSpacing
  }

  /** The k-th invader of a wave, whose countdown comes from the random draw u. */
  function NewInvader(cfg: Config, k: nat, u: Unit): Invader {
    var w := if cfg.invaderWidth == 0 then FallbackInvaderWidth else cfg.invaderWidth;
    Invader(w * k + InvaderSpacing * k, 0, cfg.invaderWidth, cfg.invaderHeight, 1, SetInvaderBombCounter(u))
  }

  /** The bomb that spawnBomb pushes for an invader. */
  function NewBomb(cfg: Config, inv: Invader): Box {
    Box(inv.x + 10, inv.y + 20, cfg.bombWidth, cfg.bombHeight)
  }

  /** The missile that the fire key pushes. */
  function NewMissile(cfg: Config, defender: Box): Box {
    Box(defender.x + 5, defender.y - 10, cfg.missileWidth, cfg.missileHeight)
  }

  /** The state startGame sets up before the first tick, the defender centred on the floor. */
  function Start(cfg: Config): GameState {
    var defender := Box(cfg.canvasWidth / 2 - 10, cfg.canvasHeight - cfg.defenderHeight,
                        cfg.defenderWidth, cfg.defenderHeight);
    GameState([], [], [], defender, 0, false, 0)
  }
}
