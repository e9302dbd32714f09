/**
 * The game's module-level variables as one object, and the functions of game.js that
 * update them as methods. Each method runs the source's loop and is proved to leave
 * the object in the state that the matching function of Rules describes; the lemmas of
 * Properties then carry the invariant Rules.Consistent across every method.
 */
module Invaders {
  import opened Geometry
  import opened Entities
  import opened Rules
  import Properties

  class Game {
    const cfg: Config
    var invaders: seq<Invader>
    var bombs: seq<Box>
    var missiles: seq<Box>
    var defender: Box
    var score: int
    var gameOver: bool
    var totalInvadersCreated: int

    /** All the variables at once, as a value. */
    function State(): GameState
      reads this
    {
      GameState(invaders, bombs, missiles, defender, score, gameOver, totalInvadersCreated)
    }

    predicate Valid()
      reads this
    {
      Consistent(cfg, State())
    }

    /** startGame once the images are loaded, before the first tick. */
    constructor (cfg: Config)
      ensures this.cfg == cfg && State() == Start(cfg)
      ensures Valid()
    {
      this.cfg := cfg;
      invaders, bombs, missiles := [], [], [];
      defender := Box(cfg.canvasWidth / 2 - 10, cfg.canvasHeight - cfg.defenderHeight,
                      cfg.defenderWidth, cfg.defenderHeight);
      score, gameOver, totalInvadersCreated := 0, false, 0;
    }

    /** handleInput for a key event whose event.key is key. */
    method HandleInput(key: string)
      modifies this`defender, this`missiles
      ensures State() == AfterInput(cfg, old(State()), key)
      ensures old(Valid()) ==> Valid()
    {
      if Valid() {
        Properties.AfterInputConsistent(cfg, State(), key);
      }
      if gameOver {
        return;
      }
      if key == "ArrowRight" {
        defender := defender.(x := defender.x + DefenderSpeed);
        if defender.x + Margin > cfg.canvasWidth {
          defender := defender.(x := cfg.canvasWidth - Margin);
        }
      } else if key == "ArrowLeft" {
        defender := defender.(x := defender.x - DefenderSpeed);
        if defender.x < 0 {
          defender := defender.(x := 0);
        }
      } else if key == " " {
        if |missiles| < MaxMissiles {
          missiles := missiles + [NewMissile(cfg, defender)];
        }
      }
    }

    /** spawnInvaders; draw(k) is the random draw behind the k-th new invader's countdown. */
    method SpawnInvaders(draw: nat -> Unit)
      modifies this`invaders, this`totalInvadersCreated
      ensures State() == AfterSpawn(cfg, old(State()), draw)
      ensures old(Valid()) ==> Valid()
    {
      if Valid() {
        Properties.AfterSpawnConsistent(cfg, State(), draw);
      }
      var numInvaders := WaveCount(totalInvadersCreated);
      var invaderWidth := if cfg.invaderWidth == 0 then FallbackInvaderWidth else cfg.invaderWidth;
      var i := 0;
      while i < numInvaders
        invariant 0 <= i <= (if numInvaders < 0 then 0 else numInvaders)
        invariant invaders == old(invaders) + Wave(cfg, i, draw)
        invariant totalInvadersCreated == old(totalInvadersCreated)
      {
        var xPosition := invaderWidth * i + InvaderSpacing * i;
        assert Wave(cfg, i + 1, draw) == Wave(cfg, i, draw) + [NewInvader(cfg, i, draw(i))];
        invaders := invaders + [Invader(xPosition, 0, cfg.invaderWidth, cfg.invaderHeight, 1,
                                        SetInvaderBombCounter(draw(i)))];
        i := i + 1;
      }
      totalInvadersCreated := totalInvadersCreated + numInvaders;
    }

    /** spawnBomb: push a bomb just below the invader. */
    method SpawnBomb(inv: Invader)
      modifies this`bombs
      ensures bombs == old(bombs) + [NewBomb(cfg, inv)]
    {
      bombs := bombs + [NewBomb(cfg, inv)];
    }

    /**
     * updateInvaders. roll(i) is the draw compared with 0.05 for the invader in slot i,
     * draw(i) the draw that resets its countdown after it fires.
     */
    method UpdateInvaders(roll: nat -> Unit, draw: nat -> Unit)
      modifies this`invaders, this`bombs, this`gameOver
      ensures State() == InvaderPass(cfg, old(State()), roll, draw, 0)
      ensures old(Valid()) ==> Valid()
    {
      if Valid() {
        Properties.InvaderPassConsistent(cfg, State(), roll, draw, 0);
      }
      ghost var target := InvaderPass(cfg, State(), roll, draw, 0);
      var i := 0;
      while i < |invaders|
        invariant i <= |invaders|
        invariant InvaderPass(cfg, State(), roll, draw, i) == target
      {
        var stop := UpdateInvader(i, roll(i), draw(i));
        if stop {
          return;
        }
        i := i + 1;
      }
    }

    /**
     * One turn of the loop of updateInvaders, for the invader in slot i: move it, then
     * stop at the floor, or count down (maybe firing) and stop on the defender.
     */
    method UpdateInvader(i: nat, roll: Unit, draw: Unit) returns (stop: bool)
      requires i < |invaders|
      modifies this`invaders, this`bombs, this`gameOver
      ensures var inv := Advance(cfg, old(invaders[i]));
        if inv.y + Margin >= cfg.canvasHeight then
          stop && State() == old(State()).(invaders := old(invaders)[i := inv], gameOver := true)
        else
          var next := CountDown(cfg, old(State()), i, inv, roll, draw);
          && stop == Collides(next.invaders[i].Bounds(), next.defender)
          && State() == (if stop then next.(gameOver := true) else next)
    {
      var inv := invaders[i];
      inv := inv.(x := inv.x + inv.direction * InvaderSpeed);
      if inv.x < 0 || inv.x > cfg.canvasWidth - Margin {
        inv := inv.(y := inv.y + DropStep, direction := inv.direction * -1);
      }
      if inv.y + Margin >= cfg.canvasHeight {
        invaders := invaders[i := inv];
        gameOver := true;
        return true;
      }
      if |bombs| <= MaxBombs {
        inv := inv.(bombCounter := inv.bombCounter - CounterStep);
        if inv.bombCounter <= 0.0 && roll < BombChance {
          SpawnBomb(inv);
          inv := inv.(bombCounter := SetInvaderBombCounter(draw));
        }
      }
      invaders := invaders[i := inv];
      if Collides(inv.Bounds(), defender) {
        gameOver := true;
        return true;
      }
      return false;
    }

    /** updateBombs: fall, drop off the floor, or end the game on the defender. */
    method UpdateBombs()
      modifies this`bombs, this`gameOver
      ensures State() == BombPass(cfg, old(State()), 0)
      ensures old(Valid()) ==> Valid()
    {
      if Valid() {
        Properties.BombPassConsistent(cfg, State(), 0);
      }
      ghost var target := BombPass(cfg, State(), 0);
      var i := 0;
      while i < |bombs|
        invariant BombPass(cfg, State(), i) == target
      {
        bombs := bombs[i := bombs[i].(y := bombs[i].y + BombSpeed)];
        if bombs[i].y + Margin >= cfg.canvasHeight {
          bombs := Remove(bombs, i);
        } else if Collides(bombs[i], defender) {
          gameOver := true;
          bombs := Remove(bombs, i);
          return;
        }
        i := i + 1;
      }
    }

    /** updateMissiles: rise, leave past the top, or destroy the first invader hit. */
    method UpdateMissiles()
      modifies this`missiles, this`invaders, this`score
      ensures State() == MissilePass(old(State()), 0)
      ensures old(Valid()) ==> Valid()
    {
      if Valid() {
        Properties.MissilePassConsistent(cfg, State(), 0);
      }
      ghost var target := MissilePass(State(), 0);
      var i := 0;
      while i < |missiles|
        invariant MissilePass(State(), i) == target
      {
        ghost var head := State();
        UpdateMissile(i);
        assert MissilePass(State(), i + 1) == MissilePass(head, i);
        i := i + 1;
      }
    }

    /**
     * One turn of the loop of updateMissiles, for the missile in slot i: move it up, then
     * splice it out past the top, or scan the invaders for the first one it hits and
     * splice out both.
     */
    method UpdateMissile(i: nat)
      requires i < |missiles|
      modifies this`missiles, this`invaders, this`score
      ensures State() == MissileStep(old(State()), i)
    {
      missiles := missiles[i := missiles[i].(y := missiles[i].y - MissileSpeed)];
      if missiles[i].y < 0 {
        missiles := Remove(missiles, i);
        return;
      }
      ghost var before := State();
      var j := 0;
      while j < |invaders|
        invariant State() == before
        invariant j <= |invaders|
        invariant FirstHit(missiles[i], invaders, j) == FirstHit(missiles[i], invaders, 0)
      {
        if Collides(missiles[i], invaders[j].Bounds()) {
          invaders := Remove(invaders, j);
          missiles := Remove(missiles, i);
          score := score + 1;
          return;
        }
        j := j + 1;
      }
    }

    /** The scan of gameLoop for an invader on the top row. */
    method AnyInvaderAtTop() returns (anyInvaderAtTop: bool)
      ensures anyInvaderAtTop <==> exists k :: 0 <= k < |invaders| && invaders[k].y == 0
    {
      anyInvaderAtTop := false;
      var k := 0;
      while k < |invaders|
        invariant k <= |invaders|
        invariant forall t :: 0 <= t < k ==> invaders[t].y != 0
      {
        if invaders[k].y == 0 {
          anyInvaderAtTop := true;
          break;
        }
        k := k + 1;
      }
    }

    /**
     * gameLoop without draw and requestAnimationFrame. spawnDraw feeds spawnInvaders,
     * roll and draw feed updateInvaders.
     */
    method GameLoop(spawnDraw: nat -> Unit, roll: nat -> Unit, draw: nat -> Unit)
      modifies this
      ensures State() == Tick(cfg, old(State()), spawnDraw, roll, draw)
      ensures old(Valid()) ==> Valid()
    {
      if !gameOver {
        var anyInvaderAtTop := AnyInvaderAtTop();
        if !anyInvaderAtTop {
          SpawnInvaders(spawnDraw);
        }
      }
      UpdateInvaders(roll, draw);
      UpdateBombs();
      UpdateMissiles();
    }
  }
}
