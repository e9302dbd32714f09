/**
 * Concrete runs of the rules on a 100 x 200 canvas. They pin down behaviour that is
 * easy to get wrong when reading game.js: the first overlapping invader is the one
 * destroyed, forward iteration with splice skips the element shifted into the freed
 * slot, and a game that is over still moves its bombs and invaders.
 */
module Scenarios {
  import opened Geometry
  import opened Entities
  import opened Rules

  /** The canvas and sprite sizes used below. */
  function Small(): Config {
    Config(100, 200, 20, 20, 20, 20, 4, 8, 2, 6)
  }

  /** A missile overlapping two invaders destroys only the first one, for one point. */
  lemma MissileHitsFirstOverlap()
    ensures var a := Invader(0, 100, 20, 20, 1, 0.8);
      var b := Invader(10, 100, 20, 20, 1, 0.8);
      var s := GameState([a, b], [], [Box(12, 115, 2, 6)], Box(40, 180, 20, 20), 3, false, 5);
      var r := MissilePass(s, 0);
      r.invaders == [b] && r.missiles == [] && r.score == 4
  {
    var a := Invader(0, 100, 20, 20, 1, 0.8);
    var b := Invader(10, 100, 20, 20, 1, 0.8);
    var s := GameState([a, b], [], [Box(12, 115, 2, 6)], Box(40, 180, 20, 20), 3, false, 5);
    assert FirstHit(Box(12, 105, 2, 6), [a, b], 0) == 0;
    assert Remove([a, b], 0) == [b];
  }

  /**
   * A bomb that falls off the floor is spliced out and the loop index still advances,
   * so the next bomb, shifted into its slot, does not fall in this tick.
   */
  lemma FloorRemovalSkipsNextBomb()
    ensures var s := GameState([], [Box(0, 176, 4, 8), Box(50, 0, 4, 8)], [], Box(40, 180, 20, 20), 0, false, 0);
      BombPass(Small(), s, 0).bombs == [Box(50, 0, 4, 8)]
  {
    var s := GameState([], [Box(0, 176, 4, 8), Box(50, 0, 4, 8)], [], Box(40, 180, 20, 20), 0, false, 0);
    var moved := s.bombs[0 := Box(0, 181, 4, 8)];
    assert Remove(moved, 0) == [Box(50, 0, 4, 8)];
  }

  /** A source of random draws that always yields 0. */
  function ZeroDraw(k: nat): Unit {
    0.0
  }

  /**
   * After the game is over a tick spawns nothing, yet bombs keep falling and invaders
   * keep marching.
   */
  lemma GameOverDoesNotFreeze()
    ensures var inv := Invader(0, 40, 20, 20, 1, 0.8);
      var s := GameState([inv], [Box(60, 0, 4, 8)], [], Box(40, 180, 20, 20), 0, true, 1);
      var r := Tick(Small(), s, ZeroDraw, ZeroDraw, ZeroDraw);
      && r.gameOver && r.totalInvadersCreated == 1
      && r.bombs == [Box(60, 5, 4, 8)]
      && r.invaders == [inv.(x := 8, bombCounter := 0.8 - CounterStep)]
  {
    var cfg := Small();
    var inv := Invader(0, 40, 20, 20, 1, 0.8);
    var s := GameState([inv], [Box(60, 0, 4, 8)], [], Box(40, 180, 20, 20), 0, true, 1);
    var armed := inv.(x := 8, bombCounter := 0.8 - CounterStep);
    assert Advance(cfg, inv) == inv.(x := 8);
    var next := CountDown(cfg, s, 0, inv.(x := 8), 0.0, 0.0);
    assert next == s.(invaders := [armed]);
    assert !Collides(armed.Bounds(), s.defender);
    assert InvaderPass(cfg, s, ZeroDraw, ZeroDraw, 0) == InvaderPass(cfg, next, ZeroDraw, ZeroDraw, 1);
    var moved := next;
    var fallen := BombPass(cfg, moved, 0);
    assert !Collides(Box(60, 5, 4, 8), s.defender);
    assert moved.bombs[0 := Box(60, 5, 4, 8)] == [Box(60, 5, 4, 8)];
    assert fallen == BombPass(cfg, moved.(bombs := [Box(60, 5, 4, 8)]), 1);
  }

  /**
   * The last invader alive of the first wave is shot: after that tick the banner test of
   * draw passes although only 4 of the 40 invaders have been created.
   */
  lemma YouWinAfterFirstWave()
    ensures var inv := Invader(0, 0, 20, 20, 1, 0.8);
      var s := GameState([inv], [], [Box(12, 25, 2, 6)], Box(40, 180, 20, 20), 3, false, 4);
      var r := Tick(Small(), s, ZeroDraw, ZeroDraw, ZeroDraw);
      ShowsYouWin(r) && r.score == 4 && r.totalInvadersCreated == 4 < MaxInvaders
  {
    var cfg := Small();
    var inv := Invader(0, 0, 20, 20, 1, 0.8);
    var s := GameState([inv], [], [Box(12, 25, 2, 6)], Box(40, 180, 20, 20), 3, false, 4);
    assert AnyAtTop(s.invaders) by { assert s.invaders[0].y == 0; }
    var armed := inv.(x := 8, bombCounter := 0.8 - CounterStep);
    assert Advance(cfg, inv) == inv.(x := 8);
    var next := CountDown(cfg, s, 0, inv.(x := 8), 0.0, 0.0);
    assert next == s.(invaders := [armed]);
    assert !Collides(armed.Bounds(), s.defender);
    assert InvaderPass(cfg, s, ZeroDraw, ZeroDraw, 0) == InvaderPass(cfg, next, ZeroDraw, ZeroDraw, 1);
    assert BombPass(cfg, next, 0) == next;
    assert Tick(cfg, s, ZeroDraw, ZeroDraw, ZeroDraw) == MissilePass(next, 0);
    var moved := [Box(12, 15, 2, 6)];
    assert next.missiles[0 := Box(12, 15, 2, 6)] == moved;
    assert Collides(Box(12, 15, 2, 6), armed.Bounds());
    assert FirstHit(Box(12, 15, 2, 6), next.invaders, 0) == 0;
    assert Remove(next.invaders, 0) == [];
    assert Remove(moved, 0) == [];
    assert MissilePass(next, 0) == MissilePass(next.(invaders := [], missiles := [], score := 4), 1);
  }
}
