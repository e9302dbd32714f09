/**
 * What the rules of game.js guarantee: the caps on missiles, bombs and invaders, the
 * bookkeeping between score and invaders, the shape of every invader, clamping of the
 * defender, and the monotonicity of score and gameOver.
 */
module Properties {
  import opened Geometry
  import opened Entities
  import opened Rules

  // ---------------------------------------------------------------------------
  // handleInput

  /** Once the game is over, no key changes anything. */
  lemma InputIgnoredAfterGameOver(cfg: Config, s: GameState, key: string)
    requires s.gameOver
    ensures AfterInput(cfg, s, key) == s
  {
  }

  /** Keys other than the two arrows and the space bar change nothing. */
  lemma OtherKeysIgnored(cfg: Config, s: GameState, key: string)
    requires key != "ArrowRight" && key != "ArrowLeft" && key != " "
    ensures AfterInput(cfg, s, key) == s
  {
  }

  /**
   * The arrow keys change only the defender's x, by at most defenderSpeed, and keep
   * it on the canvas when it started there.
   */
  lemma ArrowKeysMoveDefender(cfg: Config, s: GameState, key: string)
    requires !s.gameOver && (key == "ArrowLeft" || key == "ArrowRight")
    requires cfg.canvasWidth >= Margin && 0 <= s.defender.x <= cfg.canvasWidth - Margin
    ensures var r := AfterInput(cfg, s, key);
      && r == s.(defender := s.defender.(x := r.defender.x))
      && 0 <= r.defender.x <= cfg.canvasWidth - Margin
      && (key == "ArrowLeft" ==> s.defender.x - DefenderSpeed <= r.defender.x <= s.defender.x)
      && (key == "ArrowRight" ==> s.defender.x <= r.defender.x <= s.defender.x + DefenderSpeed)
  {
  }

  /**
   * The space bar adds exactly one missile, at (defender.x + 5, defender.y - 10), if and
   * only if fewer than maxMissiles are in the air; otherwise nothing changes.
   */
  lemma FireAddsOneMissile(cfg: Config, s: GameState)
    requires !s.gameOver
    ensures var r := AfterInput(cfg, s, " ");
      && (|s.missiles| < MaxMissiles ==>
            r == s.(missiles := s.missiles + [Box(s.defender.x + 5, s.defender.y - 10, cfg.missileWidth, cfg.missileHeight)]))
      && (|s.missiles| >= MaxMissiles ==> r == s)
  {
  }

  lemma AfterInputConsistent(cfg: Config, s: GameState, key: string)
    requires Consistent(cfg, s)
    ensures Consistent(cfg, AfterInput(cfg, s, key))
  {
  }

  // ---------------------------------------------------------------------------
  // spawnInvaders

  /**
   * A wave appends min(4, maxInvaders - totalInvadersCreated) invaders after the existing
   * ones, the k-th at x = k * (width + 10) on the top row moving right, and adds their
   * number to totalInvadersCreated, which never passes maxInvaders.
   */
  lemma SpawnAppendsWave(cfg: Config, s: GameState, draw: nat -> Unit)
    requires 0 <= s.totalInvadersCreated <= MaxInvaders
    ensures var r := AfterSpawn(cfg, s, draw);
      var n := if MaxInvaders - s.totalInvadersCreated < WaveSize then MaxInvaders - s.totalInvadersCreated else WaveSize;
      && 0 <= n <= WaveSize
      && |r.invaders| == |s.invaders| + n
      && r.invaders[..|s.invaders|] == s.invaders
      && (forall k :: 0 <= k < n ==>
            r.invaders[|s.invaders| + k] ==
              Invader(Stride(cfg) * k, 0, cfg.invaderWidth, cfg.invaderHeight, 1, SetInvaderBombCounter(draw(k))))
      && r.totalInvadersCreated == s.totalInvadersCreated + n <= MaxInvaders
      && r == s.(invaders := r.invaders, totalInvadersCreated := r.totalInvadersCreated)
  {
    var r := AfterSpawn(cfg, s, draw);
    var n := WaveCount(s.totalInvadersCreated);
    forall k | 0 <= k < n
      ensures r.invaders[|s.invaders| + k] ==
              Invader(Stride(cfg) * k, 0, cfg.invaderWidth, cfg.invaderHeight, 1, SetInvaderBombCounter(draw(k)))
    {
      var w := if cfg.invaderWidth == 0 then FallbackInvaderWidth else cfg.invaderWidth;
      assert r.invaders[|s.invaders| + k] == NewInvader(cfg, k, draw(k));
      assert w * k + InvaderSpacing * k == (w + InvaderSpacing) * k;
    }
  }

  /** Once maxInvaders invaders have been created, a wave adds nothing. */
  lemma SpawnExhausted(cfg: Config, s: GameState, draw: nat -> Unit)
    requires s.totalInvadersCreated == MaxInvaders
    ensures AfterSpawn(cfg, s, draw) == s
  {
  }

  lemma AfterSpawnConsistent(cfg: Config, s: GameState, draw: nat -> Unit)
    requires Consistent(cfg, s)
    ensures Consistent(cfg, AfterSpawn(cfg, s, draw))
  {
    var r := AfterSpawn(cfg, s, draw);
    var n := WaveCount(s.totalInvadersCreated);
    forall k | 0 <= k < |r.invaders|
      ensures InvaderShape(r.invaders[k])
    {
      if k >= |s.invaders| {
        assert r.invaders[k] == NewInvader(cfg, k - |s.invaders|, draw(k - |s.invaders|));
      }
    }
  }

  // ---------------------------------------------------------------------------
  // updateInvaders

  /** Moving keeps the direction in {1, -1} and the row a non-negative multiple of 40. */
  lemma AdvanceShape(cfg: Config, inv: Invader)
    requires InvaderShape(inv)
    ensures InvaderShape(Advance(cfg, inv))
  {
  }

  /**
   * The invader pass touches neither missiles, score, defender nor the invader budget,
   * keeps every invader (and those before index i unchanged), only sets gameOver, and
   * only appends bombs: none at all when more than maxBombs are in the air, and never
   * beyond maxBombs + 1 otherwise.
   */
  lemma {:induction false} InvaderPassFrame(cfg: Config, s: GameState, roll: nat -> Unit, draw: nat -> Unit, i: nat)
    ensures var r := InvaderPass(cfg, s, roll, draw, i);
      && r.missiles == s.missiles && r.defender == s.defender
      && r.score == s.score && r.totalInvadersCreated == s.totalInvadersCreated
      && |r.invaders| == |s.invaders|
      && (forall k :: 0 <= k < i && k < |s.invaders| ==> r.invaders[k] == s.invaders[k])
      && (s.gameOver ==> r.gameOver)
      && |s.bombs| <= |r.bombs| && r.bombs[..|s.bombs|] == s.bombs
      && (|s.bombs| > MaxBombs ==> r.bombs == s.bombs)
      && (|s.bombs| <= MaxBombs ==> |r.bombs| <= MaxBombs + 1)
    decreases |s.invaders| - i
  {
    if i < |s.invaders| {
      var inv := Advance(cfg, s.invaders[i]);
      if inv.y + Margin < cfg.canvasHeight {
        var next := CountDown(cfg, s, i, inv, roll(i), draw(i));
        if !Collides(next.invaders[i].Bounds(), next.defender) {
          InvaderPassFrame(cfg, next, roll, draw, i + 1);
        }
      }
    }
  }

  /** Every invader keeps its direction in {1, -1} and its row a non-negative multiple of 40. */
  lemma {:induction false} InvaderPassShapes(cfg: Config, s: GameState, roll: nat -> Unit, draw: nat -> Unit, i: nat)
    requires forall k :: 0 <= k < |s.invaders| ==> InvaderShape(s.invaders[k])
    ensures var r := InvaderPass(cfg, s, roll, draw, i);
      forall k :: 0 <= k < |r.invaders| ==> InvaderShape(r.invaders[k])
    decreases |s.invaders| - i
  {
    if i < |s.invaders| {
      var inv := Advance(cfg, s.invaders[i]);
      AdvanceShape(cfg, s.invaders[i]);
      if inv.y + Margin >= cfg.canvasHeight {
        var r := s.(invaders := s.invaders[i := inv], gameOver := true);
        assert InvaderPass(cfg, s, roll, draw, i) == r;
        forall k | 0 <= k < |r.invaders|
          ensures InvaderShape(r.invaders[k])
        {
          if k != i {
            assert r.invaders[k] == s.invaders[k];
          }
        }
      } else {
        var next := CountDown(cfg, s, i, inv, roll(i), draw(i));
        forall k | 0 <= k < |next.invaders|
          ensures InvaderShape(next.invaders[k])
        {
          if k != i {
            assert next.invaders[k] == s.invaders[k];
          }
        }
        if !Collides(next.invaders[i].Bounds(), next.defender) {
          InvaderPassShapes(cfg, next, roll, draw, i + 1);
          assert InvaderPass(cfg, s, roll, draw, i) == InvaderPass(cfg, next, roll, draw, i + 1);
        } else {
          assert InvaderPass(cfg, s, roll, draw, i) == next.(gameOver := true);
        }
      }
    }
  }

  /**
   * Every bomb from index base on was dropped by one of the first `limit` invaders,
   * from where that invader is now: at (x + 10, y + 20).
   */
  predicate DroppedBy(cfg: Config, bombs: seq<Box>, base: nat, invs: seq<Invader>, limit: nat) {
    forall k :: base <= k < |bombs| ==> DroppedAt(cfg, bombs[k], invs, limit)
  }

  /** The bomb b sits where one of the first `limit` invaders drops its bombs. */
  predicate DroppedAt(cfg: Config, b: Box, invs: seq<Invader>, limit: nat) {
    exists j :: 0 <= j < limit && j < |invs| && b == NewBomb(cfg, invs[j])
  }

  /** Changing invader i keeps every bomb dropped by an invader before i accounted for. */
  lemma DroppedByUpdate(cfg: Config, bombs: seq<Box>, base: nat, invs: seq<Invader>, i: nat, inv: Invader)
    requires i < |invs| && DroppedBy(cfg, bombs, base, invs, i)
    ensures DroppedBy(cfg, bombs, base, invs[i := inv], i)
  {
    var updated := invs[i := inv];
    forall k | base <= k < |bombs|
      ensures exists j :: 0 <= j < i && j < |updated| && bombs[k] == NewBomb(cfg, updated[j])
    {
      var bomb := bombs[k];
      var j :| 0 <= j < i && j < |invs| && bomb == NewBomb(cfg, invs[j]);
      assert updated[j] == invs[j];
    }
  }

  /** The bomb step of invader i drops its bomb, if any, from the invader's final position. */
  lemma CountDownDrops(cfg: Config, s: GameState, i: nat, inv: Invader, roll: Unit, draw: Unit, base: nat)
    requires i < |s.invaders| && base <= |s.bombs| && DroppedBy(cfg, s.bombs, base, s.invaders, i)
    ensures var next := CountDown(cfg, s, i, inv, roll, draw);
      DroppedBy(cfg, next.bombs, base, next.invaders, i + 1)
  {
    var next := CountDown(cfg, s, i, inv, roll, draw);
    DroppedByUpdate(cfg, s.bombs, base, s.invaders, i, next.invaders[i]);
    assert next.invaders == s.invaders[i := next.invaders[i]];
    forall k | base <= k < |next.bombs|
      ensures exists j :: 0 <= j < i + 1 && j < |next.invaders| && next.bombs[k] == NewBomb(cfg, next.invaders[j])
    {
      if k < |s.bombs| {
        var bomb := s.bombs[k];
        var j :| 0 <= j < i && j < |s.invaders| && bomb == NewBomb(cfg, next.invaders[j]);
        assert next.bombs[k] == s.bombs[k];
      } else {
        assert next.bombs[k] == NewBomb(cfg, next.invaders[i]);
      }
    }
  }

  /** Induction behind InvaderPassDropsBombs: bombs dropped before index i stay accounted for. */
  lemma {:induction false} InvaderPassDrops(cfg: Config, s: GameState, roll: nat -> Unit, draw: nat -> Unit, i: nat, base: nat)
    requires base <= |s.bombs| && DroppedBy(cfg, s.bombs, base, s.invaders, i)
    ensures var r := InvaderPass(cfg, s, roll, draw, i);
      DroppedBy(cfg, r.bombs, base, r.invaders, |r.invaders|)
    decreases |s.invaders| - i
  {
    var r := InvaderPass(cfg, s, roll, draw, i);
    if i >= |s.invaders| {
      forall k | base <= k < |r.bombs|
        ensures exists j :: 0 <= j < |r.invaders| && j < |r.invaders| && r.bombs[k] == NewBomb(cfg, r.invaders[j])
      {
        var bomb := s.bombs[k];
        var j :| 0 <= j < i && j < |s.invaders| && bomb == NewBomb(cfg, s.invaders[j]);
      }
    } else {
      var inv := Advance(cfg, s.invaders[i]);
      if inv.y + Margin >= cfg.canvasHeight {
        DroppedByUpdate(cfg, s.bombs, base, s.invaders, i, inv);
        forall k | base <= k < |r.bombs|
          ensures exists j :: 0 <= j < |r.invaders| && j < |r.invaders| && r.bombs[k] == NewBomb(cfg, r.invaders[j])
        {
          var bomb := r.bombs[k];
          var j :| 0 <= j < i && j < |r.invaders| && bomb == NewBomb(cfg, r.invaders[j]);
        }
      } else {
        var next := CountDown(cfg, s, i, inv, roll(i), draw(i));
        CountDownDrops(cfg, s, i, inv, roll(i), draw(i), base);
        if !Collides(next.invaders[i].Bounds(), next.defender) {
          InvaderPassDrops(cfg, next, roll, draw, i + 1, base);
          assert r == InvaderPass(cfg, next, roll, draw, i + 1);
        } else {
          assert r == next.(gameOver := true);
          forall k | base <= k < |r.bombs|
            ensures exists j :: 0 <= j < |r.invaders| && j < |r.invaders| && r.bombs[k] == NewBomb(cfg, r.invaders[j])
          {
            var bomb := r.bombs[k];
            var j :| 0 <= j < i + 1 && j < |r.invaders| && bomb == NewBomb(cfg, r.invaders[j]);
          }
        }
      }
    }
  }

  /**
   * Every bomb the invader pass adds sits at (x + 10, y + 20) of an invader as that
   * invader stands after the pass (DroppedAt, with NewBomb as the bomb's box).
   */
  lemma InvaderPassDropsBombs(cfg: Config, s: GameState, roll: nat -> Unit, draw: nat -> Unit)
    ensures var r := InvaderPass(cfg, s, roll, draw, 0);
      forall k :: |s.bombs| <= k < |r.bombs| ==> DroppedAt(cfg, r.bombs[k], r.invaders, |r.invaders|)
  {
    InvaderPassDrops(cfg, s, roll, draw, 0, |s.bombs|);
  }

  lemma InvaderPassConsistent(cfg: Config, s: GameState, roll: nat -> Unit, draw: nat -> Unit, i: nat)
    requires Consistent(cfg, s)
    ensures Consistent(cfg, InvaderPass(cfg, s, roll, draw, i))
  {
    InvaderPassFrame(cfg, s, roll, draw, i);
    InvaderPassShapes(cfg, s, roll, draw, i);
  }

  // ---------------------------------------------------------------------------
  // updateBombs

  /**
   * The bomb pass never adds a bomb, only sets gameOver, and leaves invaders, missiles,
   * score, defender and the invader budget alone.
   */
  lemma {:induction false} BombPassFrame(cfg: Config, s: GameState, i: nat)
    ensures var r := BombPass(cfg, s, i);
      && r == s.(bombs := r.bombs, gameOver := r.gameOver)
      && |r.bombs| <= |s.bombs|
      && (s.gameOver ==> r.gameOver)
    decreases |s.bombs| - i
  {
    if i < |s.bombs| {
      var moved := s.bombs[i := s.bombs[i].(y := s.bombs[i].y + BombSpeed)];
      if moved[i].y + Margin >= cfg.canvasHeight {
        BombPassFrame(cfg, s.(bombs := Remove(moved, i)), i + 1);
      } else if !Collides(moved[i], s.defender) {
        BombPassFrame(cfg, s.(bombs := moved), i + 1);
      }
    }
  }

  lemma BombPassConsistent(cfg: Config, s: GameState, i: nat)
    requires Consistent(cfg, s)
    ensures Consistent(cfg, BombPass(cfg, s, i))
  {
    BombPassFrame(cfg, s, i);
  }

  // ---------------------------------------------------------------------------
  // updateMissiles

  /**
   * One missile's turn changes only invaders, missiles and score: it removes at most one
   * missile, and at most one invader, only together with a missile and for one point.
   */
  lemma MissileStepFrame(s: GameState, i: nat)
    requires i < |s.missiles|
    ensures var r := MissileStep(s, i);
      && r == s.(invaders := r.invaders, missiles := r.missiles, score := r.score)
      && r.score + |r.invaders| == s.score + |s.invaders|
      && s.score <= r.score
      && |s.missiles| - 1 <= |r.missiles| <= |s.missiles|
      && |s.invaders| - |r.invaders| <= |s.missiles| - |r.missiles|
      && multiset(r.invaders) <= multiset(s.invaders)
  {
  }

  /**
   * The missile pass never adds a missile or an invader; every invader it removes is
   * paid for by one removed missile and one point, so score + |invaders| is unchanged;
   * bombs, defender, gameOver and the invader budget are untouched.
   */
  lemma {:induction false} MissilePassFrame(s: GameState, i: nat)
    ensures var r := MissilePass(s, i);
      && r == s.(invaders := r.invaders, missiles := r.missiles, score := r.score)
      && r.score + |r.invaders| == s.score + |s.invaders|
      && s.score <= r.score
      && |r.missiles| <= |s.missiles|
      && |s.invaders| - |r.invaders| <= |s.missiles| - |r.missiles|
    decreases |s.missiles| - i
  {
    if i < |s.missiles| {
      MissileStepFrame(s, i);
      MissilePassFrame(MissileStep(s, i), i + 1);
    }
  }

  /** The invaders left after the missile pass are some of those before it. */
  lemma {:induction false} MissilePassOnlyRemoves(s: GameState, i: nat)
    ensures multiset(MissilePass(s, i).invaders) <= multiset(s.invaders)
    decreases |s.missiles| - i
  {
    if i < |s.missiles| {
      var next := MissileStep(s, i);
      MissileStepFrame(s, i);
      MissilePassOnlyRemoves(next, i + 1);
      SubMultisetTransitive(multiset(MissilePass(next, i + 1).invaders), multiset(next.invaders), multiset(s.invaders));
    }
  }

  lemma SubMultisetTransitive<T>(a: multiset<T>, b: multiset<T>, c: multiset<T>)
    requires a <= b && b <= c
    ensures a <= c
  {
  }

  lemma MissilePassConsistent(cfg: Config, s: GameState, i: nat)
    requires Consistent(cfg, s)
    ensures Consistent(cfg, MissilePass(s, i))
  {
    var r := MissilePass(s, i);
    MissilePassFrame(s, i);
    MissilePassOnlyRemoves(s, i);
    forall k | 0 <= k < |r.invaders|
      ensures InvaderShape(r.invaders[k])
    {
      assert r.invaders[k] in multiset(s.invaders);
    }
  }

  // ---------------------------------------------------------------------------
  // gameLoop

  lemma TickConsistent(cfg: Config, s: GameState, spawnDraw: nat -> Unit, roll: nat -> Unit, draw: nat -> Unit)
    requires Consistent(cfg, s)
    ensures Consistent(cfg, Tick(cfg, s, spawnDraw, roll, draw))
  {
    var spawned := if !s.gameOver && !AnyAtTop(s.invaders) then AfterSpawn(cfg, s, spawnDraw) else s;
    if !s.gameOver && !AnyAtTop(s.invaders) {
      AfterSpawnConsistent(cfg, s, spawnDraw);
    }
    InvaderPassConsistent(cfg, spawned, roll, draw, 0);
    var moved := InvaderPass(cfg, spawned, roll, draw, 0);
    BombPassConsistent(cfg, moved, 0);
    MissilePassConsistent(cfg, BombPass(cfg, moved, 0), 0);
  }

  /**
   * Across a tick the score never falls and gameOver is never cleared, the defender does
   * not move, and a wave is spawned only when the game was running with nobody on the
   * top row; in that case exactly the wave's size is added to the invader budget.
   */
  lemma TickMonotone(cfg: Config, s: GameState, spawnDraw: nat -> Unit, roll: nat -> Unit, draw: nat -> Unit)
    ensures var r := Tick(cfg, s, spawnDraw, roll, draw);
      && s.score <= r.score
      && (s.gameOver ==> r.gameOver)
      && r.defender == s.defender
      && r.totalInvadersCreated ==
           s.totalInvadersCreated + (if !s.gameOver && !AnyAtTop(s.invaders) then WaveCount(s.totalInvadersCreated) else 0)
  {
    var spawned := if !s.gameOver && !AnyAtTop(s.invaders) then AfterSpawn(cfg, s, spawnDraw) else s;
    InvaderPassFrame(cfg, spawned, roll, draw, 0);
    var moved := InvaderPass(cfg, spawned, roll, draw, 0);
    BombPassFrame(cfg, moved, 0);
    MissilePassFrame(BombPass(cfg, moved, 0), 0);
  }

  /**
   * The banner test of draw also passes between waves: whenever the invaders alive are
   * all destroyed before maxInvaders have been created, "You Win!" is drawn and the
   * next tick spawns a fresh wave.
   */
  lemma YouWinBeforeLastWave(cfg: Config, s: GameState, spawnDraw: nat -> Unit, roll: nat -> Unit, draw: nat -> Unit)
    requires Consistent(cfg, s) && ShowsYouWin(s) && s.totalInvadersCreated < MaxInvaders
    ensures Tick(cfg, s, spawnDraw, roll, draw).totalInvadersCreated > s.totalInvadersCreated
  {
    TickMonotone(cfg, s, spawnDraw, roll, draw);
  }

  /**
   * A won game stays won: no wave is spawned, no invader appears and the score, which
   * is maxInvaders, stays put; only a bomb still in the air can end the game.
   */
  lemma WonIsFinal(cfg: Config, s: GameState, spawnDraw: nat -> Unit, roll: nat -> Unit, draw: nat -> Unit)
    requires Consistent(cfg, s) && Won(s)
    ensures var r := Tick(cfg, s, spawnDraw, roll, draw);
      && s.score == r.score == MaxInvaders
      && r.invaders == [] && r.totalInvadersCreated == MaxInvaders
      && (!r.gameOver ==> Won(r))
  {
    var spawned := AfterSpawn(cfg, s, spawnDraw);
    assert spawned == s;
    assert InvaderPass(cfg, s, roll, draw, 0) == s;
    BombPassFrame(cfg, s, 0);
    MissilePassFrame(BombPass(cfg, s, 0), 0);
  }

  /** The state startGame builds satisfies the invariant. */
  lemma StartConsistent(cfg: Config)
    ensures Consistent(cfg, Start(cfg))
  {
  }
}
