/**
 * The simulation's transition rules as functions on GameState: one function per
 * operation of game.js, each written as the index loop of the source unrolled into
 * recursion on the loop index. The Game class in game.dfy runs the loops and is
 * proved to compute exactly these functions.
 */
module Rules {
  import opened Geometry
  import opened Entities

  /** Array.prototype.splice(k, 1): the sequence without its k-th element. */
  function Remove<T>(s: seq<T>, k: nat): (r: seq<T>)
    requires k < |s|
    ensures |r| == |s| - 1
    ensures forall j :: 0 <= j < k ==> r[j] == s[j]
    ensures forall j :: k <= j < |r| ==> r[j] == s[j + 1]
    ensures multiset(r) + multiset{s[k]} == multiset(s)
  {
    assert s == s[..k] + [s[k]] + s[k + 1..];
    s[..k] + s[k + 1..]
  }

  // ---------------------------------------------------------------------------
  // handleInput

  /** The state after one key event, named by its event.key string. */
  function AfterInput(cfg: Config, s: GameState, key: string): GameState {
    if s.gameOver then s
    else if key == "ArrowRight" then
      var x := s.defender.x + DefenderSpeed;
      s.(defender := s.defender.(x := if x + Margin > cfg.canvasWidth then cfg.canvasWidth - Margin else x))
    else if key == "ArrowLeft" then
      var x := s.defender.x - DefenderSpeed;
      s.(defender := s.defender.(x := if x < 0 then 0 else x))
    else if key == " " then
      if |s.missiles| < MaxMissiles then s.(missiles := s.missiles + [NewMissile(cfg, s.defender)]) else s
    else s
  }

  // ---------------------------------------------------------------------------
  // spawnInvaders

  /** Math.min(4, maxInvaders - totalInvadersCreated). */
  function WaveCount(total: int): int {
    if WaveSize < MaxInvaders - total then WaveSize else MaxInvaders - total
  }

  /** The invaders pushed by one call of spawnInvaders (none when n is not positive). */
  function Wave(cfg: Config, n: int, draw: nat -> Unit): seq<Invader> {
    if n <= 0 then [] else seq(n, k requires 0 <= k < n => NewInvader(cfg, k, draw(k)))
  }

  /** The state after spawnInvaders; draw(k) is the random draw of the k-th new invader. */
  function AfterSpawn(cfg: Config, s: GameState, draw: nat -> Unit): GameState {
    var n := WaveCount(s.totalInvadersCreated);
    s.(invaders := s.invaders + Wave(cfg, n, draw), totalInvadersCreated := s.totalInvadersCreated + n)
  }

  // ---------------------------------------------------------------------------
  // updateInvaders

  /** Move sideways; past either side wall, step down and reverse. */
  function Advance(cfg: Config, inv: Invader): Invader {
    var moved := inv.(x := inv.x + inv.direction * InvaderSpeed);
    if moved.x < 0 || moved.x > cfg.canvasWidth - Margin then
      moved.(y := moved.y + DropStep, direction := moved.direction * -1)
    else moved
  }

  /**
   * The bomb step for invader i, already moved to inv: while the live bomb count is at
   * most maxBombs, count down, and once the countdown is spent fire with chance 0.05
   * (roll is the draw compared with 0.05, draw the one that resets the countdown).
   */
  function CountDown(cfg: Config, s: GameState, i: nat, inv: Invader, roll: Unit, draw: Unit): (r: GameState)
    requires i < |s.invaders|
    ensures |r.invaders| == |s.invaders|
  {
    if |s.bombs| > MaxBombs then s.(invaders := s.invaders[i := inv])
    else
      var armed := inv.(bombCounter := inv.bombCounter - CounterStep);
      if armed.bombCounter <= 0.0 && roll < BombChance then
        s.(invaders := s.invaders[i := armed.(bombCounter := SetInvaderBombCounter(draw))],
           bombs := s.bombs + [NewBomb(cfg, armed)])
      else s.(invaders := s.invaders[i := armed])
  }

  /**
   * updateInvaders from index i on. The pass stops at the first invader that reaches
   * the floor or touches the defender, setting gameOver; later invaders stay put.
   */
  function InvaderPass(cfg: Config, s: GameState, roll: nat -> Unit, draw: nat -> Unit, i: nat): GameState
    decreases |s.invaders| - i
  {
    if i >= |s.invaders| then s
    else
      var inv := Advance(cfg, s.invaders[i]);
      if inv.y + Margin >= cfg.canvasHeight then s.(invaders := s.invaders[i := inv], gameOver := true)
      else
        var next := CountDown(cfg, s, i, inv, roll(i), draw(i));
        if Collides(next.invaders[i].Bounds(), next.defender) then next.(gameOver := true)
        else InvaderPass(cfg, next, roll, draw, i + 1)
  }

  // ---------------------------------------------------------------------------
  // updateBombs

  /**
   * updateBombs from index i on. A bomb that reaches the floor is spliced out and the
   * index still advances, so the bomb shifted into its slot is not moved this tick.
   * A bomb that hits the defender is removed, gameOver is set and the pass ends.
   */
  function BombPass(cfg: Config, s: GameState, i: nat): GameState
    decreases |s.bombs| - i
  {
    if i >= |s.bombs| then s
    else
      var moved := s.bombs[i := s.bombs[i].(y := s.bombs[i].y + BombSpeed)];
      if moved[i].y + Margin >= cfg.canvasHeight then BombPass(cfg, s.(bombs := Remove(moved, i)), i + 1)
      else if Collides(moved[i], s.defender) then s.(bombs := Remove(moved, i), gameOver := true)
      else BombPass(cfg, s.(bombs := moved), i + 1)
  }

  // ---------------------------------------------------------------------------
  // updateMissiles

  /** The index of the first invader at or after j that the missile m overlaps, or |invs|. */
  function FirstHit(m: Box, invs: seq<Invader>, j: nat): (k: nat)
    requires j <= |invs|
    ensures j <= k <= |invs|
    ensures k < |invs| ==> Collides(m, invs[k].Bounds())
    ensures forall t :: j <= t < k ==> !Collides(m, invs[t].Bounds())
    decreases |invs| - j
  {
    if j == |invs| then j
    else if Collides(m, invs[j].Bounds()) then j
    else FirstHit(m, invs, j + 1)
  }

  /**
   * One turn of updateMissiles for the missile in slot i: it rises; past the top it is
   * spliced out; otherwise it destroys the first invader it overlaps, is spliced out
   * with it, and the score goes up by one.
   */
  function MissileStep(s: GameState, i: nat): GameState
    requires i < |s.missiles|
  {
    var moved := s.missiles[i := s.missiles[i].(y := s.missiles[i].y - MissileSpeed)];
    if moved[i].y < 0 then s.(missiles := Remove(moved, i))
    else
      var j := FirstHit(moved[i], s.invaders, 0);
      if j < |s.invaders| then
        s.(invaders := Remove(s.invaders, j), missiles := Remove(moved, i), score := s.score + 1)
      else s.(missiles := moved)
  }

  /**
   * updateMissiles from index i on. The index advances after every turn, also after a
   * splice, so the missile shifted into the freed slot is skipped.
   */
  function MissilePass(s: GameState, i: nat): GameState
    decreases |s.missiles| - i
  {
    if i >= |s.missiles| then s
    else
      var next := MissileStep(s, i);
      MissilePass(next, i + 1)
  }

  // ---------------------------------------------------------------------------
  // gameLoop

  /** Some invader is still on the top row (y == 0). */
  predicate AnyAtTop(invs: seq<Invader>) {
    exists k :: 0 <= k < |invs| && invs[k].y == 0
  }

  /**
   * One call of gameLoop without drawing: a new wave unless the game is over or an
   * invader is on the top row, then the invader, bomb and missile passes, which run
   * whether or not the game is over.
   */
  function Tick(cfg: Config, s: GameState, spawnDraw: nat -> Unit, roll: nat -> Unit, draw: nat -> Unit): GameState {
    var spawned := if !s.gameOver && !AnyAtTop(s.invaders) then AfterSpawn(cfg, s, spawnDraw) else s;
    MissilePass(BombPass(cfg, InvaderPass(cfg, spawned, roll, draw, 0), 0), 0)
  }

  // ---------------------------------------------------------------------------
  // The outcome shown by draw

  /** The test behind the "You Win!" banner of draw: running, and no invader alive. */
  predicate ShowsYouWin(s: GameState) {
    !s.gameOver && |s.invaders| == 0
  }

  /** A won game: running, the whole invader budget created, and no invader alive. */
  predicate Won(s: GameState) {
    !s.gameOver && |s.invaders| == 0 && s.totalInvadersCreated == MaxInvaders
  }

  // ---------------------------------------------------------------------------
  // The invariant every operation keeps

  /** Every invader moves in one of the two directions and sits on a row 40 pixels apart. */
  predicate InvaderShape(inv: Invader) {
    (inv.direction == 1 || inv.direction == -1) && inv.y >= 0 && inv.y % DropStep == 0
  }

  /**
   * The invariant of the game's variables: the missile cap, the bomb soft cap (one bomb
   * past maxBombs at most), the invader budget, every invader ever created either alive
   * or counted in the score, invader shapes, and the defender on the canvas.
   */
  predicate Consistent(cfg: Config, s: GameState) {
    && |s.missiles| <= MaxMissiles
    && |s.bombs| <= MaxBombs + 1
    && 0 <= s.score
    && s.totalInvadersCreated <= MaxInvaders
    && s.score + |s.invaders| == s.totalInvadersCreated
    && (forall k :: 0 <= k < |s.invaders| ==> InvaderShape(s.invaders[k]))
    && (cfg.canvasWidth >= Margin ==> 0 <= s.defender.x <= cfg.canvasWidth - Margin)
  }
}
