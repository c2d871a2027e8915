/** The tuning constants of the game, the arena, and the two kinds of entity. */
module Entities {
  import opened Geometry

  const PLAYER_SPEED: real := 4.0           // state.speed, per frame
  const BULLET_SPEED: real := 8.0           // state.bulletSpeed, per frame
  const BULLET_SIZE: real := 24.0           // the 24 x 24 bullet sprite
  const SHOTS_PER_SECOND: real := 2.0       // state.shotsPerSecond
  const SHOT_INTERVAL: real := 1000.0 / SHOTS_PER_SECOND
  const ENEMY_SIZE: real := 100.0           // enemySize, also the `|| 100` fallback
  const ENEMY_SPAWN_INSET: real := 4.0      // spawned at gameW - (enemySize + 4)
  const ENEMY_MIN_SPEED: real := 4.5        // state.enemyMinSpeed
  const ENEMY_EXIT_X: real := -30.0         // enemies with x < -30 are removed
  const INITIAL_INTERVAL: int := 1100       // initial state.nextEnemyInMs
  const MIN_INTERVAL: int := 600
  const INTERVAL_STEP: int := 25
  const INITIAL_MAX_SPEED: real := 8.0      // initial state.enemyMaxSpeed
  const MAX_SPEED_CAP: real := 11.0
  const MAX_SPEED_STEP: real := 0.06
  const ENEMY_HIT_FACTOR: real := 0.6       // enemy box against bullets
  const ENEMY_TOUCH_FACTOR: real := 0.65    // enemy box against the player
  const PLAYER_HIT_FACTOR: real := 0.8      // player box against enemies

  /** What the page's layout fixes once: the arena size, and the player's left
      offset (parsed as an integer) and outer size. */
  datatype Arena = Arena(gameW: real, gameH: real, playerX: int, playerW: real, playerH: real)

  datatype Bullet = Bullet(x: real, y: real)

  datatype Enemy = Enemy(x: real, y: real, speed: real, w: real, h: real)

  /** `(v || 100)`: a zero size falls back to the default enemy size. */
  function SizeOrDefault(v: real): (r: real)
    ensures r != 0.0
    ensures v == 0.0 ==> r == ENEMY_SIZE
    ensures v != 0.0 ==> r == v
  {
    if v == 0.0 then ENEMY_SIZE else v
  }

  /** parseInt of a pixel length: the integer part, truncated toward zero. */
  function TruncToInt(v: real): (n: int)
    ensures v >= 0.0 ==> 0 <= n && n as real <= v < n as real + 1.0
    ensures v < 0.0 ==> n <= 0 && n as real - 1.0 < v <= n as real
  {
    if v >= 0.0 then v.Floor else -((-v).Floor)
  }

  function BulletBox(b: Bullet): Box
  {
    Box(b.x, b.y, BULLET_SIZE, BULLET_SIZE)
  }

  /** The enemy's box shrunk by factor f about its centre. */
  function EnemyHitbox(e: Enemy, f: real): Box
  {
    Hitbox(e.x, e.y, SizeOrDefault(e.w), SizeOrDefault(e.h), f)
  }

  /** The player's box shrunk to 80% about its centre, with the player's top at y. */
  function PlayerHitbox(a: Arena, y: real): Box
  {
    Hitbox(a.playerX as real, y, a.playerW, a.playerH, PLAYER_HIT_FACTOR)
  }

  /** A bullet's full box meets the enemy's centred 60% box. */
  predicate BulletHitsEnemy(b: Bullet, e: Enemy)
  {
    RectsIntersect(BulletBox(b), EnemyHitbox(e, ENEMY_HIT_FACTOR))
  }

  /** The player's centred 80% box meets the enemy's centred 65% box. */
  predicate EnemyHitsPlayer(a: Arena, playerY: real, e: Enemy)
  {
    RectsIntersect(PlayerHitbox(a, playerY), EnemyHitbox(e, ENEMY_TOUCH_FACTOR))
  }

  /** shoot(): a bullet at the player's leading edge, its 24-pixel sprite
      centred on the player's (parsed) top plus half its height. */
  function NewBullet(a: Arena, playerY: real): (b: Bullet)
    ensures b.x == a.playerX as real + a.playerW
    ensures playerY >= 0.0 ==>
              playerY + a.playerH / 2.0 - 1.0 - BULLET_SIZE / 2.0 < b.y <= playerY + a.playerH / 2.0 - BULLET_SIZE / 2.0
    ensures b.y + BULLET_SIZE / 2.0 == TruncToInt(playerY) as real + a.playerH / 2.0
  {
    Bullet(a.playerX as real + a.playerW, TruncToInt(playerY) as real + a.playerH / 2.0 - 12.0)
  }

  /** r * d for a random draw r: in [0, d] when r is in [0, 1) and d >= 0, below d when d > 0. */
  function ScaleDraw(r: real, d: real): (v: real)
    ensures 0.0 <= r < 1.0 && d >= 0.0 ==> 0.0 <= v <= d
    ensures 0.0 <= r < 1.0 && d > 0.0 ==> v < d
  {
    ScaleDrawBounds(r, d);
    r * d
  }

  /** Math.floor(Math.random() * span): the row of a new enemy. */
  function DrawnRow(r: real, span: real): (y: real)
    ensures 0.0 <= r < 1.0 && span >= 0.0 ==> 0.0 <= y <= span
    ensures 0.0 <= r < 1.0 && span > 0.0 ==> y < span
  {
    ScaleDraw(r, span).Floor as real
  }

  /** enemyMinSpeed + Math.random() * (maxSpeed - enemyMinSpeed): the speed of a new enemy. */
  function DrawnSpeed(r: real, maxSpeed: real): (s: real)
    ensures 0.0 <= r < 1.0 && ENEMY_MIN_SPEED < maxSpeed ==> ENEMY_MIN_SPEED <= s < maxSpeed
  {
    ENEMY_MIN_SPEED + ScaleDraw(r, maxSpeed - ENEMY_MIN_SPEED)
  }

  /** spawnEnemy(): r1 and r2 are the two Math.random() draws, for the row and
      the speed, made while the maximum speed is still maxSpeed. */
  function SpawnedEnemy(a: Arena, maxSpeed: real, r1: real, r2: real): (e: Enemy)
    ensures e.x == a.gameW - (ENEMY_SIZE + ENEMY_SPAWN_INSET)
    ensures e.w == ENEMY_SIZE && e.h == ENEMY_SIZE
    ensures 0.0 <= r2 < 1.0 && ENEMY_MIN_SPEED < maxSpeed ==> ENEMY_MIN_SPEED <= e.speed < maxSpeed
    ensures 0.0 <= r1 < 1.0 && a.gameH >= ENEMY_SIZE ==> 0.0 <= e.y <= a.gameH - ENEMY_SIZE
    ensures 0.0 <= r1 < 1.0 && a.gameH > ENEMY_SIZE ==> e.y < a.gameH - ENEMY_SIZE
  {
    Enemy(a.gameW - (ENEMY_SIZE + ENEMY_SPAWN_INSET), DrawnRow(r1, a.gameH - ENEMY_SIZE),
          DrawnSpeed(r2, maxSpeed), ENEMY_SIZE, ENEMY_SIZE)
  }

  /** A draw r in [0, 1) scaled by a span d >= 0 lies in [0, d], and below d when d > 0. */
  lemma ScaleDrawBounds(r: real, d: real)
    ensures 0.0 <= r < 1.0 && d >= 0.0 ==> 0.0 <= r * d <= d
    ensures 0.0 <= r < 1.0 && d > 0.0 ==> r * d < d
  {
    if 0.0 <= r < 1.0 && d >= 0.0 {
      assert (1.0 - r) * d >= 0.0;
      assert d > 0.0 ==> (1.0 - r) * d > 0.0;
    }
  }

  /** The spawn interval after one spawn: 25 ms shorter, never below 600 ms. */
  function NextInterval(i: int): (r: int)
    ensures r >= MIN_INTERVAL
    ensures i >= MIN_INTERVAL ==> r <= i
    ensures i >= MIN_INTERVAL + INTERVAL_STEP ==> r == i - INTERVAL_STEP
    ensures i <= MIN_INTERVAL + INTERVAL_STEP ==> r == MIN_INTERVAL
  {
    if MIN_INTERVAL >= i - INTERVAL_STEP then MIN_INTERVAL else i - INTERVAL_STEP
  }

  /** The maximum enemy speed after one spawn: 0.06 faster, never above 11. */
  function NextMaxSpeed(s: real): (r: real)
    ensures r <= MAX_SPEED_CAP
    ensures s <= MAX_SPEED_CAP ==> s <= r
    ensures s + MAX_SPEED_STEP <= MAX_SPEED_CAP ==> r == s + MAX_SPEED_STEP
    ensures s + MAX_SPEED_STEP >= MAX_SPEED_CAP ==> r == MAX_SPEED_CAP
  {
    Min(MAX_SPEED_CAP, s + MAX_SPEED_STEP)
  }
}
