/** The game's state as a value, and what each phase of a frame does to it. */
module Rules {
  import opened Geometry
  import opened Entities
  import opened Seqs
  import opened Collisions

  /** The three intent flags set by the key handlers. */
  datatype Keys = Keys(up: bool, down: bool, space: bool)

  const NO_KEYS: Keys := Keys(false, false, false)

  /** The `state` record plus the module variable `lastShot`. */
  datatype World = World(
    running: bool,
    assetsLoaded: bool,
    score: int,
    playerY: real,
    nextEnemyInMs: int,
    enemyMaxSpeed: real,
    lastSpawn: real,
    lastShot: real,
    keys: Keys,
    bullets: seq<Bullet>,
    enemies: seq<Enemy>)

  /** The player's top when centred: gameH/2 - outerHeight/2. */
  function CentredY(a: Arena): real
  {
    a.gameH / 2.0 - a.playerH / 2.0
  }

  /** The state once the page has set up, with lastSpawn read from the clock at
      start and the player centred; lastShot starts at 0. */
  function InitialWorld(a: Arena, startTime: real): (w: World)
    ensures w.running && !w.assetsLoaded && w.score == 0
    ensures w.bullets == [] && w.enemies == [] && w.keys == NO_KEYS
    ensures w.nextEnemyInMs == INITIAL_INTERVAL && w.enemyMaxSpeed == INITIAL_MAX_SPEED
    ensures w.lastSpawn == startTime && w.lastShot == 0.0
    ensures w.playerY == CentredY(a)
    ensures a.gameH >= a.playerH ==> 0.0 <= w.playerY <= a.gameH - a.playerH
  {
    World(true, false, 0, CentredY(a), INITIAL_INTERVAL, INITIAL_MAX_SPEED,
          startTime, 0.0, NO_KEYS, [], [])
  }

  // ---------------------------------------------------------------- player

  /** Up subtracts the player speed, down adds it (both may apply), then the
      top is clamped to [0, gameH - outerHeight]. */
  function PlayerMoveStep(a: Arena, w: World): (w': World)
    ensures w' == w.(playerY := w'.playerY)
    ensures a.gameH >= a.playerH ==> 0.0 <= w'.playerY <= a.gameH - a.playerH
    ensures a.gameH < a.playerH ==> w'.playerY == 0.0
    ensures var target := w.playerY - (if w.keys.up then PLAYER_SPEED else 0.0)
                                    + (if w.keys.down then PLAYER_SPEED else 0.0);
            (0.0 <= target <= a.gameH - a.playerH ==> w'.playerY == target) &&
            (target < 0.0 ==> w'.playerY == 0.0) &&
            (0.0 <= a.gameH - a.playerH < target ==> w'.playerY == a.gameH - a.playerH)
  {
    var y1 := if w.keys.up then w.playerY - PLAYER_SPEED else w.playerY;
    var y2 := if w.keys.down then y1 + PLAYER_SPEED else y1;
    w.(playerY := Clamp(y2, 0.0, a.gameH - a.playerH))
  }

  // -------------------------------------------------------------- shooting

  /** maybeShoot(now) fires when the fire key is held and strictly more than
      1000 / shotsPerSecond ms have passed since the last shot. */
  predicate ShotAllowed(w: World, now: real)
  {
    w.keys.space && now - w.lastShot > SHOT_INTERVAL
  }

  function ShootStep(a: Arena, w: World, now: real): (w': World)
    ensures ShotAllowed(w, now) ==>
              w'.bullets == w.bullets + [NewBullet(a, w.playerY)] && w'.lastShot == now
    ensures !ShotAllowed(w, now) ==> w' == w
    ensures w' == w.(bullets := w'.bullets, lastShot := w'.lastShot)
  {
    if ShotAllowed(w, now) then w.(bullets := w.bullets + [NewBullet(a, w.playerY)], lastShot := now)
    else w
  }

  // -------------------------------------------------------------- movement

  function AdvanceBullet(b: Bullet): Bullet
  {
    b.(x := b.x + BULLET_SPEED)
  }

  /** A moved bullet stays unless its x is past the right edge. */
  function BulletStays(gameW: real): Bullet -> bool
  {
    (b: Bullet) => !(b.x > gameW)
  }

  function AdvanceEnemy(e: Enemy): Enemy
  {
    e.(x := e.x - e.speed)
  }

  /** A moved enemy stays unless its x is left of -30. */
  function EnemyStays(): Enemy -> bool
  {
    (e: Enemy) => !(e.x < ENEMY_EXIT_X)
  }

  function MovedBullets(a: Arena, bs: seq<Bullet>): seq<Bullet>
  {
    MapFilter(bs, AdvanceBullet, BulletStays(a.gameW))
  }

  function MovedEnemies(es: seq<Enemy>): seq<Enemy>
  {
    MapFilter(es, AdvanceEnemy, EnemyStays())
  }

  function BulletMoveStep(a: Arena, w: World): (w': World)
    ensures w' == w.(bullets := w'.bullets)
    ensures forall b :: b in w'.bullets ==> b.x <= a.gameW
  {
    w.(bullets := MovedBullets(a, w.bullets))
  }

  function EnemyMoveStep(w: World): (w': World)
    ensures w' == w.(enemies := w'.enemies)
    ensures forall e :: e in w'.enemies ==> e.x >= ENEMY_EXIT_X
  {
    w.(enemies := MovedEnemies(w.enemies))
  }

  // -------------------------------------------------------------- spawning

  /** maybeSpawnEnemy(now) spawns once at least nextEnemyInMs ms have passed
      since the last spawn. */
  predicate SpawnDue(w: World, now: real)
  {
    now - w.lastSpawn >= w.nextEnemyInMs as real
  }

  function SpawnStep(a: Arena, w: World, now: real, r1: real, r2: real): (w': World)
    ensures SpawnDue(w, now) ==>
              w'.enemies == w.enemies + [SpawnedEnemy(a, w.enemyMaxSpeed, r1, r2)] &&
              w'.nextEnemyInMs == NextInterval(w.nextEnemyInMs) &&
              w'.enemyMaxSpeed == NextMaxSpeed(w.enemyMaxSpeed) &&
              w'.lastSpawn == now
    ensures !SpawnDue(w, now) ==> w' == w
    ensures w' == w.(enemies := w'.enemies, nextEnemyInMs := w'.nextEnemyInMs,
                     enemyMaxSpeed := w'.enemyMaxSpeed, lastSpawn := w'.lastSpawn)
  {
    if SpawnDue(w, now) then
      w.(enemies := w.enemies + [SpawnedEnemy(a, w.enemyMaxSpeed, r1, r2)],
         nextEnemyInMs := NextInterval(w.nextEnemyInMs),
         enemyMaxSpeed := NextMaxSpeed(w.enemyMaxSpeed),
         lastSpawn := now)
    else w
  }

  // ------------------------------------------------------------ collisions

  /** Bullets against enemies: both lists shrink by the number of hits, which
      is added to the score; the hits pair each removed bullet with one removed
      enemy whose hitbox it meets, and whatever overlaps nothing survives. */
  function BulletHitStep(w: World): (w': World)
    ensures w' == w.(bullets := w'.bullets, enemies := w'.enemies, score := w'.score)
    ensures var k := w'.score - w.score;
            k >= 0 && |w'.bullets| == |w.bullets| - k && |w'.enemies| == |w.enemies| - k
    ensures multiset(w'.bullets) <= multiset(w.bullets) && multiset(w'.enemies) <= multiset(w.enemies)
    ensures forall b :: b in w'.bullets ==> b in w.bullets
    ensures forall e :: e in w'.enemies ==> e in w.enemies
    ensures forall b :: HitsNone(b, w.enemies) ==> multiset(w'.bullets)[b] == multiset(w.bullets)[b]
    ensures forall e :: HitByNone(w.bullets, e) ==> multiset(w'.enemies)[e] == multiset(w.enemies)[e]
    ensures exists ps :: |ps| == w'.score - w.score && PairedBy(w.bullets, w.enemies, w'.bullets, w'.enemies, ps)
  {
    var r := Resolve(w.bullets, w.enemies);
    ResolveAccounting(w.bullets, w.enemies);
    ResolveSurvivors(w.bullets, w.enemies);
    ResolvePairs(w.bullets, w.enemies);
    assert PairedBy(w.bullets, w.enemies, r.bullets, r.enemies, r.kills);
    assert forall b :: b in r.bullets ==> b in multiset(w.bullets);
    assert forall e :: e in r.enemies ==> e in multiset(w.enemies);
    w.(bullets := r.bullets, enemies := r.enemies, score := w.score + |r.kills|)
  }

  /** Some enemy's centred 65% box meets the player's centred 80% box. */
  predicate PlayerStruck(a: Arena, w: World)
  {
    exists k :: 0 <= k < |w.enemies| && EnemyHitsPlayer(a, w.playerY, w.enemies[k])
  }

  /** gameOver(): only the running flag changes. */
  function GameOverStep(w: World): (w': World)
    ensures !w'.running && w' == w.(running := false)
  {
    w.(running := false)
  }

  /** Enemies against the player: the game ends when any enemy touches it. */
  function PlayerHitStep(a: Arena, w: World): (w': World)
    ensures w'.running <==> w.running && !PlayerStruck(a, w)
    ensures w' == w.(running := w'.running)
  {
    if PlayerStruck(a, w) then GameOverStep(w) else w
  }

  // ------------------------------------------------------------- one frame

  /** update(now): nothing happens while the game is not running; otherwise
      the seven phases run in the source's order. */
  function Tick(a: Arena, w: World, now: real, r1: real, r2: real): (w': World)
    ensures !w.running ==> w' == w
    ensures w.running ==> w'.score >= w.score
    ensures w.running && a.gameH >= a.playerH ==> 0.0 <= w'.playerY <= a.gameH - a.playerH
    ensures w'.keys == w.keys && w'.assetsLoaded == w.assetsLoaded
    ensures w'.lastShot == w.lastShot || w'.lastShot == now
    ensures forall b :: w.running && b in w'.bullets ==> b.x <= a.gameW
    ensures forall e :: w.running && e in w'.enemies ==> e.x >= ENEMY_EXIT_X
  {
    if !w.running then w
    else
      var w1 := PlayerMoveStep(a, w);
      var w2 := ShootStep(a, w1, now);
      var w3 := BulletMoveStep(a, w2);
      var w4 := SpawnStep(a, w3, now, r1, r2);
      var w5 := EnemyMoveStep(w4);
      var w6 := BulletHitStep(w5);
      PlayerHitStep(a, w6)
  }

  // ---------------------------------------------------------------- events

  /** resetGame(): entities cleared, score zeroed, player centred, running
      again. Difficulty, both timestamps and the key flags are kept. */
  function ResetStep(a: Arena, w: World): (w': World)
    ensures w'.running && w'.score == 0 && w'.bullets == [] && w'.enemies == []
    ensures w'.playerY == CentredY(a)
    ensures w'.nextEnemyInMs == w.nextEnemyInMs && w'.enemyMaxSpeed == w.enemyMaxSpeed
    ensures w'.lastSpawn == w.lastSpawn && w'.lastShot == w.lastShot
    ensures w'.keys == w.keys && w'.assetsLoaded == w.assetsLoaded
  {
    w.(bullets := [], enemies := [], score := 0, playerY := CentredY(a), running := true)
  }

  /** The abstract inputs the key handlers produce. */
  datatype Intent = MoveUp | MoveDown | Fire | Restart

  function SetKey(k: Keys, i: Intent, v: bool): Keys
  {
    match i
    case MoveUp => k.(up := v)
    case MoveDown => k.(down := v)
    case Fire => k.(space := v)
    case Restart => k
  }

  /** Both keydown handlers: movement and fire keys are ignored while the game
      is not running; the restart key resets the game only while it is not. */
  function KeyDownStep(a: Arena, w: World, i: Intent): (w': World)
    ensures i != Restart && !w.running ==> w' == w
    ensures i != Restart && w.running ==>
              w' == w.(keys := w'.keys) &&
              w'.keys.up == (w.keys.up || i == MoveUp) &&
              w'.keys.down == (w.keys.down || i == MoveDown) &&
              w'.keys.space == (w.keys.space || i == Fire)
    ensures i == Restart && w.running ==> w' == w
    ensures i == Restart && !w.running ==> w' == ResetStep(a, w)
  {
    if i == Restart then (if !w.running then ResetStep(a, w) else w)
    else if !w.running then w
    else w.(keys := SetKey(w.keys, i, true))
  }

  /** The keyup handler clears a flag whether or not the game is running. */
  function KeyUpStep(w: World, i: Intent): (w': World)
    ensures w' == w.(keys := w'.keys)
    ensures w'.keys.up == (w.keys.up && i != MoveUp)
    ensures w'.keys.down == (w.keys.down && i != MoveDown)
    ensures w'.keys.space == (w.keys.space && i != Fire)
  {
    w.(keys := SetKey(w.keys, i, false))
  }

  /** Everything that reaches the game from its host. A frame carries the
      clock reading and the two random draws spawnEnemy would make. */
  datatype Event =
    | Frame(now: real, r1: real, r2: real)
    | KeyDown(intent: Intent)
    | KeyUp(intent: Intent)
    | AssetsLoaded
    | AssetsFailed

  /** Frames are delivered only after the asset loader's success callback has
      started the animation loop; a failed load stops the game. */
  function Apply(a: Arena, w: World, ev: Event): World
  {
    match ev
    case Frame(now, r1, r2) => if w.assetsLoaded then Tick(a, w, now, r1, r2) else w
    case KeyDown(i) => KeyDownStep(a, w, i)
    case KeyUp(i) => KeyUpStep(w, i)
    case AssetsLoaded => w.(assetsLoaded := true)
    case AssetsFailed => w.(running := false)
  }

  /** A session: the events applied in order. */
  function Run(a: Arena, w: World, evs: seq<Event>): World
    decreases |evs|
  {
    if evs == [] then w else Run(a, Apply(a, w, evs[0]), evs[1..])
  }
}
