/** The game object: the fields of `state` (plus `lastShot`) updated in place
    by the frame update and the input handlers. */
module Engine {
  import opened Geometry
  import opened Entities
  import opened Seqs
  import opened Collisions
  import opened Rules

  class Game {
    const arena: Arena

    var running: bool
    var assetsLoaded: bool
    var score: int
    var playerY: real
    var nextEnemyInMs: int
    var enemyMaxSpeed: real
    var lastSpawn: real
    var lastShot: real
    var keyUp: bool
    var keyDown: bool
    var keySpace: bool
    var bullets: seq<Bullet>
    var enemies: seq<Enemy>

    /** The state as a value. */
    function Snapshot(): World
      reads this
    {
      World(running, assetsLoaded, score, playerY, nextEnemyInMs, enemyMaxSpeed,
            lastSpawn, lastShot, Keys(keyUp, keyDown, keySpace), bullets, enemies)
    }

    /** Page set-up: startTime is the clock reading taken for lastSpawn; the
        player starts centred. */
    constructor (a: Arena, startTime: real)
      ensures arena == a
      ensures Snapshot() == InitialWorld(a, startTime)
    {
      arena := a;
      running := true;
      assetsLoaded := false;
      score := 0;
      playerY := a.gameH / 2.0 - a.playerH / 2.0;
      nextEnemyInMs := INITIAL_INTERVAL;
      enemyMaxSpeed := INITIAL_MAX_SPEED;
      lastSpawn := startTime;
      lastShot := 0.0;
      keyUp, keyDown, keySpace := false, false, false;
      bullets := [];
      enemies := [];
    }

    // ----------------------------------------------------------- shooting

    method Shoot()
      modifies this
      ensures Snapshot() == old(Snapshot()).(bullets := old(bullets) + [NewBullet(arena, old(playerY))])
    {
      var bulletY := TruncToInt(playerY) as real + arena.playerH / 2.0 - 12.0;
      var bulletX := arena.playerX as real + arena.playerW;
      bullets := bullets + [Bullet(bulletX, bulletY)];
    }

    method MaybeShoot(now: real)
      modifies this
      ensures Snapshot() == ShootStep(arena, old(Snapshot()), now)
    {
      if !keySpace { return; }
      var minInterval := 1000.0 / SHOTS_PER_SECOND;
      if now - lastShot > minInterval {
        Shoot();
        lastShot := now;
      }
    }

    // ----------------------------------------------------------- spawning

    method SpawnEnemy(r1: real, r2: real)
      modifies this
      ensures Snapshot() == old(Snapshot()).(enemies := old(enemies) + [SpawnedEnemy(arena, old(enemyMaxSpeed), r1, r2)])
    {
      var enemySize := ENEMY_SIZE;
      var y := DrawnRow(r1, arena.gameH - enemySize);
      var speed := DrawnSpeed(r2, enemyMaxSpeed);
      enemies := enemies + [Enemy(arena.gameW - (enemySize + 4.0), y, speed, enemySize, enemySize)];
    }

    method MaybeSpawnEnemy(now: real, r1: real, r2: real)
      modifies this
      ensures Snapshot() == SpawnStep(arena, old(Snapshot()), now, r1, r2)
    {
      if now - lastSpawn >= nextEnemyInMs as real {
        SpawnEnemy(r1, r2);
        nextEnemyInMs := if MIN_INTERVAL >= nextEnemyInMs - 25 then MIN_INTERVAL else nextEnemyInMs - 25;
        enemyMaxSpeed := Min(11.0, enemyMaxSpeed + 0.06);
        lastSpawn := now;
      }
    }

    // ----------------------------------------------------------- movement

    /** The bullet loop walks from the last index down, so a splice at i
        never moves a bullet it has still to visit. */
    method MoveBullets()
      modifies this
      ensures Snapshot() == BulletMoveStep(arena, old(Snapshot()))
    {
      ghost var w0 := Snapshot();
      var i := |bullets| - 1;
      while i >= 0
        invariant -1 <= i < |w0.bullets|
        invariant bullets == w0.bullets[..i + 1] + MapFilter(w0.bullets[i + 1..], AdvanceBullet, BulletStays(arena.gameW))
        invariant Snapshot() == w0.(bullets := bullets)
      {
        BackwardStep(w0.bullets, AdvanceBullet, BulletStays(arena.gameW), i, bullets);
        var b := bullets[i];
        b := b.(x := b.x + BULLET_SPEED);
        assert b == AdvanceBullet(w0.bullets[i]);
        bullets := bullets[i := b];
        if b.x > arena.gameW {
          bullets := bullets[..i] + bullets[i + 1..];
        }
        i := i - 1;
      }
    }

    method MoveEnemies()
      modifies this
      ensures Snapshot() == EnemyMoveStep(old(Snapshot()))
    {
      ghost var w0 := Snapshot();
      var i := |enemies| - 1;
      while i >= 0
        invariant -1 <= i < |w0.enemies|
        invariant enemies == w0.enemies[..i + 1] + MapFilter(w0.enemies[i + 1..], AdvanceEnemy, EnemyStays())
        invariant Snapshot() == w0.(enemies := enemies)
      {
        BackwardStep(w0.enemies, AdvanceEnemy, EnemyStays(), i, enemies);
        var e := enemies[i];
        e := e.(x := e.x - e.speed);
        assert e == AdvanceEnemy(w0.enemies[i]);
        enemies := enemies[i := e];
        if e.x < ENEMY_EXIT_X {
          enemies := enemies[..i] + enemies[i + 1..];
        }
        i := i - 1;
      }
    }

    // --------------------------------------------------------- collisions

    /** The inner loop of the bullet-versus-enemy pass, for the bullet at bi:
        it walks the enemies from the last index down and, at the first one
        the bullet hits, splices out both, scores one and breaks. */
    method ScanEnemies(bi: nat) returns (hit: bool)
      requires bi < |bullets|
      modifies this
      ensures hit == LastHit(old(bullets[bi]), old(enemies)).Some?
      ensures !hit ==> Snapshot() == old(Snapshot())
      ensures hit ==> Snapshot() == old(Snapshot()).(
                bullets := RemoveAt(old(bullets), bi),
                enemies := RemoveAt(old(enemies), LastHit(old(bullets[bi]), old(enemies)).value),
                score := old(score) + 1)
    {
      var b := bullets[bi];
      hit := false;
      var ei := |enemies| - 1;
      while ei >= 0
        invariant -1 <= ei < |enemies|
        invariant Snapshot() == old(Snapshot())
        invariant forall k :: ei < k < |enemies| ==> !BulletHitsEnemy(b, enemies[k])
      {
        if BulletHitsEnemy(b, enemies[ei]) {
          assert LastHit(b, enemies) == Some(ei);
          enemies := enemies[..ei] + enemies[ei + 1..];
          bullets := bullets[..bi] + bullets[bi + 1..];
          score := score + 1;
          hit := true;
          return;
        }
        ei := ei - 1;
      }
    }

    /** The bullet-versus-enemy pass. The outer loop walks the bullets from the
        last index down: bullets[..bi + 1] are still to be resolved against the
        current enemies, bullets[bi + 1..] are the ones kept so far. */
    method ResolveBulletHits()
      modifies this
      ensures Snapshot() == BulletHitStep(old(Snapshot()))
    {
      ghost var w0 := Snapshot();
      ghost var total := Resolve(w0.bullets, w0.enemies);
      ResolvedStart(w0.bullets, w0.enemies);
      var bi := |bullets| - 1;
      while bi >= 0
        invariant -1 <= bi < |bullets|
        invariant ResolvedSoFar(total, bullets[..bi + 1], bullets[bi + 1..], enemies, score - w0.score)
        invariant Snapshot() == w0.(bullets := bullets, enemies := enemies, score := score)
      {
        ghost var bs, es, sc := bullets, enemies, score;
        var hit := ScanEnemies(bi);
        ResolvedVisit(total, bs, bi, es, sc - w0.score, bullets, enemies, score - w0.score);
        bi := bi - 1;
      }
      ResolvedEnd(total, bullets, enemies, score - w0.score);
    }

    /** The enemy-versus-player pass stops at the first enemy touching the player. */
    method ResolvePlayerHits()
      modifies this
      ensures Snapshot() == PlayerHitStep(arena, old(Snapshot()))
    {
      ghost var w0 := Snapshot();
      var py := playerY;
      var ei := |enemies| - 1;
      while ei >= 0
        invariant -1 <= ei < |enemies|
        invariant Snapshot() == w0
        invariant forall k :: ei < k < |enemies| ==> !EnemyHitsPlayer(arena, py, enemies[k])
      {
        var e := enemies[ei];
        var pw := arena.playerW * PLAYER_HIT_FACTOR;
        var ph := arena.playerH * PLAYER_HIT_FACTOR;
        var pxAdj := arena.playerX as real + (arena.playerW - pw) / 2.0;
        var pyAdj := py + (arena.playerH - ph) / 2.0;
        var ew := SizeOrDefault(e.w) * ENEMY_TOUCH_FACTOR;
        var eh := SizeOrDefault(e.h) * ENEMY_TOUCH_FACTOR;
        var exAdj := e.x + (SizeOrDefault(e.w) - ew) / 2.0;
        var eyAdj := e.y + (SizeOrDefault(e.h) - eh) / 2.0;
        if RectsIntersect(Box(pxAdj, pyAdj, pw, ph), Box(exAdj, eyAdj, ew, eh)) {
          assert EnemyHitsPlayer(arena, py, enemies[ei]);
          GameOver();
          return;
        }
        ei := ei - 1;
      }
    }

    method GameOver()
      modifies this
      ensures Snapshot() == GameOverStep(old(Snapshot()))
    {
      running := false;
    }

    // ---------------------------------------------------------- one frame

    /** update(now); r1 and r2 are the random draws a spawn in this frame uses. */
    method Update(now: real, r1: real, r2: real)
      modifies this
      ensures Snapshot() == Tick(arena, old(Snapshot()), now, r1, r2)
    {
      if !running { return; }
      ghost var w0 := Snapshot();
      if keyUp { playerY := playerY - PLAYER_SPEED; }
      if keyDown { playerY := playerY + PLAYER_SPEED; }
      playerY := Clamp(playerY, 0.0, arena.gameH - arena.playerH);
      ghost var w1 := Snapshot();
      assert w1 == PlayerMoveStep(arena, w0);
      MaybeShoot(now);
      ghost var w2 := Snapshot();
      MoveBullets();
      ghost var w3 := Snapshot();
      MaybeSpawnEnemy(now, r1, r2);
      ghost var w4 := Snapshot();
      MoveEnemies();
      ghost var w5 := Snapshot();
      ResolveBulletHits();
      ghost var w6 := Snapshot();
      ResolvePlayerHits();
      assert Snapshot() == PlayerHitStep(arena, BulletHitStep(EnemyMoveStep(
        SpawnStep(arena, BulletMoveStep(arena, ShootStep(arena, PlayerMoveStep(arena, w0), now)), now, r1, r2))));
    }

    // ------------------------------------------------------------- events

    method ResetGame()
      modifies this
      ensures Snapshot() == ResetStep(arena, old(Snapshot()))
    {
      bullets := [];
      enemies := [];
      score := 0;
      playerY := arena.gameH / 2.0 - arena.playerH / 2.0;
      running := true;
    }

    /** Both keydown handlers. */
    method OnKeyDown(i: Intent)
      modifies this
      ensures Snapshot() == Apply(arena, old(Snapshot()), KeyDown(i))
    {
      if running {
        match i
        case MoveUp => keyUp := true;
        case MoveDown => keyDown := true;
        case Fire => keySpace := true;
        case Restart =>
      }
      if i == Restart && !running {
        ResetGame();
      }
    }

    method OnKeyUp(i: Intent)
      modifies this
      ensures Snapshot() == Apply(arena, old(Snapshot()), KeyUp(i))
    {
      match i
      case MoveUp => keyUp := false;
      case MoveDown => keyDown := false;
      case Fire => keySpace := false;
      case Restart =>
    }

    /** The asset loader's success callback, which also starts the frame loop. */
    method OnAssetsLoaded()
      modifies this
      ensures Snapshot() == Apply(arena, old(Snapshot()), AssetsLoaded)
    {
      assetsLoaded := true;
    }

    /** The asset loader's failure callback. */
    method OnAssetsFailed()
      modifies this
      ensures Snapshot() == Apply(arena, old(Snapshot()), AssetsFailed)
    {
      running := false;
    }
  }
}
