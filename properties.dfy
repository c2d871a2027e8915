/** What a frame, a key press and a session guarantee about the game state. */
module Properties {
  import opened Geometry
  import opened Entities
  import opened Seqs
  import opened Collisions
  import opened Rules

  // ------------------------------------------------------- movement loops

  /** The bullet loop: every bullet moves right by exactly the bullet speed;
      position m survives exactly when its new x is not past the right edge;
      survivors keep their relative order (idx is increasing). */
  lemma MovedBulletsMeaning(a: Arena, bs: seq<Bullet>)
    ensures var r, idx := MovedBullets(a, bs), KeptIndices(bs, AdvanceBullet, BulletStays(a.gameW), 0);
            |idx| == |r| &&
            (forall j :: 0 <= j < |idx| ==>
               idx[j] < |bs| && r[j].x == bs[idx[j]].x + BULLET_SPEED && r[j].y == bs[idx[j]].y) &&
            (forall j, k :: 0 <= j < k < |idx| ==> idx[j] < idx[k]) &&
            (forall m :: 0 <= m < |bs| ==> (m in idx <==> bs[m].x + BULLET_SPEED <= a.gameW)) &&
            (forall b :: b in r ==> b.x <= a.gameW)
  {
    MapFilterMeaning(bs, AdvanceBullet, BulletStays(a.gameW));
  }

  /** The enemy loop: every enemy moves left by its own speed; position m
      survives exactly when its new x is not left of -30; order is kept. */
  lemma MovedEnemiesMeaning(es: seq<Enemy>)
    ensures var r, idx := MovedEnemies(es), KeptIndices(es, AdvanceEnemy, EnemyStays(), 0);
            |idx| == |r| &&
            (forall j :: 0 <= j < |idx| ==>
               idx[j] < |es| && r[j] == es[idx[j]].(x := es[idx[j]].x - es[idx[j]].speed)) &&
            (forall j, k :: 0 <= j < k < |idx| ==> idx[j] < idx[k]) &&
            (forall m :: 0 <= m < |es| ==> (m in idx <==> es[m].x - es[m].speed >= ENEMY_EXIT_X)) &&
            (forall e :: e in r ==> e.x >= ENEMY_EXIT_X)
  {
    MapFilterMeaning(es, AdvanceEnemy, EnemyStays());
  }

  // ------------------------------------------------------------ collisions

  /** One bullet and one enemy whose boxes overlap: both go, the score rises by one. */
  lemma SingleHitScores(w: World, b: Bullet, e: Enemy)
    requires w.bullets == [b] && w.enemies == [e] && BulletHitsEnemy(b, e)
    ensures BulletHitStep(w) == w.(bullets := [], enemies := [], score := w.score + 1)
  {
    assert [b][..0] == [];
  }

  /** One bullet and one enemy whose boxes do not overlap: both stay and
      nothing is scored. */
  lemma MissKeepsBoth(w: World, b: Bullet, e: Enemy)
    requires w.bullets == [b] && w.enemies == [e] && !BulletHitsEnemy(b, e)
    ensures BulletHitStep(w) == w
  {
    assert [b][..0] == [];
  }

  /** No bullet or enemy that survives the hit pass overlaps any other survivor. */
  lemma NoHitsSurvive(w: World)
    ensures var w' := BulletHitStep(w);
            forall b, e :: b in w'.bullets && e in w'.enemies ==> !BulletHitsEnemy(b, e)
  {
    ResolveAccounting(w.bullets, w.enemies);
  }

  // ----------------------------------------------------------- invariants

  /** The part of the invariant that every phase of a frame keeps: the
      difficulty ratchet within its bounds, a non-negative score, the player
      inside the arena (when it fits), and every enemy's size, row and speed
      as spawned. */
  ghost predicate Core(a: Arena, w: World)
  {
    MIN_INTERVAL <= w.nextEnemyInMs <= INITIAL_INTERVAL &&
    INITIAL_MAX_SPEED <= w.enemyMaxSpeed <= MAX_SPEED_CAP &&
    w.score >= 0 &&
    (a.gameH >= a.playerH ==> 0.0 <= w.playerY <= a.gameH - a.playerH) &&
    (forall e :: e in w.enemies ==> EnemyShaped(a, w.enemyMaxSpeed, e))
  }

  ghost predicate EnemyShaped(a: Arena, maxSpeed: real, e: Enemy)
  {
    e.w == ENEMY_SIZE && e.h == ENEMY_SIZE &&
    ENEMY_MIN_SPEED <= e.speed < maxSpeed &&
    (a.gameH >= ENEMY_SIZE ==> 0.0 <= e.y <= a.gameH - ENEMY_SIZE)
  }

  ghost predicate BulletsInside(a: Arena, w: World)
  {
    forall b :: b in w.bullets ==> b.x <= a.gameW
  }

  ghost predicate EnemiesInside(w: World)
  {
    forall e :: e in w.enemies ==> e.x >= ENEMY_EXIT_X
  }

  /** What holds between frames: Core, every bullet left of the right edge and
      every enemy right of the exit line. */
  ghost predicate Inv(a: Arena, w: World)
  {
    Core(a, w) && BulletsInside(a, w) && EnemiesInside(w)
  }

  /** The draws the host makes are Math.random() values, in [0, 1). */
  predicate ValidDraws(r1: real, r2: real)
  {
    0.0 <= r1 < 1.0 && 0.0 <= r2 < 1.0
  }

  lemma InitialInv(a: Arena, startTime: real)
    ensures Inv(a, InitialWorld(a, startTime))
  {
  }

  /** Spawning keeps Core: the new enemy's speed is drawn below the maximum
      before that maximum is raised, and its row lies inside the arena. */
  lemma SpawnKeepsCore(a: Arena, w: World, now: real, r1: real, r2: real)
    requires Core(a, w) && ValidDraws(r1, r2)
    ensures Core(a, SpawnStep(a, w, now, r1, r2))
    ensures BulletsInside(a, w) ==> BulletsInside(a, SpawnStep(a, w, now, r1, r2))
  {
    var w' := SpawnStep(a, w, now, r1, r2);
    if SpawnDue(w, now) {
      var e0 := SpawnedEnemy(a, w.enemyMaxSpeed, r1, r2);
      assert EnemyShaped(a, w'.enemyMaxSpeed, e0);
      forall e | e in w'.enemies ensures EnemyShaped(a, w'.enemyMaxSpeed, e) {
        if e != e0 { assert e in w.enemies; }
      }
    }
  }

  /** The enemy loop keeps Core (it changes only x) and leaves every enemy
      right of the exit line. */
  lemma EnemyMoveKeepsCore(a: Arena, w: World)
    requires Core(a, w)
    ensures Core(a, EnemyMoveStep(w)) && EnemiesInside(EnemyMoveStep(w))
  {
    var w' := EnemyMoveStep(w);
    MovedEnemiesMeaning(w.enemies);
    var idx := KeptIndices(w.enemies, AdvanceEnemy, EnemyStays(), 0);
    forall e | e in w'.enemies ensures EnemyShaped(a, w'.enemyMaxSpeed, e) {
      var j :| 0 <= j < |w'.enemies| && w'.enemies[j] == e;
      assert w.enemies[idx[j]] in w.enemies;
    }
  }

  /** The hit pass only removes entities and raises the score. */
  lemma BulletHitKeepsInv(a: Arena, w: World)
    requires Inv(a, w)
    ensures Inv(a, BulletHitStep(w))
  {
  }

  /** A frame keeps the invariant, whatever the keys, the clock and the draws. */
  lemma TickPreservesInv(a: Arena, w: World, now: real, r1: real, r2: real)
    requires Inv(a, w) && ValidDraws(r1, r2)
    ensures Inv(a, Tick(a, w, now, r1, r2))
  {
    if w.running {
      var w1 := PlayerMoveStep(a, w);
      assert Core(a, w1);
      var w2 := ShootStep(a, w1, now);
      assert Core(a, w2);
      var w3 := BulletMoveStep(a, w2);
      assert Core(a, w3) && BulletsInside(a, w3);
      var w4 := SpawnStep(a, w3, now, r1, r2);
      SpawnKeepsCore(a, w3, now, r1, r2);
      var w5 := EnemyMoveStep(w4);
      EnemyMoveKeepsCore(a, w4);
      assert Inv(a, w5);
      var w6 := BulletHitStep(w5);
      BulletHitKeepsInv(a, w5);
      assert Inv(a, PlayerHitStep(a, w6));
    }
  }

  /** Every event keeps the invariant. */
  lemma ApplyPreservesInv(a: Arena, w: World, ev: Event)
    requires Inv(a, w)
    requires ev.Frame? ==> ValidDraws(ev.r1, ev.r2)
    ensures Inv(a, Apply(a, w, ev))
  {
    match ev
    case Frame(now, r1, r2) =>
      if w.assetsLoaded { TickPreservesInv(a, w, now, r1, r2); }
    case KeyDown(i) =>
      assert 0.0 <= a.gameH / 2.0 - a.playerH / 2.0 || a.gameH < a.playerH;
    case KeyUp(i) =>
    case AssetsLoaded =>
    case AssetsFailed =>
  }

  /** Every frame of the session carries draws in [0, 1). */
  predicate ValidSession(evs: seq<Event>)
  {
    forall k :: 0 <= k < |evs| && evs[k].Frame? ==> ValidDraws(evs[k].r1, evs[k].r2)
  }

  /** A whole session keeps the invariant: in particular the player stays
      inside the arena, the spawn interval in [600, 1100] and the maximum
      enemy speed in [8, 11], for every combination of keys and restarts. */
  lemma {:induction false} RunPreservesInv(a: Arena, w: World, evs: seq<Event>)
    requires Inv(a, w) && ValidSession(evs)
    ensures Inv(a, Run(a, w, evs))
    decreases |evs|
  {
    if evs != [] {
      ApplyPreservesInv(a, w, evs[0]);
      assert ValidSession(evs[1..]) by {
        forall k | 0 <= k < |evs[1..]| && evs[1..][k].Frame?
          ensures ValidDraws(evs[1..][k].r1, evs[1..][k].r2)
        {
          assert evs[1..][k] == evs[k + 1];
        }
      }
      RunPreservesInv(a, Apply(a, w, evs[0]), evs[1..]);
    }
  }

  // ------------------------------------------------------ difficulty ramp

  /** The difficulty reached after n spawns from the start:
      nextEnemyInMs = max(600, 1100 - 25n), enemyMaxSpeed = min(11, 8 + 0.06n). */
  function IntervalAfter(n: nat): int
  {
    var i := INITIAL_INTERVAL - INTERVAL_STEP * n;
    if i >= MIN_INTERVAL then i else MIN_INTERVAL
  }

  function MaxSpeedAfter(n: nat): real
  {
    Min(MAX_SPEED_CAP, INITIAL_MAX_SPEED + MAX_SPEED_STEP * n as real)
  }

  predicate DifficultyAfter(w: World, n: nat)
  {
    w.nextEnemyInMs == IntervalAfter(n) && w.enemyMaxSpeed == MaxSpeedAfter(n)
  }

  /** The frame ev spawns an enemy in world w. */
  predicate SpawnsOn(w: World, ev: Event)
  {
    ev.Frame? && w.assetsLoaded && w.running && SpawnDue(w, ev.now)
  }

  /** The number of enemies spawned during a session. */
  function SpawnsIn(a: Arena, w: World, evs: seq<Event>): nat
    decreases |evs|
  {
    if evs == [] then 0
    else (if SpawnsOn(w, evs[0]) then 1 else 0) + SpawnsIn(a, Apply(a, w, evs[0]), evs[1..])
  }

  /** An event moves the difficulty one level up exactly when it spawns. */
  lemma ApplyDifficulty(a: Arena, w: World, ev: Event, n: nat)
    requires DifficultyAfter(w, n)
    ensures DifficultyAfter(Apply(a, w, ev), if SpawnsOn(w, ev) then n + 1 else n)
  {
    if SpawnsOn(w, ev) {
      var w3 := BulletMoveStep(a, ShootStep(a, PlayerMoveStep(a, w), ev.now));
      assert w3.nextEnemyInMs == w.nextEnemyInMs && w3.lastSpawn == w.lastSpawn;
      assert NextInterval(IntervalAfter(n)) == IntervalAfter(n + 1);
      assert NextMaxSpeed(MaxSpeedAfter(n)) == MaxSpeedAfter(n + 1);
    }
  }

  /** The difficulty of a session is fixed by how many enemies it spawned;
      restarts do not reset it. */
  lemma {:induction false} RunDifficulty(a: Arena, w: World, evs: seq<Event>, n: nat)
    requires DifficultyAfter(w, n)
    ensures DifficultyAfter(Run(a, w, evs), n + SpawnsIn(a, w, evs))
    decreases |evs|
  {
    if evs != [] {
      ApplyDifficulty(a, w, evs[0], n);
      RunDifficulty(a, Apply(a, w, evs[0]), evs[1..], if SpawnsOn(w, evs[0]) then n + 1 else n);
    }
  }

  /** From the start, after a session with N spawns the spawn interval is
      max(600, 1100 - 25N) and the maximum enemy speed min(11, 8 + 0.06N). */
  lemma DifficultyOfSession(a: Arena, startTime: real, evs: seq<Event>)
    ensures var w' := Run(a, InitialWorld(a, startTime), evs);
            var n := SpawnsIn(a, InitialWorld(a, startTime), evs);
            w'.nextEnemyInMs == IntervalAfter(n) && w'.enemyMaxSpeed == MaxSpeedAfter(n)
  {
    RunDifficulty(a, InitialWorld(a, startTime), evs, 0);
  }

  /** One event never lengthens the interval nor lowers the maximum speed. */
  lemma ApplyRatchet(a: Arena, w: World, ev: Event)
    requires w.nextEnemyInMs >= MIN_INTERVAL && w.enemyMaxSpeed <= MAX_SPEED_CAP
    ensures var w' := Apply(a, w, ev);
            MIN_INTERVAL <= w'.nextEnemyInMs <= w.nextEnemyInMs &&
            w.enemyMaxSpeed <= w'.enemyMaxSpeed <= MAX_SPEED_CAP
  {
    if ev.Frame? && w.assetsLoaded && w.running {
      var w3 := BulletMoveStep(a, ShootStep(a, PlayerMoveStep(a, w), ev.now));
      assert w3.nextEnemyInMs == w.nextEnemyInMs && w3.enemyMaxSpeed == w.enemyMaxSpeed;
    }
  }

  /** The ratchet over a whole session, restarts included. */
  lemma {:induction false} RunRatchet(a: Arena, w: World, evs: seq<Event>)
    requires w.nextEnemyInMs >= MIN_INTERVAL && w.enemyMaxSpeed <= MAX_SPEED_CAP
    ensures var w' := Run(a, w, evs);
            MIN_INTERVAL <= w'.nextEnemyInMs <= w.nextEnemyInMs &&
            w.enemyMaxSpeed <= w'.enemyMaxSpeed <= MAX_SPEED_CAP
    decreases |evs|
  {
    if evs != [] {
      ApplyRatchet(a, w, evs[0]);
      RunRatchet(a, Apply(a, w, evs[0]), evs[1..]);
    }
  }

  // -------------------------------------------------------- rate of fire

  /** A frame moves lastShot exactly when it fires, and then to its own time. */
  lemma TickShotIff(a: Arena, w: World, now: real, r1: real, r2: real)
    ensures var w' := Tick(a, w, now, r1, r2);
            (w'.lastShot != w.lastShot <==> w.running && w.keys.space && now - w.lastShot > SHOT_INTERVAL) &&
            (w'.lastShot != w.lastShot ==> w'.lastShot == now)
  {
    if w.running {
      var w1 := PlayerMoveStep(a, w);
      assert w1.keys == w.keys && w1.lastShot == w.lastShot;
    }
  }

  /** Two frames that both fire are more than 1000 / shotsPerSecond = 500 ms apart. */
  lemma ShotsSpacedApart(a: Arena, w: World, t1: real, t2: real, d1: real, d2: real, d3: real, d4: real)
    requires var w1 := Tick(a, w, t1, d1, d2);
             w1.lastShot != w.lastShot && Tick(a, w1, t2, d3, d4).lastShot != w1.lastShot
    ensures t2 - t1 > SHOT_INTERVAL
  {
    var w1 := Tick(a, w, t1, d1, d2);
    TickShotIff(a, w, t1, d1, d2);
    TickShotIff(a, w1, t2, d3, d4);
  }

  /** An event never lowers lastShot; when it moves it, the event is a frame
      that fires: lastShot becomes its time, more than 500 ms after the old. */
  lemma ApplyLastShot(a: Arena, w: World, ev: Event)
    ensures var w' := Apply(a, w, ev);
            w'.lastShot >= w.lastShot &&
            (w'.lastShot != w.lastShot ==>
               ev.Frame? && w'.lastShot == ev.now && ev.now - w.lastShot > SHOT_INTERVAL)
  {
    if ev.Frame? && w.assetsLoaded {
      TickShotIff(a, w, ev.now, ev.r1, ev.r2);
    }
  }

  /** Over a session lastShot never goes down. */
  lemma {:induction false} RunLastShotRises(a: Arena, w: World, evs: seq<Event>)
    ensures Run(a, w, evs).lastShot >= w.lastShot
    decreases |evs|
  {
    if evs != [] {
      ApplyLastShot(a, w, evs[0]);
      RunLastShotRises(a, Apply(a, w, evs[0]), evs[1..]);
    }
  }

  /** Running s and then t is running s + t. */
  lemma {:induction false} RunConcat(a: Arena, w: World, s: seq<Event>, t: seq<Event>)
    ensures Run(a, w, s + t) == Run(a, Run(a, w, s), t)
    decreases |s|
  {
    if s == [] {
      assert s + t == t;
    } else {
      assert (s + t)[0] == s[0];
      assert (s + t)[1..] == s[1..] + t;
      RunConcat(a, Apply(a, w, s[0]), s[1..], t);
    }
  }

  /** The state just before event k of a session. */
  function StateBefore(a: Arena, w: World, evs: seq<Event>, k: nat): World
    requires k <= |evs|
  {
    Run(a, w, evs[..k])
  }

  /** Event k of the session fires: it moves lastShot. */
  predicate FiresAt(a: Arena, w: World, evs: seq<Event>, k: nat)
    requires k < |evs|
  {
    var s := StateBefore(a, w, evs, k);
    Apply(a, s, evs[k]).lastShot != s.lastShot
  }

  /** The rate limit over a whole session: any two events that fire are frames,
      and the later one comes more than 1000 / shotsPerSecond = 500 ms after
      the earlier, whatever key events, restarts and frames lie between them. */
  lemma SessionShotsSpacedApart(a: Arena, w: World, evs: seq<Event>, i: nat, j: nat)
    requires i < j < |evs|
    requires FiresAt(a, w, evs, i) && FiresAt(a, w, evs, j)
    ensures evs[i].Frame? && evs[j].Frame?
    ensures evs[j].now - evs[i].now > SHOT_INTERVAL
  {
    ApplyLastShot(a, StateBefore(a, w, evs, i), evs[i]);
    StateBeforeNext(a, w, evs, i);
    StateBeforeLater(a, w, evs, i + 1, j);
    RunLastShotRises(a, StateBefore(a, w, evs, i + 1), evs[i + 1..j]);
    ApplyLastShot(a, StateBefore(a, w, evs, j), evs[j]);
  }

  /** The state before event k + 1 is event k applied to the state before it. */
  lemma StateBeforeNext(a: Arena, w: World, evs: seq<Event>, k: nat)
    requires k < |evs|
    ensures StateBefore(a, w, evs, k + 1) == Apply(a, StateBefore(a, w, evs, k), evs[k])
  {
    RunConcat(a, w, evs[..k], [evs[k]]);
    assert evs[..k] + [evs[k]] == evs[..k + 1];
    assert [evs[k]][1..] == [];
  }

  /** The state before a later event m is the events from k to m run from the
      state before k. */
  lemma StateBeforeLater(a: Arena, w: World, evs: seq<Event>, k: nat, m: nat)
    requires k <= m <= |evs|
    ensures StateBefore(a, w, evs, m) == Run(a, StateBefore(a, w, evs, k), evs[k..m])
  {
    RunConcat(a, w, evs[..k], evs[k..m]);
    assert evs[..k] + evs[k..m] == evs[..m];
  }

  // ------------------------------------------------------------ game over

  /** Once the game is over, frames and movement or fire presses change nothing;
      only the restart key (and releases of keys) do. */
  lemma StoppedIgnoresIntents(a: Arena, w: World, ev: Event)
    requires !w.running
    requires ev.Frame? || (ev.KeyDown? && ev.intent != Restart)
    ensures Apply(a, w, ev) == w
  {
  }

  /** The restart key in a stopped game gives a fresh, running board but keeps
      the difficulty, both timestamps and the keys. */
  lemma RestartKeepsDifficulty(a: Arena, w: World)
    requires !w.running
    ensures var w' := Apply(a, w, KeyDown(Restart));
            w'.running && w'.score == 0 && w'.bullets == [] && w'.enemies == [] &&
            w'.playerY == CentredY(a) &&
            w'.nextEnemyInMs == w.nextEnemyInMs && w'.enemyMaxSpeed == w.enemyMaxSpeed &&
            w'.lastSpawn == w.lastSpawn && w'.lastShot == w.lastShot && w'.keys == w.keys
  {
  }
}
