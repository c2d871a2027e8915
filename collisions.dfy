/** The bullet-versus-enemy pass of a tick, as a function of the lists it walks. */
module Collisions {
  import opened Entities

  datatype Option<T> = None | Some(value: T)

  /** The enemy the inner loop stops at for bullet b: it walks es from the last
      index down and breaks at the first enemy the bullet hits. */
  function LastHit(b: Bullet, es: seq<Enemy>): (r: Option<nat>)
    ensures r.Some? ==> r.value < |es| && BulletHitsEnemy(b, es[r.value])
    ensures r.Some? ==> forall k :: r.value < k < |es| ==> !BulletHitsEnemy(b, es[k])
    ensures r.None? <==> forall k :: 0 <= k < |es| ==> !BulletHitsEnemy(b, es[k])
  {
    if |es| == 0 then None
    else if BulletHitsEnemy(b, es[|es| - 1]) then Some(|es| - 1)
    else LastHit(b, es[..|es| - 1])
  }

  /** One hit of the pass: the bullet and the enemy it destroyed. */
  datatype Kill = Kill(bullet: Bullet, enemy: Enemy)

  /** The surviving bullets, the surviving enemies and the hits, in the order
      the pass makes them. */
  datatype HitResult = HitResult(bullets: seq<Bullet>, enemies: seq<Enemy>, kills: seq<Kill>)

  /** es without its element at index j (splice(j, 1)). */
  function RemoveAt<T>(s: seq<T>, j: nat): (r: seq<T>)
    requires j < |s|
    ensures |r| == |s| - 1
    ensures multiset(r) + multiset{s[j]} == multiset(s)
    ensures forall k :: 0 <= k < |r| ==> r[k] == (if k < j then s[k] else s[k + 1])
  {
    assert s == s[..j] + [s[j]] + s[j + 1..];
    s[..j] + s[j + 1..]
  }

  /** The outer loop walks the bullets from the last index down; a bullet that
      hits an enemy removes that enemy (and only it) before the bullets in front
      of it are checked, and is itself removed. The bullets in front of the last
      one are therefore resolved against the enemies the last one left. */
  function Resolve(bs: seq<Bullet>, es: seq<Enemy>): HitResult
    decreases |bs|
  {
    if |bs| == 0 then HitResult([], es, [])
    else
      var b := bs[|bs| - 1];
      var front := bs[..|bs| - 1];
      match LastHit(b, es)
      case None =>
        var r := Resolve(front, es);
        HitResult(r.bullets + [b], r.enemies, r.kills)
      case Some(j) =>
        var r := Resolve(front, RemoveAt(es, j));
        HitResult(r.bullets, r.enemies, r.kills + [Kill(b, es[j])])
  }

  /** Bullet b overlaps none of the enemies es. */
  predicate HitsNone(b: Bullet, es: seq<Enemy>)
  {
    forall e :: e in es ==> !BulletHitsEnemy(b, e)
  }

  /** Enemy e is overlapped by none of the bullets bs. */
  predicate HitByNone(bs: seq<Bullet>, e: Enemy)
  {
    forall b :: b in bs ==> !BulletHitsEnemy(b, e)
  }

  /** Exact accounting of the pass: each hit removes one bullet and one enemy,
      so both lists shrink by the number of hits; nothing is added, nothing is
      removed twice, and no surviving bullet overlaps a surviving enemy. */
  lemma {:induction false} ResolveAccounting(bs: seq<Bullet>, es: seq<Enemy>)
    ensures var r := Resolve(bs, es);
            |r.bullets| + |r.kills| == |bs| && |r.enemies| + |r.kills| == |es| &&
            multiset(r.bullets) <= multiset(bs) && multiset(r.enemies) <= multiset(es) &&
            (forall b, e :: b in r.bullets && e in r.enemies ==> !BulletHitsEnemy(b, e))
    decreases |bs|
  {
    if |bs| > 0 {
      var b := bs[|bs| - 1];
      var front := bs[..|bs| - 1];
      assert bs == front + [b];
      match LastHit(b, es)
      case None =>
        ResolveAccounting(front, es);
        var r := Resolve(front, es);
        assert forall e :: e in r.enemies ==> e in multiset(es);
      case Some(j) =>
        ResolveAccounting(front, RemoveAt(es, j));
    }
  }

  /** Only overlaps remove anything: a bullet that overlaps no enemy and an
      enemy that no bullet overlaps both survive the pass, every copy of them. */
  lemma {:induction false} ResolveSurvivors(bs: seq<Bullet>, es: seq<Enemy>)
    ensures var r := Resolve(bs, es);
            (forall b :: HitsNone(b, es) ==> multiset(r.bullets)[b] == multiset(bs)[b]) &&
            (forall e :: HitByNone(bs, e) ==> multiset(r.enemies)[e] == multiset(es)[e])
    decreases |bs|
  {
    if |bs| > 0 {
      var b := bs[|bs| - 1];
      var front := bs[..|bs| - 1];
      assert bs == front + [b];
      FrontHitByNone(front, b, es);
      if LastHit(b, es).None? {
        ResolveSurvivors(front, es);
      } else {
        var j := LastHit(b, es).value;
        ResolveSurvivors(front, RemoveAt(es, j));
        RemovedHitsNone(b, es, j);
      }
    }
  }

  /** An enemy no bullet of front + [b] overlaps is overlapped by none of front,
      and is not the one b hits. */
  lemma FrontHitByNone(front: seq<Bullet>, b: Bullet, es: seq<Enemy>)
    ensures forall e :: HitByNone(front + [b], e) ==> HitByNone(front, e) && !BulletHitsEnemy(b, e)
  {
    assert forall c :: c in front ==> c in front + [b];
    assert b in front + [b];
  }

  /** A bullet overlapping none of es overlaps none of es with one removed,
      and differs from any bullet that overlaps es[j]. */
  lemma RemovedHitsNone(b: Bullet, es: seq<Enemy>, j: nat)
    requires j < |es|
    ensures forall c :: HitsNone(c, es) ==> HitsNone(c, RemoveAt(es, j)) && (BulletHitsEnemy(b, es[j]) ==> c != b)
  {
    assert forall e :: e in RemoveAt(es, j) ==> e in multiset(es);
    assert es[j] in es;
  }

  function KilledBullets(ps: seq<Kill>): seq<Bullet>
  {
    if ps == [] then [] else KilledBullets(ps[..|ps| - 1]) + [ps[|ps| - 1].bullet]
  }

  function KilledEnemies(ps: seq<Kill>): seq<Enemy>
  {
    if ps == [] then [] else KilledEnemies(ps[..|ps| - 1]) + [ps[|ps| - 1].enemy]
  }

  /** The hits ps account for the change from bs and es to bs' and es': each
      pair is a bullet whose box meets its enemy's hitbox, and the bullets
      removed and the enemies removed are exactly the ones the pairs name, so
      each removed bullet accounts for one removed enemy and the other way round. */
  predicate PairedBy(bs: seq<Bullet>, es: seq<Enemy>, bs': seq<Bullet>, es': seq<Enemy>, ps: seq<Kill>)
  {
    (forall i :: 0 <= i < |ps| ==> BulletHitsEnemy(ps[i].bullet, ps[i].enemy)) &&
    multiset(bs') + multiset(KilledBullets(ps)) == multiset(bs) &&
    multiset(es') + multiset(KilledEnemies(ps)) == multiset(es)
  }

  /** The hits the pass records pair its removed bullets with its removed enemies. */
  lemma {:induction false} ResolvePairs(bs: seq<Bullet>, es: seq<Enemy>)
    ensures var r := Resolve(bs, es);
            PairedBy(bs, es, r.bullets, r.enemies, r.kills)
    decreases |bs|
  {
    if |bs| > 0 {
      var b := bs[|bs| - 1];
      var front := bs[..|bs| - 1];
      assert bs == front + [b];
      match LastHit(b, es)
      case None =>
        ResolvePairs(front, es);
        var r := Resolve(front, es);
        PairedKeep(front, b, es, r.bullets, r.enemies, r.kills);
      case Some(j) =>
        ResolvePairs(front, RemoveAt(es, j));
        var r := Resolve(front, RemoveAt(es, j));
        PairedKill(front, b, es, j, r.bullets, r.enemies, r.kills);
    }
  }

  /** A bullet kept by the pass is on both sides of the accounting. */
  lemma PairedKeep(front: seq<Bullet>, b: Bullet, es: seq<Enemy>, bs': seq<Bullet>, es': seq<Enemy>, ps: seq<Kill>)
    requires PairedBy(front, es, bs', es', ps)
    ensures PairedBy(front + [b], es, bs' + [b], es', ps)
  {
  }

  /** A bullet that destroys es[j] extends the pairing by one hit. */
  lemma PairedKill(front: seq<Bullet>, b: Bullet, es: seq<Enemy>, j: nat, bs': seq<Bullet>, es': seq<Enemy>, ps: seq<Kill>)
    requires j < |es| && BulletHitsEnemy(b, es[j])
    requires PairedBy(front, RemoveAt(es, j), bs', es', ps)
    ensures PairedBy(front + [b], es, bs', es', ps + [Kill(b, es[j])])
  {
    var k := Kill(b, es[j]);
    KilledAppend(ps, k);
    assert multiset(front + [b]) == multiset(front) + multiset{b};
    assert multiset(RemoveAt(es, j)) + multiset{es[j]} == multiset(es);
    forall i | 0 <= i < |ps + [k]|
      ensures BulletHitsEnemy((ps + [k])[i].bullet, (ps + [k])[i].enemy)
    {
      if i < |ps| { assert (ps + [k])[i] == ps[i]; }
    }
  }

  /** Recording one more hit adds its bullet and its enemy to the killed lists. */
  lemma KilledAppend(ps: seq<Kill>, k: Kill)
    ensures multiset(KilledBullets(ps + [k])) == multiset(KilledBullets(ps)) + multiset{k.bullet}
    ensures multiset(KilledEnemies(ps + [k])) == multiset(KilledEnemies(ps)) + multiset{k.enemy}
  {
    assert (ps + [k])[..|ps|] == ps;
  }

  /** Resolving front + [b]: the last bullet b first, then the bullets in front
      of it against what b left (a proof step for the loop invariant below). */
  lemma ResolveLast(front: seq<Bullet>, b: Bullet, es: seq<Enemy>)
    ensures LastHit(b, es).None? ==>
              var r := Resolve(front, es);
              Resolve(front + [b], es) == HitResult(r.bullets + [b], r.enemies, r.kills)
    ensures LastHit(b, es).Some? ==>
              var r := Resolve(front, RemoveAt(es, LastHit(b, es).value));
              Resolve(front + [b], es) == HitResult(r.bullets, r.enemies, r.kills + [Kill(b, es[LastHit(b, es).value])])
  {
    assert (front + [b])[..|front|] == front;
  }

  /** The loop invariant of the hit pass: the bullets still to visit (todo),
      resolved against the current enemies, followed by the bullets already
      kept (kept), give the whole pass; `gained` hits have been scored. */
  ghost predicate ResolvedSoFar(total: HitResult, todo: seq<Bullet>, kept: seq<Bullet>, es: seq<Enemy>, gained: int)
  {
    var r := Resolve(todo, es);
    total.bullets == r.bullets + kept && total.enemies == r.enemies && |total.kills| == |r.kills| + gained
  }

  /** Visiting bullet b that hits nothing keeps it. */
  lemma ResolvedMiss(total: HitResult, front: seq<Bullet>, b: Bullet, kept: seq<Bullet>, es: seq<Enemy>, gained: int)
    requires ResolvedSoFar(total, front + [b], kept, es, gained)
    requires forall k :: 0 <= k < |es| ==> !BulletHitsEnemy(b, es[k])
    ensures ResolvedSoFar(total, front, [b] + kept, es, gained)
  {
    ResolveLast(front, b, es);
    assert Resolve(front, es).bullets + [b] + kept == Resolve(front, es).bullets + ([b] + kept);
  }

  /** Visiting bullet b whose scan stops at enemy j removes both and scores one. */
  lemma ResolvedHit(total: HitResult, front: seq<Bullet>, b: Bullet, kept: seq<Bullet>, es: seq<Enemy>, gained: int)
    requires ResolvedSoFar(total, front + [b], kept, es, gained)
    requires LastHit(b, es).Some?
    ensures ResolvedSoFar(total, front, kept, RemoveAt(es, LastHit(b, es).value), gained + 1)
  {
    ResolveLast(front, b, es);
  }

  /** The hit pass before its first visit: every bullet still to visit, none kept. */
  lemma ResolvedStart(bs: seq<Bullet>, es: seq<Enemy>)
    ensures ResolvedSoFar(Resolve(bs, es), bs[..|bs|], bs[|bs|..], es, 0)
  {
    assert bs[..|bs|] == bs && bs[|bs|..] == [];
    assert Resolve(bs, es).bullets + [] == Resolve(bs, es).bullets;
  }

  /** One visit of the outer loop, at index i of the current bullets bs: the scan
      either finds nothing (all unchanged) or splices out bullet i and the enemy
      it stopped at and scores one; either way bs'[..i] is left to visit. */
  lemma ResolvedVisit(total: HitResult, bs: seq<Bullet>, i: nat, es: seq<Enemy>, gained: int,
                      bs': seq<Bullet>, es': seq<Enemy>, gained': int)
    requires i < |bs|
    requires ResolvedSoFar(total, bs[..i + 1], bs[i + 1..], es, gained)
    requires LastHit(bs[i], es).None? ==> bs' == bs && es' == es && gained' == gained
    requires LastHit(bs[i], es).Some? ==>
               bs' == RemoveAt(bs, i) && es' == RemoveAt(es, LastHit(bs[i], es).value) && gained' == gained + 1
    ensures i <= |bs'| && ResolvedSoFar(total, bs'[..i], bs'[i..], es', gained')
  {
    var front, b, rest := bs[..i], bs[i], bs[i + 1..];
    assert bs[..i + 1] == front + [b];
    if LastHit(b, es).Some? {
      ResolvedHit(total, front, b, rest, es, gained);
      assert bs'[..i] == front && bs'[i..] == rest;
    } else {
      ResolvedMiss(total, front, b, rest, es, gained);
      assert bs'[..i] == front && bs'[i..] == [b] + rest;
    }
  }

  /** The hit pass after its last visit: what was kept is the whole result. */
  lemma ResolvedEnd(total: HitResult, bs: seq<Bullet>, es: seq<Enemy>, gained: int)
    requires ResolvedSoFar(total, bs[..0], bs[0..], es, gained)
    ensures total.bullets == bs && total.enemies == es && |total.kills| == gained
  {
    assert bs[..0] == [] && bs[0..] == bs;
  }

  /** One bullet whose box overlaps two enemies destroys exactly one of them:
      the one with the higher index, which the backward scan meets first. */
  lemma OneBulletOneKill(b: Bullet, e1: Enemy, e2: Enemy)
    requires BulletHitsEnemy(b, e1) && BulletHitsEnemy(b, e2)
    ensures Resolve([b], [e1, e2]) == HitResult([], [e1], [Kill(b, e2)])
  {
    assert [b][..0] == [];
    assert RemoveAt([e1, e2], 1) == [e1];
  }
}
