/** Projectiles (projectile.py): the dragon's fireballs, which the sword can turn back. */
module Projectiles {
  import opened Geometry

  /** Side of the bounding box of the 40x40 fireball image once pygame has rotated it to
      point along (dx, dy); rotation geometry is left abstract. */
  const RotatedFireballSide: (int, int) -> nat

  datatype Projectile = Projectile(rect: Rect, speed: real, damage: int, isActive: bool,
                                   directionX: real, directionY: real,
                                   repelled: bool, repellerDamage: int)

  /** Projectile(x, y, target, speed, damage): centred on (x, y), aimed at the target
      along the unit vector (dx, dy) / hypot(dx, dy), or standing still when the target is
      the origin itself. */
  function NewProjectile(x: int, y: int, targetX: int, targetY: int, speed: real, damage: int): (p: Projectile)
    ensures p.isActive && !p.repelled && p.repellerDamage == 0
    ensures p.speed == speed && p.damage == damage
    ensures p.rect.CenterX() == x && p.rect.CenterY() == y
    ensures (p.directionX == 0.0 && p.directionY == 0.0) <==> (targetX == x && targetY == y)
    ensures p.directionX * Hypot(targetX - x, targetY - y) == (targetX - x) as real
    ensures p.directionY * Hypot(targetX - x, targetY - y) == (targetY - y) as real
  {
    var dx := targetX - x;
    var dy := targetY - y;
    var distance := Hypot(dx, dy);
    var side := RotatedFireballSide(dx, dy);
    var dirX := if distance == 0.0 then 0.0 else dx as real / distance;
    var dirY := if distance == 0.0 then 0.0 else dy as real / distance;
    Projectile(Rect(x - side / 2, y - side / 2, side, side), speed, damage, true, dirX, dirY, false, 0)
  }

  /** update: an inactive projectile is left alone; an active one moves by direction times
      speed and is switched off once its rect no longer meets the playfield. */
  function Update(p: Projectile): (r: Projectile)
    ensures !p.isActive ==> r == p
    ensures p.isActive ==> r == p.(rect := r.rect, isActive := r.isActive)
    ensures p.isActive ==> r.rect == p.rect.(x := ToRectInt(p.rect.x as real + p.directionX * p.speed),
                                             y := ToRectInt(p.rect.y as real + p.directionY * p.speed))
    ensures p.isActive ==> (r.isActive <==> Overlaps(ScreenRect, r.rect))
    ensures r.isActive ==> p.isActive
  {
    if !p.isActive then p
    else
      var moved := p.rect.(x := ToRectInt(p.rect.x as real + p.directionX * p.speed),
                           y := ToRectInt(p.rect.y as real + p.directionY * p.speed));
      p.(rect := moved, isActive := Overlaps(ScreenRect, moved))
  }

  /** A dragon's fireball group update() (dragon.py:116): every projectile, in order. The
      coin group has its own update over coins. */
  function UpdateAll(ps: seq<Projectile>): (r: seq<Projectile>)
    ensures |r| == |ps| && forall i :: 0 <= i < |ps| ==> r[i] == Update(ps[i])
  {
    seq(|ps|, i requires 0 <= i < |ps| => Update(ps[i]))
  }

  /** n frames of update. */
  function UpdateTimes(p: Projectile, n: nat): Projectile
    decreases n
  {
    if n == 0 then p else UpdateTimes(Update(p), n - 1)
  }

  /** Nothing sets is_active back to true: an inactive projectile stays as it is, and one
      that is active after some frames was active all along. */
  lemma {:induction false} DeactivationIsFinal(p: Projectile, n: nat)
    ensures !p.isActive ==> UpdateTimes(p, n) == p
    ensures UpdateTimes(p, n).isActive ==> p.isActive
    ensures UpdateTimes(p, n).repelled == p.repelled && UpdateTimes(p, n).damage == p.damage
    decreases n
  {
    if n > 0 {
      DeactivationIsFinal(Update(p), n - 1);
    }
  }

  /** The projectiles of `ps` whose rect meets `r`, in order (spritecollide). */
  function Hits(r: Rect, ps: seq<Projectile>): (hs: seq<Projectile>)
    ensures |hs| <= |ps|
    ensures forall q :: q in hs <==> q in ps && Overlaps(r, q.rect)
    decreases |ps|
  {
    if ps == [] then []
    else if Overlaps(r, ps[|ps| - 1].rect) then Hits(r, ps[..|ps| - 1]) + [ps[|ps| - 1]]
    else Hits(r, ps[..|ps| - 1])
  }

  /** What spritecollide with dokill=True leaves in the group: the projectiles that do not
      meet `r`, in order. */
  function Misses(r: Rect, ps: seq<Projectile>): (ms: seq<Projectile>)
    ensures |ms| <= |ps|
    ensures forall q :: q in ms <==> q in ps && !Overlaps(r, q.rect)
    decreases |ps|
  {
    if ps == [] then []
    else if Overlaps(r, ps[|ps| - 1].rect) then Misses(r, ps[..|ps| - 1])
    else Misses(r, ps[..|ps| - 1]) + [ps[|ps| - 1]]
  }

  /** The hit and kept parts together account for every projectile. */
  lemma {:induction false} HitsAndMissesPartition(r: Rect, ps: seq<Projectile>)
    ensures |Hits(r, ps)| + |Misses(r, ps)| == |ps|
    ensures multiset(Hits(r, ps)) + multiset(Misses(r, ps)) == multiset(ps)
    decreases |ps|
  {
    if ps != [] {
      HitsAndMissesPartition(r, ps[..|ps| - 1]);
      assert ps == ps[..|ps| - 1] + [ps[|ps| - 1]];
    }
  }
}
