/** The sword (sword.py): a growth level bought with coins, and an idle/swinging state
    machine for the blade angle. */
module Swords {
  import opened Settings
  import opened Geometry
  import opened Projectiles

  const BaseDamage := 5
  const DamagePerLevel := 2
  const BaseBladeHeight := 150
  const SwingFrames := 20
  const SwingBackSpeed := 7

  /** The state fields of a Sword: growth, and the swing machine. `attacking` is
      `is_attacking`, which the constructor leaves unset and is read as false here. */
  datatype SwordState = SwordState(level: int, damage: int, bladeHeight: int,
                                   active: bool, attacking: bool, direction: int,
                                   frame: int, angle: int, startAngle: int, endAngle: int)

  /** A sword just built: level 0, damage 5, a 150-pixel blade, idle at angle 0. */
  const InitialSword := SwordState(0, BaseDamage, BaseBladeHeight, false, false, 0, 0, 0, 0, 0)

  /** Damage and blade height are the ones the level calls for. */
  predicate Consistent(s: SwordState) {
    s.damage == BaseDamage + DamagePerLevel * s.level
    && s.bladeHeight == BaseBladeHeight + BladePixelsPerLevel * s.level
  }

  // ---------------------------------------------------------------- growth

  /** try_grow_by_coins: the level a coin total buys is total // 5; only a higher level
      than the current one is taken, and then damage and blade follow it. */
  function Grow(s: SwordState, totalCoins: int): (r: SwordState)
    ensures r.level == Max(s.level, totalCoins / CoinsForSwordLevelUp)
    ensures r.level != s.level ==> (r.damage == BaseDamage + DamagePerLevel * r.level
                                    && r.bladeHeight == BaseBladeHeight + BladePixelsPerLevel * r.level)
    ensures r.level == s.level ==> r == s
    ensures r == s.(level := r.level, damage := r.damage, bladeHeight := r.bladeHeight)
    ensures Consistent(s) ==> Consistent(r)
  {
    var newLevel := totalCoins / CoinsForSwordLevelUp;
    if newLevel > s.level then
      s.(level := newLevel, damage := BaseDamage + DamagePerLevel * newLevel,
         bladeHeight := BaseBladeHeight + BladePixelsPerLevel * newLevel)
    else s
  }

  /** Growing twice with the same total is growing once, and a larger total never buys a
      lower level. */
  lemma GrowIdempotentAndMonotone(s: SwordState, c: int, d: int)
    ensures Grow(Grow(s, c), c) == Grow(s, c)
    ensures c <= d ==> Grow(s, c).level <= Grow(s, d).level
    ensures Grow(Grow(s, c), d).level == Grow(s, Max(c, d)).level
  {
    assert c <= d ==> c / CoinsForSwordLevelUp <= d / CoinsForSwordLevelUp;
  }

  // ---------------------------------------------------------------- swinging

  /** The swing table: direction 1 swings 225 -> 45, anything else 315 -> 135. */
  function StartAngle(direction: int): int { if direction == 1 then 225 else 315 }
  function EndAngle(direction: int): int { if direction == 1 then 45 else 135 }

  /** start_swing: ignored while a swing is under way; otherwise arms the swing at frame 0
      with the table's angles and the blade at the start angle. */
  function BeginSwing(s: SwordState, direction: int): (r: SwordState)
    ensures s.active ==> r == s
    ensures !s.active ==> r.active && r.attacking && r.direction == direction && r.frame == 0
    ensures !s.active ==> (r.startAngle == StartAngle(direction) && r.endAngle == EndAngle(direction)
                           && r.angle == r.startAngle)
    ensures r.level == s.level && r.damage == s.damage && r.bladeHeight == s.bladeHeight
  {
    if s.active then s
    else
      s.(active := true, attacking := true, direction := direction, frame := 0,
         startAngle := StartAngle(direction), endAngle := EndAngle(direction),
         angle := StartAngle(direction))
  }

  /** The resting angle for the way the player faces. */
  function Target(facingRight: bool): int { if facingRight then 0 else 180 }

  /** A difference of angles brought into [-180, 180] by one turn either way. */
  function Normalise(diff: int): int {
    if diff > 180 then diff - 360 else if diff < -180 then diff + 360 else diff
  }

  function Abs(n: int): nat { if n < 0 then -n else n }

  /** How far, the short way round, the blade is from its resting angle. */
  function Gap(angle: int, facingRight: bool): nat {
    Abs(Normalise(Target(facingRight) - angle % 360))
  }

  /** The state part of update. Swinging: the frame advances and the angle is the linear
      interpolation from start to end; at the 20th frame the swing is over and the blade
      rests at the end angle. Idle: the angle is reduced mod 360 and moved 7 degrees the
      short way towards the resting angle, or put on it once within 7 degrees. */
  function Tick(s: SwordState, facingRight: bool): (r: SwordState)
    ensures r == s.(active := r.active, attacking := r.attacking, frame := r.frame, angle := r.angle)
    ensures s.active ==> r.frame == s.frame + 1 && (r.active <==> s.frame + 1 < SwingFrames)
    ensures s.active && r.active ==> r.attacking == s.attacking
    ensures s.active && !r.active ==> !r.attacking && r.angle == s.endAngle
    ensures !s.active ==> !r.active && !r.attacking && r.frame == s.frame
    ensures !s.active ==> 0 <= r.angle < 360
  {
    if s.active then
      var f := s.frame + 1;
      if f >= SwingFrames then s.(frame := f, active := false, attacking := false, angle := s.endAngle)
      else s.(frame := f, angle := s.startAngle + (s.endAngle - s.startAngle) * f / SwingFrames)
    else
      var a := s.angle % 360;
      var t := Target(facingRight) % 360;
      var d := Normalise(t - a);
      var next := if Abs(d) > SwingBackSpeed then (if d > 0 then a + SwingBackSpeed else a - SwingBackSpeed) else t;
      s.(angle := next, attacking := false)
  }

  /** The swing state the source keeps: `is_attacking` mirrors `swing_active`, and a
      swing in progress is on a frame before the 20th with the blade on its line. */
  predicate SwingInvariant(s: SwordState) {
    s.attacking == s.active
    && (s.active ==> 0 <= s.frame < SwingFrames
                     && s.startAngle == StartAngle(s.direction) && s.endAngle == EndAngle(s.direction)
                     && s.angle == s.startAngle + (s.endAngle - s.startAngle) * s.frame / SwingFrames)
  }

  /** Every operation keeps the swing invariant; the initial sword has it. */
  lemma SwingInvariantPreserved(s: SwordState, direction: int, facingRight: bool, coins: int)
    requires SwingInvariant(s)
    ensures SwingInvariant(BeginSwing(s, direction))
    ensures SwingInvariant(Tick(s, facingRight))
    ensures SwingInvariant(Grow(s, coins))
    ensures SwingInvariant(InitialSword) && Consistent(InitialSword)
  {
  }

  /** n updates with the player facing the same way. */
  function Ticks(s: SwordState, facingRight: bool, n: nat): SwordState
    decreases n
  {
    if n == 0 then s else Tick(Ticks(s, facingRight, n - 1), facingRight)
  }

  /** A swing from rest, k updates in: the blade has turned 9k degrees from the start
      angle while k < 20, and on the 20th update the swing is over at the end angle. */
  lemma {:induction false} SwingTrajectory(s: SwordState, direction: int, facingRight: bool, k: nat)
    requires !s.active && k <= SwingFrames
    ensures k < SwingFrames ==>
              Ticks(BeginSwing(s, direction), facingRight, k)
              == BeginSwing(s, direction).(frame := k, angle := StartAngle(direction) - 9 * k)
    ensures k == SwingFrames ==> var r := Ticks(BeginSwing(s, direction), facingRight, k);
              !r.active && !r.attacking && r.angle == EndAngle(direction) && r.frame == SwingFrames
    decreases k
  {
    if k > 0 {
      SwingTrajectory(s, direction, facingRight, k - 1);
      var b := BeginSwing(s, direction);
      var prev := Ticks(b, facingRight, k - 1);
      assert prev.active && prev.frame == k - 1;
      assert b.endAngle - b.startAngle == -180;
      if k < SwingFrames {
        assert (-180) * k == 20 * (-9 * k);
        assert Ticks(b, facingRight, k) == prev.(frame := k, angle := b.startAngle + (-180) * k / SwingFrames);
      }
    }
  }

  /** One idle update: within 7 degrees the blade lands on the resting angle; farther
      away the short-way gap shrinks by exactly 7. */
  lemma IdleStep(s: SwordState, facingRight: bool)
    requires !s.active
    ensures Gap(s.angle, facingRight) <= SwingBackSpeed ==> Tick(s, facingRight).angle == Target(facingRight)
    ensures Gap(s.angle, facingRight) > SwingBackSpeed ==>
              Gap(Tick(s, facingRight).angle, facingRight) == Gap(s.angle, facingRight) - SwingBackSpeed
  {
    var a := s.angle % 360;
    var t := Target(facingRight);
    var d := Normalise(t - a);
    var g := Gap(s.angle, facingRight);
    if g > SwingBackSpeed {
      var n := Tick(s, facingRight).angle;
      assert n == (if d > 0 then a + 7 else a - 7);
      assert 0 <= n < 360;
      assert n % 360 == n;
    }
  }

  /** An idle blade that is `Gap` degrees from rest lies on the resting angle after any n
      updates with 7n covering that gap: it never swings past. */
  lemma {:induction false} IdleSettles(s: SwordState, facingRight: bool, n: nat)
    requires !s.active && n >= 1 && SwingBackSpeed * n >= Gap(s.angle, facingRight)
    ensures !Ticks(s, facingRight, n).active
    ensures Ticks(s, facingRight, n).angle == Target(facingRight)
    decreases n
  {
    IdleStep(s, facingRight);
    TicksFirst(s, facingRight, n);
    var next := Tick(s, facingRight);
    if n > 1 {
      if Gap(s.angle, facingRight) <= SwingBackSpeed {
        assert next.angle == Target(facingRight);
        AtRest(facingRight);
      }
      IdleSettles(next, facingRight, n - 1);
    }
  }

  /** The resting angle is no distance from rest. */
  lemma AtRest(facingRight: bool)
    ensures Gap(Target(facingRight), facingRight) == 0
  {
    assert Target(facingRight) % 360 == Target(facingRight);
  }

  /** n updates are one update followed by n - 1 more. */
  lemma {:induction false} TicksFirst(s: SwordState, facingRight: bool, n: nat)
    requires n >= 1
    ensures Ticks(s, facingRight, n) == Ticks(Tick(s, facingRight), facingRight, n - 1)
    decreases n
  {
    if n > 1 {
      TicksFirst(s, facingRight, n - 1);
    }
  }

  /** The gap is never more than half a turn, so 26 idle updates always bring the blade
      to rest. */
  lemma IdleSettlesWithin26(s: SwordState, facingRight: bool)
    requires !s.active
    ensures Ticks(s, facingRight, 26).angle == Target(facingRight)
  {
    IdleSettles(s, facingRight, 26);
  }

  // ---------------------------------------------------------------- repelling

  /** repel_projectile: the projectile turns round, speeds up by half, and carries the
      sword's current damage as the damage it deals from now on. */
  function Repel(s: SwordState, p: Projectile): (r: Projectile)
    ensures r.directionX == -p.directionX && r.directionY == -p.directionY
    ensures r.speed == p.speed * 1.5
    ensures r.repelled && r.repellerDamage == s.damage
    ensures r.rect == p.rect && r.damage == p.damage && r.isActive == p.isActive
  {
    p.(directionX := -p.directionX, directionY := -p.directionY, speed := p.speed * 1.5,
       repelled := true, repellerDamage := s.damage)
  }

  // ---------------------------------------------------------------- the object

  class Sword {
    var currentGrowthLevel: int
    var currentDamage: int
    var bladeHeight: int
    var swingActive: bool
    var isAttacking: bool
    var swingDirection: int
    var currentSwingFrame: int
    var swingAngle: int
    var swingStartAngle: int
    var swingEndAngle: int

    function State(): SwordState
      reads this
    {
      SwordState(currentGrowthLevel, currentDamage, bladeHeight, swingActive, isAttacking,
                 swingDirection, currentSwingFrame, swingAngle, swingStartAngle, swingEndAngle)
    }

    ghost predicate Valid()
      reads this
    {
      SwingInvariant(State())
    }

    constructor()
      ensures State() == InitialSword && Valid()
    {
      currentGrowthLevel, currentDamage, bladeHeight := 0, BaseDamage, BaseBladeHeight;
      swingActive, isAttacking, swingDirection := false, false, 0;
      currentSwingFrame, swingAngle := 0, 0;
      swingStartAngle, swingEndAngle := 0, 0;
    }

    method TryGrowByCoins(totalCoins: int)
      modifies this
      ensures State() == Grow(old(State()), totalCoins)
      ensures old(Valid()) ==> Valid()
    {
      var newLevel := totalCoins / CoinsForSwordLevelUp;
      if newLevel > currentGrowthLevel {
        currentGrowthLevel := newLevel;
        bladeHeight := BaseBladeHeight + BladePixelsPerLevel * currentGrowthLevel;
        currentDamage := BaseDamage + DamagePerLevel * currentGrowthLevel;
      }
    }

    method StartSwing(direction: int)
      modifies this
      ensures State() == BeginSwing(old(State()), direction)
      ensures old(Valid()) ==> Valid()
    {
      if !swingActive {
        swingActive := true;
        isAttacking := true;
        swingDirection := direction;
        currentSwingFrame := 0;
        if swingDirection == 1 {
          swingStartAngle, swingEndAngle := 225, 45;
        } else {
          swingStartAngle, swingEndAngle := 315, 135;
        }
        swingAngle := swingStartAngle;
      }
    }

    /** The state and angle part of update; placing the rotated blade is not modelled. */
    method Update(facingRight: bool)
      modifies this
      ensures State() == Tick(old(State()), facingRight)
      ensures old(Valid()) ==> Valid()
    {
      if swingActive {
        currentSwingFrame := currentSwingFrame + 1;
        swingAngle := swingStartAngle + (swingEndAngle - swingStartAngle) * currentSwingFrame / SwingFrames;
        if currentSwingFrame >= SwingFrames {
          swingActive := false;
          isAttacking := false;
          swingAngle := swingEndAngle;
        }
      } else {
        var target := Target(facingRight);
        swingAngle := swingAngle % 360;
        target := target % 360;
        var diff := target - swingAngle;
        if diff > 180 {
          diff := diff - 360;
        } else if diff < -180 {
          diff := diff + 360;
        }
        if Abs(diff) > SwingBackSpeed {
          if diff > 0 {
            swingAngle := swingAngle + SwingBackSpeed;
          } else {
            swingAngle := swingAngle - SwingBackSpeed;
          }
        } else {
          swingAngle := target;
        }
        isAttacking := false;
      }
    }

    /** get_damage. */
    function GetDamage(): (d: int)
      reads this
      ensures d == State().damage
    {
      currentDamage
    }

    /** repel_projectile, on the projectile's value: the facing flag the source takes is
        not used by it and is not a parameter here. */
    function RepelProjectile(p: Projectile): (r: Projectile)
      reads this
      ensures r == Repel(State(), p)
    {
      p.(directionX := -p.directionX, directionY := -p.directionY, speed := p.speed * 1.5,
         repelled := true, repellerDamage := GetDamage())
    }
  }
}
