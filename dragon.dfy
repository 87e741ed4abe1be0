/** The Dragon (dragon.py): a flying Monster that chases the player inside a detection
    range, fires cooldown-gated fireballs, and otherwise patrols 200 pixels either side of
    its start. Also the per-kind dispatch of update, to_dict and restore. */
module Dragons {
  import opened Geometry
  import opened Dicts
  import opened Settings
  import opened Projectiles
  import opened Monsters

  const DragonWidth := 250
  const DragonHeight := 200
  const DragonSpeed := 3
  const DragonHealth := 100
  const DragonDamage := 15
  const PatrolRange := 200
  /** Ranges are compared on squared distances: hypot(dx, dy) <= r exactly when
      dx*dx + dy*dy <= r*r. */
  const DetectionRange := 400
  const FireballAttackRange := 500
  const FireballCooldownMs := 1500
  const FireballSpeed := 7.0

  /** The state Dragon.__init__ leaves before its closing from_dict: a 250x200 dragon at
      (x, y), patrolling from x, last fired at `now`, with no fireballs and no gravity. */
  function Settle(m: Monster, x: int, y: int, now: int): (r: Monster)
    ensures r.rect == Rect(x, y, DragonWidth, DragonHeight) && r.patrolStartX == x
    ensures r.kind == Dragon(false, now, []) && r.velocityY == 0.0 && r.gravity == 0.0
    ensures r.coinsOnDefeat == CoinsPerDragonKill
  {
    m.(rect := Rect(x, y, DragonWidth, DragonHeight), coinsOnDefeat := CoinsPerDragonKill,
       patrolStartX := x, kind := Dragon(false, now, []), velocityY := 0.0, gravity := 0.0)
  }

  /** Dragon.from_dict: Monster.from_dict (with its update tail), then the last fireball
      time from the record, or `now` when the key is missing. */
  function DragonFromDict(m: Monster, d: MonsterRecord, now: int): (r: Monster)
    requires m.kind.Dragon?
    ensures r.kind == m.kind.(lastFireballTime := d.lastFireballTime.GetOr(now))
    ensures r == Monsters.FromDict(m, d).(kind := r.kind)
  {
    var b := Monsters.FromDict(m, d);
    b.(kind := m.kind.(lastFireballTime := d.lastFireballTime.GetOr(now)))
  }

  /** Dragon(x, y, initial_data=d) at time `now`. Monster.__init__ runs first, and its own
      `from_dict` call already dispatches to Dragon.from_dict on the 90x90 monster rect with
      gravity 0.8; the Dragon constructor then resets size, position, patrol start, timer
      and physics, and applies the record a second time. */
  function NewDragon(x: int, y: int, d: MonsterRecord, now: int): (m: Monster)
    ensures m.kind.Dragon? && !m.kind.imageIsOriginal && m.kind.projectiles == []
    ensures m.rect.w == DragonWidth && m.rect.h == DragonHeight && m.gravity == 0.0
    ensures m.coinsOnDefeat == CoinsPerDragonKill && LimitsFromStart(m)
    ensures d.IsEmpty() ==> m == Settle(Construct(x, y, DragonSpeed, DragonHealth, DragonDamage), x, y, now)
    ensures !d.IsEmpty() ==> m.kind.lastFireballTime == d.lastFireballTime.GetOr(now)
  {
    // Monster.__init__; Dragon-only attributes do not exist yet at this point, and every
    // one of them is overwritten below, so any placeholder will do.
    var base := Construct(x, y, DragonSpeed, DragonHealth, DragonDamage).(kind := Dragon(false, now, []));
    var first := if d.IsEmpty() then base else DragonFromDict(base, d, now);
    var settled := Settle(first, x, y, now);
    if d.IsEmpty() then settled else DragonFromDict(settled, d, now)
  }

  function Sign(n: int): int { if n > 0 then 1 else if n < 0 then -1 else 0 }

  /** _shoot_fireball: from a third of the width ahead of the centre on the mouth side
      (floor division, so -width // 3 on the flipped side) and a quarter of the height below
      the top, aimed at the target, at speed 7, dealing the dragon's damage. */
  function Fireball(r: Rect, imageIsOriginal: bool, targetX: int, targetY: int, damage: int): (p: Projectile)
    ensures p.rect.CenterX() == r.CenterX() + (if imageIsOriginal then r.w / 3 else (-r.w) / 3)
    ensures p.rect.CenterY() == r.y + r.h / 4
    ensures p.isActive && !p.repelled && p.repellerDamage == 0 && p.speed == FireballSpeed && p.damage == damage
    ensures var dx, dy := targetX - p.rect.CenterX(), targetY - p.rect.CenterY();
            p.directionX * Hypot(dx, dy) == dx as real && p.directionY * Hypot(dx, dy) == dy as real
  {
    var fireX := r.CenterX() + (if imageIsOriginal then r.w / 3 else (-r.w) / 3);
    var fireY := r.y + r.h / 4;
    NewProjectile(fireX, fireY, targetX, targetY, FireballSpeed, damage)
  }

  /** Whether the dragon at this state and time would fire at the player. The fireball
      range (500) is never the binding one: firing needs the player within the detection
      range (400). */
  function Fires(m: Monster, player: Rect, now: int): (b: bool)
    requires m.kind.Dragon?
    ensures var dx := player.CenterX() - m.rect.CenterX();
            var dy := player.CenterY() - m.rect.CenterY();
            b <==> m.isAlive && dx * dx + dy * dy <= DetectionRange * DetectionRange
                   && now - m.kind.lastFireballTime > FireballCooldownMs
  {
    var dx := player.CenterX() - m.rect.CenterX();
    var dy := player.CenterY() - m.rect.CenterY();
    var d2 := dx * dx + dy * dy;
    m.isAlive && d2 <= DetectionRange * DetectionRange && d2 <= FireballAttackRange * FireballAttackRange
    && now - m.kind.lastFireballTime > FireballCooldownMs
  }

  /** Dragon.update(player_rect) at time `now`. A dead dragon only advances its fireballs.
      A live one turns its image towards the player; inside the detection range it steps
      towards the player's centre and, inside the attack range and off cooldown, fires;
      outside it patrols and turns at patrol start +-200. x is then clamped to the screen
      and every fireball, including one just fired, is advanced. y never changes. */
  function DragonUpdate(m: Monster, player: Rect, now: int): (r: Monster)
    requires m.kind.Dragon?
    ensures r.kind.Dragon?
    ensures r.rect.y == m.rect.y && r.rect.w == m.rect.w && r.rect.h == m.rect.h
    ensures !m.isAlive ==> r == m.(kind := m.kind.(projectiles := UpdateAll(m.kind.projectiles)))
    ensures m.isAlive ==> r == m.(rect := r.rect, direction := r.direction, kind := r.kind)
    ensures m.isAlive && m.rect.w <= ScreenWidth ==> 0 <= r.rect.x <= ScreenWidth - r.rect.w
    ensures r.kind.lastFireballTime == (if Fires(m, player, now) then now else m.kind.lastFireballTime)
    ensures |r.kind.projectiles| == |m.kind.projectiles| + (if Fires(m, player, now) then 1 else 0)
    ensures r.kind.projectiles[..|m.kind.projectiles|] == UpdateAll(m.kind.projectiles)
  {
    var k := m.kind;
    if !m.isAlive then m.(kind := k.(projectiles := UpdateAll(k.projectiles)))
    else
      var dx := player.CenterX() - m.rect.CenterX();
      var dy := player.CenterY() - m.rect.CenterY();
      var d2 := dx * dx + dy * dy;
      var facing := if dx > 0 then true else if dx < 0 then false else k.imageIsOriginal;
      if d2 <= DetectionRange * DetectionRange then
        var moved := m.rect.(x := m.rect.x + m.speed * Sign(dx));
        var fire := d2 <= FireballAttackRange * FireballAttackRange && now - k.lastFireballTime > FireballCooldownMs;
        var shots := if fire then [Fireball(moved, facing, player.CenterX(), player.CenterY(), m.damage)] else [];
        m.(rect := moved.(x := ClampX(moved.x, 0, ScreenWidth - moved.w)),
           kind := Dragon(facing, if fire then now else k.lastFireballTime, UpdateAll(k.projectiles + shots)))
      else
        var x := m.rect.x + m.speed * m.direction;
        var dir := if x <= m.patrolStartX - PatrolRange then 1
                   else if x >= m.patrolStartX + PatrolRange then -1
                   else m.direction;
        m.(rect := m.rect.(x := ClampX(x, 0, ScreenWidth - m.rect.w)), direction := dir,
           kind := k.(imageIsOriginal := facing, projectiles := UpdateAll(k.projectiles)))
  }

  /** Facing follows the sign of dx: right-facing for dx > 0, flipped for dx < 0, and
      unchanged when the player is straight above or below. */
  lemma FacingFollowsPlayer(m: Monster, player: Rect, now: int)
    requires m.kind.Dragon? && m.isAlive
    ensures var dx := player.CenterX() - m.rect.CenterX();
            DragonUpdate(m, player, now).kind.imageIsOriginal
              == (if dx > 0 then true else if dx < 0 then false else m.kind.imageIsOriginal)
  {
  }

  /** Inside the detection range the dragon steps `speed` towards the player's centre
      (not at all when dx is 0), keeps its patrol direction, and is clamped to the screen. */
  lemma ChaseStep(m: Monster, player: Rect, now: int)
    requires m.kind.Dragon? && m.isAlive
    requires var dx := player.CenterX() - m.rect.CenterX();
             var dy := player.CenterY() - m.rect.CenterY();
             dx * dx + dy * dy <= DetectionRange * DetectionRange
    ensures var dx := player.CenterX() - m.rect.CenterX();
            var r := DragonUpdate(m, player, now);
            r.rect.x == ClampX(m.rect.x + m.speed * Sign(dx), 0, ScreenWidth - m.rect.w)
            && r.direction == m.direction
  {
  }

  /** Outside the detection range the dragon never fires; it steps speed * direction and
      turns right at patrol start - 200 and left at patrol start + 200. */
  lemma PatrolStep(m: Monster, player: Rect, now: int)
    requires m.kind.Dragon? && m.isAlive
    requires var dx := player.CenterX() - m.rect.CenterX();
             var dy := player.CenterY() - m.rect.CenterY();
             dx * dx + dy * dy > DetectionRange * DetectionRange
    ensures var x := m.rect.x + m.speed * m.direction;
            var r := DragonUpdate(m, player, now);
            !Fires(m, player, now)
            && r.rect.x == ClampX(x, 0, ScreenWidth - m.rect.w)
            && r.direction == (if x <= m.patrolStartX - PatrolRange then 1
                               else if x >= m.patrolStartX + PatrolRange then -1
                               else m.direction)
  {
  }

  /** The fireball fired in a frame is the one _shoot_fireball builds from the rect after
      the chase step (before the clamp) and the facing just updated, advanced once. */
  lemma FiredFireball(m: Monster, player: Rect, now: int)
    requires m.kind.Dragon? && Fires(m, player, now)
    ensures var dx := player.CenterX() - m.rect.CenterX();
            var facing := if dx > 0 then true else if dx < 0 then false else m.kind.imageIsOriginal;
            var moved := m.rect.(x := m.rect.x + m.speed * Sign(dx));
            var r := DragonUpdate(m, player, now);
            r.kind.projectiles[|m.kind.projectiles|]
              == Projectiles.Update(Fireball(moved, facing, player.CenterX(), player.CenterY(), m.damage))
  {
  }

  /** With the dragon's size the fire origin sits 83 pixels right of centre when the image
      is the original, but 84 left of it when flipped, since -250 // 3 is -84. */
  lemma FireOriginIsAsymmetric(r: Rect, tx: int, ty: int, damage: int)
    requires r.w == DragonWidth && r.h == DragonHeight
    ensures Fireball(r, true, tx, ty, damage).rect.CenterX() == r.CenterX() + 83
    ensures Fireball(r, false, tx, ty, damage).rect.CenterX() == r.CenterX() - 84
    ensures Fireball(r, true, tx, ty, damage).rect.CenterY() == r.y + 50
  {
  }

  /** The cooldown allows at most one fireball per 1500 ms: after a shot at t1, no update at
      a time t2 with t2 - t1 <= 1500 fires again. */
  lemma OneShotPerCooldown(m: Monster, player1: Rect, player2: Rect, t1: int, t2: int)
    requires m.kind.Dragon? && Fires(m, player1, t1) && t2 - t1 <= FireballCooldownMs
    ensures !Fires(DragonUpdate(m, player1, t1), player2, t2)
  {
  }

  // ---------------------------------------------------------------- dispatch

  /** The call the environment makes on each monster: update(player_rect) on a Dragon,
      update() on any other monster. */
  function Step(m: Monster, player: Rect, now: int): (r: Monster)
    ensures m.kind.Dragon? ==> r == DragonUpdate(m, player, now)
    ensures m.kind.Plain? ==> r == Monsters.Update(m)
    ensures r.isAlive == m.isAlive && r.kind.Dragon? == m.kind.Dragon?
    ensures r.rect.w == m.rect.w && r.rect.h == m.rect.h && r.coinsOnDefeat == m.coinsOnDefeat
  {
    if m.kind.Dragon? then DragonUpdate(m, player, now) else Monsters.Update(m)
  }

  /** Dragon.to_dict: the Monster record with the "type" overridden to "Dragon" and the last
      fireball time added; fireballs are not saved. */
  function DragonToDict(m: Monster): (d: MonsterRecord)
    requires m.kind.Dragon?
    ensures !d.IsEmpty() && d.tag == Some("Dragon") && d.lastFireballTime == Some(m.kind.lastFireballTime)
    ensures d.x == Some(m.rect.x) && d.y == Some(m.rect.y) && d.health == Some(m.health)
    ensures d.isAlive == Some(m.isAlive) && d.speed == Some(m.speed) && d.damage == Some(m.damage)
    ensures d.direction == Some(m.direction) && d.patrolStartX == Some(m.patrolStartX)
  {
    Monsters.ToDict(m).(tag := Some("Dragon"), lastFireballTime := Some(m.kind.lastFireballTime))
  }

  /** monster.to_dict(), dispatched on the kind. */
  function Save(m: Monster): (d: MonsterRecord)
    ensures !d.IsEmpty()
    ensures d.tag == Some(if m.kind.Dragon? then "Dragon" else "Monster")
  {
    if m.kind.Dragon? then DragonToDict(m) else Monsters.ToDict(m)
  }

  /** The environment's restore of one monster record: type "Dragon" builds
      Dragon(0, 0, initial_data=d); any other type, or none, builds Monster(0, 0, ...). */
  function Load(d: MonsterRecord, now: int): (m: Monster)
    ensures m.kind.Dragon? <==> d.tag == Some("Dragon")
  {
    if d.tag.GetOr("Monster") == "Dragon" then NewDragon(0, 0, d, now) else Monsters.Restore(d)
  }

  /** What every dragon of the game has after construction and updates. */
  predicate WellFormedDragon(m: Monster) {
    m.kind.Dragon? && m.rect.w == DragonWidth && m.rect.h == DragonHeight
    && m.gravity == 0.0 && m.velocityY == 0.0 && m.coinsOnDefeat == CoinsPerDragonKill
    && LimitsFromStart(m)
  }

  /** Updates keep a dragon well formed. */
  lemma DragonStaysWellFormed(m: Monster, player: Rect, now: int)
    requires WellFormedDragon(m)
    ensures WellFormedDragon(Step(m, player, now))
  {
  }

  /** Saving and loading keeps the kind of every monster. */
  lemma SaveLoadKeepsKind(m: Monster, now: int)
    ensures Load(Save(m), now).kind.Dragon? == m.kind.Dragon?
  {
  }

  /** Saving and loading a dragon loses its fireballs, resets its image to the unflipped
      state, restores its last fireball time, and applies the stray Monster update tail
      (with the dragon's zero gravity): a live dragon comes back one patrol step further. */
  lemma {:induction false} DragonRoundTrip(m: Monster, now: int)
    requires WellFormedDragon(m)
    ensures Load(Save(m), now) == Monsters.Update(m.(kind := Dragon(false, m.kind.lastFireballTime, [])))
  {
    var d := Save(m);
    var base := Construct(0, 0, DragonSpeed, DragonHealth, DragonDamage).(kind := Dragon(false, now, []));
    var settled := Settle(DragonFromDict(base, d, now), 0, 0, now);
    var a := Assign(settled, d);
    assert a == m.(kind := Dragon(false, now, []));
    assert Fall(a.rect.(x := a.rect.x + a.speed * a.direction), 0.0, 0.0).1 == 0.0;
  }
}
