/** Monsters (monster.py): walkers that patrol 100 pixels either side of their spawn
    point under gravity. The Dragon keeps the same record with its own fields in `kind`. */
module Monsters {
  import opened Geometry
  import opened Dicts
  import opened Settings
  import opened Projectiles

  const MonsterWidth := 90
  const MonsterHeight := 90
  const DefaultSpeed := 2
  const DefaultHealth := 20
  const DefaultDamage := 5
  const MonsterGravity := 0.8
  /** The walk limits lie this far either side of the patrol start. */
  const WalkRange := 100

  /** What a Dragon adds to a Monster: whether its image is the unflipped original (the
      mouth side of the fire origin), the time of its last fireball, and its fireballs. */
  datatype Kind = Plain | Dragon(imageIsOriginal: bool, lastFireballTime: int, projectiles: seq<Projectile>)

  datatype Monster = Monster(rect: Rect, speed: int, health: int, damage: int, coinsOnDefeat: int,
                             isAlive: bool, velocityY: real, gravity: real, direction: int,
                             patrolStartX: int, walkLimitLeft: int, walkLimitRight: int, kind: Kind)

  /** Monster.__init__ before any saved data is applied: a live 90x90 monster walking right,
      with walk limits 100 pixels either side of x. */
  function Construct(x: int, y: int, speed: int, health: int, damage: int): (m: Monster)
    ensures m.isAlive && m.direction == 1 && m.rect == Rect(x, y, MonsterWidth, MonsterHeight)
    ensures m.walkLimitLeft == x - WalkRange && m.walkLimitRight == x + WalkRange
    ensures m.speed == speed && m.health == health && m.damage == damage
    ensures m.coinsOnDefeat == CoinsPerMonsterKill && m.gravity == MonsterGravity && m.velocityY == 0.0
    ensures m.patrolStartX == x && m.kind == Plain && LimitsFromStart(m)
  {
    Monster(Rect(x, y, MonsterWidth, MonsterHeight), speed, health, damage, CoinsPerMonsterKill,
            true, 0.0, MonsterGravity, 1, x, x - WalkRange, x + WalkRange, Plain)
  }

  /** Monster(x, y) with the default speed 2, health 20 and damage 5. */
  function NewMonster(x: int, y: int): (m: Monster)
    ensures m.speed == DefaultSpeed && m.health == DefaultHealth && m.damage == DefaultDamage
    ensures m.isAlive && m.rect == Rect(x, y, MonsterWidth, MonsterHeight) && m.patrolStartX == x
    ensures PatrolConfined(m)
  {
    Construct(x, y, DefaultSpeed, DefaultHealth, DefaultDamage)
  }

  /** The walk limits are where the constructor and from_dict put them. */
  predicate LimitsFromStart(m: Monster) {
    m.walkLimitLeft == m.patrolStartX - WalkRange && m.walkLimitRight == m.patrolStartX + WalkRange
  }

  /** take_damage: a dead monster ignores the hit and pays nothing; otherwise health drops
      by the damage, and the monster dies, paying its coins, exactly when health reaches 0
      or below. */
  function TakeDamage(m: Monster, damage: int): (r: (Monster, int))
    ensures !m.isAlive ==> r == (m, 0)
    ensures m.isAlive ==> r.0 == m.(health := m.health - damage, isAlive := r.0.isAlive)
    ensures m.isAlive ==> (!r.0.isAlive <==> r.0.health <= 0)
    ensures r.1 == (if m.isAlive && !r.0.isAlive then m.coinsOnDefeat else 0)
    ensures r.0.isAlive ==> m.isAlive
    ensures r.0.rect == m.rect && r.0.kind == m.kind
  {
    if !m.isAlive then (m, 0)
    else
      var h := m.health - damage;
      if h <= 0 then (m.(health := h, isAlive := false), m.coinsOnDefeat)
      else (m.(health := h), 0)
  }

  /** The direction after a patrol move to x: turn left at the right limit while walking
      right, turn right at the left limit while walking left. */
  function Turn(m: Monster, x: int): (d: int)
    ensures d != m.direction ==> (m.direction == 1 && x >= m.walkLimitRight && d == -1)
                                 || (m.direction == -1 && x <= m.walkLimitLeft && d == 1)
    ensures m.direction == 1 && x >= m.walkLimitRight ==> d == -1
    ensures m.direction == -1 && x <= m.walkLimitLeft ==> d == 1
  {
    if m.direction == 1 && x >= m.walkLimitRight then -1
    else if m.direction == -1 && x <= m.walkLimitLeft then 1
    else m.direction
  }

  /** Monster.update: a dead monster does nothing; a live one steps speed * direction,
      turns at its walk limits, and falls one frame under its own gravity onto the ground. */
  function Update(m: Monster): (r: Monster)
    ensures !m.isAlive ==> r == m
    ensures m.isAlive ==> r == m.(rect := r.rect, direction := r.direction, velocityY := r.velocityY)
    ensures m.isAlive ==> r.rect.x == m.rect.x + m.speed * m.direction
    ensures m.isAlive ==> r.direction == Turn(m, r.rect.x)
    ensures m.isAlive ==> var f := Fall(m.rect, m.velocityY, m.gravity);
                          r.rect.y == f.0.y && r.velocityY == f.1
    ensures m.isAlive ==> r.rect.Bottom() <= GroundLevel
    ensures r.rect.w == m.rect.w && r.rect.h == m.rect.h
    ensures r.isAlive == m.isAlive
  {
    if !m.isAlive then m
    else
      var x := m.rect.x + m.speed * m.direction;
      var (r1, v1, _) := Fall(m.rect.(x := x), m.velocityY, m.gravity);
      m.(rect := r1, direction := Turn(m, x), velocityY := v1)
  }

  /** The patrol bounce keeps a monster within one step of its walk limits: walking right
      it is left of the right limit, walking left it is right of the left limit. */
  predicate PatrolConfined(m: Monster) {
    LimitsFromStart(m) && m.speed >= 0
    && (m.direction == 1 || m.direction == -1)
    && (m.direction == 1 ==> m.walkLimitLeft - m.speed <= m.rect.x < m.walkLimitRight)
    && (m.direction == -1 ==> m.walkLimitLeft < m.rect.x <= m.walkLimitRight + m.speed)
  }

  /** A fresh monster is confined, every update keeps it so, and so it never walks more
      than 100 + speed pixels from its patrol start. */
  lemma PatrolStaysConfined(m: Monster, x: int, y: int, speed: nat, health: int, damage: int)
    ensures PatrolConfined(Construct(x, y, speed, health, damage))
    ensures PatrolConfined(m) ==> PatrolConfined(Update(m))
    ensures PatrolConfined(m) ==>
      m.patrolStartX - WalkRange - m.speed <= m.rect.x <= m.patrolStartX + WalkRange + m.speed
  {
  }

  /** A live monster standing on the ground at rest stays there. */
  lemma RestingMonsterStays(m: Monster)
    requires m.isAlive && m.rect.Bottom() == GroundLevel && m.velocityY == 0.0 && m.gravity >= 0.0
    ensures Update(m).rect.y == m.rect.y && Update(m).velocityY == 0.0
  {
  }

  /** The saved form of a monster; `tag` is the "type" key, `lastFireballTime` the key only
      a Dragon writes. A None field is a missing key. */
  datatype MonsterRecord = MonsterRecord(x: Option<int>, y: Option<int>, health: Option<int>,
                                         isAlive: Option<bool>, speed: Option<int>, damage: Option<int>,
                                         direction: Option<int>, patrolStartX: Option<int>,
                                         tag: Option<string>, lastFireballTime: Option<int>) {
    predicate IsEmpty() {
      x.None? && y.None? && health.None? && isAlive.None? && speed.None? && damage.None?
      && direction.None? && patrolStartX.None? && tag.None? && lastFireballTime.None?
    }
  }

  /** Monster.to_dict: position, health, liveness, speed, damage, direction and patrol
      start, tagged "Monster". */
  function ToDict(m: Monster): (d: MonsterRecord)
    ensures !d.IsEmpty() && d.tag == Some("Monster") && d.lastFireballTime.None?
    ensures d.x == Some(m.rect.x) && d.y == Some(m.rect.y) && d.health == Some(m.health)
    ensures d.isAlive == Some(m.isAlive) && d.speed == Some(m.speed) && d.damage == Some(m.damage)
    ensures d.direction == Some(m.direction) && d.patrolStartX == Some(m.patrolStartX)
  {
    MonsterRecord(Some(m.rect.x), Some(m.rect.y), Some(m.health), Some(m.isAlive), Some(m.speed),
                  Some(m.damage), Some(m.direction), Some(m.patrolStartX), Some("Monster"), None)
  }

  /** The assignments of Monster.from_dict: present keys overwrite, missing keys keep, and
      the walk limits are recomputed from the (restored) patrol start. */
  function Assign(m: Monster, d: MonsterRecord): (r: Monster)
    ensures LimitsFromStart(r)
    ensures r == m.(rect := r.rect, health := r.health, isAlive := r.isAlive, speed := r.speed,
                    damage := r.damage, direction := r.direction, patrolStartX := r.patrolStartX,
                    walkLimitLeft := r.walkLimitLeft, walkLimitRight := r.walkLimitRight)
    ensures r.rect == m.rect.(x := d.x.GetOr(m.rect.x), y := d.y.GetOr(m.rect.y))
    ensures r.health == d.health.GetOr(m.health) && r.isAlive == d.isAlive.GetOr(m.isAlive)
    ensures r.speed == d.speed.GetOr(m.speed) && r.damage == d.damage.GetOr(m.damage)
    ensures r.direction == d.direction.GetOr(m.direction) && r.patrolStartX == d.patrolStartX.GetOr(m.patrolStartX)
  {
    var start := d.patrolStartX.GetOr(m.patrolStartX);
    m.(rect := m.rect.(x := d.x.GetOr(m.rect.x), y := d.y.GetOr(m.rect.y)),
       health := d.health.GetOr(m.health), isAlive := d.isAlive.GetOr(m.isAlive),
       speed := d.speed.GetOr(m.speed), damage := d.damage.GetOr(m.damage),
       direction := d.direction.GetOr(m.direction), patrolStartX := start,
       walkLimitLeft := start - WalkRange, walkLimitRight := start + WalkRange)
  }

  /** Monster.from_dict: the assignments, then the copy of the update body that follows
      them, so a live monster is advanced one patrol and gravity step on load. */
  function FromDict(m: Monster, d: MonsterRecord): (r: Monster)
    ensures !Assign(m, d).isAlive ==> r == Assign(m, d)
    ensures Assign(m, d).isAlive ==> r == Update(Assign(m, d))
  {
    var a := Assign(m, d);
    if !a.isAlive then a
    else
      var x := a.rect.x + a.speed * a.direction;
      var (r1, v1, _) := Fall(a.rect.(x := x), a.velocityY, a.gravity);
      a.(rect := r1, direction := Turn(a, x), velocityY := v1)
  }

  /** Monster(0, 0, initial_data=d), the way the environment rebuilds a saved monster. */
  function Restore(d: MonsterRecord): (m: Monster)
    ensures m.kind == Plain && m.rect.w == MonsterWidth && m.rect.h == MonsterHeight
    ensures LimitsFromStart(m) && m.gravity == MonsterGravity && m.coinsOnDefeat == CoinsPerMonsterKill
  {
    var m := NewMonster(0, 0);
    if d.IsEmpty() then m else FromDict(m, d)
  }

  /** What every plain monster of the game has: its size, gravity, reward and limits. */
  predicate WellFormed(m: Monster) {
    m.kind == Plain && m.rect.w == MonsterWidth && m.rect.h == MonsterHeight
    && m.gravity == MonsterGravity && m.coinsOnDefeat == CoinsPerMonsterKill && LimitsFromStart(m)
  }

  /** Saving and loading a monster does not give it back: its velocity is not saved, and a
      live monster comes back one update further on. Only a dead monster at rest returns
      exactly. */
  lemma RoundTrip(m: Monster)
    requires WellFormed(m)
    ensures Restore(ToDict(m)) == Update(m.(velocityY := 0.0))
    ensures !m.isAlive && m.velocityY == 0.0 ==> Restore(ToDict(m)) == m
  {
  }

  /** A live monster really does move on load: with speed 2 walking right and far from its
      limits, the restored x is 2 more than the saved one. */
  lemma LoadMovesLiveMonster()
    ensures var m := NewMonster(300, 400);
            Restore(ToDict(m)).rect.x == 302 && Restore(ToDict(m)) != m
  {
  }

  /** Keys missing from the record leave the current values (before the update tail). */
  lemma MissingKeysKeep(m: Monster, d: MonsterRecord)
    ensures d.x.None? ==> Assign(m, d).rect.x == m.rect.x
    ensures d.y.None? ==> Assign(m, d).rect.y == m.rect.y
    ensures d.health.None? ==> Assign(m, d).health == m.health
    ensures d.isAlive.None? ==> Assign(m, d).isAlive == m.isAlive
    ensures d.speed.None? ==> Assign(m, d).speed == m.speed
    ensures d.damage.None? ==> Assign(m, d).damage == m.damage
    ensures d.direction.None? ==> Assign(m, d).direction == m.direction
    ensures d.patrolStartX.None? ==> Assign(m, d).patrolStartX == m.patrolStartX
  {
  }
}
