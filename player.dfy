/** The player (player.py): key flags, walking with a screen clamp, gravity with ground and
    platform collisions, health, coins and the sword they grow, and the saved form. */
module Players {
  import opened Geometry
  import opened Dicts
  import opened Settings
  import opened Swords
  import opened Platforms

  const PlayerWidth := 80
  const PlayerHeight := 110
  const PlayerGravity := 0.8
  const JumpPower := -15.0

  /** The keys the game reacts to, and the events it sees. */
  datatype Key = Left | Right | Space | Escape | KeyC | KeyX | KeyS | OtherKey
  datatype Event = KeyDown(key: Key) | KeyUp(key: Key) | OtherEvent

  /** The state of a Player, with its sword's state. `swingByMovement` is
      swing_initiated_by_movement. Speed, gravity and jump power never change and are
      constants. */
  datatype PlayerState = PlayerState(rect: Rect, health: int, coins: int, velocityY: real,
                                     isJumping: bool, movingLeft: bool, movingRight: bool,
                                     facingRight: bool, swingByMovement: bool, sword: SwordState)

  /** Player(x, y) without saved data: an 80x110 player at (x, y), facing right, with full
      health, no coins and a new sword. */
  function NewPlayer(x: int, y: int): (p: PlayerState)
    ensures p.rect == Rect(x, y, PlayerWidth, PlayerHeight) && p.health == PlayerHealth && p.coins == 0
    ensures p.facingRight && !p.movingLeft && !p.movingRight && !p.swingByMovement
    ensures p.velocityY == 0.0 && !p.isJumping && p.sword == InitialSword
  {
    PlayerState(Rect(x, y, PlayerWidth, PlayerHeight), PlayerHealth, 0, 0.0, false, false, false,
                true, false, InitialSword)
  }

  // ---------------------------------------------------------------- input

  /** handle_input. An arrow KEYDOWN sets its movement flag and the facing, and starts a
      swing that way only when no swing is running and the held-key guard is clear, setting
      the guard; the arrow's KEYUP clears its flag and the guard. SPACE jumps only from
      rest: not jumping and vertical velocity exactly 0. */
  function Input(p: PlayerState, e: Event): (r: PlayerState)
    ensures r.rect == p.rect && r.health == p.health && r.coins == p.coins
    ensures r.sword.level == p.sword.level && r.sword.damage == p.sword.damage && r.sword.bladeHeight == p.sword.bladeHeight
    ensures r.sword != p.sword ==>
              (e == KeyDown(Left) || e == KeyDown(Right)) && !p.sword.active && !p.swingByMovement
              && r.swingByMovement && r.sword == BeginSwing(p.sword, if e.key == Right then 1 else -1)
    ensures (e == KeyDown(Left) || e == KeyDown(Right)) && !p.sword.active && !p.swingByMovement ==>
              r.sword.active && r.swingByMovement
    ensures p.swingByMovement && e.KeyDown? ==> r.sword == p.sword
    ensures e == KeyDown(Left) ==> r.movingLeft && !r.facingRight
    ensures e == KeyDown(Right) ==> r.movingRight && r.facingRight
    ensures e == KeyUp(Left) ==> !r.movingLeft && !r.swingByMovement
    ensures e == KeyUp(Right) ==> !r.movingRight && !r.swingByMovement
    ensures r.velocityY != p.velocityY || r.isJumping != p.isJumping <==>
              e == KeyDown(Space) && !p.isJumping && p.velocityY == 0.0
    ensures e == KeyDown(Space) && !p.isJumping && p.velocityY == 0.0 ==> r.velocityY == JumpPower && r.isJumping
    ensures e == KeyDown(Left) || e == KeyDown(Right) ==> r.swingByMovement == (p.swingByMovement || !p.sword.active)
    ensures e == KeyDown(Left) ==> r == p.(movingLeft := true, facingRight := false, sword := r.sword, swingByMovement := r.swingByMovement)
    ensures e == KeyDown(Right) ==> r == p.(movingRight := true, facingRight := true, sword := r.sword, swingByMovement := r.swingByMovement)
    ensures e == KeyDown(Space) ==> r == p.(velocityY := r.velocityY, isJumping := r.isJumping)
    ensures e == KeyUp(Left) ==> r == p.(movingLeft := false, swingByMovement := false)
    ensures e == KeyUp(Right) ==> r == p.(movingRight := false, swingByMovement := false)
    ensures e.KeyDown? && e.key != Left && e.key != Right && e.key != Space ==> r == p
    ensures e.KeyUp? && e.key != Left && e.key != Right ==> r == p
    ensures !e.KeyDown? && !e.KeyUp? ==> r == p
  {
    match e
    case KeyDown(Left) =>
      var q := p.(movingLeft := true, facingRight := false);
      if !q.sword.active && !q.swingByMovement then q.(sword := BeginSwing(q.sword, -1), swingByMovement := true)
      else q
    case KeyDown(Right) =>
      var q := p.(movingRight := true, facingRight := true);
      if !q.sword.active && !q.swingByMovement then q.(sword := BeginSwing(q.sword, 1), swingByMovement := true)
      else q
    case KeyDown(Space) =>
      if !p.isJumping && p.velocityY == 0.0 then p.(velocityY := JumpPower, isJumping := true) else p
    case KeyUp(Left) => p.(movingLeft := false, swingByMovement := false)
    case KeyUp(Right) => p.(movingRight := false, swingByMovement := false)
    case _ => p
  }

  /** Holding an arrow down starts one swing: a second KEYDOWN of either arrow before a
      KEYUP starts none, even once the first swing is over. */
  lemma HeldKeyStartsOneSwing(p: PlayerState, k: Key, k2: Key, f: bool)
    requires k == Left || k == Right
    requires !p.sword.active && !p.swingByMovement
    ensures var q := Input(p, KeyDown(k));
            q.sword.active && Input(q.(sword := Tick(q.sword, f)), KeyDown(k2)).sword == Tick(q.sword, f)
  {
  }

  // ---------------------------------------------------------------- update

  /** The horizontal step: -speed or +speed when exactly one of the flags is set, else 0. */
  function Drift(p: PlayerState): int {
    if p.movingLeft && !p.movingRight then -PlayerSpeed
    else if p.movingRight && !p.movingLeft then PlayerSpeed
    else 0
  }

  /** spritecollide(player, platforms): the rects of the platforms the player's rect
      overlaps, in group order. */
  function Collided(r: Rect, ps: seq<Platform>): (cs: seq<Rect>)
    ensures |cs| <= |ps|
    ensures forall c :: c in cs ==> Overlaps(r, c)
    ensures forall i :: 0 <= i < |ps| && Overlaps(r, ps[i].rect) ==> ps[i].rect in cs
    decreases |ps|
  {
    if ps == [] then []
    else
      var rest := Collided(r, ps[..|ps| - 1]);
      var last := ps[|ps| - 1].rect;
      if Overlaps(r, last) then rest + [last] else rest
  }

  /** The positions, in increasing order, of the platforms r overlaps. */
  function OverlapIndices(r: Rect, ps: seq<Platform>): (idx: seq<nat>)
    ensures forall k :: 0 <= k < |idx| ==> idx[k] < |ps|
    decreases |ps|
  {
    if ps == [] then []
    else OverlapIndices(r, ps[..|ps| - 1]) + if Overlaps(r, ps[|ps| - 1].rect) then [|ps| - 1] else []
  }

  /** The overlap positions are strictly increasing and name exactly the overlapping
      platforms. */
  lemma {:induction false} OverlapIndicesExact(r: Rect, ps: seq<Platform>)
    ensures forall k, l :: 0 <= k < l < |OverlapIndices(r, ps)| ==> OverlapIndices(r, ps)[k] < OverlapIndices(r, ps)[l]
    ensures forall i :: 0 <= i < |ps| ==> (i in OverlapIndices(r, ps) <==> Overlaps(r, ps[i].rect))
    decreases |ps|
  {
    if ps != [] {
      var n := |ps| - 1;
      var init := ps[..n];
      OverlapIndicesExact(r, init);
      var idx0, idx := OverlapIndices(r, init), OverlapIndices(r, ps);
      assert idx == idx0 + if Overlaps(r, ps[n].rect) then [n] else [];
      forall k, l | 0 <= k < l < |idx| ensures idx[k] < idx[l] {
        if l == |idx0| {
          assert idx[k] == idx0[k] < n == idx[l];
        } else {
          assert idx[k] == idx0[k] < idx0[l] == idx[l];
        }
      }
      forall i | 0 <= i < |ps| ensures i in idx <==> Overlaps(r, ps[i].rect) {
        if i < n {
          assert ps[i] == init[i];
          assert i in idx <==> i in idx0;
        } else {
          assert n !in idx0;
        }
      }
    }
  }

  /** The collided rects are the platforms' own, taken in group order: the k-th is the
      rect of the k-th overlapping platform, and a platform is among them exactly when it
      overlaps r. */
  lemma {:induction false} CollidedInOrder(r: Rect, ps: seq<Platform>)
    ensures |Collided(r, ps)| == |OverlapIndices(r, ps)|
    ensures forall k :: 0 <= k < |OverlapIndices(r, ps)| ==> Collided(r, ps)[k] == ps[OverlapIndices(r, ps)[k]].rect
    ensures forall k, l :: 0 <= k < l < |OverlapIndices(r, ps)| ==> OverlapIndices(r, ps)[k] < OverlapIndices(r, ps)[l]
    ensures forall i :: 0 <= i < |ps| ==> (i in OverlapIndices(r, ps) <==> Overlaps(r, ps[i].rect))
    decreases |ps|
  {
    OverlapIndicesExact(r, ps);
    if ps != [] {
      var n := |ps| - 1;
      var init := ps[..n];
      CollidedInOrder(r, init);
      var idx0, c0 := OverlapIndices(r, init), Collided(r, init);
      var idx, c := OverlapIndices(r, ps), Collided(r, ps);
      var hit := Overlaps(r, ps[n].rect);
      assert idx == idx0 + if hit then [n] else [];
      assert c == c0 + if hit then [ps[n].rect] else [];
      forall k | 0 <= k < |idx| ensures c[k] == ps[idx[k]].rect {
        if k < |idx0| {
          assert c[k] == c0[k] && idx[k] == idx0[k] && ps[idx0[k]] == init[idx0[k]];
        }
      }
    }
  }

  /** The position of the first rect, in order, that satisfies P: a for loop with break. */
  function FirstWhere(cs: seq<Rect>, P: Rect -> bool): (k: Option<nat>)
    ensures k.Some? ==> k.value < |cs| && P(cs[k.value]) && forall j :: 0 <= j < k.value ==> !P(cs[j])
    ensures k.None? ==> forall j :: 0 <= j < |cs| ==> !P(cs[j])
    decreases |cs|
  {
    if cs == [] then None
    else if P(cs[0]) then Some(0)
    else match FirstWhere(cs[1..], P)
      case None => None
      case Some(k) => Some(k + 1)
  }

  /** A falling player lands on a platform whose top lies between where its bottom was
      before this frame's fall and where it is now. */
  predicate LandsOn(r: Rect, v: real, platform: Rect) {
    r.Bottom() as real - v <= platform.y as real && r.Bottom() >= platform.y
  }

  function AbsReal(v: real): real { if v < 0.0 then -v else v }

  /** A rising player bumps its head on a platform whose bottom lies between where its top
      was before this frame's rise and where it is now. */
  predicate BumpsInto(r: Rect, v: real, platform: Rect) {
    r.y as real >= platform.Bottom() as real - AbsReal(v) && r.y <= platform.Bottom()
  }

  function Landing(r: Rect, v: real, cs: seq<Rect>): Option<nat> { FirstWhere(cs, c => LandsOn(r, v, c)) }
  function Bump(r: Rect, v: real, cs: seq<Rect>): Option<nat> { FirstWhere(cs, c => BumpsInto(r, v, c)) }

  /** The platform checks of update for a player at rect r with velocity v after this
      frame's fall, among the platform rects cs it overlaps: while falling it lands on the
      first platform it came down onto, which ends a jump; while rising it bumps its head on
      the first it came up into. Either collision stops it; otherwise nothing changes. */
  function Collide(r: Rect, v: real, jumping: bool, cs: seq<Rect>): (res: (Rect, real, bool))
    ensures res.0 == r.(y := res.0.y)
    ensures v > 0.0 && Landing(r, v, cs).Some? ==>
              res.0.Bottom() == cs[Landing(r, v, cs).value].y && res.1 == 0.0 && !res.2
    ensures v < 0.0 && Bump(r, v, cs).Some? ==>
              res.0.y == cs[Bump(r, v, cs).value].Bottom() && res.1 == 0.0 && res.2 == jumping
    ensures !(v > 0.0 && Landing(r, v, cs).Some?) && !(v < 0.0 && Bump(r, v, cs).Some?) ==>
              res == (r, v, jumping)
  {
    if v > 0.0 && Landing(r, v, cs).Some? then (r.(y := cs[Landing(r, v, cs).value].y - r.h), 0.0, false)
    else if v < 0.0 && Bump(r, v, cs).Some? then (r.(y := cs[Bump(r, v, cs).value].Bottom()), 0.0, jumping)
    else (r, v, jumping)
  }

  /** update(platforms), without placing the blade. The player steps by Drift, is clamped
      to the screen, falls one frame (the ground clamp at GroundLevel ends a jump), and then
      meets the platforms it overlaps as Collide says. Then the sword updates for the way
      the player faces. */
  function Advance(p: PlayerState, platforms: seq<Platform>): (r: PlayerState)
    ensures r == p.(rect := r.rect, velocityY := r.velocityY, isJumping := r.isJumping, sword := r.sword)
    ensures r.sword == Tick(p.sword, p.facingRight)
    ensures r.rect.x == ClampX(p.rect.x + Drift(p), 0, ScreenWidth - p.rect.w)
    ensures var f := Fall(p.rect.(x := r.rect.x), p.velocityY, PlayerGravity);
            (r.rect, r.velocityY, r.isJumping) == Collide(f.0, f.1, p.isJumping && !f.2, Collided(f.0, platforms))
  {
    var x := ClampX(p.rect.x + Drift(p), 0, ScreenWidth - p.rect.w);
    var (r1, v1, grounded) := Fall(p.rect.(x := x), p.velocityY, PlayerGravity);
    var (r2, v2, j2) := Collide(r1, v1, p.isJumping && !grounded, Collided(r1, platforms));
    p.(rect := r2, velocityY := v2, isJumping := j2, sword := Tick(p.sword, p.facingRight))
  }

  /** After an update the player is on screen horizontally, and an arrow pair held down
      together (or none) leaves an on-screen player where it was horizontally. */
  lemma StaysOnScreen(p: PlayerState, platforms: seq<Platform>)
    requires p.rect.w <= ScreenWidth
    ensures 0 <= Advance(p, platforms).rect.x <= ScreenWidth - p.rect.w
    ensures p.movingLeft == p.movingRight && 0 <= p.rect.x <= ScreenWidth - p.rect.w ==>
              Advance(p, platforms).rect.x == p.rect.x
  {
  }

  /** Vertical velocity after an update is either free fall (0.8 more than before) or 0. */
  lemma VelocityAfterUpdate(p: PlayerState, platforms: seq<Platform>)
    ensures Advance(p, platforms).velocityY == p.velocityY + PlayerGravity || Advance(p, platforms).velocityY == 0.0
  {
  }

  /** A player standing on the ground at rest, with no arrow held, stays exactly where it
      is (the sword aside). */
  lemma StandingStill(p: PlayerState, platforms: seq<Platform>)
    requires p.rect.Bottom() == GroundLevel && p.velocityY == 0.0 && !p.movingLeft && !p.movingRight
    requires 0 <= p.rect.x <= ScreenWidth - p.rect.w
    ensures Advance(p, platforms).rect == p.rect && Advance(p, platforms).velocityY == 0.0
    ensures !Advance(p, platforms).isJumping
  {
  }

  // ---------------------------------------------------------------- coins and health

  /** collect_coin: the coins go up by the amount, and the sword grows for the new total. */
  function Collect(p: PlayerState, amount: int): (r: PlayerState)
    ensures r == p.(coins := r.coins, sword := r.sword)
    ensures r.coins == p.coins + amount
    ensures r.sword.level == Max(p.sword.level, r.coins / CoinsForSwordLevelUp)
    ensures r.sword.level != p.sword.level ==> r.sword.damage == BaseDamage + DamagePerLevel * r.sword.level
    ensures r.sword.level == p.sword.level ==> r.sword == p.sword
    ensures Consistent(p.sword) ==> Consistent(r.sword)
  {
    var coins := p.coins + amount;
    p.(coins := coins, sword := Grow(p.sword, coins))
  }

  /** The sword level is the one the coin total buys, with damage and blade to match. */
  predicate LevelMatchesCoins(p: PlayerState) {
    p.sword.level == p.coins / CoinsForSwordLevelUp && Consistent(p.sword)
  }

  /** Collecting coins one pickup after another, in order. */
  function CollectAll(p: PlayerState, amounts: seq<int>): (r: PlayerState)
    ensures r == p.(coins := p.coins + Sum(amounts), sword := r.sword)
    decreases |amounts|
  {
    if amounts == [] then p else Collect(CollectAll(p, amounts[..|amounts| - 1]), amounts[|amounts| - 1])
  }

  function Sum(s: seq<int>): int
    decreases |s|
  {
    if s == [] then 0 else Sum(s[..|s| - 1]) + s[|s| - 1]
  }

  /** From a player whose sword matches its coins, whatever non-negative amounts are picked
      up, the sword level is always coins // 5 and its damage 5 + 2 * level, and nothing but
      the coins and the sword changes. */
  lemma {:induction false} LevelFollowsCoins(p: PlayerState, amounts: seq<int>)
    requires LevelMatchesCoins(p)
    requires forall i :: 0 <= i < |amounts| ==> amounts[i] >= 0
    ensures LevelMatchesCoins(CollectAll(p, amounts))
    ensures CollectAll(p, amounts).coins == p.coins + Sum(amounts)
    ensures CollectAll(p, amounts).sword.damage == BaseDamage + DamagePerLevel * ((p.coins + Sum(amounts)) / CoinsForSwordLevelUp)
    decreases |amounts|
  {
    if amounts != [] {
      var init := amounts[..|amounts| - 1];
      LevelFollowsCoins(p, init);
      var q := CollectAll(p, init);
      var a := amounts[|amounts| - 1];
      assert q.coins / CoinsForSwordLevelUp <= (q.coins + a) / CoinsForSwordLevelUp;
    }
  }

  /** A new player has the level its coins buy. */
  lemma NewPlayerMatches(x: int, y: int)
    ensures LevelMatchesCoins(NewPlayer(x, y))
  {
  }

  /** take_damage: health drops by the amount and is floored at 0. */
  function Damaged(p: PlayerState, amount: int): (r: PlayerState)
    ensures r == p.(health := r.health)
    ensures r.health >= 0
    ensures p.health - amount >= 0 ==> r.health == p.health - amount
    ensures p.health - amount < 0 ==> r.health == 0
  {
    var h := p.health - amount;
    p.(health := if h < 0 then 0 else h)
  }

  /** Damage accumulates until the floor: two hits are one hit of their sum. */
  lemma DamageAccumulates(p: PlayerState, a: nat, b: nat)
    requires p.health >= 0
    ensures Damaged(Damaged(p, a), b) == Damaged(p, a + b)
  {
  }

  // ---------------------------------------------------------------- saved form

  datatype PlayerRecord = PlayerRecord(x: Option<int>, y: Option<int>, health: Option<int>,
                                       coins: Option<int>, facingRight: Option<bool>,
                                       swordLevel: Option<int>, swordDamage: Option<int>) {
    predicate IsEmpty() {
      x.None? && y.None? && health.None? && coins.None? && facingRight.None?
      && swordLevel.None? && swordDamage.None?
    }
  }

  /** to_dict. */
  function Record(p: PlayerState): (d: PlayerRecord)
    ensures !d.IsEmpty()
    ensures d.x == Some(p.rect.x) && d.y == Some(p.rect.y)
    ensures d.health == Some(p.health) && d.coins == Some(p.coins) && d.facingRight == Some(p.facingRight)
    ensures d.swordLevel == Some(p.sword.level) && d.swordDamage == Some(p.sword.damage)
  {
    PlayerRecord(Some(p.rect.x), Some(p.rect.y), Some(p.health), Some(p.coins), Some(p.facingRight),
                 Some(p.sword.level), Some(p.sword.damage))
  }

  /** from_dict: position, health, coins and facing from the record where present; sword
      level and damage from the record or 0 and 5 (not the current ones) when missing; then
      the sword grows for the restored coins. The blade height is not restored. */
  function Restored(p: PlayerState, d: PlayerRecord): (r: PlayerState)
    ensures r.rect == p.rect.(x := d.x.GetOr(p.rect.x), y := d.y.GetOr(p.rect.y))
    ensures r.health == d.health.GetOr(p.health) && r.coins == d.coins.GetOr(p.coins)
    ensures r.facingRight == d.facingRight.GetOr(p.facingRight)
    ensures r.sword == Grow(p.sword.(level := d.swordLevel.GetOr(0), damage := d.swordDamage.GetOr(BaseDamage)), r.coins)
    ensures r == p.(rect := r.rect, health := r.health, coins := r.coins, facingRight := r.facingRight, sword := r.sword)
  {
    var coins := d.coins.GetOr(p.coins);
    var sword := p.sword.(level := d.swordLevel.GetOr(0), damage := d.swordDamage.GetOr(BaseDamage));
    p.(rect := p.rect.(x := d.x.GetOr(p.rect.x), y := d.y.GetOr(p.rect.y)),
       health := d.health.GetOr(p.health), coins := coins,
       facingRight := d.facingRight.GetOr(p.facingRight), sword := Grow(sword, coins))
  }

  /** Player(x, y, initial_data=d). */
  function Construct(x: int, y: int, d: PlayerRecord): (p: PlayerState)
    ensures d.IsEmpty() ==> p == NewPlayer(x, y)
    ensures !d.IsEmpty() ==> p == Restored(NewPlayer(x, y), d)
  {
    if d.IsEmpty() then NewPlayer(x, y) else Restored(NewPlayer(x, y), d)
  }

  /** Saving and restoring over any player gives back position, health, coins and facing.
      The sword's level and damage come back when the saved level is at least what the
      coins buy (always, in play); otherwise the sword regrows to the coins' level. The
      blade keeps the height of the player restored into. */
  lemma RoundTrip(p: PlayerState, q: PlayerState)
    ensures var r := Restored(q, Record(p));
            r.rect.x == p.rect.x && r.rect.y == p.rect.y && r.health == p.health
            && r.coins == p.coins && r.facingRight == p.facingRight
    ensures var r := Restored(q, Record(p));
            p.sword.level >= p.coins / CoinsForSwordLevelUp ==>
              r.sword.level == p.sword.level && r.sword.damage == p.sword.damage
              && r.sword.bladeHeight == q.sword.bladeHeight
    ensures var r := Restored(q, Record(p));
            p.sword.level < p.coins / CoinsForSwordLevelUp ==>
              r.sword.level == p.coins / CoinsForSwordLevelUp
              && r.sword.damage == BaseDamage + DamagePerLevel * r.sword.level
  {
  }

  /** Through the load path the blade always comes back at the base height: a player whose
      sword has grown to level 1 or more reloads with the level and damage but a 150-pixel
      blade. */
  lemma LoadedBladeIsBase(p: PlayerState)
    requires LevelMatchesCoins(p)
    ensures Construct(0, 0, Record(p)).sword.level == p.sword.level
    ensures Construct(0, 0, Record(p)).sword.bladeHeight == BaseBladeHeight
    ensures p.sword.level > 0 ==> Construct(0, 0, Record(p)).sword.bladeHeight != p.sword.bladeHeight
  {
  }

  // ---------------------------------------------------------------- the object

  class Player {
    var rect: Rect
    var health: int
    var coins: int
    const sword: Sword
    var velocityY: real
    var isJumping: bool
    var movingLeft: bool
    var movingRight: bool
    var facingRight: bool
    var swingInitiatedByMovement: bool

    function State(): PlayerState
      reads this, sword
    {
      PlayerState(rect, health, coins, velocityY, isJumping, movingLeft, movingRight,
                  facingRight, swingInitiatedByMovement, sword.State())
    }

    ghost predicate Valid()
      reads this, sword
    {
      sword.Valid()
    }

    constructor(x: int, y: int, d: PlayerRecord)
      ensures State() == Construct(x, y, d) && Valid() && fresh(sword)
    {
      rect := Rect(x, y, PlayerWidth, PlayerHeight);
      health, coins := PlayerHealth, 0;
      sword := new Sword();
      velocityY, isJumping := 0.0, false;
      movingLeft, movingRight, facingRight := false, false, true;
      swingInitiatedByMovement := false;
      new;
      if !d.IsEmpty() {
        FromDict(d);
      }
    }

    method HandleInput(e: Event)
      requires Valid()
      modifies this, sword
      ensures State() == Input(old(State()), e) && Valid()
    {
      SwingInvariantPreserved(sword.State(), if e == KeyDown(Right) then 1 else -1, true, 0);
      match e
      case KeyDown(Left) =>
        movingLeft, facingRight := true, false;
        if !sword.swingActive && !swingInitiatedByMovement {
          sword.StartSwing(-1);
          swingInitiatedByMovement := true;
        }
      case KeyDown(Right) =>
        movingRight, facingRight := true, true;
        if !sword.swingActive && !swingInitiatedByMovement {
          sword.StartSwing(1);
          swingInitiatedByMovement := true;
        }
      case KeyDown(Space) =>
        if !isJumping && velocityY == 0.0 {
          velocityY, isJumping := JumpPower, true;
        }
      case KeyUp(Left) =>
        movingLeft, swingInitiatedByMovement := false, false;
      case KeyUp(Right) =>
        movingRight, swingInitiatedByMovement := false, false;
      case _ =>
    }

    /** update(platforms): walking, gravity, the platform loops, then the sword. */
    method Update(platforms: seq<Platform>)
      requires Valid()
      modifies this, sword
      ensures State() == Advance(old(State()), platforms) && Valid()
    {
      ghost var before := State();
      Walk();
      ghost var walked := rect;
      ApplyGravity();
      ghost var fallen, speed, jumping := rect, velocityY, isJumping;
      ResolvePlatforms(Collided(rect, platforms));
      ghost var f := Fall(walked, before.velocityY, PlayerGravity);
      assert f == (fallen, speed, f.2) && jumping == (before.isJumping && !f.2);
      assert (rect, velocityY, isJumping) == Collide(f.0, f.1, before.isJumping && !f.2, Collided(f.0, platforms));
      assert sword.State() == before.sword && facingRight == before.facingRight;
      SwingInvariantPreserved(sword.State(), 0, facingRight, 0);
      sword.Update(facingRight);
      ghost var next := Advance(before, platforms);
      assert walked == before.rect.(x := next.rect.x);
      assert (next.rect, next.velocityY, next.isJumping) == (rect, velocityY, isJumping);
      assert next.sword == sword.State();
    }

    /** The horizontal step and the screen clamp. */
    method Walk()
      modifies this
      ensures rect == old(rect).(x := ClampX(old(rect).x + Drift(old(State())), 0, ScreenWidth - old(rect).w))
      ensures velocityY == old(velocityY) && isJumping == old(isJumping)
      ensures movingLeft == old(movingLeft) && movingRight == old(movingRight) && facingRight == old(facingRight)
      ensures health == old(health) && coins == old(coins) && swingInitiatedByMovement == old(swingInitiatedByMovement)
    {
      if movingLeft && !movingRight {
        rect := rect.(x := rect.x - PlayerSpeed);
      } else if movingRight && !movingLeft {
        rect := rect.(x := rect.x + PlayerSpeed);
      }
      rect := rect.(x := Max(0, Min(rect.x, ScreenWidth - rect.w)));
    }

    /** Gravity and the ground clamp, which ends a jump. */
    method ApplyGravity()
      modifies this
      ensures (rect, velocityY) == (Fall(old(rect), old(velocityY), PlayerGravity).0, Fall(old(rect), old(velocityY), PlayerGravity).1)
      ensures isJumping == (old(isJumping) && !Fall(old(rect), old(velocityY), PlayerGravity).2)
      ensures movingLeft == old(movingLeft) && movingRight == old(movingRight) && facingRight == old(facingRight)
      ensures health == old(health) && coins == old(coins) && swingInitiatedByMovement == old(swingInitiatedByMovement)
    {
      velocityY := velocityY + PlayerGravity;
      rect := rect.(y := ToRectInt(rect.y as real + velocityY));
      if rect.Bottom() >= GroundLevel {
        rect := rect.(y := GroundLevel - rect.h);
        velocityY := 0.0;
        isJumping := false;
      }
    }

    /** The two loops with break over the collided platforms. */
    method ResolvePlatforms(collided: seq<Rect>)
      modifies this
      ensures (rect, velocityY, isJumping) == Collide(old(rect), old(velocityY), old(isJumping), collided)
      ensures movingLeft == old(movingLeft) && movingRight == old(movingRight) && facingRight == old(facingRight)
      ensures health == old(health) && coins == old(coins) && swingInitiatedByMovement == old(swingInitiatedByMovement)
    {
      ghost var fallen, speed := rect, velocityY;
      if velocityY > 0.0 {
        var i := 0;
        while i < |collided|
          invariant 0 <= i <= |collided|
          invariant rect == fallen && velocityY == speed && isJumping == old(isJumping)
          invariant forall j :: 0 <= j < i ==> !LandsOn(fallen, speed, collided[j])
        {
          var platform := collided[i];
          if rect.Bottom() as real - velocityY <= platform.y as real && rect.Bottom() >= platform.y {
            assert Landing(fallen, speed, collided) == Some(i);
            rect := rect.(y := platform.y - rect.h);
            velocityY := 0.0;
            isJumping := false;
            break;
          }
          i := i + 1;
        }
      } else if velocityY < 0.0 {
        var i := 0;
        while i < |collided|
          invariant 0 <= i <= |collided|
          invariant rect == fallen && velocityY == speed && isJumping == old(isJumping)
          invariant forall j :: 0 <= j < i ==> !BumpsInto(fallen, speed, collided[j])
        {
          var platform := collided[i];
          if rect.y as real >= platform.Bottom() as real - AbsReal(velocityY) && rect.y <= platform.Bottom() {
            assert Bump(fallen, speed, collided) == Some(i);
            rect := rect.(y := platform.Bottom());
            velocityY := 0.0;
            break;
          }
          i := i + 1;
        }
      }
    }

    method CollectCoin(amount: int)
      requires Valid()
      modifies this, sword
      ensures State() == Collect(old(State()), amount) && Valid()
    {
      coins := coins + amount;
      SwingInvariantPreserved(sword.State(), 0, true, coins);
      sword.TryGrowByCoins(coins);
    }

    method TakeDamage(amount: int)
      modifies this
      ensures State() == Damaged(old(State()), amount)
    {
      health := health - amount;
      if health < 0 {
        health := 0;
      }
    }

    function ToDict(): (d: PlayerRecord)
      reads this, sword
      ensures d == Record(State())
    {
      PlayerRecord(Some(rect.x), Some(rect.y), Some(health), Some(coins), Some(facingRight),
                   Some(sword.currentGrowthLevel), Some(sword.currentDamage))
    }

    method FromDict(d: PlayerRecord)
      requires Valid()
      modifies this, sword
      ensures State() == Restored(old(State()), d) && Valid()
    {
      rect := rect.(x := d.x.GetOr(rect.x), y := d.y.GetOr(rect.y));
      health := d.health.GetOr(health);
      coins := d.coins.GetOr(coins);
      facingRight := d.facingRight.GetOr(facingRight);
      sword.currentGrowthLevel := d.swordLevel.GetOr(0);
      sword.currentDamage := d.swordDamage.GetOr(BaseDamage);
      SwingInvariantPreserved(sword.State(), 0, true, coins);
      sword.TryGrowByCoins(coins);
    }
  }
}
