/** The gameplay scene (cena_jogo.py): it builds or restores the player and the
    environment, and each frame reads the events, advances the player and the environment,
    and resolves the sword, contact, fireball and coin interactions. */
module Scenes {
  import opened Geometry
  import opened Dicts
  import opened Settings
  import opened Swords
  import opened Projectiles
  import opened Trees
  import opened Coins
  import opened Monsters
  import opened Players
  import opened Environments

  const MonsterAttackCooldownMs := 1000

  /** The new-game spawn point: centred on the screen, standing on the ground. */
  const SpawnX := ScreenWidth / 2 - PlayerWidth / 2
  const SpawnY := GroundLevel - PlayerHeight

  /** The state the frame works on: the player, the level, and when a monster last hit the
      player by contact. */
  datatype World = World(player: PlayerState, env: EnvState, lastAttack: int)

  /** What the S key hands to the game for saving. */
  datatype SaveRequest = SaveRequest(player: PlayerRecord, environment: EnvRecord)

  /** initial_game_data when it is a non-empty dictionary; a missing key and a None value
      are both None here. */
  datatype GameRecord = GameRecord(player: Option<PlayerRecord>, environment: Option<EnvRecord>)

  const NoPlayerRecord := PlayerRecord(None, None, None, None, None, None, None)
  const NoEnvRecord := EnvRecord(None, None, None, None)

  // ---------------------------------------------------------------- events

  /** One event: the player's own input handling, then the C and X keys add 1 and 10 coins.
      (ESC and S act on the game, not on the player.) */
  function AfterEvent(p: PlayerState, e: Event): (r: PlayerState)
    ensures r.rect == p.rect && r.health == p.health
    ensures r.coins == p.coins + match e { case KeyDown(KeyC) => 1 case KeyDown(KeyX) => 10 case _ => 0 }
    ensures !(e == KeyDown(KeyC) || e == KeyDown(KeyX)) ==> r == Input(p, e)
  {
    var q := Input(p, e);
    match e
    case KeyDown(KeyC) => Collect(q, 1)
    case KeyDown(KeyX) => Collect(q, 10)
    case _ => q
  }

  function AfterEvents(p: PlayerState, es: seq<Event>): (r: PlayerState)
    ensures r.rect == p.rect && r.health == p.health && r.coins == p.coins + CheatCoins(es)
    decreases |es|
  {
    if es == [] then p else AfterEvent(AfterEvents(p, es[..|es| - 1]), es[|es| - 1])
  }

  /** The coins the C and X keys add over a run of events. */
  function CheatCoins(es: seq<Event>): int
    decreases |es|
  {
    if es == [] then 0
    else CheatCoins(es[..|es| - 1]) + match es[|es| - 1]
      case KeyDown(KeyC) => 1
      case KeyDown(KeyX) => 10
      case _ => 0
  }

  /** The save requests a run of events makes: one per S key press, holding the player as
      it is after that event and the level as it is. */
  function SavesFor(p: PlayerState, es: seq<Event>, env: EnvRecord): seq<SaveRequest>
    decreases |es|
  {
    if es == [] then []
    else SavesFor(p, es[..|es| - 1], env)
         + if es[|es| - 1] == KeyDown(KeyS) then [SaveRequest(Record(AfterEvents(p, es)), env)] else []
  }

  /** Events never touch health or position, and add exactly the C/X coins; when the sword
      matched the coins it still does. */
  lemma {:induction false} EventsKeepLevel(p: PlayerState, es: seq<Event>)
    requires LevelMatchesCoins(p)
    ensures LevelMatchesCoins(AfterEvents(p, es))
    ensures AfterEvents(p, es).coins == p.coins + CheatCoins(es)
    ensures AfterEvents(p, es).rect == p.rect && AfterEvents(p, es).health == p.health
    decreases |es|
  {
    if es != [] {
      var init := es[..|es| - 1];
      EventsKeepLevel(p, init);
      var q := AfterEvents(p, init);
      var e := es[|es| - 1];
      assert LevelMatchesCoins(Input(q, e));
      if e == KeyDown(KeyC) {
        assert q.coins / CoinsForSwordLevelUp <= (q.coins + 1) / CoinsForSwordLevelUp;
      } else if e == KeyDown(KeyX) {
        assert q.coins / CoinsForSwordLevelUp <= (q.coins + 10) / CoinsForSwordLevelUp;
      }
    }
  }

  /** Player(0, 0, initial_data=d) gives back the position, health, coins and facing of q. */
  predicate RestoresAs(d: PlayerRecord, q: PlayerState) {
    var r := Players.Construct(0, 0, d);
    r.rect.x == q.rect.x && r.rect.y == q.rect.y && r.health == q.health
    && r.coins == q.coins && r.facingRight == q.facingRight
  }

  /** Every save request restores the player's position, health, coins and facing as they
      were when its S key was handled. */
  lemma {:induction false} SavesRestorePlayer(p: PlayerState, es: seq<Event>, env: EnvRecord, k: nat)
    requires k < |SavesFor(p, es, env)|
    ensures exists i :: 0 <= i < |es| && es[i] == KeyDown(KeyS)
                        && RestoresAs(SavesFor(p, es, env)[k].player, AfterEvents(p, es[..i + 1]))
    decreases |es|
  {
    var init := es[..|es| - 1];
    if k < |SavesFor(p, init, env)| {
      SavesRestorePlayer(p, init, env, k);
      var i :| 0 <= i < |init| && init[i] == KeyDown(KeyS)
               && RestoresAs(SavesFor(p, init, env)[k].player, AfterEvents(p, init[..i + 1]));
      assert init[..i + 1] == es[..i + 1];
      assert SavesFor(p, es, env)[k] == SavesFor(p, init, env)[k];
    } else {
      var i := |es| - 1;
      assert es[..i + 1] == es;
      Players.RoundTrip(AfterEvents(p, es), NewPlayer(0, 0));
    }
  }

  // ---------------------------------------------------------------- sword phase

  /** The trees after the sword's hits: each tree it overlaps takes one hit, the others
      are left as they were. */
  function HitTrees(ts: seq<Tree>, r: Rect, d: int): (res: seq<Tree>)
    ensures |res| == |ts| && forall i :: 0 <= i < |ts| ==> res[i].rect == ts[i].rect
  {
    seq(|ts|, i requires 0 <= i < |ts| => HitTree(ts[i], r, d))
  }

  /** Under the blade means one TakeHit; elsewhere nothing happens. */
  lemma HitTreesEffect(ts: seq<Tree>, r: Rect, d: int)
    ensures forall i :: 0 <= i < |ts| && Overlaps(r, ts[i].rect) ==> HitTrees(ts, r, d)[i] == TakeHit(ts[i], d).0
    ensures forall i :: 0 <= i < |ts| && !Overlaps(r, ts[i].rect) ==> HitTrees(ts, r, d)[i] == ts[i]
  {
  }

  function HitTree(t: Tree, r: Rect, d: int): (u: Tree)
    ensures u.rect == t.rect && u.coinsOnCut == t.coinsOnCut
  {
    if Overlaps(r, t.rect) then TakeHit(t, d).0 else t
  }

  /** The coins of the trees that went from standing in `before` to cut in `after`, in
      order, leaving out rewards of 0. */
  function Felled(before: seq<Tree>, after: seq<Tree>): seq<int>
    requires |before| == |after|
    decreases |before|
  {
    if before == [] then []
    else
      var n := |before| - 1;
      Felled(before[..n], after[..n])
      + if !before[n].isCut && after[n].isCut && before[n].coinsOnCut > 0 then [before[n].coinsOnCut] else []
  }

  /** The coins those hits pay, in tree order (only payments above 0 are collected): the
      rewards of exactly the trees this hit cuts. */
  function TreeGains(ts: seq<Tree>, r: Rect, d: int): (g: seq<int>)
    ensures forall i :: 0 <= i < |g| ==> g[i] > 0
    decreases |ts|
  {
    if ts == [] then [] else TreeGains(ts[..|ts| - 1], r, d) + TreePay(ts[|ts| - 1], r, d)
  }

  lemma {:induction false} TreeGainsAreFelled(ts: seq<Tree>, r: Rect, d: int)
    ensures TreeGains(ts, r, d) == Felled(ts, HitTrees(ts, r, d))
    decreases |ts|
  {
    if ts != [] {
      var n := |ts| - 1;
      assert HitTrees(ts, r, d)[..n] == HitTrees(ts[..n], r, d);
      TreeGainsAreFelled(ts[..n], r, d);
    }
  }

  /** What one tree pays the sword: its coins when this hit cuts it. */
  function TreePay(t: Tree, r: Rect, d: int): (g: seq<int>)
    ensures forall i :: 0 <= i < |g| ==> g[i] > 0
  {
    var c := if Overlaps(r, t.rect) then TakeHit(t, d).1 else 0;
    if c > 0 then [c] else []
  }

  /** The monsters after the sword's hits: each one it overlaps takes the damage, the
      others are left as they were. */
  function HitMonsters(ms: seq<Monster>, r: Rect, d: int): (res: seq<Monster>)
    ensures |res| == |ms| && forall i :: 0 <= i < |ms| ==> res[i].rect == ms[i].rect
  {
    seq(|ms|, i requires 0 <= i < |ms| => HitMonster(ms[i], r, d))
  }

  /** Under the blade means one TakeDamage; elsewhere nothing happens. */
  lemma HitMonstersEffect(ms: seq<Monster>, r: Rect, d: int)
    ensures forall i :: 0 <= i < |ms| && Overlaps(r, ms[i].rect) ==> HitMonsters(ms, r, d)[i] == TakeDamage(ms[i], d).0
    ensures forall i :: 0 <= i < |ms| && !Overlaps(r, ms[i].rect) ==> HitMonsters(ms, r, d)[i] == ms[i]
  {
  }

  function HitMonster(m: Monster, r: Rect, d: int): (u: Monster)
    ensures u.rect == m.rect && u.kind == m.kind && u.coinsOnDefeat == m.coinsOnDefeat
  {
    if Overlaps(r, m.rect) then TakeDamage(m, d).0 else m
  }

  /** The rewards of the monsters alive in `before` and dead in `after`, in order, leaving
      out rewards of 0. */
  function Slain(before: seq<Monster>, after: seq<Monster>): seq<int>
    requires |before| == |after|
    decreases |before|
  {
    if before == [] then []
    else
      var n := |before| - 1;
      Slain(before[..n], after[..n])
      + if before[n].isAlive && !after[n].isAlive && before[n].coinsOnDefeat > 0 then [before[n].coinsOnDefeat] else []
  }

  /** The coins the sword's hits on monsters pay: the rewards of exactly the monsters this
      hit kills. */
  function MonsterGains(ms: seq<Monster>, r: Rect, d: int): (g: seq<int>)
    ensures forall i :: 0 <= i < |g| ==> g[i] > 0
    decreases |ms|
  {
    if ms == [] then [] else MonsterGains(ms[..|ms| - 1], r, d) + MonsterPay(ms[|ms| - 1], r, d)
  }

  lemma {:induction false} MonsterGainsAreSlain(ms: seq<Monster>, r: Rect, d: int)
    ensures MonsterGains(ms, r, d) == Slain(ms, HitMonsters(ms, r, d))
    decreases |ms|
  {
    if ms != [] {
      var n := |ms| - 1;
      assert HitMonsters(ms, r, d)[..n] == HitMonsters(ms[..n], r, d);
      MonsterGainsAreSlain(ms[..n], r, d);
    }
  }

  function MonsterPay(m: Monster, r: Rect, d: int): (g: seq<int>)
    ensures forall i :: 0 <= i < |g| ==> g[i] > 0
  {
    var c := if Overlaps(r, m.rect) then TakeDamage(m, d).1 else 0;
    if c > 0 then [c] else []
  }

  function WithProjectiles(m: Monster, ps: seq<Projectile>): Monster
    requires m.kind.Dragon?
  {
    m.(kind := m.kind.(projectiles := ps))
  }

  /** The sword turns back every not-yet-repelled fireball of a live dragon it overlaps;
      other monsters, and dead dragons, are left as they were. */
  function RepelAll(ms: seq<Monster>, r: Rect, s: SwordState): (res: seq<Monster>)
    ensures |res| == |ms|
    ensures forall i :: 0 <= i < |ms| ==>
              res[i] == ms[i].(kind := res[i].kind) && res[i].kind.Dragon? == ms[i].kind.Dragon?
    ensures forall i :: 0 <= i < |ms| && !(ms[i].kind.Dragon? && ms[i].isAlive) ==> res[i] == ms[i]
    ensures forall i :: 0 <= i < |ms| && ms[i].kind.Dragon? && ms[i].isAlive ==>
              res[i].kind == ms[i].kind.(projectiles := RepelHits(ms[i].kind.projectiles, r, s))
  {
    seq(|ms|, i requires 0 <= i < |ms| =>
      if ms[i].kind.Dragon? && ms[i].isAlive then WithProjectiles(ms[i], RepelHits(ms[i].kind.projectiles, r, s))
      else ms[i])
  }

  /** One dragon's fireballs under the sword: exactly the overlapping ones not yet repelled
      are repelled, so afterwards none under the blade is unrepelled. */
  function RepelHits(ps: seq<Projectile>, r: Rect, s: SwordState): (res: seq<Projectile>)
    ensures |res| == |ps|
    ensures forall i :: 0 <= i < |ps| && Overlaps(r, ps[i].rect) && !ps[i].repelled ==> res[i] == Repel(s, ps[i])
    ensures forall i :: 0 <= i < |ps| && !(Overlaps(r, ps[i].rect) && !ps[i].repelled) ==> res[i] == ps[i]
    ensures forall i :: 0 <= i < |ps| ==> res[i].rect == ps[i].rect && (Overlaps(r, res[i].rect) ==> res[i].repelled)
  {
    seq(|ps|, i requires 0 <= i < |ps| => if Overlaps(r, ps[i].rect) && !ps[i].repelled then Repel(s, ps[i]) else ps[i])
  }

  /** While the sword attacks: its damage, read once, hits the trees and then the monsters
      it overlaps, the player collecting what they pay; then the grown sword repels. */
  function SwordPhase(w: World, r: Rect): World {
    if !w.player.sword.attacking then w
    else
      var d := w.player.sword.damage;
      var p1 := CollectAll(w.player, TreeGains(w.env.trees, r, d));
      var p2 := CollectAll(p1, MonsterGains(w.env.monsters, r, d));
      var ms := RepelAll(HitMonsters(w.env.monsters, r, d), r, p2.sword);
      World(p2, w.env.(trees := HitTrees(w.env.trees, r, d), monsters := ms), w.lastAttack)
  }

  // ---------------------------------------------------------------- contact phase

  /** The damage of every live monster overlapping the player, in group order. */
  function ContactDamages(ms: seq<Monster>, r: Rect): seq<int>
    decreases |ms|
  {
    if ms == [] then []
    else
      var m := ms[|ms| - 1];
      ContactDamages(ms[..|ms| - 1], r) + if Overlaps(r, m.rect) && m.isAlive then [m.damage] else []
  }

  function DamageAll(p: PlayerState, ds: seq<int>): (r: PlayerState)
    ensures r == p.(health := r.health)
    decreases |ds|
  {
    if ds == [] then p else Damaged(DamageAll(p, ds[..|ds| - 1]), ds[|ds| - 1])
  }

  /** Once the cooldown has passed every overlapping live monster hits, and the timer
      restarts if any did. */
  function ContactPhase(w: World, now: int): World {
    if now - w.lastAttack > MonsterAttackCooldownMs then
      var ds := ContactDamages(w.env.monsters, w.player.rect);
      World(DamageAll(w.player, ds), w.env, if ds == [] then w.lastAttack else now)
    else w
  }

  // ---------------------------------------------------------------- fireball phase

  /** The damage the not-repelled ones among hits deal to the player. */
  function UnrepelledDamages(hs: seq<Projectile>): seq<int>
    decreases |hs|
  {
    if hs == [] then []
    else UnrepelledDamages(hs[..|hs| - 1]) + if !hs[|hs| - 1].repelled then [hs[|hs| - 1].damage] else []
  }

  /** A target struck by hits: each repelled one deals its repeller's damage; the coins of
      a defeat are collected. */
  function RepelledHits(m: Monster, hs: seq<Projectile>): (res: (Monster, seq<int>))
    ensures res.0.rect == m.rect && res.0.kind == m.kind
    ensures res.0.isAlive ==> m.isAlive
    ensures forall i :: 0 <= i < |res.1| ==> res.1[i] > 0
    decreases |hs|
  {
    if hs == [] then (m, [])
    else
      var (m1, gains) := RepelledHits(m, hs[..|hs| - 1]);
      var h := hs[|hs| - 1];
      if h.repelled then
        var (m2, c) := TakeDamage(m1, h.repellerDamage);
        (m2, gains + if c > 0 then [c] else [])
      else (m1, gains)
  }

  /** Source s's fireballs against live target t: those overlapping t are removed, the
      repelled ones among them damage t. */
  function TargetStep(p: PlayerState, ms: seq<Monster>, s: nat, t: nat): (res: (PlayerState, seq<Monster>))
    requires s < |ms| && t < |ms| && ms[s].kind.Dragon?
    ensures |res.1| == |ms|
    ensures forall i :: 0 <= i < |ms| ==> res.1[i].rect == ms[i].rect && res.1[i].kind.Dragon? == ms[i].kind.Dragon?
    ensures forall i :: 0 <= i < |ms| ==> (res.1[i].isAlive ==> ms[i].isAlive)
    ensures forall i :: 0 <= i < |ms| && i != s ==> res.1[i].kind == ms[i].kind
    ensures res.0.rect == p.rect
  {
    if !ms[t].isAlive then (p, ms)
    else
      var ps := ms[s].kind.projectiles;
      var ms1 := ms[s := WithProjectiles(ms[s], Misses(ms[t].rect, ps))];
      var (target, gains) := RepelledHits(ms1[t], Hits(ms[t].rect, ps));
      (CollectAll(p, gains), ms1[t := target])
  }

  /** Source s's fireballs against targets 0 .. n-1 in turn. */
  function Targets(p: PlayerState, ms: seq<Monster>, s: nat, n: nat): (res: (PlayerState, seq<Monster>))
    requires s < |ms| && n <= |ms| && ms[s].kind.Dragon?
    ensures |res.1| == |ms|
    ensures forall i :: 0 <= i < |ms| ==> res.1[i].rect == ms[i].rect && res.1[i].kind.Dragon? == ms[i].kind.Dragon?
    ensures forall i :: 0 <= i < |ms| ==> (res.1[i].isAlive ==> ms[i].isAlive)
    ensures forall i :: 0 <= i < |ms| && i != s ==> res.1[i].kind == ms[i].kind
    ensures res.0.rect == p.rect
    decreases n
  {
    if n == 0 then (p, ms)
    else
      var (p1, ms1) := Targets(p, ms, s, n - 1);
      TargetStep(p1, ms1, s, n - 1)
  }

  /** One dragon's fireballs: those overlapping the player are removed and the
      not-repelled ones among them hurt the player; then every live monster, the dragon
      itself included, is checked. Other monsters are passed over. */
  function SourceStep(p: PlayerState, ms: seq<Monster>, s: nat): (res: (PlayerState, seq<Monster>))
    requires s < |ms|
    ensures |res.1| == |ms|
    ensures forall i :: 0 <= i < |ms| ==> res.1[i].rect == ms[i].rect && res.1[i].kind.Dragon? == ms[i].kind.Dragon?
    ensures forall i :: 0 <= i < |ms| ==> (res.1[i].isAlive ==> ms[i].isAlive)
    ensures forall i :: 0 <= i < |ms| && i != s ==> res.1[i].kind == ms[i].kind
    ensures res.0.rect == p.rect
  {
    if !ms[s].kind.Dragon? then (p, ms)
    else
      var ps := ms[s].kind.projectiles;
      var p1 := DamageAll(p, UnrepelledDamages(Hits(p.rect, ps)));
      var ms1 := ms[s := WithProjectiles(ms[s], Misses(p.rect, ps))];
      Targets(p1, ms1, s, |ms1|)
  }

  function Sources(p: PlayerState, ms: seq<Monster>, n: nat): (res: (PlayerState, seq<Monster>))
    requires n <= |ms|
    ensures |res.1| == |ms|
    ensures forall i :: 0 <= i < |ms| ==> res.1[i].rect == ms[i].rect && res.1[i].kind.Dragon? == ms[i].kind.Dragon?
    ensures forall i :: 0 <= i < |ms| ==> (res.1[i].isAlive ==> ms[i].isAlive)
    ensures res.0.rect == p.rect
    decreases n
  {
    if n == 0 then (p, ms)
    else
      var (p1, ms1) := Sources(p, ms, n - 1);
      SourceStep(p1, ms1, n - 1)
  }

  function FireballPhase(w: World): World {
    var (p, ms) := Sources(w.player, w.env.monsters, |w.env.monsters|);
    World(p, w.env.(monsters := ms), w.lastAttack)
  }

  // ---------------------------------------------------------------- coin phase

  /** The coins the player overlaps, collected and removed. */
  function Picked(cs: seq<Coin>, r: Rect): seq<Coin>
    decreases |cs|
  {
    if cs == [] then []
    else Picked(cs[..|cs| - 1], r) + if Overlaps(r, cs[|cs| - 1].rect) then [cs[|cs| - 1]] else []
  }

  function Remaining(cs: seq<Coin>, r: Rect): seq<Coin>
    decreases |cs|
  {
    if cs == [] then []
    else Remaining(cs[..|cs| - 1], r) + if Overlaps(r, cs[|cs| - 1].rect) then [] else [cs[|cs| - 1]]
  }

  function Values(cs: seq<Coin>): (vs: seq<int>)
    ensures |vs| == |cs| && forall i :: 0 <= i < |cs| ==> vs[i] == cs[i].value
  {
    seq(|cs|, i requires 0 <= i < |cs| => cs[i].value)
  }

  function CoinPhase(w: World): World {
    var cs := w.env.coins;
    World(CollectAll(w.player, Values(Picked(cs, w.player.rect))), w.env.(coins := Remaining(cs, w.player.rect)), w.lastAttack)
  }

  /** Everything after the player and the level have moved. */
  function Resolve(w: World, now: int, swordRect: Rect): World {
    CoinPhase(FireballPhase(ContactPhase(SwordPhase(w, swordRect), now)))
  }

  // ---------------------------------------------------------------- properties

  /** What every frame keeps true of the player: health is never negative and the sword's
      level, damage and blade are the ones its coins buy. */
  predicate Sound(p: PlayerState) {
    p.health >= 0 && LevelMatchesCoins(p)
  }

  lemma CollectKeepsSound(p: PlayerState, a: seq<int>)
    requires Sound(p) && forall i :: 0 <= i < |a| ==> a[i] >= 0
    ensures Sound(CollectAll(p, a))
  {
    LevelFollowsCoins(p, a);
  }

  /** Contact and fireball damage floors the health at 0 and touches nothing else. */
  lemma {:induction false} DamageKeepsSound(p: PlayerState, ds: seq<int>)
    requires Sound(p)
    ensures Sound(DamageAll(p, ds)) && DamageAll(p, ds).coins == p.coins
    decreases |ds|
  {
    if ds != [] {
      DamageKeepsSound(p, ds[..|ds| - 1]);
    }
  }

  /** With non-negative damages, a run of hits takes off their sum, down to 0. */
  lemma {:induction false} DamageSums(p: PlayerState, ds: seq<int>)
    requires p.health >= 0 && forall i :: 0 <= i < |ds| ==> ds[i] >= 0
    ensures DamageAll(p, ds).health == Max(0, p.health - Sum(ds))
    decreases |ds|
  {
    if ds != [] {
      DamageSums(p, ds[..|ds| - 1]);
    }
  }

  /** The contact cooldown: within 1000 ms of the last contact hit nothing happens; past
      it, the player loses the damage of every overlapping live monster (down to 0) and the
      timer restarts exactly when at least one of them hit. */
  lemma ContactCooldown(w: World, now: int)
    requires w.player.health >= 0 && forall m :: m in w.env.monsters ==> m.damage >= 0
    ensures now - w.lastAttack <= MonsterAttackCooldownMs ==> ContactPhase(w, now) == w
    ensures now - w.lastAttack > MonsterAttackCooldownMs ==>
              var ds := ContactDamages(w.env.monsters, w.player.rect);
              ContactPhase(w, now).player.health == Max(0, w.player.health - Sum(ds))
              && ContactPhase(w, now).lastAttack == (if ds == [] then w.lastAttack else now)
    ensures ContactPhase(w, now).env == w.env
    ensures ContactPhase(w, now).player == w.player.(health := ContactPhase(w, now).player.health)
  {
    var ds := ContactDamages(w.env.monsters, w.player.rect);
    if now - w.lastAttack > MonsterAttackCooldownMs {
      ContactDamagesFrom(w.env.monsters, w.player.rect);
      forall i | 0 <= i < |ds| ensures ds[i] >= 0 {
        assert DealtBy(ds[i], w.env.monsters, w.player.rect);
        var j :| 0 <= j < |w.env.monsters| && w.env.monsters[j].isAlive && Overlaps(w.player.rect, w.env.monsters[j].rect)
                 && w.env.monsters[j].damage == ds[i];
        assert w.env.monsters[j] in w.env.monsters;
      }
      DamageSums(w.player, ds);
    }
  }

  /** Every contact damage is the damage of a live monster the player overlaps. */
  lemma {:induction false} ContactDamagesFrom(ms: seq<Monster>, r: Rect)
    ensures forall i :: 0 <= i < |ContactDamages(ms, r)| ==> DealtBy(ContactDamages(ms, r)[i], ms, r)
    decreases |ms|
  {
    if ms != [] {
      var init := ms[..|ms| - 1];
      var m := ms[|ms| - 1];
      ContactDamagesFrom(init, r);
      var before := ContactDamages(init, r);
      var ds := ContactDamages(ms, r);
      assert ds == before + if Overlaps(r, m.rect) && m.isAlive then [m.damage] else [];
      forall i | 0 <= i < |ds| ensures DealtBy(ds[i], ms, r) {
        if i < |before| {
          assert ds[i] == before[i] && DealtBy(before[i], init, r);
          var j :| 0 <= j < |init| && init[j].isAlive && Overlaps(r, init[j].rect) && init[j].damage == ds[i];
          assert ms[j] == init[j];
        } else {
          assert ms[|ms| - 1].damage == ds[i];
        }
      }
    }
  }

  /** d is the damage of some live monster of ms overlapping r. */
  predicate DealtBy(d: int, ms: seq<Monster>, r: Rect) {
    exists j :: 0 <= j < |ms| && ms[j].isAlive && Overlaps(r, ms[j].rect) && ms[j].damage == d
  }

  /** The coins the player touches are collected and removed, the others stay, in order;
      the player's coins go up by the values collected. */
  lemma {:induction false} CoinPickup(cs: seq<Coin>, r: Rect)
    ensures |Picked(cs, r)| + |Remaining(cs, r)| == |cs|
    ensures forall c :: c in Picked(cs, r) <==> c in cs && Overlaps(r, c.rect)
    ensures forall c :: c in Remaining(cs, r) <==> c in cs && !Overlaps(r, c.rect)
    decreases |cs|
  {
    if cs != [] {
      var init := cs[..|cs| - 1];
      CoinPickup(init, r);
      assert cs == init + [cs[|cs| - 1]];
    }
  }

  /** The coins of a run resolve to the ones dropped here: the player is left alone but
      for the values collected, and no coin left over lies under the player. */
  lemma CoinPhaseEffect(w: World)
    ensures var w1 := CoinPhase(w);
            w1.player == w.player.(coins := w1.player.coins, sword := w1.player.sword)
            && w1.player.coins == w.player.coins + Sum(Values(Picked(w.env.coins, w.player.rect)))
            && w1.env == w.env.(coins := w1.env.coins) && w1.lastAttack == w.lastAttack
    ensures var w1 := CoinPhase(w);
            |w1.env.coins| <= |w.env.coins|
            && forall c :: c in w1.env.coins ==> c in w.env.coins && !Overlaps(w.player.rect, c.rect)
  {
    CoinPickup(w.env.coins, w.player.rect);
  }

  /** The damages the player takes from its own fireball hits: none exactly when every
      hit was repelled, and never more than the hits. */
  lemma {:induction false} UnrepelledDamagesCount(hs: seq<Projectile>)
    ensures |UnrepelledDamages(hs)| <= |hs|
    ensures UnrepelledDamages(hs) == [] <==> forall i :: 0 <= i < |hs| ==> hs[i].repelled
    decreases |hs|
  {
    if hs != [] {
      var init := hs[..|hs| - 1];
      UnrepelledDamagesCount(init);
      if UnrepelledDamages(init) == [] {
        assert forall i :: 0 <= i < |init| ==> hs[i] == init[i];
      } else {
        var i :| 0 <= i < |init| && !init[i].repelled;
        assert hs[i] == init[i];
      }
    }
  }

  /** No contact damage exactly when no live monster overlaps the player. */
  lemma {:induction false} ContactDamagesNone(ms: seq<Monster>, r: Rect)
    ensures |ContactDamages(ms, r)| <= |ms|
    ensures ContactDamages(ms, r) == [] <==> forall j :: 0 <= j < |ms| ==> !(ms[j].isAlive && Overlaps(r, ms[j].rect))
    decreases |ms|
  {
    if ms != [] {
      var init := ms[..|ms| - 1];
      ContactDamagesNone(init, r);
      if ContactDamages(init, r) == [] {
        assert forall j :: 0 <= j < |init| ==> ms[j] == init[j];
      } else {
        var j :| 0 <= j < |init| && init[j].isAlive && Overlaps(r, init[j].rect);
        assert ms[j] == init[j];
      }
    }
  }

  /** The repeller damage of each repelled hit, in order. */
  function RepellerDamages(hs: seq<Projectile>): seq<int>
    decreases |hs|
  {
    if hs == [] then []
    else RepellerDamages(hs[..|hs| - 1]) + if hs[|hs| - 1].repelled then [hs[|hs| - 1].repellerDamage] else []
  }

  lemma SumSnoc(a: seq<int>, b: seq<int>)
    requires |b| <= 1
    ensures Sum(a + b) == Sum(a) + Sum(b)
  {
    if b != [] {
      assert (a + b)[..|a|] == a;
      assert [b[0]][..0] == [];
    } else {
      assert a + b == a;
    }
  }

  /** A target struck by fireballs: only the repelled ones hurt it, each by the damage of
      the sword that turned it back. While it lives its health is down by their sum; a
      dead target stays as it was; and it pays its coins once, exactly when these hits
      kill it. Nothing else about it changes. */
  lemma {:induction false} RepelledHitsDamage(m: Monster, hs: seq<Projectile>)
    ensures var res := RepelledHits(m, hs);
            res.0 == m.(health := res.0.health, isAlive := res.0.isAlive)
    ensures var res := RepelledHits(m, hs);
            m.isAlive && res.0.isAlive ==> res.0.health == m.health - Sum(RepellerDamages(hs))
    ensures var res := RepelledHits(m, hs);
            m.isAlive && !res.0.isAlive ==> res.0.health <= 0
    ensures !m.isAlive ==> RepelledHits(m, hs) == (m, [])
    ensures var res := RepelledHits(m, hs);
            res.1 == if m.isAlive && !res.0.isAlive && m.coinsOnDefeat > 0 then [m.coinsOnDefeat] else []
    ensures RepellerDamages(hs) == [] ==> RepelledHits(m, hs) == (m, [])
    decreases |hs|
  {
    if hs != [] {
      var init := hs[..|hs| - 1];
      var h := hs[|hs| - 1];
      RepelledHitsDamage(m, init);
      var (m1, gains) := RepelledHits(m, init);
      var tail := if h.repelled then [h.repellerDamage] else [];
      assert RepellerDamages(hs) == RepellerDamages(init) + tail;
      SumSnoc(RepellerDamages(init), tail);
      if h.repelled && m1.isAlive {
        assert gains == [];
        var (m2, c) := TakeDamage(m1, h.repellerDamage);
        assert RepelledHits(m, hs) == (m2, gains + if c > 0 then [c] else []);
      } else if h.repelled {
        assert TakeDamage(m1, h.repellerDamage) == (m1, 0);
        assert gains + [] == gains;
        assert RepelledHits(m, hs) == (m1, gains);
      }
    }
  }

  /** Death depends on life alone: two outcomes that agree on which monsters live count
      the same kills. */
  lemma {:induction false} SlainSameLife(before: seq<Monster>, a: seq<Monster>, b: seq<Monster>)
    requires |before| == |a| == |b| && forall i :: 0 <= i < |a| ==> a[i].isAlive == b[i].isAlive
    ensures Slain(before, a) == Slain(before, b)
    decreases |before|
  {
    if before != [] {
      var n := |before| - 1;
      SlainSameLife(before[..n], a[..n], b[..n]);
    }
  }

  /** The sword phase pays the player exactly the coins of the trees it cuts and the
      monsters it kills, and touches nothing else of the player; coins, platforms and the
      contact timer are left alone. Without an attack nothing happens. */
  lemma SwordPhaseGains(w: World, r: Rect)
    ensures !w.player.sword.attacking ==> SwordPhase(w, r) == w
    ensures var w1 := SwordPhase(w, r);
            w1.lastAttack == w.lastAttack && w1.env.coins == w.env.coins && w1.env.platforms == w.env.platforms
            && w1.player == w.player.(coins := w1.player.coins, sword := w1.player.sword)
            && |w1.env.trees| == |w.env.trees| && |w1.env.monsters| == |w.env.monsters|
    ensures var w1 := SwordPhase(w, r);
            w.player.sword.attacking ==>
              w1.player.coins == w.player.coins + Sum(Felled(w.env.trees, w1.env.trees))
                                 + Sum(Slain(w.env.monsters, w1.env.monsters))
  {
    if w.player.sword.attacking {
      var d := w.player.sword.damage;
      TreeGainsAreFelled(w.env.trees, r, d);
      MonsterGainsAreSlain(w.env.monsters, r, d);
      var hit := HitMonsters(w.env.monsters, r, d);
      var w1 := SwordPhase(w, r);
      SlainSameLife(w.env.monsters, hit, w1.env.monsters);
    }
  }

  /** Whatever happens in the interactions, the player stays where the update put it, the
      platforms and the number of trees and monsters are unchanged, and the contact timer
      is either kept or set to now. */
  lemma ResolveFrame(w: World, now: int, swordRect: Rect)
    ensures var w1 := Resolve(w, now, swordRect);
            w1.player.rect == w.player.rect && w1.env.platforms == w.env.platforms
            && |w1.env.trees| == |w.env.trees| && |w1.env.monsters| == |w.env.monsters|
            && (w1.lastAttack == w.lastAttack || w1.lastAttack == now)
  {
    SwordPhaseGains(w, swordRect);
    var w1 := SwordPhase(w, swordRect);
    var w2 := ContactPhase(w1, now);
    assert w2.env == w1.env && w2.player.rect == w1.player.rect;
    FireballsResolved(w2);
    CoinPhaseEffect(FireballPhase(w2));
  }

  lemma {:induction false} TargetsKeepSound(p: PlayerState, ms: seq<Monster>, s: nat, n: nat)
    requires s < |ms| && n <= |ms| && ms[s].kind.Dragon? && Sound(p)
    ensures Sound(Targets(p, ms, s, n).0)
    decreases n
  {
    if n > 0 {
      TargetsKeepSound(p, ms, s, n - 1);
      var (p1, ms1) := Targets(p, ms, s, n - 1);
      var t := n - 1;
      if ms1[t].isAlive {
        var ps := ms1[s].kind.projectiles;
        var ms2 := ms1[s := WithProjectiles(ms1[s], Misses(ms1[t].rect, ps))];
        CollectKeepsSound(p1, RepelledHits(ms2[t], Hits(ms1[t].rect, ps)).1);
      }
    }
  }

  lemma {:induction false} SourcesKeepSound(p: PlayerState, ms: seq<Monster>, n: nat)
    requires n <= |ms| && Sound(p)
    ensures Sound(Sources(p, ms, n).0)
    decreases n
  {
    if n > 0 {
      SourcesKeepSound(p, ms, n - 1);
      var (p1, ms1) := Sources(p, ms, n - 1);
      SourceStepKeepsSound(p1, ms1, n - 1);
    }
  }

  lemma SourceStepKeepsSound(p: PlayerState, ms: seq<Monster>, s: nat)
    requires s < |ms| && Sound(p)
    ensures Sound(SourceStep(p, ms, s).0)
  {
    if ms[s].kind.Dragon? {
      var ps := ms[s].kind.projectiles;
      DamageKeepsSound(p, UnrepelledDamages(Hits(p.rect, ps)));
      var p1 := DamageAll(p, UnrepelledDamages(Hits(p.rect, ps)));
      TargetsKeepSound(p1, ms[s := WithProjectiles(ms[s], Misses(p.rect, ps))], s, |ms|);
    }
  }

  /** The interactions after the update keep the player sound, given coins of
      non-negative value. */
  lemma ResolveKeepsSound(w: World, now: int, swordRect: Rect)
    requires Sound(w.player) && forall c :: c in w.env.coins ==> c.value >= 0
    ensures Sound(Resolve(w, now, swordRect).player)
  {
    var w1 := SwordPhase(w, swordRect);
    if w.player.sword.attacking {
      var d := w.player.sword.damage;
      CollectKeepsSound(w.player, TreeGains(w.env.trees, swordRect, d));
      CollectKeepsSound(CollectAll(w.player, TreeGains(w.env.trees, swordRect, d)), MonsterGains(w.env.monsters, swordRect, d));
    }
    assert Sound(w1.player) && w1.env.coins == w.env.coins;
    var w2 := ContactPhase(w1, now);
    if now - w1.lastAttack > MonsterAttackCooldownMs {
      DamageKeepsSound(w1.player, ContactDamages(w1.env.monsters, w1.player.rect));
    }
    var w3 := FireballPhase(w2);
    SourcesKeepSound(w2.player, w2.env.monsters, |w2.env.monsters|);
    var cs := w3.env.coins;
    CoinPickup(cs, w3.player.rect);
    var vs := Values(Picked(cs, w3.player.rect));
    forall i | 0 <= i < |vs| ensures vs[i] >= 0 {
      assert Picked(cs, w3.player.rect)[i] in Picked(cs, w3.player.rect);
    }
    CollectKeepsSound(w3.player, vs);
  }

  /** No fireball of dragon s overlaps r, nor any monster alive in ms. */
  predicate Clear(ms: seq<Monster>, s: nat, r: Rect)
    requires s < |ms|
  {
    ms[s].kind.Dragon? ==>
      forall q :: q in ms[s].kind.projectiles ==>
        !Overlaps(r, q.rect) && forall t :: 0 <= t < |ms| && ms[t].isAlive ==> !Overlaps(ms[t].rect, q.rect)
  }

  /** The fireballs of s in b are some of those in a. */
  predicate Fewer(a: seq<Monster>, b: seq<Monster>, s: nat)
    requires s < |a| && s < |b| && a[s].kind.Dragon? && b[s].kind.Dragon?
  {
    forall q :: q in b[s].kind.projectiles ==> q in a[s].kind.projectiles
  }

  lemma TargetStepClears(p: PlayerState, ms: seq<Monster>, s: nat, t: nat)
    requires s < |ms| && t < |ms| && ms[s].kind.Dragon?
    ensures var res := TargetStep(p, ms, s, t).1;
            Fewer(ms, res, s)
            && (res[t].isAlive ==> forall q :: q in res[s].kind.projectiles ==> !Overlaps(res[t].rect, q.rect))
  {
    if ms[t].isAlive {
      var ps := ms[s].kind.projectiles;
      var ms1 := ms[s := WithProjectiles(ms[s], Misses(ms[t].rect, ps))];
      var res := TargetStep(p, ms, s, t).1;
      assert res[s].kind.projectiles == Misses(ms[t].rect, ps);
    }
  }

  lemma {:induction false} TargetsClear(p: PlayerState, ms: seq<Monster>, s: nat, n: nat)
    requires s < |ms| && n <= |ms| && ms[s].kind.Dragon?
    ensures var res := Targets(p, ms, s, n).1;
            Fewer(ms, res, s)
            && forall t :: 0 <= t < n && res[t].isAlive ==>
                 forall q :: q in res[s].kind.projectiles ==> !Overlaps(res[t].rect, q.rect)
    decreases n
  {
    if n > 0 {
      TargetsClear(p, ms, s, n - 1);
      var (p1, ms1) := Targets(p, ms, s, n - 1);
      TargetStepClears(p1, ms1, s, n - 1);
      var res := Targets(p, ms, s, n).1;
      assert res == TargetStep(p1, ms1, s, n - 1).1;
      forall t | 0 <= t < n - 1 && res[t].isAlive
        ensures forall q :: q in res[s].kind.projectiles ==> !Overlaps(res[t].rect, q.rect)
      {
        assert ms1[t].isAlive && res[t].rect == ms1[t].rect;
      }
    }
  }

  /** After dragon s's turn none of its fireballs overlaps the player or a live monster. */
  lemma SourceStepClears(p: PlayerState, ms: seq<Monster>, s: nat)
    requires s < |ms|
    ensures ms[s].kind.Dragon? ==> Fewer(ms, SourceStep(p, ms, s).1, s)
    ensures Clear(SourceStep(p, ms, s).1, s, p.rect)
  {
    if ms[s].kind.Dragon? {
      var ps := ms[s].kind.projectiles;
      var p1 := DamageAll(p, UnrepelledDamages(Hits(p.rect, ps)));
      var ms1 := ms[s := WithProjectiles(ms[s], Misses(p.rect, ps))];
      TargetsClear(p1, ms1, s, |ms1|);
    }
  }

  /** Later turns keep an earlier dragon's fireballs clear: they leave its fireballs alone,
      move no rect and revive no monster. */
  lemma ClearStays(a: seq<Monster>, b: seq<Monster>, s: nat, r: Rect)
    requires s < |a| == |b| && b[s].kind == a[s].kind
    requires forall i :: 0 <= i < |a| ==> b[i].rect == a[i].rect && (b[i].isAlive ==> a[i].isAlive)
    requires Clear(a, s, r)
    ensures Clear(b, s, r)
  {
  }

  lemma {:induction false} SourcesClear(p: PlayerState, ms: seq<Monster>, n: nat)
    requires n <= |ms|
    ensures forall s :: 0 <= s < n ==> Clear(Sources(p, ms, n).1, s, p.rect)
    ensures forall s :: 0 <= s < |ms| && ms[s].kind.Dragon? ==> Fewer(ms, Sources(p, ms, n).1, s)
    decreases n
  {
    if n > 0 {
      SourcesClear(p, ms, n - 1);
      var (p1, ms1) := Sources(p, ms, n - 1);
      var res := SourceStep(p1, ms1, n - 1).1;
      SourceStepClears(p1, ms1, n - 1);
      forall s | 0 <= s < n - 1 ensures Clear(res, s, p.rect) {
        ClearStays(ms1, res, s, p.rect);
      }
    }
  }

  /** After the fireball phase no dragon's fireball overlaps the player or a live monster,
      its own dragon included: a fireball still inside the live dragon that fired it is
      removed without doing damage. Fireballs are only removed, never added or changed. */
  lemma FireballsResolved(w: World)
    ensures var ms := FireballPhase(w).env.monsters;
            forall s :: 0 <= s < |ms| ==> Clear(ms, s, w.player.rect)
    ensures var ms := FireballPhase(w).env.monsters;
            forall s :: 0 <= s < |ms| && ms[s].kind.Dragon? && ms[s].isAlive ==>
              forall q :: q in ms[s].kind.projectiles ==> !Overlaps(ms[s].rect, q.rect)
    ensures var ms := FireballPhase(w).env.monsters;
            forall s :: 0 <= s < |ms| && w.env.monsters[s].kind.Dragon? ==> Fewer(w.env.monsters, ms, s)
    ensures FireballPhase(w).player.rect == w.player.rect
    ensures var w1 := FireballPhase(w);
            w1.env == w.env.(monsters := w1.env.monsters) && |w1.env.monsters| == |w.env.monsters|
            && w1.lastAttack == w.lastAttack
  {
    SourcesClear(w.player, w.env.monsters, |w.env.monsters|);
    var ms := FireballPhase(w).env.monsters;
    forall s | 0 <= s < |ms| && ms[s].kind.Dragon? && ms[s].isAlive
      ensures forall q :: q in ms[s].kind.projectiles ==> !Overlaps(ms[s].rect, q.rect)
    {
      assert Clear(ms, s, w.player.rect);
    }
  }

  /** The world once the events, the player's update and the level's update are done,
      fromTrees and fromMonsters being the coins the level spawned for its felled trees and
      dead monsters. */
  function Progressed(w: World, events: seq<Event>, now: int, fromTrees: seq<Coin>, fromMonsters: seq<Coin>): World {
    var p2 := Advance(AfterEvents(w.player, events), w.env.platforms);
    var ms := StepAll(w.env.monsters, p2.rect, now);
    World(p2, EnvState(Standing(w.env.trees), Coins.UpdateAll(w.env.coins) + fromTrees + fromMonsters, Living(ms), w.env.platforms),
          w.lastAttack)
  }

  /** Before the interactions: the events and the player's update move the player and
      count the cheat coins but never change health; cut trees and dead monsters are
      gone; the old coins have fallen one step and the spawned ones follow them; the
      platforms and the contact timer are left alone. */
  lemma ProgressedFrame(w: World, events: seq<Event>, now: int, fromTrees: seq<Coin>, fromMonsters: seq<Coin>)
    ensures var w1 := Progressed(w, events, now, fromTrees, fromMonsters);
            w1.env.platforms == w.env.platforms && w1.lastAttack == w.lastAttack
            && w1.player.health == w.player.health && w1.player.coins == w.player.coins + CheatCoins(events)
    ensures var w1 := Progressed(w, events, now, fromTrees, fromMonsters);
            (forall t :: t in w1.env.trees <==> t in w.env.trees && !t.isCut)
            && (forall m :: m in w1.env.monsters ==> m.isAlive)
    ensures var w1 := Progressed(w, events, now, fromTrees, fromMonsters);
            w1.env.coins == Coins.UpdateAll(w.env.coins) + fromTrees + fromMonsters
  {
    var w1 := Progressed(w, events, now, fromTrees, fromMonsters);
    StandingIsUncut(w.env.trees);
    LivingIsAlive(StepAll(w.env.monsters, w1.player.rect, now));
  }

  /** fromTrees and fromMonsters are coins the level may spawn, in that frame, for the trees
      cut before it and the monsters dead after their update. */
  predicate Spawned(w: World, events: seq<Event>, now: int, fromTrees: seq<Coin>, fromMonsters: seq<Coin>) {
    var p2 := Advance(AfterEvents(w.player, events), w.env.platforms);
    SpawnedFor(TreeSources(w.env.trees), fromTrees)
    && SpawnedFor(MonsterSources(StepAll(w.env.monsters, p2.rect, now)), fromMonsters)
  }

  /** The frame keeps the player sound and every coin of non-negative value, whatever the
      events, the clock, the sword's rect and the coins' random offsets. */
  lemma FrameKeepsSound(w: World, events: seq<Event>, now: int, swordRect: Rect,
                        fromTrees: seq<Coin>, fromMonsters: seq<Coin>)
    requires Sound(w.player) && forall c :: c in w.env.coins ==> c.value >= 0
    requires Spawned(w, events, now, fromTrees, fromMonsters)
    ensures var after := Resolve(Progressed(w, events, now, fromTrees, fromMonsters), now, swordRect);
            Sound(after.player) && forall c :: c in after.env.coins ==> c.value >= 0
  {
    EventsKeepLevel(w.player, events);
    var p1 := AfterEvents(w.player, events);
    var p2 := Advance(p1, w.env.platforms);
    assert Sound(p2);
    var ms := StepAll(w.env.monsters, p2.rect, now);
    SpawnedCoins(TreeSources(w.env.trees), fromTrees);
    SpawnedCoins(MonsterSources(ms), fromMonsters);
    var coins := Coins.UpdateAll(w.env.coins) + fromTrees + fromMonsters;
    forall c | c in coins ensures c.value >= 0 {
      if c in Coins.UpdateAll(w.env.coins) {
        var i :| 0 <= i < |w.env.coins| && Coins.UpdateAll(w.env.coins)[i] == c;
        assert w.env.coins[i] in w.env.coins;
      }
    }
    var w0 := Progressed(w, events, now, fromTrees, fromMonsters);
    ResolveKeepsSound(w0, now, swordRect);
    var w3 := FireballPhase(ContactPhase(SwordPhase(w0, swordRect), now));
    assert w3.env.coins == coins;
    CoinPickup(coins, w3.player.rect);
  }

  /** One more payment or hit, seen from the end of the list. */
  lemma CollectOne(p: PlayerState, g: seq<int>, c: int)
    ensures CollectAll(p, g + [c]) == Collect(CollectAll(p, g), c)
  {
    assert (g + [c])[..|g|] == g;
  }

  lemma CollectAppend(p: PlayerState, a: seq<int>, b: seq<int>)
    requires |b| <= 1
    ensures CollectAll(p, a + b) == CollectAll(CollectAll(p, a), b)
  {
    if b == [] {
      assert a + b == a;
    } else {
      CollectOne(p, a, b[0]);
      assert [b[0]] == b;
    }
  }

  lemma DamageOne(p: PlayerState, ds: seq<int>, d: int)
    ensures DamageAll(p, ds + [d]) == Damaged(DamageAll(p, ds), d)
  {
    assert (ds + [d])[..|ds|] == ds;
  }

  // ---------------------------------------------------------------- the object

  /** CenaJogo. `toMenu` records that the scene asked the game to switch to the menu, and
      `saves` what it handed to the game's save routine. */
  class GameScene {
    const player: Player
    const environment: Environment
    var monsterLastAttackTime: int
    var toMenu: bool
    var saves: seq<SaveRequest>

    function State(): World
      reads this, player, player.sword, environment
    {
      World(player.State(), environment.State(), monsterLastAttackTime)
    }

    ghost predicate Valid()
      reads this, player, player.sword, environment
    {
      player.Valid() && environment.Valid()
    }

    /** A new game (no data): the player on the ground at the middle of the screen and a
        generated level; otherwise Player(0, 0, data["player"]) and
        Environment(data["environment"]). */
    constructor(data: Option<GameRecord>, now: int)
      ensures Valid() && monsterLastAttackTime == 0 && !toMenu && saves == []
      ensures data.None? ==> player.State() == NewPlayer(SpawnX, SpawnY) && Fresh(environment.State(), now)
      ensures data.Some? ==> player.State() == Players.Construct(0, 0, data.value.player.GetOr(NoPlayerRecord))
      ensures data.Some? ==> var d := data.value.environment.GetOr(NoEnvRecord);
                             (d.IsEmpty() ==> Fresh(environment.State(), now))
                             && (!d.IsEmpty() ==> environment.State() == Loaded(d, now))
    {
      monsterLastAttackTime := 0;
      toMenu, saves := false, [];
      if data.Some? {
        player := new Player(0, 0, data.value.player.GetOr(NoPlayerRecord));
        environment := new Environment(data.value.environment.GetOr(NoEnvRecord), now);
      } else {
        player := new Player(SpawnX, SpawnY, NoPlayerRecord);
        environment := new Environment(NoEnvRecord, now);
      }
    }

    /** atualizar(eventos), with the clock reading of the frame and the sword's rect as this
        frame's update placed it. */
    method Atualizar(events: seq<Event>, now: int, swordRect: Rect) returns (ghost fromTrees: seq<Coin>, ghost fromMonsters: seq<Coin>)
      requires Valid()
      modifies this, player, player.sword, environment
      ensures Valid()
      ensures State() == Resolve(Progressed(old(State()), events, now, fromTrees, fromMonsters), now, swordRect)
      ensures Spawned(old(State()), events, now, fromTrees, fromMonsters)
      ensures toMenu == (old(toMenu) || KeyDown(Escape) in events || player.health <= 0)
      ensures saves == old(saves) + SavesFor(old(player.State()), events, old(environment.ToDict()))
    {
      fromTrees, fromMonsters := Progress(events, now);
      Interact(now, swordRect);
    }

    /** The first half of the frame: the events, the player's update, the level's update. */
    method Progress(events: seq<Event>, now: int) returns (ghost fromTrees: seq<Coin>, ghost fromMonsters: seq<Coin>)
      requires Valid()
      modifies this, player, player.sword, environment
      ensures Valid()
      ensures State() == Progressed(old(State()), events, now, fromTrees, fromMonsters)
      ensures Spawned(old(State()), events, now, fromTrees, fromMonsters)
      ensures toMenu == (old(toMenu) || KeyDown(Escape) in events)
      ensures saves == old(saves) + SavesFor(old(player.State()), events, old(environment.ToDict()))
    {
      HandleEvents(events);
      player.Update(environment.platforms);
      fromTrees, fromMonsters := environment.Update(player.rect, now);
    }

    /** The second half: sword, contact, fireballs and coins, as Resolve states them; then
        a player with no health left sends the game to the menu. */
    method Interact(now: int, swordRect: Rect)
      requires Valid()
      modifies this, player, player.sword, environment
      ensures Valid() && State() == Resolve(old(State()), now, swordRect)
      ensures toMenu == (old(toMenu) || player.health <= 0) && saves == old(saves)
    {
      ghost var w0 := State();
      if player.sword.isAttacking {
        SwordHits(swordRect);
      }
      assert State() == SwordPhase(w0, swordRect);
      ContactHits(now);
      FireballHits();
      CoinPickups();
      if player.health <= 0 {
        toMenu := true;
      }
    }

    /** The event loop: the player's input, then ESC asks for the menu (the frame goes on),
        C and X add coins, S hands the player's and the level's records to the game. */
    method HandleEvents(events: seq<Event>)
      requires Valid()
      modifies this, player, player.sword
      ensures Valid()
      ensures player.State() == AfterEvents(old(player.State()), events)
      ensures toMenu == (old(toMenu) || KeyDown(Escape) in events)
      ensures saves == old(saves) + SavesFor(old(player.State()), events, environment.ToDict())
      ensures monsterLastAttackTime == old(monsterLastAttackTime)
    {
      ghost var p0 := player.State();
      var i := 0;
      while i < |events|
        invariant 0 <= i <= |events| && Valid()
        invariant player.State() == AfterEvents(p0, events[..i])
        invariant toMenu == (old(toMenu) || KeyDown(Escape) in events[..i])
        invariant saves == old(saves) + SavesFor(p0, events[..i], environment.ToDict())
        invariant monsterLastAttackTime == old(monsterLastAttackTime)
      {
        var e := events[i];
        assert events[..i + 1][..i] == events[..i] && events[..i + 1] == events[..i] + [e];
        ghost var env := environment.ToDict();
        assert AfterEvents(p0, events[..i + 1]) == AfterEvent(AfterEvents(p0, events[..i]), e);
        assert SavesFor(p0, events[..i + 1], env) == SavesFor(p0, events[..i], env)
          + if e == KeyDown(KeyS) then [SaveRequest(Record(AfterEvents(p0, events[..i + 1])), env)] else [];
        HandleEvent(e);
        i := i + 1;
      }
      assert events[..i] == events;
    }

    /** The body of the event loop for one event. */
    method HandleEvent(e: Event)
      requires Valid()
      modifies this, player, player.sword
      ensures Valid()
      ensures player.State() == AfterEvent(old(player.State()), e)
      ensures toMenu == (old(toMenu) || e == KeyDown(Escape))
      ensures saves == old(saves) + if e == KeyDown(KeyS) then [SaveRequest(Record(player.State()), environment.ToDict())] else []
      ensures monsterLastAttackTime == old(monsterLastAttackTime)
    {
      player.HandleInput(e);
      if e.KeyDown? {
        if e.key == Escape {
          toMenu := true;
        } else if e.key == KeyC {
          player.CollectCoin(1);
        } else if e.key == KeyX {
          player.CollectCoin(10);
        } else if e.key == KeyS {
          saves := saves + [SaveRequest(player.ToDict(), environment.ToDict())];
        }
      }
    }

    /** The attacking sword: damage read once, then trees, monsters and fireballs. */
    method SwordHits(r: Rect)
      requires Valid() && player.sword.isAttacking
      modifies player, player.sword, environment
      ensures Valid() && State() == SwordPhase(old(State()), r)
    {
      var damage := player.sword.GetDamage();
      StrikeTrees(r, damage);
      StrikeMonsters(r, damage);
      RepelFireballs(r);
    }

    method StrikeTrees(r: Rect, d: int)
      requires Valid()
      modifies player, player.sword, environment
      ensures Valid()
      ensures environment.trees == HitTrees(old(environment.trees), r, d)
      ensures player.State() == CollectAll(old(player.State()), TreeGains(old(environment.trees), r, d))
      ensures environment.monsters == old(environment.monsters) && environment.coins == old(environment.coins)
      ensures environment.platforms == old(environment.platforms)
    {
      var ts := StrikeEachTree(environment.trees, r, d);
      environment.trees := ts;
    }

    /** The loop over the tree group, on the player alone. */
    method StrikeEachTree(ts0: seq<Tree>, r: Rect, d: int) returns (ts: seq<Tree>)
      requires player.Valid()
      modifies player, player.sword
      ensures player.Valid() && ts == HitTrees(ts0, r, d)
      ensures player.State() == CollectAll(old(player.State()), TreeGains(ts0, r, d))
    {
      ts := ts0;
      ghost var p0 := player.State();
      var i := 0;
      while i < |ts0|
        invariant 0 <= i <= |ts0| == |ts|
        invariant forall j :: 0 <= j < i ==> ts[j] == HitTree(ts0[j], r, d)
        invariant forall j :: i <= j < |ts0| ==> ts[j] == ts0[j]
        invariant player.State() == CollectAll(p0, TreeGains(ts0[..i], r, d)) && player.Valid()
      {
        assert ts0[..i + 1][..i] == ts0[..i] && ts0[..i + 1][i] == ts0[i];
        CollectAppend(p0, TreeGains(ts0[..i], r, d), TreePay(ts0[i], r, d));
        var cut := StrikeTree(ts0[i], r, d);
        ts := ts[i := cut];
        i := i + 1;
      }
      assert ts0[..i] == ts0;
    }

    /** One tree under the sword: hit if it overlaps, its coins collected when it falls. */
    method StrikeTree(t: Tree, r: Rect, d: int) returns (after: Tree)
      requires player.Valid()
      modifies player, player.sword
      ensures player.Valid() && after == HitTree(t, r, d)
      ensures player.State() == CollectAll(old(player.State()), TreePay(t, r, d))
    {
      after := t;
      if Overlaps(r, t.rect) {
        var gained;
        after, gained := TakeHit(t, d).0, TakeHit(t, d).1;
        if gained > 0 {
          player.CollectCoin(gained);
          CollectOne(old(player.State()), [], gained);
        }
      }
    }

    method StrikeMonsters(r: Rect, d: int)
      requires Valid()
      modifies player, player.sword, environment
      ensures Valid()
      ensures environment.monsters == HitMonsters(old(environment.monsters), r, d)
      ensures player.State() == CollectAll(old(player.State()), MonsterGains(old(environment.monsters), r, d))
      ensures environment.trees == old(environment.trees) && environment.coins == old(environment.coins)
      ensures environment.platforms == old(environment.platforms)
    {
      var ms := StrikeEachMonster(environment.monsters, r, d);
      environment.monsters := ms;
    }

    method StrikeEachMonster(ms0: seq<Monster>, r: Rect, d: int) returns (ms: seq<Monster>)
      requires player.Valid()
      modifies player, player.sword
      ensures player.Valid() && ms == HitMonsters(ms0, r, d)
      ensures player.State() == CollectAll(old(player.State()), MonsterGains(ms0, r, d))
    {
      ms := ms0;
      ghost var p0 := player.State();
      var i := 0;
      while i < |ms0|
        invariant 0 <= i <= |ms0| == |ms|
        invariant forall j :: 0 <= j < i ==> ms[j] == HitMonster(ms0[j], r, d)
        invariant forall j :: i <= j < |ms0| ==> ms[j] == ms0[j]
        invariant player.State() == CollectAll(p0, MonsterGains(ms0[..i], r, d)) && player.Valid()
      {
        assert ms0[..i + 1][..i] == ms0[..i] && ms0[..i + 1][i] == ms0[i];
        CollectAppend(p0, MonsterGains(ms0[..i], r, d), MonsterPay(ms0[i], r, d));
        var hurt := StrikeMonster(ms0[i], r, d);
        ms := ms[i := hurt];
        i := i + 1;
      }
      assert ms0[..i] == ms0;
    }

    method StrikeMonster(m: Monster, r: Rect, d: int) returns (after: Monster)
      requires player.Valid()
      modifies player, player.sword
      ensures player.Valid() && after == HitMonster(m, r, d)
      ensures player.State() == CollectAll(old(player.State()), MonsterPay(m, r, d))
    {
      after := m;
      if Overlaps(r, m.rect) {
        var gained;
        after, gained := TakeDamage(m, d).0, TakeDamage(m, d).1;
        if gained > 0 {
          player.CollectCoin(gained);
          CollectOne(old(player.State()), [], gained);
        }
      }
    }

    /** Every live dragon's not-yet-repelled fireballs under the sword are turned back. */
    method RepelFireballs(r: Rect)
      requires Valid()
      modifies environment
      ensures Valid()
      ensures environment.monsters == RepelAll(old(environment.monsters), r, player.sword.State())
      ensures environment.trees == old(environment.trees) && environment.coins == old(environment.coins)
      ensures environment.platforms == old(environment.platforms)
    {
      var ms0 := environment.monsters;
      var ms := ms0;
      var i := 0;
      while i < |ms0|
        invariant 0 <= i <= |ms0| == |ms|
        invariant forall j :: 0 <= j < i ==> ms[j] == RepelAll(ms0, r, player.sword.State())[j]
        invariant forall j :: i <= j < |ms0| ==> ms[j] == ms0[j]
        modifies {}
      {
        if ms0[i].kind.Dragon? && ms0[i].isAlive {
          var turned := RepelEach(ms0[i].kind.projectiles, r);
          ms := ms[i := WithProjectiles(ms0[i], turned)];
        }
        i := i + 1;
      }
      assert ms == RepelAll(ms0, r, player.sword.State());
      environment.monsters := ms;
      assert forall j :: 0 <= j < |ms| ==> ms[j].rect == ms0[j].rect;
    }

    /** The projectile loop of one dragon under the sword. */
    method RepelEach(ps: seq<Projectile>, r: Rect) returns (out: seq<Projectile>)
      ensures out == RepelHits(ps, r, player.sword.State())
    {
      out := ps;
      var k := 0;
      while k < |ps|
        invariant 0 <= k <= |ps| == |out|
        invariant forall j :: 0 <= j < k ==> out[j] == RepelHits(ps, r, player.sword.State())[j]
        invariant forall j :: k <= j < |ps| ==> out[j] == ps[j]
      {
        if Overlaps(r, ps[k].rect) && !ps[k].repelled {
          out := out[k := player.sword.RepelProjectile(ps[k])];
        }
        k := k + 1;
      }
    }

    /** Contact damage, once the cooldown has passed. */
    method ContactHits(now: int)
      requires Valid()
      modifies this, player
      ensures Valid() && State() == ContactPhase(old(State()), now)
      ensures toMenu == old(toMenu) && saves == old(saves)
    {
      if now - monsterLastAttackTime > MonsterAttackCooldownMs {
        var hit := ContactEach(environment.monsters);
        if hit {
          monsterLastAttackTime := now;
        }
      }
    }

    /** The loop over the monster group: each overlapping live monster deals its damage;
        `hit` says whether any did (the source restarts the timer at each of them). */
    method ContactEach(ms: seq<Monster>) returns (hit: bool)
      modifies player
      ensures player.State() == DamageAll(old(player.State()), ContactDamages(ms, old(player.rect)))
      ensures hit == (ContactDamages(ms, old(player.rect)) != [])
    {
      ghost var p0 := player.State();
      hit := false;
      var i := 0;
      while i < |ms|
        invariant 0 <= i <= |ms|
        invariant player.State() == DamageAll(p0, ContactDamages(ms[..i], p0.rect))
        invariant hit == (ContactDamages(ms[..i], p0.rect) != [])
      {
        ghost var ds := ContactDamages(ms[..i], p0.rect);
        assert ms[..i + 1][..i] == ms[..i] && ms[..i + 1][i] == ms[i];
        if Overlaps(player.rect, ms[i].rect) && ms[i].isAlive {
          player.TakeDamage(ms[i].damage);
          hit := true;
          assert ContactDamages(ms[..i + 1], p0.rect) == ds + [ms[i].damage];
          DamageOne(p0, ds, ms[i].damage);
        } else {
          assert ContactDamages(ms[..i + 1], p0.rect) == ds;
        }
        i := i + 1;
      }
      assert ms[..i] == ms;
    }

    /** The fireball loops: for each dragon, its fireballs against the player, then against
        every live monster. */
    method FireballHits()
      requires Valid()
      modifies player, player.sword, environment
      ensures Valid() && State() == FireballPhase(old(State()))
    {
      ghost var p0, ms0 := player.State(), environment.monsters;
      var s := 0;
      while s < |environment.monsters|
        invariant 0 <= s <= |environment.monsters| == |ms0|
        invariant (player.State(), environment.monsters) == Sources(p0, ms0, s) && Valid()
        invariant environment.trees == old(environment.trees) && environment.coins == old(environment.coins)
        invariant environment.platforms == old(environment.platforms)
      {
        if environment.monsters[s].kind.Dragon? {
          SourceTurn(s);
        }
        s := s + 1;
      }
    }

    method SourceTurn(s: nat)
      requires Valid() && s < |environment.monsters| && environment.monsters[s].kind.Dragon?
      modifies player, player.sword, environment
      ensures Valid() && (player.State(), environment.monsters) == SourceStep(old(player.State()), old(environment.monsters), s)
      ensures environment.trees == old(environment.trees) && environment.coins == old(environment.coins)
      ensures environment.platforms == old(environment.platforms)
    {
      var ps := environment.monsters[s].kind.projectiles;
      var hits := Hits(player.rect, ps);
      environment.monsters := environment.monsters[s := WithProjectiles(environment.monsters[s], Misses(player.rect, ps))];
      BurnPlayer(hits);
      ghost var p1, ms1 := player.State(), environment.monsters;
      var t := 0;
      while t < |environment.monsters|
        invariant 0 <= t <= |environment.monsters| == |ms1|
        invariant (player.State(), environment.monsters) == Targets(p1, ms1, s, t) && Valid()
        invariant environment.trees == old(environment.trees) && environment.coins == old(environment.coins)
        invariant environment.platforms == old(environment.platforms)
      {
        if environment.monsters[t].isAlive {
          TargetTurn(s, t);
        }
        t := t + 1;
      }
    }

    /** The fireballs that reached the player: each one not repelled burns its damage. */
    method BurnPlayer(hits: seq<Projectile>)
      modifies player
      ensures player.State() == DamageAll(old(player.State()), UnrepelledDamages(hits))
    {
      ghost var p0 := player.State();
      var k := 0;
      while k < |hits|
        invariant 0 <= k <= |hits|
        invariant player.State() == DamageAll(p0, UnrepelledDamages(hits[..k]))
      {
        ghost var ds := UnrepelledDamages(hits[..k]);
        assert hits[..k + 1][..k] == hits[..k] && hits[..k + 1][k] == hits[k];
        if !hits[k].repelled {
          player.TakeDamage(hits[k].damage);
          assert UnrepelledDamages(hits[..k + 1]) == ds + [hits[k].damage];
          DamageOne(p0, ds, hits[k].damage);
        } else {
          assert UnrepelledDamages(hits[..k + 1]) == ds;
        }
        k := k + 1;
      }
      assert hits[..k] == hits;
    }

    method TargetTurn(s: nat, t: nat)
      requires Valid() && s < |environment.monsters| && t < |environment.monsters|
      requires environment.monsters[s].kind.Dragon? && environment.monsters[t].isAlive
      modifies player, player.sword, environment
      ensures Valid() && (player.State(), environment.monsters) == TargetStep(old(player.State()), old(environment.monsters), s, t)
      ensures environment.trees == old(environment.trees) && environment.coins == old(environment.coins)
      ensures environment.platforms == old(environment.platforms)
    {
      var target := environment.monsters[t];
      var ps := environment.monsters[s].kind.projectiles;
      var hits := Hits(target.rect, ps);
      var ms1 := environment.monsters[s := WithProjectiles(environment.monsters[s], Misses(target.rect, ps))];
      var struck := StrikeByFireballs(ms1[t], hits);
      environment.monsters := ms1[t := struck];
    }

    /** The fireballs that reached a live target: each repelled one deals its repeller's
        damage, the coins of a defeat going to the player. */
    method StrikeByFireballs(m: Monster, hits: seq<Projectile>) returns (after: Monster)
      requires player.Valid()
      modifies player, player.sword
      ensures player.Valid() && after == RepelledHits(m, hits).0
      ensures player.State() == CollectAll(old(player.State()), RepelledHits(m, hits).1)
    {
      ghost var p0 := player.State();
      after := m;
      var k := 0;
      while k < |hits|
        invariant 0 <= k <= |hits|
        invariant after == RepelledHits(m, hits[..k]).0
        invariant player.State() == CollectAll(p0, RepelledHits(m, hits[..k]).1) && player.Valid()
      {
        ghost var g := RepelledHits(m, hits[..k]).1;
        assert hits[..k + 1][..k] == hits[..k] && hits[..k + 1][k] == hits[k];
        if hits[k].repelled {
          var hurt, gained := TakeDamage(after, hits[k].repellerDamage).0, TakeDamage(after, hits[k].repellerDamage).1;
          after := hurt;
          if gained > 0 {
            player.CollectCoin(gained);
            assert RepelledHits(m, hits[..k + 1]) == (hurt, g + [gained]);
            CollectOne(p0, g, gained);
          } else {
            assert g + [] == g;
            assert RepelledHits(m, hits[..k + 1]) == (hurt, g);
          }
        } else {
          assert RepelledHits(m, hits[..k + 1]) == (after, g);
        }
        k := k + 1;
      }
      assert hits[..k] == hits;
    }

    /** The coins the player touches are removed from the level and collected, in order. */
    method CoinPickups()
      requires Valid()
      modifies player, player.sword, environment
      ensures Valid() && State() == CoinPhase(old(State()))
    {
      var picked := Picked(environment.coins, player.rect);
      environment.coins := Remaining(environment.coins, player.rect);
      ghost var p0 := player.State();
      var k := 0;
      while k < |picked|
        invariant 0 <= k <= |picked|
        invariant player.State() == CollectAll(p0, Values(picked[..k])) && Valid()
        invariant environment.coins == Remaining(old(environment.coins), p0.rect)
        invariant environment.trees == old(environment.trees) && environment.monsters == old(environment.monsters)
        invariant environment.platforms == old(environment.platforms)
      {
        assert Values(picked[..k + 1])[..k] == Values(picked[..k]);
        player.CollectCoin(picked[k].value);
        k := k + 1;
      }
      assert picked[..k] == picked;
    }
  }
}
