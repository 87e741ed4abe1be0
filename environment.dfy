/** The environment (environment.py): the trees, coins, monsters and platforms of the
    level, their per-frame update with the removal of cut trees and dead monsters (which
    leave coins behind), and the saved form. */
module Environments {
  import opened Geometry
  import opened Dicts
  import opened Settings
  import opened Trees
  import opened Coins
  import opened Platforms
  import opened Monsters
  import opened Dragons
  import opened Seqs

  /** A spawned coin lands at x + randint(0, width - 30). */
  const CoinMargin := 30

  /** Where coins come from when a sprite is removed: its rect and how many coins it
      leaves (a count that range() treats as 0 when negative). */
  datatype Source = Source(rect: Rect, count: int)

  function Copies(n: int): nat { if n < 0 then 0 else n }

  /** The trees the removal pass keeps: the uncut ones, in order. */
  function Standing(ts: seq<Tree>): (r: seq<Tree>)
    ensures |r| <= |ts|
    decreases |ts|
  {
    if ts == [] then []
    else if ts[|ts| - 1].isCut then Standing(ts[..|ts| - 1])
    else Standing(ts[..|ts| - 1]) + [ts[|ts| - 1]]
  }

  /** The cut trees, in order, as coin sources. */
  function TreeSources(ts: seq<Tree>): (r: seq<Source>)
    decreases |ts|
  {
    if ts == [] then []
    else if ts[|ts| - 1].isCut then TreeSources(ts[..|ts| - 1]) + [Source(ts[|ts| - 1].rect, ts[|ts| - 1].coinsOnCut)]
    else TreeSources(ts[..|ts| - 1])
  }

  /** The monsters the removal pass keeps: the live ones, in order. */
  function Living(ms: seq<Monster>): (r: seq<Monster>)
    ensures |r| <= |ms|
    decreases |ms|
  {
    if ms == [] then []
    else if !ms[|ms| - 1].isAlive then Living(ms[..|ms| - 1])
    else Living(ms[..|ms| - 1]) + [ms[|ms| - 1]]
  }

  /** The dead monsters, in order, as coin sources. */
  function MonsterSources(ms: seq<Monster>): (r: seq<Source>)
    decreases |ms|
  {
    if ms == [] then []
    else if !ms[|ms| - 1].isAlive then MonsterSources(ms[..|ms| - 1]) + [Source(ms[|ms| - 1].rect, ms[|ms| - 1].coinsOnDefeat)]
    else MonsterSources(ms[..|ms| - 1])
  }

  /** A coin spawned for a source at rect r: Coin(r.x + offset, r.y + r.height // 4) with
      the offset within [0, r.width - 30]. */
  predicate SpawnedAt(c: Coin, r: Rect) {
    c == NewCoin(c.rect.x, r.y + r.h / 4, 1) && r.x <= c.rect.x <= r.x + r.w - CoinMargin
  }

  /** `cs` is what the removal pass spawns for the sources `srcs`: for each source in
      order, as many coins as its count, each placed for that source. */
  predicate SpawnedFor(srcs: seq<Source>, cs: seq<Coin>)
    decreases |srcs|
  {
    if srcs == [] then cs == []
    else
      var last := srcs[|srcs| - 1];
      var n := Copies(last.count);
      n <= |cs| && SpawnedFor(srcs[..|srcs| - 1], cs[..|cs| - n])
      && AllAt(cs[|cs| - n..], last.rect)
  }

  predicate AllAt(cs: seq<Coin>, r: Rect) {
    forall j :: 0 <= j < |cs| ==> SpawnedAt(cs[j], r)
  }

  function TotalCopies(srcs: seq<Source>): nat
    decreases |srcs|
  {
    if srcs == [] then 0 else TotalCopies(srcs[..|srcs| - 1]) + Copies(srcs[|srcs| - 1].count)
  }

  /** Each removed sprite adds exactly its count of coins, and every spawned coin is a
      fresh coin of value 1 at a quarter of its source's height, within the source's
      width. */
  lemma {:induction false} SpawnedCoins(srcs: seq<Source>, cs: seq<Coin>)
    requires SpawnedFor(srcs, cs)
    ensures |cs| == TotalCopies(srcs)
    ensures forall c :: c in cs ==> c.value == 1 && !c.collected && c.velocityY == 0.0 && Coins.WellFormed(c)
    ensures forall c :: c in cs ==> exists s :: s in srcs && SpawnedAt(c, s.rect)
    decreases |srcs|
  {
    if srcs != [] {
      var last := srcs[|srcs| - 1];
      var n := Copies(last.count);
      var init := srcs[..|srcs| - 1];
      SpawnedCoins(init, cs[..|cs| - n]);
      assert cs == cs[..|cs| - n] + cs[|cs| - n..];
      forall c | c in cs
        ensures c.value == 1 && !c.collected && c.velocityY == 0.0 && Coins.WellFormed(c)
        ensures exists s :: s in srcs && SpawnedAt(c, s.rect)
      {
        if c in cs[..|cs| - n] {
          var s :| s in init && SpawnedAt(c, s.rect);
          assert s in srcs;
        } else {
          var j :| |cs| - n <= j < |cs| && cs[j] == c;
          assert cs[|cs| - n..][j - (|cs| - n)] == c;
          assert SpawnedAt(c, last.rect) && last in srcs;
        }
      }
    }
  }

  lemma StandingKeepsWidth(ts: seq<Tree>)
    requires forall j :: 0 <= j < |ts| ==> ts[j].rect.w >= CoinMargin
    ensures forall j :: 0 <= j < |Standing(ts)| ==> Standing(ts)[j].rect.w >= CoinMargin
  {
    StandingIsUncut(ts);
    forall j | 0 <= j < |Standing(ts)| ensures Standing(ts)[j].rect.w >= CoinMargin {
      assert Standing(ts)[j] in ts;
    }
  }

  lemma LivingKeepsWidth(ms: seq<Monster>)
    requires forall j :: 0 <= j < |ms| ==> ms[j].rect.w >= CoinMargin
    ensures forall j :: 0 <= j < |Living(ms)| ==> Living(ms)[j].rect.w >= CoinMargin
  {
    LivingIsAlive(ms);
    forall j | 0 <= j < |Living(ms)| ensures Living(ms)[j].rect.w >= CoinMargin {
      assert Living(ms)[j] in ms;
    }
  }

  lemma StandingStep(ts: seq<Tree>, i: nat)
    requires i < |ts|
    ensures Standing(ts[..i + 1]) == if ts[i].isCut then Standing(ts[..i]) else Standing(ts[..i]) + [ts[i]]
    ensures TreeSources(ts[..i + 1]) == if ts[i].isCut then TreeSources(ts[..i]) + [Source(ts[i].rect, ts[i].coinsOnCut)] else TreeSources(ts[..i])
  {
    assert ts[..i + 1][..i] == ts[..i];
  }

  lemma LivingStep(ms: seq<Monster>, i: nat)
    requires i < |ms|
    ensures Living(ms[..i + 1]) == if !ms[i].isAlive then Living(ms[..i]) else Living(ms[..i]) + [ms[i]]
    ensures MonsterSources(ms[..i + 1]) == if !ms[i].isAlive then MonsterSources(ms[..i]) + [Source(ms[i].rect, ms[i].coinsOnDefeat)] else MonsterSources(ms[..i])
  {
    assert ms[..i + 1][..i] == ms[..i];
  }

  /** Appending one source's batch extends the spawn relation. */
  lemma SpawnedForExtend(srcs: seq<Source>, src: Source, spawned: seq<Coin>, batch: seq<Coin>)
    requires SpawnedFor(srcs, spawned)
    requires |batch| == Copies(src.count) && AllAt(batch, src.rect)
    ensures SpawnedFor(srcs + [src], spawned + batch)
  {
    var all := srcs + [src];
    assert all[..|all| - 1] == srcs;
    assert (spawned + batch)[..|spawned + batch| - |batch|] == spawned;
    assert (spawned + batch)[|spawned|..] == batch;
  }

  /** `for _ in range(count)`: one coin per round at a random offset within the source's
      width (less 30), a quarter of its height down. */
  method Scatter(r: Rect, count: int) returns (batch: seq<Coin>)
    requires r.w >= CoinMargin
    ensures |batch| == Copies(count) && AllAt(batch, r)
  {
    batch := [];
    var k := 0;
    while k < count
      invariant 0 <= k == |batch| && (k <= count || k == 0)
      invariant forall j :: 0 <= j < |batch| ==> SpawnedAt(batch[j], r)
    {
      var offset :| 0 <= offset <= r.w - CoinMargin;
      batch := batch + [NewCoin(r.x + offset, r.y + r.h / 4, 1)];
      k := k + 1;
    }
  }

  /** Where the tree loop stands after visiting snapshot[..i]: the group `ts` holds the
      kept trees and then the ones not yet visited, `pos` counts the kept ones, and
      `spawned` holds the coins of the cut ones. */
  predicate TreeRound(snapshot: seq<Tree>, i: nat, kept: seq<Tree>, pos: nat, ts: seq<Tree>, spawned: seq<Coin>) {
    i <= |snapshot| && kept == Standing(snapshot[..i]) && ts == kept + snapshot[i..] && pos == |kept|
    && SpawnedFor(TreeSources(snapshot[..i]), spawned)
  }

  lemma KeepTree(snapshot: seq<Tree>, i: nat, kept: seq<Tree>, pos: nat, ts: seq<Tree>, spawned: seq<Coin>)
    requires i < |snapshot| && !snapshot[i].isCut && TreeRound(snapshot, i, kept, pos, ts, spawned)
    ensures TreeRound(snapshot, i + 1, kept + [snapshot[i]], pos + 1, ts, spawned)
  {
    StandingStep(snapshot, i);
    Uncons(snapshot, i);
  }

  /** A cut tree: `remove(tree)` finds it at `pos`, behind the trees kept so far. */
  lemma DropTree(snapshot: seq<Tree>, i: nat, kept: seq<Tree>, pos: nat, ts: seq<Tree>, spawned: seq<Coin>, batch: seq<Coin>)
    requires i < |snapshot| && snapshot[i].isCut && TreeRound(snapshot, i, kept, pos, ts, spawned)
    requires |batch| == Copies(snapshot[i].coinsOnCut) && AllAt(batch, snapshot[i].rect)
    ensures pos < |ts| && TreeRound(snapshot, i + 1, kept, pos, ts[..pos] + ts[pos + 1..], spawned + batch)
  {
    StandingStep(snapshot, i);
    Uncons(snapshot, i);
    SpawnedForExtend(TreeSources(snapshot[..i]), Source(snapshot[i].rect, snapshot[i].coinsOnCut), spawned, batch);
    DropAt(kept, snapshot[i], snapshot[i + 1..]);
  }

  /** `for tree in self.trees.copy()`: each cut tree spawns its coins and is removed from
      the group; returns the group and the coins added, in order. */
  method CutPass(snapshot: seq<Tree>) returns (ts: seq<Tree>, added: seq<Coin>)
    requires forall j :: 0 <= j < |snapshot| ==> snapshot[j].rect.w >= CoinMargin
    ensures ts == Standing(snapshot) && SpawnedFor(TreeSources(snapshot), added)
  {
    ts, added := snapshot, [];
    ghost var kept: seq<Tree> := [];
    var i, pos := 0, 0;
    assert snapshot[..0] == [] && snapshot[0..] == snapshot;
    while i < |snapshot|
      invariant TreeRound(snapshot, i, kept, pos, ts, added)
    {
      var tree := snapshot[i];
      if tree.isCut {
        var batch := Scatter(tree.rect, tree.coinsOnCut);
        DropTree(snapshot, i, kept, pos, ts, added, batch);
        ts, added := ts[..pos] + ts[pos + 1..], added + batch;
      } else {
        KeepTree(snapshot, i, kept, pos, ts, added);
        kept, pos := kept + [tree], pos + 1;
      }
      i := i + 1;
    }
    assert snapshot[..|snapshot|] == snapshot;
  }

  /** Where the monster loop stands, as for the trees. */
  predicate MonsterRound(snapshot: seq<Monster>, i: nat, kept: seq<Monster>, pos: nat, ms: seq<Monster>, spawned: seq<Coin>) {
    i <= |snapshot| && kept == Living(snapshot[..i]) && ms == kept + snapshot[i..] && pos == |kept|
    && SpawnedFor(MonsterSources(snapshot[..i]), spawned)
  }

  lemma KeepMonster(snapshot: seq<Monster>, i: nat, kept: seq<Monster>, pos: nat, ms: seq<Monster>, spawned: seq<Coin>)
    requires i < |snapshot| && snapshot[i].isAlive && MonsterRound(snapshot, i, kept, pos, ms, spawned)
    ensures MonsterRound(snapshot, i + 1, kept + [snapshot[i]], pos + 1, ms, spawned)
  {
    LivingStep(snapshot, i);
    Uncons(snapshot, i);
  }

  lemma DropMonster(snapshot: seq<Monster>, i: nat, kept: seq<Monster>, pos: nat, ms: seq<Monster>, spawned: seq<Coin>, batch: seq<Coin>)
    requires i < |snapshot| && !snapshot[i].isAlive && MonsterRound(snapshot, i, kept, pos, ms, spawned)
    requires |batch| == Copies(snapshot[i].coinsOnDefeat) && AllAt(batch, snapshot[i].rect)
    ensures pos < |ms| && MonsterRound(snapshot, i + 1, kept, pos, ms[..pos] + ms[pos + 1..], spawned + batch)
  {
    LivingStep(snapshot, i);
    Uncons(snapshot, i);
    SpawnedForExtend(MonsterSources(snapshot[..i]), Source(snapshot[i].rect, snapshot[i].coinsOnDefeat), spawned, batch);
    DropAt(kept, snapshot[i], snapshot[i + 1..]);
  }

  /** `for monster in self.monsters.copy()`: each dead monster spawns its coins and is
      removed from the group; returns the group and the coins added, in order. */
  method DeathPass(snapshot: seq<Monster>) returns (ms: seq<Monster>, added: seq<Coin>)
    requires forall j :: 0 <= j < |snapshot| ==> snapshot[j].rect.w >= CoinMargin
    ensures ms == Living(snapshot) && SpawnedFor(MonsterSources(snapshot), added)
  {
    ms, added := snapshot, [];
    ghost var kept: seq<Monster> := [];
    var i, pos := 0, 0;
    assert snapshot[..0] == [] && snapshot[0..] == snapshot;
    while i < |snapshot|
      invariant MonsterRound(snapshot, i, kept, pos, ms, added)
    {
      var monster := snapshot[i];
      if !monster.isAlive {
        var batch := Scatter(monster.rect, monster.coinsOnDefeat);
        DropMonster(snapshot, i, kept, pos, ms, added, batch);
        ms, added := ms[..pos] + ms[pos + 1..], added + batch;
      } else {
        KeepMonster(snapshot, i, kept, pos, ms, added);
        kept, pos := kept + [monster], pos + 1;
      }
      i := i + 1;
    }
    assert snapshot[..|snapshot|] == snapshot;
  }

  /** The monster update pass: each monster's own update, in place. */
  function StepAll(ms: seq<Monster>, player: Rect, now: int): (r: seq<Monster>)
    ensures |r| == |ms| && forall i :: 0 <= i < |ms| ==> r[i] == Step(ms[i], player, now)
  {
    seq(|ms|, i requires 0 <= i < |ms| => Step(ms[i], player, now))
  }

  /** After the removal pass exactly the uncut trees are left. */
  lemma {:induction false} StandingIsUncut(ts: seq<Tree>)
    ensures forall t :: t in Standing(ts) <==> t in ts && !t.isCut
    decreases |ts|
  {
    if ts != [] {
      var init := ts[..|ts| - 1];
      StandingIsUncut(init);
      assert ts == init + [ts[|ts| - 1]];
    }
  }

  /** After the removal pass exactly the live monsters are left. */
  lemma {:induction false} LivingIsAlive(ms: seq<Monster>)
    ensures forall m :: m in Living(ms) <==> m in ms && m.isAlive
    decreases |ms|
  {
    if ms != [] {
      var init := ms[..|ms| - 1];
      LivingIsAlive(init);
      assert ms == init + [ms[|ms| - 1]];
    }
  }

  // ---------------------------------------------------------------- saved form

  datatype EnvRecord = EnvRecord(trees: Option<seq<TreeRecord>>, monsters: Option<seq<MonsterRecord>>,
                                 coins: Option<seq<CoinRecord>>, platforms: Option<seq<PlatformRecord>>) {
    predicate IsEmpty() { trees.None? && monsters.None? && coins.None? && platforms.None? }
  }

  function SaveTrees(ts: seq<Tree>): (ds: seq<TreeRecord>)
    ensures |ds| == |ts| && forall i :: 0 <= i < |ts| ==> ds[i] == Trees.ToDict(ts[i])
  { seq(|ts|, i requires 0 <= i < |ts| => Trees.ToDict(ts[i])) }

  function SaveMonsters(ms: seq<Monster>): (ds: seq<MonsterRecord>)
    ensures |ds| == |ms| && forall i :: 0 <= i < |ms| ==> ds[i] == Save(ms[i])
  { seq(|ms|, i requires 0 <= i < |ms| => Save(ms[i])) }

  function SaveCoins(cs: seq<Coin>): (ds: seq<CoinRecord>)
    ensures |ds| == |cs| && forall i :: 0 <= i < |cs| ==> ds[i] == Coins.ToDict(cs[i])
  { seq(|cs|, i requires 0 <= i < |cs| => Coins.ToDict(cs[i])) }

  function SavePlatforms(ps: seq<Platform>): (ds: seq<PlatformRecord>)
    ensures |ds| == |ps| && forall i :: 0 <= i < |ps| ==> ds[i] == Platforms.ToDict(ps[i])
  { seq(|ps|, i requires 0 <= i < |ps| => Platforms.ToDict(ps[i])) }

  function LoadTrees(ds: seq<TreeRecord>): (ts: seq<Tree>)
    ensures |ts| == |ds| && forall i :: 0 <= i < |ds| ==> ts[i] == Trees.Restore(ds[i])
  { seq(|ds|, i requires 0 <= i < |ds| => Trees.Restore(ds[i])) }

  function LoadMonsters(ds: seq<MonsterRecord>, now: int): (ms: seq<Monster>)
    ensures |ms| == |ds| && forall i :: 0 <= i < |ds| ==> ms[i] == Load(ds[i], now)
  { seq(|ds|, i requires 0 <= i < |ds| => Load(ds[i], now)) }

  function LoadCoins(ds: seq<CoinRecord>): (cs: seq<Coin>)
    ensures |cs| == |ds| && forall i :: 0 <= i < |ds| ==> cs[i] == Coins.Restore(ds[i])
  { seq(|ds|, i requires 0 <= i < |ds| => Coins.Restore(ds[i])) }

  function LoadPlatforms(ds: seq<PlatformRecord>): (ps: seq<Platform>)
    ensures |ps| == |ds| && forall i :: 0 <= i < |ds| ==> ps[i] == Platforms.Restore(ds[i])
  { seq(|ds|, i requires 0 <= i < |ds| => Platforms.Restore(ds[i])) }

  /** Saving and loading the collections: trees and coins come back exactly, every
      monster keeps its kind, and every platform comes back 1x1 at its position. */
  lemma CollectionsRoundTrip(ts: seq<Tree>, ms: seq<Monster>, cs: seq<Coin>, ps: seq<Platform>, now: int)
    requires forall t :: t in ts ==> Trees.WellFormed(t) && t.coinsOnCut == CoinsPerTreeCut
    requires forall c :: c in cs ==> Coins.WellFormed(c)
    ensures LoadTrees(SaveTrees(ts)) == ts
    ensures LoadCoins(SaveCoins(cs)) == cs
    ensures |LoadMonsters(SaveMonsters(ms), now)| == |ms|
    ensures forall i :: 0 <= i < |ms| ==> LoadMonsters(SaveMonsters(ms), now)[i].kind.Dragon? == ms[i].kind.Dragon?
    ensures LoadPlatforms(SavePlatforms(ps)) == seq(|ps|, i requires 0 <= i < |ps| => Platform(ps[i].rect.(w := 1, h := 1)))
  {
    forall i | 0 <= i < |ts| ensures LoadTrees(SaveTrees(ts))[i] == ts[i] {
      Trees.RoundTrip(ts[i]);
    }
    forall i | 0 <= i < |cs| ensures LoadCoins(SaveCoins(cs))[i] == cs[i] {
      Coins.RoundTrip(cs[i]);
    }
    forall i | 0 <= i < |ms| ensures LoadMonsters(SaveMonsters(ms), now)[i].kind.Dragon? == ms[i].kind.Dragon? {
      SaveLoadKeepsKind(ms[i], now);
    }
    forall i | 0 <= i < |ps| ensures LoadPlatforms(SavePlatforms(ps))[i] == Platform(ps[i].rect.(w := 1, h := 1)) {
      RoundTripLosesSize(ps[i]);
    }
  }

  // ---------------------------------------------------------------- initial layout

  /** A tree of the initial layout: on the ground, x = randint(100, SCREEN_WIDTH - 200). */
  predicate PlacedTree(t: Tree) {
    t == NewTree(t.rect.x, GroundLevel - TreeHeight) && 100 <= t.rect.x <= ScreenWidth - 200
  }

  /** A walker of the initial layout: on the ground, x = randint(150, SCREEN_WIDTH - 150). */
  predicate PlacedMonster(m: Monster) {
    m == NewMonster(m.rect.x, GroundLevel - MonsterHeight) && 150 <= m.rect.x <= ScreenWidth - 150
  }

  const NoRecord := MonsterRecord(None, None, None, None, None, None, None, None, None, None)

  /** The three platforms of the initial layout. */
  const InitialPlatforms := [Platform(Rect(ScreenWidth / 4 - 100, GroundLevel - 150, 150, 30)),
                             Platform(Rect(ScreenWidth / 2 - 75, GroundLevel - 250, 150, 30)),
                             Platform(Rect(ScreenWidth * 3 / 4 - 50, GroundLevel - 350, 100, 30))]

  datatype EnvState = EnvState(trees: seq<Tree>, coins: seq<Coin>, monsters: seq<Monster>, platforms: seq<Platform>)

  // ---------------------------------------------------------------- the object

  class Environment {
    var trees: seq<Tree>
    var coins: seq<Coin>
    var monsters: seq<Monster>
    var platforms: seq<Platform>

    function State(): EnvState
      reads this
    {
      EnvState(trees, coins, monsters, platforms)
    }

    /** Every tree and monster is wide enough for the coin jitter range. */
    ghost predicate Valid()
      reads this
    {
      (forall i :: 0 <= i < |trees| ==> trees[i].rect.w >= CoinMargin)
      && (forall i :: 0 <= i < |monsters| ==> monsters[i].rect.w >= CoinMargin)
    }

    /** Environment(initial_data=d): restored from a non-empty record, generated otherwise. */
    constructor(d: EnvRecord, now: int)
      ensures Valid()
      ensures d.IsEmpty() ==> Fresh(State(), now)
      ensures !d.IsEmpty() ==> State() == Loaded(d, now)
    {
      trees, coins, monsters, platforms := [], [], [], [];
      new;
      if d.IsEmpty() {
        GenerateInitialElements(now);
      } else {
        FromDict(d, now);
      }
    }

    /** _generate_initial_elements: three trees and two walkers at random x on the ground,
        the dragon at (SCREEN_WIDTH // 4, 150), and the three platforms. */
    method GenerateInitialElements(now: int)
      requires Valid()
      modifies this
      ensures Valid()
      ensures |trees| == |old(trees)| + 3 && trees[..|old(trees)|] == old(trees)
      ensures forall i :: |old(trees)| <= i < |trees| ==> PlacedTree(trees[i])
      ensures |monsters| == |old(monsters)| + 3 && monsters[..|old(monsters)|] == old(monsters)
      ensures forall i :: |old(monsters)| <= i < |monsters| - 1 ==> PlacedMonster(monsters[i])
      ensures monsters[|monsters| - 1] == NewDragon(ScreenWidth / 4, 150, NoRecord, now)
      ensures platforms == old(platforms) + InitialPlatforms
      ensures coins == old(coins)
    {
      var k := 0;
      while k < 3
        invariant 0 <= k <= 3 && |trees| == |old(trees)| + k && trees[..|old(trees)|] == old(trees)
        invariant forall i :: |old(trees)| <= i < |trees| ==> PlacedTree(trees[i])
        invariant forall i :: 0 <= i < |trees| ==> trees[i].rect.w >= CoinMargin
        invariant monsters == old(monsters) && platforms == old(platforms) && coins == old(coins)
      {
        var x :| 100 <= x <= ScreenWidth - 200;
        trees := trees + [NewTree(x, GroundLevel - TreeHeight)];
        k := k + 1;
      }
      ghost var placedTrees := trees;
      k := 0;
      while k < 2
        invariant 0 <= k <= 2 && |monsters| == |old(monsters)| + k && monsters[..|old(monsters)|] == old(monsters)
        invariant forall i :: |old(monsters)| <= i < |monsters| ==> PlacedMonster(monsters[i])
        invariant forall i :: 0 <= i < |monsters| ==> monsters[i].rect.w >= CoinMargin
        invariant trees == placedTrees && platforms == old(platforms) && coins == old(coins)
      {
        var x :| 150 <= x <= ScreenWidth - 150;
        monsters := monsters + [NewMonster(x, GroundLevel - MonsterHeight)];
        k := k + 1;
      }
      monsters := monsters + [NewDragon(ScreenWidth / 4, 150, NoRecord, now)];
      platforms := platforms + [Platform(Rect(ScreenWidth / 4 - 100, GroundLevel - 150, 150, 30))];
      platforms := platforms + [Platform(Rect(ScreenWidth / 2 - 75, GroundLevel - 250, 150, 30))];
      platforms := platforms + [Platform(Rect(ScreenWidth * 3 / 4 - 50, GroundLevel - 350, 100, 30))];
    }

    /** update(player_rect): every monster updates (a Dragon with the player's rect), the
        coins fall, then cut trees and dead monsters are removed, each leaving its coins. */
    method Update(player: Rect, now: int) returns (ghost fromTrees: seq<Coin>, ghost fromMonsters: seq<Coin>)
      requires Valid()
      modifies this
      ensures Valid()
      ensures monsters == Living(StepAll(old(monsters), player, now))
      ensures trees == Standing(old(trees))
      ensures coins == Coins.UpdateAll(old(coins)) + fromTrees + fromMonsters
      ensures SpawnedFor(TreeSources(old(trees)), fromTrees)
      ensures SpawnedFor(MonsterSources(StepAll(old(monsters), player, now)), fromMonsters)
      ensures platforms == old(platforms)
    {
      UpdateMonsters(player, now);
      coins := Coins.UpdateAll(coins);
      fromTrees := RemoveCutTrees();
      fromMonsters := RemoveDeadMonsters();
    }

    /** The loop over the monsters, dispatching on the kind. */
    method UpdateMonsters(player: Rect, now: int)
      requires Valid()
      modifies this
      ensures Valid()
      ensures monsters == StepAll(old(monsters), player, now)
      ensures trees == old(trees) && coins == old(coins) && platforms == old(platforms)
    {
      var i := 0;
      while i < |monsters|
        invariant 0 <= i <= |monsters| == |old(monsters)|
        invariant forall j :: 0 <= j < i ==> monsters[j] == Step(old(monsters)[j], player, now)
        invariant forall j :: i <= j < |monsters| ==> monsters[j] == old(monsters)[j]
        invariant forall j :: 0 <= j < |monsters| ==> monsters[j].rect.w >= CoinMargin
        invariant trees == old(trees) && coins == old(coins) && platforms == old(platforms)
      {
        var m := monsters[i];
        if m.kind.Dragon? {
          monsters := monsters[i := DragonUpdate(m, player, now)];
        } else {
          monsters := monsters[i := Monsters.Update(m)];
        }
        i := i + 1;
      }
    }

    /** The removal of cut trees, each leaving its coins. */
    method RemoveCutTrees() returns (ghost spawned: seq<Coin>)
      requires Valid()
      modifies this
      ensures Valid()
      ensures trees == Standing(old(trees))
      ensures coins == old(coins) + spawned && SpawnedFor(TreeSources(old(trees)), spawned)
      ensures monsters == old(monsters) && platforms == old(platforms)
    {
      var ts, added := CutPass(trees);
      StandingKeepsWidth(trees);
      trees, coins := ts, coins + added;
      spawned := added;
    }

    /** The removal of dead monsters, each leaving its coins; its fireballs go with it. */
    method RemoveDeadMonsters() returns (ghost spawned: seq<Coin>)
      requires Valid()
      modifies this
      ensures Valid()
      ensures monsters == Living(old(monsters))
      ensures coins == old(coins) + spawned && SpawnedFor(MonsterSources(old(monsters)), spawned)
      ensures trees == old(trees) && platforms == old(platforms)
    {
      var ms, added := DeathPass(monsters);
      LivingKeepsWidth(monsters);
      monsters, coins := ms, coins + added;
      spawned := added;
    }

    /** to_dict: one record per sprite of each collection, in order. */
    function ToDict(): (d: EnvRecord)
      reads this
      ensures !d.IsEmpty() && d.trees.Some? && d.monsters.Some? && d.coins.Some? && d.platforms.Some?
      ensures |d.trees.value| == |trees| && forall i :: 0 <= i < |trees| ==> d.trees.value[i] == Trees.ToDict(trees[i])
      ensures |d.monsters.value| == |monsters| && forall i :: 0 <= i < |monsters| ==> d.monsters.value[i] == Save(monsters[i])
      ensures |d.coins.value| == |coins| && forall i :: 0 <= i < |coins| ==> d.coins.value[i] == Coins.ToDict(coins[i])
      ensures |d.platforms.value| == |platforms| && forall i :: 0 <= i < |platforms| ==> d.platforms.value[i] == Platforms.ToDict(platforms[i])
    {
      EnvRecord(Some(SaveTrees(trees)), Some(SaveMonsters(monsters)), Some(SaveCoins(coins)),
                Some(SavePlatforms(platforms)))
    }

    /** from_dict: each collection is emptied and rebuilt from its list (a missing list is
        empty); a monster record tagged "Dragon" builds a Dragon, any other a Monster. */
    method FromDict(d: EnvRecord, now: int)
      modifies this
      ensures State() == Loaded(d, now) && Valid()
    {
      trees := [];
      var treeData := d.trees.GetOr([]);
      var i := 0;
      while i < |treeData|
        invariant 0 <= i <= |treeData| && trees == LoadTrees(treeData[..i])
      {
        trees := trees + [Trees.Restore(treeData[i])];
        i := i + 1;
      }
      assert treeData[..i] == treeData;

      monsters := [];
      var monsterData := d.monsters.GetOr([]);
      i := 0;
      while i < |monsterData|
        invariant 0 <= i <= |monsterData| && monsters == LoadMonsters(monsterData[..i], now)
        invariant trees == LoadTrees(treeData)
      {
        var md := monsterData[i];
        if md.tag.GetOr("Monster") == "Dragon" {
          monsters := monsters + [NewDragon(0, 0, md, now)];
        } else {
          monsters := monsters + [Monsters.Restore(md)];
        }
        i := i + 1;
      }
      assert monsterData[..i] == monsterData;

      coins := [];
      var coinData := d.coins.GetOr([]);
      i := 0;
      while i < |coinData|
        invariant 0 <= i <= |coinData| && coins == LoadCoins(coinData[..i])
        invariant trees == LoadTrees(treeData) && monsters == LoadMonsters(monsterData, now)
      {
        coins := coins + [Coins.Restore(coinData[i])];
        i := i + 1;
      }
      assert coinData[..i] == coinData;

      platforms := [];
      var platformData := d.platforms.GetOr([]);
      i := 0;
      while i < |platformData|
        invariant 0 <= i <= |platformData| && platforms == LoadPlatforms(platformData[..i])
        invariant trees == LoadTrees(treeData) && monsters == LoadMonsters(monsterData, now)
        invariant coins == LoadCoins(coinData)
      {
        platforms := platforms + [Platforms.Restore(platformData[i])];
        i := i + 1;
      }
      assert platformData[..i] == platformData;
    }
  }

  /** The collections a record restores to. */
  function Loaded(d: EnvRecord, now: int): (s: EnvState)
    ensures |s.trees| == |d.trees.GetOr([])| && |s.monsters| == |d.monsters.GetOr([])|
    ensures |s.coins| == |d.coins.GetOr([])| && |s.platforms| == |d.platforms.GetOr([])|
  {
    EnvState(LoadTrees(d.trees.GetOr([])), LoadCoins(d.coins.GetOr([])),
             LoadMonsters(d.monsters.GetOr([]), now), LoadPlatforms(d.platforms.GetOr([])))
  }

  /** A generated level: three placed trees, two placed walkers and the dragon, the three
      platforms, and no coins. */
  predicate Fresh(s: EnvState, now: int) {
    |s.trees| == 3 && (forall i :: 0 <= i < 3 ==> PlacedTree(s.trees[i]))
    && |s.monsters| == 3 && (forall i :: 0 <= i < 2 ==> PlacedMonster(s.monsters[i]))
    && s.monsters[2] == NewDragon(ScreenWidth / 4, 150, NoRecord, now)
    && s.platforms == InitialPlatforms && s.coins == []
  }
}
