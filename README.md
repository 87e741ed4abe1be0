# The Growing Sword: a verified model of the game core

"A Lenda da Espada Crescente" is a single-screen pygame side-scroller. The player walks and
jumps over a green ground strip. Each frame the player's sword eases back to rest, and a
left or right key press starts a 20-frame overhead swing.

- A swinging sword cuts trees and hurts monsters. Both pay coins when they fall.
- A swinging sword also repels the dragon's fireballs, which then hurt whatever monster they hit next.
- Every 5 coins raise the sword one level, which gives it more damage and a longer blade.
- A monster touching the player hurts them, at most once per second of cooldown.
- Unrepelled fireballs hurt the player.
- The game is lost at 0 health, and the game scene can be saved to a dictionary and restored from it.

This project models that core in Dafny:

- One module per game file: `Swords`, `Players`, `Monsters`, `Dragons`, `Projectiles`,
  `Trees`, `Coins`, `Platforms`, `Environments` and `Scenes` (the game scene, `cena_jogo.py`).
- Shared modules: `Settings` (the tuning constants), `Geometry` (pygame's rectangles) and
  `Dicts` (the optional keys of a saved dictionary).
- `Seqs` holds two sequence helpers.

How each entity is modelled:

- Sword, player, environment and game scene are objects whose methods update their fields
  in place. Each is a `class` with the source's fields.
  - Each class has a `State()` snapshot. Each method is proved equal to a pure step function
    of the old state: `State() == Tick(old(State()), …)`.
  - The game's promises are lemmas about those step functions.
- Trees, coins, platforms, monsters, dragons and fireballs are values held in the
  environment's sequences.
- A dragon is a monster whose `kind` is `Dragon(...)`. The kind carries the dragon's facing
  flag, its last fireball time and its own fireballs.

What is proved:

- **Sword.** Growth is idempotent and monotone in the coin count. A swing follows the
  straight line from 225° to 45° (or 315° to 135°) in 9° steps and ends on frame 20. An idle
  blade reaches its resting angle within 26 updates without overshooting. Repelling a
  fireball reverses it at 1.5 times its speed.
- **Player.** The player stays on screen. There is one swing per key hold. The sword level
  always equals coins / 5 when coins never go down. Damage clamps at 0 and adds up. Saving
  then loading keeps position, health, coins, facing and sword level.
- **Monsters and dragons.** A patrolling monster never strays more than one step past its walk limits. A dragon chases
  or patrols according to how far away the player is. It fires at most once per cooldown,
  from an asymmetric mouth offset. Saving a dragon keeps its kind.
- **Scene.** After a frame the player's health is still ≥ 0, their level still matches their
  coins, and every coin value is still ≥ 0, whatever the events, clock or random offsets.
  Contact damage is the total of every overlapping live monster's damage and respects the
  cooldown. No fireball is left overlapping the player or a live monster.

## Model

| member | source | states |
|---|---|---|
| Geometry.ToRectInt | player.py:105 | storing a real in a Rect field gives it back when it is whole, otherwise an integer less than 1 away |
| Geometry.Hypot | projectile.py:37-42 | the distance to the target is ≥ 0 and is 0 exactly when the offset is (0, 0) |
| Geometry.ClampX | player.py:101 | max(lo, min(v, hi)) lies in [lo, hi] and leaves an in-range value alone |
| Geometry.Fall | player.py:103-112 | gravity moves only y; the rect lands on the ground with zero velocity exactly when its bottom would reach the ground; otherwise it moves by the new velocity; it never ends below the ground |
| Projectiles.NewProjectile | projectile.py:10-57 | a new fireball is active, unrepelled, centred on its origin, and heads along the unit vector to the target, or stands still when the target is its origin |
| Projectiles.Update | projectile.py:59-73 | an inactive fireball is unchanged; an active one moves by direction × speed and stays active exactly when it still meets the screen; only position and activity change |
| Projectiles.UpdateAll | dragon.py:116 | every projectile of the group is updated once, in order |
| Projectiles.DeactivationIsFinal | projectile.py:59-73 | after any number of updates, an inactive fireball is unchanged, an active one was active all along, and the repelled flag and damage never change |
| Projectiles.Hits | cena_jogo.py:89 | the projectiles overlapping a rect, in order: q is in the result iff q is in the group and overlaps |
| Projectiles.Misses | cena_jogo.py:89 | what spritecollide with dokill leaves in the group: q is in the result iff q is in the group and does not overlap |
| Projectiles.HitsAndMissesPartition | cena_jogo.py:89 | hits and misses together are exactly the group, as a multiset |
| Swords.Grow | sword.py:45-56 | the level becomes max(old level, coins / 5); damage and blade height follow a new level; an unchanged level changes nothing |
| Swords.GrowIdempotentAndMonotone | sword.py:45-56 | growing twice with the same total is growing once; more coins never give a lower level; growths combine as the maximum |
| Swords.BeginSwing | sword.py:58-72 | a swing in progress is not restarted; otherwise the sword swings and attacks, takes the direction's start and end angles, starts at frame 0 on the start angle, and keeps its level |
| Swords.Tick | sword.py:76-107 | a swing advances one frame and ends exactly at frame 20 on its end angle, no longer attacking; an idle sword stays idle, is not attacking, and its angle stays in [0, 360) |
| Swords.SwingInvariantPreserved | sword.py:58-107 | starting a swing, each update and each growth keep the swing on its interpolation line, and a new sword satisfies this |
| Swords.SwingTrajectory | sword.py:76-86 | k updates after a swing starts, the blade is at start angle − 9k (for k < 20); at the 20th update the swing is over at the end angle |
| Swords.IdleStep | sword.py:88-107 | an idle blade within 7° of rest snaps to it; otherwise its short-way gap to rest shrinks by exactly 7 |
| Swords.IdleSettles | sword.py:88-107 | n idle updates with 7n ≥ the gap bring the blade exactly to its resting angle |
| Swords.IdleSettlesWithin26 | sword.py:88-107 | any idle blade rests after 26 updates |
| Swords.Repel | sword.py:133-147 | a repelled fireball reverses direction, goes 1.5× faster, is marked repelled, and carries the sword's current damage; its rect and own damage are kept |
| Swords.Sword.constructor | sword.py:7-42 | a new sword is at level 0 with base damage and blade, idle at angle 0 |
| Swords.Sword.TryGrowByCoins | sword.py:45-56 | the new state is Grow of the old one, and the swing invariant is kept |
| Swords.Sword.StartSwing | sword.py:58-72 | the new state is BeginSwing of the old one, and the swing invariant is kept |
| Swords.Sword.Update | sword.py:76-107 | the new state is Tick of the old one, and the swing invariant is kept |
| Swords.Sword.GetDamage | sword.py:130-131 | returns the current damage |
| Swords.Sword.RepelProjectile | sword.py:133-147 | returns the projectile as Repel with this sword's state makes it |
| Trees.TakeHit | tree.py:34-52 | a cut tree takes nothing and pays 0; otherwise health drops by the damage, the tree is cut iff health ≤ 0, and coins are paid only on the hit that cuts it |
| Trees.NewTree | tree.py:8-32 | a new tree is 120×180 at (x, y) with health 3, pays COINS_PER_TREE_CUT and is standing |
| Trees.HitAll | tree.py:34-52 | hits in turn keep rect and reward, and leave a cut tree as it was |
| Trees.CoinsPaidOnce | tree.py:42-52 | over any sequence of hits, a tree pays its coins once, on the cutting hit |
| Trees.ThreeUnitHits | tree.py:27-52 | a new tree survives two hits of 1 and is cut by the third, paying 1 coin |
| Trees.Restore | tree.py:8-32 | Tree(0, 0, initial_data) is a well-formed tree paying COINS_PER_TREE_CUT |
| Trees.RoundTrip | tree.py:63-77 | restoring a saved well-formed tree gives the same tree |
| Trees.ToDict | tree.py:63-70 | the saved dictionary is non-empty and holds x, y, health and the cut flag |
| Trees.FromDict | tree.py:72-77 | each present key replaces its field and a missing one keeps it; size and reward never change |
| Trees.MissingKeysKeep | tree.py:72-77 | each key missing from the dictionary keeps its field, and the size never changes |
| Coins.Update | coin.py:38-52 | a collected coin is unchanged; a falling coin moves only vertically, never below the ground; it lands on the ground with zero velocity exactly when its bottom would reach the ground, and otherwise moves by its velocity plus gravity |
| Coins.NewCoin | coin.py:9-36 | a new coin is 40×40 at (x, y) with its value, not collected, at rest |
| Coins.UpdateAll | environment.py:78 | every coin of the group is updated once, in order |
| Coins.RestingCoinStays | coin.py:38-52 | a coin at rest on the ground stays put |
| Coins.Restore | coin.py:9-36 | Coin(0, 0, initial_data) is a well-formed coin of the standard 40×40 size |
| Coins.RoundTrip | coin.py:63-79 | restoring a saved coin gives the same coin |
| Coins.ToDict | coin.py:63-71 | the saved dictionary is non-empty and holds x, y, value, the collected flag and the velocity |
| Coins.FromDict | coin.py:73-79 | each present key replaces its field; a missing one keeps it, except a missing velocity, which reads 0.0; the size never changes |
| Coins.MissingKeys | coin.py:73-79 | a missing key keeps its field, except that a missing velocity reads as 0.0 |
| Platforms.Restore | environment.py:129-131 | a platform loaded from a dictionary takes its x and y and stays 1×1 |
| Platforms.ToDict | platform.py:37-44 | the saved dictionary is non-empty and holds x, y, width and height |
| Platforms.FromDict | platform.py:46-52 | present x and y replace the position, missing ones keep it, and width and height never change |
| Platforms.FromDictKeepsSize | platform.py:46-52 | from_dict never changes width or height, and missing keys keep x and y |
| Platforms.RoundTripLosesSize | platform.py:37-52 | save then load gives a 1×1 platform at the same place, so it is exact iff the platform was 1×1 |
| Monsters.Construct | monster.py:8-43 | a new monster is alive, facing right, 90×90 at (x, y), with the given speed, health and damage, walk limits ±100 around its patrol start x, monster gravity, zero velocity, COINS_PER_MONSTER_KILL and a plain kind |
| Monsters.NewMonster | monster.py:8-43 | a monster with the default speed 2, health 20 and damage 5 is alive, 90×90 at (x, y), patrols from x and starts inside the patrol invariant: heading right within its walk limits, and at most one step past a limit thereafter |
| Monsters.TakeDamage | monster.py:49-67 | a dead monster takes nothing; otherwise health drops, it dies iff health ≤ 0, and pays its coins only on the killing blow; rect and kind are kept |
| Monsters.Update | monster.py:69-94 | a dead monster is unchanged; a live one steps speed × direction, turns at its walk limits, falls under gravity onto the ground, keeps its size, and stays alive |
| Monsters.Turn | monster.py:80-84 | the direction flips to −1 when moving right at or past the right limit and to 1 when moving left at or past the left limit, and only then |
| Monsters.PatrolStaysConfined | monster.py:77-84 | a new monster is confined, every update keeps it so, and it never walks more than 100 + speed from its patrol start |
| Monsters.RestingMonsterStays | monster.py:86-94 | a live monster at rest on the ground keeps its height and zero velocity |
| Monsters.ToDict | monster.py:110-122 | the saved dictionary is tagged "Monster", has no fireball time, and holds x, y, health, liveness, speed, damage, direction and patrol start with the monster's own values |
| Monsters.Assign | monster.py:124-136 | each present key replaces its field and a missing one keeps it, for x, y, health, liveness, speed, damage, direction and patrol start; the walk limits are recomputed from the patrol start; nothing else changes |
| Monsters.FromDict | monster.py:124-160 | after assigning, a live monster also takes one update step |
| Monsters.Restore | monster.py:8-46 | a loaded monster is a plain 90×90 monster with walk limits from its patrol start, monster gravity and COINS_PER_MONSTER_KILL |
| Monsters.RoundTrip | monster.py:110-160 | loading a saved monster gives it after one update with its velocity reset to 0; a dead one at rest comes back unchanged |
| Monsters.LoadMovesLiveMonster | monster.py:141-160 | a new monster at x = 300 comes back at x = 302, so loading is not the identity |
| Monsters.MissingKeysKeep | monster.py:124-136 | each missing key keeps its field: x, y, health, liveness, speed, damage, direction and patrol start |
| Dragons.Settle | dragon.py:22-60 | after the dragon's own setup it is 250×200 at (x, y), patrols from x, has no fireballs, no gravity, its timer at now, and pays COINS_PER_DRAGON_KILL |
| Dragons.DragonFromDict | dragon.py:155-159 | the monster keys are restored as for a monster, and the fireball time is taken from the dictionary or the clock |
| Dragons.NewDragon | dragon.py:12-63 | a new dragon is 250×200, without gravity or fireballs, with the flipped-image flag clear; a saved one takes its fireball time from the record |
| Dragons.Fireball | dragon.py:118-133 | the fireball is centred at centre x + width // 3 (facing right) or + (−width) // 3 (facing left) and at top + height // 4; it is active, unrepelled, with speed 7 and the dragon's damage, and its unit direction times the distance equals the offset from its centre to the target |
| Dragons.DragonUpdate | dragon.py:65-116 | a dead dragon only moves its fireballs; a live one keeps its height, stays on screen, fires exactly when Fires holds, and moves every old fireball once |
| Dragons.FacingFollowsPlayer | dragon.py:81-87 | the facing follows the sign of dx, and is unchanged when dx = 0 |
| Dragons.ChaseStep | dragon.py:90-111 | within detection range the dragon steps speed towards the player (clamped to the screen) and keeps its patrol direction |
| Dragons.PatrolStep | dragon.py:102-111 | outside detection range the dragon never fires, steps speed × direction, and turns at patrol start ± 200 |
| Dragons.FiredFireball | dragon.py:97-116 | the new fireball is the one built from the moved rect and new facing, then updated once |
| Dragons.FireOriginIsAsymmetric | dragon.py:129-130 | the fireball starts 83 px right of centre when facing right, but 84 px left when facing left |
| Dragons.OneShotPerCooldown | dragon.py:98-101 | after firing, the dragon cannot fire again within the 1500 ms cooldown |
| Dragons.Fires | dragon.py:75-101 | the dragon fires exactly when it is alive, the player is within the detection range, and more than 1500 ms have passed since its last fireball |
| Dragons.Step | environment.py:72-76 | a dragon takes the dragon update and any other monster the monster update; life, kind, size and reward are kept |
| Dragons.DragonToDict | dragon.py:146-153 | the dictionary is non-empty, tagged "Dragon", holds the last fireball time and every monster key with the dragon's own value |
| Dragons.Save | environment.py:100 | every monster saves a non-empty dictionary, tagged by its kind |
| Dragons.Load | environment.py:118-123 | a "Dragon" tag loads a dragon, and anything else a monster |
| Dragons.DragonStaysWellFormed | dragon.py:58-116 | a dragon's size, reward and patrol limits survive any update |
| Dragons.SaveLoadKeepsKind | environment.py:118-123 | save then load keeps whether a monster is a dragon |
| Dragons.DragonRoundTrip | dragon.py:146-159 | loading a saved dragon gives it back updated once, without fireballs, unflipped, with its fireball time |
| Players.Input | player.py:52-84 | each key sets exactly its own flags: a left/right press sets movement and facing and starts a swing only when none is under way, marking it as started by movement; a release clears its movement flag and the swing mark; Space starts a jump only from the ground; any other key changes nothing; rect, health, coins and sword level are never changed |
| Players.HeldKeyStartsOneSwing | player.py:59-70 | a second arrow press while the first is held does not start another swing |
| Players.Collided | player.py:120 | the platforms overlapping the player, with every overlapping platform included |
| Players.CollidedInOrder | player.py:120 | the collided rects are the rects of exactly the overlapping platforms, in group order |
| Players.FirstWhere | player.py:124-143 | the loop with break picks the first platform meeting its test, or none |
| Players.Collide | player.py:120-143 | falling onto a platform top lands there; rising into a platform bottom bumps down from it; otherwise nothing changes; only y moves |
| Players.Advance | player.py:87-146 | the update walks and clamps x, applies gravity and the ground, resolves platforms, and ticks the sword with the facing; nothing else changes |
| Players.StaysOnScreen | player.py:100-101 | after an update the player is within the screen, and does not move sideways without exactly one arrow held |
| Players.VelocityAfterUpdate | player.py:103-143 | velocity after an update is the old one plus gravity, or 0 |
| Players.StandingStill | player.py:93-143 | a player at rest on the ground without arrows stays put and is not jumping |
| Players.Collect | player.py:163-171 | coins rise by the amount and nothing but coins and sword changes; the sword level becomes max(old level, coins / 5), a new level brings damage 5 + 2 × level, an unchanged level leaves the sword as it was, and a consistent sword stays consistent |
| Players.CollectAll | player.py:163-171 | a run of collections adds the exact sum of the amounts |
| Players.LevelFollowsCoins | player.py:163-171 | with non-negative amounts the sword level stays coins / 5, and damage is 5 + 2 × level |
| Players.NewPlayerMatches | player.py:10-47 | a new player's sword level matches their 0 coins |
| Players.NewPlayer | player.py:10-47 | a new player is 80×110 at (x, y) with full health and 0 coins, facing right, not moving, not jumping, at rest, with a new sword |
| Players.Damaged | player.py:173-181 | health drops by the amount, but never below 0; nothing else changes |
| Players.DamageAccumulates | player.py:173-181 | two hits of a and b equal one hit of a + b |
| Players.Record | player.py:184-194 | the saved dictionary is non-empty and holds x, y, health, coins, facing, sword level and sword damage, each equal to the player's own |
| Players.Restored | player.py:196-206 | present keys replace position, health, coins and facing; the sword is reset to the saved level and damage and regrown with the coins |
| Players.Construct | player.py:10-50 | an empty record gives the new player, and any other the restored one |
| Players.RoundTrip | player.py:184-206 | restoring a saved player gives back position, health, coins and facing; the sword keeps its level and damage when the level is at least coins / 5, and otherwise regrows to coins / 5; the blade keeps the height of the player restored into |
| Players.LoadedBladeIsBase | player.py:204-206 | a loaded player's sword has the right level but the base blade height, which differs from the saved one above level 0 |
| Players.Player.constructor | player.py:10-50 | the new state is Construct of the position and record |
| Players.Player.HandleInput | player.py:52-84 | the new state is Input of the old state and the event |
| Players.Player.Update | player.py:87-146 | the new state is Advance of the old state and the platforms |
| Players.Player.Walk | player.py:95-101 | only x changes: it moves by the held arrow and is clamped to the screen |
| Players.Player.ApplyGravity | player.py:103-112 | y and velocity follow Fall, and landing on the ground ends the jump |
| Players.Player.ResolvePlatforms | player.py:120-143 | rect, velocity and jump flag follow Collide on the overlapping platforms |
| Players.Player.CollectCoin | player.py:163-171 | the new state is Collect of the old state and the amount |
| Players.Player.TakeDamage | player.py:173-181 | the new state is Damaged of the old state and the amount |
| Players.Player.ToDict | player.py:184-194 | returns Record of the state |
| Players.Player.FromDict | player.py:196-206 | the new state is Restored of the old state and the record |
| Environments.Standing | environment.py:81-87 | the uncut trees, in order, never more than before |
| Environments.Living | environment.py:89-95 | the live monsters, in order, never more than before |
| Environments.SpawnedCoins | environment.py:81-95 | the spawned coins number one per coin owed by each felled entity; each is worth 1, falls from rest, and lies within the width and at a quarter of the height of its source |
| Environments.StepAll | environment.py:72-76 | every monster is stepped once, in order, with the player's rect and the clock |
| Environments.StandingIsUncut | environment.py:81-87 | a tree remains iff it was there and is not cut |
| Environments.LivingIsAlive | environment.py:89-95 | a monster remains iff it was there and is alive |
| Environments.SaveTrees | environment.py:99 | every tree is saved, in order |
| Environments.SaveMonsters | environment.py:100 | every monster is saved by its own to_dict, in order |
| Environments.SaveCoins | environment.py:101 | every coin is saved, in order |
| Environments.SavePlatforms | environment.py:102 | every platform is saved, in order |
| Environments.LoadTrees | environment.py:113-115 | every record becomes Tree(0, 0, record), in order |
| Environments.LoadMonsters | environment.py:117-123 | every record becomes a dragon or a monster by its tag, in order |
| Environments.LoadCoins | environment.py:125-127 | every record becomes Coin(0, 0, record), in order |
| Environments.LoadPlatforms | environment.py:129-131 | every record becomes Platform(0, 0, 1, 1, record), in order |
| Environments.CollectionsRoundTrip | environment.py:97-131 | tree and coin lists survive save and load exactly; monsters keep their number and kinds; platforms come back 1×1 |
| Environments.Loaded | environment.py:111-131 | the loaded environment has one entity per record, and a missing key means an empty collection |
| Environments.Scatter | environment.py:83-86 | returns max(0, count) coins, each worth 1 and at rest, within the source's width less 30 and a quarter of its height down |
| Environments.CutPass | environment.py:81-87 | the trees left are exactly the uncut ones, in order, and the coins returned are those owed, one batch per cut tree in order |
| Environments.DeathPass | environment.py:89-95 | the monsters left are exactly the live ones, in order, and the coins returned are those owed, one batch per dead monster in order |
| Environments.Environment.constructor | environment.py:15-30 | an empty record makes a fresh level, and any other is loaded |
| Environments.Environment.GenerateInitialElements | environment.py:32-61 | adds three trees and two monsters at random places in their ranges on the ground, the dragon at (320, 150) and the three platforms, and leaves coins alone |
| Environments.Environment.Update | environment.py:64-95 | monsters are stepped and the dead removed; coins fall; cut trees are removed; the new coins are spawned for the felled trees and monsters; platforms are kept |
| Environments.Environment.UpdateMonsters | environment.py:71-76 | steps every monster and changes nothing else |
| Environments.Environment.RemoveCutTrees | environment.py:81-87 | the remaining trees are the uncut ones, and coins are appended for each cut tree |
| Environments.Environment.RemoveDeadMonsters | environment.py:89-95 | the remaining monsters are the live ones, and coins are appended for each dead one |
| Environments.Environment.ToDict | environment.py:97-109 | the dictionary is non-empty, has all four collections, and each entry is the saved form of the entity at the same place |
| Environments.Environment.FromDict | environment.py:111-131 | every collection is replaced by the loaded one |
| Scenes.EventsKeepLevel | cena_jogo.py:34-44 | the frame's events keep level = coins / 5, add only the C and X bonuses, and leave health and rect alone |
| Scenes.AfterEvent | cena_jogo.py:34-44 | one event keeps rect and health, adds 1 coin for C, 10 for X and none otherwise, and is the player's own input handling for every other key |
| Scenes.AfterEvents | cena_jogo.py:34-44 | a run of events keeps rect and health and adds exactly the C and X coins |
| Scenes.SavesRestorePlayer | cena_jogo.py:45-50 | every save request, when restored, gives the player's position, health, coins and facing as they were when its S press was handled |
| Scenes.HitTrees | cena_jogo.py:61-65 | every tree keeps its rect and position in the group |
| Scenes.HitTreesEffect | cena_jogo.py:61-65 | a tree under the blade takes one hit of the sword's damage; any other is left as it was |
| Scenes.TreeGains | cena_jogo.py:61-65 | only positive coin gains are collected, one per tree |
| Scenes.TreeGainsAreFelled | cena_jogo.py:61-65 | the coins collected are the rewards of exactly the trees this hit cuts, in order |
| Scenes.HitMonsters | cena_jogo.py:67-71 | every monster keeps its rect and position in the group |
| Scenes.HitMonstersEffect | cena_jogo.py:67-71 | a monster under the blade takes the sword's damage; any other is left as it was |
| Scenes.MonsterGains | cena_jogo.py:67-71 | only positive coin gains are collected, one per monster |
| Scenes.MonsterGainsAreSlain | cena_jogo.py:67-71 | the coins collected are the rewards of exactly the monsters this hit kills, in order |
| Scenes.SlainSameLife | cena_jogo.py:67-78 | the kills counted depend only on which monsters are left alive, so repelling fireballs afterwards does not change them |
| Scenes.SwordPhaseGains | cena_jogo.py:58-78 | without an attack nothing happens; with one the player gains exactly the rewards of the trees cut and the monsters killed, nothing of the player but coins and sword changes, and coins, platforms, group sizes and the contact timer are kept |
| Scenes.RepelAll | cena_jogo.py:73-78 | the number of monsters is kept; each monster changes only in its kind; live dragons get their fireballs as RepelHits makes them, and every other monster, dead dragons included, is left alone |
| Scenes.RepelHits | cena_jogo.py:75-78 | exactly the fireballs under the blade and not yet repelled are repelled with the sword's state, the others are left alone; rects are kept, and afterwards every fireball under the blade is repelled |
| Scenes.DamageAll | cena_jogo.py:82-85 | a run of hits changes only health |
| Scenes.RepelledHits | cena_jogo.py:97-103 | a target struck by fireballs keeps its rect and kind, never comes back to life, and yields only positive coin gains |
| Scenes.RepelledHitsDamage | cena_jogo.py:97-103 | only repelled fireballs hurt a target, each by its repeller's damage: a live survivor loses their sum, a killed target has health ≤ 0, a dead one is unchanged, and the reward is paid once, exactly on the kill; nothing else of the target changes |
| Scenes.TargetStep | cena_jogo.py:95-103 | one target pass keeps every rect and kind, never revives a monster, changes only the source dragon's fireballs, and never moves the player |
| Scenes.Targets | cena_jogo.py:95-103 | the target loop keeps the same facts over any number of targets |
| Scenes.SourceStep | cena_jogo.py:87-103 | one source dragon's pass keeps the same facts |
| Scenes.Sources | cena_jogo.py:87-103 | the whole fireball loop keeps rects and kinds, never revives a monster, and never moves the player |
| Scenes.Values | cena_jogo.py:105-107 | the i-th value is the i-th picked coin's value |
| Scenes.UnrepelledDamagesCount | cena_jogo.py:89-92 | the player takes no fireball damage exactly when every fireball that hit them was repelled, and never more hits than fireballs |
| Scenes.CoinPhaseEffect | cena_jogo.py:105-107 | the player gains the values of the coins they touch and nothing else about them changes; the rest of the level and the timer are kept, and no coin left lies under the player |
| Scenes.CollectKeepsSound | player.py:163-171 | collecting non-negative amounts keeps health ≥ 0 and level = coins / 5 |
| Scenes.DamageKeepsSound | player.py:173-181 | any run of damage keeps the player sound and the coins unchanged |
| Scenes.DamageSums | cena_jogo.py:80-85 | a run of non-negative hits leaves health max(0, health − their sum) |
| Scenes.ContactCooldown | cena_jogo.py:80-85 | within the cooldown nothing happens; past it, the player loses the damage of every overlapping live monster (down to 0) and the timer restarts exactly when one hit; the level is untouched and only the player's health changes |
| Scenes.ContactDamagesFrom | cena_jogo.py:80-85 | every contact hit is the damage of a live monster overlapping the player |
| Scenes.ContactDamagesNone | cena_jogo.py:80-85 | there is no contact damage exactly when no live monster overlaps the player, and never more hits than monsters |
| Scenes.CoinPickup | cena_jogo.py:105-107 | picked and remaining coins split the list: a coin is picked iff it overlaps the player |
| Scenes.TargetsKeepSound | cena_jogo.py:95-103 | the target loop keeps the player sound |
| Scenes.SourcesKeepSound | cena_jogo.py:87-103 | the whole fireball loop keeps the player sound |
| Scenes.SourceStepKeepsSound | cena_jogo.py:88-103 | one dragon's turn keeps the player sound |
| Scenes.ResolveKeepsSound | cena_jogo.py:58-107 | the sword, contact, fireball and coin phases together keep the player sound |
| Scenes.TargetsClear | cena_jogo.py:95-103 | after the target loop, no fireball of the source overlaps a live target, and fireballs are only removed |
| Scenes.SourcesClear | cena_jogo.py:87-103 | after the loop over sources, no dragon's fireball overlaps the player or a live monster, and fireballs are only removed |
| Scenes.FireballsResolved | cena_jogo.py:87-103 | after the fireball phase no fireball overlaps the player or a live monster, its own dragon included; fireballs are only removed; the player does not move, the number of monsters, the rest of the level and the contact timer are kept |
| Scenes.FrameKeepsSound | cena_jogo.py:33-107 | a whole frame keeps health ≥ 0, level = coins / 5 and every coin value ≥ 0, whatever the events, clock, blade rect and random coin offsets |
| Scenes.ProgressedFrame | cena_jogo.py:34-54 | before the interactions, health is unchanged and coins rise by the cheat keys only; exactly the uncut trees remain, every monster left is alive, the old coins have fallen one step followed by the spawned ones, and platforms and timer are kept |
| Scenes.ResolveFrame | cena_jogo.py:56-107 | the interactions never move the player, keep the platforms and the numbers of trees and monsters, and leave the contact timer as it was or at now |
| Scenes.GameScene.constructor | cena_jogo.py:11-31 | without saved data, a new player at (600, 560) and a fresh level; with data, the player and environment are loaded from their entries; cooldown timer 0 |
| Scenes.GameScene.Atualizar | cena_jogo.py:33-112 | the new state is the events, the updates and the collision phases applied in the source's order; the scene leaves for the menu on Escape or at 0 health; one save request per S press |
| Scenes.GameScene.Progress | cena_jogo.py:34-54 | events, then the player update, then the environment update |
| Scenes.GameScene.Interact | cena_jogo.py:56-112 | the new state is Resolve of the old one: the sword, contact, fireball and coin phases; the scene leaves for the menu when health is 0 or less |
| Scenes.GameScene.HandleEvent | cena_jogo.py:35-50 | the player handles the event first; then Escape asks for the menu, C and X add 1 and 10 coins, and S appends a save request with the player's and the level's records |
| Scenes.GameScene.HandleEvents | cena_jogo.py:34-50 | each event goes first to the player, then to the scene's keys: Escape, the C and X bonuses, and S to save |
| Scenes.GameScene.SwordHits | cena_jogo.py:58-78 | the new state is SwordPhase of the old one |
| Scenes.GameScene.StrikeTrees | cena_jogo.py:61-65 | trees become HitTrees, the player collects the tree gains, and nothing else changes |
| Scenes.GameScene.StrikeEachTree | cena_jogo.py:61-65 | the loop over the trees leaves the group as HitTrees and the player as having collected the tree gains |
| Scenes.GameScene.StrikeTree | cena_jogo.py:62-65 | one tree becomes HitTree of itself, and the player collects what it pays |
| Scenes.GameScene.StrikeMonsters | cena_jogo.py:67-71 | monsters become HitMonsters, the player collects the monster gains, and nothing else changes |
| Scenes.GameScene.StrikeEachMonster | cena_jogo.py:67-71 | the loop over the monsters leaves the group as HitMonsters and the player as having collected the monster gains |
| Scenes.GameScene.StrikeMonster | cena_jogo.py:68-71 | one monster becomes HitMonster of itself, and the player collects what it pays |
| Scenes.GameScene.RepelFireballs | cena_jogo.py:73-78 | monsters become RepelAll with the sword's state, and nothing else changes |
| Scenes.GameScene.RepelEach | cena_jogo.py:75-78 | returns RepelHits of one dragon's fireballs |
| Scenes.GameScene.ContactHits | cena_jogo.py:80-85 | the new state is ContactPhase of the old one |
| Scenes.GameScene.ContactEach | cena_jogo.py:81-85 | the player takes every contact hit, and the result says whether there was one |
| Scenes.GameScene.FireballHits | cena_jogo.py:87-103 | the new state is FireballPhase of the old one |
| Scenes.GameScene.SourceTurn | cena_jogo.py:88-103 | the player and monsters become SourceStep of the old ones |
| Scenes.GameScene.BurnPlayer | cena_jogo.py:90-92 | the player takes the damage of every unrepelled fireball that hit them |
| Scenes.GameScene.TargetTurn | cena_jogo.py:95-103 | the player and monsters become TargetStep of the old ones |
| Scenes.GameScene.StrikeByFireballs | cena_jogo.py:97-103 | the target takes the repelled fireballs' damage, and the player collects what it pays |
| Scenes.GameScene.CoinPickups | cena_jogo.py:105-107 | the new state is CoinPhase of the old one |

## Left out

- Drawing, images, fonts, sounds and console output are not modelled. Asset-loading fallbacks change only appearance.
- The rotated blade rect and image (sword.py:110-125) are not computed, because they are pygame image rotation. `Atualizar` instead takes the blade's rect for the frame as the `swordRect` parameter.
- pygame's `colliderect` is the abstract `Geometry.Overlaps`.
- The rounding pygame applies when a Rect field is given a float is the abstract `RoundsUp`. It is constrained only to land within 1 of the value, and exactly on whole values.
- `math.hypot` is abstract apart from its sign and zero case.
- A rotated fireball's bounding box is abstract, apart from being centred on its origin.
- Floats are exact reals. Machine floating point is not modelled.
- `random.randint` becomes a nondeterministic choice in the methods. The contracts state only the allowed ranges, so random sequences are not modelled.
- `pygame.time.get_ticks()` becomes the `now` parameter, read once per frame. The source reads the clock separately in `Dragon.update` and in the scene. The model uses one reading for both.
- Leaving for the menu (`jogo.mudar_cena`) becomes the `toMenu` flag, and `jogo.save_game_state` becomes an appended save request. The main loop, menus, options and the save file (jogo.py, cena_menu.py, cena_opcoes.py, save_load.py) are not part of this model.
- Sprites are held by value in sequences, because no sprite is ever in two groups. pygame's object identity and aliasing are not modelled.
- The drafts under characters/ and world/ are not modelled. The root-level files are the classes the game scene builds with platforms and dragons.
- COINS_PER_DRAGON_KILL, which dragon.py imports, is absent from core/settings.py. It is left as an unconstrained natural number, `CoinsPerDragonKill`.
- `jogo.largura` and `jogo.altura` are taken to be SCREEN_WIDTH and SCREEN_HEIGHT, 1280×720. The new player's spawn point follows from that.
- Swords.Sword.RepelProjectile: drops the facing argument, because repel_projectile never reads it.
- Environments.Standing: its own contract states only a length bound; which trees remain is stated by Environments.StandingIsUncut.
- Environments.Living: its own contract states only a length bound; which monsters remain is stated by Environments.LivingIsAlive.
- Scenes.HitTrees: its own contract states only that rects and positions are kept; the effect of the hit on each tree is stated by Scenes.HitTreesEffect.
- Scenes.HitMonsters: its own contract states only that rects and positions are kept; the effect of the hit on each monster is stated by Scenes.HitMonstersEffect.
- Scenes.TreeGains: its own contract states only that the gains are positive; which trees pay is stated by Scenes.TreeGainsAreFelled.
- Scenes.MonsterGains: its own contract states only that the gains are positive; which monsters pay is stated by Scenes.MonsterGainsAreSlain.
- Scenes.RepelledHits: its own contract states only what a hit never changes; the damage and the reward are stated by Scenes.RepelledHitsDamage.
- Players.Collided: its own contract states only a length bound and which rects are included; that they are the platforms' own rects in group order is stated by Players.CollidedInOrder.
- Saved records carry only the keys the code reads. A dictionary holding only other keys is truthy in Python, so `Environment`, `Monster`, `Dragon`, `Tree`, `Coin`, `Platform` and `Player` would run their `from_dict` on it, but the model treats it as empty and builds the fresh entity. The game's own `to_dict` never writes such a dictionary.
- Environments.Scatter: requires the source to be at least 30 px wide, where randint would otherwise raise. Every tree, monster and dragon is wider than that.
- Monsters.RoundTrip: is not an identity. Loading runs one update step on a live monster and resets its velocity, because from_dict does both.
- Environments.CollectionsRoundTrip: for monsters it states only the count and kinds. Each monster and dragon is covered by Monsters.RoundTrip and Dragons.DragonRoundTrip.

## Behaviour of the code that the model keeps

These are points where the code behaves differently from what its comments or the game's design description say.
The model follows the code in each case, and a lemma states the result:

- A fireball is never removed from its dragon's group when it goes inactive, so it stays there, frozen.
- Contact damage is applied once per overlapping live monster in a frame past the cooldown, not once per frame. See Scenes.ContactCooldown.
- A dragon's own unrepelled fireball still inside its live body is removed by the target pass without damage. See Scenes.FireballsResolved.
- Loading a platform keeps the 1×1 placeholder size, despite the comment saying from_dict restores it. See Platforms.RoundTripLosesSize.
- Loading a player restores the sword's level and damage but not its blade height. See Players.LoadedBladeIsBase.
- The fireball's origin is 84 px left of centre but 83 px right of it, because Python's `-w // 3` floors. See Dragons.FireOriginIsAsymmetric.
