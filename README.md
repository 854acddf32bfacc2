# voxel-rouge-like: the run simulation, modelled in Dafny

voxel-rouge-like is a browser survival game. The hero walks a square map strewn with trees and
rocks. From day 2 on, monsters spawn around the hero and walk towards them. The hero attacks in a
half circle in front, uses two active skills (a spin attack and a dash), and may own auto skills
that fire by themselves: orbs, blades, a fireball, chain lightning, a poison aura and a frost nova.
Killing a monster pays experience, coins and a kill. Experience climbs run levels, and each
level-up offers three stat or item choices. Artifacts on the ground give experience, healing,
a level or a chest prize when the hero walks over them. When HP reaches 0 the run ends, and its
coins and experience go to the persistent account, which buys permanent stat upgrades in the
lobby.

This project models the simulation core of the game:

- the store, `src/store/gameStore.js`, as a pure value `State -> State` (module `GameStore`);
- the tables of `src/utils/constants.js` that the core reads (module `Config`);
- the map's obstacles and collision push-out, `src/world/Map.js` (module `WorldMap`);
- monsters and their manager, `src/game/Monster.js` (module `Monsters`);
- the hero, `src/game/Player.js` (module `Players`);
- the auto-skill engine, `src/game/AutoSkillManager.js` (module `AutoSkills`);
- artifacts and their manager, `src/game/Artifact.js` (module `Artifacts`);
- the frame loop and the collision pass, `src/game/Game.js` (module `Games`);
- the run record as the store writes it, compared with the record the game reads (module `RunFields`; see Findings).

The objects the source updates in place are Dafny classes: `Monster`, `MonsterManager`, `Player`,
`VoxelMap`, `Artifact`, `ArtifactManager`, `AutoSkillManager` and `Game`. Each method states its
new state through a specification function on values. A `MonsterView` is the value of one monster
(`Monster.View()`, `Views(ms)` for a list), and the lemmas about the game's rules are proved on
those values.

Things the game draws from outside become parameters:
- `Math.random` draws and the shuffle of the level-up options are inputs.
- `Math.sqrt`, `Math.cos` and `Math.sin` are functions passed in.
- A distance test `sqrt(d2) < r` is written as `d2 < r * r` (`Basics.Within`).
- `Date.now()` for the slime bounce is a parameter.
- Timers (`setTimeout`, `requestAnimationFrame` animations) that change game state are separate methods the caller runs when they fire: `FinishDash`, `EndHitInvincibility` and `Thaw`.
- The map's decoration draws (positions and scales of the 30 tree and 20 rock attempts) are an input of `VoxelMap`'s constructor.

Some behaviours of the code that the model reproduces as they are:
- `purchaseUpgrade` has no level cap (`GameStore.PurchaseUpgrade`).
- `endGame` has no guard against a second call, so a second hit after death pays the run's coins again (`GameStore.DeathPaysAgain`).
- `updateTimer` gives a new day the literal 60 s (`GameStore.UpdateTimer`).
- Hit invincibility and dash invincibility share one flag, and the first timer to fire clears it (`Players.Player.EndHitInvincibility`, `Players.Player.FinishDash`).
- Each orb or blade has one hit cooldown shared by all monsters (`AutoSkills.RingRateLimit`).

## Model

| member | source | states |
|---|---|---|
| Config.ExpToNext | src/utils/constants.js:43-46 | experience to the next level: the LEVEL_EXP entry for levels 1-19, `level * 100` beyond, never below 100 |
| Config.MonsterTable | src/utils/constants.js:49-116 | every monster kind has positive HP, speed, experience and coins, and none appears before day 2 |
| Config.SkillCooldown | src/utils/constants.js:192-225 | every active skill has a positive cooldown |
| Basics.ClampToMap | src/game/Player.js:130-132 | the clamp keeps a coordinate within the map's half size less 1, and leaves one already inside unchanged |
| GameStore.FreshRun | src/store/gameStore.js:83-97 | a new run is day 1, 30 s, level 1 with 0 experience and 100 to go, no kills, coins or cooldowns, and empty auto skills, passives and skill upgrades; it satisfies the run invariant when its stats do |
| GameStore.InitialState | src/store/gameStore.js:35-64 | the store starts in the lobby with no level-up choices, the loaded account and a valid run |
| GameStore.StartingStats | src/store/gameStore.js:68-81 | base stats plus permanent bonuses plus 10 HP per HP upgrade, 2 ATK per ATK upgrade and 1 DEF per DEF upgrade; HP starts full and at least the base maximum for a sane account |
| GameStore.StartGame | src/store/gameStore.js:67-103 | enters 'playing' with a fresh run built from the account, hides the level-up panel and keeps the account |
| GameStore.EndGame | src/store/gameStore.js:105-134 | enters 'gameover'; pays the run's coins into coins and total coins; raises the highest day; adds the run's experience (day*10 + kills*5 + level*20); the account gains a level exactly when the total reaches level*100, and then that much is spent |
| GameStore.RunExp | src/store/gameStore.js:110 | a run of day 1 or later at level 1 or higher is worth at least 30 account experience |
| GameStore.ReturnToLobby | src/store/gameStore.js:136-138 | enters the lobby and keeps run and account |
| GameStore.UpdateTimer | src/store/gameStore.js:141-164 | does nothing outside 'playing'; otherwise counts the timer down, and at or below zero moves to the next day with a 60 s timer; keeps the run invariant |
| GameStore.DamageAfterDefence | src/store/gameStore.js:169 | damage is the amount less defence, but at least 1 |
| GameStore.TakeDamage | src/store/gameStore.js:167-187 | HP drops by the damage after defence, floored at 0, so HP falls by at least 1 or ends at 0; at 0 the run ends (phase 'gameover'); the damage dealt is returned |
| GameStore.DeathPaysAgain | src/store/gameStore.js:105-134 | endGame has no guard: a second hit after death calls it again, and the run's coins are paid into the account twice |
| GameStore.Heal | src/store/gameStore.js:189-202 | HP rises by the amount but never above the maximum, and a non-negative heal never lowers HP; nothing else changes |
| GameStore.Climb | src/store/gameStore.js:214-219 | the level-up loop never lowers the level and stops below MAX_LEVEL only with the experience below the requirement; after a climb the requirement is that of the new level |
| GameStore.ClimbStep | src/store/gameStore.js:214-217 | one pass of the loop: spend the requirement, go up a level, take the next level's requirement |
| GameStore.ClimbStops | src/store/gameStore.js:214 | the loop does nothing when the experience is short or the level is at the cap |
| GameStore.GainExpSpec | src/store/gameStore.js:205-233 | outside 'playing' nothing changes; otherwise the level never drops, a level-up opens the level-up panel with three choices, no level-up leaves phase and choices alone, stats and counters are untouched, and the run invariant is kept |
| GameStore.GainExp | src/store/gameStore.js:205-233 | the store action with its while loop computes exactly GainExpSpec |
| GameStore.ClimbLoop | src/store/gameStore.js:209-219 | the while loop computes exactly Climb's experience, level and requirement |
| GameStore.OptionsDistinct | src/store/gameStore.js:242-258 | the twelve level-up options are pairwise distinct |
| GameStore.ShowLevelUpChoices | src/store/gameStore.js:235-269 | enters 'levelup' with the panel shown and three distinct choices, all drawn from the option list; run and account untouched |
| GameStore.BoostedStats | src/store/gameStore.js:276-287 | a boost changes HP and max HP only for a max-HP boost, which raises both by the same amount; a non-negative boost keeps HP within the maximum |
| GameStore.SelectLevelUpChoice | src/store/gameStore.js:271-298 | returns to 'playing' and clears the panel; only the stats change, skill choices change nothing, and a listed option keeps the run invariant |
| GameStore.AddCoins | src/store/gameStore.js:301-309 | the run's coins grow by the amount; nothing else changes |
| GameStore.AddKill | src/store/gameStore.js:312-320 | the kill count grows by one; nothing else changes |
| GameStore.SetUpgradeLevel | src/store/gameStore.js:357-360 | the named upgrade takes the new level and the other two keep theirs |
| GameStore.PurchaseUpgrade | src/store/gameStore.js:349-367 | succeeds exactly when the coins cover (level+1)*100; then pays that and raises that upgrade by one, else changes nothing; other upgrades, run, total coins and account level are kept, and coins never go negative |
| GameStore.SetSkillCooldown | src/store/gameStore.js:370-381 | the skill's cooldown becomes the time, other skills' are kept, and the key set gains the skill |
| GameStore.UpdateSkillCooldowns | src/store/gameStore.js:383-397 | every cooldown counts down by delta, floored at 0, with the same keys; they never become negative |
| WorldMap.FirstOverlap | src/world/Map.js:21-32 | the first obstacle from index k whose circle strictly overlaps the given circle; none exactly when no obstacle overlaps |
| WorldMap.CheckCollision | src/world/Map.js:21-32 | returns the first overlapping obstacle, or nothing exactly when no obstacle overlaps |
| WorldMap.PushOut | src/world/Map.js:39-59 | a position exactly on an obstacle's centre moves by less than 0.25 on each axis |
| WorldMap.ResolveCollision | src/world/Map.js:35-60 | no push exactly when there is no collision; otherwise the push-out from the first colliding obstacle |
| WorldMap.PushOutTouches | src/world/Map.js:51-59 | off the centre, the push-out puts the circle exactly touching the obstacle (distance = both radii) |
| WorldMap.VoxelMap.TreeObstacle | src/world/Map.js:246-258 | a tree's obstacle is at its spot with radius 0.5 * scale, in [0.4, 0.6) |
| WorldMap.VoxelMap.RockObstacle | src/world/Map.js:301-313 | a rock's obstacle is at its spot with radius 0.7 * scale, in [0.35, 0.91) |
| WorldMap.VoxelMap.Scatter | src/world/Map.js:161-162 | a scattered coordinate lies in [-22.5, 22.5) |
| WorldMap.VoxelMap.TreesPlaced | src/world/Map.js:159-168 | each tree attempt adds at most one tree, inside the scatter square, outside the 5-unit clearing, with radius in [0.4, 0.6) |
| WorldMap.VoxelMap.RocksPlaced | src/world/Map.js:170-178 | each rock attempt adds at most one rock, inside the scatter square, outside the 3-unit clearing, with radius in [0.35, 0.91) |
| WorldMap.VoxelMap.DecorationsPlaced | src/world/Map.js:156-187 | a decorated map holds at most 50 obstacles, every one placed as its kind allows |
| WorldMap.VoxelMap.constructor | src/world/Map.js:5-13 | a new map holds exactly the obstacles createDecorations lays out from the draws, at most 50, every one placed as its kind allows |
| WorldMap.VoxelMap.CreateTree | src/world/Map.js:189-259 | appends the tree's obstacle |
| WorldMap.VoxelMap.CreateRock | src/world/Map.js:261-314 | appends the rock's obstacle |
| WorldMap.VoxelMap.CreateDecorations | src/world/Map.js:156-187 | the two placing loops append exactly the trees, then the rocks, whose drawn spot is outside the clearing, in draw order, and keep the existing obstacles |
| Monsters.Spawned | src/game/Monster.js:8-21 | a new monster is alive, unslowed, at full HP and speed of its kind, at the given spot |
| Monsters.Struck | src/game/Monster.js:233-262 | a dead monster ignores damage; a living one loses the amount and is dead exactly when HP is at or below 0; nothing else changes |
| Monsters.Reward | src/game/Monster.js:311-318 | a kill adds one kill and the kind's coins, and its experience may level up the run; stats, day, timer and cooldowns are kept |
| Monsters.StoreAfterBlow | src/game/Monster.js:233-262 | the store changes only when the blow kills a living monster, and then by exactly that monster's reward |
| Monsters.RewardedOnce | src/game/Monster.js:233-234 | once dead, further blows change neither the monster nor the store: a kill is paid once |
| Monsters.Monster.constructor | src/game/Monster.js:8-21 | the new object's value is Spawned |
| Monsters.Monster.Walked | src/game/Monster.js:212-231 | walking moves only the position, and a dead monster does not move |
| Monsters.Monster.Update | src/game/Monster.js:212-231 | the object's new value is Walked of its old value |
| Monsters.Monster.TakeDamage | src/game/Monster.js:233-262 | the object's value becomes Struck, and the store changes as StoreAfterBlow says |
| Monsters.Monster.Die | src/game/Monster.js:311-318 | the monster is marked dead and the store receives its reward |
| Monsters.ApplyBlows | src/game/AutoSkillManager.js:277-283 | a pass of blows over the monster list keeps its length |
| Monsters.ApplyBlowsLands | src/game/AutoSkillManager.js:277-283 | after the pass, the first k monsters have taken exactly their own blow and the rest are unchanged |
| Monsters.ApplyBlowsNext | src/game/Monster.js:233-262 | each further blow changes the store as StoreAfterBlow says |
| Monsters.ApplyBlowsRewards | src/game/Monster.js:311-318 | a pass adds exactly one kill and the kind's coins per monster it kills, keeps stats, day, timer and cooldowns, and keeps the run invariant |
| Monsters.StrikeAll | src/game/AutoSkillManager.js:277-283 | the loop over Monster objects computes exactly ApplyBlows |
| Monsters.StrikeOne | src/game/Monster.js:233-262 | striking one object of a list changes only that monster, to Struck |
| Monsters.Survivors | src/game/Monster.js:394 | every survivor is a living monster of the list, every living monster survives, and a list without repeats stays without repeats |
| Monsters.SurvivorsInOrder | src/game/Monster.js:394 | the survivors are the list's living monsters in their original order: the i-th survivor is the monster at the i-th living position |
| Monsters.SurvivorsAppendLiving | src/game/Monster.js:389-394 | filtering a list whose tail is all alive keeps the whole tail, after the survivors of the rest |
| Monsters.WalkedAll | src/game/Monster.js:389-391 | every monster walks once |
| Monsters.WalkAll | src/game/Monster.js:389-391 | the loop over the objects computes exactly WalkedAll |
| Monsters.RuleKey | src/game/Monster.js:398-406 | the rule used is the largest key at or below the day, or the default (key 2) before day 2 |
| Monsters.Eligible | src/game/Monster.js:407 | keeps exactly the rule's kinds whose first day has come |
| Monsters.EligibleInOrder | src/game/Monster.js:407 | the eligible kinds keep the rule's order: the i-th is the rule's kind at the i-th position whose first day has come |
| Monsters.AvailableFromDayTwo | src/game/Monster.js:398-408 | nothing can spawn before day 2, something always can from day 2 on, and every kind offered has reached its first day |
| Monsters.SpawnInterval | src/game/Monster.js:373-376 | the interval is never below the minimum, at most the base from day 2, and the minimum from day 12 |
| Monsters.SpawnIntervalShrinks | src/game/Monster.js:373-376 | the interval never grows as days pass |
| Monsters.PickKind | src/game/Monster.js:419 | the drawn kind is one of the offered kinds |
| Monsters.SpawnPosition | src/game/Monster.js:425-441 | the spawn point is on the map, and is the drawn point itself when that is on the map |
| Monsters.Arrival | src/game/Monster.js:417-421 | an arrival is a living monster of an offered kind, on the map at ground level |
| Monsters.SpawnCount | src/game/Monster.js:411-423 | at most 2 monsters per spawn, never beyond the room left under MAX_MONSTERS, and none when no kind is offered |
| Monsters.NextSpawnTimer | src/game/Monster.js:367-383 | the timer never goes negative, and past the safe day with room left it always ends below the day's interval: a due spawn restarts it |
| Monsters.SpawnDue | src/game/Monster.js:368-380 | a spawn is due only with room left and some kind to offer |
| Monsters.ArrivalCount | src/game/Monster.js:366-383 | monsters arrive only when a spawn is due and some kind is offered, and never beyond the room left |
| Monsters.Arrivals | src/game/Monster.js:411-423 | ArrivalCount arrivals, all alive |
| Monsters.MonsterManager.constructor | src/game/Monster.js:354-360 | starts with no monsters, day 0 and timer 0 |
| Monsters.MonsterManager.GetAvailableTypes | src/game/Monster.js:398-408 | the rule search loop computes the available kinds |
| Monsters.MonsterManager.SpawnMonster | src/game/Monster.js:443-447 | appends one fresh monster of that kind at that spot |
| Monsters.MonsterManager.SpawnContinuous | src/game/Monster.js:411-423 | appends exactly SpawnCount fresh arrivals after the existing monsters and keeps the cap |
| Monsters.MonsterManager.Update | src/game/Monster.js:362-395 | records the day and advances the spawn timer; every monster of the old list walks; the new list is the old list's survivors in order, followed by exactly ArrivalCount fresh monsters whose values are the walked Arrivals; only living monsters remain |
| Monsters.MonsterManager.SpawnStep | src/game/Monster.js:366-383 | the spawn timer becomes NextSpawnTimer; the old list is kept and followed by exactly ArrivalCount fresh monsters whose values are Arrivals; nothing spawns unless it was due |
| Monsters.MonsterManager.WalkAndDrop | src/game/Monster.js:387-394 | every monster of both parts walks, and the list becomes the survivors of the older part, in order, followed by every newcomer |
| Monsters.MonsterManager.WalkBoth | src/game/Monster.js:388-391 | the walk over a list made of two parts walks each part as WalkedAll says |
| Monsters.MonsterManager.DropDead | src/game/Monster.js:394 | over a list whose tail is all alive, the filter keeps the survivors of the rest and then the whole tail; no monster changes |
| Monsters.MonsterManager.ClearAll | src/game/Monster.js:449-456 | empties the list and resets the day |
| Players.StepTo | src/game/Player.js:116-132 | a step lands on the map |
| Players.MoveTo | src/game/Player.js:116-148 | the move lands on the map, and is the plain step when that step hits no obstacle |
| Players.InputLength | src/game/Player.js:121 | a non-zero input has a positive length |
| Players.FacingIsUnit | src/game/Player.js:121-123 | the normalised input is a unit vector |
| Players.BaseDamage | src/game/Player.js:196-204 | attack times the multiplier, raised by 30 % under berserk (berserk owned and HP below half) |
| Players.HitDamage | src/game/Player.js:206-209 | a crit draw below the crit rate multiplies the damage by the crit damage |
| Players.AttackBlows | src/game/Player.js:183-213 | every living monster in range and in the front half (or very close) takes one hit, with that strike's crit draw |
| Players.Strikes | src/game/Player.js:174 | an attack strikes once, or twice with multi-strike |
| Players.Lifesteal | src/game/Player.js:218-222 | with lifesteal and damage dealt, heals 5 % of the damage, else changes nothing |
| Players.Swings | src/game/Player.js:182-216 | the strikes of an attack keep the monster list's length |
| Players.SwingsNext | src/game/Player.js:182-216 | each further strike applies its blows to the monsters as the previous strike left them, and adds its damage to the total |
| Players.SwingsSpare | src/game/Player.js:183-194 | a monster dead or out of the swing is never touched, however many strikes |
| Players.FirstStrikeLands | src/game/Player.js:183-213 | the first strike hits every living monster in the swing with its own crit draw |
| Players.AttackOutcome | src/game/Player.js:174-222 | an attack keeps the monster list's length and leaves every dead monster, and every one outside the swing, exactly as it was |
| Players.SpinRadius | src/game/Player.js:303-307 | spin radius 3, plus the spin-master bonus |
| Players.SpinDamage | src/game/Player.js:304-318 | spin damage is 1.5 times attack, raised by spin master and by berserk |
| Players.SpinBlows | src/game/Player.js:350-357 | every living monster strictly within the radius takes the spin damage once |
| Players.DashTarget | src/game/Player.js:379-385 | the dash target is clamped onto the map |
| Players.FirstBlocked | src/game/Player.js:390-403 | the first of the ten samples that collides, with every earlier sample clear; none exactly when all are clear |
| Players.DashEnd | src/game/Player.js:379-404 | the dash stops on its own path: at the target or on one of the ten samples short of it |
| Players.DashStopsShort | src/game/Player.js:387-404 | the dash ends on some sample k whose samples 1..k are all clear, and either k is the tenth sample or sample k+1 collides |
| Players.SampleOnMap | src/game/Player.js:392-394 | every sample between two on-map points is on the map |
| Players.DashEndOnMap | src/game/Player.js:379-404 | the dash from an on-map point ends on the map |
| Players.SkillCooldownFor | src/game/Player.js:276-280 | the table's cooldown, 2 s less for a dash with dash master, always positive |
| Players.Player.constructor | src/game/Player.js:7-17 | the hero starts at the origin facing -z, with no attack timer and not invincible |
| Players.Player.Move | src/game/Player.js:116-155 | the hero moves to MoveTo's point, on the map, and faces the normalised input |
| Players.Player.Attack | src/game/Player.js:157-226 | does nothing while the attack timer runs; otherwise sets it to the cooldown and applies the swings with berserk, crits, multi-strike and lifesteal (AttackOutcome) |
| Players.Player.StrikeRepeatedly | src/game/Player.js:182-216 | the nested strike loop over the objects computes exactly Swings |
| Players.Player.SpinAttack | src/game/Player.js:295-364 | applies SpinBlows to the monsters and the rewards and lifesteal to the store |
| Players.Player.Dash | src/game/Player.js:366-430 | the hero turns invincible and the landing point is the dash end for the distance with dash master |
| Players.Player.DashEndpoint | src/game/Player.js:387-404 | the sampling loop computes exactly the dash end |
| Players.Player.FinishDash | src/game/Player.js:417-423 | when the dash animation ends, the hero stands on the landing point and is no longer invincible |
| Players.Player.UseSkill | src/game/Player.js:265-293 | ignores an unknown skill, a skill on cooldown or a phase other than 'playing'; otherwise sets the cooldown and runs the spin attack (exact blows, rewards and lifesteal) or the dash (invincible, landing on DashEnd for the dash-master distance) |
| Players.Player.Update | src/game/Player.js:522-540 | counts the attack and invincibility timers down, ends invincibility when its timer runs out, and keeps the hero on the ground |
| Players.Player.OnHit | src/game/Player.js:473-494 | the hero turns invincible and nothing else changes |
| Players.Player.EndHitInvincibility | src/game/Player.js:491-493 | half a second after a hit, invincibility ends |
| Players.Player.Reset | src/game/Player.js:542-550 | the hero returns to the origin facing -z, with timers cleared and not invincible |
| AutoSkills.NewRing | src/game/AutoSkillManager.js:78-85 | a new ring has `count` members, none cooling down |
| AutoSkills.Cooled | src/game/AutoSkillManager.js:111-114 | each member's hit cooldown counts down by delta while positive |
| AutoSkills.Ready | src/game/AutoSkillManager.js:103 | counts the members ready to hit |
| AutoSkills.ReadyAfterReset | src/game/AutoSkillManager.js:103-105 | a hit takes exactly one ready member out of the ready count |
| AutoSkills.HpSumUpdate | src/game/AutoSkillManager.js:104 | replacing one monster changes the HP total by the difference |
| AutoSkills.Pass | src/game/AutoSkillManager.js:98-108 | one monster's pass over the ring keeps one cooldown per member |
| AutoSkills.Sweep | src/game/AutoSkillManager.js:96-109 | the pass over all monsters keeps the list and the cooldowns |
| AutoSkills.PassCooldowns | src/game/AutoSkillManager.js:98-108 | in a pass, a member's cooldown is kept or, if it was ready, reset; the monster only loses HP |
| AutoSkills.SweepCooldowns | src/game/AutoSkillManager.js:96-109 | in a sweep, each cooldown is kept or reset from ready, and monsters not yet reached are untouched |
| AutoSkills.PassBound | src/game/AutoSkillManager.js:98-108 | each HP point a pass takes is paid for by a member that was ready and no longer is |
| AutoSkills.SweepBound | src/game/AutoSkillManager.js:96-109 | over a whole sweep, HP lost plus damage per member still ready is at most damage per member ready before |
| AutoSkills.StruckMemberWaits | src/game/AutoSkillManager.js:96-114 | a member whose cooldown the collision pass restarted is still cooling down after the frame's countdown (Cooled), for a frame shorter than its reset, so it cannot hit in the next frame |
| AutoSkills.RingFrame | src/game/AutoSkillManager.js:76-115 | a ring frame creates a missing ring of `count` members and keeps the monster list |
| AutoSkills.RingFrameKeepsRing | src/game/AutoSkillManager.js:76-115 | after a frame the ring is complete and no member rests longer than its reset |
| AutoSkills.TimesGrows | src/game/AutoSkillManager.js:104 | more ready members allow more damage |
| AutoSkills.RingRateLimit | src/game/AutoSkillManager.js:96-109 | in one frame the ring takes at most damage per member from all monsters together: hit cooldowns are per member, not per monster |
| AutoSkills.Nearest | src/game/AutoSkillManager.js:141-148 | the search returns a candidate (alive, not hit, within range) |
| AutoSkills.FireballTarget | src/game/AutoSkillManager.js:136-150 | the fireball's target, when there is one, is a living monster strictly within 15 |
| AutoSkills.NearestIsClosest | src/game/AutoSkillManager.js:141-148 | none exactly when no candidate exists; otherwise the pick is at least as close as every candidate and strictly closer than every earlier one |
| AutoSkills.FindNearest | src/game/AutoSkillManager.js:138-148 | the forEach search over the objects computes exactly Nearest |
| AutoSkills.FireballAimsAtNearest | src/game/AutoSkillManager.js:136-153 | the fireball aims at a living monster within 15 that is nearest of all living monsters, and fires exactly when the nearest one is within 15 |
| AutoSkills.Shot | src/game/AutoSkillManager.js:157-179 | a new fireball is alive at the hero with lifetime 3 and the skill's speed and damage |
| AutoSkills.FirstInReach | src/game/AutoSkillManager.js:442-457 | the first living monster within 1.2 on the ground plane, with all earlier ones out of reach or dead |
| AutoSkills.Fly | src/game/AutoSkillManager.js:427-458 | a dead projectile is left alone; an expired one dies without hitting; otherwise it hits at most one monster, dies doing so, and the store changes by that blow only |
| AutoSkills.FlyAll | src/game/AutoSkillManager.js:426-459 | every projectile flies once, and none comes back to life |
| AutoSkills.LiveProjectiles | src/game/AutoSkillManager.js:46 | the filter keeps exactly the living projectiles |
| AutoSkills.LiveProjectilesInOrder | src/game/AutoSkillManager.js:46 | the projectiles left keep their order: the i-th is the projectile at the i-th living position |
| AutoSkills.PoisonTick | src/game/AutoSkillManager.js:277-283 | a poison tick takes POISON_DAMAGE once from each living monster within the radius and leaves the others unchanged |
| AutoSkills.PoisonBlows | src/game/AutoSkillManager.js:277-283 | one blow per monster, and only living monsters take one, of POISON_DAMAGE |
| AutoSkills.FrostBlows | src/game/AutoSkillManager.js:295-319 | one blow per monster, and only living monsters take one, of FROST_DAMAGE |
| AutoSkills.Chilled | src/game/AutoSkillManager.js:307-311 | a slow leaves an already slowed monster alone, and otherwise slows it with HP and position kept |
| AutoSkills.Thawed | src/game/AutoSkillManager.js:312-317 | the thaw restores the recorded speed of a living monster and leaves a dead one alone |
| AutoSkills.SlowsNeverStack | src/game/AutoSkillManager.js:307-311 | slowing twice is slowing once, and the recorded speed is the speed before the first slow |
| AutoSkills.ThawRestoresSpeed | src/game/AutoSkillManager.js:307-317 | a thaw after a slow gives the monster its speed back |
| AutoSkills.Frosted | src/game/AutoSkillManager.js:304-319 | a monster caught by the nova is struck, then slowed; others are untouched |
| AutoSkills.AliveIndices | src/game/AutoSkillManager.js:189 | exactly the indices of the living monsters, each once, in increasing order |
| AutoSkills.PickIndex | src/game/AutoSkillManager.js:191 | the random pick is a valid index |
| AutoSkills.ChainTargets | src/game/AutoSkillManager.js:207-229 | the chain extends the hit list by at most `steps` monsters, all in range of the list |
| AutoSkills.ChainPicks | src/game/AutoSkillManager.js:209-225 | every jump goes to the nearest living, unhit monster strictly within chain range of the previous one |
| AutoSkills.ChainStops | src/game/AutoSkillManager.js:221-228 | a chain that stops early stops because no candidate is left in range of its last monster |
| AutoSkills.NearestIgnoresHit | src/game/AutoSkillManager.js:212-219 | the search gives the same pick on lists that differ only at hit monsters, none of which moved |
| AutoSkills.StruckOnce | src/game/AutoSkillManager.js:223 | striking distinct targets in turn hits each exactly once and leaves the others unchanged |
| AutoSkills.Lightning | src/game/AutoSkillManager.js:198-230 | a strike hits 1 to 3 monsters, starting with the target |
| AutoSkills.LightningFiresIffAlive | src/game/AutoSkillManager.js:187-195 | lightning fires exactly when some monster is alive, and otherwise changes nothing |
| AutoSkills.LightningTurn | src/game/AutoSkillManager.js:187-195 | lightning fires only when some monster is alive |
| AutoSkills.LightningStrikesEachOnce | src/game/AutoSkillManager.js:198-230 | the target takes full damage, each chained monster 0.7 of it, no monster is hit twice, and the rest are untouched |
| AutoSkills.ChainDistinct | src/game/AutoSkillManager.js:205-224 | the chain starts at the target and never repeats a monster |
| AutoSkills.Chill | src/game/AutoSkillManager.js:307-311 | slows a Monster object as Chilled |
| AutoSkills.ChillOne | src/game/AutoSkillManager.js:307-311 | slows one object of a list and no other |
| AutoSkills.Thaw | src/game/AutoSkillManager.js:312-317 | the slow timeout thaws a Monster object as Thawed |
| AutoSkills.FrostAll | src/game/AutoSkillManager.js:304-319 | the nova frosts every monster on its own |
| AutoSkills.FrostUpToNext | src/game/AutoSkillManager.js:304-319 | the frost loop frosts one more monster per pass and ends at FrostAll |
| AutoSkills.Caught | src/game/AutoSkillManager.js:295-297 | exactly the monsters alive and within the nova's radius |
| AutoSkills.ChainAdvance | src/game/AutoSkillManager.js:221-225 | a jump to the nearest candidate leaves the rest of the chain as before |
| AutoSkills.StrikeInTurnNext | src/game/AutoSkillManager.js:223-224 | each chained strike hits the newly picked monster and changes the store by that blow |
| AutoSkills.AutoSkillManager.constructor | src/game/AutoSkillManager.js:6-24 | no cooldowns, no rings, no projectiles, both tick timers at 0 |
| AutoSkills.AutoSkillManager.MeetRing | src/game/AutoSkillManager.js:98-108 | the inner loop over the ring computes exactly Pass |
| AutoSkills.AutoSkillManager.SweepRing | src/game/AutoSkillManager.js:96-109 | the nested loop over monsters and ring computes exactly Sweep |
| AutoSkills.AutoSkillManager.TurnRing | src/game/AutoSkillManager.js:76-115 | one frame of a ring is exactly RingFrame |
| AutoSkills.AutoSkillManager.UpdateOrbital | src/game/AutoSkillManager.js:76-115 | the orbs' frame is RingFrame with 2 orbs, radius 2.5, speed 2, damage 8, reach 1.2 and reset 0.5; nothing else changes |
| AutoSkills.AutoSkillManager.UpdateSpinningBlades | src/game/AutoSkillManager.js:363-403 | the blades' frame is RingFrame with the blade constants, reach 1.5 and reset 0.3; nothing else changes |
| AutoSkills.AutoSkillManager.UpdateFireball | src/game/AutoSkillManager.js:130-155 | the cooldown counts down; when it is out and a target is within 15, one fireball is shot at it and the cooldown restarts |
| AutoSkills.AutoSkillManager.Aim | src/game/AutoSkillManager.js:136-150 | the search computes exactly FireballTarget |
| AutoSkills.AutoSkillManager.StrikeLightning | src/game/AutoSkillManager.js:198-230 | the strike on the objects computes exactly Lightning |
| AutoSkills.AutoSkillManager.Chain | src/game/AutoSkillManager.js:207-229 | the chain loop computes exactly ChainTargets and strikes each chained monster in turn |
| AutoSkills.AutoSkillManager.ChainStep | src/game/AutoSkillManager.js:208-228 | one turn of the chain loop either stops, with the chain complete, or makes one jump |
| AutoSkills.AutoSkillManager.JumpTo | src/game/AutoSkillManager.js:221-225 | one jump strikes the picked monster and moves the chain's end to it |
| AutoSkills.AutoSkillManager.Zap | src/game/AutoSkillManager.js:187-195 | picks a random living monster and strikes it, or does nothing when none lives |
| AutoSkills.AutoSkillManager.UpdateLightning | src/game/AutoSkillManager.js:182-196 | the cooldown counts down; when it is out the lightning turn runs, and the cooldown restarts only if it fired |
| AutoSkills.AutoSkillManager.LightningStep | src/game/AutoSkillManager.js:187-195 | the lightning turn runs exactly when the cooldown is out |
| AutoSkills.AutoSkillManager.UpdatePoisonAura | src/game/AutoSkillManager.js:253-285 | the tick timer accumulates; at the tick rate it resets and the poison blows land; nothing else changes |
| AutoSkills.AutoSkillManager.FrostPass | src/game/AutoSkillManager.js:304-319 | the loop over the caught monsters computes FrostAll and the store after the nova's blows |
| AutoSkills.AutoSkillManager.UpdateFrostNova | src/game/AutoSkillManager.js:288-324 | the cooldown counts down; when it is out and a monster is in range, all in range are struck and slowed and the cooldown restarts |
| AutoSkills.AutoSkillManager.UpdatePassives | src/game/AutoSkillManager.js:414-423 | with regeneration, every full second of the timer heals 1 and resets it; without, nothing changes |
| AutoSkills.AutoSkillManager.FlyProjectiles | src/game/AutoSkillManager.js:427-458 | the loop over projectiles computes exactly FlyAll |
| AutoSkills.AutoSkillManager.UpdateProjectiles | src/game/AutoSkillManager.js:426-459 | the projectiles fly as FlyAll; nothing else changes |
| AutoSkills.AutoSkillManager.Update | src/game/AutoSkillManager.js:26-47 | outside 'playing' nothing changes; otherwise every auto skill runs, then passives and projectiles, and only living projectiles are kept |
| AutoSkills.AutoSkillManager.ClearAll | src/game/AutoSkillManager.js:493-528 | back to the constructor's state |
| Artifacts.ChestPrizeOf | src/game/Artifact.js:206-217 | a roll below 0.5 gives 30-79 experience, otherwise 10-39 coins |
| Artifacts.EffectOn | src/game/Artifact.js:190-218 | only a fountain changes stats; only a winning coin chest changes coins; a fountain never levels; the account, day, timer, kills and cooldowns are kept |
| Artifacts.EffectKeepsRunValid | src/game/Artifact.js:190-218 | every artifact effect keeps the run invariant |
| Artifacts.ExpToNextGrows | src/utils/constants.js:43-46 | below the level cap, each level needs more experience than the one before |
| Artifacts.AltarGivesOneLevel | src/game/Artifact.js:201-204 | an altar gives exactly one level and keeps the experience, and opens the level-up choices |
| Artifacts.Artifact.constructor | src/game/Artifact.js:8-17 | a new artifact of that kind at that spot, not collected |
| Artifacts.Artifact.Collect | src/game/Artifact.js:182-222 | the artifact is collected; a second collection changes nothing, the first applies its effect |
| Artifacts.ArtifactViews | src/game/Artifact.js:315-322 | the values of the artifact objects, one each |
| Artifacts.Uncollected | src/game/Artifact.js:321 | the filter keeps exactly the artifacts not collected, each once |
| Artifacts.UncollectedInOrder | src/game/Artifact.js:321 | the artifacts left keep their order: the i-th is the artifact at the i-th uncollected position |
| Artifacts.LayoutCounts | src/game/Artifact.js:324-352 | a run places 5 crystals, 3 chests, 1 fountain, 1 altar and 20 grass bundles |
| Artifacts.RandomPosition | src/game/Artifact.js:354-361 | artifacts lie on the ground within 0.4 of the map size of the centre |
| Artifacts.ArtifactManager.constructor | src/game/Artifact.js:309-313 | no artifacts |
| Artifacts.ArtifactManager.Update | src/game/Artifact.js:315-322 | drops the collected artifacts |
| Artifacts.ArtifactManager.SpawnArtifact | src/game/Artifact.js:363-367 | appends one fresh, uncollected artifact |
| Artifacts.ArtifactManager.GenerateArtifacts | src/game/Artifact.js:324-352 | appends the 30 artifacts of the layout, each at its drawn position |
| Artifacts.ArtifactManager.SpawnRun | src/game/Artifact.js:328-351 | one placing loop appends its artifacts, one per layout slot |
| Artifacts.ArtifactManager.Interact | src/game/Artifact.js:369-371 | collects the artifact, applying its effect only the first time |
| Artifacts.ArtifactManager.ClearAll | src/game/Artifact.js:373-378 | no artifacts |
| Games.Axis | src/game/Game.js:221-222 | an axis is 1, 0 or -1, zero exactly when both keys or neither are held |
| Games.FirstContact | src/game/Game.js:260-263 | the first living monster within 1.5 of the hero, all earlier ones out of contact |
| Games.FirstContactAt | src/game/Game.js:260-263 | the first touching monster is the one FirstContact finds |
| Games.Contact | src/game/Game.js:256-280 | while invincible nothing happens; otherwise a contact hurts the hero and makes them invincible, and no contact changes nothing |
| Games.ContactHurtsOnce | src/game/Game.js:260-272 | the first touching monster hurts the hero once (at least 1 HP or down to 0); thorns reflect 20 % of that damage to it alone; no other monster is touched |
| Games.RewardKeepsStats | src/game/Game.js:269-272 | a thorns blow never changes the hero's stats |
| Games.PickUps | src/game/Game.js:282-289 | the pickup pass keeps the artifact list |
| Games.PickUpsCollect | src/game/Game.js:284-288 | exactly the artifacts within 2 of the hero are collected, and no other changes |
| Games.PickUpsAgain | src/game/Game.js:282-289 | a second pass at the same spot changes nothing: every artifact pays once |
| Games.SettledPass | src/game/Game.js:282-289 | a pass over artifacts already collected in range changes nothing |
| Games.Game.constructor | src/game/Game.js:13-71 | the game starts with a fresh hero, a map holding exactly the decorations laid out from its draws, and managers holding nothing |
| Games.Game.HandleInput | src/game/Game.js:220-227 | WASD gives the two axes; with no net input the hero is untouched, otherwise they move as MoveTo says |
| Games.Game.MonsterContacts | src/game/Game.js:256-280 | the contact pass over the objects computes exactly Contact |
| Games.Game.TakeHit | src/game/Game.js:263-272 | one contact: damage, invincibility and thorns as Contact says |
| Games.Game.ArtifactPickups | src/game/Game.js:282-289 | the pickup loop over the objects computes exactly PickUps |
| Games.Game.CheckCollisions | src/game/Game.js:250-290 | outside 'playing' nothing changes; otherwise monster contacts, then pickups with the store the contacts left |
| Games.Game.Animate | src/game/Game.js:175-218 | outside 'playing' nothing changes; otherwise the frame runs timer, cooldowns, input, hero, monsters, artifacts, auto skills and collisions in that order |
| Games.Game.MonstersStep | src/game/Game.js:198 | the monster manager's update keeps its list valid, records the day and holds only old or fresh monsters |
| Games.Game.ArtifactsStep | src/game/Game.js:201 | the artifact manager's update keeps it valid, and every artifact left was there before |
| Games.Game.SkillsStep | src/game/Game.js:204 | the auto-skill manager's update keeps it valid |
| Games.Game.CollideStep | src/game/Game.js:207 | the collision pass keeps the game valid and the hero on the ground |
| Games.Game.StartNewRun | src/game/Game.js:292-306 | clears monsters, artifacts and auto skills, resets the hero, lays out the 30 artifacts and starts the run |
| RunFields.Read | src/store/gameStore.js:83-97 | a key the run record lacks reads as undefined |
| RunFields.Owns | src/game/AutoSkillManager.js:416 | a membership test on undefined throws, otherwise says whether the name is held |
| RunFields.FrameAsWritten | src/game/AutoSkillManager.js:30-40 | the auto-skill update gets through exactly when auto skills and passives are both defined |
| RunFields.StartedRunThrows | src/store/gameStore.js:83-97 | with the record as written, every playing frame throws in the auto-skill update, and the multi-strike and thorns tests throw too |
| RunFields.AutoSkillsField | src/game/AutoSkillManager.js:30-35 | the corrected record always defines the auto skills, with the run's ids |
| RunFields.StartedRunCompletes | src/store/gameStore.js:83-97 | with the corrected record, every frame reaches the collision pass, no name is owned, there is no berserk, and an attack strikes once |

## Left out

- Rendering, meshes, HP bars, damage numbers, camera follow (`updateCamera`), the HUD and lobby UI, and audio (`updateBgm`, sound effects): they change no game state.
- Persistence: `loadAccountData` and `saveAccountData` (localStorage) are left out. The account is an input of the model and is never saved.
- The store's entity lists `monsters`, `artifacts` and `projectiles`, with `addMonster`, `removeMonster`, `clearMonsters`, `addArtifact` and `removeArtifact`: nothing in the core reads them back. The manager objects' own lists are modelled.
- Knockback (`Player.knockback`): it is a timed animation that nudges the hero over several animation frames. The model treats a contact hit as damage and invincibility only.
- Animation callbacks other than the three modelled as methods (the dash landing, the end of hit invincibility, the frost thaw). The dash is modelled as a jump to its landing point; the eased path in between is not.
- `Math.random`, the shuffle, `Math.sqrt`, `Math.cos`, `Math.sin` and `Date.now()` are parameters, not computed. Real numbers stand for doubles, with no rounding.
- Mouse and keyboard wiring (`Game.init`'s listeners): the model takes the held keys and the skill names as inputs.
- The 'paused' state: nothing in the core sets it, so the model never enters it.
- The skill-type level-up choices: as in the code, selecting one changes nothing.
- The `count` field of SPAWN_RULES: the code never reads it.
- PERMANENT_UPGRADES, ITEMS, RARITIES, CHOICE_TYPES, COLORS and UPGRADE_CATEGORIES: the core does not read them.
- `createFlower`: flowers are decorative and are not obstacles.
- AutoSkills.AutoSkillManager.Update: states the phase guard, the class invariant and that only living projectiles remain, not the full frame. Each step it runs carries its own exact contract.
- Games.Game.Animate: states the phase guard, the day recorded by the monster manager, the hero kept on the ground and artifacts only ever removed, not the full frame. Each step's method carries its own contract.
- Games.Game.CollideStep, Games.Game.MonstersStep, Games.Game.SkillsStep, Games.Game.ArtifactsStep: frame helpers that state only what Animate needs.
- WorldMap.PushOut: off an obstacle's centre its meaning is stated by `WorldMap.PushOutTouches`; on the centre only the bound of the random push is stated.
- Players.StepTo: states only that the step lands on the map; the step itself is the plain formula.

## Findings

| source | as written | input that shows it | evidently intended | confidence | as-written member | corrected member |
|---|---|---|---|---|---|---|
| src/store/gameStore.js:83-97 | `startGame` writes a run record with no `autoSkills`, `passives` or `skillUpgrades`; the initial run (lines 43-55) lacks them too. `AutoSkillManager.update` then calls `autoSkills.forEach` on undefined (src/game/AutoSkillManager.js:35), so every playing frame throws before `checkCollisions`. `attack` throws at src/game/Player.js:174 after setting the attack timer. | any `startGame` followed by one animate frame in 'playing' | the run starts with an empty list of auto skills and no passives or upgrades, so frames run to the end | high, not executed | RunFields.StartedRunThrows | RunFields.StartedRunCompletes |
