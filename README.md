# Tower defense: a Dafny model of the game core

This project models the sequential core of a small Go tower-defense game
built on an entity-component system. Creeps walk down the board towards the
player's base. Towers shoot bullets at them. A computer player places, heals
and upgrades towers. The battle scene drives everything once per frame.

The model covers these parts of the game:

- **Cooldowns.** The cooldown timer of `util/cooldown.go` and the inline copy on the attack component.
- **Geometry.** The integer helpers of `util/util.go`. Distances are squared integers.
- **The world.** An insertion-ordered sequence of entity records with optional components (`Entities.World`). Query order is sequence order, and removing an entity deletes its record.
- **Collisions and targeting.** The collision query, the two enemy searches, and the range and intersect attacks.
- **Entity behaviour.** Creeps (spawn statistics, move or block) and bullets (bounds removal, target choice, single hit).
- **The player.** Tower purchases, heals and upgrades with guarded debits, plus the creep level.
- **Statistics and the score file.** The statistics counters, the score file's text format (save, load, and the high-mark merge), and the integer conversions it uses.
- **The computer player.** Its one-action-per-tick policy.
- **The battle scene.** The battle loop: speed keys, pause, the fixed-timestep gate, the wave timer, spawning, game over and reset.

Classes model the objects the source updates in place: `Cooldown.CooldownTimer`, `Stats.GameStats`, `Entities.World` and `Battle.BattleScene`. Their methods are proved against functions of the old state. Pure pieces are functions with lemmas beside them.

## Model

| member | source | states |
|---|---|---|
| Geometry.Quo | util/util.go:24-25 | Go's integer division truncates toward zero: the remainder takes the dividend's sign and is smaller than the divisor |
| Geometry.MidpointRect | util/util.go:23-27 | each coordinate is the corner sum halved with truncation toward zero, on both sides of zero |
| Geometry.MidpointWithin | util/util.go:23-27 | for a rectangle with 0 <= Min <= Max the midpoint lies inside it on both axes |
| Geometry.Abs | util/util.go:29-34 | the result is non-negative and equals n or -n |
| Geometry.AbsIdempotent | util/util.go:29-34 | Abs is idempotent and is the identity on non-negative numbers |
| Geometry.DistancePointsSq | util/util.go:18-21 | the squared distance is non-negative and is zero exactly for equal points |
| Geometry.DistanceSymmetric | util/util.go:18-21 | the distance is symmetric in its two points |
| Geometry.DistanceTranslationInvariant | util/util.go:19 | the distance depends only on the points' difference |
| Geometry.DistanceRectsSq | util/util.go:12-16 | the distance between rectangles is zero exactly when their midpoints coincide |
| Geometry.DistanceRectsSymmetric | util/util.go:12-16 | the distance between rectangles is symmetric |
| Cooldown.CooldownTimer.constructor | util/cooldown.go:9-11 | a new timer keeps the given Cooldown, has ticker 0 and is not in cooldown |
| Cooldown.CooldownTimer.IncrementTicker | util/cooldown.go:13-17 | the ticker rises by exactly 1 in cooldown and nothing changes otherwise; the resting invariant (not in cooldown implies ticker 0) is kept |
| Cooldown.CooldownTimer.CheckCooldown | util/cooldown.go:19-24 | the ticker is reset to 0 and the flag cleared exactly when ticker >= Cooldown; otherwise nothing changes; the resting invariant is kept |
| Cooldown.CooldownTimer.StartCooldown | util/cooldown.go:26-28 | sets the flag and leaves ticker and Cooldown unchanged; the resting invariant holds afterwards |
| Cooldown.CooldownTimer.GetDisplay | util/cooldown.go:30-36 | the figure is never negative; it is 0 out of cooldown, Cooldown - ticker while the ticker is below Cooldown, and 0 once it is past |
| Components.AttackData.IncrementTicker | components/attacks.go:55-59 | the attack's ticker rises by 1 only in cooldown; every other field is kept |
| Components.AttackData.CheckCooldown | components/attacks.go:61-66 | once ticker >= Cooldown the ticker is 0 and the cooldown over; before that the attack is unchanged |
| Components.AttackData.StartCooldown | components/attacks.go:68-70 | only the cooldown flag changes, and it is set |
| Components.AnyOfOne | util/util.go:44-45 | a one-type filter matches exactly the entities with that component |
| Entities.World.constructor | scenes/battle.go:42 | a new world holds no entity and gives its first entity id 0 |
| Entities.World.Create | components/board.go:17-20 | a created entity goes last in query order under a fresh id, and the ids stay increasing |
| Entities.World.Remove | components/bullets.go:83-85 | removing an entity deletes exactly its record and keeps the order of the others; an absent id changes nothing |
| Entities.RemoveAtKeeps | components/bullets.go:83-85 | removing a record keeps the ids increasing and every record well formed |
| Entities.FirstWith | scenes/battle.go:130 | MustFirst finds the first entity in query order with the component, and fails exactly when there is none |
| Entities.GetRect | components/base.go:119-128 | the sprite's bounds moved to the position, else the bullet's square at the position; an entity with neither is excluded by the precondition |
| Entities.BulletRect | components/bullets.go:92-95 | the bullet rectangle runs from pos to pos + size |
| Entities.DetectCollisions | components/base.go:76-94 | returns none exactly when no sprite-bearing, non-excluded entity overlaps the probe; otherwise the first such entity in query order |
| Entities.ExcludedNeverCollides | components/base.go:81 | an entity that the exclude filter matches is never returned, even when it overlaps |
| Entities.OnlySpritesCollide | components/base.go:80 | an entity without both a sprite and a position is never a candidate |
| Entities.DebugCooldown | components/base.go:63-66 | the debug figure is Cooldown - ticker in cooldown and 0 otherwise |
| Board.Bounds | components/player.go:188 | the board bounds are the rectangle (0,0)-(Width,Height) |
| Board.NewBoard | components/board.go:16-22 | creates exactly one entity carrying the given width and height; the returned record equals the stored one; the error is always nil |
| Towers.GetCostList | components/towers.go:15-19 | the table lists Melee and Ranged, each at 50 |
| Towers.GetCost | components/towers.go:21-23 | a listed name costs its table entry and any other name costs 0, the map's zero value |
| Towers.KnownCosts | components/towers.go:15 | GetCost("Ranged") and GetCost("Melee") are both 50 |
| Towers.UnknownCostIsZero | components/towers.go:21-23 | a name outside the table costs 0 |
| Attacks.GetExpandedRect | components/attacks.go:44-50 | the render rectangle with Min moved by (-Range,-Range) and Max by (+Range,+Range), so each side grows by 2 Range |
| Attacks.AfterCall | components/attacks.go:137-152 | a call that fires leaves the attack in cooldown with ticker 1; any other call only checks and ticks |
| Attacks.FiringCycle | components/attacks.go:137-152 | with a target always present and Cooldown >= 1, the ticker stays within 1..Cooldown after every call, and firings times Cooldown equals calls + Cooldown - ticker |
| Attacks.FiringCount | components/attacks.go:137-152 | n >= 1 such calls fire the ceiling of n / Cooldown times: once every Cooldown calls |
| Attacks.DebugCooldownNonNegative | components/base.go:63-66 | on every reachable attack state the debug cooldown figure is never negative |
| Attacks.BoundSq | components/attacks.go:93 | the squared Dx + Dy bound is non-negative and admits nothing when the bound is not positive |
| Attacks.ClosestUnique | components/attacks.go:105 | at most one entity is the closest candidate, which is what the strict comparison promises |
| Attacks.ClosestUpTo | components/attacks.go:97-111 | no result exactly when no enemy overlaps within the bound; otherwise the nearest candidate, with the earliest winning a tie |
| Attacks.FindEnemyRange | components/attacks.go:89-113 | the loop returns the closest overlapping enemy below the bound, the earliest on a tie, or none when there is no candidate |
| Attacks.FirstTouch | components/attacks.go:121-133 | the first enemy in query order whose rectangle overlaps the probe, or none exactly when no enemy does |
| Attacks.FindEnemyIntersect | components/attacks.go:115-135 | the loop returns the first overlapping enemy with no distance test, or none exactly when nothing overlaps |
| Attacks.FirstTouchIsFirst | components/attacks.go:122-124 | an overlapping enemy with no overlapping enemy before it is the result |
| Attacks.BulletPath | components/attacks.go:157-171 | the bullet starts at the firer's midpoint and aims at the target midpoint's X; Y moves by the lead only when the target has a velocity and is not blocked |
| Attacks.LaunchedBullet | components/attacks.go:173 | the launched bullet starts at the firer's midpoint and is a creep's bullet exactly when the target is a Tower |
| Attacks.LaunchBullet | components/attacks.go:154-175 | exactly one bullet is appended to the world, under the next id, from the firer's midpoint along BulletPath |
| Attacks.RangeAttackEffects | components/attacks.go:137-152 | at most one record is added, a bullet, exactly when the call fires; firing needs ticker 0 after the check and a target, and starts the cooldown; every other record is kept |
| Attacks.AttackEnemyRange | components/attacks.go:137-152 | the method's new world and target are those of the range-attack specification |
| Attacks.IntersectAttackEffects | components/attacks.go:177-206 | the first overlapping enemy's health becomes Health - Power when that is positive; otherwise the enemy is removed; the cooldown starts only when a target was found |
| Attacks.HitChangesOnlyHealth | components/attacks.go:197 | a target that survives and is not the attacker keeps everything except its health |
| Attacks.StrikeKeepsOthers | components/attacks.go:183-203 | a hit leaves every record but the attacker's and the target's as it was; a kill drops the target and keeps every other record in order; the attacker, unless it was the target, carries the attack after a call that found its target |
| Attacks.KilledTargetGone | components/attacks.go:187-195 | a killed target's id is no longer in the world |
| Attacks.AttackEnemyIntersect | components/attacks.go:177-206 | the method's new world and outcome are those of the intersect-attack specification |
| Creeps.NewCreepEntity | components/creeps.go:20-41 | the new creep sits at (x, y); a normal creep has velocity (0,4), score 10, health 3, power 4, range 20, cooldown 10 and a sprite in 1..3; a big creep has velocity (0,3), score 20, health 5, power 6, range 30, cooldown 15 and sprite 4 |
| Creeps.NewCreep | components/creeps.go:20-41 | exactly one record, the new creep, is appended under a fresh id |
| Creeps.MoveOrBlock | components/creeps.go:48-60 | the creep moves by exactly its velocity when the shifted rectangle hits no sprite other than creeps and bullets, and stays put otherwise; blocked records which happened; nothing else changes |
| Creeps.CreepsNeverBlock | components/creeps.go:52-54 | creeps and bullets in the way never block a creep |
| Creeps.Update | components/creeps.go:43-66 | the move test and then one ranged attack against Towers and the Player, as the step specification says |
| Bullets.NewBulletRender | components/bullets.go:42-53 | a creep's bullet is red and 3 px, a tower's bullet green and 4 px |
| Bullets.NewBulletEntity | components/bullets.go:31-40 | the new bullet sits at start with Power 1, Range 1, Cooldown 30 and speed 4, records whether a creep fired it, and its rectangle is (pos, pos + size) |
| Bullets.NewBullet | components/bullets.go:31-40 | exactly one record, the new bullet, is appended under a fresh id |
| Bullets.AfterBulletAttack | components/bullets.go:83-85 | afterwards no record carries the bullet's id, and exactly that record has gone |
| Bullets.NoIdAfterRemove | components/bullets.go:83-85 | with increasing ids, removing the record with an id leaves no record with that id |
| BulletMotion.FlyEffects | components/bullets.go:55-82 | off the board, bounds inclusive, the bullet's record alone is removed and no attack is made; on the board a creep's bullet attacks Towers and a tower's bullet attacks Creeps; a hit leaves the intersect attack's records with the bullet removed, so it damages at most one target once; on a miss the bullet takes its cooldown step without firing and moves to the new position, and every other record is kept |
| BulletMotion.StrikeKeepsIds | components/bullets.go:73-76 | an intersect attack keeps the ids increasing |
| BulletMotion.Update | components/bullets.go:55-82 | the method's new world and outcome are those of the flight specification |
| Player.AddMoney | components/player.go:214-216 | only Money changes, by exactly the amount |
| Player.AddScore | components/player.go:255-257 | only Score changes, by exactly the amount |
| Player.Kill | components/player.go:218-220 | the player is dead and nothing else changes |
| Player.Debit | components/player.go:101-104 | a debit guarded by Money >= cost lowers Money by exactly the cost and never below 0 |
| Player.GetCreepLevel | components/player.go:222-224 | the creep level is TowerLevels / 5 + 1 with the float division truncated toward zero, so it is at least 1 for non-negative TowerLevels |
| Player.CreepLevelMonotone | components/player.go:222-224 | more tower levels never lower the creep level |
| Player.NewPlayerEntity | components/player.go:45-51 | a new player has Money 500, Score 0, not dead, TowerLevels = startingTowerLevel, Health 100, and sits at (0, Height - 45) |
| Player.NewPlayer | components/player.go:34-54 | exactly one record, the new player, is appended under a fresh id; the error is nil |
| Player.TowerRect | components/player.go:184-186 | the tower image's rectangle is centred on the cursor with Go's truncating halves |
| Player.BlockedByPlayer | components/player.go:196 | the entities that block a placement are exactly the Player sprites that overlap the rectangle |
| Player.OnlyPlayerBlocks | components/player.go:196-205 | inside the board, with no Player in the way, the placement succeeds even when towers or creeps overlap |
| Player.OutOfBoundsRefused | components/player.go:189-194 | a rectangle outside the board is refused with the out-of-bounds placement error |
| Player.PlacedMeansClear | components/player.go:183-206 | a placement succeeds only inside the board, clear of every Player sprite, and without a tower error |
| Player.CollisionRefused | components/player.go:196-203 | inside the board, a placement error means some Player sprite overlaps the rectangle, and the message is the collision one |
| Player.PlaceTower | components/player.go:183-206 | the error is the placement specification's; on success one tower is added at the rectangle's Min corner; on an error nothing changes |
| Player.TryPlaceEffects | components/player.go:139-167 | below the Ranged cost of 50 nothing happens; otherwise exactly 50 is debited exactly when the tower is placed; a placement error is swallowed and leaves the money alone; a tower error is passed on |
| Player.TryPlaceTower | components/player.go:139-167 | the method's new world, result and error are those of the purchase specification |
| Player.TryHealEffects | components/player.go:98-116 | a heal happens exactly when Money covers the heal cost and the tower's heal succeeds; it costs exactly that and never changes TowerLevels; a failed heal changes nothing |
| Player.TryUpgradeEffects | components/player.go:118-137 | an upgrade happens exactly when Money covers the upgrade cost and the tower's upgrade succeeds; it costs exactly that and adds one tower level; a failed upgrade changes nothing |
| Player.MoneyStaysNonNegative | components/player.go:101-142 | every debit is guarded, so no Try operation takes Money below 0 |
| Player.TryHealTower | components/player.go:98-116 | the method's new world and result are those of the heal specification |
| Player.TryUpgradeTower | components/player.go:118-137 | the method's new world and result are those of the upgrade specification |
| Player.InputStepKeeps | components/player.go:65-96 | an input step keeps the ids increasing and the world well formed, and adds at most a tower |
| Player.UserSpeedUpdate | components/player.go:65-96 | a dead player's step changes nothing; otherwise a left click tries a placement, H a heal and U an upgrade of the tower under the cursor; only a non-placement error of the click is returned |
| Player.GameSpeedUpdate | components/player.go:169-173 | the base makes one ranged attack step against Creeps, as the range-attack specification says |
| Stats.ResetStats | components/stats.go:71-83 | Reset zeroes the nine counters and the game time, and keeps HighScore, HighCreepLevel, HighTowerLevel and TowersAmmoOut |
| Stats.ClearedDetermined | components/stats.go:71-83 | a reset record is determined by the four fields Reset keeps |
| Stats.ResetIdempotent | components/stats.go:71-83 | resetting twice is resetting once |
| Stats.ResetForgetsCounters | components/stats.go:71-83 | two records that agree on the kept fields reset to the same record, whatever their counters |
| Stats.GameStats.constructor | components/stats.go:32-34 | the three high marks are the arguments and every counter is 0 |
| Stats.GameStats.UpdateCreepsSpawned | components/stats.go:36-38 | CreepsSpawned rises by the count and no other field changes |
| Stats.GameStats.UpdateCreepsKilled | components/stats.go:39-41 | CreepsKilled rises by 1 and no other field changes |
| Stats.GameStats.UpdateCreepWaves | components/stats.go:42-44 | CreepWaves rises by 1 and no other field changes |
| Stats.GameStats.UpdateTowersBuilt | components/stats.go:45-47 | TowersBuilt rises by 1 and no other field changes |
| Stats.GameStats.UpdateTowersKilled | components/stats.go:48-50 | TowersKilled rises by 1 and no other field changes |
| Stats.GameStats.UpdateTowersAmmoOut | components/stats.go:51-53 | TowersAmmoOut rises by 1 and no other field changes |
| Stats.GameStats.UpdateTowerBulletsFired | components/stats.go:54-56 | TowerBulletsFired rises by 1 and no other field changes |
| Stats.GameStats.UpdateCreepBulletsFired | components/stats.go:57-59 | CreepBulletsFired rises by 1 and no other field changes |
| Stats.GameStats.UpdateBulletsExpired | components/stats.go:60-62 | BulletsExpired rises by 1 and no other field changes |
| Stats.GameStats.UpdatePlayerDeaths | components/stats.go:63-65 | PlayerDeaths rises by 1 and no other field changes |
| Stats.GameStats.Reset | components/stats.go:71-83 | the new record is the reset of the old one |
| Strconv.DigitChar | game/game.go:181 | a digit's character is the decimal digit with that value |
| Strconv.NatToString | game/game.go:181 | a natural number prints as at least one decimal digit, with no leading zero |
| Strconv.Itoa | game/game.go:181 | %d prints a non-empty string: digits alone for a non-negative number, a minus sign then digits for a negative one |
| Strconv.DigitsOfNat | game/game.go:181 | the digits printed for a natural number spell that number |
| Strconv.Atoi | game/game.go:166-172 | an accepted number is an optional sign and digits and fits 64 bits; the empty string is a syntax error with 0; a run of digits within range reads as its value; a leading digit run past 2^64-1 is a range error with the bound on its sign's side, even before a stray character; any error yields 0 or a 64-bit bound |
| Strconv.AtoiItoa | game/game.go:166-172 | Atoi reads back what %d prints, for every 64-bit value |
| Strconv.AtoiSyntaxError | game/game.go:166-172 | a string ending in a character other than a digit (or a sign alone) is an error: 0, unless its leading digits pass 2^64-1, which yield the bound |
| Strconv.Split | game/game.go:124-125 | strings.Split gives one or more separator-free pieces that join back into the input |
| Strconv.SplitJoin | game/game.go:124-125 | splitting the join of separator-free pieces gives the pieces back |
| Strconv.SplitCons | game/game.go:124-125 | a separator-free piece followed by the separator splits off as the first part |
| Strconv.SplitPiece | game/game.go:125-128 | a separator-free string splits into itself alone, so a line without '=' has one part |
| Scores.KeyNames | game/game.go:129-155 | every case label of the loader's switch selects its own case and holds neither '=' nor a newline |
| Scores.UnknownNames | game/game.go:181 | the labels towersAmmoOut and creepbulletsFired that SaveScores writes have no case in the loader |
| Scores.BareDeathsLine | game/game.go:181 | the player-deaths line SaveScores writes holds no '=' |
| Scores.WithEffects | game/game.go:129-155 | a case sets its own field and no other one, and no case sets TowersAmmoOut |
| Scores.SetField | game/game.go:129-158 | the loop body's assignment for a case stores Atoi's value, or the parsed duration for gameTime |
| Scores.LoadScores | game/game.go:119-164 | the loaded GameStats is fresh and is the line-by-line load of the content, all zero when the file cannot be read |
| Scores.KeyLine | game/game.go:125-131 | a key=value line with a single '=' goes to the case of its key |
| Scores.LineWithoutSeparatorSkipped | game/game.go:125-128 | a line without '=' is skipped |
| Scores.LineWithTwoSeparatorsSkipped | game/game.go:125-128 | a line with two '=' is skipped, because it splits into three parts or more |
| Scores.UnknownKeyIgnored | game/game.go:129-159 | a line whose label has no case is ignored |
| Scores.NonNumericLoadsZero | game/game.go:166-172 | a value that Atoi cannot read loads as Atoi's error value, since parseScore only warns: 0, or the 64-bit bound when its leading digits pass 2^64-1 |
| Scores.ApplyLinesAppend | game/game.go:124 | loading the lines of a and then those of b is loading a + b |
| Scores.OtherLineKeeps | game/game.go:129-159 | a line that does not select a key's case leaves that field alone |
| Scores.OtherLinesKeep | game/game.go:124-160 | lines none of which selects a key's case leave that field alone |
| Scores.LastLineWins | game/game.go:124-160 | the last line that sets a counter decides its value, whatever came before |
| Scores.EmptyContentZero | game/game.go:119-164 | an unreadable file and an empty one both load as all-zero statistics |
| Scores.SplitTerminated | game/game.go:124-181 | newline-terminated lines split back into themselves plus one empty last piece |
| Scores.ItoaNoSeparators | game/game.go:181 | a printed number holds neither '=' nor a newline |
| Scores.EntryNewlineFree | game/game.go:181 | a key=number line holds no newline |
| Scores.EntryApplies | game/game.go:129-181 | a key=number line as written loads the number back into its field |
| Scores.UnknownLineApplies | game/game.go:129-159 | a written line whose label has no case loads nothing |
| Scores.BareLineApplies | game/game.go:125-128 | a written line without '=' loads nothing |
| Scores.TimeApplies | game/game.go:154-158 | the game-time line goes through the duration parser |
| Scores.ApplyEnd | game/game.go:124-128 | the empty piece after the last newline loads nothing |
| Scores.SavedLinesNewlineFree | game/game.go:181 | every line of the file, as written and as corrected, is newline-free once the duration's rendering is |
| Scores.LoadedLines | game/game.go:119-164 | loading a saved file means loading its lines and then the empty piece after the last newline |
| Scores.RoundTrip | game/game.go:119-181 | loading the file written with the loader's own labels restores every stored field; TowersAmmoOut comes back as 0 and the game time as the duration parser's reading |
| Scores.SaveAsWrittenLosesCounters | game/game.go:181 | loading the file as SaveScores writes it also loses CreepBulletsFired and PlayerDeaths, which come back as 0 |
| Scores.CreepBulletLost | game/game.go:181 | a game with one creep bullet fired reloads with none |
| Scores.Max | game/game.go:95-103 | the larger of two high marks |
| Scores.MergeHighMarks | game/game.go:94-103 | each high mark becomes the larger of the kept and the finished game's; every other field is kept |
| Scores.MergeIdempotent | game/game.go:94-103 | merging the same game twice changes nothing more, and merging the kept statistics into themselves changes nothing |
| Scores.Game.constructor | game/game.go:44-46 | NewGame's statistics are those loaded from the score file |
| Scores.Game.SwitchToTitle | game/game.go:93-105 | statistics other than the kept ones have their high marks folded in and the result is saved in the format SaveScores writes, labels as written; the kept ones change nothing and nothing is saved |
| Strategy.LanesClosedForm | strategy/strategy.go:193-200 | there are 7 lanes and lane i is at 24 + 92 i |
| Strategy.MakeLanes | strategy/strategy.go:193-200 | the array makeLanes fills has 7 entries, lane i at 24 + 92 i, which are the package-level lanes |
| Strategy.FirstNear | strategy/strategy.go:203-210 | the first lane with \|x - lane\| < 48, or none exactly when no lane is that near |
| Strategy.FindLane | strategy/strategy.go:203-210 | the loop returns the first lane within 48 of x, or -1 when there is none |
| Strategy.LanesCoverRow | strategy/strategy.go:203-210 | some lane is near x exactly when -24 < x < 624 |
| Strategy.LanesPositive | strategy/strategy.go:193-200 | every lane is at least 24, so findLane's -1 is never a lane |
| Strategy.TowersUpTo | strategy/strategy.go:47-54 | the towers the query visits, each exactly once and in query order |
| Strategy.CreepsUpTo | strategy/strategy.go:47-54 | the creeps that are not towers, each exactly once and in query order |
| Strategy.Collect | strategy/strategy.go:43-54 | the loop splits the query into exactly those towers and those creeps |
| Strategy.LowestLevelUpTo | strategy/strategy.go:180-191 | the first tower of least level (the minimum starts at math.MaxInt and moves only on a strictly smaller level), or none exactly when no level is below math.MaxInt |
| Strategy.FindLowestLevelTower | strategy/strategy.go:180-191 | the loop finds the tower the specification names |
| Strategy.BelowQuarterIsQuotient | strategy/strategy.go:170-171 | the integer test used for "below 25% of MaxHealth" agrees with the quotient whenever MaxHealth is not 0 |
| Strategy.LowestHealthUpTo | strategy/strategy.go:165-178 | among towers below a quarter of their health, the last one of least health (the comparison is <=), or none exactly when there is no such tower |
| Strategy.FindLowestHealthTower | strategy/strategy.go:165-178 | the loop finds the tower the specification names |
| Strategy.Attempt | strategy/strategy.go:57-154 | a Try that comes to nothing leaves the world as it was; one that succeeds reports its own action and no error; only a placement can report an error |
| Strategy.PursueAppend | strategy/strategy.go:57-153 | trying a and then b is trying a, and b only when a came to nothing |
| Strategy.PursueOneAction | strategy/strategy.go:28-163 | at most one action takes effect per call: with none the world is unchanged, otherwise it is exactly what that one action makes of it |
| Strategy.PursueIdle | strategy/strategy.go:28-163 | a call does nothing exactly when every try it makes fails |
| Strategy.PursueFirst | strategy/strategy.go:28-163 | a call that does something stops at the first try that succeeds or errs, every earlier try having failed |
| Strategy.Perform | strategy/strategy.go:61-143 | each Try call changes the world as its specification says |
| Strategy.TryNext | strategy/strategy.go:61-70 | the next try of a pursuit either ends it with the pursuit's result or leaves the world as it was |
| Strategy.BelowCreep | strategy/strategy.go:58-61 | the placement for one creep is at row y |
| Strategy.CreepAttempts | strategy/strategy.go:57-72 | every creep-following placement is at row y |
| Strategy.CreepAttemptsAppend | strategy/strategy.go:57 | the placements for the creeps of a + b are those for a, then those for b |
| Strategy.CreepPlacements | strategy/strategy.go:57-61 | every creep-following placement is at row y, in the lane under some creep's midpoint |
| Strategy.CreepStep | strategy/strategy.go:57-72 | one more creep adds its placement, if any, and the creeps so far give a prefix of all the placements |
| Strategy.PlaceBelow | strategy/strategy.go:58-71 | the loop body either ends the pass with the pursuit's result, or leaves the world unchanged with its placements idle |
| Strategy.FollowCreeps | strategy/strategy.go:57-72 | the creep pass changes the world as trying the creep-following placements in order does, and changes nothing when none succeeds |
| Strategy.SameAttempts | strategy/strategy.go:83-96 | the tries of this block are heals and upgrades of towers |
| Strategy.GapAttempts | strategy/strategy.go:99-115 | the tries of this block are heals and upgrades of towers |
| Strategy.FallbackAttempts | strategy/strategy.go:119-135 | the tries of this block are heals and upgrades of towers |
| Strategy.TowerAttempts | strategy/strategy.go:75-135 | every heal and upgrade the tower blocks try names a tower |
| Strategy.TowerAttemptTargets | strategy/strategy.go:75-135 | upgrades are tried only with at least 7 towers and Money >= 75, on the lowest-health or the lowest-level tower; heals only on the lowest-health tower |
| Strategy.PursueSingle | strategy/strategy.go:84-135 | a single try is pursued by making it |
| Strategy.TryTower | strategy/strategy.go:84-135 | one heal or upgrade changes the world as the pursuit of that one try does |
| Strategy.TrySame | strategy/strategy.go:83-96 | the block changes the world as pursuing its tries does, and changes nothing when none succeeds |
| Strategy.TryGap | strategy/strategy.go:99-115 | the block changes the world as pursuing its tries does, and changes nothing when none succeeds |
| Strategy.TryFallback | strategy/strategy.go:119-135 | the block changes the world as pursuing its tries does, and changes nothing when none succeeds |
| Strategy.TendTowers | strategy/strategy.go:75-135 | the heal-and-upgrade part changes the world as pursuing its tries in order does, and changes nothing when none succeeds |
| Strategy.LanePlaces | strategy/strategy.go:141-143 | one placement per lane at row y, left to right |
| Strategy.RowAttempts | strategy/strategy.go:139-154 | every second-row placement is at row y |
| Strategy.SecondRow | strategy/strategy.go:139-154 | the second-row pass changes the world as trying its placements in order does |
| Strategy.SecondRowLeftToRight | strategy/strategy.go:139-154 | a second-row placement needs Money > 150 and at least 7 towers, and every lane to its left was refused first |
| Strategy.PlanInputs | strategy/strategy.go:30-54 | in a playable world the player and board exist, the towers carry levels and health, the creeps have rectangles, and the lowest-level tower exists when there are towers |
| Strategy.PlanLowest | strategy/strategy.go:79-101 | the lowest-level tower, which the source dereferences, exists whenever there are towers |
| Strategy.PlanOf | strategy/strategy.go:57-154 | every heal and upgrade of the plan names a tower |
| Strategy.Plan | strategy/strategy.go:28-54 | a playable world has a player and a board for the plan's tries |
| Strategy.PlanOfParts | strategy/strategy.go:57-154 | every try of the plan comes from one of its three phases |
| Strategy.PursuePlan | strategy/strategy.go:57-154 | pursuing the plan is pursuing the creep pass, then the tower blocks, then the second row, each only while the earlier ones did nothing |
| Strategy.Update | strategy/strategy.go:28-163 | one call makes the first try of the plan that succeeds or errs, and no other |
| Strategy.PlanPlacements | strategy/strategy.go:57-154 | every placement is on a lane: at Height/2 in the lane under some creep's midpoint, or at Height/2 + 48 when Money > 150 and there are at least 7 towers |
| Strategy.PlanHealsAndUpgrades | strategy/strategy.go:75-135 | Update heals only the lowest-health tower, and upgrades only when upgrades are allowed, and then only the lowest-health or the lowest-level tower |
| Battle.ClampSpeed | scenes/battle.go:48-52 | the speed is kept in 0..60: a negative one becomes 1, one above 60 becomes 60, any other is kept |
| Battle.KeySpeed | scenes/battle.go:108-113 | = raises the speed by 5 up to 60 and - lowers it by 5 down to 0, = first; with neither key the speed is kept |
| Battle.DueByProduct | scenes/battle.go:137 | at speed 0 the gate never opens; at a positive speed it opens exactly when tickCounter times speed exceeds TPS |
| Battle.TimerCounts | scenes/battle.go:200-204 | below 90 the wave timer counts the calls of UpdateEntities |
| Battle.TimerAfterStep | scenes/battle.go:200-204 | one more call of UpdateEntities is one more step of the timer |
| Battle.FirstWaveOnThirtiethCall | scenes/battle.go:200-204 | from the starting timer 60 the first wave comes with the 30th call and the timer is then 0 |
| Battle.WaveEveryNinetyCalls | scenes/battle.go:200-204 | after a wave the next one comes with the 90th call |
| Battle.WaveSize | scenes/battle.go:210-224 | the wave has 1 to 5 creeps: 5 below 0.2, at least 4 below 0.4, at least 3 below 0.6, at least 2 below 0.8, each in both directions |
| Battle.SpawnX | scenes/battle.go:231-252 | creep i's x is its offset into the i-th strip of Width/count, moved to the spawn border or Width minus it when outside them, so inside the border whenever the board is wide enough |
| Battle.Spawned | scenes/battle.go:227-254 | the first k creeps of a wave, in spawn order |
| Battle.SpawnedWave | scenes/battle.go:209-255 | a wave is WaveSize creeps at y = SpawnBorder, under the next ids in turn, each x inside the border when the board is wide enough |
| Battle.SpawnCreeps | scenes/battle.go:209-255 | the loop appends exactly the wave's creeps to the world and keeps its board |
| Battle.SpawnNth | scenes/battle.go:227-254 | one round of the loop appends the wave's next creep under the next id and keeps the world on its board |
| Battle.KeptOn | scenes/battle.go:192-194 | a change that keeps every record's kind keeps the board, and MustFirst finds the Player at the same place |
| Battle.Survivors | scenes/battle.go:82-90 | a record survives Clear exactly when it is not a Bullet, Player, Tower or Creep |
| Battle.SurvivorsOrdered | scenes/battle.go:88-90 | removing records keeps the ids in order |
| Battle.SurvivorsOk | scenes/battle.go:82-90 | Clear leaves a well-formed world with the same board and no Bullet, Player, Tower or Creep |
| Battle.ClearScene | scenes/battle.go:76-92 | after Clear the battle is not over or paused, the counters are a new battle's, speed and high score are kept, and exactly the other records remain |
| Battle.ClearStep | scenes/battle.go:88-90 | each pass of the removal loop removes the next listed record when it matches the query and keeps it otherwise |
| Battle.RemoveCleared | scenes/battle.go:82-90 | the loop leaves exactly the records that do not match the query |
| Battle.InitScene | scenes/battle.go:67-74 | Init appends one Player under the next id and changes nothing else |
| Battle.AppendPlayerOn | scenes/battle.go:68 | the new Player keeps the world on its board and gives it a Player |
| Battle.SpawnOne | scenes/battle.go:227-254 | one more creep of the wave keeps the world on its board |
| Battle.AppendCreepOn | scenes/battle.go:253 | a creep under the next id keeps the world on its board |
| Battle.WaveTimer | scenes/battle.go:200-204 | the timer steps and a wave of WaveSize creeps is appended exactly when it reaches 90, the timer then being 0 |
| Battle.KillIfDead | scenes/battle.go:192-197 | a Player at health 0 or less is killed, and nothing else changes |
| Battle.KilledOn | scenes/battle.go:192-197 | the death check keeps the world's kinds and its Player's place |
| Battle.AppendCreepKeeps | scenes/battle.go:253 | a creep under the next id keeps the world well formed and every record's kind |
| Battle.SpawnedKeeps | scenes/battle.go:227-254 | a wave keeps the world well formed and every record's kind, and gives its creeps the next ids in turn |
| Battle.EntitiesScene | scenes/battle.go:152-207 | UpdateEntities on the records the per-entity pass leaves keeps the scene well formed with its Player, and keeps the speed, the pause and the high score |
| Battle.KilledSpawnedOn | scenes/battle.go:192-204 | the death check followed by the wave keeps the world on its board with a Player |
| Battle.EntitiesSceneIs | scenes/battle.go:152-207 | the scene after UpdateEntities is the pass's world after the death check, plus the wave under the ids after the pass's, with gameOver set on death and the timer stepped; the pass's error is returned |
| Battle.EntitiesStep | scenes/battle.go:192-206 | a wave comes exactly when the timer is 89, then follows the pass's records after the death check, with the timer back at 0; otherwise the timer counts and no record is added; the pass's error is returned |
| Battle.DeathEndsBattle | scenes/battle.go:192-198 | a Player whose health the pass left at 0 or less is killed, the battle is over and the high score is written; otherwise the Player is as the pass left it, gameOver is unchanged and nothing is written |
| Battle.InputScene | scenes/battle.go:130-135 | the Player's step keeps the scene well formed and changes only the world |
| Battle.GateScene | scenes/battle.go:137-146 | the gate keeps the scene well formed, the high score, the speed and the pause |
| Battle.RaiseScore | scenes/battle.go:148 | the high score becomes the larger of itself and the player's score, and nothing else changes |
| Battle.PlayScene | scenes/battle.go:129-150 | the unpaused part of Update never lowers the high score and keeps the speed and the pause |
| Battle.AfterReset | scenes/battle.go:99-102 | R leaves a battle with a Player, not over and not paused, with the high score and speed kept |
| Battle.NamesTowersAfterReset | scenes/battle.go:99-135 | an input naming towers of the world after the reset names towers of the world it is applied to |
| Battle.KeysScene | scenes/battle.go:108-127 | the keys change only speed and pause, and the pause flips exactly when P or Space is pressed |
| Battle.UpdateScene | scenes/battle.go:98-151 | Update keeps the scene well formed and never lowers the high score |
| Battle.GameOverFreezes | scenes/battle.go:104-106 | a finished battle ignores every key but R and changes nothing |
| Battle.PauseFreezes | scenes/battle.go:121-127 | while paused only the speed keys and the pause toggle act, and nothing is simulated |
| Battle.StoppedNeverSimulates | scenes/battle.go:137-146 | at speed 0 the gate only counts the tick |
| Battle.GatePeriod | scenes/battle.go:137-146 | at a positive speed the gate stays shut for tickCounter 0 to TPS/speed and opens on the next one |
| Battle.GateOpens | scenes/battle.go:137-142 | an open gate restarts the tick counter and runs UpdateEntities |
| Battle.SavedScoreLoads | scenes/battle.go:279-296 | what SaveScores writes LoadScores reads back, for every 64-bit high score |
| Battle.UnreadableScoreLoadsZero | scenes/battle.go:279-290 | a missing file or an empty one loads 0; so does one ending in a stray character, unless its leading digits pass 2^64-1, which load the bound |
| Battle.NewScene | scenes/battle.go:41-65 | NewBattleScene's scene is well formed on its board |
| Battle.BattleScene.constructor | scenes/battle.go:41-65 | a new world holding just the board, the speed clamped, the high score loaded, the wave timer at 60 |
| Battle.BattleScene.Init | scenes/battle.go:67-74 | the scene becomes InitScene of the old one, and no error |
| Battle.BattleScene.Clear | scenes/battle.go:76-92 | the scene becomes ClearScene of the old one |
| Battle.BattleScene.End | scenes/battle.go:268-275 | the battle is over and the high score text is what SaveScores writes |
| Battle.BattleScene.UpdateEntities | scenes/battle.go:152-207 | the scene becomes EntitiesScene of the old one and the pass |
| Battle.BattleScene.RunPass | scenes/battle.go:154-190 | the world holds the records and the next id the pass leaves, and the pass's error is returned |
| Battle.BattleScene.DeathCheck | scenes/battle.go:192-198 | the scene becomes DeathStep of the old one, and End's text is returned exactly when the Player dies |
| Battle.BattleScene.NextWave | scenes/battle.go:200-204 | the scene becomes WaveStep of the old one |
| Battle.BattleScene.PlayerStep | scenes/battle.go:130-135 | the scene becomes InputScene of the old one |
| Battle.BattleScene.GateStep | scenes/battle.go:137-146 | the scene becomes GateScene of the old one |
| Battle.BattleScene.Play | scenes/battle.go:129-150 | the scene becomes PlayScene of the old one |
| Battle.BattleScene.RaiseHighScore | scenes/battle.go:148 | the scene becomes RaiseScore of the old one |
| Battle.BattleScene.Update | scenes/battle.go:98-151 | the scene becomes UpdateScene of the old one, and the scene stays valid |
| Battle.BattleScene.Reset | scenes/battle.go:99-102 | the scene becomes AfterReset of the old one |
| Battle.BattleScene.ApplyKeys | scenes/battle.go:108-127 | the scene becomes KeysScene of the old one |

## Left out

- Drawing, widgets, sprites and sound (ebiten, ebitenui, the asset loader) are not modelled. `PlaySound` is treated as doing nothing, and image bounds (the tower, base and creep images) are parameters.
- The network, the server, the controller and the component registration are not modelled.
- Configuration (the debug flag, the grid-lines flag, the L and D keys of the battle scene, `printTries`, `playSound`) only guards printing and drawing, so it is left out. The two unguarded debug prints of `BulletData.Update` (components/bullets.go:59,63) are not modelled either, since the model has no output.
- Floating point is computed in exact arithmetic. The tick gate and the quarter-health test have integer forms proved equal to the exact quotient (`Battle.DueByProduct`, `Strategy.BelowQuarterIsQuotient`). Float32 rounding is not modelled.
- The bullet's float step towards its end point (`math.Ceil`) is an input: the next point `(newX, newY)`.
- LaunchBullet's lead-aim Y offset is the `LeadFn` parameter. Only its integer frame is modelled: the start, the end X, and when the offset applies.
- Distances are squared integers rather than `math.Sqrt` values. The range bound Dx+Dy is compared squared.
- Random draws (`rand.Float32`, `rand.Intn`, the creep augment and the sprite pick) are parameters: the `Wave` datatype and the arguments of `NewCreep`.
- File I/O is modelled as text, with None for a file that cannot be read. `os.ReadFile`, `os.WriteFile` and `ensureDir` are not modelled, so neither are the write errors `End` and `SaveScores` would return.
- Time is not modelled. `StartTime`, `CalcDuration` and the `%v` rendering of the duration are the `dur` string. `time.ParseDuration` is the `pd` parameter.
- Code of the game that this model does not include enters as parameters of `TowerEnv`:
  - `towerManager.GetHealCost` and `GetUpgradeCost`, as the costs;
  - `Tower.Heal` and `Tower.Upgrade`, as the success predicates. They are predicates only: the model leaves the tower's record unchanged when they succeed, so what they do to its level, health and attack is not modelled;
  - `NewTower`, as its template record and its error.
- `comp.GetMaxTowerLevel` is the `maxLevel` parameter. `comp.SpawnBorder` and ebiten's TPS are fields of `Battle.Outside`.
- `findTower` (the tower under the cursor for the H and U keys) is not part of this model. The input carries its answer.
- `DetectCollisionsWorld` is not part of this model. The model assumes that its `filter.Contains(Player)` argument (components/player.go:196) selects the entities that block, so that only the Player blocks a placement, which is the game's stated design (towers may overlap towers and creeps). This is an assumption. `DetectCollisions` takes an exclude filter (components/entity.go:26); if `DetectCollisionsWorld` passed its filter on as that exclude filter, the Player would be the one entity that never blocks, and every other sprite would.
- The per-entity pass of `UpdateEntities` is modelled one entity at a time, as `Creeps.Update`, `BulletMotion.Update` and the Player's attack step `Player.GameSpeedUpdate`. The tower's own Update is not part of this model. The pass enters the battle scene as an input, the `Pass` value: the records it leaves, the next id and its error. The scene requires only that the pass keeps the world on its board with increasing ids and keeps a Player. That the pass is the composition of those single-entity steps in the live query's order under removal is not modelled.
- `BulletMotion.Update`: the `OnKillCreep` callback that a tower's bullet passes (components/bullets.go:75) is not part of this model. A kill is returned as the `Killed` outcome, and the callback's effects are not applied.
- Money, the score, the creep level and the statistics counters are Go `int`s, 64 bits wide. The model's integers are unbounded, so wrap-around on overflow is not modelled. The 64-bit range of Atoi and Itoa is modelled.
- `NewPlayer` sets `noLead: true` on the Player's attack (components/player.go:48). The attack component of components/attacks.go has no such field at this revision, so the model's attack record has none.
- `Battle.RemoveCleared` removes the matching records of a snapshot taken before the loop, one at a time. Donburi's behaviour of removing during `query.Each` is not modelled.
- The donburi library itself (queries, filters, `CreateOrFilter`) is replaced by the ordered sequence of records and the `Filter` datatype.
- The statistics display names (`makeDisplayName`, which components/stats_test.go exercises) are not part of this model.
- `Strategy.Update`: it requires that some tower has a level below math.MaxInt whenever there is a tower. Without that, the source dereferences a nil lowest-level tower and panics.
- `Strategy.Update` and `Battle.BattleScene.Update` require a Player and a board. The source's `MustFirst` panics without them.
- `Battle.BattleScene.Update`: it requires the wave's `rand.Intn` draws to lie in range. `rand.Intn` panics on a bound of 0 or less, which happens when the board is narrower than the wave's creep count.
- `Player.NewPlayer`: it never returns an error. The error path of `srvsync.NetworkSync` is not modelled because the network is not part of this model; on that path the base would be created without its components.
- The modelled source files come from different revisions. Each file's own code is modelled:
  - lower-case `pos` and `Render` in creeps.go and bullets.go;
  - `AttackEnemyRange` taking a set of enemy types, since callers pass several;
  - the attack component's inline cooldown next to util/cooldown.go's timer;
  - scenes/battle.go:132 calls `player.Update(pe)`, which components/player.go does not define. Following the comment at scenes/battle.go:129, the model reads the call as `UserSpeedUpdate` (`Battle.BattleScene.PlayerStep`);
  - components/attacks.go:173 calls `NewBullet` with five arguments, one of them a speed. components/bullets.go:31 takes four and fixes the speed at 4 (components/bullets.go:39), and the model follows bullets.go.

## Findings

| source | as written | input that shows it | evidently intended | confidence | as-written member | corrected member |
|---|---|---|---|---|---|---|
| game/game.go:181 | SaveScores writes the labels `creepbulletsFired=` and `playerDeaths` with no `=`, which the loader's cases for `creepBulletsFired` and `playerDeaths` (game/game.go:148,152) never match | a game with CreepBulletsFired = 1 saved and loaded back has CreepBulletsFired = 0; the same holds for PlayerDeaths | labels `creepBulletsFired=` and `playerDeaths=`, so both counters round-trip | not executed | Scores.SaveAsWrittenLosesCounters | Scores.RoundTrip |
