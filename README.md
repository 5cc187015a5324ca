# Gymling battle and progression engine, in Dafny

Gymling is a fitness game. Logging a workout earns XP for the player and for a creature. The creature levels up and evolves, then fights monsters in a turn-based arena; battles cost energy and pay XP. This project models that engine and proves what its code promises:

- the battle simulator, in its current form and its older copy;
- the XP reward;
- the workout metrics and the level-up loop;
- the one-shot evolution;
- the energy ceiling;
- the AI rival and the monster tables;
- the creature cache and its normalisation;
- the arena's monster offer, lock test and guards;
- the duel's entry step with its daily lock.

Modules, one per file:

| file | module | models |
|---|---|---|
| common.dfy | Common | `Option`, `Math.round` as `Round`, `Max`/`Min` |
| models.dfy | Models | stats, creature, bag item, monster, workout records |
| initial_data.dfy | InitialData | the initial creature and player stats |
| energy.dfy | Energy | energy ceiling and clamp |
| evolution.dfy | Evolution | `checkEvolution` |
| battle.dfy | Battle | `computeXpGain`; `simulateBattle` as a method with its loop, proved equal to the function `Simulate` |
| battle_properties.dfy | BattleProperties | what every battle trace satisfies, proved about `Simulate` |
| monsters.dfy | Monsters | element tables, dominant element, AI rival, the static monster list |
| creature_store.dfy | CreatureStore | `normalizeCreature`; the module cache as a class `Store` with `updateCreature` and `hydrateCache` |
| workout.dfy | WorkoutLog | metrics loop, level-up loop, templates, editors, `hasLoggedSets`, `saveWorkout` |
| arena.dfy | Arena | roster, level-window offer with a stable sort, lock test, guards, toggles, status line |
| duel.dfy | Duel | prep parsing, monster lookup, `startBattle` |
| legacy_battle.dfy | LegacyArena | the older screen's offer, energy cost 12 and XP update |

Conventions:

- **Numbers.** Game numbers are `int`. Decimal multipliers (1.4, 0.85, 1.15, …) are exact `real`s. `Math.round(x)` is `floor(x + 0.5)`.
- **Randomness.** `Math.random` is replaced by a sequence of rolls in [0, 1) supplied by the caller. Round k uses roll 2k-2 for the creature's hit and roll 2k-1 for the monster's counter.
- **Clock and ids.** Today's day key, the clock and ids are parameters.
- **Storage.** Storage is explicit: what a step reads is a parameter and what it would write is its result.
- **The two battle engines.** They are one engine with a `Variant`:
  - `Canonical` is lib/battle.ts, with bag items;
  - `Legacy` is app/battle.tsx: no bag items, and its counter and potion events report the monster's HP as it was before that round's ally strike.

After a lost duel, both battle screens tell the player to log a workout to reset the cooldown (app/battle/index.tsx:124 and :141, app/battle/duel.tsx:78). `saveWorkout` (app/workout.tsx:227-274) never writes the stored lock, so a saved workout leaves it in place. `WorkoutLog.SaveWorkout` follows the code and does not touch the lock; the gap between message and code is the third row of "## Findings".

## Model

| member | source | states |
|---|---|---|
| Common.Round | lib/battle.ts:62 | `Math.round` rounds half up: the result is within half a unit of x, above x - 0.5 |
| Common.RoundMonotone | lib/battle.ts:62 | rounding never reverses an order |
| Common.RoundOfInt | lib/battle.ts:62 | rounding an integer gives it back |
| Models.AddToAll | app/workout.tsx:75-80 | every one of the four stats moves by the same amount |
| InitialData.InitialCreatureResolved | models/initialData.ts:4-9 | the initial creature is level 1, stage 1, xp 0 below xpToNext 100, with every stat 1 |
| InitialData.InitialEnergyFull | models/initialData.ts:39-42 | a new player's 30 energy is the full ceiling for the initial creature's level, with 0 XP |
| InitialData.InitialBagIds | models/initialData.ts:11-30 | the bag holds exactly potion-small, charm-spark and snack, the ids the battle looks for |
| Energy.MaxEnergyForLevel | lib/energy.ts:1 | 30 at level 1 and below, 5 more per level above, never below 30 |
| Energy.MaxEnergyExamples | lib/energy.ts:1 | level 1 gives 30 and level 5 gives 50 |
| Energy.MaxEnergyMonotone | lib/energy.ts:1 | the ceiling never falls as the level rises |
| Energy.ClampEnergyToLevel | lib/energy.ts:3-4 | the result lies in [0, ceiling]; energy in range is kept; above clamps to the ceiling, below to 0 |
| Energy.ClampIdempotent | lib/energy.ts:3-4 | clamping twice is clamping once |
| Evolution.CheckEvolution | models/evolution.ts:3-18 | at level 5 or more and stage 1: stage 2, name Gymbrute, each stat +5; otherwise the creature is unchanged; level, xp, xpToNext, bag and image are always kept and the stage never falls |
| Evolution.CheckEvolutionIdempotent | models/evolution.ts:4 | a second check changes nothing |
| Battle.XpMultiplier | lib/battle.ts:58 | 1.15 with the coop toggle, else 1; its effect on the reward is stated by `ComputeXpGain` |
| Battle.ComputeXpGain | lib/battle.ts:58-63 | without an ally the full reward on a win and the floored quarter on a loss; with one, that base times 1.15 rounded to the nearest integer; never below a non-negative base |
| Battle.SetUp | lib/battle.ts:102-103 | an ally strike exists exactly with the coop toggle, and is then at least 8 |
| Battle.HitDamage | lib/battle.ts:107-110 | the creature's hit is never below 8 |
| Battle.RawCounterDamage | lib/battle.ts:145-148 | the monster's counter is never below 6 before the charm |
| Battle.CounterDamage | lib/battle.ts:149-156 | the spark charm only ever lowers the counter, does so exactly when it is equipped against Lightning, and leaves at least 5 |
| Battle.Strike | lib/battle.ts:107-122 | the creature's hit on the loop state: the monster loses the hit damage and a hit event is appended; its properties are `BattleProperties.HitStep` and `LinkedHitKnockout` |
| Battle.Ally | lib/battle.ts:127-139 | the ally strike, only with coop and a standing monster; its properties are `BattleProperties.AllyStep` and `LinkedAllyKnockout` |
| Battle.MonsterCounter | lib/battle.ts:145-168 | the monster's counter on the loop state; its properties are `BattleProperties.CounterStep`, `LinkedCountered` and `DamageFloors` |
| Battle.DrinkPotion | lib/battle.ts:169-186 | the potion check after a counter; its properties are `BattleProperties.PotionStep`, `PotionOnce`, `PotionHealAmount` and `PotionAfterCounter` |
| Battle.PlayRound | lib/battle.ts:106-187 | one round, ending at a knockout by the hit or the ally; its properties are `BattleProperties.StepTrace` and `StepLinked` |
| Battle.RunRounds | lib/battle.ts:106-187 | the round loop from a given round; its properties are `BattleProperties.RunRoundsTrace` and `FightStops` |
| Battle.RunRoundsStep | lib/battle.ts:106-187 | while the fight continues, the loop is one round followed by the loop from the next round |
| Battle.RunRoundsDone | lib/battle.ts:106 | once the loop guard fails, the loop leaves the state as it is |
| Battle.Narrate | lib/battle.ts:114-115 | one log line per event, in event order |
| Battle.NarrateAppend | lib/battle.ts:114-115 | pushing an event pushes its line |
| Battle.Simulate | lib/battle.ts:65-202 | with no creature: a loss, no events, the single missing-creature line and both starting HPs 0; otherwise the monster's health as its starting HP, one line per event, then exactly one closing line |
| Battle.Record | lib/battle.ts:114-122 | the event is appended and the log keeps narrating the events |
| Battle.CreatureHit | lib/battle.ts:107-122 | one hit: the monster loses the damage and the event is recorded, as `Strike` says |
| Battle.AllyTurn | lib/battle.ts:127-139 | the ally strike, as `Ally` says |
| Battle.MonsterTurn | lib/battle.ts:145-186 | the counter and the optional potion, as `MonsterCounter` and `DrinkPotion` say |
| Battle.PotionCheck | lib/battle.ts:169-186 | the potion is drunk only when it is still there and the creature stands at 40% of its HP or less, as `DrinkPotion` says |
| Battle.PlayOneRound | lib/battle.ts:106-187 | one round of the loop, stopping at a knockout, as `PlayRound` says |
| Battle.NextRound | lib/battle.ts:106-187 | one pass of the loop body computes `PlayRound`, keeps the log narrating the events, and leaves the loop's final state unchanged |
| Battle.RoundLoop | lib/battle.ts:106-187 | the `for` loop over rounds returns exactly `RunRounds` from round 1 and a log narrating its events |
| Battle.SimulateBattle | lib/battle.ts:65-202 | the imperative engine returns exactly `Simulate` of its inputs |
| BattleProperties.SetUpOk | lib/battle.ts:102-104 | the heal is never negative and the ally strike is 0 or at least 8 |
| BattleProperties.PotionCountAppend | lib/battle.ts:169-186 | appending one event adds one potion when it is a heal and nothing otherwise |
| BattleProperties.RecordedAppend | lib/battle.ts:106-187 | a trace stays well formed when a well-formed event is appended |
| BattleProperties.TraceInitial | lib/battle.ts:94-95 | the empty trace before round 1 is linked to the starting HPs |
| BattleProperties.HitStep | lib/battle.ts:107-122 | a hit keeps the trace well formed |
| BattleProperties.AllyStep | lib/battle.ts:127-139 | an ally strike keeps the trace well formed |
| BattleProperties.CounterStep | lib/battle.ts:145-168 | a counter keeps the trace well formed |
| BattleProperties.PotionStep | lib/battle.ts:169-186 | a potion keeps the trace well formed |
| BattleProperties.StepRecorded | lib/battle.ts:106-187 | a whole round keeps the trace well formed |
| BattleProperties.LinkedHitKnockout | lib/battle.ts:123-126 | a knockout by the hit leaves monster HP 0 in state and trace |
| BattleProperties.LinkedAllyKnockout | lib/battle.ts:140-143 | a knockout by the ally leaves monster HP 0 in state and trace |
| BattleProperties.LinkedCountered | lib/battle.ts:157-168 | after a counter the last event shows the clamped creature HP |
| BattleProperties.LinkedPotion | lib/battle.ts:174-186 | after a potion the last event shows the healed HP and one potion is used |
| BattleProperties.LinkedCounter | lib/battle.ts:145-186 | counter and potion together keep state and trace linked |
| BattleProperties.StepLinked | lib/battle.ts:106-187 | a whole round keeps state and trace linked |
| BattleProperties.StepTrace | lib/battle.ts:106-187 | a whole round keeps the trace invariant |
| BattleProperties.StopRound | lib/battle.ts:106 | the loop stops at some round between the current one and 7 |
| BattleProperties.RunRoundsTrace | lib/battle.ts:106-187 | the round loop ends with the invariant holding and its guard false |
| BattleProperties.FightTrace | lib/battle.ts:106-187 | a whole fight satisfies the trace invariant and ends with the loop guard false |
| BattleProperties.SimulateFight | lib/battle.ts:189-201 | the outcome's events, win flag and starting HPs are those of the final fight state |
| BattleProperties.RoundsSorted | lib/battle.ts:106 | rounds that never decrease step by step never decrease between any two events |
| BattleProperties.RecordedBounded | lib/battle.ts:106-185 | every event of a trace has round 1..6, creature HP in [0, start] and monster HP at least 0, with rounds in order |
| BattleProperties.EventsBounded | lib/battle.ts:106-185 | every event has round 1..6, creature HP in [0, starting HP] and monster HP at least 0; rounds never decrease |
| BattleProperties.RecordedDamage | lib/battle.ts:107-168 | hits at least 8, ally strikes equal to the setup's and at least 8, counters at least 6 or mitigated to at least 5 |
| BattleProperties.DamageFloors | lib/battle.ts:85-156 | hits at least 8; ally strikes only with coop and equal to max(8, round(0.4·(str+agi))); counters at least 6, or at least 5 when mitigated, and mitigated exactly when the bag's spark charm faces a Lightning monster in the current engine |
| BattleProperties.RecordedPotions | lib/battle.ts:169-186 | every heal in a trace has the setup's amount, follows a counter that left 0 < HP ≤ 40% of start, and stays at or below the start |
| BattleProperties.PotionOnce | lib/battle.ts:87-186 | the potion fires at most once, and never without the toggle or a bag potion |
| BattleProperties.FightPotions | lib/battle.ts:169-186 | every heal of a fight has the set-up's amount and follows the counter that justifies it |
| BattleProperties.PotionHealAmount | lib/battle.ts:104 | a heal restores round(start × 0.35) with the bag potion and round(start × 0.3) otherwise |
| BattleProperties.PotionAfterCounter | lib/battle.ts:169-186 | a heal directly follows that round's counter, which left 0 < HP ≤ 40% of start; HP becomes min(HP + heal, start) |
| BattleProperties.RecordedKnockout | lib/battle.ts:123-143 | only the last event of a trace can show monster HP 0, and it is a hit or an ally strike |
| BattleProperties.KnockoutEndsFight | lib/battle.ts:123-143 | every event before the last shows both sides alive; a knockout is the last event and is the creature's hit or ally strike, with no counter after it |
| BattleProperties.FightStops | lib/battle.ts:106 | the fight ends at round 6 or when one side is at 0 |
| BattleProperties.WinRule | lib/battle.ts:189 | a win exactly when the monster ends at 0 and the creature is alive, so a stalemate after 6 rounds is a loss |
| BattleProperties.CounterReportsMonsterHP | app/battle.tsx:96-167 | a counter's monster HP is the one after the ally strike, and the older copy shows the one after the hit |
| BattleProperties.StartingHP | lib/battle.ts:85-93 | creature HP is (sta + 2·fed + snack)·20 + level·10 + 60 and monster HP is its health |
| BattleProperties.LegacySetUp | app/battle.tsx:79-94 | the older copy: STA bonus 2·fed only, defense bonus 5·charm only, potion only from the toggle, a 30% heal, no mitigation |
| BattleProperties.PlayRoundCopiesAgree | app/battle.tsx:96-167 | without an ally strike one round is the same in both copies |
| BattleProperties.RunRoundsCopiesAgree | app/battle.tsx:96-167 | without an ally strike the whole loop is the same in both copies |
| BattleProperties.CopiesAgree | app/battle.tsx:61-184 | with no ally and none of the three bag items the two copies give the same outcome |
| BattleProperties.XpExamples | lib/battle.ts:58-63 | 100 XP pays 100 on a win, 25 on a loss and 115 on a co-op win |
| BattleProperties.WinPaysAtLeastLoss | lib/battle.ts:60-62 | a win never pays less than a loss |
| Monsters.Opposite | constants/monsters.ts:20-46 | the opposite-element table; its properties are `OppositeNoFixedPoint` and `OppositeNotInvolution` |
| Monsters.OppositeNoFixedPoint | constants/monsters.ts:20-28 | no element is its own opposite |
| Monsters.OppositeNotInvolution | constants/monsters.ts:20-46 | Lightning→Shadow→Light→Shadow, so the table is not an involution; it is one on every other element, and nothing maps to Lightning |
| Monsters.FirstMax | constants/monsters.ts:41-42 | the chosen key holds the largest value and is the first key that does |
| Monsters.TopStat | constants/monsters.ts:41-42 | the top stat holds the largest value |
| Monsters.DominantElement | constants/monsters.ts:37-44 | Shadow without a creature, else the affinity of the top stat |
| Monsters.TopStatTies | constants/monsters.ts:41-42 | ties go to the earliest of str, agi, sta, int |
| Monsters.RivalLevel | constants/monsters.ts:52 | max(2, level + 1): at least 2, above the creature, 2 without one |
| Monsters.CreateAiRival | constants/monsters.ts:48-74 | id ai-rival; level at least 2 and above the creature's; element the opposite of the dominant one, never Lightning; xpReward at least 60 and 12·level; recommendedStr at least str + 2 |
| Monsters.RivalWithoutCreature | constants/monsters.ts:30-58 | with no creature: level 2, Light, health 72, attack 8, defense 5, reward 60, recommended 7 |
| Monsters.RivalGrowsWithLevel | constants/monsters.ts:52-58 | for the same stats a higher level never weakens the rival |
| Monsters.Ids | constants/monsters.ts:75-273 | the ids of the list, position by position |
| Monsters.StaticMonstersFacts | constants/monsters.ts:75-273 | 14 monsters, Hydra Prime first, ids pairwise distinct and none ai-rival, levels at least 2, health and rewards positive |
| CreatureStore.MergeStats | hooks/use-creature.ts:9-12 | each stored stat key overrides the default, the others keep it |
| CreatureStore.NormalXp | hooks/use-creature.ts:18 | xp is kept only when it is a finite number, else 0 |
| CreatureStore.NormalXpToNext | hooks/use-creature.ts:19-22 | xpToNext is kept only when it is a number above 0, else 100 |
| CreatureStore.Normalize | hooks/use-creature.ts:8-24 | the initial creature overridden field by field by what is stored, stats merged, and xpToNext always positive |
| CreatureStore.NormalizeStored | hooks/use-creature.ts:8-24 | a complete creature is normal exactly when its xpToNext is positive |
| CreatureStore.NormalizeIdempotent | hooks/use-creature.ts:8-24 | normalising twice is normalising once |
| CreatureStore.InitialNormal | hooks/use-creature.ts:44 | the initial creature is already normal |
| CreatureStore.Store.constructor | hooks/use-creature.ts:26-27 | empty cache, not hydrating |
| CreatureStore.Store.Base | hooks/use-creature.ts:79 | the cache, or the initial creature when it is empty; while the cache holds only normalised creatures its xpToNext is positive, which is what `WorkoutLog.SaveWorkout` and `ApplyXpGain` require |
| CreatureStore.Store.Update | hooks/use-creature.ts:78-84 | the cache and the value written become the normalised updater result on the base |
| CreatureStore.Store.HydrateStart | hooks/use-creature.ts:34-38 | nothing happens while a hydration is in progress; the cache is kept, and with it the guarantee that every cached creature is normalised |
| CreatureStore.Store.HydrateFinish | hooks/use-creature.ts:39-51 | the cache becomes the normalised stored creature, or the initial one which is then written back; the flag is cleared |
| WorkoutLog.TrimStart | app/workout.tsx:111 | removes exactly the leading JavaScript white space |
| WorkoutLog.TrimEnd | app/workout.tsx:111 | removes exactly the trailing JavaScript white space |
| WorkoutLog.TrimEmpty | app/workout.tsx:111 | a name trims to something exactly when it has a character that is not white space |
| WorkoutLog.HasLoggedSets | app/workout.tsx:107-115 | some exercise has a name that does not trim to nothing and a set with positive reps and a weight of at least 0; the save's first guard (`WorkoutLog.SaveWorkout`) |
| WorkoutLog.Volume | app/workout.tsx:50-58 | weight × reps summed over every set of every exercise, a missing value counting as 0; stated against the loop by `CalculateWorkoutMetrics` |
| WorkoutLog.SetCount | app/workout.tsx:50-58 | the number of sets over all exercises; stated against the loop by `CalculateWorkoutMetrics` |
| WorkoutLog.XpPreview | app/workout.tsx:61 | max(20, round(volume / 15) + 4·sets), so never below 20 |
| WorkoutLog.VolumeNonNegative | app/workout.tsx:54-59 | with no negative weights or reps the volume is never negative |
| WorkoutLog.SetsVolumeNonNegative | app/workout.tsx:55-58 | the same for one exercise's sets |
| WorkoutLog.CalculateWorkoutMetrics | app/workout.tsx:50-63 | the nested loops total weight × reps over every set, missing values as 0, count every set, and give the XP preview |
| WorkoutLog.LevelUp | app/workout.tsx:71-81 | one pass: a level and one point in every stat gained, a threshold's worth of XP spent, the threshold not lowered |
| WorkoutLog.Settle | app/workout.tsx:70-82 | the level-up loop as a function; its properties are `SettleFacts` |
| WorkoutLog.SettleFacts | app/workout.tsx:70-82 | the loop ends below the threshold, which never shrinks; each level gained adds one to every stat; a level is gained exactly when the XP reached the threshold |
| WorkoutLog.GainXp | app/workout.tsx:65-90 | the loop followed by the evolution check; its properties are `GainXpFacts` and `GainXpIsNormal` |
| WorkoutLog.ApplyXpGain | app/workout.tsx:65-90 | the while loop and the evolution check give exactly `GainXp` |
| WorkoutLog.GainXpFacts | app/workout.tsx:65-90 | after a gain: xp below xpToNext, xpToNext and level never lower, each stat up by the levels gained plus 5 on evolving, bag and image kept, stage never lower |
| WorkoutLog.RealLevelUp | app/workout.tsx:72-74 | one pass on fractional counters: the threshold is spent; a threshold of at least 1 stays at least 1, and one in [0, 0.4] becomes 0 |
| WorkoutLog.KeptXpToNext | hooks/use-creature.ts:19-22 | the stored threshold is kept exactly when it is positive; the result is always positive |
| WorkoutLog.FractionalThresholdHangs | app/workout.tsx:71-82 | a stored 0.4 is kept, a gain of 20 takes the counters to 19.6 and 0, and from any threshold of 0 the guard holds and a pass changes nothing, so the loop never ends |
| WorkoutLog.SafeXpToNext | hooks/use-creature.ts:19-22 | the corrected rule: the result is at least 1, and the stored threshold is kept exactly when it is at least 1 |
| WorkoutLog.RealSettle | app/workout.tsx:71-82 | from a threshold of at least 1 the loop on fractional counters ends, below its threshold, with xp never raised |
| WorkoutLog.GainXpIsNormal | app/workout.tsx:258 | the levelled creature passes through the cache's normalisation unchanged |
| WorkoutLog.DeepCopyExercises | app/workout.tsx:37-41 | names and sets kept in order, cardio dropped |
| WorkoutLog.CopyKeepsVolume | app/workout.tsx:37-41 | a copy has the same volume and set count |
| WorkoutLog.DeepCopyFacts | app/workout.tsx:37-41 | a copy is worth the same XP, passes the same guard, and copying again changes nothing |
| WorkoutLog.CreateWorkoutFromTemplate | app/workout.tsx:43-48 | a new id and date, exercises deep-copied, all else kept |
| WorkoutLog.RemoveAt | app/workout.tsx:138 | the element at the index is dropped and the rest keep their order; any other index drops nothing |
| WorkoutLog.UpdateAt | app/workout.tsx:144-148 | only the indexed exercise is replaced |
| WorkoutLog.AddExercise | app/workout.tsx:132-135 | a "New Exercise" with no sets is appended |
| WorkoutLog.RemoveExercise | app/workout.tsx:137-139 | the exercise at the index is filtered out; stated by `RemoveAt`, `EditorsAreLocal` and `AddRemoveRoundTrip` |
| WorkoutLog.AddSet | app/workout.tsx:141-150 | an empty set appended to the indexed exercise; stated by `EditorsAreLocal` and `AddRemoveRoundTrip` |
| WorkoutLog.RemoveSet | app/workout.tsx:152-160 | the indexed set filtered out of the indexed exercise; stated by `EditorsAreLocal` and `AddRemoveRoundTrip` |
| WorkoutLog.RenameExercise | app/workout.tsx:162-168 | the indexed exercise renamed; stated by `EditorsAreLocal` |
| WorkoutLog.ChangeSet | app/workout.tsx:170-188 | one field of the indexed set replaced by the parsed number; stated by `EditorsAreLocal` |
| WorkoutLog.EditorsAreLocal | app/workout.tsx:137-188 | adding or removing a set, renaming and changing a set touch only the indexed exercise, and the set editors only the indexed set |
| WorkoutLog.AddRemoveRoundTrip | app/workout.tsx:132-160 | removing the set or exercise just added restores the workout |
| WorkoutLog.SaveWorkout | app/workout.tsx:227-261 | the guards in order: no logged set, no creature, no stats while not loading; otherwise the saved workout heads the stored log, the creature gets the XP through the cache, the player's XP rises by it and the energy is kept |
| WorkoutLog.SaveCredits | app/workout.tsx:242-261 | a save pays at least 20 XP, keeps the older log entries after the new one, and leaves the creature below its threshold |
| Arena.Roster | app/battle/index.tsx:40 | the AI rival followed by the static monsters |
| Arena.InRange | app/battle/index.tsx:61-62 | exactly the monsters within 10 levels |
| Arena.InRangeByGap | app/battle/index.tsx:61-62 | filtering keeps each gap class within the window whole and in order |
| Arena.WithGapAppend | app/battle/index.tsx:63-66 | a gap class of a concatenation is the concatenation of the classes |
| Arena.Insert | app/battle/index.tsx:63-66 | insertion adds exactly the one monster |
| Arena.SortByGap | app/battle/index.tsx:63-66 | the sort is a permutation |
| Arena.InsertAbove | app/battle/index.tsx:63-66 | a lower bound on the gap that the new monster and the old ones meet still holds after the insertion |
| Arena.InsertSorted | app/battle/index.tsx:63-66 | insertion keeps the order by gap |
| Arena.WithGapCons | app/battle/index.tsx:63-66 | the gap class of a list with a new head is the head, when it has that gap, followed by the rest's class |
| Arena.ConsKeepsClass | app/battle/index.tsx:63-66 | a new head whose gap differs from the inserted monster's leaves the two gap classes related as before |
| Arena.InsertByGap | app/battle/index.tsx:63-66 | the inserted monster goes before every monster with the same gap |
| Arena.SortFacts | app/battle/index.tsx:63-66 | sorted by gap, and stable: each gap class keeps its order |
| Arena.Take | app/battle/index.tsx:68 | `slice(0, n)` |
| Arena.SortedWindowMembers | app/battle/index.tsx:61-66 | the sorted window holds exactly the monsters within 10 levels |
| Arena.PrefixHoldsCloser | app/battle/index.tsx:63-68 | a prefix of a sorted list holds everything strictly closer than one of its members |
| Arena.WindowOffer | app/battle/index.tsx:61-68 | with a monster in the window: the first three of the sorted window, all within it, closest first |
| Arena.AvailableMonsters | app/battle/index.tsx:57-69 | the offer: the first three of the roster without a creature, else the first three of the window sorted by gap, falling back to the roster; its properties are `OfferFacts` |
| Arena.NoneInWindow | app/battle/index.tsx:61-67 | with no monster within the level window the filter keeps nothing, so the offer falls back to the roster |
| Arena.OfferFacts | app/battle/index.tsx:57-69 | at most 3; the first 3 of the roster without a creature or with none in range; otherwise all within 10 levels, by ascending gap, none closer left out, ties in roster order, the offer being exactly the first 3 of the stably sorted window |
| Arena.FindById | app/battle/index.tsx:82 | the first monster of the list with the id: every monster before it has another id; none exactly when no monster has it |
| Arena.Pick | app/battle/index.tsx:80-86 | `find(id) ?? available[0] ?? roster[0]`: the chosen one when offered, else the first offered one, else the roster's head |
| Arena.OfferNonEmpty | app/battle/index.tsx:57-69 | a non-empty roster always yields a non-empty offer |
| Arena.SelectedMonster | app/battle/index.tsx:80-86 | always a roster monster: the chosen one whenever it is offered, else the first offered one (the offer is never empty, so the roster fallback is not reached) |
| Arena.HeadOfferedFirst | app/battle/index.tsx:57-69 | a roster head within the window that no roster monster is closer than is offered first |
| Arena.RivalOfferedFirst | app/battle/index.tsx:40-86 | a creature of level 1 or more whose level no static monster shares is offered its rival first, and the rival's id selects it |
| Arena.OfferMembers | app/battle/index.tsx:57-69 | every offered monster is on the roster |
| Arena.IsLocked | app/battle/index.tsx:45-49 | locked when the stored date is a non-empty string equal to today's key; stated by `LockedOnlyToday` |
| Arena.LockedOnlyToday | app/battle/index.tsx:45-49 | locked exactly when the stored date is today's |
| Arena.HandleBattle | app/battle/index.tsx:134-158 | a fight is queued with the chosen monster and prep |
| Arena.HandleBattleGuards | app/battle/index.tsx:134-154 | a locked arena refuses whatever the energy; a fight is queued exactly when ready, unlocked and with at least 10 energy |
| Arena.TogglePrep | app/battle/index.tsx:160-162 | exactly one key flips |
| Arena.TogglePrepInvolution | app/battle/index.tsx:160-162 | toggling twice restores the prep, and toggles commute |
| Arena.StatusMessage | app/battle/index.tsx:97-108 | recovering while locked, else the energy deficit below 10, else ready; stated against the guards by `StatusMatchesGuards` |
| Arena.StatusMatchesGuards | app/battle/index.tsx:97-108 | the status line agrees with the guards, and the deficit is the energy missing, always positive |
| Arena.VictoryXp | app/battle/index.tsx:89 | the preview is at least the reward, and equal to it without an ally |
| Duel.ParsePrepState | app/battle/duel.tsx:29-42 | defaults for a missing or empty parameter or a parse failure; otherwise each parsed key overrides the default |
| Duel.PrepRoundTrip | app/battle/duel.tsx:29-42 | the prep the arena serialises arrives unchanged |
| Duel.PrepIndex | lib/battle.ts:16-37 | the position of each toggle in the declared options |
| Duel.ActivePrep | app/battle/duel.tsx:154 | the options whose toggle is set, in declared order; stated by `ActivePrepFacts` |
| Duel.ActivePrepFacts | app/battle/duel.tsx:154 | the active options are exactly the set toggles, in declaration order |
| Duel.FindMonster | app/battle/duel.tsx:66-69 | always one of the static monsters, and the first of them for an id no static monster has |
| Duel.FindByIdDistinct | app/battle/duel.tsx:67 | with distinct ids a member is found by its id |
| Duel.FindMonsterFacts | app/battle/duel.tsx:66-69 | every static monster is found by its id; ai-rival and a missing id give Hydra Prime |
| Duel.FoundByOwnId | app/battle/index.tsx:82 | in a list with distinct ids every member is found by its own id |
| Duel.StartBattle | app/battle/duel.tsx:71-98 | refused while locked today, then without 10 energy, writing nothing; otherwise energy − 10, never negative, XP plus `computeXpGain`, lock cleared on a win and set to today on a loss |
| Duel.StartBattleAsWritten | app/battle/duel.tsx:71-84 | the step as written never fights and never reports low energy; it refuses for the lock exactly as the intended step does |
| Duel.NoDuelAsWritten | app/battle/duel.tsx:81-90 | as written no duel is fought, even where the intended step fights |
| Duel.LossLocksTheDay | app/battle/duel.tsx:76-98 | after a loss the next duel that day is refused; after a win or on another day the lock does not refuse |
| Duel.DuelPaysPreview | app/battle/duel.tsx:86-92 | the XP never drops for a non-negative reward, and a win pays the arena's preview |
| Duel.ArenaAgreesWithDuel | app/battle/duel.tsx:76-84 | the arena queues a fight exactly when the duel fights, and refuses for the lock or the energy exactly when the duel does |
| Duel.RivalQueued | app/battle/index.tsx:134-158 | for a creature of level 1 or more whose level no static monster shares, the rival is selected and, with 10 energy or more, the arena queues a duel with the rival's id |
| Duel.RivalFightsHydra | app/battle/duel.tsx:66-69 | for such a creature the duel looks up the selected rival's id and fights Hydra Prime, which is not the rival |
| Duel.RivalIdFallsBack | app/battle/duel.tsx:66-69 | the rival's id is not in the static list, so the lookup falls back to Hydra Prime |
| Duel.InitialMeetsRival | models/initialData.ts:4-9 | the initial creature is level 1, a level no static monster has |
| Duel.FindInRoster | app/battle/index.tsx:40 | the lookup over the arena's roster always yields a roster monster |
| Duel.RosterIdsDistinct | app/battle/index.tsx:40 | the roster's ids are pairwise distinct |
| Duel.DuelFightsSelection | app/battle/index.tsx:80-86 | with the roster lookup the duel fights exactly the selected monster |
| Duel.SaveKeepsLock | app/workout.tsx:227-274 | after a lost duel, a workout with a logged set is saved, and the next duel that day is still refused for the lock |
| Duel.LockAfterSave | app/battle/duel.tsx:78 | the lock as the messages promise: cleared by a saved workout, kept otherwise |
| Duel.SaveResetsCooldown | app/battle/duel.tsx:76-90 | with the lock cleared by the save, the next duel that day is not refused for the lock and is fought exactly when the energy left covers 10; a refused save keeps the lock |
| LegacyArena.LegacyAvailable | app/battle.tsx:210-217 | every monster without a creature, else exactly those within 10 levels, with no cap |
| Monsters.Levels | constants/monsters.ts:75-273 | the levels of the list, position by position |
| LegacyArena.InRangeCount | app/battle.tsx:214-216 | the offer's size is the number of levels within the window |
| LegacyArena.LegacyNoCap | app/battle.tsx:210-217 | a level 5 creature is offered 8 monsters, more than the arena's 3 |
| LegacyArena.LegacyXpGain | app/battle.tsx:256-259 | the reward computed inline; stated equal to `computeXpGain` by `LegacyXpIsComputeXpGain` |
| LegacyArena.LegacyXpIsComputeXpGain | app/battle.tsx:256-259 | the inline reward is `computeXpGain` |
| LegacyArena.LegacyHandleBattle | app/battle.tsx:246-264 | no creature or stats: nothing; below 12 energy: stats unchanged |
| LegacyArena.LegacyBattleFacts | app/battle.tsx:246-264 | energy − 12, never negative; XP the full or quartered reward times 1.15 with an ally, credited to the player |

## Findings

| source | as written | input that shows it | evidently intended | confidence | as-written member | corrected member |
|---|---|---|---|---|---|---|
| app/battle/duel.tsx:66-69 | the duel looks the monster id up in the static list only, but the arena's roster starts with the AI rival (app/battle/index.tsx:40), whose id `ai-rival` is not in that list | the initial creature (level 1) with 10 energy or more and no lock: the arena offers its level 2 rival first, selects it by the id `ai-rival` and queues the duel, which then fights Hydra Prime (level 18), not the rival | look the id up in the roster the arena offered from | not executed | Duel.RivalFightsHydra, with Duel.RivalQueued and Duel.InitialMeetsRival | Duel.DuelFightsSelection |
| app/battle/duel.tsx:81-90 | `startBattle` compares and debits `energy`, a name declared nowhere in the file, so after the lock check the step throws and nothing is written | a creature, stats with 30 energy and no lock: the step aborts instead of fighting | the player's `playerStats.energy` | not executed | Duel.NoDuelAsWritten | Duel.StartBattle |
| app/workout.tsx:227-274 | both battle screens tell a defeated player to log a workout to reset the cooldown (app/battle/index.tsx:124 and :141, app/battle/duel.tsx:78), but `saveWorkout` never writes the stored `battleLock` | lose a duel, then save a workout with a logged set on the same day: the next duel is still refused with the recovery message | a saved workout clears the lock | not executed | Duel.SaveKeepsLock | Duel.LockAfterSave, with Duel.SaveResetsCooldown |
| hooks/use-creature.ts:19-22 | `normalizeCreature` keeps any positive stored xpToNext, but the level-up loop of `applyXpGain` (app/workout.tsx:71-82) rounds a threshold below about 0.435 down to 0, after which `xp >= xpToNext` holds forever | a stored creature with xpToNext 0.4, then a saved workout worth 20 XP: one pass leaves xp 19.6 and xpToNext `Math.round(0.46)` = 0, and the loop never ends | a stored threshold below 1 is replaced by the default 100, as one of 0 or below is | not executed | WorkoutLog.FractionalThresholdHangs, with WorkoutLog.KeptXpToNext and WorkoutLog.RealLevelUp | WorkoutLog.SafeXpToNext, with WorkoutLog.RealSettle |

## Left out

- Storage I/O and the listener plumbing of hooks/use-creature.ts: reads are parameters, writes are results. `Store` holds only the cache and the hydration flag.
- React rendering, navigation, alerts, timers and the cinematic playback of events: presentation only.
- Message text: events and log lines are kinds with numbers; the creature's display name is not modelled.
- `Math.random`, `new Date()`, `Date.now()` and `getTodayKey`: the rolls, the day key, the date and the ids are parameters.
- IEEE double arithmetic: multipliers are exact reals, so no .5 boundary effects.
- `JSON.parse` and `Number(value) || 0`: only their results are modelled. A parsed prep key that is not a boolean is not represented.
- Stored numbers are integers or `Unusable`, which stands for NaN, -Infinity and non-numbers, the values both xp and xpToNext reject. The creature's xp and xpToNext are integers, so a fractional stored value is not represented in it; a fractional threshold is modelled on its own, for the fourth row of "## Findings".
- CreatureStore.NormalXpToNext: a stored xpToNext of +Infinity is kept by `normalizeCreature`, as any positive number is, but the creature's numbers are integers here, so that case is not represented.
- WorkoutLog.ApplyXpGain: requires xpToNext > 0, which for the model's integer thresholds means at least 1. The source loops forever on a threshold of 0 or below; normalisation rules those out, and `Store.Base` passes the guarantee on. A fractional threshold below about 0.435 passes normalisation and still hangs the loop; that is the fourth row of "## Findings", outside the integer model.
- The `updatePlayerStats` merge is modelled where it is used: both fields are overwritten in a battle, only xp on a save.
- Workout templates' storage and `handleSaveTemplate`: storage plumbing around `deepCopyExercises`, which is modelled.
- Personal records and workout-driven stat boosts: only their types exist, with no code to model.
- The energy regeneration timer and the data initializer: outside the engine.
- models/workoutSet.ts is not part of this model. The set type here is reps and weight, each possibly missing.
- `Object.entries` key order is taken to be str, agi, sta, int, the order in which the stats are declared and built.
- The older screen's selected monster and the arena's selection-reset effect: only the offered list and the shown selection are modelled.
