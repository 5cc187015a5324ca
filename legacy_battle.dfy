/** The older battle screen (app/battle.tsx): the monsters it offers and the energy and XP
    update around its own copy of the battle engine (Battle.Legacy). */
module LegacyArena {
  import opened Common
  import opened Models
  import opened Battle
  import opened Monsters
  import opened Arena

  /** The older screen's battle cost. */
  const LegacyEnergyCost: int := 12

  /** Every static monster without a creature; otherwise those within ten levels, with no cap. */
  function LegacyAvailable(c: Option<Creature>): (r: seq<Monster>)
    ensures c.None? ==> r == StaticMonsters
    ensures c.Some? ==> forall m :: m in r <==> m in StaticMonsters && InWindow(m, c.value.level)
  {
    if c.None? then StaticMonsters else InRange(StaticMonsters, c.value.level)
  }

  /** How many of the levels lie within the window around `level`. */
  function CountNear(ls: seq<int>, level: int): nat {
    if ls == [] then 0
    else (if -LevelWindow <= ls[0] - level <= LevelWindow then 1 else 0) + CountNear(ls[1..], level)
  }

  lemma {:induction false} InRangeCount(ms: seq<Monster>, level: int)
    ensures |InRange(ms, level)| == CountNear(Levels(ms), level)
  {
    if ms != [] {
      assert Levels(ms)[1..] == Levels(ms[1..]);
      InRangeCount(ms[1..], level);
    }
  }

  /** Unlike the arena, the older screen offers more than three monsters: a level 5 creature
      is offered eight. */
  lemma LegacyNoCap(c: Creature)
    requires c.level == 5
    ensures |LegacyAvailable(Some(c))| == 8 > OfferCount
  {
    InRangeCount(StaticMonsters, 5);
    StaticLevels();
    StaticLevelsNearFive();
  }

  /** Eight of the static levels lie within ten of level 5. */
  lemma StaticLevelsNearFive()
    ensures CountNear([18, 14, 12, 16, 5, 2, 3, 4, 7, 9, 22, 27, 32, 40], 5) == 8
  {
  }

  /** The reward computed inline: the rounded victory XP, or the rounded floored quarter. */
  function LegacyXpGain(xpReward: int, prep: Prep, didWin: bool): int {
    var multiplier := if prep.coop then 1.15 else 1.0;
    var victoryXp := Round(xpReward as real * multiplier);
    var consolationXp := Round((xpReward / 4) as real * multiplier);
    if didWin then victoryXp else consolationXp
  }

  /** The inline reward is the shared computeXpGain. */
  lemma LegacyXpIsComputeXpGain(xpReward: int, prep: Prep, didWin: bool)
    ensures LegacyXpGain(xpReward, prep, didWin) == ComputeXpGain(xpReward, prep, didWin)
  {
  }

  datatype LegacyResult =
    | Idle
    | OutOfEnergy
    | Played(outcome: BattleOutcome, xpGain: int, stats: PlayerStats)

  /** handleBattle: below the cost the stats are left alone; otherwise the older engine fights,
      the energy is debited and the XP credited. There is no daily lock here. */
  function LegacyHandleBattle(c: Option<Creature>, stats: Option<PlayerStats>, m: Monster, prep: Prep,
                              rolls: seq<Roll>): (r: LegacyResult)
    requires |rolls| >= RollsNeeded
    ensures r.Idle? <==> c.None? || stats.None?
    ensures r.OutOfEnergy? <==> c.Some? && stats.Some? && stats.value.energy < LegacyEnergyCost
  {
    if c.None? || stats.None? then Idle
    else if stats.value.energy < LegacyEnergyCost then OutOfEnergy
    else
      var outcome := Simulate(Legacy, c, m, prep, rolls);
      var xpGain := LegacyXpGain(m.xpReward, prep, outcome.didWin);
      Played(outcome, xpGain, PlayerStats(Max(0, stats.value.energy - LegacyEnergyCost), stats.value.xp + xpGain))
  }

  /** A battle here costs 12 energy, never leaves it negative, and pays what the newer duel
      would pay for the same result: the full or quartered reward, times 1.15 with an ally. */
  lemma LegacyBattleFacts(c: Creature, stats: PlayerStats, m: Monster, prep: Prep, rolls: seq<Roll>)
    requires |rolls| >= RollsNeeded
    ensures var r := LegacyHandleBattle(Some(c), Some(stats), m, prep, rolls);
            r.Played? ==>
              r.outcome == Simulate(Legacy, Some(c), m, prep, rolls)
              && r.stats.energy == stats.energy - LegacyEnergyCost >= 0
              && r.xpGain == ComputeXpGain(m.xpReward, prep, r.outcome.didWin)
              && r.stats.xp == stats.xp + r.xpGain
              && (!prep.coop ==> r.xpGain == if r.outcome.didWin then m.xpReward else m.xpReward / 4)
  {
    var r := LegacyHandleBattle(Some(c), Some(stats), m, prep, rolls);
    if r.Played? {
      LegacyXpIsComputeXpGain(m.xpReward, prep, r.outcome.didWin);
    }
  }
}
