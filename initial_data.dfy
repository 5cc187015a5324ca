/** The starting state of a new account (models/initialData.ts). */
module InitialData {
  import opened Common
  import opened Models
  import opened Energy

  const PotionSmall: BagItem := BagItem("potion-small", "Small Potion", "Restores 30 HP during a battle.", "\U{1F9EA}")
  const CharmSpark: BagItem := BagItem("charm-spark", "Spark Charm", "Reduces lightning damage for one fight.", "\U{26A1}")
  const Snack: BagItem := BagItem("snack", "Protein Snack", "Feed before battle to gain stamina.", "\U{1F356}")

  const InitialCreature: Creature := Creature(
    "",
    1,
    1,
    0,
    100,
    "https://images.unsplash.com/photo-1517836357463-d25dfeac3438?w=300&h=300&fit=crop",
    Stats(1, 1, 1, 1),
    [PotionSmall, CharmSpark, Snack])

  const InitialPlayerStats: PlayerStats := PlayerStats(30, 0)

  /** The initial creature starts at level 1, stage 1, with xp below its threshold. */
  lemma InitialCreatureResolved()
    ensures InitialCreature.level == 1 && InitialCreature.evolutionStage == 1
    ensures 0 == InitialCreature.xp < InitialCreature.xpToNext == 100
    ensures forall k :: StatValue(InitialCreature.stats, k) == 1
  {
  }

  /** The bag holds exactly the three items the battle engine looks for. */
  lemma InitialBagIds()
    ensures |InitialCreature.bag| == 3
    ensures HasBagItem(InitialCreature, "potion-small")
    ensures HasBagItem(InitialCreature, "charm-spark")
    ensures HasBagItem(InitialCreature, "snack")
    ensures forall i :: 0 <= i < |InitialCreature.bag| ==>
      InitialCreature.bag[i].id in {"potion-small", "charm-spark", "snack"}
  {
    assert InitialCreature.bag[0].id == "potion-small";
    assert InitialCreature.bag[1].id == "charm-spark";
    assert InitialCreature.bag[2].id == "snack";
  }

  /** A new player starts with full energy for the initial creature's level, and no XP. */
  lemma InitialEnergyFull()
    ensures InitialPlayerStats.energy == MaxEnergyForLevel(InitialCreature.level)
    ensures InitialPlayerStats.xp == 0
  {
  }
}
