/** The element tables, the adaptive AI rival and the static monster list
    (constants/monsters.ts). */
module Monsters {
  import opened Common
  import opened Models

  // ---------------------------------------------------------------- element tables

  /** The element each stat stands for. */
  function StatAffinity(k: StatKey): Element {
    match k
    case Str => Fire
    case Agi => Air
    case Sta => Earth
    case Int => Lightning
  }

  /** The element a rival takes against a player of the given element. */
  function Opposite(e: Element): Element {
    match e
    case Fire => Water
    case Water => Fire
    case Earth => Air
    case Air => Earth
    case Lightning => Shadow
    case Shadow => Light
    case Light => Shadow
  }

  /** No element is its own opposite. */
  lemma OppositeNoFixedPoint(e: Element)
    ensures Opposite(e) != e
  {
  }

  /** The table is not an involution: Lightning maps to Shadow, whose opposite is Light. Every
      other element is the opposite of its opposite, and no element has Lightning as its
      opposite. */
  lemma OppositeNotInvolution()
    ensures Opposite(Lightning) == Shadow && Opposite(Shadow) == Light && Opposite(Light) == Shadow
    ensures Opposite(Opposite(Lightning)) != Lightning
    ensures forall e :: e != Lightning ==> Opposite(Opposite(e)) == e
    ensures forall e :: Opposite(e) != Lightning
  {
  }

  // ---------------------------------------------------------------- the dominant element

  /** The stat keys in the order the stats record lists them. */
  const StatOrder: seq<StatKey> := [Str, Agi, Sta, Int]

  /** The first key of `keys` holding the largest value: the head of a stable descending sort. */
  function FirstMax(s: Stats, keys: seq<StatKey>): (k: StatKey)
    requires keys != []
    ensures k in keys
    ensures forall j :: 0 <= j < |keys| ==> StatValue(s, keys[j]) <= StatValue(s, k)
    ensures exists i :: 0 <= i < |keys| && keys[i] == k
                       && forall j :: 0 <= j < i ==> StatValue(s, keys[j]) < StatValue(s, k)
  {
    if |keys| == 1 then keys[0]
    else
      var rest := FirstMax(s, keys[1..]);
      if StatValue(s, keys[0]) >= StatValue(s, rest) then keys[0]
      else
        assert forall j :: 1 <= j < |keys| ==> keys[j] == keys[1..][j - 1];
        ghost var i :| 0 <= i < |keys[1..]| && keys[1..][i] == rest
                       && forall j :: 0 <= j < i ==> StatValue(s, keys[1..][j]) < StatValue(s, rest);
        assert keys[i + 1] == rest;
        rest
  }

  /** The key of the highest stat; on a tie the earliest of str, agi, sta, int. */
  function TopStat(s: Stats): (k: StatKey)
    ensures forall j :: StatValue(s, j) <= StatValue(s, k)
  {
    var k := FirstMax(s, StatOrder);
    assert StatOrder[0] == Str && StatOrder[1] == Agi && StatOrder[2] == Sta && StatOrder[3] == Int;
    k
  }

  /** The element of the creature's highest stat, or Shadow without a creature. */
  function DominantElement(c: Option<Creature>): (e: Element)
    ensures c.None? ==> e == Shadow
    ensures c.Some? ==> e == StatAffinity(TopStat(c.value.stats))
  {
    match c
    case None => Shadow
    case Some(cr) => StatAffinity(TopStat(cr.stats))
  }

  /** Ties go to the earlier stat: equal stats make the creature a Fire (strength) one. */
  lemma TopStatTies(s: Stats)
    ensures s.str >= s.agi && s.str >= s.sta && s.str >= s.intel ==> TopStat(s) == Str
    ensures s.agi > s.str && s.agi >= s.sta && s.agi >= s.intel ==> TopStat(s) == Agi
    ensures s.sta > s.str && s.sta > s.agi && s.sta >= s.intel ==> TopStat(s) == Sta
    ensures s.intel > s.str && s.intel > s.agi && s.intel > s.sta ==> TopStat(s) == Int
  {
    var k := TopStat(s);
    var i :| 0 <= i < 4 && StatOrder[i] == k
             && forall j :: 0 <= j < i ==> StatValue(s, StatOrder[j]) < StatValue(s, k);
    assert StatOrder[0] == Str && StatOrder[1] == Agi && StatOrder[2] == Sta && StatOrder[3] == Int;
  }

  // ---------------------------------------------------------------- the AI rival

  const RivalId: string := "ai-rival"
  const FallbackStats: Stats := Stats(1, 1, 1, 1)

  function ElementName(e: Element): string {
    match e
    case Fire => "fire"
    case Water => "water"
    case Earth => "earth"
    case Air => "air"
    case Lightning => "lightning"
    case Shadow => "shadow"
    case Light => "light"
  }

  function RivalLevel(c: Option<Creature>): (l: int)
    ensures l >= 2
    ensures c.Some? ==> l > c.value.level
    ensures c.None? ==> l == 2
  {
    Max(2, (if c.Some? then c.value.level else 1) + 1)
  }

  /** A rival built from the creature: one level above it (at least 2), of the element
      opposite to the creature's dominant one, with health, attack and defence growing with its
      stats and level. `icon` stands for the resolved image asset. */
  function CreateAiRival(c: Option<Creature>, icon: string): (r: Monster)
    ensures r.id == RivalId && r.name == "Trainer 9000" && r.featuredLoot == "Mirror Core" && r.icon == icon
    ensures r.level >= 2 && (c.Some? ==> r.level > c.value.level)
    ensures r.element == Opposite(DominantElement(c)) && r.element != DominantElement(c)
    ensures r.element != Lightning
    ensures r.xpReward >= 60 && r.xpReward >= 12 * r.level
    ensures r.recommendedStr >= (if c.Some? then c.value.stats.str else 1) + 2
  {
    var stats := if c.Some? then c.value.stats else FallbackStats;
    var playerElement := DominantElement(c);
    var rivalElement := Opposite(playerElement);
    var level := RivalLevel(c);
    var total := stats.str + stats.agi + stats.sta + stats.intel;
    OppositeNoFixedPoint(playerElement);
    OppositeNotInvolution();
    Monster(
      RivalId,
      "Trainer 9000",
      level,
      rivalElement,
      Round(((stats.sta + level) * 22) as real + total as real * 1.6),
      Round(stats.str as real * 1.4 + stats.agi as real * 1.1 + level as real * 2.5),
      Round(stats.sta as real * 0.9 + stats.intel as real * 1.2 + level as real * 1.5),
      Max(stats.str + 2, Round(level as real * 0.8) + 5),
      "An adaptive construct that inverts your " + ElementName(playerElement) + " style into "
        + ElementName(rivalElement) + " counters. Always arrives one step ahead.",
      Max(60, level * 12),
      "Mirror Core",
      icon)
  }

  /** Without a creature the rival is a level-2 Light construct built from stats of 1. */
  lemma RivalWithoutCreature(icon: string)
    ensures var r := CreateAiRival(None, icon);
            r.level == 2 && r.element == Light && r.health == 72 && r.attack == 8 && r.defense == 5
            && r.xpReward == 60 && r.recommendedStr == 7
  {
    var r := CreateAiRival(None, icon);
    assert r.health == Round(72.4);
    assert r.attack == Round(7.5);
    assert r.defense == Round(5.1);
    assert r.recommendedStr == Max(3, Round(1.6) + 5);
  }

  /** A stronger creature of the same stats meets a rival no weaker in any number. */
  lemma RivalGrowsWithLevel(c1: Creature, c2: Creature, icon: string)
    requires c1.stats == c2.stats && c1.level <= c2.level
    ensures var r1 := CreateAiRival(Some(c1), icon);
            var r2 := CreateAiRival(Some(c2), icon);
            r1.level <= r2.level && r1.health <= r2.health && r1.attack <= r2.attack
            && r1.defense <= r2.defense && r1.xpReward <= r2.xpReward && r1.recommendedStr <= r2.recommendedStr
  {
    var s := c1.stats;
    var l1, l2 := RivalLevel(Some(c1)), RivalLevel(Some(c2));
    var total := s.str + s.agi + s.sta + s.intel;
    RoundMonotone(((s.sta + l1) * 22) as real + total as real * 1.6, ((s.sta + l2) * 22) as real + total as real * 1.6);
    RoundMonotone(s.str as real * 1.4 + s.agi as real * 1.1 + l1 as real * 2.5,
                  s.str as real * 1.4 + s.agi as real * 1.1 + l2 as real * 2.5);
    RoundMonotone(s.sta as real * 0.9 + s.intel as real * 1.2 + l1 as real * 1.5,
                  s.sta as real * 0.9 + s.intel as real * 1.2 + l2 as real * 1.5);
    RoundMonotone(l1 as real * 0.8, l2 as real * 0.8);
  }

  // ---------------------------------------------------------------- the static list

  const HydraPrime: Monster := Monster("hydra-prime", "Hydra Prime", 18, Water, 260, 34, 22, 16,
    "A regenerative serpent that splits into new heads when struck. Target the core crystal to stop the regen.",
    120, "Phoenix Feather", "https://images.unsplash.com/photo-1508674861872-a51e06c50c9b?w=96&h=96&fit=crop")

  /** The fourteen fixed monsters, in the order the arena lists them. */
  const StaticMonsters: seq<Monster> := [
    HydraPrime,
    Monster("storm-wyrm", "Storm Wyrm", 14, Lightning, 210, 30, 16, 14,
      "Sweeps the arena with charged winds that punish low agility.",
      100, "Tempest Scale", "https://images.unsplash.com/photo-1500530855697-b586d89ba3ee?w=96&h=96&fit=crop"),
    Monster("iron-golem", "Iron Golem", 12, Earth, 240, 24, 28, 15,
      "Slow but unyielding guardian forged from haunted steel.",
      90, "Shard of Fortitude", "https://images.unsplash.com/photo-1489515217757-5fd1be406fef?w=96&h=96&fit=crop"),
    Monster("night-geist", "Night Geist", 16, Shadow, 200, 32, 18, 13,
      "Phases in and out of reality to siphon stamina.",
      110, "Void Cloak", "https://images.unsplash.com/photo-1500534314209-a25ddb2bd429?w=96&h=96&fit=crop"),
    Monster("ember-rat", "Ember Rat", 5, Fire, 120, 16, 8, 8,
      "A fiery scavenger that ignites the ground with each scurry.",
      60, "Cinder Tail", "https://images.unsplash.com/photo-1474511320723-9a56873867b5?w=96&h=96&fit=crop"),
    Monster("sapling-guardian", "Sapling Guardian", 2, Earth, 90, 10, 6, 4,
      "A tiny treant that defends the forest with thorny vines.",
      35, "Verdant Twig", "https://images.unsplash.com/photo-1469474968028-56623f02e42e?w=96&h=96&fit=crop"),
    Monster("tidal-sprite", "Tidal Sprite", 3, Water, 100, 12, 7, 5,
      "Splashes attackers with bursts of pressurized surf.",
      40, "Bubble Pearl", "https://images.unsplash.com/photo-1507525428034-b723cf961d3e?w=96&h=96&fit=crop"),
    Monster("gale-fox", "Gale Fox", 4, Air, 110, 14, 8, 6,
      "Dashes around opponents, slicing with wind-forged tails.",
      50, "Wind Tail", "https://images.unsplash.com/photo-1518791841217-8f162f1e1131?w=96&h=96&fit=crop"),
    Monster("dune-scorpion", "Dune Scorpion", 7, Earth, 150, 18, 12, 9,
      "Ambushes foes beneath the sand with venom-tipped claws.",
      70, "Sting Barbs", "https://images.unsplash.com/photo-1500534310680-81a9a0c3c061?w=96&h=96&fit=crop"),
    Monster("glacier-owl", "Glacier Owl", 9, Air, 170, 20, 14, 10,
      "Freezes prey mid-flight with glacial winds.",
      80, "Frost Feather", "https://images.unsplash.com/photo-1501706362039-c6e08e4b7b9f?w=96&h=96&fit=crop"),
    Monster("pyro-colossus", "Pyro Colossus", 22, Fire, 320, 40, 26, 20,
      "An ancient molten sentinel that erupts with magma fists.",
      150, "Inferno Core", "https://images.unsplash.com/photo-1500530855697-b586d89ba3ee?w=96&h=96&fit=crop"),
    Monster("void-singer", "Void Singer", 27, Shadow, 360, 44, 30, 23,
      "Channels cosmic echoes to shatter defenses.",
      180, "Echo Shard", "https://images.unsplash.com/photo-1500534310680-81a9a0c3c061?w=96&h=96&fit=crop"),
    Monster("terra-leviathan", "Terra Leviathan", 32, Earth, 420, 48, 38, 28,
      "A slumbering behemoth that crushes foes with tectonic waves.",
      210, "Gaia Scale", "https://images.unsplash.com/photo-1441974231531-c6227db76b6e?w=96&h=96&fit=crop"),
    Monster("astral-phoenix", "Astral Phoenix", 40, Air, 480, 56, 34, 32,
      "Reborn from stardust, bathes the arena in celestial fire.",
      260, "Stellar Plume", "https://images.unsplash.com/photo-1441974231531-c6227db76b6e?w=96&h=96&fit=crop")
  ]

  /** The ids of a list of monsters, position by position. */
  function Ids(ms: seq<Monster>): (ids: seq<string>)
    ensures |ids| == |ms| && forall i :: 0 <= i < |ms| ==> ids[i] == ms[i].id
  {
    if ms == [] then [] else Ids(ms[..|ms| - 1]) + [ms[|ms| - 1].id]
  }

  /** The levels of a list of monsters, position by position. */
  function Levels(ms: seq<Monster>): (ls: seq<int>)
    ensures |ls| == |ms| && forall i :: 0 <= i < |ms| ==> ls[i] == ms[i].level
  {
    if ms == [] then [] else Levels(ms[..|ms| - 1]) + [ms[|ms| - 1].level]
  }

  predicate Distinct(ids: seq<string>) {
    forall i, j :: 0 <= i < j < |ids| ==> ids[i] != ids[j]
  }

  const StaticIdList: seq<string> := ["hydra-prime", "storm-wyrm", "iron-golem", "night-geist", "ember-rat", "sapling-guardian",
                           "tidal-sprite", "gale-fox", "dune-scorpion", "glacier-owl", "pyro-colossus", "void-singer",
                           "terra-leviathan", "astral-phoenix"]

  lemma StaticIds()
    ensures Ids(StaticMonsters) == StaticIdList
  {
  }

  lemma StaticIdsDistinct()
    ensures Distinct(StaticIdList) && RivalId !in StaticIdList
  {
  }

  /** Distinct ids in the list of ids mean distinct ids in the list of monsters. */
  lemma IdsOf(ms: seq<Monster>, ids: seq<string>)
    requires Ids(ms) == ids && Distinct(ids)
    ensures forall i, j :: 0 <= i < j < |ms| ==> ms[i].id != ms[j].id
    ensures forall i :: 0 <= i < |ms| ==> ms[i].id in ids
  {
  }

  lemma StaticLevels()
    ensures Levels(StaticMonsters) == [18, 14, 12, 16, 5, 2, 3, 4, 7, 9, 22, 27, 32, 40]
  {
  }

  lemma StaticFigures()
    ensures |StaticMonsters| == 14 && StaticMonsters[0] == HydraPrime
    ensures forall i :: 0 <= i < |StaticMonsters| ==>
              StaticMonsters[i].level >= 2 && StaticMonsters[i].health > 0 && StaticMonsters[i].xpReward > 0
  {
  }

  /** The static ids are pairwise distinct and none is the rival's; the list starts with Hydra
      Prime, and every monster has a positive level, health and reward. */
  lemma StaticMonstersFacts()
    ensures |StaticMonsters| == 14 && StaticMonsters[0] == HydraPrime
    ensures forall i, j :: 0 <= i < j < |StaticMonsters| ==> StaticMonsters[i].id != StaticMonsters[j].id
    ensures forall i :: 0 <= i < |StaticMonsters| ==> StaticMonsters[i].id != RivalId
    ensures forall i :: 0 <= i < |StaticMonsters| ==>
              StaticMonsters[i].level >= 2 && StaticMonsters[i].health > 0 && StaticMonsters[i].xpReward > 0
  {
    StaticFigures();
    StaticIds();
    StaticIdsDistinct();
    IdsOf(StaticMonsters, StaticIdList);
  }
}
