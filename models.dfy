/** The records the engine reads and writes: the creature, the account-wide player stats,
    monsters and their elements, and logged workouts. */
module Models {
  import opened Common

  /** The four stats; `intel` is the source's `int` key, a reserved word in Dafny. */
  datatype Stats = Stats(str: int, agi: int, sta: int, intel: int)

  /** The keys of `Stats`, in the order the record declares them. */
  datatype StatKey = Str | Agi | Sta | Int

  function StatValue(s: Stats, k: StatKey): int {
    match k
    case Str => s.str
    case Agi => s.agi
    case Sta => s.sta
    case Int => s.intel
  }

  /** Every stat raised by the same amount. */
  function AddToAll(s: Stats, n: int): (r: Stats)
    ensures forall k :: StatValue(r, k) == StatValue(s, k) + n
  {
    Stats(s.str + n, s.agi + n, s.sta + n, s.intel + n)
  }

  datatype BagItem = BagItem(id: string, name: string, description: string, icon: string)

  /** The creature as the code reads it: models/creature.ts declares only name, level,
      evolutionStage and stats, but the screens and hooks also read xp, xpToNext, imageUrl and bag. */
  datatype Creature = Creature(
    name: string,
    level: int,
    evolutionStage: int,
    xp: int,
    xpToNext: int,
    imageUrl: string,
    stats: Stats,
    bag: seq<BagItem>)

  predicate HasBagItem(c: Creature, id: string) {
    exists i :: 0 <= i < |c.bag| && c.bag[i].id == id
  }

  datatype PlayerStats = PlayerStats(energy: int, xp: int)

  datatype Element = Fire | Water | Earth | Air | Lightning | Shadow | Light

  datatype Monster = Monster(
    id: string,
    name: string,
    level: int,
    element: Element,
    health: int,
    attack: int,
    defense: int,
    recommendedStr: int,
    description: string,
    xpReward: int,
    featuredLoot: string,
    icon: string)

  /** A set as logged: a field left empty is absent. */
  datatype WorkoutSet = WorkoutSet(reps: Option<real>, weight: Option<real>)

  datatype CardioSegment = CardioSegment(duration: real, distance: real)

  datatype Exercise = Exercise(name: string, sets: seq<WorkoutSet>, cardio: Option<seq<CardioSegment>>)

  datatype Workout = Workout(
    id: string,
    title: string,
    date: string,
    exercises: seq<Exercise>,
    notes: Option<string>,
    totalVolume: Option<real>,
    xpEarned: Option<int>)
}
