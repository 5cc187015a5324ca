/** The energy ceiling and clamp (lib/energy.ts). */
module Energy {
  import opened Common

  /** 30 energy at level 1 and 5 more for every level above it. */
  function MaxEnergyForLevel(level: int): (e: int)
    ensures e >= 30
    ensures level <= 1 ==> e == 30
    ensures level >= 1 ==> e == 30 + 5 * (level - 1)
  {
    30 + Max(level - 1, 0) * 5
  }

  lemma MaxEnergyExamples()
    ensures MaxEnergyForLevel(1) == 30
    ensures MaxEnergyForLevel(5) == 50
  {
  }

  lemma MaxEnergyMonotone(a: int, b: int)
    requires a <= b
    ensures MaxEnergyForLevel(a) <= MaxEnergyForLevel(b)
  {
  }

  /** Energy forced into [0, MaxEnergyForLevel(level)]. */
  function ClampEnergyToLevel(energy: int, level: int): (r: int)
    ensures 0 <= r <= MaxEnergyForLevel(level)
    ensures 0 <= energy <= MaxEnergyForLevel(level) ==> r == energy
    ensures energy > MaxEnergyForLevel(level) ==> r == MaxEnergyForLevel(level)
    ensures energy < 0 ==> r == 0
  {
    Max(0, Min(energy, MaxEnergyForLevel(level)))
  }

  lemma ClampIdempotent(energy: int, level: int)
    ensures ClampEnergyToLevel(ClampEnergyToLevel(energy, level), level) == ClampEnergyToLevel(energy, level)
  {
  }
}
