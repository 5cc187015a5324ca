/** The one-shot evolution from stage 1 to stage 2 (models/evolution.ts). */
module Evolution {
  import opened Models

  const EvolutionLevel: int := 5
  const EvolvedName: string := "Gymbrute"

  predicate Evolves(c: Creature) {
    c.level >= EvolutionLevel && c.evolutionStage == 1
  }

  function CheckEvolution(c: Creature): (r: Creature)
    ensures r.level == c.level && r.xp == c.xp && r.xpToNext == c.xpToNext
    ensures r.bag == c.bag && r.imageUrl == c.imageUrl
    ensures r.evolutionStage >= c.evolutionStage
    ensures Evolves(c) ==> r.evolutionStage == 2 && r.name == EvolvedName
    ensures Evolves(c) ==> forall k :: StatValue(r.stats, k) == StatValue(c.stats, k) + 5
    ensures !Evolves(c) ==> r == c
  {
    if Evolves(c) then
      c.(name := EvolvedName, evolutionStage := 2, stats := AddToAll(c.stats, 5))
    else
      c
  }

  /** A stage-2 creature never re-triggers, so a second check changes nothing. */
  lemma CheckEvolutionIdempotent(c: Creature)
    ensures CheckEvolution(CheckEvolution(c)) == CheckEvolution(c)
  {
  }
}
