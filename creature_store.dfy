/** The creature cache shared by every screen (hooks/use-creature.ts): normalising stored
    data against the initial creature, and the cache updates done by `updateCreature` and
    `hydrateCache`. Storage, listeners and React state are not modelled: what would be written
    to storage is returned instead. */
module CreatureStore {
  import opened Common
  import opened Models
  import opened InitialData

  /** A value read from storage where a number is expected: an integer, or something the
      normalisation rejects for both xp and xpToNext (NaN, -Infinity, or a value that is not a
      number at all). */
  datatype RawNumber = Finite(value: int) | Unusable

  /** Stored stats: any key may be missing. */
  datatype PartialStats = PartialStats(str: Option<int>, agi: Option<int>, sta: Option<int>, intel: Option<int>)

  /** A stored creature: any field may be missing, and xp and xpToNext may not be usable numbers. */
  datatype CreatureData = CreatureData(
    name: Option<string>,
    level: Option<int>,
    evolutionStage: Option<int>,
    xp: Option<RawNumber>,
    xpToNext: Option<RawNumber>,
    imageUrl: Option<string>,
    stats: Option<PartialStats>,
    bag: Option<seq<BagItem>>)

  function PartialGet(p: PartialStats, k: StatKey): Option<int> {
    match k
    case Str => p.str
    case Agi => p.agi
    case Sta => p.sta
    case Int => p.intel
  }

  /** The stats record spread over the defaults: each stored key wins. */
  function MergeStats(base: Stats, p: Option<PartialStats>): (r: Stats)
    ensures p.None? ==> r == base
    ensures p.Some? ==> forall k :: StatValue(r, k) == PartialGet(p.value, k).GetOr(StatValue(base, k))
  {
    match p
    case None => base
    case Some(ps) => Stats(ps.str.GetOr(base.str), ps.agi.GetOr(base.agi), ps.sta.GetOr(base.sta), ps.intel.GetOr(base.intel))
  }

  /** xp is kept only when it is a finite number. */
  function NormalXp(x: Option<RawNumber>): (r: int)
    ensures (x.Some? && x.value.Finite?) ==> r == x.value.value
    ensures !(x.Some? && x.value.Finite?) ==> r == InitialCreature.xp
  {
    if x.Some? && x.value.Finite? then x.value.value else InitialCreature.xp
  }

  /** xpToNext is kept only when it is a number above 0. */
  function NormalXpToNext(x: Option<RawNumber>): (r: int)
    ensures r > 0
    ensures (x.Some? && x.value.Finite? && x.value.value > 0) ==> r == x.value.value
    ensures !(x.Some? && x.value.Finite? && x.value.value > 0) ==> r == InitialCreature.xpToNext
  {
    if x.Some? && x.value.Finite? && x.value.value > 0 then x.value.value else InitialCreature.xpToNext
  }

  /** normalizeCreature: the initial creature, overridden field by field by what is stored,
      with the stats merged key by key and xp and xpToNext repaired. */
  function Normalize(data: Option<CreatureData>): (c: Creature)
    ensures c.xpToNext > 0
    ensures data.None? ==> c == InitialCreature
    ensures data.Some? ==>
              c.name == data.value.name.GetOr(InitialCreature.name)
              && c.level == data.value.level.GetOr(InitialCreature.level)
              && c.evolutionStage == data.value.evolutionStage.GetOr(InitialCreature.evolutionStage)
              && c.imageUrl == data.value.imageUrl.GetOr(InitialCreature.imageUrl)
              && c.bag == data.value.bag.GetOr(InitialCreature.bag)
              && c.stats == MergeStats(InitialCreature.stats, data.value.stats)
              && c.xp == NormalXp(data.value.xp)
              && c.xpToNext == NormalXpToNext(data.value.xpToNext)
  {
    match data
    case None => InitialCreature
    case Some(d) =>
      Creature(
        d.name.GetOr(InitialCreature.name),
        d.level.GetOr(InitialCreature.level),
        d.evolutionStage.GetOr(InitialCreature.evolutionStage),
        NormalXp(d.xp),
        NormalXpToNext(d.xpToNext),
        d.imageUrl.GetOr(InitialCreature.imageUrl),
        MergeStats(InitialCreature.stats, d.stats),
        d.bag.GetOr(InitialCreature.bag))
  }

  /** A creature as it is stored: every field present. */
  function Stored(c: Creature): CreatureData {
    CreatureData(
      Some(c.name), Some(c.level), Some(c.evolutionStage), Some(Finite(c.xp)), Some(Finite(c.xpToNext)),
      Some(c.imageUrl), Some(PartialStats(Some(c.stats.str), Some(c.stats.agi), Some(c.stats.sta), Some(c.stats.intel))),
      Some(c.bag))
  }

  /** Normalising a complete creature changes nothing exactly when its xpToNext is positive. */
  lemma NormalizeStored(c: Creature)
    ensures Normalize(Some(Stored(c))) == c <==> c.xpToNext > 0
    ensures Normalize(Some(Stored(c))) == c.(xpToNext := if c.xpToNext > 0 then c.xpToNext else 100)
  {
  }

  /** Normalising twice is normalising once. */
  lemma NormalizeIdempotent(data: Option<CreatureData>)
    ensures Normalize(Some(Stored(Normalize(data)))) == Normalize(data)
  {
    NormalizeStored(Normalize(data));
  }

  /** The initial creature is already normal. */
  lemma InitialNormal()
    ensures Normalize(Some(Stored(InitialCreature))) == InitialCreature
  {
    NormalizeStored(InitialCreature);
  }

  /** The module-level cache and the hydration flag. */
  class Store {
    var cache: Option<Creature>
    var isHydrating: bool

    /** Every cached creature has passed normalisation, so its xpToNext is positive. */
    predicate Valid()
      reads this
    {
      cache.Some? ==> cache.value.xpToNext > 0
    }

    constructor ()
      ensures cache.None? && !isHydrating && Valid()
    {
      cache := None;
      isHydrating := false;
    }

    /** The creature updates start from: the cache, or the initial creature when it is empty. */
    function Base(): (c: Creature)
      reads this
      ensures cache.Some? ==> c == cache.value
      ensures cache.None? ==> c == InitialCreature
      ensures Valid() ==> c.xpToNext > 0
    {
      cache.GetOr(InitialCreature)
    }

    /** updateCreature: the cache becomes the normalised result of the updater on the base;
        that value is also what is written to storage. */
    method Update(updater: Creature -> Creature) returns (written: Creature)
      modifies this
      ensures cache == Some(written) && Valid()
      ensures written == Normalize(Some(Stored(updater(old(Base())))))
      ensures isHydrating == old(isHydrating)
    {
      var base := cache.GetOr(InitialCreature);
      written := Normalize(Some(Stored(updater(base))));
      cache := Some(written);
    }

    /** The synchronous start of hydrateCache: nothing happens while a hydration is in progress. */
    method HydrateStart() returns (started: bool)
      requires Valid()
      modifies this
      ensures started <==> !old(isHydrating)
      ensures isHydrating && cache == old(cache) && Valid()
    {
      if isHydrating {
        return false;
      }
      isHydrating := true;
      started := true;
    }

    /** The rest of hydrateCache, once storage has answered with `stored`: the cache becomes the
        normalised stored creature, or the normalised initial creature, which is then written
        back. The flag is cleared either way. */
    method HydrateFinish(stored: Option<CreatureData>) returns (writeBack: Option<Creature>)
      modifies this
      ensures stored.Some? ==> cache == Some(Normalize(stored)) && writeBack.None?
      ensures stored.None? ==> cache == Some(InitialCreature) && writeBack == Some(InitialCreature)
      ensures !isHydrating && Valid()
    {
      if stored.Some? {
        cache := Some(Normalize(stored));
        writeBack := None;
      } else {
        var normalized := Normalize(Some(Stored(InitialCreature)));
        InitialNormal();
        writeBack := Some(normalized);
        cache := Some(normalized);
      }
      isHydrating := false;
    }
  }
}
