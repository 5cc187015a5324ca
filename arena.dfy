/** The arena screen (app/battle/index.tsx): the roster, the monsters offered for the
    creature's level, the selected monster, the daily lock test, the guards in front of a
    battle, the preparation toggles and the status line. */
module Arena {
  import opened Common
  import opened Models
  import opened Battle
  import opened Monsters

  /** Monsters more than this many levels away are not offered. */
  const LevelWindow: int := 10
  /** How many monsters the arena offers at once. */
  const OfferCount: int := 3

  /** The AI rival built for the creature, followed by the static monsters. */
  function Roster(c: Option<Creature>, rivalIcon: string): (r: seq<Monster>)
    ensures |r| == |StaticMonsters| + 1
    ensures r[0] == CreateAiRival(c, rivalIcon) && r[1..] == StaticMonsters
  {
    [CreateAiRival(c, rivalIcon)] + StaticMonsters
  }

  // ---------------------------------------------------------------- level gaps

  function Gap(m: Monster, level: int): nat {
    if m.level >= level then m.level - level else level - m.level
  }

  predicate InWindow(m: Monster, level: int) {
    Gap(m, level) <= LevelWindow
  }

  /** The monsters within the level window, in roster order. */
  function InRange(ms: seq<Monster>, level: int): (r: seq<Monster>)
    ensures |r| <= |ms|
    ensures forall m :: m in r <==> m in ms && InWindow(m, level)
  {
    if ms == [] then []
    else (if InWindow(ms[0], level) then [ms[0]] else []) + InRange(ms[1..], level)
  }

  /** The monsters at exactly gap g, in the order they appear. */
  function WithGap(ms: seq<Monster>, level: int, g: nat): seq<Monster> {
    if ms == [] then []
    else (if Gap(ms[0], level) == g then [ms[0]] else []) + WithGap(ms[1..], level, g)
  }

  predicate SortedByGap(ms: seq<Monster>, level: int) {
    forall i, j :: 0 <= i < j < |ms| ==> Gap(ms[i], level) <= Gap(ms[j], level)
  }

  /** Filtering by the window keeps each gap class of the window whole and in order. */
  lemma {:induction false} InRangeByGap(ms: seq<Monster>, level: int, g: nat)
    ensures WithGap(InRange(ms, level), level, g) == if g <= LevelWindow then WithGap(ms, level, g) else []
  {
    if ms != [] {
      InRangeByGap(ms[1..], level, g);
      WithGapAppend(if InWindow(ms[0], level) then [ms[0]] else [], InRange(ms[1..], level), level, g);
    }
  }

  lemma {:induction false} WithGapAppend(a: seq<Monster>, b: seq<Monster>, level: int, g: nat)
    ensures WithGap(a + b, level, g) == WithGap(a, level, g) + WithGap(b, level, g)
  {
    if a != [] {
      assert (a + b)[0] == a[0] && (a + b)[1..] == a[1..] + b;
      WithGapAppend(a[1..], b, level, g);
    } else {
      assert a + b == b;
    }
  }

  // ---------------------------------------------------------------- the stable sort

  /** Insert m in front of the first monster whose gap is not smaller than m's. */
  function Insert(m: Monster, t: seq<Monster>, level: int): (r: seq<Monster>)
    ensures multiset(r) == multiset(t) + multiset{m}
  {
    if t == [] || Gap(m, level) <= Gap(t[0], level) then [m] + t
    else
      assert t == [t[0]] + t[1..];
      [t[0]] + Insert(m, t[1..], level)
  }

  /** `sort` by ascending gap: Array.prototype.sort is stable, so ties keep roster order. */
  function SortByGap(ms: seq<Monster>, level: int): (r: seq<Monster>)
    ensures multiset(r) == multiset(ms) && |r| == |ms|
  {
    if ms == [] then []
    else
      assert ms == [ms[0]] + ms[1..];
      Insert(ms[0], SortByGap(ms[1..], level), level)
  }

  /** A gap bound that holds for the inserted monster and for every old one holds afterwards. */
  lemma {:induction false} InsertAbove(m: Monster, t: seq<Monster>, level: int, b: int)
    requires Gap(m, level) >= b
    requires forall i :: 0 <= i < |t| ==> Gap(t[i], level) >= b
    ensures forall i :: 0 <= i < |Insert(m, t, level)| ==> Gap(Insert(m, t, level)[i], level) >= b
  {
    if t != [] && Gap(m, level) > Gap(t[0], level) {
      assert forall i :: 0 <= i < |t[1..]| ==> t[1..][i] == t[i + 1];
      InsertAbove(m, t[1..], level, b);
      assert Insert(m, t, level) == [t[0]] + Insert(m, t[1..], level);
    }
  }

  lemma {:induction false} InsertSorted(m: Monster, t: seq<Monster>, level: int)
    requires SortedByGap(t, level)
    ensures SortedByGap(Insert(m, t, level), level)
    ensures Insert(m, t, level) != [] && Gap(Insert(m, t, level)[0], level) == (if t == [] || Gap(m, level) <= Gap(t[0], level) then Gap(m, level) else Gap(t[0], level))
  {
    if t != [] && Gap(m, level) > Gap(t[0], level) {
      var tail := t[1..];
      assert forall i :: 0 <= i < |tail| ==> tail[i] == t[i + 1];
      InsertSorted(m, tail, level);
      InsertAbove(m, tail, level, Gap(t[0], level));
      var r := Insert(m, t, level);
      var rest := Insert(m, tail, level);
      assert r == [t[0]] + rest;
      forall i, j | 0 <= i < j < |r| ensures Gap(r[i], level) <= Gap(r[j], level) {
        assert r[j] == rest[j - 1];
        if i > 0 {
          assert r[i] == rest[i - 1];
        }
      }
    }
  }

  /** The gap class of a list with a new head: the head, when it has the gap, then the rest's. */
  lemma WithGapCons(x: Monster, t: seq<Monster>, level: int, g: nat)
    ensures WithGap([x] + t, level, g) == (if Gap(x, level) == g then [x] else []) + WithGap(t, level, g)
  {
    assert ([x] + t)[0] == x && ([x] + t)[1..] == t;
  }

  /** The inductive step of `InsertByGap`: a head that lies outside the class of `mine` leaves
      the relation between the two gap classes as it is. */
  lemma ConsKeepsClass(x: Monster, rest: seq<Monster>, tail: seq<Monster>, mine: seq<Monster>, level: int, g: nat)
    requires WithGap(rest, level, g) == mine + WithGap(tail, level, g)
    requires Gap(x, level) == g ==> mine == []
    ensures WithGap([x] + rest, level, g) == mine + WithGap([x] + tail, level, g)
  {
    WithGapCons(x, rest, level, g);
    WithGapCons(x, tail, level, g);
  }

  lemma {:induction false} InsertByGap(m: Monster, t: seq<Monster>, level: int, g: nat)
    requires SortedByGap(t, level)
    ensures WithGap(Insert(m, t, level), level, g) == (if Gap(m, level) == g then [m] else []) + WithGap(t, level, g)
  {
    if t != [] && Gap(m, level) > Gap(t[0], level) {
      assert SortedByGap(t[1..], level);
      InsertByGap(m, t[1..], level, g);
      ConsKeepsClass(t[0], Insert(m, t[1..], level), t[1..], if Gap(m, level) == g then [m] else [], level, g);
      assert t == [t[0]] + t[1..];
    } else {
      WithGapCons(m, t, level, g);
    }
  }




  /** The sort orders by gap and is stable: each gap class keeps its members and their order. */
  lemma {:induction false} SortFacts(ms: seq<Monster>, level: int)
    ensures SortedByGap(SortByGap(ms, level), level)
    ensures forall g: nat :: WithGap(SortByGap(ms, level), level, g) == WithGap(ms, level, g)
  {
    if ms != [] {
      SortFacts(ms[1..], level);
      InsertSorted(ms[0], SortByGap(ms[1..], level), level);
      forall g: nat ensures WithGap(SortByGap(ms, level), level, g) == WithGap(ms, level, g) {
        InsertByGap(ms[0], SortByGap(ms[1..], level), level, g);
      }
    }
  }

  // ---------------------------------------------------------------- the offer

  /** `slice(0, n)`. */
  function Take(ms: seq<Monster>, n: nat): (r: seq<Monster>)
    ensures |r| == Min(n, |ms|) && r == ms[..|r|]
  {
    if |ms| <= n then ms else ms[..n]
  }

  /** availableMonsters: the first three roster entries without a creature; otherwise the
      monsters within ten levels, closest first, falling back to the roster when none is. */
  function AvailableMonsters(c: Option<Creature>, roster: seq<Monster>): seq<Monster> {
    if c.None? then Take(roster, OfferCount)
    else
      var filtered := SortByGap(InRange(roster, c.value.level), c.value.level);
      var pool := if |filtered| > 0 then filtered else roster;
      Take(pool, OfferCount)
  }

  /** With no monster in the window, nothing survives the level filter. */
  lemma {:induction false} NoneInWindow(roster: seq<Monster>, level: int)
    requires forall m :: m in roster ==> !InWindow(m, level)
    ensures InRange(roster, level) == []
  {
    if roster != [] {
      assert roster[0] in roster;
      NoneInWindow(roster[1..], level);
    }
  }

  /** The sorted window holds exactly the roster's monsters within the window. */
  lemma SortedWindowMembers(roster: seq<Monster>, level: int)
    ensures forall m :: m in SortByGap(InRange(roster, level), level) <==> m in roster && InWindow(m, level)
  {
    var f := SortByGap(InRange(roster, level), level);
    forall m ensures m in f <==> m in InRange(roster, level) {
      assert m in f <==> m in multiset(f);
    }
  }

  /** A prefix of a sorted list holds every element strictly closer than one of its own. */
  lemma {:induction false} PrefixHoldsCloser(f: seq<Monster>, level: int, n: nat)
    requires SortedByGap(f, level)
    ensures SortedByGap(Take(f, n), level)
    ensures forall i, m :: 0 <= i < |Take(f, n)| && m in f && Gap(m, level) < Gap(Take(f, n)[i], level) ==> m in Take(f, n)
  {
    var r := Take(f, n);
    forall i, m | 0 <= i < |r| && m in f && Gap(m, level) < Gap(r[i], level) ensures m in r {
      var k :| 0 <= k < |f| && f[k] == m;
      assert r[i] == f[i];
      assert k < i;
      assert r[k] == m;
    }
  }

  /** The offer when some monster is within the window: the first three of the sorted window. */
  lemma {:induction false} WindowOffer(roster: seq<Monster>, level: int)
    requires exists m :: m in roster && InWindow(m, level)
    ensures var filtered := SortByGap(InRange(roster, level), level);
            var r := Take(filtered, OfferCount);
            |filtered| > 0
            && (forall i :: 0 <= i < |r| ==> InWindow(r[i], level))
            && SortedByGap(r, level)
            && (forall i, m :: 0 <= i < |r| && m in roster && InWindow(m, level) && Gap(m, level) < Gap(r[i], level) ==> m in r)
            && |r| == Min(OfferCount, |InRange(roster, level)|)
            && forall g: nat :: g <= LevelWindow ==> WithGap(filtered, level, g) == WithGap(roster, level, g)
  {
    var filtered := SortByGap(InRange(roster, level), level);
    SortedWindowMembers(roster, level);
    var w :| w in roster && InWindow(w, level);
    assert w in filtered;
    SortFacts(InRange(roster, level), level);
    PrefixHoldsCloser(filtered, level, OfferCount);
    var r := Take(filtered, OfferCount);
    forall i | 0 <= i < |r| ensures InWindow(r[i], level) {
      assert r[i] == filtered[i];
      assert filtered[i] in filtered;
    }
    forall g: nat | g <= LevelWindow
      ensures WithGap(filtered, level, g) == WithGap(roster, level, g)
    {
      InRangeByGap(roster, level, g);
    }
  }

  /** At most three are offered. Without a creature, or when nothing is within the window,
      they are the first three of the roster. Otherwise every offered monster is within the
      window, they come closest first, any monster of the window that is strictly closer than
      an offered one is offered too, and ties between equally close monsters keep roster order:
      the offer is the first three of the stably sorted window. */
  lemma OfferFacts(c: Option<Creature>, roster: seq<Monster>)
    ensures |AvailableMonsters(c, roster)| <= OfferCount
    ensures c.None? ==> AvailableMonsters(c, roster) == Take(roster, OfferCount)
    ensures c.Some? && (forall m :: m in roster ==> !InWindow(m, c.value.level)) ==>
              AvailableMonsters(c, roster) == Take(roster, OfferCount)
    ensures c.Some? && (exists m :: m in roster && InWindow(m, c.value.level)) ==>
              var level := c.value.level;
              var r := AvailableMonsters(c, roster);
              (forall i :: 0 <= i < |r| ==> InWindow(r[i], level))
              && SortedByGap(r, level)
              && (forall i, m :: 0 <= i < |r| && m in roster && InWindow(m, level) && Gap(m, level) < Gap(r[i], level) ==> m in r)
              && |r| == Min(OfferCount, |InRange(roster, level)|)
              && r == Take(SortByGap(InRange(roster, level), level), OfferCount)
              && forall g: nat :: g <= LevelWindow ==> WithGap(SortByGap(InRange(roster, level), level), level, g) == WithGap(roster, level, g)
  {
    if c.Some? {
      var level := c.value.level;
      var filtered := SortByGap(InRange(roster, level), level);
      if forall m :: m in roster ==> !InWindow(m, level) {
        NoneInWindow(roster, level);
      } else {
        WindowOffer(roster, level);
      }
    }
  }

  /** The first monster with the given id, if any. */
  function FindById(ms: seq<Monster>, id: string): (r: Option<Monster>)
    ensures r.Some? ==> r.value in ms && r.value.id == id
    ensures r.Some? ==> exists k :: 0 <= k < |ms| && ms[k] == r.value && forall j :: 0 <= j < k ==> ms[j].id != id
    ensures r.None? <==> forall m :: m in ms ==> m.id != id
  {
    if ms == [] then None else if ms[0].id == id then Some(ms[0]) else FindById(ms[1..], id)
  }

  /** `availableMonsters.find(id) ?? availableMonsters[0] ?? roster[0]`: the chosen monster when
      it is offered, else the first offered one, else the roster's head. */
  function Pick(available: seq<Monster>, roster: seq<Monster>, selectedId: string): (m: Monster)
    requires roster != []
    ensures (exists o :: o in available && o.id == selectedId) ==> m in available && m.id == selectedId
    ensures !(exists o :: o in available && o.id == selectedId) && available != [] ==> m == available[0]
    ensures available == [] ==> m == roster[0]
  {
    match FindById(available, selectedId)
    case Some(m) => m
    case None => if |available| > 0 then available[0] else roster[0]
  }

  /** A non-empty roster is never offered nothing. */
  lemma OfferNonEmpty(c: Option<Creature>, roster: seq<Monster>)
    requires roster != []
    ensures AvailableMonsters(c, roster) != []
  {
  }

  /** The monster shown and sent to the duel: the chosen one when it is offered, else the
      first offered one. The offer is never empty, so the last fallback, the rival, is not
      reached. */
  function SelectedMonster(c: Option<Creature>, rivalIcon: string, selectedId: string): (m: Monster)
    ensures m in Roster(c, rivalIcon)
    ensures (exists o :: o in AvailableMonsters(c, Roster(c, rivalIcon)) && o.id == selectedId) ==> m.id == selectedId
    ensures !(exists o :: o in AvailableMonsters(c, Roster(c, rivalIcon)) && o.id == selectedId) ==>
              |AvailableMonsters(c, Roster(c, rivalIcon))| > 0 && m == AvailableMonsters(c, Roster(c, rivalIcon))[0]
  {
    var roster := Roster(c, rivalIcon);
    var available := AvailableMonsters(c, roster);
    OfferMembers(c, roster);
    OfferNonEmpty(c, roster);
    Pick(available, roster, selectedId)
  }

  /** When the roster's head is within the window and no roster monster is closer, the head is
      offered first: the sort keeps it ahead of the monsters as close as it is. */
  lemma HeadOfferedFirst(c: Creature, roster: seq<Monster>)
    requires roster != [] && InWindow(roster[0], c.level)
    requires forall m :: m in roster ==> Gap(m, c.level) >= Gap(roster[0], c.level)
    ensures |AvailableMonsters(Some(c), roster)| > 0
    ensures AvailableMonsters(Some(c), roster)[0] == roster[0]
  {
    var level := c.level;
    var g := Gap(roster[0], level);
    var window := InRange(roster, level);
    var filtered := SortByGap(window, level);
    SortedWindowMembers(roster, level);
    assert roster[0] in filtered;
    SortFacts(window, level);
    InRangeByGap(roster, level, g);
    var first := filtered[0];
    assert Gap(first, level) <= g by {
      var k :| 0 <= k < |filtered| && filtered[k] == roster[0];
    }
    assert first in filtered;
    assert WithGap(filtered, level, g)[0] == first;
    assert WithGap(roster, level, g)[0] == roster[0];
  }

  /** A creature of level 1 or more meets its rival one level up; when no static monster shares
      the creature's level, the rival is the closest monster and, coming first in the roster,
      is offered first and selected by its id. */
  lemma RivalOfferedFirst(c: Creature, icon: string)
    requires c.level >= 1
    requires forall m :: m in StaticMonsters ==> m.level != c.level
    ensures |AvailableMonsters(Some(c), Roster(Some(c), icon))| > 0
    ensures AvailableMonsters(Some(c), Roster(Some(c), icon))[0] == CreateAiRival(Some(c), icon)
    ensures SelectedMonster(Some(c), icon, RivalId) == CreateAiRival(Some(c), icon)
  {
    var roster := Roster(Some(c), icon);
    assert Gap(roster[0], c.level) == 1;
    forall m | m in roster ensures Gap(m, c.level) >= 1 {
      assert m == roster[0] || m in StaticMonsters;
    }
    HeadOfferedFirst(c, roster);
    var available := AvailableMonsters(Some(c), roster);
    assert FindById(available, RivalId) == Some(roster[0]);
  }

  /** Every offered monster comes from the roster. */
  lemma OfferMembers(c: Option<Creature>, roster: seq<Monster>)
    ensures forall o :: o in AvailableMonsters(c, roster) ==> o in roster
  {
    if c.Some? {
      var filtered := SortByGap(InRange(roster, c.value.level), c.value.level);
      forall o | o in filtered ensures o in roster {
        assert o in multiset(filtered);
      }
    }
  }

  // ---------------------------------------------------------------- lock, guards, toggles

  /** refreshBattleLock: locked when the stored `lockedUntil` is a non-empty string equal to
      today's key. `lockedUntil` is None when no lock, or no date in it, is stored. */
  predicate IsLocked(lockedUntil: Option<string>, today: string) {
    lockedUntil.Some? && lockedUntil.value != "" && lockedUntil.value == today
  }

  /** Day keys are never empty, so the arena is locked exactly on the stored day. */
  lemma LockedOnlyToday(lockedUntil: Option<string>, today: string)
    requires today != ""
    ensures IsLocked(lockedUntil, today) <==> lockedUntil == Some(today)
    ensures !IsLocked(None, today)
  {
  }

  datatype ArenaAction =
    | NotReady
    | Resting
    | NeedsEnergy
    | GoToDuel(monsterId: string, prep: Prep)

  /** handleBattle: nothing without a creature and stats; the lock is checked before the energy. */
  function HandleBattle(c: Option<Creature>, stats: Option<PlayerStats>, locked: bool, selectedId: string, prep: Prep): (a: ArenaAction)
    ensures a.GoToDuel? ==> a.monsterId == selectedId && a.prep == prep
  {
    if c.None? || stats.None? then NotReady
    else if locked then Resting
    else if stats.value.energy < EnergyCost then NeedsEnergy
    else GoToDuel(selectedId, prep)
  }

  /** The guards: a locked arena refuses whatever the energy, and a fight is queued exactly
      when both are present, the arena is open and the energy covers the cost. */
  lemma HandleBattleGuards(c: Option<Creature>, stats: Option<PlayerStats>, locked: bool, selectedId: string, prep: Prep)
    ensures c.Some? && stats.Some? && locked ==> HandleBattle(c, stats, locked, selectedId, prep) == Resting
    ensures HandleBattle(c, stats, locked, selectedId, prep).GoToDuel? <==>
              c.Some? && stats.Some? && !locked && stats.value.energy >= EnergyCost
  {
  }

  /** togglePrep: flip one key. */
  function TogglePrep(p: Prep, k: PrepKey): (r: Prep)
    ensures PrepGet(r, k) == !PrepGet(p, k)
    ensures forall other :: other != k ==> PrepGet(r, other) == PrepGet(p, other)
  {
    match k
    case Fed => p.(fed := !p.fed)
    case Charm => p.(charm := !p.charm)
    case Potion => p.(potion := !p.potion)
    case Coop => p.(coop := !p.coop)
  }

  /** Toggling twice restores the prep, and toggles on different keys commute. */
  lemma TogglePrepInvolution(p: Prep, k: PrepKey, k2: PrepKey)
    ensures TogglePrep(TogglePrep(p, k), k) == p
    ensures TogglePrep(TogglePrep(p, k), k2) == TogglePrep(TogglePrep(p, k2), k)
  {
  }

  datatype Status = Recovering | NotEnoughEnergy(deficit: int) | PowerSurge

  /** statusMessage: the energy is the player's, or 0 before the stats load. */
  function StatusMessage(locked: bool, stats: Option<PlayerStats>): Status {
    var energy := if stats.Some? then stats.value.energy else 0;
    if locked then Recovering
    else if energy < EnergyCost then NotEnoughEnergy(Max(0, EnergyCost - energy))
    else PowerSurge
  }

  /** The status line agrees with the guards, and the deficit shown is exactly what is missing. */
  lemma StatusMatchesGuards(c: Creature, stats: PlayerStats, locked: bool, selectedId: string, prep: Prep)
    ensures var s := StatusMessage(locked, Some(stats));
            var a := HandleBattle(Some(c), Some(stats), locked, selectedId, prep);
            (s.Recovering? <==> a.Resting?) && (s.PowerSurge? <==> a.GoToDuel?)
            && (s.NotEnoughEnergy? <==> a.NeedsEnergy?)
            && (s.NotEnoughEnergy? ==> s.deficit > 0 && stats.energy + s.deficit == EnergyCost)
  {
  }

  /** The victory XP shown for a monster. */
  function VictoryXp(m: Monster, prep: Prep): (xp: int)
    ensures m.xpReward >= 0 ==> xp >= m.xpReward
    ensures !prep.coop ==> xp == m.xpReward
  {
    ComputeXpGain(m.xpReward, prep, true)
  }
}
