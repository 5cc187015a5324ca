/** The duel screen (app/battle/duel.tsx): reading the preparation from the route, finding the
    monster, and the entry step that checks the daily lock and the energy, fights, pays the
    XP and sets or clears the lock. Storage is explicit: the lock read and written is the stored
    `lockedUntil`, and the new player stats are returned. */
module Duel {
  import opened Common
  import opened Models
  import opened Battle
  import opened Monsters
  import opened Arena
  import opened InitialData
  import WorkoutLog

  // ---------------------------------------------------------------- the prep parameter

  /** The object JSON.parse produced: any toggle may be missing. */
  datatype PartialPrep = PartialPrep(fed: Option<bool>, charm: Option<bool>, potion: Option<bool>, coop: Option<bool>)

  /** The `prep` route parameter: absent, or a text together with what parsing it gave
      (None when JSON.parse throws). */
  datatype PrepParam = Absent | Given(text: string, parsed: Option<PartialPrep>)

  function PartialPrepGet(p: PartialPrep, k: PrepKey): Option<bool> {
    match k
    case Fed => p.fed
    case Charm => p.charm
    case Potion => p.potion
    case Coop => p.coop
  }

  /** parsePrepState: the defaults for a missing or empty parameter or a parse failure;
      otherwise the defaults overridden by each key present. */
  function ParsePrepState(param: PrepParam): (p: Prep)
    ensures (param.Absent? || param.text == "" || param.parsed.None?) ==> p == DefaultPrep
    ensures param.Given? && param.text != "" && param.parsed.Some? ==>
              forall k :: PrepGet(p, k) == PartialPrepGet(param.parsed.value, k).GetOr(PrepGet(DefaultPrep, k))
  {
    match param
    case Absent => DefaultPrep
    case Given(text, parsed) =>
      if text == "" then DefaultPrep
      else match parsed
        case None => DefaultPrep
        case Some(pp) =>
          Prep(pp.fed.GetOr(DefaultPrep.fed), pp.charm.GetOr(DefaultPrep.charm),
               pp.potion.GetOr(DefaultPrep.potion), pp.coop.GetOr(DefaultPrep.coop))
  }

  /** What the arena's JSON.stringify of a prep parses back to: all four keys present. */
  function Serialized(p: Prep): PartialPrep {
    PartialPrep(Some(p.fed), Some(p.charm), Some(p.potion), Some(p.coop))
  }

  /** The prep the arena sends arrives unchanged. */
  lemma PrepRoundTrip(p: Prep, text: string)
    requires text != ""
    ensures ParsePrepState(Given(text, Some(Serialized(p)))) == p
  {
  }

  /** The position of a toggle in the declaration order. */
  function PrepIndex(k: PrepKey): (i: nat)
    ensures i < |PrepOrder| && PrepOrder[i] == k
  {
    match k
    case Fed => 0
    case Charm => 1
    case Potion => 2
    case Coop => 3
  }

  /** `prepOptions.filter(option => prep[option.key])`. */
  function KeysSet(p: Prep, keys: seq<PrepKey>): seq<PrepKey> {
    if keys == [] then []
    else (if PrepGet(p, keys[0]) then [keys[0]] else []) + KeysSet(p, keys[1..])
  }

  /** The options whose toggle is set. */
  function ActivePrep(p: Prep): seq<PrepKey> {
    KeysSet(p, PrepOrder)
  }

  /** The filter over the four declared options, written out. */
  lemma ActivePrepShape(p: Prep)
    ensures ActivePrep(p) == (if p.fed then [Fed] else []) + (if p.charm then [Charm] else [])
                             + (if p.potion then [Potion] else []) + (if p.coop then [Coop] else [])
  {
    assert KeysSet(p, [Coop]) == (if p.coop then [Coop] else []) by {
      assert [Coop][1..] == [];
    }
    assert KeysSet(p, [Potion, Coop]) == (if p.potion then [Potion] else []) + KeysSet(p, [Coop]) by {
      assert [Potion, Coop][1..] == [Coop];
    }
    assert KeysSet(p, [Charm, Potion, Coop]) == (if p.charm then [Charm] else []) + KeysSet(p, [Potion, Coop]) by {
      assert [Charm, Potion, Coop][1..] == [Potion, Coop];
    }
    assert PrepOrder[1..] == [Charm, Potion, Coop];
  }

  /** The active options are exactly the set toggles, each once, in declaration order. */
  lemma ActivePrepFacts(p: Prep)
    ensures forall k :: k in ActivePrep(p) <==> PrepGet(p, k)
    ensures forall i, j :: 0 <= i < j < |ActivePrep(p)| ==> PrepIndex(ActivePrep(p)[i]) < PrepIndex(ActivePrep(p)[j])
  {
    ActivePrepShape(p);
  }

  // ---------------------------------------------------------------- the monster lookup

  /** The duel looks the id up among the static monsters only, falling back to the first. */
  function FindMonster(id: Option<string>): (m: Monster)
    ensures m in StaticMonsters
    ensures id.Some? && (forall s :: s in StaticMonsters ==> s.id != id.value) ==> m == StaticMonsters[0]
  {
    match id
    case None => StaticMonsters[0]
    case Some(i) =>
      match FindById(StaticMonsters, i)
      case Some(m) => m
      case None => StaticMonsters[0]
  }

  /** With distinct ids, looking up a member's id finds that member. */
  lemma {:induction false} FindByIdDistinct(ms: seq<Monster>, k: nat)
    requires k < |ms|
    requires forall i, j :: 0 <= i < j < |ms| ==> ms[i].id != ms[j].id
    ensures FindById(ms, ms[k].id) == Some(ms[k])
  {
    if k > 0 {
      assert ms[1..][k - 1] == ms[k];
      FindByIdDistinct(ms[1..], k - 1);
    }
  }

  /** With distinct ids, every member of a list is found by its own id. */
  lemma FoundByOwnId(ms: seq<Monster>, m: Monster)
    requires m in ms
    requires forall i, j :: 0 <= i < j < |ms| ==> ms[i].id != ms[j].id
    ensures FindById(ms, m.id) == Some(m)
  {
    var k :| 0 <= k < |ms| && ms[k] == m;
    FindByIdDistinct(ms, k);
  }

  /** Every static monster is found by its id, and the rival's id falls back to Hydra Prime. */
  lemma FindMonsterFacts()
    ensures forall k :: 0 <= k < |StaticMonsters| ==> FindMonster(Some(StaticMonsters[k].id)) == StaticMonsters[k]
    ensures FindMonster(Some(RivalId)) == HydraPrime
    ensures FindMonster(None) == HydraPrime
  {
    StaticMonstersFacts();
    forall k | 0 <= k < |StaticMonsters| ensures FindMonster(Some(StaticMonsters[k].id)) == StaticMonsters[k] {
      FindByIdDistinct(StaticMonsters, k);
    }
    assert forall m :: m in StaticMonsters ==> m.id != RivalId;
  }

  // ---------------------------------------------------------------- the entry step

  datatype DuelResult =
    | Waiting
    | MustRecover
    | LowEnergy
    | Aborted
    | Fought(outcome: BattleOutcome, xpGain: int, stats: PlayerStats, lockedUntil: Option<string>)

  /** The stored lock blocks the duel when its date is today's. */
  predicate LockedToday(lockedUntil: Option<string>, today: string) {
    lockedUntil == Some(today)
  }

  /** startBattle: refuse while locked, then refuse without the energy; otherwise fight, debit
      the energy, credit the XP, and clear the lock on a win or set it to today on a loss. The
      energy checked and debited is the player's. */
  function StartBattle(c: Option<Creature>, stats: Option<PlayerStats>, m: Monster, prep: Prep,
                       lockedUntil: Option<string>, today: string, rolls: seq<Roll>): (r: DuelResult)
    requires |rolls| >= RollsNeeded
    ensures r.MustRecover? <==> c.Some? && stats.Some? && LockedToday(lockedUntil, today)
    ensures r.LowEnergy? <==> c.Some? && stats.Some? && !LockedToday(lockedUntil, today) && stats.value.energy < EnergyCost
    ensures r.Waiting? <==> c.None? || stats.None?
    ensures !r.Aborted?
    ensures r.Fought? ==>
              c.Some? && stats.Some?
              && r.outcome == Simulate(Canonical, c, m, prep, rolls)
              && r.xpGain == ComputeXpGain(m.xpReward, prep, r.outcome.didWin)
              && r.stats.energy == stats.value.energy - EnergyCost >= 0
              && r.stats.xp == stats.value.xp + r.xpGain
              && (r.lockedUntil.None? <==> r.outcome.didWin)
              && (r.lockedUntil.Some? ==> r.lockedUntil.value == today)
  {
    if c.None? || stats.None? then Waiting
    else if LockedToday(lockedUntil, today) then MustRecover
    else if stats.value.energy < EnergyCost then LowEnergy
    else
      var outcome := Simulate(Canonical, c, m, prep, rolls);
      var gain := ComputeXpGain(m.xpReward, prep, outcome.didWin);
      Fought(outcome, gain, PlayerStats(Max(0, stats.value.energy - EnergyCost), stats.value.xp + gain),
             if outcome.didWin then None else Some(today))
  }

  /** startBattle as written: the energy test reads a name that is declared nowhere, so once
      the lock check passes the step throws before anything is written. */
  function StartBattleAsWritten(c: Option<Creature>, stats: Option<PlayerStats>, lockedUntil: Option<string>,
                                today: string): (r: DuelResult)
    ensures !r.Fought? && !r.LowEnergy?
    ensures r.MustRecover? <==> c.Some? && stats.Some? && LockedToday(lockedUntil, today)
  {
    if c.None? || stats.None? then Waiting
    else if LockedToday(lockedUntil, today) then MustRecover
    else Aborted
  }

  /** As written no duel is ever fought: a ready player with energy to spare and no lock gets
      the thrown error instead of a battle, where the intended step fights. */
  lemma NoDuelAsWritten(c: Creature, stats: PlayerStats, m: Monster, prep: Prep, lockedUntil: Option<string>,
                        today: string, rolls: seq<Roll>)
    requires |rolls| >= RollsNeeded
    ensures !StartBattleAsWritten(Some(c), Some(stats), lockedUntil, today).Fought?
    ensures !LockedToday(lockedUntil, today) && stats.energy >= EnergyCost ==>
              StartBattleAsWritten(Some(c), Some(stats), lockedUntil, today) == Aborted
              && StartBattle(Some(c), Some(stats), m, prep, lockedUntil, today, rolls).Fought?
  {
  }

  /** After a loss the next duel on the same day is refused, whatever is fought next; after a
      win, or on another day, the lock no longer stands in the way. */
  lemma LossLocksTheDay(c: Creature, stats: PlayerStats, m: Monster, prep: Prep, lockedUntil: Option<string>,
                        today: string, rolls: seq<Roll>, m2: Monster, prep2: Prep, day2: string, rolls2: seq<Roll>)
    requires |rolls| >= RollsNeeded && |rolls2| >= RollsNeeded
    ensures var r := StartBattle(Some(c), Some(stats), m, prep, lockedUntil, today, rolls);
            r.Fought? ==>
              (!r.outcome.didWin ==> StartBattle(Some(c), Some(r.stats), m2, prep2, r.lockedUntil, today, rolls2) == MustRecover)
              && ((r.outcome.didWin || day2 != today) ==> !StartBattle(Some(c), Some(r.stats), m2, prep2, r.lockedUntil, day2, rolls2).MustRecover?)
  {
  }

  /** A fight never lowers the player's XP when the reward is not negative, and the XP paid for a
      win is the arena's victory preview. */
  lemma DuelPaysPreview(c: Creature, stats: PlayerStats, m: Monster, prep: Prep, lockedUntil: Option<string>,
                        today: string, rolls: seq<Roll>)
    requires |rolls| >= RollsNeeded
    ensures var r := StartBattle(Some(c), Some(stats), m, prep, lockedUntil, today, rolls);
            r.Fought? ==>
              (m.xpReward >= 0 ==> r.stats.xp >= stats.xp)
              && (r.outcome.didWin ==> r.xpGain == VictoryXp(m, prep))
  {
  }

  /** The arena's lock test and the duel's agree on every real day key, so a fight the arena
      queues is fought, and a duel refused for the lock was already refused by the arena. */
  lemma ArenaAgreesWithDuel(c: Creature, stats: PlayerStats, lockedUntil: Option<string>, today: string,
                            id: string, m: Monster, prep: Prep, text: string, rolls: seq<Roll>)
    requires today != "" && text != "" && |rolls| >= RollsNeeded
    ensures var a := HandleBattle(Some(c), Some(stats), IsLocked(lockedUntil, today), id, prep);
            var r := StartBattle(Some(c), Some(stats), m,
                                 ParsePrepState(Given(text, Some(Serialized(prep)))), lockedUntil, today, rolls);
            (a.GoToDuel? <==> r.Fought?) && (a.Resting? <==> r.MustRecover?) && (a.NeedsEnergy? <==> r.LowEnergy?)
  {
    LockedOnlyToday(lockedUntil, today);
    PrepRoundTrip(prep, text);
  }

  // ---------------------------------------------------------------- the rival lookup

  /** For a creature of level 1 or more whose level no static monster shares, the arena offers
      and selects the rival first and, once the energy covers the cost, queues a duel with the
      rival's id. */
  lemma RivalQueued(c: Creature, stats: PlayerStats, icon: string, prep: Prep)
    requires c.level >= 1
    requires forall m :: m in StaticMonsters ==> m.level != c.level
    requires stats.energy >= EnergyCost
    ensures var selected := SelectedMonster(Some(c), icon, RivalId);
            selected == CreateAiRival(Some(c), icon)
            && HandleBattle(Some(c), Some(stats), false, selected.id, prep) == GoToDuel(RivalId, prep)
  {
    RivalOfferedFirst(c, icon);
  }

  /** The arena offers the rival first, yet the duel cannot find it: for such a creature the
      duel queued for the selected rival looks its id up and fights Hydra Prime, a different
      monster. */
  lemma RivalFightsHydra(c: Creature, icon: string)
    requires c.level >= 1
    requires forall m :: m in StaticMonsters ==> m.level != c.level
    ensures var selected := SelectedMonster(Some(c), icon, RivalId);
            FindMonster(Some(selected.id)) == HydraPrime != selected
  {
    RivalOfferedFirst(c, icon);
    RivalIdFallsBack();
  }

  /** No static monster carries the rival's id, so the duel's lookup falls back to Hydra Prime. */
  lemma RivalIdFallsBack()
    ensures FindMonster(Some(RivalId)) == HydraPrime
  {
    StaticMonstersFacts();
    assert forall m :: m in StaticMonsters ==> m.id != RivalId;
  }

  /** The initial creature is such a creature: level 1, which no static monster has. */
  lemma InitialMeetsRival()
    ensures InitialCreature.level >= 1
    ensures forall m :: m in StaticMonsters ==> m.level != InitialCreature.level
  {
    StaticMonstersFacts();
  }

  /** The lookup the arena evidently relies on: the roster it offered from, rival included. */
  function FindInRoster(c: Option<Creature>, icon: string, id: Option<string>): (m: Monster)
    ensures m in Roster(c, icon)
  {
    var roster := Roster(c, icon);
    match id
    case None => StaticMonsters[0]
    case Some(i) =>
      match FindById(roster, i)
      case Some(m) => m
      case None => StaticMonsters[0]
  }

  /** The roster's ids are pairwise distinct. */
  lemma RosterIdsDistinct(c: Option<Creature>, icon: string)
    ensures var roster := Roster(c, icon);
            forall i, j :: 0 <= i < j < |roster| ==> roster[i].id != roster[j].id
  {
    var roster := Roster(c, icon);
    StaticMonstersFacts();
    forall i, j | 0 <= i < j < |roster| ensures roster[i].id != roster[j].id {
      assert roster[j] == StaticMonsters[j - 1];
      if i > 0 {
        assert roster[i] == StaticMonsters[i - 1];
      }
    }
  }

  /** With the roster lookup the duel fights exactly the monster the arena selected, the rival
      included. */
  lemma DuelFightsSelection(c: Option<Creature>, icon: string, selectedId: string)
    ensures var m := SelectedMonster(c, icon, selectedId);
            FindInRoster(c, icon, Some(m.id)) == m
  {
    RosterIdsDistinct(c, icon);
    FoundByOwnId(Roster(c, icon), SelectedMonster(c, icon, selectedId));
  }

  // ---------------------------------------------------------------- the cooldown reset

  /** Both screens tell a defeated player to log a workout to reset the cooldown, yet the save
      never writes the lock: after a lost duel and a saved workout on the same day, the next
      duel is still refused, whatever the workout. */
  lemma SaveKeepsLock(c: Creature, stats: PlayerStats, m: Monster, prep: Prep, lockedUntil: Option<string>,
                      today: string, rolls: seq<Roll>, w: Workout, base: Creature, storedLog: Option<seq<Workout>>,
                      id: string, date: string, m2: Monster, prep2: Prep, rolls2: seq<Roll>)
    requires |rolls| >= RollsNeeded && |rolls2| >= RollsNeeded
    requires base.xpToNext > 0
    ensures var r := StartBattle(Some(c), Some(stats), m, prep, lockedUntil, today, rolls);
            r.Fought? && !r.outcome.didWin ==>
              var s := WorkoutLog.SaveWorkout(w, Some(c), base, Some(r.stats), false, storedLog, id, date);
              (WorkoutLog.HasLoggedSets(w.exercises) ==> s.Saved?)
              && (s.Saved? ==> StartBattle(Some(s.creature), Some(s.stats), m2, prep2, r.lockedUntil, today, rolls2) == MustRecover)
  {
  }

  /** The lock as the messages promise it: a saved workout clears it, anything else leaves it. */
  function LockAfterSave(saved: WorkoutLog.SaveResult, lockedUntil: Option<string>): (l: Option<string>)
    ensures saved.Saved? ==> l.None?
    ensures !saved.Saved? ==> l == lockedUntil
  {
    if saved.Saved? then None else lockedUntil
  }

  /** With the lock cleared by the save, a workout logged after a lost duel lets the player
      fight again the same day as soon as the energy covers the cost; a refused save does not. */
  lemma SaveResetsCooldown(c: Creature, stats: PlayerStats, m: Monster, prep: Prep, lockedUntil: Option<string>,
                           today: string, rolls: seq<Roll>, w: Workout, base: Creature, storedLog: Option<seq<Workout>>,
                           id: string, date: string, m2: Monster, prep2: Prep, rolls2: seq<Roll>)
    requires |rolls| >= RollsNeeded && |rolls2| >= RollsNeeded
    requires base.xpToNext > 0
    ensures var r := StartBattle(Some(c), Some(stats), m, prep, lockedUntil, today, rolls);
            r.Fought? && !r.outcome.didWin ==>
              var s := WorkoutLog.SaveWorkout(w, Some(c), base, Some(r.stats), false, storedLog, id, date);
              var lock := LockAfterSave(s, r.lockedUntil);
              (s.Saved? ==>
                 var next := StartBattle(Some(s.creature), Some(s.stats), m2, prep2, lock, today, rolls2);
                 !next.MustRecover? && (next.Fought? <==> r.stats.energy >= EnergyCost))
              && (!s.Saved? ==> lock == Some(today))
  {
  }
}
