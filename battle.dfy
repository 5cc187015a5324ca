/** The turn-based battle engine and the XP reward (lib/battle.ts, and its older copy in
    app/battle.tsx, expressed as a Variant of the same engine). */
module Battle {
  import opened Common
  import opened Models

  /** Energy one battle costs in the arena (lib/battle.ts). */
  const EnergyCost: int := 10
  const MaxRounds: int := 6
  /** Math.random is replaced by rolls supplied by the caller: two per round. */
  const RollsNeeded: int := 2 * MaxRounds
  const PotionThreshold: real := 0.4

  type Roll = r: real | 0.0 <= r < 1.0

  datatype PrepKey = Fed | Charm | Potion | Coop

  /** The four preparation toggles chosen before a fight. */
  datatype Prep = Prep(fed: bool, charm: bool, potion: bool, coop: bool)

  const DefaultPrep: Prep := Prep(false, false, false, false)

  /** The toggles in the order the preparation options are declared. */
  const PrepOrder: seq<PrepKey> := [Fed, Charm, Potion, Coop]

  function PrepGet(p: Prep, k: PrepKey): bool {
    match k
    case Fed => p.fed
    case Charm => p.charm
    case Potion => p.potion
    case Coop => p.coop
  }

  // ---------------------------------------------------------------- XP reward

  function XpMultiplier(p: Prep): real {
    if p.coop then 1.15 else 1.0
  }

  /** The reward before the co-op multiplier: the full reward on a win, a floored quarter on a loss. */
  function BaseXp(monsterXp: int, didWin: bool): int {
    if didWin then monsterXp else monsterXp / 4
  }

  /** XP for a fight: the win or consolation reward, times 1.15 with a co-op ally, rounded. */
  function ComputeXpGain(monsterXp: int, p: Prep, didWin: bool): (r: int)
    ensures !p.coop ==> r == BaseXp(monsterXp, didWin)
    ensures p.coop ==> (r as real) - 0.5 <= 1.15 * (BaseXp(monsterXp, didWin) as real) < (r as real) + 0.5
    ensures BaseXp(monsterXp, didWin) >= 0 ==> r >= BaseXp(monsterXp, didWin)
  {
    var r := Round(BaseXp(monsterXp, didWin) as real * XpMultiplier(p));
    assert !p.coop ==> r == BaseXp(monsterXp, didWin) by { RoundOfInt(BaseXp(monsterXp, didWin)); }
    r
  }

  // ---------------------------------------------------------------- battle records

  datatype Attacker = CreatureSide | MonsterSide

  /** What an event narrates; stands for the source's message text. */
  datatype EventKind = Hit | AllyStrike | Counter(mitigated: bool) | PotionHeal(amount: int)

  datatype BattleEvent = BattleEvent(
    round: int,
    attacker: Attacker,
    damage: int,
    kind: EventKind,
    creatureHP: int,
    monsterHP: int)

  /** A line of the battle log: one per event, then one closing line. */
  datatype LogLine = Narration(event: BattleEvent) | Prevails | Overwhelms | MissingCreature

  datatype BattleOutcome = BattleOutcome(
    didWin: bool,
    log: seq<LogLine>,
    events: seq<BattleEvent>,
    initialCreatureHP: int,
    initialMonsterHP: int)

  /** The two copies of the engine differ only in these switches. */
  datatype Variant = Variant(
    bagItems: bool,        // snack, spark charm and small potion in the bag grant bonuses
    staleMonsterHP: bool)  // counter and potion events show the monster's HP before the ally strike

  const Canonical: Variant := Variant(true, false)
  const Legacy: Variant := Variant(false, true)

  // ---------------------------------------------------------------- fight set-up

  /** Everything fixed before the first round. */
  datatype Setup = Setup(
    initialCreatureHP: int,
    initialMonsterHP: int,
    playerAttack: real,
    playerDefense: real,
    monsterAttack: int,
    monsterDefense: int,
    coopStrike: int,
    charmEquipped: bool,
    potionAvailable: bool,
    healAmount: int)

  predicate SnackEquipped(v: Variant, c: Creature) {
    v.bagItems && HasBagItem(c, "snack")
  }

  predicate CharmEquipped(v: Variant, c: Creature, m: Monster) {
    v.bagItems && HasBagItem(c, "charm-spark") && m.element == Lightning
  }

  predicate BagPotion(v: Variant, c: Creature) {
    v.bagItems && HasBagItem(c, "potion-small")
  }

  function StaBonus(v: Variant, c: Creature, p: Prep): int {
    (if p.fed then 2 else 0) + (if SnackEquipped(v, c) then 1 else 0)
  }

  function DefenseBonus(v: Variant, c: Creature, m: Monster, p: Prep): int {
    (if p.charm then 5 else 0) + (if CharmEquipped(v, c, m) then 3 else 0)
  }

  function StartingHP(v: Variant, c: Creature, p: Prep): int {
    (c.stats.sta + StaBonus(v, c, p)) * 20 + c.level * 10 + 60
  }

  function BaseAttack(c: Creature): real {
    c.stats.str as real * 1.4 + c.stats.agi as real * 0.8 + c.stats.intel as real * 0.5 + c.level as real * 1.8
  }

  function CoopStrike(c: Creature, p: Prep): int {
    if p.coop then Max(8, Round((c.stats.str + c.stats.agi) as real * 0.4)) else 0
  }

  function SetUp(v: Variant, c: Creature, m: Monster, p: Prep): (s: Setup)
    ensures s.coopStrike == 0 <==> !p.coop
    ensures p.coop ==> s.coopStrike >= 8
  {
    var init := StartingHP(v, c, p);
    Setup(
      init,
      m.health,
      if SnackEquipped(v, c) then BaseAttack(c) * 1.05 else BaseAttack(c),
      c.stats.sta as real * 0.7 + c.stats.intel as real * 0.3 + DefenseBonus(v, c, m, p) as real,
      m.attack,
      m.defense,
      CoopStrike(c, p),
      CharmEquipped(v, c, m),
      p.potion || BagPotion(v, c),
      Round(init as real * (if BagPotion(v, c) then 0.35 else 0.3)))
  }

  // ---------------------------------------------------------------- damage

  /** The creature's main hit, never below 8. */
  function HitDamage(s: Setup, roll: real): (d: int)
    ensures d >= 8
  {
    Max(8, Round(s.playerAttack * (0.85 + roll * 0.4) - s.monsterDefense as real))
  }

  /** The creature's main hit, as the loop body runs it. */
  method CreatureHit(s: Setup, playerHP: int, monsterHP: int, potionAvailable: bool,
                     log: seq<LogLine>, events: seq<BattleEvent>, round: int, hitRoll: real)
    returns (monsterHP': int, log': seq<LogLine>, events': seq<BattleEvent>)
    requires log == Narrate(events)
    ensures Fight(playerHP, monsterHP', potionAvailable, events')
         == Strike(s, Fight(playerHP, monsterHP, potionAvailable, events), round, hitRoll)
    ensures log' == Narrate(events')
  {
    var playerDamage := HitDamage(s, hitRoll);
    monsterHP' := monsterHP - playerDamage;
    var hit := BattleEvent(round, CreatureSide, Max(playerDamage, 0), Hit, playerHP, Max(monsterHP', 0));
    log', events' := Record(log, events, hit);
  }

  /** The ally's strike when the coop prep is active and the monster still stands. */
  method AllyTurn(s: Setup, playerHP: int, monsterHP: int, potionAvailable: bool,
                  log: seq<LogLine>, events: seq<BattleEvent>, round: int)
    returns (monsterHP': int, log': seq<LogLine>, events': seq<BattleEvent>)
    requires log == Narrate(events)
    ensures Fight(playerHP, monsterHP', potionAvailable, events')
         == Ally(s, Fight(playerHP, monsterHP, potionAvailable, events), round)
    ensures log' == Narrate(events')
  {
    monsterHP', log', events' := monsterHP, log, events;
    if s.coopStrike != 0 && monsterHP > 0 {
      monsterHP' := monsterHP - s.coopStrike;
      var ally := BattleEvent(round, CreatureSide, s.coopStrike, AllyStrike, playerHP, Max(monsterHP', 0));
      log', events' := Record(log, events, ally);
    }
  }

  /** The monster's counter before the charm, never below 6. */
  function RawCounterDamage(s: Setup, roll: real): (d: int)
    ensures d >= 6
  {
    Max(6, Round(s.monsterAttack as real * (0.9 + roll * 0.3) - s.playerDefense))
  }

  /** The counter after the spark charm: it only ever lowers the damage, only when the charm is
      equipped, and always does lower it then. */
  function CounterDamage(s: Setup, roll: real): (r: (int, bool))
    ensures r.0 <= RawCounterDamage(s, roll)
    ensures r.1 <==> r.0 < RawCounterDamage(s, roll)
    ensures r.1 <==> s.charmEquipped
    ensures r.0 >= 5
  {
    var raw := RawCounterDamage(s, roll);
    if s.charmEquipped && raw > 0 then
      var mitigated := Round(raw as real * 0.85);
      if mitigated < raw then (mitigated, true) else (raw, false)
    else
      (raw, false)
  }

  // ---------------------------------------------------------------- one round

  /** The mutable state of the round loop. */
  datatype Fight = Fight(playerHP: int, monsterHP: int, potionAvailable: bool, events: seq<BattleEvent>)

  function Strike(s: Setup, st: Fight, round: int, roll: real): Fight {
    var dmg := HitDamage(s, roll);
    var m := st.monsterHP - dmg;
    st.(monsterHP := m,
        events := st.events + [BattleEvent(round, CreatureSide, Max(dmg, 0), Hit, st.playerHP, Max(m, 0))])
  }

  function Ally(s: Setup, st: Fight, round: int): Fight {
    if s.coopStrike != 0 && st.monsterHP > 0 then
      var m := st.monsterHP - s.coopStrike;
      st.(monsterHP := m,
          events := st.events + [BattleEvent(round, CreatureSide, s.coopStrike, AllyStrike, st.playerHP, Max(m, 0))])
    else
      st
  }

  /** The monster HP a counter or potion event reports; `afterHit` is its HP right after the main hit. */
  function ShownMonsterHP(v: Variant, st: Fight, afterHit: int): int {
    if v.staleMonsterHP then Max(afterHit, 0) else Max(st.monsterHP, 0)
  }

  function MonsterCounter(v: Variant, s: Setup, st: Fight, round: int, roll: real, afterHit: int): Fight {
    var (dmg, mitigated) := CounterDamage(s, roll);
    var p := st.playerHP - dmg;
    st.(playerHP := p,
        events := st.events + [BattleEvent(round, MonsterSide, Max(dmg, 0), Counter(mitigated), Max(p, 0),
                                           ShownMonsterHP(v, st, afterHit))])
  }

  predicate PotionFires(s: Setup, st: Fight) {
    st.potionAvailable && st.playerHP > 0 && st.playerHP as real <= s.initialCreatureHP as real * PotionThreshold
  }

  function DrinkPotion(v: Variant, s: Setup, st: Fight, round: int, afterHit: int): Fight {
    if PotionFires(s, st) then
      var p := Min(st.playerHP + s.healAmount, s.initialCreatureHP);
      st.(playerHP := p,
          potionAvailable := false,
          events := st.events + [BattleEvent(round, CreatureSide, 0, PotionHeal(s.healAmount), p,
                                             ShownMonsterHP(v, st, afterHit))])
    else
      st
  }

  /** One round: hit; ally strike; counter; potion. A knockout by the hit or the ally ends the
      round at once with the monster's HP set to 0. */
  function PlayRound(v: Variant, s: Setup, st: Fight, round: int, hitRoll: real, counterRoll: real): Fight {
    var a := Strike(s, st, round, hitRoll);
    if a.monsterHP <= 0 then a.(monsterHP := 0)
    else
      var b := Ally(s, a, round);
      if b.monsterHP <= 0 then b.(monsterHP := 0)
      else DrinkPotion(v, s, MonsterCounter(v, s, b, round, counterRoll, a.monsterHP), round, a.monsterHP)
  }

  predicate Continues(st: Fight, round: int) {
    round <= MaxRounds && st.playerHP > 0 && st.monsterHP > 0
  }

  /** The round loop from `round` on. */
  function RunRounds(v: Variant, s: Setup, rolls: seq<Roll>, round: int, st: Fight): Fight
    requires 1 <= round <= MaxRounds + 1
    requires |rolls| >= RollsNeeded
    decreases MaxRounds + 1 - round
  {
    if Continues(st, round) then
      RunRounds(v, s, rolls, round + 1, PlayRound(v, s, st, round, rolls[2 * round - 2], rolls[2 * round - 1]))
    else
      st
  }

  /** While the fight continues, the loop from `round` is one round followed by the loop from
      the next round. */
  lemma RunRoundsStep(v: Variant, s: Setup, rolls: seq<Roll>, round: int, st: Fight)
    requires 1 <= round <= MaxRounds && |rolls| >= RollsNeeded
    requires st.playerHP > 0 && st.monsterHP > 0
    ensures RunRounds(v, s, rolls, round, st)
         == RunRounds(v, s, rolls, round + 1, PlayRound(v, s, st, round, rolls[2 * round - 2], rolls[2 * round - 1]))
  {
  }

  /** Once the fight stops, the loop leaves its state as it is. */
  lemma RunRoundsDone(v: Variant, s: Setup, rolls: seq<Roll>, round: int, st: Fight)
    requires 1 <= round <= MaxRounds + 1 && |rolls| >= RollsNeeded
    requires !Continues(st, round)
    ensures RunRounds(v, s, rolls, round, st) == st
  {
  }

  function InitialFight(s: Setup): Fight {
    Fight(s.initialCreatureHP, s.initialMonsterHP, s.potionAvailable, [])
  }

  function FinalFight(v: Variant, c: Creature, m: Monster, p: Prep, rolls: seq<Roll>): Fight
    requires |rolls| >= RollsNeeded
  {
    var s := SetUp(v, c, m, p);
    RunRounds(v, s, rolls, 1, InitialFight(s))
  }

  /** The log lines the round loop pushes, one per event, in order. */
  function Narrate(events: seq<BattleEvent>): (log: seq<LogLine>)
    ensures |log| == |events|
    ensures forall i :: 0 <= i < |events| ==> log[i] == Narration(events[i])
  {
    if events == [] then [] else Narrate(events[..|events| - 1]) + [Narration(events[|events| - 1])]
  }

  lemma NarrateAppend(events: seq<BattleEvent>, e: BattleEvent)
    ensures Narrate(events + [e]) == Narrate(events) + [Narration(e)]
  {
    assert (events + [e])[..|events|] == events;
  }

  function Closing(didWin: bool): LogLine {
    if didWin then Prevails else Overwhelms
  }

  predicate Won(st: Fight) {
    st.monsterHP <= 0 && st.playerHP > 0
  }

  /** The whole battle as a function of its inputs. */
  function Simulate(v: Variant, c: Option<Creature>, m: Monster, p: Prep, rolls: seq<Roll>): (r: BattleOutcome)
    requires |rolls| >= RollsNeeded
    ensures c.None? ==> !r.didWin && r.events == [] && r.log == [MissingCreature]
    ensures c.None? ==> r.initialCreatureHP == 0 && r.initialMonsterHP == 0
    ensures c.Some? ==> r.initialMonsterHP == m.health
    ensures |r.log| == |r.events| + 1
    ensures forall i :: 0 <= i < |r.events| ==> r.log[i] == Narration(r.events[i])
    ensures c.Some? ==> r.log[|r.events|] == (if r.didWin then Prevails else Overwhelms)
  {
    match c
    case None => BattleOutcome(false, [MissingCreature], [], 0, 0)
    case Some(cr) =>
      var s := SetUp(v, cr, m, p);
      var st := FinalFight(v, cr, m, p, rolls);
      BattleOutcome(Won(st), Narrate(st.events) + [Closing(Won(st))], st.events, s.initialCreatureHP, s.initialMonsterHP)
  }

  // ---------------------------------------------------------------- the imperative engine

  /** `log.push(message); events.push(event)`: the log keeps narrating the events. */
  method Record(log: seq<LogLine>, events: seq<BattleEvent>, e: BattleEvent) returns (log': seq<LogLine>, events': seq<BattleEvent>)
    requires log == Narrate(events)
    ensures events' == events + [e]
    ensures log' == Narrate(events') && log' == log + [Narration(e)]
  {
    NarrateAppend(events, e);
    log' := log + [Narration(e)];
    events' := events + [e];
  }

  /** The monster's counter and the potion check that follows it, as the loop body runs them. */
  method MonsterTurn(v: Variant, s: Setup, playerHP: int, monsterHP: int, potionAvailable: bool,
                     log: seq<LogLine>, events: seq<BattleEvent>, round: int, counterRoll: real, afterHit: int)
    returns (playerHP': int, potionAvailable': bool, log': seq<LogLine>, events': seq<BattleEvent>)
    requires log == Narrate(events)
    ensures Fight(playerHP', monsterHP, potionAvailable', events')
         == DrinkPotion(v, s, MonsterCounter(v, s, Fight(playerHP, monsterHP, potionAvailable, events), round, counterRoll, afterHit), round, afterHit)
    ensures log' == Narrate(events')
  {
    var counter := CounterDamage(s, counterRoll);
    var monsterDamage := counter.0;
    playerHP' := playerHP - monsterDamage;
    var shown := if v.staleMonsterHP then Max(afterHit, 0) else Max(monsterHP, 0);
    var hitBack := BattleEvent(round, MonsterSide, Max(monsterDamage, 0), Counter(counter.1), Max(playerHP', 0), shown);
    log', events' := Record(log, events, hitBack);
    playerHP', potionAvailable', log', events' :=
      PotionCheck(v, s, playerHP', monsterHP, potionAvailable, log', events', round, afterHit);
  }

  /** The potion check after the counter: a potion still available is drunk once the creature is
      standing at 40% of its HP or less. */
  method PotionCheck(v: Variant, s: Setup, playerHP: int, monsterHP: int, potionAvailable: bool,
                     log: seq<LogLine>, events: seq<BattleEvent>, round: int, afterHit: int)
    returns (playerHP': int, potionAvailable': bool, log': seq<LogLine>, events': seq<BattleEvent>)
    requires log == Narrate(events)
    ensures Fight(playerHP', monsterHP, potionAvailable', events')
         == DrinkPotion(v, s, Fight(playerHP, monsterHP, potionAvailable, events), round, afterHit)
    ensures log' == Narrate(events')
  {
    playerHP', potionAvailable', log', events' := playerHP, potionAvailable, log, events;
    if potionAvailable && playerHP > 0 && playerHP as real <= s.initialCreatureHP as real * PotionThreshold {
      potionAvailable' := false;
      playerHP' := Min(playerHP + s.healAmount, s.initialCreatureHP);
      var shown := if v.staleMonsterHP then Max(afterHit, 0) else Max(monsterHP, 0);
      var heal := BattleEvent(round, CreatureSide, 0, PotionHeal(s.healAmount), playerHP', shown);
      log', events' := Record(log, events, heal);
    }
  }

  /** One pass of the round loop's body. A knockout by the hit or the ally strike leaves the monster
      at 0 HP and skips the rest of the round; the loop condition then ends the battle, as the
      source's `break` does. */
  method PlayOneRound(v: Variant, s: Setup, playerHP: int, monsterHP: int, potionAvailable: bool,
                      log: seq<LogLine>, events: seq<BattleEvent>, round: int, hitRoll: real, counterRoll: real)
    returns (playerHP': int, monsterHP': int, potionAvailable': bool, log': seq<LogLine>, events': seq<BattleEvent>)
    requires log == Narrate(events)
    ensures Fight(playerHP', monsterHP', potionAvailable', events')
         == PlayRound(v, s, Fight(playerHP, monsterHP, potionAvailable, events), round, hitRoll, counterRoll)
    ensures log' == Narrate(events')
  {
    playerHP', potionAvailable' := playerHP, potionAvailable;
    monsterHP', log', events' := CreatureHit(s, playerHP, monsterHP, potionAvailable, log, events, round, hitRoll);
    var afterHit := monsterHP';
    if monsterHP' <= 0 {
      monsterHP' := 0;
      return;
    }
    monsterHP', log', events' := AllyTurn(s, playerHP, monsterHP', potionAvailable, log', events', round);
    if monsterHP' <= 0 {
      monsterHP' := 0;
      return;
    }
    playerHP', potionAvailable', log', events' :=
      MonsterTurn(v, s, playerHP, monsterHP', potionAvailable, log', events', round, counterRoll, afterHit);
  }

  /** One pass of the loop body on the loop's state: the loop from the next round then ends
      where the loop from this round would have. */
  method NextRound(v: Variant, s: Setup, rolls: seq<Roll>, round: int, st: Fight, log: seq<LogLine>)
    returns (st': Fight, log': seq<LogLine>)
    requires 1 <= round <= MaxRounds && |rolls| >= RollsNeeded
    requires st.playerHP > 0 && st.monsterHP > 0
    requires log == Narrate(st.events)
    ensures st' == PlayRound(v, s, st, round, rolls[2 * round - 2], rolls[2 * round - 1])
    ensures RunRounds(v, s, rolls, round + 1, st') == RunRounds(v, s, rolls, round, st)
    ensures log' == Narrate(st'.events)
  {
    var playerHP, monsterHP, potionAvailable, events;
    playerHP, monsterHP, potionAvailable, log', events :=
      PlayOneRound(v, s, st.playerHP, st.monsterHP, st.potionAvailable, log, st.events, round,
                   rolls[2 * round - 2], rolls[2 * round - 1]);
    st' := Fight(playerHP, monsterHP, potionAvailable, events);
    RunRoundsStep(v, s, rolls, round, st);
  }

  /** The round loop of simulateBattle, from the fight's starting state: it computes `RunRounds`
      from round 1 and keeps the log narrating the events. */
  method RoundLoop(v: Variant, s: Setup, rolls: seq<Roll>) returns (st: Fight, log: seq<LogLine>)
    requires |rolls| >= RollsNeeded
    ensures st == RunRounds(v, s, rolls, 1, InitialFight(s))
    ensures log == Narrate(st.events)
  {
    st, log := InitialFight(s), [];
    ghost var final := RunRounds(v, s, rolls, 1, st);
    var round := 1;
    while round <= MaxRounds && st.playerHP > 0 && st.monsterHP > 0
      invariant 1 <= round <= MaxRounds + 1
      invariant log == Narrate(st.events)
      invariant RunRounds(v, s, rolls, round, st) == final
      decreases MaxRounds + 1 - round
    {
      st, log := NextRound(v, s, rolls, round, st, log);
      round := round + 1;
    }
    RunRoundsDone(v, s, rolls, round, st);
  }

  /** simulateBattle: the set-up, the round loop and the closing line, proved to compute `Simulate`. */
  method SimulateBattle(v: Variant, creature: Option<Creature>, monster: Monster, prep: Prep, rolls: seq<Roll>)
    returns (outcome: BattleOutcome)
    requires |rolls| >= RollsNeeded
    ensures outcome == Simulate(v, creature, monster, prep, rolls)
  {
    if creature.None? {
      return BattleOutcome(false, [MissingCreature], [], 0, 0);
    }
    var s := SetUp(v, creature.value, monster, prep);
    var st, log := RoundLoop(v, s, rolls);
    var didWin := st.monsterHP <= 0 && st.playerHP > 0;
    log := log + [Closing(didWin)];
    outcome := BattleOutcome(didWin, log, st.events, s.initialCreatureHP, s.initialMonsterHP);
  }
}
