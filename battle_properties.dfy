/** What the battle engine promises about the fight it records: every event's bounds, the
    damage floors and the charm, the one-shot potion, the knockout that ends the fight, the
    win rule, and how the two copies of the engine relate. */
module BattleProperties {
  import opened Common
  import opened Models
  import opened Battle

  // ---------------------------------------------------------------- per-event facts

  predicate Alive(e: BattleEvent) {
    e.creatureHP > 0 && e.monsterHP > 0
  }

  /** What `SetUp` guarantees of the fixed numbers and the round loop relies on. */
  predicate SetupOk(s: Setup) {
    (s.initialCreatureHP > 0 ==> s.healAmount >= 0)
    && (s.coopStrike == 0 || s.coopStrike >= 8)
  }

  lemma SetUpOk(v: Variant, c: Creature, m: Monster, p: Prep)
    ensures SetupOk(SetUp(v, c, m, p))
  {
  }

  /** Facts every single event of a fight satisfies: a round in 1..6, clamped HP fields that
      never exceed the starting HP, the damage floors, mitigation only with the spark charm,
      the fixed heal, and a monster still standing when it counters or the potion is drunk. */
  predicate EventOk(s: Setup, e: BattleEvent) {
    1 <= e.round <= MaxRounds
    && 0 <= e.creatureHP <= s.initialCreatureHP
    && e.monsterHP >= 0
    && match e.kind
       case Hit => e.attacker == CreatureSide && e.damage >= 8
       case AllyStrike => e.attacker == CreatureSide && e.damage == s.coopStrike && e.damage >= 8
       case Counter(mitigated) =>
         e.attacker == MonsterSide && e.damage >= 5 && (!mitigated ==> e.damage >= 6)
         && (mitigated <==> s.charmEquipped) && e.monsterHP > 0
       case PotionHeal(amount) =>
         e.attacker == CreatureSide && e.damage == 0 && amount == s.healAmount
         && e.creatureHP > 0 && e.monsterHP > 0
  }

  // ---------------------------------------------------------------- facts about the sequence

  function PotionCount(ev: seq<BattleEvent>): (n: nat)
    ensures n <= |ev|
  {
    if ev == [] then 0
    else PotionCount(ev[..|ev| - 1]) + (if ev[|ev| - 1].kind.PotionHeal? then 1 else 0)
  }

  lemma PotionCountAppend(ev: seq<BattleEvent>, e: BattleEvent)
    ensures PotionCount(ev + [e]) == PotionCount(ev) + (if e.kind.PotionHeal? then 1 else 0)
  {
    assert (ev + [e])[..|ev|] == ev;
  }

  /** A potion event comes right after the counter of the same round, which left the creature
      alive at no more than 40% of its starting HP; the heal is capped at the starting HP and
      the monster HP shown is the counter's. */
  predicate PotionJustified(s: Setup, ev: seq<BattleEvent>, i: int)
    requires 0 <= i < |ev|
  {
    i >= 1 && ev[i - 1].kind.Counter? && ev[i - 1].round == ev[i].round
    && 0 < ev[i - 1].creatureHP
    && ev[i - 1].creatureHP as real <= s.initialCreatureHP as real * PotionThreshold
    && ev[i].creatureHP == Min(ev[i - 1].creatureHP + s.healAmount, s.initialCreatureHP)
    && ev[i].monsterHP == ev[i - 1].monsterHP
  }

  /** A counter comes right after the round's hit or ally strike. The canonical engine shows
      the monster's current HP; the legacy one shows its HP after the main hit, ignoring the
      ally strike. */
  predicate CounterShows(v: Variant, ev: seq<BattleEvent>, i: int)
    requires 0 <= i < |ev|
  {
    i >= 1 && ev[i - 1].round == ev[i].round
    && (ev[i - 1].kind.Hit? ==> ev[i].monsterHP == ev[i - 1].monsterHP)
    && (ev[i - 1].kind.AllyStrike? ==>
          i >= 2 && ev[i - 2].kind.Hit? && ev[i - 2].round == ev[i].round
          && ev[i].monsterHP == (if v.staleMonsterHP then ev[i - 2].monsterHP else ev[i - 1].monsterHP))
    && (ev[i - 1].kind.Hit? || ev[i - 1].kind.AllyStrike?)
  }

  // ---------------------------------------------------------------- the loop invariant

  /** Everything an event owes to the events before it: its own bounds, rounds that never
      decrease, a previous event that left both sides standing (only the last event may show a
      knockout), and the counter and potion ordering. */
  predicate Good(v: Variant, s: Setup, ev: seq<BattleEvent>, i: int)
    requires 0 <= i < |ev|
  {
    EventOk(s, ev[i])
    && (i >= 1 ==> ev[i - 1].round <= ev[i].round && Alive(ev[i - 1]))
    && (ev[i].kind.PotionHeal? ==> PotionJustified(s, ev, i))
    && (ev[i].kind.Counter? ==> CounterShows(v, ev, i))
  }

  predicate Recorded(v: Variant, s: Setup, ev: seq<BattleEvent>) {
    forall i :: 0 <= i < |ev| ==> Good(v, s, ev, i)
  }

  /** Appending an event that is good where it lands keeps the record good. */
  lemma RecordedAppend(v: Variant, s: Setup, ev: seq<BattleEvent>, e: BattleEvent)
    requires Recorded(v, s, ev) && Good(v, s, ev + [e], |ev|)
    ensures Recorded(v, s, ev + [e])
  {
    forall i | 0 <= i < |ev|
      ensures Good(v, s, ev + [e], i)
    {
      assert Good(v, s, ev, i);
      assert (ev + [e])[i] == ev[i];
      if i >= 1 {
        assert (ev + [e])[i - 1] == ev[i - 1];
      }
      if i >= 2 {
        assert (ev + [e])[i - 2] == ev[i - 2];
      }
    }
  }

  /** The loop's own variables against the record: the HP counters agree with the last event,
      the potion is spent exactly when a potion event exists, and the next round follows the
      last event's round. */
  predicate Linked(s: Setup, st: Fight, next: int) {
    var ev := st.events;
    st.playerHP <= s.initialCreatureHP
    && PotionCount(ev) + (if st.potionAvailable then 1 else 0) == (if s.potionAvailable then 1 else 0)
    && (ev == [] ==> next == 1 && st.playerHP == s.initialCreatureHP && st.monsterHP == s.initialMonsterHP)
    && (ev != [] ==>
          ev[|ev| - 1].round == next - 1
          && ev[|ev| - 1].creatureHP == Max(st.playerHP, 0)
          && (ev[|ev| - 1].monsterHP == 0 <==> st.monsterHP <= 0)
          && (st.monsterHP <= 0 ==> st.monsterHP == 0))
  }

  predicate Trace(v: Variant, s: Setup, st: Fight, next: int) {
    Recorded(v, s, st.events) && Linked(s, st, next)
  }

  lemma TraceInitial(v: Variant, s: Setup)
    ensures Trace(v, s, InitialFight(s), 1)
  {
  }

  // ---------------------------------------------------------------- one round keeps it

  lemma HitStep(v: Variant, s: Setup, st: Fight, round: int, h: Roll)
    requires 1 <= round <= MaxRounds && Continues(st, round) && Trace(v, s, st, round)
    ensures var a := Strike(s, st, round, h);
            |a.events| == |st.events| + 1 && a.events == st.events + [a.events[|st.events|]]
            && Good(v, s, a.events, |st.events|)
  {
    var ev := st.events;
    if ev != [] {
      assert Good(v, s, ev, |ev| - 1);
    }
  }

  lemma AllyStep(v: Variant, s: Setup, st: Fight, round: int, h: Roll)
    requires SetupOk(s) && 1 <= round <= MaxRounds && Continues(st, round) && Trace(v, s, st, round)
    requires Strike(s, st, round, h).monsterHP > 0 && s.coopStrike != 0
    ensures var a := Strike(s, st, round, h);
            var b := Ally(s, a, round);
            b.events == a.events + [b.events[|a.events|]] && Good(v, s, b.events, |a.events|)
  {
  }

  lemma CounterStep(v: Variant, s: Setup, st: Fight, round: int, h: Roll, c: Roll)
    requires SetupOk(s) && 1 <= round <= MaxRounds && Continues(st, round) && Trace(v, s, st, round)
    requires Strike(s, st, round, h).monsterHP > 0
    requires Ally(s, Strike(s, st, round, h), round).monsterHP > 0
    ensures var a := Strike(s, st, round, h);
            var b := Ally(s, a, round);
            var c1 := MonsterCounter(v, s, b, round, c, a.monsterHP);
            c1.events == b.events + [c1.events[|b.events|]] && Good(v, s, c1.events, |b.events|)
  {
  }

  lemma PotionStep(v: Variant, s: Setup, st: Fight, round: int, h: Roll, c: Roll)
    requires SetupOk(s) && 1 <= round <= MaxRounds && Continues(st, round) && Trace(v, s, st, round)
    requires Strike(s, st, round, h).monsterHP > 0
    requires Ally(s, Strike(s, st, round, h), round).monsterHP > 0
    requires PotionFires(s, MonsterCounter(v, s, Ally(s, Strike(s, st, round, h), round), round, c, Strike(s, st, round, h).monsterHP))
    ensures var a := Strike(s, st, round, h);
            var b := Ally(s, a, round);
            var c1 := MonsterCounter(v, s, b, round, c, a.monsterHP);
            var d := DrinkPotion(v, s, c1, round, a.monsterHP);
            d.events == c1.events + [d.events[|c1.events|]] && Good(v, s, d.events, |c1.events|)
  {
  }

  lemma StepRecorded(v: Variant, s: Setup, st: Fight, round: int, h: Roll, c: Roll)
    requires SetupOk(s) && 1 <= round <= MaxRounds && Continues(st, round) && Trace(v, s, st, round)
    ensures Recorded(v, s, PlayRound(v, s, st, round, h, c).events)
  {
    var a := Strike(s, st, round, h);
    HitStep(v, s, st, round, h);
    RecordedAppend(v, s, st.events, a.events[|st.events|]);
    if a.monsterHP <= 0 {
      return;
    }
    var b := Ally(s, a, round);
    if s.coopStrike != 0 {
      AllyStep(v, s, st, round, h);
      RecordedAppend(v, s, a.events, b.events[|a.events|]);
    }
    if b.monsterHP <= 0 {
      return;
    }
    var c1 := MonsterCounter(v, s, b, round, c, a.monsterHP);
    CounterStep(v, s, st, round, h, c);
    RecordedAppend(v, s, b.events, c1.events[|b.events|]);
    if PotionFires(s, c1) {
      var d := DrinkPotion(v, s, c1, round, a.monsterHP);
      PotionStep(v, s, st, round, h, c);
      RecordedAppend(v, s, c1.events, d.events[|c1.events|]);
    }
  }

  lemma LinkedHitKnockout(v: Variant, s: Setup, st: Fight, round: int, h: Roll, c: Roll)
    requires 1 <= round <= MaxRounds && Continues(st, round) && Linked(s, st, round)
    requires Strike(s, st, round, h).monsterHP <= 0
    ensures Linked(s, PlayRound(v, s, st, round, h, c), round + 1)
  {
    var a := Strike(s, st, round, h);
    PotionCountAppend(st.events, a.events[|st.events|]);
  }

  lemma LinkedAllyKnockout(v: Variant, s: Setup, st: Fight, round: int, h: Roll, c: Roll)
    requires 1 <= round <= MaxRounds && Continues(st, round) && Linked(s, st, round)
    requires Strike(s, st, round, h).monsterHP > 0 && Ally(s, Strike(s, st, round, h), round).monsterHP <= 0
    ensures Linked(s, PlayRound(v, s, st, round, h, c), round + 1)
  {
    var a := Strike(s, st, round, h);
    var b := Ally(s, a, round);
    PotionCountAppend(st.events, a.events[|st.events|]);
    PotionCountAppend(a.events, b.events[|a.events|]);
  }

  /** The state after the counter, before the potion check, against the record. */
  lemma LinkedCountered(v: Variant, s: Setup, st: Fight, round: int, h: Roll, c: Roll)
    requires 1 <= round <= MaxRounds && Continues(st, round) && Linked(s, st, round)
    requires Strike(s, st, round, h).monsterHP > 0 && Ally(s, Strike(s, st, round, h), round).monsterHP > 0
    ensures var a := Strike(s, st, round, h);
            var c1 := MonsterCounter(v, s, Ally(s, a, round), round, c, a.monsterHP);
            Linked(s, c1, round + 1) && c1.monsterHP > 0
  {
    var a := Strike(s, st, round, h);
    var b := Ally(s, a, round);
    var c1 := MonsterCounter(v, s, b, round, c, a.monsterHP);
    PotionCountAppend(st.events, a.events[|st.events|]);
    if s.coopStrike != 0 && a.monsterHP > 0 {
      PotionCountAppend(a.events, b.events[|a.events|]);
    }
    PotionCountAppend(b.events, c1.events[|b.events|]);
  }

  lemma LinkedPotion(v: Variant, s: Setup, st: Fight, round: int, afterHit: int)
    requires SetupOk(s) && 1 <= round <= MaxRounds && Linked(s, st, round + 1) && st.monsterHP > 0 && afterHit > 0
    requires PotionFires(s, st)
    ensures Linked(s, DrinkPotion(v, s, st, round, afterHit), round + 1)
  {
    var d := DrinkPotion(v, s, st, round, afterHit);
    PotionCountAppend(st.events, d.events[|st.events|]);
  }

  lemma LinkedCounter(v: Variant, s: Setup, st: Fight, round: int, h: Roll, c: Roll)
    requires SetupOk(s) && 1 <= round <= MaxRounds && Continues(st, round) && Linked(s, st, round)
    requires Strike(s, st, round, h).monsterHP > 0 && Ally(s, Strike(s, st, round, h), round).monsterHP > 0
    ensures Linked(s, PlayRound(v, s, st, round, h, c), round + 1)
  {
    var a := Strike(s, st, round, h);
    var c1 := MonsterCounter(v, s, Ally(s, a, round), round, c, a.monsterHP);
    LinkedCountered(v, s, st, round, h, c);
    if PotionFires(s, c1) {
      LinkedPotion(v, s, c1, round, a.monsterHP);
    }
  }

  lemma StepLinked(v: Variant, s: Setup, st: Fight, round: int, h: Roll, c: Roll)
    requires SetupOk(s) && 1 <= round <= MaxRounds && Continues(st, round) && Linked(s, st, round)
    ensures Linked(s, PlayRound(v, s, st, round, h, c), round + 1)
  {
    var a := Strike(s, st, round, h);
    if a.monsterHP <= 0 {
      LinkedHitKnockout(v, s, st, round, h, c);
    } else if Ally(s, a, round).monsterHP <= 0 {
      LinkedAllyKnockout(v, s, st, round, h, c);
    } else {
      LinkedCounter(v, s, st, round, h, c);
    }
  }

  lemma StepTrace(v: Variant, s: Setup, st: Fight, round: int, h: Roll, c: Roll)
    requires SetupOk(s) && 1 <= round <= MaxRounds && Continues(st, round) && Trace(v, s, st, round)
    ensures Trace(v, s, PlayRound(v, s, st, round, h, c), round + 1)
  {
    StepRecorded(v, s, st, round, h, c);
    StepLinked(v, s, st, round, h, c);
  }

  /** The round at which the loop condition first fails. */
  function StopRound(v: Variant, s: Setup, rolls: seq<Roll>, round: int, st: Fight): (r: int)
    requires 1 <= round <= MaxRounds + 1 && |rolls| >= RollsNeeded
    ensures round <= r <= MaxRounds + 1
    decreases MaxRounds + 1 - round
  {
    if Continues(st, round) then
      StopRound(v, s, rolls, round + 1, PlayRound(v, s, st, round, rolls[2 * round - 2], rolls[2 * round - 1]))
    else
      round
  }

  /** The invariant holds when the loop stops, and it stops only after round 6 or once an HP
      counter is down. */
  lemma {:induction false} RunRoundsTrace(v: Variant, s: Setup, rolls: seq<Roll>, round: int, st: Fight)
    requires SetupOk(s) && 1 <= round <= MaxRounds + 1 && |rolls| >= RollsNeeded && Trace(v, s, st, round)
    ensures Trace(v, s, RunRounds(v, s, rolls, round, st), StopRound(v, s, rolls, round, st))
    ensures !Continues(RunRounds(v, s, rolls, round, st), StopRound(v, s, rolls, round, st))
    decreases MaxRounds + 1 - round
  {
    if Continues(st, round) {
      StepTrace(v, s, st, round, rolls[2 * round - 2], rolls[2 * round - 1]);
      RunRoundsTrace(v, s, rolls, round + 1, PlayRound(v, s, st, round, rolls[2 * round - 2], rolls[2 * round - 1]));
    }
  }

  /** The whole fight satisfies the invariant, and the loop stopped for one of its reasons. */
  lemma FightTrace(v: Variant, c: Creature, m: Monster, p: Prep, rolls: seq<Roll>)
    requires |rolls| >= RollsNeeded
    ensures var s := SetUp(v, c, m, p);
            var n := StopRound(v, s, rolls, 1, InitialFight(s));
            var f := FinalFight(v, c, m, p, rolls);
            Trace(v, s, f, n) && !Continues(f, n) && 1 <= n <= MaxRounds + 1
  {
    var s := SetUp(v, c, m, p);
    SetUpOk(v, c, m, p);
    TraceInitial(v, s);
    RunRoundsTrace(v, s, rolls, 1, InitialFight(s));
  }

  // ---------------------------------------------------------------- what a fight looks like

  /** The outcome of a fight with a creature, in terms of the final loop state. */
  lemma SimulateFight(v: Variant, c: Creature, m: Monster, p: Prep, rolls: seq<Roll>)
    requires |rolls| >= RollsNeeded
    ensures var o := Simulate(v, Some(c), m, p, rolls);
            var f := FinalFight(v, c, m, p, rolls);
            o.events == f.events && o.didWin == Won(f)
            && o.initialCreatureHP == SetUp(v, c, m, p).initialCreatureHP && o.initialMonsterHP == m.health
  {
  }

  /** Rounds never decrease along the whole event list, not only between neighbours. */
  lemma {:induction false} RoundsSorted(ev: seq<BattleEvent>, i: int, j: int)
    requires forall k :: 0 < k < |ev| ==> ev[k - 1].round <= ev[k].round
    requires 0 <= i <= j < |ev|
    ensures ev[i].round <= ev[j].round
    decreases j - i
  {
    if i < j {
      RoundsSorted(ev, i + 1, j);
      assert ev[i].round <= ev[i + 1].round;
    }
  }

  lemma RecordedBounded(v: Variant, s: Setup, ev: seq<BattleEvent>)
    requires Recorded(v, s, ev)
    ensures forall i :: 0 <= i < |ev| ==>
              1 <= ev[i].round <= MaxRounds && 0 <= ev[i].creatureHP <= s.initialCreatureHP && ev[i].monsterHP >= 0
    ensures forall i, j :: 0 <= i <= j < |ev| ==> ev[i].round <= ev[j].round
  {
    forall i | 0 <= i < |ev|
      ensures 1 <= ev[i].round <= MaxRounds && 0 <= ev[i].creatureHP <= s.initialCreatureHP && ev[i].monsterHP >= 0
    {
      assert Good(v, s, ev, i);
      assert EventOk(s, ev[i]);
    }
    assert forall k :: 0 < k < |ev| ==> ev[k - 1].round <= ev[k].round by {
      forall k | 0 < k < |ev| ensures ev[k - 1].round <= ev[k].round {
        assert Good(v, s, ev, k);
      }
    }
    forall i, j | 0 <= i <= j < |ev| ensures ev[i].round <= ev[j].round {
      RoundsSorted(ev, i, j);
    }
  }

  /** Every event has a round in 1..6 and HP fields that are never negative, the creature's
      never above its starting HP; rounds never decrease along the list. */
  lemma EventsBounded(v: Variant, c: Creature, m: Monster, p: Prep, rolls: seq<Roll>)
    requires |rolls| >= RollsNeeded
    ensures var o := Simulate(v, Some(c), m, p, rolls);
            (forall i :: 0 <= i < |o.events| ==>
               1 <= o.events[i].round <= MaxRounds
               && 0 <= o.events[i].creatureHP <= o.initialCreatureHP && o.events[i].monsterHP >= 0)
            && (forall i, j :: 0 <= i <= j < |o.events| ==> o.events[i].round <= o.events[j].round)
  {
    FightTrace(v, c, m, p, rolls);
    SimulateFight(v, c, m, p, rolls);
    RecordedBounded(v, SetUp(v, c, m, p), FinalFight(v, c, m, p, rolls).events);
  }

  // ---------------------------------------------------------------- damage and the spark charm

  lemma RecordedDamage(v: Variant, s: Setup, ev: seq<BattleEvent>)
    requires Recorded(v, s, ev)
    ensures forall i :: 0 <= i < |ev| && ev[i].kind.Hit? ==> ev[i].attacker == CreatureSide && ev[i].damage >= 8
    ensures forall i :: 0 <= i < |ev| && ev[i].kind.AllyStrike? ==>
              ev[i].attacker == CreatureSide && ev[i].damage == s.coopStrike && ev[i].damage >= 8
    ensures forall i :: 0 <= i < |ev| && ev[i].kind.Counter? ==>
              ev[i].attacker == MonsterSide && ev[i].damage >= 5
              && (!ev[i].kind.mitigated ==> ev[i].damage >= 6)
              && (ev[i].kind.mitigated <==> s.charmEquipped)
  {
    forall i | 0 <= i < |ev| ensures EventOk(s, ev[i]) {
      assert Good(v, s, ev, i);
    }
  }

  /** The creature's hit is at least 8 and the ally's strike is the co-op amount, at least 8.
      The monster's counter is at least 6 unless the spark charm softened it, and it is
      softened exactly when the charm is in the bag, bag items count, and the monster is a
      Lightning one; a softened counter is still at least 5. */
  lemma DamageFloors(v: Variant, c: Creature, m: Monster, p: Prep, rolls: seq<Roll>)
    requires |rolls| >= RollsNeeded
    ensures var ev := Simulate(v, Some(c), m, p, rolls).events;
            (forall i :: 0 <= i < |ev| && ev[i].kind.Hit? ==> ev[i].damage >= 8)
            && (forall i :: 0 <= i < |ev| && ev[i].kind.AllyStrike? ==> p.coop && ev[i].damage == CoopStrike(c, p) >= 8)
            && (forall i :: 0 <= i < |ev| && ev[i].kind.Counter? ==>
                  ev[i].attacker == MonsterSide && ev[i].damage >= 5
                  && (!ev[i].kind.mitigated ==> ev[i].damage >= 6)
                  && (ev[i].kind.mitigated <==>
                        v.bagItems && HasBagItem(c, "charm-spark") && m.element == Lightning))
  {
    FightTrace(v, c, m, p, rolls);
    SimulateFight(v, c, m, p, rolls);
    RecordedDamage(v, SetUp(v, c, m, p), FinalFight(v, c, m, p, rolls).events);
  }

  // ---------------------------------------------------------------- the potion

  lemma RecordedPotions(v: Variant, s: Setup, ev: seq<BattleEvent>)
    requires Recorded(v, s, ev)
    ensures forall i :: 0 <= i < |ev| && ev[i].kind.PotionHeal? ==>
              ev[i].kind.amount == s.healAmount && PotionJustified(s, ev, i) && ev[i].creatureHP <= s.initialCreatureHP
  {
    forall i | 0 <= i < |ev| && ev[i].kind.PotionHeal?
      ensures ev[i].kind.amount == s.healAmount && PotionJustified(s, ev, i) && ev[i].creatureHP <= s.initialCreatureHP
    {
      assert Good(v, s, ev, i);
    }
  }

  /** The potion is drunk at most once, and never when none was available. */
  lemma PotionOnce(v: Variant, c: Creature, m: Monster, p: Prep, rolls: seq<Roll>)
    requires |rolls| >= RollsNeeded
    ensures var ev := Simulate(v, Some(c), m, p, rolls).events;
            PotionCount(ev) <= 1 && (!p.potion && !BagPotion(v, c) ==> PotionCount(ev) == 0)
  {
    FightTrace(v, c, m, p, rolls);
    SimulateFight(v, c, m, p, rolls);
  }

  /** Every heal of a whole fight has the set-up's amount and is justified by the counter before it. */
  lemma FightPotions(v: Variant, c: Creature, m: Monster, p: Prep, rolls: seq<Roll>)
    requires |rolls| >= RollsNeeded
    ensures var s := SetUp(v, c, m, p);
            var ev := FinalFight(v, c, m, p, rolls).events;
            forall i :: 0 <= i < |ev| && ev[i].kind.PotionHeal? ==>
              ev[i].kind.amount == s.healAmount && PotionJustified(s, ev, i)
  {
    FightTrace(v, c, m, p, rolls);
    RecordedPotions(v, SetUp(v, c, m, p), FinalFight(v, c, m, p, rolls).events);
  }

  /** A potion heals by 35% of the starting HP when the small potion is in the bag and bag
      items count, else by 30%, rounded. */
  lemma PotionHealAmount(v: Variant, c: Creature, m: Monster, p: Prep, rolls: seq<Roll>)
    requires |rolls| >= RollsNeeded
    ensures var o := Simulate(v, Some(c), m, p, rolls);
            forall i :: 0 <= i < |o.events| && o.events[i].kind.PotionHeal? ==>
              o.events[i].kind.amount == Round(o.initialCreatureHP as real * (if BagPotion(v, c) then 0.35 else 0.3))
  {
    SimulateFight(v, c, m, p, rolls);
    FightPotions(v, c, m, p, rolls);
  }

  /** A potion is drunk only right after the counter of the same round, when that counter left
      the creature alive at no more than 40% of its starting HP; the creature's HP then rises
      by the heal, capped at the starting HP. */
  lemma PotionAfterCounter(v: Variant, c: Creature, m: Monster, p: Prep, rolls: seq<Roll>)
    requires |rolls| >= RollsNeeded
    ensures var o := Simulate(v, Some(c), m, p, rolls);
            var ev := o.events;
            var init := o.initialCreatureHP;
            forall i :: 0 <= i < |ev| && ev[i].kind.PotionHeal? ==>
              i >= 1 && ev[i - 1].kind.Counter? && ev[i - 1].round == ev[i].round
              && 0 < ev[i - 1].creatureHP && ev[i - 1].creatureHP as real <= init as real * PotionThreshold
              && ev[i].creatureHP == Min(ev[i - 1].creatureHP + ev[i].kind.amount, init)
  {
    var s := SetUp(v, c, m, p);
    var ev := FinalFight(v, c, m, p, rolls).events;
    SimulateFight(v, c, m, p, rolls);
    FightPotions(v, c, m, p, rolls);
    forall i | 0 <= i < |ev| && ev[i].kind.PotionHeal?
      ensures i >= 1 && ev[i - 1].kind.Counter? && ev[i - 1].round == ev[i].round
              && 0 < ev[i - 1].creatureHP && ev[i - 1].creatureHP as real <= s.initialCreatureHP as real * PotionThreshold
              && ev[i].creatureHP == Min(ev[i - 1].creatureHP + ev[i].kind.amount, s.initialCreatureHP)
    {
      assert PotionJustified(s, ev, i);
    }
  }

  // ---------------------------------------------------------------- how a fight ends

  lemma RecordedKnockout(v: Variant, s: Setup, ev: seq<BattleEvent>)
    requires Recorded(v, s, ev)
    ensures forall i :: 0 <= i < |ev| - 1 ==> Alive(ev[i])
    ensures forall i :: 0 <= i < |ev| && ev[i].monsterHP == 0 ==>
              i == |ev| - 1 && (ev[i].kind.Hit? || ev[i].kind.AllyStrike?)
  {
    forall i | 0 <= i < |ev| - 1 ensures Alive(ev[i]) {
      assert Good(v, s, ev, i + 1);
    }
    forall i | 0 <= i < |ev| ensures EventOk(s, ev[i]) {
      assert Good(v, s, ev, i);
    }
  }

  /** Only the last event can show either side down, and a monster knocked out is knocked out
      by the creature's hit or the ally's strike: no counter follows in that round. */
  lemma KnockoutEndsFight(v: Variant, c: Creature, m: Monster, p: Prep, rolls: seq<Roll>)
    requires |rolls| >= RollsNeeded
    ensures var ev := Simulate(v, Some(c), m, p, rolls).events;
            (forall i :: 0 <= i < |ev| - 1 ==> ev[i].creatureHP > 0 && ev[i].monsterHP > 0)
            && (forall i :: 0 <= i < |ev| && ev[i].monsterHP == 0 ==>
                  i == |ev| - 1 && ev[i].attacker == CreatureSide && (ev[i].kind.Hit? || ev[i].kind.AllyStrike?))
  {
    var s := SetUp(v, c, m, p);
    var ev := FinalFight(v, c, m, p, rolls).events;
    FightTrace(v, c, m, p, rolls);
    SimulateFight(v, c, m, p, rolls);
    RecordedKnockout(v, s, ev);
    RecordedDamage(v, s, ev);
  }

  /** The loop stops after round 6, or as soon as one side is down; a fight with no events is
      one where a side started with no HP. */
  lemma FightStops(v: Variant, c: Creature, m: Monster, p: Prep, rolls: seq<Roll>)
    requires |rolls| >= RollsNeeded
    ensures var o := Simulate(v, Some(c), m, p, rolls);
            var ev := o.events;
            (ev == [] ==> o.initialCreatureHP <= 0 || o.initialMonsterHP <= 0)
            && (ev != [] ==>
                  ev[|ev| - 1].round == MaxRounds || ev[|ev| - 1].creatureHP == 0 || ev[|ev| - 1].monsterHP == 0)
  {
    FightTrace(v, c, m, p, rolls);
    SimulateFight(v, c, m, p, rolls);
  }

  /** didWin holds exactly when the monster is down and the creature is not: the last event
      shows a knockout with the creature standing, or, with no events, the monster started
      with no HP and the creature with some. A fight still open after 6 rounds is a loss. */
  lemma WinRule(v: Variant, c: Creature, m: Monster, p: Prep, rolls: seq<Roll>)
    requires |rolls| >= RollsNeeded
    ensures var o := Simulate(v, Some(c), m, p, rolls);
            var ev := o.events;
            o.didWin <==>
              if ev == [] then o.initialMonsterHP <= 0 && o.initialCreatureHP > 0
              else ev[|ev| - 1].monsterHP == 0 && ev[|ev| - 1].creatureHP > 0
  {
    FightTrace(v, c, m, p, rolls);
    SimulateFight(v, c, m, p, rolls);
  }

  // ---------------------------------------------------------------- the monster HP a counter shows

  /** Each counter follows the round's hit, or its ally strike right after the hit. The
      canonical engine reports the monster's current HP; the legacy engine reports its HP
      after the hit, so an ally strike in that round is not reflected. */
  lemma CounterReportsMonsterHP(v: Variant, c: Creature, m: Monster, p: Prep, rolls: seq<Roll>)
    requires |rolls| >= RollsNeeded
    ensures var ev := Simulate(v, Some(c), m, p, rolls).events;
            forall i :: 0 <= i < |ev| && ev[i].kind.Counter? ==> CounterShows(v, ev, i)
  {
    var s := SetUp(v, c, m, p);
    var ev := FinalFight(v, c, m, p, rolls).events;
    FightTrace(v, c, m, p, rolls);
    SimulateFight(v, c, m, p, rolls);
    forall i | 0 <= i < |ev| && ev[i].kind.Counter? ensures CounterShows(v, ev, i) {
      assert Good(v, s, ev, i);
    }
  }

  // ---------------------------------------------------------------- set-up of the two copies

  /** The starting HPs: the creature's from stamina (plus 2 when fed, plus 1 for the bag snack),
      level and a base of 60; the monster's is its health. */
  lemma StartingHP(v: Variant, c: Creature, m: Monster, p: Prep, rolls: seq<Roll>)
    requires |rolls| >= RollsNeeded
    ensures var o := Simulate(v, Some(c), m, p, rolls);
            o.initialCreatureHP
              == (c.stats.sta + (if p.fed then 2 else 0) + (if v.bagItems && HasBagItem(c, "snack") then 1 else 0)) * 20
                 + c.level * 10 + 60
            && o.initialMonsterHP == m.health
  {
    SimulateFight(v, c, m, p, rolls);
  }

  /** The legacy copy ignores the bag: stamina bonus 2 when fed, defence bonus 5 with the charm
      prep, a potion only from the prep, a 30% heal and no spark-charm mitigation. */
  lemma LegacySetUp(c: Creature, m: Monster, p: Prep)
    ensures var s := SetUp(Legacy, c, m, p);
            s.initialCreatureHP == (c.stats.sta + (if p.fed then 2 else 0)) * 20 + c.level * 10 + 60
            && s.playerAttack == BaseAttack(c)
            && s.playerDefense == c.stats.sta as real * 0.7 + c.stats.intel as real * 0.3 + (if p.charm then 5.0 else 0.0)
            && !s.charmEquipped
            && s.potionAvailable == p.potion
            && s.healAmount == Round(s.initialCreatureHP as real * 0.3)
  {
  }

  /** Without co-op there is no ally strike, so the HP a counter or potion event shows is the
      same in both copies. */
  lemma PlayRoundCopiesAgree(s: Setup, st: Fight, round: int, h: Roll, c: Roll)
    requires s.coopStrike == 0
    ensures PlayRound(Canonical, s, st, round, h, c) == PlayRound(Legacy, s, st, round, h, c)
  {
    var a := Strike(s, st, round, h);
    assert Ally(s, a, round) == a;
  }

  lemma {:induction false} RunRoundsCopiesAgree(s: Setup, rolls: seq<Roll>, round: int, st: Fight)
    requires s.coopStrike == 0 && 1 <= round <= MaxRounds + 1 && |rolls| >= RollsNeeded
    ensures RunRounds(Canonical, s, rolls, round, st) == RunRounds(Legacy, s, rolls, round, st)
    decreases MaxRounds + 1 - round
  {
    if Continues(st, round) {
      var h, c := rolls[2 * round - 2], rolls[2 * round - 1];
      PlayRoundCopiesAgree(s, st, round, h, c);
      RunRoundsCopiesAgree(s, rolls, round + 1, PlayRound(Canonical, s, st, round, h, c));
    }
  }

  /** With no co-op ally and none of the three bag items, the canonical and the legacy engine
      fight exactly the same battle. */
  lemma CopiesAgree(c: Option<Creature>, m: Monster, p: Prep, rolls: seq<Roll>)
    requires |rolls| >= RollsNeeded && !p.coop
    requires c.Some? ==>
               !HasBagItem(c.value, "snack") && !HasBagItem(c.value, "charm-spark") && !HasBagItem(c.value, "potion-small")
    ensures Simulate(Canonical, c, m, p, rolls) == Simulate(Legacy, c, m, p, rolls)
  {
    if c.Some? {
      var s := SetUp(Canonical, c.value, m, p);
      assert s == SetUp(Legacy, c.value, m, p);
      RunRoundsCopiesAgree(s, rolls, 1, InitialFight(s));
    }
  }

  // ---------------------------------------------------------------- XP

  lemma XpExamples()
    ensures ComputeXpGain(100, DefaultPrep, true) == 100
    ensures ComputeXpGain(100, DefaultPrep, false) == 25
    ensures ComputeXpGain(100, DefaultPrep.(coop := true), true) == 115
  {
  }

  /** A win never pays less than a loss. */
  lemma WinPaysAtLeastLoss(monsterXp: int, p: Prep)
    requires monsterXp >= 0
    ensures ComputeXpGain(monsterXp, p, true) >= ComputeXpGain(monsterXp, p, false)
  {
    RoundMonotone(BaseXp(monsterXp, false) as real * XpMultiplier(p), BaseXp(monsterXp, true) as real * XpMultiplier(p));
  }
}
