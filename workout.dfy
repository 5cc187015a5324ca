/** The workout screen's logic (app/workout.tsx): the volume and XP preview of a workout, the
    level-up loop that spends XP, copying exercises from templates, the exercise and set
    editors, the "has logged sets" guard, and what saving a workout writes. */
module WorkoutLog {
  import opened Common
  import opened Models
  import opened Evolution
  import opened InitialData
  import opened CreatureStore

  // ---------------------------------------------------------------- String.prototype.trim

  /** The characters JavaScript's `trim` removes: white space and line terminators. */
  predicate IsJsWhitespace(c: char) {
    c == '\t' || c == '\n' || c == '\U{000B}' || c == '\U{000C}' || c == '\r' || c == ' '
    || c == '\U{00A0}' || c == '\U{1680}' || ('\U{2000}' <= c <= '\U{200A}')
    || c == '\U{2028}' || c == '\U{2029}' || c == '\U{202F}' || c == '\U{205F}'
    || c == '\U{3000}' || c == '\U{FEFF}'
  }

  function TrimStart(s: string): (r: string)
    ensures |r| <= |s| && r == s[|s| - |r|..]
    ensures r != [] ==> !IsJsWhitespace(r[0])
    ensures forall i :: 0 <= i < |s| - |r| ==> IsJsWhitespace(s[i])
  {
    if s != [] && IsJsWhitespace(s[0]) then TrimStart(s[1..]) else s
  }

  function TrimEnd(s: string): (r: string)
    ensures |r| <= |s| && r == s[..|r|]
    ensures r != [] ==> !IsJsWhitespace(r[|r| - 1])
    ensures forall i :: |r| <= i < |s| ==> IsJsWhitespace(s[i])
  {
    if s != [] && IsJsWhitespace(s[|s| - 1]) then TrimEnd(s[..|s| - 1]) else s
  }

  function Trim(s: string): string {
    TrimEnd(TrimStart(s))
  }

  /** A name trims to something exactly when it has a character that is not white space. */
  lemma TrimEmpty(s: string)
    ensures |Trim(s)| > 0 <==> exists i :: 0 <= i < |s| && !IsJsWhitespace(s[i])
  {
    var t := TrimStart(s);
    if |Trim(s)| > 0 {
      var k := |s| - |t|;
      assert s[k] == t[0];
    } else {
      // TrimEnd removed all of t, yet t cannot start with white space: t is empty
      assert |t| == 0;
    }
  }

  // ---------------------------------------------------------------- the "has logged sets" guard

  /** A set counts as logged when it has positive reps and a weight of at least 0. */
  predicate LoggedSet(s: WorkoutSet) {
    s.reps.Some? && s.reps.value > 0.0 && s.weight.Some? && s.weight.value >= 0.0
  }

  predicate LoggedExercise(e: Exercise) {
    |Trim(e.name)| > 0 && exists j :: 0 <= j < |e.sets| && LoggedSet(e.sets[j])
  }

  /** Some exercise has a name that is not blank and a logged set. */
  predicate HasLoggedSets(exercises: seq<Exercise>) {
    exists i :: 0 <= i < |exercises| && LoggedExercise(exercises[i])
  }

  // ---------------------------------------------------------------- workout metrics

  /** `(set.weight || 0) * (set.reps || 0)`: a missing value counts as 0. */
  function SetVolume(s: WorkoutSet): real {
    s.weight.GetOr(0.0) * s.reps.GetOr(0.0)
  }

  function SetsVolume(sets: seq<WorkoutSet>): real {
    if sets == [] then 0.0 else SetsVolume(sets[..|sets| - 1]) + SetVolume(sets[|sets| - 1])
  }

  /** The volume of a workout: weight times reps, summed over every set of every exercise. */
  function Volume(exercises: seq<Exercise>): real {
    if exercises == [] then 0.0
    else Volume(exercises[..|exercises| - 1]) + SetsVolume(exercises[|exercises| - 1].sets)
  }

  /** The number of sets across all exercises. */
  function SetCount(exercises: seq<Exercise>): (n: nat) {
    if exercises == [] then 0
    else SetCount(exercises[..|exercises| - 1]) + |exercises[|exercises| - 1].sets|
  }

  /** The XP a workout is worth: a fifteenth of its volume plus 4 per set, never below 20. */
  function XpPreview(totalVolume: real, totalSets: int): (xp: int)
    ensures xp >= 20
    ensures xp >= Round(totalVolume / 15.0) + totalSets * 4
  {
    Max(20, Round(totalVolume / 15.0) + totalSets * 4)
  }

  predicate NonNegativeSets(exercises: seq<Exercise>) {
    forall i, j :: 0 <= i < |exercises| && 0 <= j < |exercises[i].sets| ==>
      exercises[i].sets[j].weight.GetOr(0.0) >= 0.0 && exercises[i].sets[j].reps.GetOr(0.0) >= 0.0
  }

  /** With no negative weights or reps the volume is never negative. */
  lemma {:induction false} VolumeNonNegative(exercises: seq<Exercise>)
    requires NonNegativeSets(exercises)
    ensures Volume(exercises) >= 0.0
  {
    if exercises != [] {
      var n := |exercises| - 1;
      assert NonNegativeSets(exercises[..n]) by {
        forall i, j | 0 <= i < n && 0 <= j < |exercises[..n][i].sets|
          ensures exercises[..n][i].sets[j].weight.GetOr(0.0) >= 0.0 && exercises[..n][i].sets[j].reps.GetOr(0.0) >= 0.0
        {
          assert exercises[..n][i] == exercises[i];
        }
      }
      VolumeNonNegative(exercises[..n]);
      SetsVolumeNonNegative(exercises[n].sets);
    }
  }

  lemma {:induction false} SetsVolumeNonNegative(sets: seq<WorkoutSet>)
    requires forall j :: 0 <= j < |sets| ==> sets[j].weight.GetOr(0.0) >= 0.0 && sets[j].reps.GetOr(0.0) >= 0.0
    ensures SetsVolume(sets) >= 0.0
  {
    if sets != [] {
      var n := |sets| - 1;
      assert forall j :: 0 <= j < n ==> sets[..n][j] == sets[j];
      SetsVolumeNonNegative(sets[..n]);
      assert SetVolume(sets[n]) >= 0.0;
    }
  }

  /** calculateWorkoutMetrics: the nested loops that total volume and sets. */
  method CalculateWorkoutMetrics(w: Workout) returns (totalVolume: real, totalSets: int, xpPreview: int)
    ensures totalVolume == Volume(w.exercises)
    ensures totalSets == SetCount(w.exercises)
    ensures xpPreview == XpPreview(totalVolume, totalSets) && xpPreview >= 20
  {
    totalVolume, totalSets := 0.0, 0;
    var i := 0;
    while i < |w.exercises|
      invariant 0 <= i <= |w.exercises|
      invariant totalVolume == Volume(w.exercises[..i])
      invariant totalSets == SetCount(w.exercises[..i])
    {
      var sets := w.exercises[i].sets;
      var j := 0;
      while j < |sets|
        invariant 0 <= j <= |sets|
        invariant totalVolume == Volume(w.exercises[..i]) + SetsVolume(sets[..j])
        invariant totalSets == SetCount(w.exercises[..i]) + j
      {
        assert sets[..j + 1][..j] == sets[..j];
        totalVolume := totalVolume + sets[j].weight.GetOr(0.0) * sets[j].reps.GetOr(0.0);
        totalSets := totalSets + 1;
        j := j + 1;
      }
      assert sets[..j] == sets;
      assert w.exercises[..i + 1][..i] == w.exercises[..i];
      i := i + 1;
    }
    assert w.exercises[..i] == w.exercises;
    xpPreview := Max(20, Round(totalVolume / 15.0) + totalSets * 4);
  }

  // ---------------------------------------------------------------- the level-up loop

  /** The numbers the level-up loop updates. */
  datatype Progress = Progress(xp: int, xpToNext: int, level: int, stats: Stats)

  /** One pass of the loop: spend a level's worth of XP, gain a level and a point in every
      stat, and raise the next threshold by 15%. */
  function LevelUp(p: Progress): (r: Progress)
    requires p.xpToNext > 0
    ensures r.xpToNext >= p.xpToNext > 0
    ensures r.level == p.level + 1 && r.xp == p.xp - p.xpToNext
    ensures forall k :: StatValue(r.stats, k) == StatValue(p.stats, k) + 1
  {
    Progress(p.xp - p.xpToNext, Round(p.xpToNext as real * 1.15), p.level + 1, AddToAll(p.stats, 1))
  }

  /** Level up while the XP reaches the threshold. */
  function Settle(p: Progress): Progress
    requires p.xpToNext > 0
    decreases p.xp
  {
    if p.xp >= p.xpToNext then Settle(LevelUp(p)) else p
  }

  /** The loop ends below the threshold, which never shrinks; every level gained adds one to
      every stat, and reaching the threshold gains at least one level. */
  lemma {:induction false} SettleFacts(p: Progress)
    requires p.xpToNext > 0
    ensures var r := Settle(p);
            r.xp < r.xpToNext && r.xpToNext >= p.xpToNext && r.level >= p.level
            && r.stats == AddToAll(p.stats, r.level - p.level)
            && (p.xp >= p.xpToNext <==> r.level > p.level)
            && (p.xp >= 0 ==> r.xp >= 0)
    decreases p.xp
  {
    if p.xp >= p.xpToNext {
      var q := LevelUp(p);
      SettleFacts(q);
      var r := Settle(q);
      assert r.stats == AddToAll(AddToAll(p.stats, 1), r.level - q.level);
    }
  }

  /** applyXpGain as a value: the settled creature, then the evolution check. */
  function GainXp(c: Creature, gain: int): Creature
    requires c.xpToNext > 0
  {
    var p := Settle(Progress(c.xp + gain, c.xpToNext, c.level, c.stats));
    CheckEvolution(c.(level := p.level, xp := p.xp, xpToNext := p.xpToNext, stats := p.stats))
  }

  /** applyXpGain: the while loop over xp, xpToNext, level and stats, then checkEvolution. */
  method ApplyXpGain(c: Creature, gain: int) returns (r: Creature)
    requires c.xpToNext > 0
    ensures r == GainXp(c, gain)
  {
    var xp := c.xp + gain;
    var xpToNext := c.xpToNext;
    var level := c.level;
    var stats := c.stats;
    while xp >= xpToNext
      invariant xpToNext > 0
      invariant Settle(Progress(xp, xpToNext, level, stats)) == Settle(Progress(c.xp + gain, c.xpToNext, c.level, c.stats))
      decreases xp
    {
      xp := xp - xpToNext;
      level := level + 1;
      xpToNext := Round(xpToNext as real * 1.15);
      stats := Stats(stats.str + 1, stats.agi + 1, stats.sta + 1, stats.intel + 1);
    }
    r := CheckEvolution(c.(level := level, xp := xp, xpToNext := xpToNext, stats := stats));
  }

  /** After a gain the creature sits below its threshold, which is still positive; level and
      threshold never drop; each stat rises by the levels gained, plus 5 on evolving; the
      evolution happens at most once; and nothing else about the creature changes. */
  lemma GainXpFacts(c: Creature, gain: int)
    requires c.xpToNext > 0
    ensures var r := GainXp(c, gain);
            r.xp < r.xpToNext && r.xpToNext >= c.xpToNext > 0 && r.level >= c.level
            && (c.xp + gain >= c.xpToNext <==> r.level > c.level)
            && r.bag == c.bag && r.imageUrl == c.imageUrl
            && r.evolutionStage >= c.evolutionStage
            && (c.evolutionStage != 1 ==> r.evolutionStage == c.evolutionStage && r.name == c.name)
            && forall k :: StatValue(r.stats, k)
                           == StatValue(c.stats, k) + (r.level - c.level) + (if r.evolutionStage != c.evolutionStage then 5 else 0)
  {
    SettleFacts(Progress(c.xp + gain, c.xpToNext, c.level, c.stats));
  }

  /** A creature fresh from the level-up loop is already normal: storing it and normalising
      it back gives it unchanged. */
  lemma GainXpIsNormal(c: Creature, gain: int)
    requires c.xpToNext > 0
    ensures Normalize(Some(Stored(GainXp(c, gain)))) == GainXp(c, gain)
  {
    GainXpFacts(c, gain);
    NormalizeStored(GainXp(c, gain));
  }

  // ---------------------------------------------------------------- fractional thresholds

  /** The loop's two counters on JavaScript numbers, which may be fractional. */
  datatype RealProgress = RealProgress(xp: real, xpToNext: real)

  /** One pass of the level-up loop on fractional counters: the threshold is spent and the
      next one is `Math.round(xpToNext * 1.15)`. */
  function RealLevelUp(p: RealProgress): (r: RealProgress)
    ensures r.xp == p.xp - p.xpToNext
    ensures p.xpToNext >= 1.0 ==> r.xpToNext >= 1.0
    ensures 0.0 <= p.xpToNext <= 0.4 ==> r.xpToNext == 0.0
  {
    RealProgress(p.xp - p.xpToNext, Round(p.xpToNext * 1.15) as real)
  }

  /** The stored-xpToNext rule of normalizeCreature as written: any positive number is kept,
      anything else becomes 100. */
  function KeptXpToNext(stored: real): (r: real)
    ensures r > 0.0
    ensures r == stored <==> stored > 0.0
  {
    if stored > 0.0 then stored else 100.0
  }

  /** As written, a stored threshold in (0, 0.4] is kept, and once xp covers it a single pass
      leaves a threshold of 0. From there the guard `xp >= xpToNext` holds and a pass changes
      nothing, so the loop never ends: with a stored 0.4 and a gain of 20, the counters go to
      19.6 and 0 and stay there. */
  lemma FractionalThresholdHangs()
    ensures KeptXpToNext(0.4) == 0.4
    ensures RealLevelUp(RealProgress(20.0, 0.4)) == RealProgress(19.6, 0.0)
    ensures forall t :: 0.0 < t <= 0.4 ==> KeptXpToNext(t) == t
    ensures forall p: RealProgress :: p.xpToNext == 0.0 && p.xp >= 0.0 ==>
              p.xp >= p.xpToNext && RealLevelUp(p) == p
  {
  }

  /** The stored-xpToNext rule as evidently intended: a threshold below 1, like one of 0 or
      below, is replaced by the default 100. */
  function SafeXpToNext(stored: real): (r: real)
    ensures r >= 1.0
    ensures r == stored <==> stored >= 1.0
  {
    if stored >= 1.0 then stored else 100.0
  }

  /** The level-up loop on fractional counters from a threshold of at least 1: each pass spends
      at least one XP and keeps the threshold at least 1, so the loop ends, below its threshold. */
  function RealSettle(p: RealProgress): (r: RealProgress)
    requires p.xpToNext >= 1.0
    ensures r.xp < r.xpToNext && r.xpToNext >= 1.0
    ensures r.xp <= p.xp
    decreases p.xp.Floor
  {
    if p.xp >= p.xpToNext then RealSettle(RealLevelUp(p)) else p
  }

  // ---------------------------------------------------------------- templates

  /** deepCopyExercises: name and sets copied, `cardio` dropped. */
  function DeepCopyExercises(exercises: seq<Exercise>): (r: seq<Exercise>)
    ensures |r| == |exercises|
    ensures forall i :: 0 <= i < |r| ==>
              r[i].name == exercises[i].name && r[i].sets == exercises[i].sets && r[i].cardio.None?
  {
    seq(|exercises|, i requires 0 <= i < |exercises| => Exercise(exercises[i].name, exercises[i].sets, None))
  }

  lemma {:induction false} CopyKeepsVolume(exercises: seq<Exercise>)
    ensures Volume(DeepCopyExercises(exercises)) == Volume(exercises)
    ensures SetCount(DeepCopyExercises(exercises)) == SetCount(exercises)
  {
    if exercises != [] {
      var n := |exercises| - 1;
      assert DeepCopyExercises(exercises)[..n] == DeepCopyExercises(exercises[..n]);
      CopyKeepsVolume(exercises[..n]);
    }
  }

  lemma CopyKeepsGuard(exercises: seq<Exercise>)
    ensures HasLoggedSets(DeepCopyExercises(exercises)) <==> HasLoggedSets(exercises)
  {
    var d := DeepCopyExercises(exercises);
    if HasLoggedSets(exercises) {
      var i :| 0 <= i < |exercises| && LoggedExercise(exercises[i]);
      assert d[i].sets == exercises[i].sets;
    }
    if HasLoggedSets(d) {
      var i :| 0 <= i < |d| && LoggedExercise(d[i]);
      assert d[i].sets == exercises[i].sets;
    }
  }

  lemma CopyIdempotent(exercises: seq<Exercise>)
    ensures DeepCopyExercises(DeepCopyExercises(exercises)) == DeepCopyExercises(exercises)
  {
    var d := DeepCopyExercises(exercises);
    assert forall i :: 0 <= i < |d| ==> DeepCopyExercises(d)[i] == d[i];
  }

  /** A copy is worth the same XP, passes the same guard, and copying again changes nothing. */
  lemma DeepCopyFacts(exercises: seq<Exercise>)
    ensures Volume(DeepCopyExercises(exercises)) == Volume(exercises)
    ensures SetCount(DeepCopyExercises(exercises)) == SetCount(exercises)
    ensures HasLoggedSets(DeepCopyExercises(exercises)) <==> HasLoggedSets(exercises)
    ensures DeepCopyExercises(DeepCopyExercises(exercises)) == DeepCopyExercises(exercises)
  {
    CopyKeepsVolume(exercises);
    CopyKeepsGuard(exercises);
    CopyIdempotent(exercises);
  }

  /** A workout started from a template: a fresh id and date, exercises deep-copied. */
  function CreateWorkoutFromTemplate(w: Workout, id: string, date: string): (r: Workout)
    ensures r.id == id && r.date == date
    ensures r.title == w.title && r.notes == w.notes && r.totalVolume == w.totalVolume && r.xpEarned == w.xpEarned
    ensures r.exercises == DeepCopyExercises(w.exercises)
  {
    w.(id := id, date := date, exercises := DeepCopyExercises(w.exercises))
  }

  // ---------------------------------------------------------------- the exercise and set editors

  const NewExerciseName: string := "New Exercise"
  const EmptySet: WorkoutSet := WorkoutSet(Some(0.0), Some(0.0))

  /** `filter((_, index) => index !== k)`: drop the element at k; any other k drops nothing. */
  function RemoveAt<T>(s: seq<T>, k: int): (r: seq<T>)
    ensures 0 <= k < |s| ==> |r| == |s| - 1
                             && (forall j :: 0 <= j < k ==> r[j] == s[j])
                             && (forall j :: k <= j < |r| ==> r[j] == s[j + 1])
    ensures !(0 <= k < |s|) ==> r == s
  {
    if 0 <= k < |s| then s[..k] + s[k + 1..] else s
  }

  /** `map((e, index) => index === k ? f(e) : e)`. */
  function UpdateAt(exercises: seq<Exercise>, k: int, f: Exercise -> Exercise): (r: seq<Exercise>)
    ensures |r| == |exercises|
    ensures forall j :: 0 <= j < |r| ==> r[j] == if j == k then f(exercises[j]) else exercises[j]
  {
    seq(|exercises|, j requires 0 <= j < |exercises| => if j == k then f(exercises[j]) else exercises[j])
  }

  function AddExercise(exercises: seq<Exercise>): (r: seq<Exercise>)
    ensures |r| == |exercises| + 1 && r[..|exercises|] == exercises
    ensures r[|exercises|] == Exercise(NewExerciseName, [], None)
  {
    exercises + [Exercise(NewExerciseName, [], None)]
  }

  function RemoveExercise(exercises: seq<Exercise>, k: int): seq<Exercise> {
    RemoveAt(exercises, k)
  }

  function AddSet(exercises: seq<Exercise>, k: int): seq<Exercise> {
    UpdateAt(exercises, k, (e: Exercise) => e.(sets := e.sets + [EmptySet]))
  }

  function RemoveSet(exercises: seq<Exercise>, k: int, setIndex: int): seq<Exercise> {
    UpdateAt(exercises, k, (e: Exercise) => e.(sets := RemoveAt(e.sets, setIndex)))
  }

  function RenameExercise(exercises: seq<Exercise>, k: int, text: string): seq<Exercise> {
    UpdateAt(exercises, k, (e: Exercise) => e.(name := text))
  }

  datatype SetField = Reps | Weight

  /** handleSetChange with the already-parsed number (`Number(value) || 0`). */
  function ChangeSet(exercises: seq<Exercise>, k: int, setIndex: int, field: SetField, value: real): seq<Exercise> {
    UpdateAt(exercises, k, (e: Exercise) => e.(sets := seq(|e.sets|, j requires 0 <= j < |e.sets| =>
      if j != setIndex then e.sets[j]
      else if field == Reps then e.sets[j].(reps := Some(value))
      else e.sets[j].(weight := Some(value)))))
  }

  /** Each editor touches only the indexed exercise (or, for a set editor, only the indexed
      set of it) and leaves every other one as it was. */
  lemma EditorsAreLocal(exercises: seq<Exercise>, k: int, setIndex: int, text: string, field: SetField, value: real)
    ensures forall j :: 0 <= j < |exercises| && j != k ==>
              AddSet(exercises, k)[j] == exercises[j] && RemoveSet(exercises, k, setIndex)[j] == exercises[j]
              && RenameExercise(exercises, k, text)[j] == exercises[j]
              && ChangeSet(exercises, k, setIndex, field, value)[j] == exercises[j]
    ensures 0 <= k < |exercises| ==>
              var e := exercises[k];
              AddSet(exercises, k)[k] == e.(sets := e.sets + [EmptySet])
              && RenameExercise(exercises, k, text)[k] == e.(name := text)
              && RemoveSet(exercises, k, setIndex)[k].name == e.name
              && |ChangeSet(exercises, k, setIndex, field, value)[k].sets| == |e.sets|
              && (forall j :: 0 <= j < |e.sets| && j != setIndex ==>
                    ChangeSet(exercises, k, setIndex, field, value)[k].sets[j] == e.sets[j])
              && (0 <= setIndex < |e.sets| ==>
                    var s := ChangeSet(exercises, k, setIndex, field, value)[k].sets[setIndex];
                    if field == Reps then s == e.sets[setIndex].(reps := Some(value))
                    else s == e.sets[setIndex].(weight := Some(value)))
    ensures |RemoveExercise(exercises, k)| == if 0 <= k < |exercises| then |exercises| - 1 else |exercises|
  {
  }

  /** Adding a set and removing that last set again restores the workout, and likewise for an
      exercise. */
  lemma AddRemoveRoundTrip(exercises: seq<Exercise>, k: int)
    requires 0 <= k < |exercises|
    ensures RemoveSet(AddSet(exercises, k), k, |exercises[k].sets|) == exercises
    ensures RemoveExercise(AddExercise(exercises), |exercises|) == exercises
  {
    var added := AddSet(exercises, k);
    var back := RemoveSet(added, k, |exercises[k].sets|);
    assert added[k].sets == exercises[k].sets + [EmptySet];
    assert back[k].sets == RemoveAt(added[k].sets, |exercises[k].sets|);
    assert back[k].sets == exercises[k].sets;
    assert forall j :: 0 <= j < |exercises| ==> back[j] == exercises[j];
  }

  // ---------------------------------------------------------------- saving a workout

  datatype SaveResult =
    | NoLoggedSets
    | CreatureUnavailable
    | StatsUnavailable
    | Saved(log: seq<Workout>, saved: Workout, creature: Creature, stats: PlayerStats)

  /** saveWorkout: the three guards, then the saved workout at the head of the log, the XP
      applied to the cached creature (the updater's base) and added to the player's XP. The
      shown creature only gates the save. `storedLog` is the log read from storage, `id` and
      `date` the clock's values. Energy and the battle lock are not touched. */
  function SaveWorkout(w: Workout, shown: Option<Creature>, base: Creature, playerStats: Option<PlayerStats>,
                       statsLoading: bool, storedLog: Option<seq<Workout>>, id: string, date: string): (r: SaveResult)
    requires base.xpToNext > 0
    ensures !HasLoggedSets(w.exercises) <==> r.NoLoggedSets?
    ensures r.CreatureUnavailable? <==> HasLoggedSets(w.exercises) && shown.None?
    ensures r.StatsUnavailable? <==> HasLoggedSets(w.exercises) && shown.Some? && playerStats.None? && !statsLoading
    ensures r.Saved? ==>
              var xp := XpPreview(Volume(w.exercises), SetCount(w.exercises));
              r.log == [r.saved] + storedLog.GetOr([])
              && r.saved == w.(id := id, date := date, totalVolume := Some(Volume(w.exercises)),
                              xpEarned := Some(xp), exercises := DeepCopyExercises(w.exercises))
              && r.creature == Normalize(Some(Stored(GainXp(base, xp))))
              && r.stats.xp == (if playerStats.Some? then playerStats.value.xp else 0) + xp
              && r.stats.energy == playerStats.GetOr(InitialPlayerStats).energy
  {
    if !HasLoggedSets(w.exercises) then NoLoggedSets
    else if shown.None? then CreatureUnavailable
    else if playerStats.None? && !statsLoading then StatsUnavailable
    else
      var totalVolume := Volume(w.exercises);
      var xpEarned := XpPreview(totalVolume, SetCount(w.exercises));
      var saved := w.(id := id, date := date, totalVolume := Some(totalVolume), xpEarned := Some(xpEarned),
                      exercises := DeepCopyExercises(w.exercises));
      var statsBase := playerStats.GetOr(InitialPlayerStats);
      var priorXp := if playerStats.Some? then playerStats.value.xp else 0;
      Saved([saved] + storedLog.GetOr([]), saved, Normalize(Some(Stored(GainXp(base, xpEarned)))),
            statsBase.(xp := priorXp + xpEarned))
  }

  /** A save credits at least 20 XP to the player and to the creature, keeps the log's older
      entries after the new one, and the creature written is exactly the levelled one. */
  lemma SaveCredits(w: Workout, shown: Option<Creature>, base: Creature, playerStats: Option<PlayerStats>,
                    statsLoading: bool, storedLog: Option<seq<Workout>>, id: string, date: string)
    requires base.xpToNext > 0
    ensures var r := SaveWorkout(w, shown, base, playerStats, statsLoading, storedLog, id, date);
            r.Saved? ==>
              r.saved.xpEarned.Some? && r.saved.xpEarned.value >= 20
              && r.stats.xp >= (if playerStats.Some? then playerStats.value.xp else 0) + 20
              && r.log[1..] == storedLog.GetOr([])
              && r.creature == GainXp(base, r.saved.xpEarned.value)
              && r.creature.xp < r.creature.xpToNext
  {
    var r := SaveWorkout(w, shown, base, playerStats, statsLoading, storedLog, id, date);
    if r.Saved? {
      GainXpIsNormal(base, r.saved.xpEarned.value);
      GainXpFacts(base, r.saved.xpEarned.value);
    }
  }
}
