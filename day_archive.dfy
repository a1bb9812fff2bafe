/** The end-of-day step of the store (`resetDay` in store.tsx): decide whether the
    day has data, archive it as a DailySummary at the front of the history if so,
    advance the day counter and clear every per-day field. */
module DayArchive {

  import opened Types
  import opened Text
  import opened StoreOps

  /** The consensus used when no meeting minutes were synthesised for the day. */
  const NoMinutes := "No meeting minutes generated for this day."

  /** JavaScript truthiness of a `string | null`: present and not empty. */
  predicate Truthy(s: Option<string>)
  {
    s.Some? && s.value != ""
  }

  /** The day "has data": minutes were synthesised, or something was logged. */
  predicate HasData(s: AppState)
  {
    Truthy(s.dailyConsensus) || |s.foodLog| > 0 || |s.exerciseLog| > 0 || s.sleepLog.Some?
  }

  // ---------------------------------------------------------------------------
  // Calorie totals: `log.reduce((a, b) => a + b.calories, 0)`
  // ---------------------------------------------------------------------------

  /** Calories eaten over the log, added up from the first entry to the last. */
  function SumCalories(log: seq<FoodEntry>): int
  {
    if |log| == 0 then 0 else SumCalories(log[..|log| - 1]) + log[|log| - 1].calories
  }

  /** Calories burned over the log, added up from the first entry to the last. */
  function SumBurned(log: seq<ExerciseEntry>): int
  {
    if |log| == 0 then 0 else SumBurned(log[..|log| - 1]) + log[|log| - 1].caloriesBurned
  }

  /** The calorie total of two logs one after the other is the sum of their totals. */
  lemma {:induction false} SumCaloriesConcat(a: seq<FoodEntry>, b: seq<FoodEntry>)
    ensures SumCalories(a + b) == SumCalories(a) + SumCalories(b)
    decreases |b|
  {
    if |b| > 0 {
      SumCaloriesConcat(a, b[..|b| - 1]);
      assert (a + b)[..|a + b| - 1] == a + b[..|b| - 1];
    } else {
      assert a + b == a;
    }
  }

  /** The burned total of two logs one after the other is the sum of their totals. */
  lemma {:induction false} SumBurnedConcat(a: seq<ExerciseEntry>, b: seq<ExerciseEntry>)
    ensures SumBurned(a + b) == SumBurned(a) + SumBurned(b)
    decreases |b|
  {
    if |b| > 0 {
      SumBurnedConcat(a, b[..|b| - 1]);
      assert (a + b)[..|a + b| - 1] == a + b[..|b| - 1];
    } else {
      assert a + b == a;
    }
  }

  /** With no negative entries the total is at least every single entry, and never negative. */
  lemma {:induction false} SumCaloriesBounds(log: seq<FoodEntry>)
    requires forall i :: 0 <= i < |log| ==> log[i].calories >= 0
    ensures SumCalories(log) >= 0
    ensures forall i :: 0 <= i < |log| ==> log[i].calories <= SumCalories(log)
  {
    if |log| > 0 {
      var init := log[..|log| - 1];
      SumCaloriesBounds(init);
      assert forall i :: 0 <= i < |init| ==> init[i] == log[i];
    }
  }

  /** Adding a meal adds its calories to the day's total. */
  lemma AddFoodAddsCalories(s: AppState, food: FoodEntry)
    ensures SumCalories(AddFood(s, food).foodLog) == SumCalories(s.foodLog) + food.calories
  {
    SumCaloriesConcat(s.foodLog, [food]);
    assert [food][..0] == [];
  }

  /** Adding a workout adds its calories to the day's burned total. */
  lemma AddExerciseAddsBurned(s: AppState, exercise: ExerciseEntry)
    ensures SumBurned(AddExercise(s, exercise).exerciseLog) == SumBurned(s.exerciseLog) + exercise.caloriesBurned
  {
    SumBurnedConcat(s.exerciseLog, [exercise]);
    assert [exercise][..0] == [];
  }

  // ---------------------------------------------------------------------------
  // The details text
  // ---------------------------------------------------------------------------

  /** `foodLog.map(f => f.name)` */
  function FoodNames(log: seq<FoodEntry>): (names: seq<string>)
    ensures |names| == |log|
    ensures forall i :: 0 <= i < |log| ==> names[i] == log[i].name
  {
    seq(|log|, i requires 0 <= i < |log| => log[i].name)
  }

  /** `exerciseLog.map(e => e.type)` */
  function ExerciseTypes(log: seq<ExerciseEntry>): (kinds: seq<string>)
    ensures |kinds| == |log|
    ensures forall i :: 0 <= i < |log| ==> kinds[i] == log[i].exerciseType
  {
    seq(|log|, i requires 0 <= i < |log| => log[i].exerciseType)
  }

  function QualityName(q: SleepQuality): string
  {
    match q
    case Poor => "Poor"
    case Fair => "Fair"
    case Good => "Good"
    case Excellent => "Excellent"
  }

  /** "<duration>h (<quality>)" for a sleep entry, "None" without one. */
  function SleepInfo(sleep: Option<SleepEntry>): string
  {
    match sleep
    case None => "None"
    case Some(e) => RenderTenths(e.durationTenths) + "h (" + QualityName(e.quality) + ")"
  }

  /** The one-line description archived with a day. */
  function Details(foodLog: seq<FoodEntry>, exerciseLog: seq<ExerciseEntry>,
                   sleep: Option<SleepEntry>, medicalHistory: string): string
  {
    "[Diet: " + OrNone(Join(FoodNames(foodLog), ", "))
    + "] [Activity: " + OrNone(Join(ExerciseTypes(exerciseLog), ", "))
    + "] [Sleep: " + SleepInfo(sleep)
    + "] [Medical Context Len: " + NatToString(|medicalHistory|) + "]"
  }

  /** The diet part of the details reads "None" exactly when no food was logged, or
      when the only food logged has an empty name; otherwise it is the joined names. */
  lemma DietSectionNone(log: seq<FoodEntry>)
    ensures OrNone(Join(FoodNames(log), ", ")) == "None" <==>
              |log| == 0 || (|log| == 1 && log[0].name == "") || Join(FoodNames(log), ", ") == "None"
    ensures Join(FoodNames(log), ", ") != "" ==> OrNone(Join(FoodNames(log), ", ")) == Join(FoodNames(log), ", ")
  {
    JoinIsEmpty(FoodNames(log), ", ");
  }

  /** The activity part reads "None" exactly when no workout was logged, or when the
      only one logged has an empty type; otherwise it is the joined types. */
  lemma ActivitySectionNone(log: seq<ExerciseEntry>)
    ensures OrNone(Join(ExerciseTypes(log), ", ")) == "None" <==>
              |log| == 0 || (|log| == 1 && log[0].exerciseType == "") || Join(ExerciseTypes(log), ", ") == "None"
  {
    JoinIsEmpty(ExerciseTypes(log), ", ");
  }

  /** Oatmeal eaten, no workout, seven hours of good sleep and a four-character
      medical history give exactly the text
      "[Diet: Oatmeal] [Activity: None] [Sleep: 7h (Good)] [Medical Context Len: 4]"
      (written below as the concatenation of its pieces). */
  lemma DetailsExample(oatmeal: FoodEntry, night: SleepEntry)
    requires oatmeal.name == "Oatmeal"
    requires night.durationTenths == 70 && night.quality == Good
    ensures Details([oatmeal], [], Some(night), "Flu.")
            == "[Diet: " + "Oatmeal" + "] [Activity: " + "None" + "] [Sleep: " + "7h (Good)"
               + "] [Medical Context Len: " + "4" + "]"
  {
    assert FoodNames([oatmeal]) == ["Oatmeal"];
    assert Join(["Oatmeal"], ", ") == "Oatmeal";
    assert ExerciseTypes([]) == [];
    assert OrNone(Join([], ", ")) == "None";
    assert NatToString(7) == "7";
    assert RenderTenths(70) == "7";
    assert SleepInfo(Some(night)) == "7h (Good)";
    assert NatToString(|"Flu."|) == "4";
  }

  // ---------------------------------------------------------------------------
  // The archive entry and the reset
  // ---------------------------------------------------------------------------

  /** The entry archived for day `s`, labelled `date` (the source labels it with the
      locale's rendering of the current date). */
  function Summarize(s: AppState, date: string): (d: DailySummary)
    ensures d.date == date
    ensures Truthy(s.dailyConsensus) ==> d.consensus == s.dailyConsensus.value
    ensures !Truthy(s.dailyConsensus) ==> d.consensus == NoMinutes
    ensures d.caloriesIn == SumCalories(s.foodLog) && d.caloriesBurned == SumBurned(s.exerciseLog)
    ensures d.mood == s.currentEmotion
    ensures d.details == Details(s.foodLog, s.exerciseLog, s.sleepLog, s.profile.medicalHistory)
    ensures d.foodLog == s.foodLog && d.exerciseLog == s.exerciseLog && d.sleepLog == s.sleepLog
  {
    DailySummary(
      date,
      if Truthy(s.dailyConsensus) then s.dailyConsensus.value else NoMinutes,
      SumCalories(s.foodLog),
      SumBurned(s.exerciseLog),
      s.currentEmotion,
      Details(s.foodLog, s.exerciseLog, s.sleepLog, s.profile.medicalHistory),
      s.foodLog,
      s.exerciseLog,
      s.sleepLog)
  }

  /** The per-day fields are all empty. */
  predicate DayCleared(s: AppState)
  {
    && s.foodLog == [] && s.exerciseLog == [] && s.sleepLog == None && s.chatHistory == []
    && s.currentEmotion == None && s.dailyConsensus == None && !s.isSynthesizing
  }

  /** `resetDay`: archive the day if it has data (newest entry first), always count
      one more active day, clear the per-day fields; profile and flags stay. */
  function ResetDay(s: AppState, date: string): (r: AppState)
    ensures r.daysActive == s.daysActive + 1
    ensures DayCleared(r)
    ensures HasData(s) ==> r.history == [Summarize(s, date)] + s.history
    ensures !HasData(s) ==> r.history == s.history
    ensures OnlyChanged(s, r, {DaysActive, FoodLog, ExerciseLog, SleepLog, ChatHistory,
                               CurrentEmotion, DailyConsensus, History, Synthesizing})
  {
    var history := if HasData(s) then [Summarize(s, date)] + s.history else s.history;
    s.(daysActive := s.daysActive + 1, foodLog := [], exerciseLog := [], sleepLog := None,
       chatHistory := [], currentEmotion := None, dailyConsensus := None,
       history := history, isSynthesizing := false)
  }

  /** A day just reset has no data, so resetting it again archives nothing and only
      counts another day. */
  lemma ResetTwice(s: AppState, date1: string, date2: string)
    ensures !HasData(ResetDay(s, date1))
    ensures ResetDay(ResetDay(s, date1), date2)
            == ResetDay(s, date1).(daysActive := s.daysActive + 2)
  {
  }

  /** Every meal added during the day ends up, in order, in the archived entry, and
      today's food log is empty afterwards. */
  lemma AddFoodsThenReset(s: AppState, foods: seq<FoodEntry>, date: string)
    requires |s.foodLog + foods| > 0
    ensures |ResetDay(AddFoods(s, foods), date).history| == |s.history| + 1
    ensures var r := ResetDay(AddFoods(s, foods), date);
            && r.history[0].foodLog == s.foodLog + foods
            && r.history[0].caloriesIn == SumCalories(s.foodLog) + SumCalories(foods)
            && r.history[1..] == s.history
            && r.foodLog == []
  {
    AddFoodsAppends(s, foods);
    SumCaloriesConcat(s.foodLog, foods);
  }
}
