/** Runs of store operations: what holds of the state after any sequence of the
    user actions the store exposes (everything but loading a saved state). */
module StoreTrace {

  import opened Types
  import opened StoreOps
  import opened DayArchive

  /** One call of a store operation, with its argument. */
  datatype Action =
    | DoLogin
    | DoCompleteOnboarding(patch: ProfilePatch)
    | DoAddFood(food: FoodEntry)
    | DoAddExercise(exercise: ExerciseEntry)
    | DoSetSleep(sleep: Option<SleepEntry>)
    | DoAddChatMessage(msg: ChatMessage)
    | DoUpdateProfile(update: ProfilePatch)
    | DoSetEmotion(emotion: string)
    | DoResetDay(date: string)

  function Apply(s: AppState, a: Action): AppState
  {
    match a
    case DoLogin => Login(s)
    case DoCompleteOnboarding(p) => CompleteOnboarding(s, p)
    case DoAddFood(f) => AddFood(s, f)
    case DoAddExercise(e) => AddExercise(s, e)
    case DoSetSleep(e) => SetSleep(s, e)
    case DoAddChatMessage(m) => AddChatMessage(s, m)
    case DoUpdateProfile(p) => UpdateProfile(s, p)
    case DoSetEmotion(e) => SetEmotion(s, e)
    case DoResetDay(d) => ResetDay(s, d)
  }

  /** The state after the actions, first to last. */
  function Run(s: AppState, actions: seq<Action>): AppState
    decreases |actions|
  {
    if |actions| == 0 then s else Run(Apply(s, actions[0]), actions[1..])
  }

  function CountResets(actions: seq<Action>): nat
  {
    if |actions| == 0 then 0
    else (if actions[0].DoResetDay? then 1 else 0) + CountResets(actions[1..])
  }

  /** `older` is what remains at the end of `h` once newer entries are put in front. */
  predicate EndsWith(h: seq<DailySummary>, older: seq<DailySummary>)
  {
    |older| <= |h| && h[|h| - |older|..] == older
  }

  /** Each single action keeps the archive as it was, except that the end-of-day
      step may put one new entry in front. */
  lemma ApplyKeepsArchive(s: AppState, a: Action)
    ensures EndsWith(Apply(s, a).history, s.history)
    ensures |Apply(s, a).history| <= |s.history| + 1
    ensures !a.DoResetDay? ==> Apply(s, a).history == s.history
    ensures Apply(s, a).daysActive == s.daysActive + (if a.DoResetDay? then 1 else 0)
  {
    var r := Apply(s, a);
    if a.DoResetDay? && HasData(s) {
      assert r.history[|r.history| - |s.history|..] == s.history;
    }
  }

  /** Over any run, archived days are never changed or dropped (the history only
      grows at the front, by at most one entry per end-of-day step), and the day
      counter advances by exactly the number of end-of-day steps. */
  lemma {:induction false} RunKeepsArchive(s: AppState, actions: seq<Action>)
    ensures EndsWith(Run(s, actions).history, s.history)
    ensures |Run(s, actions).history| <= |s.history| + CountResets(actions)
    ensures Run(s, actions).daysActive == s.daysActive + CountResets(actions)
    decreases |actions|
  {
    if |actions| > 0 {
      var t := Apply(s, actions[0]);
      ApplyKeepsArchive(s, actions[0]);
      RunKeepsArchive(t, actions[1..]);
      var h := Run(s, actions).history;
      assert h[|h| - |s.history|..] == t.history[|t.history| - |s.history|..];
    }
  }

  /** Without an end-of-day step the archive and the day counter stay as they were. */
  lemma {:induction false} RunWithoutResetKeepsArchive(s: AppState, actions: seq<Action>)
    requires CountResets(actions) == 0
    ensures Run(s, actions).history == s.history
    ensures Run(s, actions).daysActive == s.daysActive
    decreases |actions|
  {
    if |actions| > 0 {
      ApplyKeepsArchive(s, actions[0]);
      RunWithoutResetKeepsArchive(Apply(s, actions[0]), actions[1..]);
    }
  }

  /** Newest first: after two end-of-day steps that both archive, with any other
      actions in between, the later day is at index 0 and the earlier at index 1,
      in front of the history there was before. */
  lemma NewestFirst(s: AppState, date1: string, between: seq<Action>, date2: string)
    requires HasData(s)
    requires CountResets(between) == 0
    requires HasData(Run(ResetDay(s, date1), between))
    ensures var t := Run(ResetDay(s, date1), between);
            ResetDay(t, date2).history == [Summarize(t, date2), Summarize(s, date1)] + s.history
  {
    RunWithoutResetKeepsArchive(ResetDay(s, date1), between);
  }

  // ---------------------------------------------------------------------------
  // Logging during a day: any interleaving of `addFood` and `addExercise`
  // ---------------------------------------------------------------------------

  /** Every action is a meal or a workout being logged. */
  predicate OnlyLogging(actions: seq<Action>)
  {
    forall i :: 0 <= i < |actions| ==> actions[i].DoAddFood? || actions[i].DoAddExercise?
  }

  /** The meals of the run, in the order they were logged. */
  function FoodsOf(actions: seq<Action>): seq<FoodEntry>
    decreases |actions|
  {
    if |actions| == 0 then []
    else (if actions[0].DoAddFood? then [actions[0].food] else []) + FoodsOf(actions[1..])
  }

  /** The workouts of the run, in the order they were logged. */
  function ExercisesOf(actions: seq<Action>): seq<ExerciseEntry>
    decreases |actions|
  {
    if |actions| == 0 then []
    else (if actions[0].DoAddExercise? then [actions[0].exercise] else []) + ExercisesOf(actions[1..])
  }

  /** Appending one element and then a list is appending both at once. */
  lemma AppendOne<T>(x: seq<T>, e: T, y: seq<T>)
    ensures (x + [e]) + y == x + ([e] + y)
  {
  }

  /** One logging action appends its entry to its own log and changes nothing else. */
  lemma ApplyLogging(s: AppState, a: Action)
    requires a.DoAddFood? || a.DoAddExercise?
    ensures a.DoAddFood? ==> Apply(s, a) == s.(foodLog := s.foodLog + [a.food])
    ensures a.DoAddExercise? ==> Apply(s, a) == s.(exerciseLog := s.exerciseLog + [a.exercise])
  {
  }

  /** After any interleaving of `addFood` and `addExercise` calls, each log is the old
      log followed by its entries in call order, the two logs together grew by exactly
      the number of calls, and no other key changed. */
  lemma {:induction false} LoggingRun(s: AppState, actions: seq<Action>)
    requires OnlyLogging(actions)
    ensures Run(s, actions) == s.(foodLog := s.foodLog + FoodsOf(actions),
                                  exerciseLog := s.exerciseLog + ExercisesOf(actions))
    ensures |FoodsOf(actions)| + |ExercisesOf(actions)| == |actions|
    decreases |actions|
  {
    if |actions| == 0 {
      assert s.foodLog + [] == s.foodLog && s.exerciseLog + [] == s.exerciseLog;
    } else {
      var a, rest := actions[0], actions[1..];
      assert OnlyLogging(rest) by {
        forall i | 0 <= i < |rest| ensures rest[i].DoAddFood? || rest[i].DoAddExercise? {
          assert rest[i] == actions[i + 1];
        }
      }
      ApplyLogging(s, a);
      var foods, kinds := FoodsOf(rest), ExercisesOf(rest);
      if a.DoAddFood? {
        var t := s.(foodLog := s.foodLog + [a.food]);
        assert Run(s, actions) == Run(t, rest);
        LoggingRun(t, rest);
        assert FoodsOf(actions) == [a.food] + foods && ExercisesOf(actions) == kinds;
        var newFood := s.foodLog + FoodsOf(actions);
        AppendOne(s.foodLog, a.food, foods);
        assert t.(foodLog := newFood) == s.(foodLog := newFood);
      } else {
        var t := s.(exerciseLog := s.exerciseLog + [a.exercise]);
        assert Run(s, actions) == Run(t, rest);
        LoggingRun(t, rest);
        assert FoodsOf(actions) == foods && ExercisesOf(actions) == [a.exercise] + kinds;
        var newKinds := s.exerciseLog + ExercisesOf(actions);
        AppendOne(s.exerciseLog, a.exercise, kinds);
        assert t.(exerciseLog := newKinds) == s.(exerciseLog := newKinds);
      }
    }
  }

  /** At the end of a day in which meals and workouts were logged, the archived entry
      holds both logs, in call order and with their totals, in front of the old
      history; today's logs are empty again. */
  lemma LoggingThenReset(s: AppState, actions: seq<Action>, date: string)
    requires OnlyLogging(actions) && |actions| > 0
    ensures |ResetDay(Run(s, actions), date).history| == |s.history| + 1
    ensures var r := ResetDay(Run(s, actions), date);
            && r.history[0].foodLog == s.foodLog + FoodsOf(actions)
            && r.history[0].exerciseLog == s.exerciseLog + ExercisesOf(actions)
            && r.history[0].caloriesIn == SumCalories(s.foodLog) + SumCalories(FoodsOf(actions))
            && r.history[0].caloriesBurned == SumBurned(s.exerciseLog) + SumBurned(ExercisesOf(actions))
            && r.history[1..] == s.history
            && r.foodLog == [] && r.exerciseLog == []
  {
    LoggingRun(s, actions);
    SumCaloriesConcat(s.foodLog, FoodsOf(actions));
    SumBurnedConcat(s.exerciseLog, ExercisesOf(actions));
  }
}
