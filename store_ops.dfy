/** The update functions of the application store (store.tsx). Each one is a pure
    transform from the old state to the new one, as `setState(prev => ...)` is in
    the source; the HealthProvider class applies them to its state cell. */
module StoreOps {

  import opened Types

  // ---------------------------------------------------------------------------
  // Top-level keys of the state, and "nothing else changes"
  // ---------------------------------------------------------------------------

  /** The top-level keys of an AppState record. */
  datatype StateField =
    | Authenticated | Onboarded | DaysActive | ProfileField | FoodLog | ExerciseLog
    | SleepLog | ChatHistory | CurrentEmotion | DailyConsensus | History | Synthesizing

  /** `s` and `t` hold the same value under key `f`. */
  predicate Agree(s: AppState, t: AppState, f: StateField)
  {
    match f
    case Authenticated => s.isAuthenticated == t.isAuthenticated
    case Onboarded => s.onboardingComplete == t.onboardingComplete
    case DaysActive => s.daysActive == t.daysActive
    case ProfileField => s.profile == t.profile
    case FoodLog => s.foodLog == t.foodLog
    case ExerciseLog => s.exerciseLog == t.exerciseLog
    case SleepLog => s.sleepLog == t.sleepLog
    case ChatHistory => s.chatHistory == t.chatHistory
    case CurrentEmotion => s.currentEmotion == t.currentEmotion
    case DailyConsensus => s.dailyConsensus == t.dailyConsensus
    case History => s.history == t.history
    case Synthesizing => s.isSynthesizing == t.isSynthesizing
  }

  /** Going from `s` to `t` changed no key outside `changed`. */
  predicate OnlyChanged(s: AppState, t: AppState, changed: set<StateField>)
  {
    forall f :: f !in changed ==> Agree(s, t, f)
  }

  /** Two states that agree on every key are the same state. */
  lemma AgreeEverywhere(s: AppState, t: AppState)
    requires OnlyChanged(s, t, {})
    ensures s == t
  {
    assert Agree(s, t, Authenticated) && Agree(s, t, Onboarded) && Agree(s, t, DaysActive);
    assert Agree(s, t, ProfileField) && Agree(s, t, FoodLog) && Agree(s, t, ExerciseLog);
    assert Agree(s, t, SleepLog) && Agree(s, t, ChatHistory) && Agree(s, t, CurrentEmotion);
    assert Agree(s, t, DailyConsensus) && Agree(s, t, History) && Agree(s, t, Synthesizing);
  }

  // ---------------------------------------------------------------------------
  // Defaults
  // ---------------------------------------------------------------------------

  /** The profile before onboarding: age 25, medical history "None", no height or weight. */
  const DefaultProfile := UserProfile("", 25, Unset, None, None, [], "None", Some(""), Some([]))

  /** The state the store starts from before anything is loaded: logged out, day 1. */
  const DefaultState := AppState(false, false, 1, DefaultProfile, [], [], None, [], None, None, [], false)

  // ---------------------------------------------------------------------------
  // Partial<UserProfile> and the shallow merge `{ ...profile, ...partial }`
  // ---------------------------------------------------------------------------

  /** A `Partial<UserProfile>`: `None` is a key the object does not have. For the
      optional keys, `Some(None)` is a key present with the value `undefined`,
      which the spread copies over like any other value. */
  datatype ProfilePatch = ProfilePatch(
    name: Option<string>,
    age: Option<int>,
    gender: Option<Gender>,
    height: Option<Option<int>>,
    weight: Option<Option<int>>,
    goals: Option<seq<string>>,
    medicalHistory: Option<string>,
    geneticRisks: Option<Option<string>>,
    concerns: Option<Option<seq<string>>>)

  /** The object literal `{}`. */
  const EmptyPatch := ProfilePatch(None, None, None, None, None, None, None, None, None)

  datatype ProfileKey =
    | NameKey | AgeKey | GenderKey | HeightKey | WeightKey | GoalsKey
    | MedicalHistoryKey | GeneticRisksKey | ConcernsKey

  /** The partial has key `k`. */
  predicate HasKey(patch: ProfilePatch, k: ProfileKey)
  {
    match k
    case NameKey => patch.name.Some?
    case AgeKey => patch.age.Some?
    case GenderKey => patch.gender.Some?
    case HeightKey => patch.height.Some?
    case WeightKey => patch.weight.Some?
    case GoalsKey => patch.goals.Some?
    case MedicalHistoryKey => patch.medicalHistory.Some?
    case GeneticRisksKey => patch.geneticRisks.Some?
    case ConcernsKey => patch.concerns.Some?
  }

  /** Profile `p` holds, under key `k`, the value the partial gives for `k`. */
  predicate Carries(patch: ProfilePatch, p: UserProfile, k: ProfileKey)
  {
    match k
    case NameKey => patch.name == Some(p.name)
    case AgeKey => patch.age == Some(p.age)
    case GenderKey => patch.gender == Some(p.gender)
    case HeightKey => patch.height == Some(p.height)
    case WeightKey => patch.weight == Some(p.weight)
    case GoalsKey => patch.goals == Some(p.goals)
    case MedicalHistoryKey => patch.medicalHistory == Some(p.medicalHistory)
    case GeneticRisksKey => patch.geneticRisks == Some(p.geneticRisks)
    case ConcernsKey => patch.concerns == Some(p.concerns)
  }

  /** Profiles `p` and `q` hold the same value under key `k`. */
  predicate SameKey(p: UserProfile, q: UserProfile, k: ProfileKey)
  {
    match k
    case NameKey => p.name == q.name
    case AgeKey => p.age == q.age
    case GenderKey => p.gender == q.gender
    case HeightKey => p.height == q.height
    case WeightKey => p.weight == q.weight
    case GoalsKey => p.goals == q.goals
    case MedicalHistoryKey => p.medicalHistory == q.medicalHistory
    case GeneticRisksKey => p.geneticRisks == q.geneticRisks
    case ConcernsKey => p.concerns == q.concerns
  }

  /** `{ ...p, ...patch }`: every key of the partial overwrites, every other key keeps
      its old value. */
  function MergeProfile(p: UserProfile, patch: ProfilePatch): (r: UserProfile)
    ensures forall k :: HasKey(patch, k) ==> Carries(patch, r, k)
    ensures forall k :: !HasKey(patch, k) ==> SameKey(p, r, k)
  {
    UserProfile(
      patch.name.GetOr(p.name),
      patch.age.GetOr(p.age),
      patch.gender.GetOr(p.gender),
      patch.height.GetOr(p.height),
      patch.weight.GetOr(p.weight),
      patch.goals.GetOr(p.goals),
      patch.medicalHistory.GetOr(p.medicalHistory),
      patch.geneticRisks.GetOr(p.geneticRisks),
      patch.concerns.GetOr(p.concerns))
  }

  /** `{ ...a, ...b }` of two partials: b's keys win. */
  function Overlay(a: ProfilePatch, b: ProfilePatch): (r: ProfilePatch)
    ensures forall k :: HasKey(r, k) <==> HasKey(a, k) || HasKey(b, k)
  {
    ProfilePatch(
      if b.name.Some? then b.name else a.name,
      if b.age.Some? then b.age else a.age,
      if b.gender.Some? then b.gender else a.gender,
      if b.height.Some? then b.height else a.height,
      if b.weight.Some? then b.weight else a.weight,
      if b.goals.Some? then b.goals else a.goals,
      if b.medicalHistory.Some? then b.medicalHistory else a.medicalHistory,
      if b.geneticRisks.Some? then b.geneticRisks else a.geneticRisks,
      if b.concerns.Some? then b.concerns else a.concerns)
  }

  /** Merging the same partial twice is merging it once. */
  lemma MergeIdempotent(p: UserProfile, patch: ProfilePatch)
    ensures MergeProfile(MergeProfile(p, patch), patch) == MergeProfile(p, patch)
  {
  }

  /** Merging `{}` changes nothing. */
  lemma MergeEmpty(p: UserProfile)
    ensures MergeProfile(p, EmptyPatch) == p
  {
  }

  /** Two merges in a row are one merge of the overlaid partials. */
  lemma MergeTwice(p: UserProfile, a: ProfilePatch, b: ProfilePatch)
    ensures MergeProfile(MergeProfile(p, a), b) == MergeProfile(p, Overlay(a, b))
  {
  }

  // ---------------------------------------------------------------------------
  // The store's update functions
  // ---------------------------------------------------------------------------

  /** `login`: the user is authenticated, nothing else changes. */
  function Login(s: AppState): (r: AppState)
    ensures r.isAuthenticated
    ensures OnlyChanged(s, r, {Authenticated})
  {
    s.(isAuthenticated := true)
  }

  /** `completeOnboarding`: the form's fields are merged into the profile and
      onboarding is marked complete. */
  function CompleteOnboarding(s: AppState, patch: ProfilePatch): (r: AppState)
    ensures r.onboardingComplete
    ensures forall k :: HasKey(patch, k) ==> Carries(patch, r.profile, k)
    ensures forall k :: !HasKey(patch, k) ==> SameKey(s.profile, r.profile, k)
    ensures OnlyChanged(s, r, {ProfileField, Onboarded})
  {
    s.(profile := MergeProfile(s.profile, patch), onboardingComplete := true)
  }

  /** `addFood`: the entry goes at the end of today's food log. */
  function AddFood(s: AppState, food: FoodEntry): (r: AppState)
    ensures |r.foodLog| == |s.foodLog| + 1
    ensures r.foodLog[..|s.foodLog|] == s.foodLog && r.foodLog[|s.foodLog|] == food
    ensures OnlyChanged(s, r, {FoodLog})
  {
    s.(foodLog := s.foodLog + [food])
  }

  /** `addExercise`: the entry goes at the end of today's exercise log. */
  function AddExercise(s: AppState, exercise: ExerciseEntry): (r: AppState)
    ensures |r.exerciseLog| == |s.exerciseLog| + 1
    ensures r.exerciseLog[..|s.exerciseLog|] == s.exerciseLog && r.exerciseLog[|s.exerciseLog|] == exercise
    ensures OnlyChanged(s, r, {ExerciseLog})
  {
    s.(exerciseLog := s.exerciseLog + [exercise])
  }

  /** `setSleep`: the day's single sleep entry is replaced; the sleep view passes
      `null` to clear it before a new entry is made. */
  function SetSleep(s: AppState, sleep: Option<SleepEntry>): (r: AppState)
    ensures r.sleepLog == sleep
    ensures OnlyChanged(s, r, {SleepLog})
  {
    s.(sleepLog := sleep)
  }

  /** `addChatMessage`: the message goes at the end of the transcript. */
  function AddChatMessage(s: AppState, msg: ChatMessage): (r: AppState)
    ensures |r.chatHistory| == |s.chatHistory| + 1
    ensures r.chatHistory[..|s.chatHistory|] == s.chatHistory && r.chatHistory[|s.chatHistory|] == msg
    ensures OnlyChanged(s, r, {ChatHistory})
  {
    s.(chatHistory := s.chatHistory + [msg])
  }

  /** `updateProfile`: shallow merge into the profile; keys the partial lacks keep
      their values. */
  function UpdateProfile(s: AppState, patch: ProfilePatch): (r: AppState)
    ensures forall k :: HasKey(patch, k) ==> Carries(patch, r.profile, k)
    ensures forall k :: !HasKey(patch, k) ==> SameKey(s.profile, r.profile, k)
    ensures OnlyChanged(s, r, {ProfileField})
  {
    s.(profile := MergeProfile(s.profile, patch))
  }

  /** `setEmotion`: the current mood is overwritten. */
  function SetEmotion(s: AppState, emotion: string): (r: AppState)
    ensures r.currentEmotion == Some(emotion)
    ensures OnlyChanged(s, r, {CurrentEmotion})
  {
    s.(currentEmotion := Some(emotion))
  }

  /** Logging in twice is logging in once. */
  lemma LoginIdempotent(s: AppState)
    ensures Login(Login(s)) == Login(s)
  {
  }

  /** Retrying onboarding with the same form leaves the state as after the first try. */
  lemma CompleteOnboardingIdempotent(s: AppState, patch: ProfilePatch)
    ensures CompleteOnboarding(CompleteOnboarding(s, patch), patch) == CompleteOnboarding(s, patch)
  {
    MergeIdempotent(s.profile, patch);
  }

  /** Repeating a profile update with the same partial changes nothing more. */
  lemma UpdateProfileIdempotent(s: AppState, patch: ProfilePatch)
    ensures UpdateProfile(UpdateProfile(s, patch), patch) == UpdateProfile(s, patch)
  {
    MergeIdempotent(s.profile, patch);
  }

  /** The last mood set is the one that stays. */
  lemma SetEmotionLastWins(s: AppState, first: string, second: string)
    ensures SetEmotion(SetEmotion(s, first), second) == SetEmotion(s, second)
  {
  }

  /** The last sleep entry set is the one that stays (clearing included). */
  lemma SetSleepLastWins(s: AppState, first: Option<SleepEntry>, second: Option<SleepEntry>)
    ensures SetSleep(SetSleep(s, first), second) == SetSleep(s, second)
  {
  }

  /** A profile update that sets only the weight changes the weight and nothing else. */
  lemma UpdateWeightOnly(s: AppState, kg: int)
    ensures var r := UpdateProfile(s, EmptyPatch.(weight := Some(Some(kg))));
            r.profile == s.profile.(weight := Some(kg)) && r.(profile := s.profile) == s
  {
  }

  /** `addFood` applied once per entry, in order. */
  function AddFoods(s: AppState, foods: seq<FoodEntry>): AppState
    decreases |foods|
  {
    if |foods| == 0 then s else AddFoods(AddFood(s, foods[0]), foods[1..])
  }

  /** After any sequence of `addFood` calls the log is the old log followed by the
      entries in the order they were added, and nothing else has changed. */
  lemma {:induction false} AddFoodsAppends(s: AppState, foods: seq<FoodEntry>)
    ensures AddFoods(s, foods).foodLog == s.foodLog + foods
    ensures AddFoods(s, foods) == s.(foodLog := s.foodLog + foods)
    decreases |foods|
  {
    if |foods| > 0 {
      AddFoodsAppends(AddFood(s, foods[0]), foods[1..]);
      assert s.foodLog + [foods[0]] + foods[1..] == s.foodLog + foods;
    }
  }

  // ---------------------------------------------------------------------------
  // Loading a saved state: `{ ...prev, ...parsed, history: parsed.history || [] }`
  // ---------------------------------------------------------------------------

  /** The parsed saved object: `None` is a top-level key the saved JSON lacks. For
      `history`, `None` also stands for a saved `null`, which `|| []` treats alike. */
  datatype SavedState = SavedState(
    isAuthenticated: Option<bool>,
    onboardingComplete: Option<bool>,
    daysActive: Option<int>,
    profile: Option<UserProfile>,
    foodLog: Option<seq<FoodEntry>>,
    exerciseLog: Option<seq<ExerciseEntry>>,
    sleepLog: Option<Option<SleepEntry>>,
    chatHistory: Option<seq<ChatMessage>>,
    currentEmotion: Option<Option<string>>,
    dailyConsensus: Option<Option<string>>,
    history: Option<seq<DailySummary>>,
    isSynthesizing: Option<bool>)

  /** The saved object has key `f`. */
  predicate Stored(saved: SavedState, f: StateField)
  {
    match f
    case Authenticated => saved.isAuthenticated.Some?
    case Onboarded => saved.onboardingComplete.Some?
    case DaysActive => saved.daysActive.Some?
    case ProfileField => saved.profile.Some?
    case FoodLog => saved.foodLog.Some?
    case ExerciseLog => saved.exerciseLog.Some?
    case SleepLog => saved.sleepLog.Some?
    case ChatHistory => saved.chatHistory.Some?
    case CurrentEmotion => saved.currentEmotion.Some?
    case DailyConsensus => saved.dailyConsensus.Some?
    case History => saved.history.Some?
    case Synthesizing => saved.isSynthesizing.Some?
  }

  /** State `s` holds, under key `f`, the value saved under `f`. */
  predicate Restores(saved: SavedState, s: AppState, f: StateField)
  {
    match f
    case Authenticated => saved.isAuthenticated == Some(s.isAuthenticated)
    case Onboarded => saved.onboardingComplete == Some(s.onboardingComplete)
    case DaysActive => saved.daysActive == Some(s.daysActive)
    case ProfileField => saved.profile == Some(s.profile)
    case FoodLog => saved.foodLog == Some(s.foodLog)
    case ExerciseLog => saved.exerciseLog == Some(s.exerciseLog)
    case SleepLog => saved.sleepLog == Some(s.sleepLog)
    case ChatHistory => saved.chatHistory == Some(s.chatHistory)
    case CurrentEmotion => saved.currentEmotion == Some(s.currentEmotion)
    case DailyConsensus => saved.dailyConsensus == Some(s.dailyConsensus)
    case History => saved.history == Some(s.history)
    case Synthesizing => saved.isSynthesizing == Some(s.isSynthesizing)
  }

  /** `JSON.stringify(state)` as the object it writes: every key present. */
  function Serialize(s: AppState): (saved: SavedState)
    ensures forall f :: Stored(saved, f) && Restores(saved, s, f)
  {
    SavedState(Some(s.isAuthenticated), Some(s.onboardingComplete), Some(s.daysActive),
      Some(s.profile), Some(s.foodLog), Some(s.exerciseLog), Some(s.sleepLog),
      Some(s.chatHistory), Some(s.currentEmotion), Some(s.dailyConsensus),
      Some(s.history), Some(s.isSynthesizing))
  }

  /** The load step: nothing saved (or a blob that failed to parse) leaves the state
      as it was; otherwise every saved key overrides, every missing key keeps its
      value, except that a missing history becomes the empty list. */
  function LoadMerge(prev: AppState, saved: Option<SavedState>): (r: AppState)
    ensures saved.None? ==> r == prev
    ensures saved.Some? ==> forall f :: Stored(saved.value, f) ==> Restores(saved.value, r, f)
    ensures saved.Some? ==> forall f :: !Stored(saved.value, f) && f != History ==> Agree(prev, r, f)
    ensures saved.Some? && saved.value.history.None? ==> r.history == []
  {
    match saved
    case None => prev
    case Some(p) =>
      AppState(
        p.isAuthenticated.GetOr(prev.isAuthenticated),
        p.onboardingComplete.GetOr(prev.onboardingComplete),
        p.daysActive.GetOr(prev.daysActive),
        p.profile.GetOr(prev.profile),
        p.foodLog.GetOr(prev.foodLog),
        p.exerciseLog.GetOr(prev.exerciseLog),
        p.sleepLog.GetOr(prev.sleepLog),
        p.chatHistory.GetOr(prev.chatHistory),
        p.currentEmotion.GetOr(prev.currentEmotion),
        p.dailyConsensus.GetOr(prev.dailyConsensus),
        p.history.GetOr([]),
        p.isSynthesizing.GetOr(prev.isSynthesizing))
  }

  /** Saving a state and loading it back, over whatever state the store held,
      gives the saved state. */
  lemma LoadSavedRoundTrip(prev: AppState, s: AppState)
    ensures LoadMerge(prev, Some(Serialize(s))) == s
  {
    var r := LoadMerge(prev, Some(Serialize(s)));
    forall f ensures Agree(s, r, f) {
      assert Stored(Serialize(s), f) && Restores(Serialize(s), s, f);
    }
    AgreeEverywhere(s, r);
  }
}
