/** Data model of the health tracker: the records of types.ts as Dafny values.
    Numbers the application treats as JavaScript doubles are integers here;
    timestamps (JavaScript Date objects) are opaque integers. */
module Types {

  /** A JavaScript value that may be `null` or `undefined`. */
  datatype Option<+T> = None | Some(value: T) {
    /** The value, or `default` when there is none (JavaScript's `x ?? default`). */
    function GetOr(default: T): T {
      match this
      case Some(v) => v
      case None => default
    }
  }

  /** One logged meal (types.ts FoodEntry). */
  datatype FoodEntry = FoodEntry(
    id: string,
    name: string,
    calories: int,
    protein: int,
    carbs: int,
    fats: int,
    timestamp: int,
    imageUrl: Option<string>,
    notes: Option<string>)

  datatype Intensity = Low | Medium | High

  /** One logged workout (types.ts ExerciseEntry); `exerciseType` is the source's `type`. */
  datatype ExerciseEntry = ExerciseEntry(
    id: string,
    exerciseType: string,
    durationMinutes: int,
    intensity: Intensity,
    caloriesBurned: int,
    timestamp: int,
    notes: Option<string>)

  datatype SleepQuality = Poor | Fair | Good | Excellent

  /** The night's sleep (types.ts SleepEntry). The duration is kept in tenths of an
      hour: the sleep form rounds it to one decimal place before storing it. */
  datatype SleepEntry = SleepEntry(
    date: string,
    bedTime: string,
    wakeTime: string,
    durationTenths: nat,
    quality: SleepQuality,
    dreamDescription: Option<string>,
    dreamAnalysis: Option<string>)

  datatype Sender = User | Agent

  datatype ChatMessage = ChatMessage(id: string, sender: Sender, text: string, timestamp: int)

  /** `Unset` is the empty-string gender of a profile nobody has filled in yet. */
  datatype Gender = Unset | Male | Female | NonBinary | Other

  /** types.ts UserProfile; `height`, `weight`, `geneticRisks` and `concerns` are optional keys. */
  datatype UserProfile = UserProfile(
    name: string,
    age: int,
    gender: Gender,
    height: Option<int>,
    weight: Option<int>,
    goals: seq<string>,
    medicalHistory: string,
    geneticRisks: Option<string>,
    concerns: Option<seq<string>>)

  /** One archived day (types.ts DailySummary), newest first in the history. */
  datatype DailySummary = DailySummary(
    date: string,
    consensus: string,
    caloriesIn: int,
    caloriesBurned: int,
    mood: Option<string>,
    details: string,
    foodLog: seq<FoodEntry>,
    exerciseLog: seq<ExerciseEntry>,
    sleepLog: Option<SleepEntry>)

  /** The whole application state (types.ts AppState). */
  datatype AppState = AppState(
    isAuthenticated: bool,
    onboardingComplete: bool,
    daysActive: int,
    profile: UserProfile,
    foodLog: seq<FoodEntry>,
    exerciseLog: seq<ExerciseEntry>,
    sleepLog: Option<SleepEntry>,
    chatHistory: seq<ChatMessage>,
    currentEmotion: Option<string>,
    dailyConsensus: Option<string>,
    history: seq<DailySummary>,
    isSynthesizing: bool)
}
