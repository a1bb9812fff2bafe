# Daily health tracker: verified model of the application store and onboarding form

This project models the two parts of the health-tracking web application that carry
state logic.

**The application store** (`store.tsx`) holds a single `AppState` record: the profile,
today's food, exercise and sleep logs, the chat transcript, the mood, the synthesised
daily "consensus", the archive of past days and a few flags. It changes only through
named update functions, each a pure transform from the old state to the new one.

- `Types` holds the records of `types.ts`.
- `StoreOps` holds the update functions, the shallow profile merge and the load-time
  merge of a saved state over the current one.
- `DayArchive` holds the end-of-day step `resetDay`. It decides whether the day has
  data. If it does, it builds a `DailySummary`: calorie totals, a fixed-format
  `details` line and copies of the logs. That summary goes at the front of the history.
  The step then counts one more active day and clears every per-day field.
- `Text` models the JavaScript string operations `details` is built from:
  `Array.prototype.join`, the `|| 'None'` fallback, and the decimal rendering of
  numbers in template literals.
- `StoreTrace` states what holds over any sequence of store operations.
- `StoreProvider` is the provider's state cell. It is a class with one `state` field,
  and each method replaces that field with the pure transform of its old value.

**The onboarding form** (`components/OnboardingView.tsx`) is a three-step wizard.
`Onboarding` models its goal toggle, its step counter and the gate on the first step,
and the object that `finish` hands to `completeOnboarding`.

Representation choices:
- Calories, macros, age, height and weight are integers.
- Timestamps are opaque integers.
- The archived day's date label is a parameter, because the source takes it from the
  clock and the locale.
- A sleep duration is kept in tenths of an hour. The sleep form rounds it to one
  decimal place, and `Text.RenderTenths` renders it the way JavaScript prints such a
  number ("7", "7.5").
- A `Partial<UserProfile>` is a `ProfilePatch`. Each required key is an `Option`
  (absent, or a value). Each optional key is an `Option<Option<…>>`, because a key that
  is present with the value `undefined` still overwrites under object spread.
- `setSleep` takes an `Option<SleepEntry>`. Its declared type forbids `null`, but the
  sleep view calls it with `null` to clear the entry (`components/SleepView.tsx:79`).
  The model follows that call.

On loading, saved keys override the current state one top-level key at a time. A saved `profile`
therefore replaces the whole profile: profile keys missing from an old blob are not
filled from the default profile. Only `history` falls back to a default (`[]`).

## Model

| member | source | states |
|---|---|---|
| `Text.JoinLength` | store.tsx:125-126 | a join is as long as its parts plus one separator between each pair of neighbours |
| `Text.JoinIsEmpty` | store.tsx:125-126 | with a non-empty separator, a join is empty iff the list is empty or its only element is "" |
| `Text.JoinExtends` | store.tsx:125-126 | joining one more element appends the separator and that element to the earlier join |
| `Text.Join` | store.tsx:125-126 | `Array.prototype.join`: the elements in order with the separator between neighbours (length, emptiness and the append step fixed by the three lemmas below) |
| `Text.OrNone` | store.tsx:125-127 | `\|\| 'None'` on a string: "" becomes "None", a non-empty string passes through unchanged, so the result is never "" |
| `Text.NatToString` | store.tsx:128-130 | a rendered length is a canonical decimal numeral: digits only, non-empty, no leading zero; one digit iff below ten |
| `Text.ParseNatToString` | store.tsx:128-130 | reading back a rendered number gives the number |
| `Text.NatToStringOfParse` | store.tsx:128-130 | every canonical numeral is the rendering of the number it denotes, so the rendering is a bijection onto canonical numerals |
| `Text.RenderTenths` | store.tsx:127 | how JavaScript prints a duration of k tenths of an hour: the whole part, then "." and the tenth digit only when it is not 0 (value fixed by `Text.ParseRenderTenths`) |
| `Text.ParseRenderTenths` | store.tsx:127 | the rendered sleep duration reads back as the same number of tenths of an hour |
| `StoreOps.DefaultProfile` | store.tsx:18-28 | the default profile: empty name, age 25, no gender, no height or weight, no goals, medical history "None", empty genetic risks, no concerns |
| `StoreOps.DefaultState` | store.tsx:30-43 | the default state: signed out, not onboarded, day 1, the default profile, every log and the history empty, no sleep, mood or consensus, not synthesising |
| `StoreOps.AgreeEverywhere` | types.ts:77-90 | two states that agree on every top-level key are equal |
| `StoreOps.MergeProfile` | store.tsx:101-103 | under `{...profile, ...partial}`, every key of the partial takes the partial's value and every other key keeps its old value |
| `StoreOps.Overlay` | store.tsx:101-103 | the spread of two partials has exactly the keys of either |
| `StoreOps.MergeIdempotent` | store.tsx:101-103 | merging the same partial twice is merging it once |
| `StoreOps.MergeEmpty` | store.tsx:101-103 | merging `{}` leaves the profile unchanged |
| `StoreOps.MergeTwice` | store.tsx:101-103 | two merges in a row equal one merge of the overlaid partials |
| `StoreOps.Login` | store.tsx:73-75 | `login` sets `isAuthenticated` and changes no other key |
| `StoreOps.CompleteOnboarding` | store.tsx:77-83 | the form's keys overwrite the profile, absent keys keep their values, onboarding is complete, and nothing else changes |
| `StoreOps.AddFood` | store.tsx:85-87 | the food log grows by one, the old log stays as its prefix, the new entry is last, and nothing else changes |
| `StoreOps.AddExercise` | store.tsx:89-91 | the exercise log grows by one, the old log stays as its prefix, the new entry is last, and nothing else changes |
| `StoreOps.SetSleep` | store.tsx:93-95 | the sleep entry is replaced, `null` included, and nothing else changes |
| `StoreOps.AddChatMessage` | store.tsx:97-99 | the transcript grows by one, the old transcript stays as its prefix, the message is last, and nothing else changes |
| `StoreOps.UpdateProfile` | store.tsx:101-103 | the partial's keys overwrite, the profile's other keys keep their values, and no other state key changes |
| `StoreOps.SetEmotion` | store.tsx:105-107 | the mood is overwritten with the label and nothing else changes |
| `StoreOps.LoginIdempotent` | store.tsx:73-75 | logging in twice equals logging in once |
| `StoreOps.CompleteOnboardingIdempotent` | store.tsx:77-83 | retrying onboarding with the same fields changes nothing more |
| `StoreOps.UpdateProfileIdempotent` | store.tsx:101-103 | repeating an update with the same partial changes nothing more |
| `StoreOps.SetEmotionLastWins` | store.tsx:105-107 | of two moods set in a row, the second one stays |
| `StoreOps.SetSleepLastWins` | store.tsx:93-95 | of two sleep entries set in a row, the second one stays |
| `StoreOps.UpdateWeightOnly` | store.tsx:101-103 | updating only the weight changes the weight and nothing else in the state |
| `StoreOps.AddFoodsAppends` | store.tsx:85-87 | after any sequence of `addFood` calls, the log is the old log followed by the entries in call order, and no other key changes |
| `StoreOps.Serialize` | store.tsx:68-71 | the written object carries every top-level key with the state's value |
| `StoreOps.LoadMerge` | store.tsx:50-66 | with nothing saved the state is kept; otherwise saved keys override, missing keys keep their values, and a missing history becomes `[]` |
| `StoreOps.LoadSavedRoundTrip` | store.tsx:56-61 | loading what was saved, over any current state, gives back the saved state |
| `DayArchive.HasData` | store.tsx:121 | the day has data iff the consensus is a non-empty string, either log is non-empty, or a sleep entry is set |
| `DayArchive.SumCalories` | store.tsx:135 | `reduce((a, b) => a + b.calories, 0)`: calories added up from the first entry to the last (properties in the two lemmas below and `DayArchive.AddFoodAddsCalories`) |
| `DayArchive.SumBurned` | store.tsx:136 | `reduce((a, b) => a + b.caloriesBurned, 0)`: calories burned added up from the first entry to the last |
| `DayArchive.SumCaloriesConcat` | store.tsx:135 | the calorie total of two logs in sequence is the sum of their totals |
| `DayArchive.SumBurnedConcat` | store.tsx:136 | the burned total of two logs in sequence is the sum of their totals |
| `DayArchive.SumCaloriesBounds` | store.tsx:135 | with no negative entries, the total is non-negative and at least every single entry |
| `DayArchive.AddFoodAddsCalories` | store.tsx:85-87 | adding a meal adds its calories to the day's total |
| `DayArchive.AddExerciseAddsBurned` | store.tsx:89-91 | adding a workout adds its calories to the day's burned total |
| `DayArchive.FoodNames` | store.tsx:125 | the mapped list has one name per entry, in log order |
| `DayArchive.ExerciseTypes` | store.tsx:126 | the mapped list has one type per entry, in log order |
| `DayArchive.SleepInfo` | store.tsx:127 | "<duration>h (<quality>)" for a sleep entry, "None" without one |
| `DayArchive.Details` | store.tsx:125-130 | the details line `[Diet: …] [Activity: …] [Sleep: …] [Medical Context Len: …]` built from the joined names and types, the sleep text and the length of the medical history (its sections characterised by the two lemmas below and `DayArchive.DetailsExample`) |
| `DayArchive.DietSectionNone` | store.tsx:125 | the diet part reads "None" iff no food was logged, the only food has an empty name, or the joined names are literally "None" |
| `DayArchive.ActivitySectionNone` | store.tsx:126 | the activity part reads "None" under the same three conditions for exercise types |
| `DayArchive.DetailsExample` | store.tsx:125-130 | oatmeal, no workout, 7h of good sleep and a 4-character medical history give exactly `[Diet: Oatmeal] [Activity: None] [Sleep: 7h (Good)] [Medical Context Len: 4]` |
| `DayArchive.Summarize` | store.tsx:132-142 | the summary has the given date label, the consensus or the fixed placeholder, both calorie totals, the mood snapshot, the details line, and copies of the three logs |
| `DayArchive.ResetDay` | store.tsx:115-160 | the day counter advances by exactly 1; the summary goes in front of the history iff the day has data; all per-day fields are cleared; profile and flags are untouched |
| `DayArchive.ResetTwice` | store.tsx:121-149 | a day just reset has no data, so a second reset archives nothing and only advances the counter again |
| `DayArchive.AddFoodsThenReset` | store.tsx:132-150 | meals added during a day end up, in order and with their calorie total, in the newest archive entry, and today's log is empty |
| `StoreTrace.ApplyKeepsArchive` | store.tsx:115-160 | one operation keeps the history as a suffix, adds at most one entry, only `resetDay` touches it, and only `resetDay` advances the counter (by 1) |
| `StoreTrace.RunKeepsArchive` | store.tsx:115-160 | over any run of operations, archived days are never changed or dropped, at most one entry per reset is added, and the counter advances by exactly the number of resets |
| `StoreTrace.RunWithoutResetKeepsArchive` | store.tsx:115-160 | a run without a reset keeps the history and the counter |
| `StoreTrace.NewestFirst` | store.tsx:118-132 | after two archiving resets with any other operations between them, the later day is at index 0 and the earlier day at index 1 |
| `StoreTrace.LoggingRun` | store.tsx:85-91 | after any interleaving of `addFood` and `addExercise` calls, each log is the old log followed by its entries in call order, the two logs together grew by exactly the number of calls, and no other key changed |
| `StoreTrace.LoggingThenReset` | store.tsx:132-150 | a `resetDay` after such calls archives both logs, in call order and with their calorie totals, as the newest entry in front of the old history, and empties today's logs |
| `StoreProvider.HealthProvider.constructor` | store.tsx:18-48 | the provider starts from the default state |
| `StoreProvider.HealthProvider.Load` | store.tsx:50-66 | the state becomes the load merge of the saved object over the old state |
| `StoreProvider.HealthProvider.Save` | store.tsx:68-71 | the written object, loaded over the default state at the next start, gives back the current state |
| `StoreProvider.HealthProvider.Login` | store.tsx:73-75 | the state cell becomes `login` applied to the old state |
| `StoreProvider.HealthProvider.CompleteOnboarding` | store.tsx:77-83 | the state cell becomes `completeOnboarding` applied to the old state |
| `StoreProvider.HealthProvider.AddFood` | store.tsx:85-87 | the state cell becomes `addFood` applied to the old state |
| `StoreProvider.HealthProvider.AddExercise` | store.tsx:89-91 | the state cell becomes `addExercise` applied to the old state |
| `StoreProvider.HealthProvider.SetSleep` | store.tsx:93-95 | the state cell becomes `setSleep` applied to the old state |
| `StoreProvider.HealthProvider.AddChatMessage` | store.tsx:97-99 | the state cell becomes `addChatMessage` applied to the old state |
| `StoreProvider.HealthProvider.UpdateProfile` | store.tsx:101-103 | the state cell becomes `updateProfile` applied to the old state |
| `StoreProvider.HealthProvider.SetEmotion` | store.tsx:105-107 | the state cell becomes `setEmotion` applied to the old state |
| `StoreProvider.HealthProvider.ResetDay` | store.tsx:115-160 | building the new history in a local copy gives the end-of-day state: the counter is one higher, the summary is at index 0 when the day had data, and the old history is kept as a suffix |
| `Onboarding.Without` | components/OnboardingView.tsx:25 | `filter(g => g !== goal)` over the goal list, kept in order (characterised by the three lemmas below) |
| `Onboarding.WithoutMembers` | components/OnboardingView.tsx:25 | the filter leaves no occurrence of the goal and keeps every occurrence of every other goal (as a multiset) |
| `Onboarding.WithoutConcat` | components/OnboardingView.tsx:25 | filtering distributes over concatenation, so the remaining goals keep their relative order |
| `Onboarding.WithoutAbsent` | components/OnboardingView.tsx:25 | filtering out a goal that is not there changes nothing |
| `Onboarding.ToggledGoals` | components/OnboardingView.tsx:24-26 | after a toggle the goal is present iff it was absent, other goals are unaffected, and an absent goal is appended at the end |
| `Onboarding.ToggleTwiceAbsent` | components/OnboardingView.tsx:24-26 | toggling an absent goal twice restores the original list |
| `Onboarding.ToggleTwicePresent` | components/OnboardingView.tsx:24-26 | toggling a picked goal off and on again moves it to the end |
| `Onboarding.ToggleOffAt` | components/OnboardingView.tsx:24-25 | in a list without repeats, toggling off the goal at position i removes exactly that position |
| `Onboarding.WithoutDistinct` | components/OnboardingView.tsx:25 | filtering a list without repeats leaves a list without repeats |
| `Onboarding.ToggleKeepsDistinct` | components/OnboardingView.tsx:24-26 | toggling keeps the goals free of repeats |
| `Onboarding.InitialForm` | components/OnboardingView.tsx:9-17 | the form opens with an empty name, age 30, no gender, no goals and empty texts |
| `Onboarding.StepOneComplete` | components/OnboardingView.tsx:83 | the first step's gate `!data.name \|\| !data.gender` is open iff the name is non-empty and a gender is chosen |
| `Onboarding.Wizard.ContinueEnabled` | components/OnboardingView.tsx:83-106 | Continue is on screen and enabled on step 1 iff the gate is open, and always on step 2 |
| `Onboarding.FormPatch` | components/OnboardingView.tsx:31 | the object handed to `completeOnboarding` has every form key and no height or weight |
| `Onboarding.FinishWritesProfile` | components/OnboardingView.tsx:31 | finishing writes the form into the profile, and height and weight keep their values |
| `Onboarding.Wizard.constructor` | components/OnboardingView.tsx:7-17 | the wizard opens on step 1 with the initial form, satisfying its invariant |
| `Onboarding.Wizard.NextStep` | components/OnboardingView.tsx:30 | `nextStep` raises the step by exactly 1 and leaves the form alone |
| `Onboarding.Wizard.PressContinue` | components/OnboardingView.tsx:83-106 | an enabled Continue advances one step and a disabled one does nothing; step 1 is left only with a name and a gender; the invariant is kept |
| `Onboarding.Wizard.SetName` | components/OnboardingView.tsx:55 | the name input changes only the name |
| `Onboarding.Wizard.SetAge` | components/OnboardingView.tsx:65 | the age input changes only the age |
| `Onboarding.Wizard.SetGender` | components/OnboardingView.tsx:73 | the gender select changes only the gender |
| `Onboarding.Wizard.ToggleGoal` | components/OnboardingView.tsx:21-28 | a goal button changes only the goals, which stay free of repeats |
| `Onboarding.Wizard.SetMedicalHistory` | components/OnboardingView.tsx:121 | the medical-conditions text changes only the medical history |
| `Onboarding.Wizard.SetGeneticRisks` | components/OnboardingView.tsx:133 | the family-history text changes only the genetic risks |
| `Onboarding.Wizard.Finish` | components/OnboardingView.tsx:137 | `finish` hands over the form with a non-empty name, a chosen gender and goals without repeats |

## Left out

- `triggerSynthesis` (store.tsx:109-113) is not modelled. It awaits the remote model and
  reads a stale copy of the state, so it can interleave with other updates. The
  consensus it stores is an input of the model instead: any `dailyConsensus` value may
  be present when `resetDay` runs.
- `geminiService.ts` is not part of this model. Every function in it is a network call
  with fallback strings.
- Browser storage and JSON text are not modelled: `localStorage.getItem`/`setItem`,
  `JSON.parse`/`stringify`, and the parse-error path, which only logs. A blob that is
  missing or does not parse is `None` in `LoadMerge`. JSON turns `Date` timestamps into
  strings on reload; timestamps are opaque here, so that change is not captured.
- A saved `null` is representable only under `sleepLog`, `currentEmotion` and
  `dailyConsensus`, whose types allow it, and under `history`, where `|| []` replaces
  it. A `null` under any other key is not representable.
- Archive entries written by older versions without `details` or log copies are not
  representable: those `DailySummary` keys are optional in the source and always
  present here.
- A required profile key set explicitly to `undefined` in a partial is not
  representable. Required keys are either absent or hold a value.
- The archived day's date label (`toLocaleDateString`, store.tsx:133) is a parameter.
  Message ids and timestamps built from the clock in the views are not modelled.
- Floating point is not modelled: calorie values are integers, and a sleep duration is
  a whole number of tenths of an hour. The date arithmetic that computes that duration
  (components/SleepView.tsx:17-25) is not modelled.
- `parseInt` on the age field can yield `NaN`; ages are integers here.
- `Text.NatToString` is applied to the length of the medical history as a sequence of
  Dafny characters. JavaScript's `length` counts UTF-16 code units, so the two differ
  for text outside the Basic Multilingual Plane.
- A saved profile that lacks a required key (`name`, `age`, `gender`, `goals` or
  `medicalHistory`) is not representable: a saved `profile` is a whole `UserProfile`.
  In the source such a profile replaces the default one on load, and the next
  `resetDay` on a day with data then throws at `prev.profile.medicalHistory.length`
  (store.tsx:128). That failure is not modelled.
- The console message in `resetDay` (store.tsx:145) is left out.
- Rendering, charts and navigation are left out: all JSX, `App.tsx` and the other
  views, plus the build configuration in `vite.config.ts`.
- The wizard's field setters require the step whose screen shows that input. A step
  above 3 cannot be reached through the buttons, so nothing renders for it.
