/** The state cell of the store (`HealthProvider` in store.tsx): one mutable field
    holding the whole AppState, replaced by every operation with the pure transform
    of its old value. Saving and loading go through the SavedState object; reading
    and writing browser storage and JSON text are not part of this model. */
module StoreProvider {

  import opened Types
  import StoreOps
  import DayArchive

  class HealthProvider {
    var state: AppState

    /** The provider starts from the default state. */
    constructor ()
      ensures state == StoreOps.DefaultState
    {
      state := StoreOps.DefaultState;
    }

    /** The mount-time load: merges what was saved over the current state. */
    method Load(saved: Option<StoreOps.SavedState>)
      modifies this
      ensures state == StoreOps.LoadMerge(old(state), saved)
    {
      state := StoreOps.LoadMerge(state, saved);
    }

    /** The object written on every change; loading it over the default state at the
        next start gives back exactly the current state. */
    method Save() returns (blob: StoreOps.SavedState)
      ensures StoreOps.LoadMerge(StoreOps.DefaultState, Some(blob)) == state
    {
      blob := StoreOps.Serialize(state);
      StoreOps.LoadSavedRoundTrip(StoreOps.DefaultState, state);
    }

    method Login()
      modifies this
      ensures state == StoreOps.Login(old(state))
    {
      state := StoreOps.Login(state);
    }

    method CompleteOnboarding(profileData: StoreOps.ProfilePatch)
      modifies this
      ensures state == StoreOps.CompleteOnboarding(old(state), profileData)
    {
      state := StoreOps.CompleteOnboarding(state, profileData);
    }

    method AddFood(food: FoodEntry)
      modifies this
      ensures state == StoreOps.AddFood(old(state), food)
    {
      state := StoreOps.AddFood(state, food);
    }

    method AddExercise(exercise: ExerciseEntry)
      modifies this
      ensures state == StoreOps.AddExercise(old(state), exercise)
    {
      state := StoreOps.AddExercise(state, exercise);
    }

    method SetSleep(sleep: Option<SleepEntry>)
      modifies this
      ensures state == StoreOps.SetSleep(old(state), sleep)
    {
      state := StoreOps.SetSleep(state, sleep);
    }

    method AddChatMessage(msg: ChatMessage)
      modifies this
      ensures state == StoreOps.AddChatMessage(old(state), msg)
    {
      state := StoreOps.AddChatMessage(state, msg);
    }

    method UpdateProfile(profileUpdate: StoreOps.ProfilePatch)
      modifies this
      ensures state == StoreOps.UpdateProfile(old(state), profileUpdate)
    {
      state := StoreOps.UpdateProfile(state, profileUpdate);
    }

    method SetEmotion(emotion: string)
      modifies this
      ensures state == StoreOps.SetEmotion(old(state), emotion)
    {
      state := StoreOps.SetEmotion(state, emotion);
    }

    /** The end-of-day step as the source writes it: copy the history, put the day's
        summary in front of the copy when the day has data, then swap in the whole
        new state in one assignment. */
    method ResetDay(date: string)
      modifies this
      ensures state == DayArchive.ResetDay(old(state), date)
      ensures state.daysActive == old(state.daysActive) + 1
      ensures DayArchive.HasData(old(state)) ==> state.history[0] == DayArchive.Summarize(old(state), date)
      ensures state.history[|state.history| - |old(state.history)|..] == old(state.history)
    {
      var prev := state;
      var newHistory := prev.history;
      if DayArchive.HasData(prev) {
        newHistory := [DayArchive.Summarize(prev, date)] + newHistory;
      }
      state := prev.(daysActive := prev.daysActive + 1, foodLog := [], exerciseLog := [],
                     sleepLog := None, chatHistory := [], currentEmotion := None,
                     dailyConsensus := None, history := newHistory, isSynthesizing := false);
      assert newHistory[|newHistory| - |prev.history|..] == prev.history;
    }
  }
}
