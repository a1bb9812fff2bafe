/** The onboarding form (components/OnboardingView.tsx): a three-step wizard that
    collects the profile, with goals picked by toggling, and hands the collected
    fields to the store's `completeOnboarding`. */
module Onboarding {

  import opened Types
  import opened StoreOps

  // ---------------------------------------------------------------------------
  // Goals: `includes ? filter(g => g !== goal) : [...goals, goal]`
  // ---------------------------------------------------------------------------

  /** `goals.filter(g => g !== goal)`: every occurrence of `goal` removed. */
  function Without(goals: seq<string>, goal: string): seq<string>
    decreases |goals|
  {
    if |goals| == 0 then []
    else (if goals[0] == goal then [] else [goals[0]]) + Without(goals[1..], goal)
  }

  /** The filter drops `goal` and only `goal`: no occurrence of it is left, every
      other goal keeps each of its occurrences. */
  lemma {:induction false} WithoutMembers(goals: seq<string>, goal: string)
    ensures goal !in Without(goals, goal)
    ensures forall g :: g != goal ==> (g in Without(goals, goal) <==> g in goals)
    ensures multiset(Without(goals, goal)) == multiset(goals)[goal := 0]
    decreases |goals|
  {
    if |goals| > 0 {
      WithoutMembers(goals[1..], goal);
      assert goals == [goals[0]] + goals[1..];
    }
  }

  /** Removing from two lists one after the other is removing from each: the goals
      that remain keep their relative order. */
  lemma {:induction false} WithoutConcat(a: seq<string>, b: seq<string>, goal: string)
    ensures Without(a + b, goal) == Without(a, goal) + Without(b, goal)
    decreases |a|
  {
    if |a| == 0 {
      assert a + b == b;
    } else {
      var c := a + b;
      assert c[0] == a[0] && c[1..] == a[1..] + b;
      WithoutConcat(a[1..], b, goal);
      var head := if a[0] == goal then [] else [a[0]];
      assert Without(c, goal) == head + Without(a[1..] + b, goal);
      assert Without(a, goal) == head + Without(a[1..], goal);
      var wa, wb := Without(a[1..], goal), Without(b, goal);
      assert head + (wa + wb) == (head + wa) + wb;
    }
  }

  /** Removing a goal that is not there changes nothing. */
  lemma {:induction false} WithoutAbsent(goals: seq<string>, goal: string)
    requires goal !in goals
    ensures Without(goals, goal) == goals
    decreases |goals|
  {
    if |goals| > 0 {
      WithoutAbsent(goals[1..], goal);
    }
  }

  /** No goal appears twice. */
  predicate Distinct(goals: seq<string>)
  {
    forall i, j :: 0 <= i < j < |goals| ==> goals[i] != goals[j]
  }

  /** The goal list after one goal button is pressed. */
  function ToggledGoals(goals: seq<string>, goal: string): (r: seq<string>)
    ensures goal in r <==> goal !in goals
    ensures forall g :: g != goal ==> (g in r <==> g in goals)
    ensures goal !in goals ==> r == goals + [goal]
  {
    if goal in goals then
      WithoutMembers(goals, goal);
      Without(goals, goal)
    else
      goals + [goal]
  }

  /** Toggling a goal that was not picked, then toggling it again, restores the list. */
  lemma ToggleTwiceAbsent(goals: seq<string>, goal: string)
    requires goal !in goals
    ensures ToggledGoals(ToggledGoals(goals, goal), goal) == goals
  {
    WithoutConcat(goals, [goal], goal);
    WithoutAbsent(goals, goal);
    assert Without([goal], goal) == [];
  }

  /** Toggling a picked goal off and on again moves it to the end of the list. */
  lemma ToggleTwicePresent(goals: seq<string>, goal: string)
    requires goal in goals
    ensures ToggledGoals(ToggledGoals(goals, goal), goal) == Without(goals, goal) + [goal]
  {
  }

  /** In a list without repeats, the goal at position `i` occurs neither before nor after it. */
  lemma DistinctAt(goals: seq<string>, i: nat)
    requires Distinct(goals) && i < |goals|
    ensures goals[i] !in goals[..i] && goals[i] !in goals[i + 1..]
  {
    forall j | 0 <= j < i ensures goals[..i][j] != goals[i] {
      assert goals[j] != goals[i];
    }
    forall j | i + 1 <= j < |goals| ensures goals[j] != goals[i] {
      assert goals[i] != goals[j];
    }
  }

  /** In a list without repeats, toggling off the goal at position `i` takes out
      exactly that position and keeps the rest in order. */
  lemma ToggleOffAt(goals: seq<string>, goal: string, i: nat)
    requires Distinct(goals) && i < |goals| && goals[i] == goal
    ensures ToggledGoals(goals, goal) == goals[..i] + goals[i + 1..]
  {
    var before, after := goals[..i], goals[i + 1..];
    assert goals == (before + [goal]) + after;
    DistinctAt(goals, i);
    WithoutConcat(before + [goal], after, goal);
    WithoutConcat(before, [goal], goal);
    WithoutAbsent(before, goal);
    WithoutAbsent(after, goal);
    var dropped := Without([goal], goal);
    assert dropped == [];
    assert Without(before + [goal], goal) == before + dropped == before;
    assert Without(goals, goal) == before + after;
  }

  /** Removing a goal from a list without repeats leaves a list without repeats. */
  lemma {:induction false} WithoutDistinct(goals: seq<string>, goal: string)
    requires Distinct(goals)
    ensures Distinct(Without(goals, goal))
    decreases |goals|
  {
    if |goals| > 0 {
      var tail := goals[1..];
      WithoutDistinct(tail, goal);
      var rest := Without(tail, goal);
      WithoutMembers(tail, goal);
      assert goals[0] !in multiset(tail) by {
        forall j | 0 <= j < |tail| ensures tail[j] != goals[0] {
          assert goals[1 + j] != goals[0];
        }
      }
      assert goals[0] !in multiset(rest);
    }
  }

  /** Goals picked by toggling never repeat. */
  lemma ToggleKeepsDistinct(goals: seq<string>, goal: string)
    requires Distinct(goals)
    ensures Distinct(ToggledGoals(goals, goal))
  {
    if goal in goals {
      WithoutDistinct(goals, goal);
    }
  }

  // ---------------------------------------------------------------------------
  // The form and the wizard
  // ---------------------------------------------------------------------------

  /** The form's `data` record. */
  datatype FormData = FormData(
    name: string,
    age: int,
    gender: Gender,
    goals: seq<string>,
    medicalHistory: string,
    geneticRisks: string,
    concerns: seq<string>)

  /** The form as it opens: age 30, everything else empty. */
  const InitialForm := FormData("", 30, Unset, [], "", "", [])

  /** The first step's Continue button is enabled once a name and a gender are given. */
  predicate StepOneComplete(d: FormData)
  {
    d.name != "" && d.gender != Unset
  }

  /** The object `finish` passes to `completeOnboarding`: every key of the form, and
      no height or weight. */
  function FormPatch(d: FormData): (p: ProfilePatch)
    ensures forall k :: HasKey(p, k) <==> k != HeightKey && k != WeightKey
  {
    ProfilePatch(Some(d.name), Some(d.age), Some(d.gender), None, None, Some(d.goals),
      Some(d.medicalHistory), Some(Some(d.geneticRisks)), Some(Some(d.concerns)))
  }

  /** Finishing onboarding writes the form into the profile; height and weight,
      which the form does not ask for, keep their values. */
  lemma FinishWritesProfile(s: AppState, d: FormData)
    ensures CompleteOnboarding(s, FormPatch(d)).profile
            == UserProfile(d.name, d.age, d.gender, s.profile.height, s.profile.weight,
                           d.goals, d.medicalHistory, Some(d.geneticRisks), Some(d.concerns))
  {
  }

  /** The wizard's `step` and `data` cells. */
  class Wizard {
    var step: int
    var data: FormData

    /** Steps run from 1 to 3, the first step is left only once it is complete, and
        the picked goals never repeat. */
    ghost predicate Valid()
      reads this
    {
      && 1 <= step <= 3
      && (step > 1 ==> StepOneComplete(data))
      && Distinct(data.goals)
    }

    constructor ()
      ensures Valid()
      ensures step == 1 && data == InitialForm
    {
      step := 1;
      data := InitialForm;
    }

    /** Whether the Continue button is on screen and enabled: step 1 once complete,
        step 2 always; step 3 shows Get Started instead. */
    function ContinueEnabled(): bool
      reads this
    {
      (step == 1 && StepOneComplete(data)) || step == 2
    }

    /** `nextStep`: the step counter goes up by one. */
    method NextStep()
      modifies this
      ensures step == old(step) + 1 && data == old(data)
    {
      step := step + 1;
    }

    /** A press on Continue: a disabled button does nothing. */
    method PressContinue()
      requires Valid()
      modifies this
      ensures Valid() && data == old(data)
      ensures old(ContinueEnabled()) ==> step == old(step) + 1
      ensures !old(ContinueEnabled()) ==> step == old(step)
    {
      if ContinueEnabled() {
        NextStep();
      }
    }

    /** The name input of step 1. */
    method SetName(name: string)
      requires Valid() && step == 1
      modifies this
      ensures Valid() && step == old(step) && data == old(data).(name := name)
    {
      data := data.(name := name);
    }

    /** The age input of step 1. */
    method SetAge(age: int)
      requires Valid() && step == 1
      modifies this
      ensures Valid() && step == old(step) && data == old(data).(age := age)
    {
      data := data.(age := age);
    }

    /** The gender select of step 1. */
    method SetGender(gender: Gender)
      requires Valid() && step == 1
      modifies this
      ensures Valid() && step == old(step) && data == old(data).(gender := gender)
    {
      data := data.(gender := gender);
    }

    /** A goal button of step 2: only the goals change. */
    method ToggleGoal(goal: string)
      requires Valid() && step == 2
      modifies this
      ensures Valid() && step == old(step)
      ensures data == old(data).(goals := ToggledGoals(old(data.goals), goal))
    {
      ToggleKeepsDistinct(data.goals, goal);
      data := data.(goals := ToggledGoals(data.goals, goal));
    }

    /** The medical-conditions text of step 3. */
    method SetMedicalHistory(text: string)
      requires Valid() && step == 3
      modifies this
      ensures Valid() && step == old(step) && data == old(data).(medicalHistory := text)
    {
      data := data.(medicalHistory := text);
    }

    /** The family-history text of step 3. */
    method SetGeneticRisks(text: string)
      requires Valid() && step == 3
      modifies this
      ensures Valid() && step == old(step) && data == old(data).(geneticRisks := text)
    {
      data := data.(geneticRisks := text);
    }

    /** `finish`: the fields handed to `completeOnboarding`. A wizard that reached the
        last step hands over a non-empty name, a chosen gender and goals without repeats. */
    method Finish() returns (profileData: ProfilePatch)
      requires Valid() && step == 3
      ensures profileData == FormPatch(data)
      ensures profileData.name.Some? && profileData.name.value != ""
      ensures profileData.gender.Some? && profileData.gender.value != Unset
      ensures profileData.goals.Some? && Distinct(profileData.goals.value)
    {
      profileData := FormPatch(data);
    }
  }
}
