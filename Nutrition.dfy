/** The nutritionist screen (components/Nutritionist.tsx): a profile form,
    a three-step machine (form, loading, plan) around the request for a
    plan, and a reset. The plan service is abstract: its outcome is a
    parameter, a plan or a failure. */
module Nutrition {
  import opened Outcomes
  import opened Types

  datatype Step = Form | Loading | ShowPlan {
    function Label(): string {
      match this
      case Form => "form"
      case Loading => "loading"
      case ShowPlan => "plan"
    }
  }

  /** What the component renders. */
  datatype Screen = LoadingScreen | PlanScreen(plan: NutritionPlan) | FormScreen(generateEnabled: bool)

  const InitialProfile: NutritionProfile := NutritionProfile("", "", "", PerderPeso, Moderado)

  /** The three number fields are filled in: the only condition under which
      a plan is requested and the generate button is enabled. */
  predicate Complete(p: NutritionProfile) {
    p.age != "" && p.weight != "" && p.height != ""
  }

  /** The screen for a state: the loading screen while loading, the plan
      only when the step is the plan and a plan is held, else the form. */
  function ScreenFor(step: Step, profile: NutritionProfile, plan: Option<NutritionPlan>): (r: Screen)
    ensures r.LoadingScreen? <==> step == Loading
    ensures r.PlanScreen? <==> step == ShowPlan && plan.Some?
    ensures r.PlanScreen? ==> r.plan == plan.value
    ensures r.FormScreen? ==> (r.generateEnabled <==> Complete(profile))
  {
    if step == Loading then LoadingScreen
    else if step == ShowPlan && plan.Some? then PlanScreen(plan.value)
    else FormScreen(Complete(profile))
  }

  class Nutritionist {
    var step: Step
    var profile: NutritionProfile
    var plan: Option<NutritionPlan>

    /** The plan step always has a plan to show. */
    predicate Valid()
      reads this
    {
      step == ShowPlan ==> plan.Some?
    }

    function CurrentScreen(): Screen
      reads this
    {
      ScreenFor(step, profile, plan)
    }

    constructor()
      ensures step == Form && plan == None
      ensures profile == InitialProfile
      ensures Valid()
    {
      step := Form;
      profile := InitialProfile;
      plan := None;
    }

    /** The synchronous start of handleGenerate: with an empty age, weight
        or height nothing happens; otherwise the step becomes loading. */
    method Submit() returns (started: bool)
      requires Valid()
      modifies this
      ensures started <==> Complete(old(profile))
      ensures started ==> step == Loading
      ensures !started ==> step == old(step)
      ensures profile == old(profile) && plan == old(plan)
      ensures Valid()
    {
      if profile.age == "" || profile.weight == "" || profile.height == "" {
        return false;
      }
      step := Loading;
      return true;
    }

    /** The end of handleGenerate: a plan is stored and shown; a failure
        returns to the form and leaves the plan as it was. */
    method Settle(result: Settled<NutritionPlan>)
      requires Valid()
      modifies this
      ensures result.Fulfilled? ==> step == ShowPlan && plan == Some(result.value)
      ensures result.Rejected? ==> step == Form && plan == old(plan)
      ensures profile == old(profile)
      ensures Valid()
    {
      match result {
        case Fulfilled(p) =>
          plan := Some(p);
          step := ShowPlan;
        case Rejected =>
          step := Form;
      }
    }

    /** handleGenerate, with the plan service's outcome for this profile. */
    method HandleGenerate(result: Settled<NutritionPlan>)
      requires Valid()
      modifies this
      ensures !Complete(old(profile)) ==> step == old(step) && plan == old(plan)
      ensures Complete(old(profile)) && result.Fulfilled? ==>
                step == ShowPlan && plan == Some(result.value) && CurrentScreen() == PlanScreen(result.value)
      ensures Complete(old(profile)) && result.Rejected? ==>
                step == Form && plan == old(plan) && CurrentScreen().FormScreen?
      ensures profile == old(profile)
      ensures Valid()
    {
      var started := Submit();
      if started {
        Settle(result);
      }
    }

    /** reset: back to the form with no plan, whatever the state. */
    method Reset()
      modifies this
      ensures step == Form && plan == None && profile == old(profile)
      ensures Valid()
      ensures CurrentScreen() == FormScreen(Complete(profile))
    {
      step := Form;
      plan := None;
    }

    method SetAge(text: string)
      modifies this
      ensures profile == old(profile).(age := text)
      ensures step == old(step) && plan == old(plan)
    {
      profile := profile.(age := text);
    }

    method SetWeight(text: string)
      modifies this
      ensures profile == old(profile).(weight := text)
      ensures step == old(step) && plan == old(plan)
    {
      profile := profile.(weight := text);
    }

    method SetHeight(text: string)
      modifies this
      ensures profile == old(profile).(height := text)
      ensures step == old(step) && plan == old(plan)
    {
      profile := profile.(height := text);
    }

    method SetGoal(goal: Goal)
      modifies this
      ensures profile == old(profile).(goal := goal)
      ensures step == old(step) && plan == old(plan)
    {
      profile := profile.(goal := goal);
    }

    method SetSpeed(speed: Speed)
      modifies this
      ensures profile == old(profile).(speed := speed)
      ensures step == old(step) && plan == old(plan)
    {
      profile := profile.(speed := speed);
    }
  }
}
