/**
 * The recipe detail screen: the recipe passed in the navigation payload (or
 * a not-found placeholder), a saved flag, an ingredient checklist whose
 * unchecked items can be sent to the grocery list, and the step list with a
 * single "active timer" marker.
 */
module RecipeDetail {
  import opened Wrappers
  import opened Checklist
  import opened Recipes
  import Grocery

  /** A cooking step; `duration` (minutes) is optional. */
  datatype Step = Step(step: int, instruction: string, duration: Option<int>)

  /** The steps every recipe detail shows. */
  const MockSteps: seq<Step> := [
    Step(1, "Bring a large pot of salted water to boil", Some(10)),
    Step(2, "Cook pasta according to package directions until al dente", Some(12)),
    Step(3, "While pasta cooks, whisk eggs with grated Parmesan cheese", None),
    Step(4, "Cook pancetta or bacon in a large skillet until crispy", Some(8)),
    Step(5, "Drain pasta, reserving 1 cup pasta water", None),
    Step(6, "Add hot pasta to skillet with pancetta, toss well", None),
    Step(7, "Remove from heat, quickly stir in egg mixture, adding pasta water to create creamy sauce", None),
    Step(8, "Season with black pepper and serve immediately with extra Parmesan", None)
  ]

  /** The ingredient checklist every recipe detail starts with, nothing checked. */
  const MockIngredients: seq<Item> := [
    Item("Spaghetti", Some("400g"), false),
    Item("Eggs", Some("4 large"), false),
    Item("Parmesan cheese", Some("100g, grated"), false),
    Item("Pancetta or bacon", Some("150g, diced"), false),
    Item("Black pepper", Some("to taste"), false),
    Item("Salt", Some("for pasta water"), false)
  ]

  /** `step.duration &&`: a timer button is rendered only for a present, non-zero duration. */
  predicate HasTimer(s: Step)
    ensures HasTimer(s) <==> s.duration.GetOr(0) != 0
  {
    s.duration.Some? && s.duration.value != 0
  }

  /** A rendered timer button: its step, its duration, and whether it shows "Timer Running". */
  datatype TimerControl = TimerControl(step: int, duration: int, running: bool)

  function ControlFor(s: Step, activeTimer: Option<int>): TimerControl
    requires HasTimer(s)
  {
    TimerControl(s.step, s.duration.value, activeTimer == Some(s.step))
  }

  /** `steps.filter(step => step.duration)`: the steps that get a timer button, in order. */
  function StepsWithTimers(steps: seq<Step>): (r: seq<Step>)
    ensures |r| <= |steps|
    ensures forall k :: 0 <= k < |r| ==> HasTimer(r[k])
    ensures forall s :: s in r <==> s in steps && HasTimer(s)
  {
    if steps == [] then []
    else (if HasTimer(steps[0]) then [steps[0]] else []) + StepsWithTimers(steps[1..])
  }

  /**
   * The timer buttons of the steps tab, in step order: one per step with a
   * timer, running exactly when the active marker names its step number.
   */
  function TimerControls(steps: seq<Step>, activeTimer: Option<int>): (r: seq<TimerControl>)
    ensures |r| == |StepsWithTimers(steps)|
    ensures forall k :: 0 <= k < |r| ==> r[k] == ControlFor(StepsWithTimers(steps)[k], activeTimer)
  {
    if steps == [] then []
    else
      var head := if HasTimer(steps[0]) then [ControlFor(steps[0], activeTimer)] else [];
      head + TimerControls(steps[1..], activeTimer)
  }

  function RunningCount(controls: seq<TimerControl>): nat {
    if controls == [] then 0 else (if controls[0].running then 1 else 0) + RunningCount(controls[1..])
  }

  /** How the running count of a step list splits into its first step and the rest. */
  lemma TimerControlsCons(steps: seq<Step>, activeTimer: Option<int>)
    requires steps != []
    ensures RunningCount(TimerControls(steps, activeTimer))
         == (if HasTimer(steps[0]) && activeTimer == Some(steps[0].step) then 1 else 0)
          + RunningCount(TimerControls(steps[1..], activeTimer))
  {
    var r := TimerControls(steps, activeTimer);
    if HasTimer(steps[0]) {
      assert r[1..] == TimerControls(steps[1..], activeTimer);
    } else {
      assert r == TimerControls(steps[1..], activeTimer);
    }
  }

  predicate DistinctStepNumbers(steps: seq<Step>) {
    forall i, j :: 0 <= i < j < |steps| ==> steps[i].step != steps[j].step
  }

  lemma {:induction false} NoneRunning(steps: seq<Step>, activeTimer: Option<int>)
    requires forall k :: 0 <= k < |steps| ==> activeTimer != Some(steps[k].step)
    ensures RunningCount(TimerControls(steps, activeTimer)) == 0
  {
    if steps != [] {
      NoneRunning(steps[1..], activeTimer);
      TimerControlsCons(steps, activeTimer);
    }
  }

  /** With distinct step numbers, at most one timer button shows "Timer Running". */
  lemma {:induction false} AtMostOneRunning(steps: seq<Step>, activeTimer: Option<int>)
    requires DistinctStepNumbers(steps)
    ensures RunningCount(TimerControls(steps, activeTimer)) <= 1
  {
    if steps != [] {
      var tail := steps[1..];
      TimerControlsCons(steps, activeTimer);
      if activeTimer == Some(steps[0].step) {
        forall k | 0 <= k < |tail| ensures activeTimer != Some(tail[k].step) {
          assert tail[k] == steps[k + 1];
        }
        NoneRunning(tail, activeTimer);
      } else {
        AtMostOneRunning(tail, activeTimer);
      }
    }
  }

  /** The fixture's step numbers are distinct. */
  lemma MockStepsDistinct()
    ensures DistinctStepNumbers(MockSteps)
  {
  }

  /** The hand-off to the grocery list: the unchecked ingredients, and the count the notification shows. */
  function GroceryHandOff(ingredients: seq<Item>): (r: (seq<Item>, nat))
    ensures r.1 == |r.0|
    ensures forall x :: x in r.0 <==> x in ingredients && !x.checked
    ensures r.0 == Unchecked(ingredients)
  {
    var unchecked := Unchecked(ingredients);
    (unchecked, |unchecked|)
  }

  /**
   * Sending the checklist to the grocery list and seeding that screen from it
   * gives exactly the unchecked ingredients, in order, all unchecked.
   */
  lemma HandOffThenSeed(ingredients: seq<Item>)
    ensures var seeded := Grocery.Seed(Some(GroceryHandOff(ingredients).0));
      && seeded == Unchecked(ingredients)
      && |seeded| == |ingredients| - CheckedCount(ingredients)
      && forall k :: 0 <= k < |seeded| ==> !seeded[k].checked
  {
  }

  /** A checked "Eggs" stays behind; an unchecked "Spaghetti" is the one item sent. */
  lemma HandOffSample()
    ensures GroceryHandOff([Item("Spaghetti", None, false), Item("Eggs", None, true)]).0
         == [Item("Spaghetti", None, false)]
  {
  }

  /** What the screen renders: the placeholder without a recipe, the recipe view otherwise. */
  datatype DetailView =
    | RecipeNotFound
    | RecipeShown(recipe: Recipe, saved: bool, checklist: seq<Item>, timers: seq<TimerControl>)

  /** The recipe detail screen's state. */
  class RecipeDetailScreen {
    const recipe: Option<Recipe>
    var isSaved: bool
    var ingredients: seq<Item>
    var activeTimer: Option<int>

    /** Mounting the screen: saved as the payload recipe says (false without one), no timer active. */
    constructor (payload: Option<Recipe>)
      ensures recipe == payload
      ensures isSaved == (payload.Some? && Saved(payload.value))
      ensures ingredients == MockIngredients
      ensures activeTimer == None
    {
      recipe := payload;
      isSaved := payload.Some? && Saved(payload.value);
      ingredients := MockIngredients;
      activeTimer := None;
    }

    /** A missing recipe renders the not-found placeholder; otherwise the state is shown as is. */
    function Render(): (v: DetailView)
      reads this
      ensures v.RecipeNotFound? <==> recipe.None?
      ensures v.RecipeShown? ==> v.recipe == recipe.value && v.saved == isSaved && v.checklist == ingredients
      ensures v.RecipeShown? ==> v.timers == TimerControls(MockSteps, activeTimer)
      ensures v.RecipeShown? ==> RunningCount(v.timers) <= 1
    {
      match recipe
      case None => RecipeNotFound
      case Some(r) =>
        MockStepsDistinct();
        AtMostOneRunning(MockSteps, activeTimer);
        RecipeShown(r, isSaved, ingredients, TimerControls(MockSteps, activeTimer))
    }

    /** A timer button: its step becomes the one active marker, replacing any earlier one. */
    method StartTimer(stepNumber: int, duration: int)
      modifies this`activeTimer
      ensures activeTimer == Some(stepNumber)
    {
      activeTimer := Some(stepNumber);
    }

    /** The heart button. */
    method ToggleSaved()
      modifies this`isSaved
      ensures isSaved == !old(isSaved)
    {
      isSaved := !isSaved;
    }

    /** The checkbox of the ingredient at `index`. */
    method ToggleIngredient(index: int)
      modifies this`ingredients
      ensures ingredients == ToggleAt(old(ingredients), index)
    {
      ingredients := ToggleAt(ingredients, index);
    }

    /** "Add to List": the payload for the grocery list and the count in the notification. */
    method AddToGroceryList() returns (payload: seq<Item>, addedCount: nat)
      ensures (payload, addedCount) == GroceryHandOff(ingredients)
      ensures payload == Unchecked(ingredients) && addedCount == |payload|
    {
      payload := Unchecked(ingredients);
      addedCount := |payload|;
    }
  }
}
