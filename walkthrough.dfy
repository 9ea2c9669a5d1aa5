/**
  The feature walkthrough (Frontend/src/components/Feature.jsx): a dialog
  that steps through a fixed list of features, with previous and next
  buttons, one dot per step, a progress figure, and a closing page from
  which the tour can be restarted.
*/
module Walkthrough {

  /** One page of the tour; its icon and colour are left out. */
  datatype Feature = Feature(id: nat, title: string, description: string, steps: seq<string>)

  /** The five pages, in order. */
  const Features: seq<Feature> := [
    Feature(1, "Explore Components Sidebar",
      "Browse our library of pre-built UI components organized by category for fast access.",
      ["Click the sidebar toggle on the top left.", "Navigate through categorized UI components."]),
    Feature(2, "Edit Code with Monaco",
      "Use our modern editor for syntax highlighting, suggestions, and instant feedback.",
      ["Pick any component design.", "Edit it live with smart assistance."]),
    Feature(3, "Live Preview",
      "Watch your changes reflected live as you type. No need to reload.",
      ["Type or paste your code.", "Hit 'Run' to preview updates."]),
    Feature(4, "Save with JWT Authentication",
      "Save your code snippets securely. Retrieve them anytime after login.",
      ["Sign in to your account.", "Click 'Save' to store your code."]),
    Feature(5, "Access Saved Codes",
      "Quickly access, copy or manage your saved snippets from the dashboard.",
      ["Go to Saved Codes section.", "Manage or reuse your stored snippets."])
  ]

  /** `nextStep` on a tour of `count` pages: forward by one, except on the
      last page, which stays. */
  function Next(step: nat, count: nat): (r: nat)
    requires step < count
    ensures r < count
    ensures step < count - 1 ==> r == step + 1
    ensures step == count - 1 ==> r == step
  {
    if step < count - 1 then step + 1 else step
  }

  /** `prevStep`: back by one, except on the first page, which stays. */
  function Prev(step: nat): (r: nat)
    ensures r <= step
    ensures step > 0 ==> r + 1 == step
    ensures step == 0 ==> r == 0
  {
    if step > 0 then step - 1 else step
  }

  /** Going forward and back from any page but the last returns to it;
      going back and forward from any page but the first does too. */
  lemma NextThenPrev(step: nat, count: nat)
    requires step < count
    ensures step < count - 1 ==> Prev(Next(step, count)) == step
    ensures 0 < step ==> Next(Prev(step), count) == step
  {
  }

  /** The progress figure `Math.round((step + 1) / count * 100)`, in
      integers: the nearest whole percentage, a half rounding up. */
  function Percent(step: nat, count: nat): (p: int)
    requires step < count
    ensures -(count as int) < 2 * count * p - 200 * (step + 1) <= count
  {
    var numerator := 200 * (step + 1) + count;
    var p := numerator / (2 * count);
    assert numerator == 2 * count * p + numerator % (2 * count);
    p
  }

  /** A multiple of a positive `c` strictly between `-c` and `c` is zero. */
  lemma OnlyZeroMultiple(c: int, d: int)
    requires c > 0 && -c < c * d < c
    ensures d == 0
  {
  }

  /** There is one nearest whole percentage. */
  lemma PercentUnique(step: nat, count: nat, q: int)
    requires step < count
    requires -(count as int) < 2 * count * q - 200 * (step + 1) <= count
    ensures q == Percent(step, count)
  {
    var p := Percent(step, count);
    var c := 2 * count;
    assert c * q - c * p == c * (q - p);
    OnlyZeroMultiple(c, q - p);
  }

  /** With five pages the figure is 20, 40, 60, 80, 100. */
  lemma FivePagePercent(step: nat)
    requires step < |Features|
    ensures Percent(step, |Features|) == 20 * (step + 1)
  {
    PercentUnique(step, |Features|, 20 * (step + 1));
  }

  /** The last page always shows 100. */
  lemma LastPageIsComplete(count: nat)
    requires count > 0
    ensures Percent(count - 1, count) == 100
  {
    PercentUnique(count - 1, count, 100);
  }

  /** The dialog's state: the page shown and whether the tour is open. */
  class Tour {
    var currentStep: nat
    var isVisible: bool

    ghost predicate Valid()
      reads this
    {
      currentStep < |Features|
    }

    /** The first page, open. */
    constructor ()
      ensures Valid()
      ensures currentStep == 0 && isVisible
    {
      currentStep := 0;
      isVisible := true;
    }

    /** The page shown. */
    function CurrentFeature(): (f: Feature)
      reads this
      requires Valid()
      ensures f in Features && f.id == currentStep + 1
    {
      Features[currentStep]
    }

    /** `nextStep`. */
    method NextStep()
      requires Valid()
      modifies this`currentStep
      ensures Valid()
      ensures currentStep == Next(old(currentStep), |Features|)
    {
      if currentStep < |Features| - 1 {
        currentStep := currentStep + 1;
      }
    }

    /** `prevStep`. */
    method PrevStep()
      requires Valid()
      modifies this`currentStep
      ensures Valid()
      ensures currentStep == Prev(old(currentStep))
    {
      if currentStep > 0 {
        currentStep := currentStep - 1;
      }
    }

    /** A dot: there is one per page, and clicking it shows that page. */
    method SelectStep(index: nat)
      requires index < |Features|
      modifies this`currentStep
      ensures Valid()
      ensures currentStep == index
    {
      currentStep := index;
    }

    /** `closeWalkthrough`: the closing page shows; the step is kept. */
    method CloseWalkthrough()
      modifies this`isVisible
      ensures !isVisible
    {
      isVisible := false;
    }

    /** The primary button: "Finish" on the last page closes the tour,
        "Next" on any other page moves forward. */
    method Primary()
      requires Valid()
      modifies this`currentStep, this`isVisible
      ensures Valid()
      ensures old(currentStep) == |Features| - 1 ==> !isVisible && currentStep == old(currentStep)
      ensures old(currentStep) < |Features| - 1 ==>
                currentStep == old(currentStep) + 1 && isVisible == old(isVisible)
    {
      if currentStep == |Features| - 1 {
        CloseWalkthrough();
      } else {
        NextStep();
      }
    }

    /** "Restart Tour": the dialog opens again on the page it was closed on. */
    method Restart()
      modifies this`isVisible
      ensures isVisible
    {
      isVisible := true;
    }
  }
}
