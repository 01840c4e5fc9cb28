/** The three-step onboarding tour (frontend/src/components/OnboardingModal.jsx):
    the `currentStep` counter that Next, Previous and Skip move, and what the
    modal derives from it. Calls to the `onClose` callback are counted. */
module OnboardingModal {
  import opened Wrappers

  const TotalSteps := 3

  datatype Step = Step(title: string, content: string, icon: string, action: string)

  const Steps: seq<Step> := [
    Step("Welcome to ReGenLens",
         "Your AI-powered partner for land restoration. We analyze vegetation health and provide intelligent recommendations for sustainable land management.",
         "🌱", "Get Started"),
    Step("Analyze Land Health",
         "Click on any region in the map to analyze vegetation trends, degradation scores, and get AI-powered insights for restoration strategies.",
         "🗺️", "Next"),
    Step("Save & Track Progress",
         "Save your analyses, track restoration progress over time, and access your dashboard to manage all your land restoration projects.",
         "📊", "Start Exploring")
  ]

  /** What an open modal shows at a step. */
  datatype View = View(step: Step, progressPercent: real, dotsFilled: seq<bool>, previousShown: bool)

  /** The tour's state. */
  class Tour {
    var currentStep: int
    var closeCalls: nat

    /** The step always names one of the three steps. */
    predicate Valid()
      reads this
    {
      1 <= currentStep <= TotalSteps
    }

    /** `useState(1)`. */
    constructor()
      ensures Valid() && currentStep == 1 && closeCalls == 0
    {
      currentStep := 1;
      closeCalls := 0;
    }

    /** `handleNext`: forward one step, or close the tour from the last one. */
    method HandleNext()
      requires Valid()
      modifies this
      ensures Valid()
      ensures old(currentStep) < TotalSteps ==> currentStep == old(currentStep) + 1 && closeCalls == old(closeCalls)
      ensures old(currentStep) == TotalSteps ==> currentStep == old(currentStep) && closeCalls == old(closeCalls) + 1
      ensures closeCalls == old(closeCalls) + 1 <==> old(CurrentStep()).action == "Start Exploring"
    {
      if currentStep < TotalSteps {
        currentStep := currentStep + 1;
      } else {
        closeCalls := closeCalls + 1;
      }
    }

    /** `handlePrevious`: back one step; nothing on the first step. */
    method HandlePrevious()
      requires Valid()
      modifies this
      ensures Valid()
      ensures old(currentStep) > 1 ==> currentStep == old(currentStep) - 1
      ensures old(currentStep) == 1 ==> currentStep == 1
      ensures closeCalls == old(closeCalls)
    {
      if currentStep > 1 {
        currentStep := currentStep - 1;
      }
    }

    /** `handleSkip`, and a click on the backdrop: close, keeping the step. */
    method HandleSkip()
      requires Valid()
      modifies this
      ensures Valid()
      ensures currentStep == old(currentStep) && closeCalls == old(closeCalls) + 1
    {
      closeCalls := closeCalls + 1;
    }

    /** `steps[currentStep - 1]`, always within the array. */
    function CurrentStep(): (s: Step)
      requires Valid()
      reads this
      ensures s in Steps
      ensures s == Steps[currentStep - 1]
      ensures s.action == "Start Exploring" <==> currentStep == TotalSteps
    {
      Steps[currentStep - 1]
    }

    /** The width of the progress bar in percent. */
    function ProgressPercent(): (w: real)
      requires Valid()
      reads this
      ensures 100.0 / 3.0 <= w <= 100.0
      ensures w == 100.0 <==> currentStep == TotalSteps
    {
      (currentStep as real / TotalSteps as real) * 100.0
    }

    /** Indicator dot `dot` (1 to 3) is filled. */
    predicate DotFilled(dot: int)
      reads this
    {
      dot <= currentStep
    }

    /** The modal: nothing when closed; otherwise the current step, the
        progress, the three dots and whether Previous is offered. */
    function Render(isOpen: bool): (v: Option<View>)
      requires Valid()
      reads this
      ensures v.None? <==> !isOpen
      ensures v.Some? ==> v.value.step == CurrentStep() && v.value.progressPercent == ProgressPercent()
      ensures v.Some? ==> (v.value.step.action == "Start Exploring" <==> currentStep == TotalSteps)
      ensures v.Some? ==> (v.value.previousShown <==> currentStep > 1)
      ensures v.Some? ==> |v.value.dotsFilled| == TotalSteps
      ensures v.Some? ==> forall i :: 0 <= i < TotalSteps ==> (v.value.dotsFilled[i] <==> i + 1 <= currentStep)
    {
      if !isOpen then None
      else
        Some(View(CurrentStep(), ProgressPercent(),
                  seq(TotalSteps, i requires 0 <= i < TotalSteps reads this => DotFilled(i + 1)),
                  currentStep > 1))
    }
  }

  /** The main button reads "Start Exploring" exactly on the step where it
      closes the tour instead of moving on. */
  lemma ClosingStepIsLabelled(step: int)
    requires 1 <= step <= TotalSteps
    ensures Steps[step - 1].action == "Start Exploring" <==> step == TotalSteps
  {
  }

  /** The first step's dot is always filled, and the number of filled dots
      is the step. */
  lemma FilledDotsCountSteps(t: Tour)
    requires t.Valid()
    ensures t.DotFilled(1)
    ensures forall dot :: 1 <= dot <= TotalSteps ==> (t.DotFilled(dot) <==> dot <= t.currentStep)
    ensures |set dot | 1 <= dot <= TotalSteps && t.DotFilled(dot)| == t.currentStep
  {
    var filled := set dot | 1 <= dot <= TotalSteps && t.DotFilled(dot);
    if t.currentStep == 1 {
      assert filled == {1};
    } else if t.currentStep == 2 {
      assert filled == {1, 2};
    } else {
      assert filled == {1, 2, 3};
    }
  }
}
