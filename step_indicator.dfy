/**
 * The progress bar above the forms: one item per editing step, highlighted
 * once the wizard has reached that step, and clickable to jump to it.
 */
module StepIndicator {
  import opened FormSteps
  import Lists

  datatype StepItem = StepItem(id: int, caption: string)

  /** The items, in display order. COMPLETE has none. */
  const Steps: seq<StepItem> := [
    StepItem(BasicInfoStep, "Basic Info"),
    StepItem(SkillsStep, "Skills"),
    StepItem(ExperienceStep, "Experience"),
    StepItem(ProjectsStep, "Projects"),
    StepItem(DesignStep, "Design")
  ]

  /** An item is drawn in the highlight colour when the current step is at or past it. */
  predicate Highlighted(currentStep: int, item: StepItem) {
    currentStep >= item.id
  }

  /** The number printed on the item at position `index`: "Step {index + 1}". */
  function StepNumber(index: nat): int {
    index + 1
  }

  /**
   * The step a click on the item at `index` reports: an editing step, never
   * COMPLETE, and the very number the item shows.
   */
  function ClickTarget(index: nat): (target: int)
    requires index < |Steps|
    ensures IsEditingStep(target) && target != CompleteStep
    ensures target == StepNumber(index)
  {
    Steps[index].id
  }

  /** The table lists BASIC_INFO through DESIGN, each once, in order. */
  lemma StepsInOrder()
    ensures |Steps| == DesignStep
    ensures forall i :: 0 <= i < |Steps| ==> Steps[i].id == i + 1
    ensures forall s :: IsEditingStep(s) <==> exists i :: 0 <= i < |Steps| && Steps[i].id == s
  {
    forall s | IsEditingStep(s)
      ensures exists i :: 0 <= i < |Steps| && Steps[i].id == s
    {
      assert Steps[s - 1].id == s;
    }
  }

  /** The highlighted items always form a prefix of the bar. */
  lemma HighlightedPrefix(currentStep: int, i: nat, j: nat)
    requires i <= j < |Steps|
    requires Highlighted(currentStep, Steps[j])
    ensures Highlighted(currentStep, Steps[i])
  {
    StepsInOrder();
  }

  /** How many items are highlighted: the current step, capped at the number of items. */
  lemma HighlightedCount(currentStep: int)
    ensures Lists.Count(Steps, (item: StepItem) => Highlighted(currentStep, item))
         == if currentStep < 0 then 0 else if currentStep > |Steps| then |Steps| else currentStep
  {
    CountFrom(currentStep, 0);
  }

  /** The highlighted items among `Steps[k..]`. */
  lemma {:induction false} CountFrom(currentStep: int, k: nat)
    requires k <= |Steps|
    ensures Lists.Count(Steps[k..], (item: StepItem) => Highlighted(currentStep, item))
         == if currentStep < k then 0 else if currentStep > |Steps| then |Steps| - k else currentStep - k
    decreases |Steps| - k
  {
    if k < |Steps| {
      StepsInOrder();
      assert Steps[k..][1..] == Steps[k + 1..];
      CountFrom(currentStep, k + 1);
    }
  }
}
