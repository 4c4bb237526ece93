/**
 * The wizard's steps: the numeric enumeration `FormStep`, whose members are
 * BASIC_INFO = 1, SKILLS, EXPERIENCE, PROJECTS, DESIGN and COMPLETE = 6 in
 * this order. The file that declares it (constants.ts) is not part of this
 * model; the values follow from the order of the step table in
 * StepIndicator.tsx and the lower bound 1 that `prevStep` uses.
 */
module FormSteps {

  const BasicInfoStep: int := 1
  const SkillsStep: int := 2
  const ExperienceStep: int := 3
  const ProjectsStep: int := 4
  const DesignStep: int := 5
  const CompleteStep: int := 6

  /** The enumeration's members, in declaration order, with their values. */
  const Members: seq<(string, int)> := [
    ("BASIC_INFO", BasicInfoStep), ("SKILLS", SkillsStep), ("EXPERIENCE", ExperienceStep),
    ("PROJECTS", ProjectsStep), ("DESIGN", DesignStep), ("COMPLETE", CompleteStep)
  ]

  /**
   * `Object.keys(FormStep).length`: a numeric TypeScript enumeration object
   * holds every member name and, through its reverse mapping, every member
   * value as a key, so there are two keys per member.
   */
  const ObjectKeyCount: int := 2 * |Members|

  /** The upper bound `nextStep` clamps to: `Object.keys(FormStep).length / 2`. */
  const LastStep: int := ObjectKeyCount / 2

  predicate IsFormStep(s: int) {
    BasicInfoStep <= s <= CompleteStep
  }

  /** The steps one can edit in, before the result. */
  predicate IsEditingStep(s: int) {
    BasicInfoStep <= s <= DesignStep
  }

  /**
   * The members are numbered 1, 2, ... in declaration order, and the clamp
   * of `nextStep` is the last of them, COMPLETE, not DESIGN.
   */
  lemma MembersNumberedInOrder()
    ensures forall i :: 0 <= i < |Members| ==> Members[i].1 == i + 1
    ensures LastStep == |Members| == CompleteStep
    ensures forall s :: IsFormStep(s) <==> exists i :: 0 <= i < |Members| && Members[i].1 == s
  {
    forall s | IsFormStep(s)
      ensures exists i :: 0 <= i < |Members| && Members[i].1 == s
    {
      assert Members[s - 1].1 == s;
    }
  }
}
