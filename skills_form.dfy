/**
 * The skills editor: three lists of skills, each with a text box that adds
 * its trimmed content, and a remove button per skill.
 */
module SkillsForm {
  import opened Optional
  import opened Text
  import opened Types
  import Lists

  /** `keyof Skills`. */
  datatype SkillCategory = Technical | Tools | Soft

  /** `data[category]`. */
  function Category(skills: Skills, c: SkillCategory): seq<string> {
    match c
    case Technical => skills.technical
    case Tools => skills.tools
    case Soft => skills.soft
  }

  /** `{ ...data, [category]: xs }`: the chosen list replaced, the other two kept; writing back the list as read changes nothing. */
  function WithCategory(skills: Skills, c: SkillCategory, xs: seq<string>): (r: Skills)
    ensures Category(r, c) == xs
    ensures forall d :: d != c ==> Category(r, d) == Category(skills, d)
    ensures xs == Category(skills, c) ==> r == skills
  {
    match c
    case Technical => skills.(technical := xs)
    case Tools => skills.(tools := xs)
    case Soft => skills.(soft := xs)
  }

  /** `handleAddSkill`: the skill goes to the end of its category; the other categories stay as they are. */
  function AddSkill(skills: Skills, c: SkillCategory, skill: string): (r: Skills)
    ensures |Category(r, c)| == |Category(skills, c)| + 1
    ensures Category(r, c)[..|Category(skills, c)|] == Category(skills, c)
    ensures Category(r, c)[|Category(skills, c)|] == skill
    ensures forall d :: d != c ==> Category(r, d) == Category(skills, d)
  {
    var xs := Category(skills, c) + [skill];
    assert xs[..|Category(skills, c)|] == Category(skills, c);
    WithCategory(skills, c, xs)
  }

  /**
   * `handleRemoveSkill`: drops position `index` of the category and keeps
   * the rest in order; an index that is not a position changes nothing; the
   * other categories stay as they are.
   */
  function RemoveSkill(skills: Skills, c: SkillCategory, index: int): (r: Skills)
    ensures 0 <= index < |Category(skills, c)| ==>
      Category(r, c) == Category(skills, c)[..index] + Category(skills, c)[index + 1..]
    ensures !(0 <= index < |Category(skills, c)|) ==> r == skills
    ensures forall d :: d != c ==> Category(r, d) == Category(skills, d)
  {
    WithCategory(skills, c, Lists.DropIndex(Category(skills, c), index))
  }

  /** Removing the skill just added gives back the skills as they were. */
  lemma RemoveUndoesAdd(skills: Skills, c: SkillCategory, skill: string)
    ensures RemoveSkill(AddSkill(skills, c, skill), c, |Category(skills, c)|) == skills
  {
    var added := AddSkill(skills, c, skill);
    var r := RemoveSkill(added, c, |Category(skills, c)|);
    var n := |Category(skills, c)|;
    assert Category(added, c)[..n] + Category(added, c)[n + 1..] == Category(skills, c);
    match c
    case Technical =>
    case Tools =>
    case Soft =>
  }

  /** A removal takes out exactly one occurrence of the removed skill. */
  lemma RemoveTakesOneSkill(skills: Skills, c: SkillCategory, index: int)
    requires 0 <= index < |Category(skills, c)|
    ensures multiset(Category(RemoveSkill(skills, c, index), c)) + multiset{Category(skills, c)[index]}
         == multiset(Category(skills, c))
  {
    var xs := Category(skills, c);
    assert xs == xs[..index] + [xs[index]] + xs[index + 1..];
  }

  /**
   * What the text box hands on when its add button is pressed: nothing when
   * the input is all white space, and otherwise the input with the white
   * space around it removed.
   */
  function Submitted(input: string): (r: Option<string>)
    ensures r.None? <==> forall i :: 0 <= i < |input| ==> IsSpace(input[i])
    ensures r.Some? ==> r.value == Trim(input) && r.value != "" && Trimmed(r.value)
  {
    TrimRemovesOnlySpace(input);
    var t := Trim(input);
    if t != "" then Some(t) else None
  }

  /** Submitting what was just submitted hands it on unchanged. */
  lemma SubmittedIsStable(input: string)
    requires Submitted(input).Some?
    ensures Submitted(Submitted(input).value) == Submitted(input)
  {
    TrimIdentity(Submitted(input).value);
  }

  /** One category's text box: the `newSkill` state of `SkillInputSection`. */
  class SkillInput {
    var newSkill: string

    constructor()
      ensures newSkill == ""
    {
      newSkill := "";
    }

    /** The box's `onChange`. */
    method SetNewSkill(value: string)
      modifies this
      ensures newSkill == value
    {
      newSkill := value;
    }

    /**
     * `handleAdd`: hands on the trimmed input when it is not empty and then
     * clears the box; an input that trims to nothing is ignored and kept.
     */
    method HandleAdd() returns (added: Option<string>)
      modifies this
      ensures added == Submitted(old(newSkill))
      ensures added.Some? ==> newSkill == ""
      ensures added.None? ==> newSkill == old(newSkill)
    {
      var trimmed := Trim(newSkill);
      if trimmed != "" {
        added := Some(trimmed);
        newSkill := "";
      } else {
        added := None;
      }
    }
  }
}
