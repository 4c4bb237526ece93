/**
 * The work-experience editor: a list of entries, each identified by its
 * `id`, that can be added, removed by id, and edited one field at a time.
 * New ids come from the caller; nothing here assumes they are unique.
 */
module ExperienceForm {
  import opened Types
  import Lists

  /** `keyof Experience`. */
  datatype ExperienceField = Id | Company | Role | StartDate | EndDate | Description

  /** `exp[field]`. */
  function Get(e: Experience, f: ExperienceField): string {
    match f
    case Id => e.id
    case Company => e.company
    case Role => e.role
    case StartDate => e.startDate
    case EndDate => e.endDate
    case Description => e.description
  }

  /** `{ ...exp, [field]: value }`: the field reads back as given and every other field is as it was. */
  function SetField(e: Experience, f: ExperienceField, value: string): (r: Experience)
    ensures Get(r, f) == value
    ensures forall g :: g != f ==> Get(r, g) == Get(e, g)
  {
    match f
    case Id => e.(id := value)
    case Company => e.(company := value)
    case Role => e.(role := value)
    case StartDate => e.(startDate := value)
    case EndDate => e.(endDate := value)
    case Description => e.(description := value)
  }

  /** An entry is its six fields and nothing more. */
  lemma FieldsDetermineEntry(a: Experience, b: Experience)
    requires forall f :: Get(a, f) == Get(b, f)
    ensures a == b
  {
    assert Get(a, Id) == Get(b, Id) && Get(a, Company) == Get(b, Company) && Get(a, Role) == Get(b, Role);
    assert Get(a, StartDate) == Get(b, StartDate) && Get(a, EndDate) == Get(b, EndDate);
    assert Get(a, Description) == Get(b, Description);
  }

  /** The entry `addExperience` appends: the given id, every other field empty. */
  function BlankEntry(id: string): (e: Experience)
    ensures Get(e, Id) == id
    ensures forall f :: f != Id ==> Get(e, f) == ""
  {
    Experience(id, "", "", "", "", "")
  }

  /** `addExperience`: one blank entry with the given id at the end; the entries before it untouched. */
  function AddExperience(xs: seq<Experience>, id: string): (r: seq<Experience>)
    ensures |r| == |xs| + 1 && r[..|xs|] == xs
    ensures r[|xs|].id == id && forall f :: f != Id ==> Get(r[|xs|], f) == ""
  {
    assert (xs + [BlankEntry(id)])[..|xs|] == xs;
    xs + [BlankEntry(id)]
  }

  predicate HasOtherId(id: string, e: Experience) {
    e.id != id
  }

  /** `removeExperience`: the entries whose id differs, in their original order. */
  function RemoveExperience(xs: seq<Experience>, id: string): (r: seq<Experience>)
    ensures forall e :: e in r <==> e in xs && e.id != id
    ensures (forall i :: 0 <= i < |xs| ==> xs[i].id != id) ==> r == xs
  {
    var keep := (e: Experience) => HasOtherId(id, e);
    assert (forall i :: 0 <= i < |xs| ==> xs[i].id != id) ==> Lists.Filter(xs, keep) == xs by {
      if forall i :: 0 <= i < |xs| ==> xs[i].id != id {
        Lists.FilterKeepsAll(xs, keep);
      }
    }
    Lists.Filter(xs, keep)
  }

  /**
   * Removal works entry by entry: an entry is kept exactly when its id
   * differs, and the kept entries of a list's two parts come in the parts'
   * order.
   */
  lemma RemoveInOrder(a: seq<Experience>, b: seq<Experience>, id: string)
    ensures RemoveExperience(a + b, id) == RemoveExperience(a, id) + RemoveExperience(b, id)
    ensures forall e :: RemoveExperience([e], id) == if e.id != id then [e] else []
  {
    Lists.FilterAppend(a, b, (e: Experience) => HasOtherId(id, e));
    forall e ensures RemoveExperience([e], id) == if e.id != id then [e] else [] {
      Lists.FilterSingle(e, (e: Experience) => HasOtherId(id, e));
    }
  }

  /** Removing a freshly added id, one that no other entry carries, gives back the list. */
  lemma RemoveUndoesAdd(xs: seq<Experience>, id: string)
    requires forall i :: 0 <= i < |xs| ==> xs[i].id != id
    ensures RemoveExperience(AddExperience(xs, id), id) == xs
  {
    RemoveInOrder(xs, [BlankEntry(id)], id);
    assert AddExperience(xs, id) == xs + [BlankEntry(id)];
    assert xs + [] == xs;
  }

  /** `handleExperienceChange`: the entry with the id gets the new field value; every other entry is kept. */
  function ChangeExperience(xs: seq<Experience>, id: string, f: ExperienceField, value: string): (r: seq<Experience>)
    ensures |r| == |xs|
    ensures forall i :: 0 <= i < |xs| && xs[i].id != id ==> r[i] == xs[i]
    ensures forall i :: 0 <= i < |xs| && xs[i].id == id ==>
      Get(r[i], f) == value && forall g :: g != f ==> Get(r[i], g) == Get(xs[i], g)
    ensures (forall i :: 0 <= i < |xs| ==> xs[i].id != id) ==> r == xs
  {
    Lists.Map(xs, (e: Experience) => if e.id == id then SetField(e, f, value) else e)
  }

  /** A second change of the same field of the same entries overrides the first. */
  lemma ChangeOverrides(xs: seq<Experience>, id: string, f: ExperienceField, v: string, w: string)
    requires f != Id
    ensures ChangeExperience(ChangeExperience(xs, id, f, v), id, f, w) == ChangeExperience(xs, id, f, w)
  {
    var a, b := ChangeExperience(ChangeExperience(xs, id, f, v), id, f, w), ChangeExperience(xs, id, f, w);
    forall i | 0 <= i < |xs| ensures a[i] == b[i] {
      forall g ensures Get(a[i], g) == Get(b[i], g) {}
      FieldsDetermineEntry(a[i], b[i]);
    }
  }
}
