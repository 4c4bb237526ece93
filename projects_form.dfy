/**
 * The projects editor: the same add, remove-by-id and change-by-id edits
 * as the experience editor, over projects, whose two links are the only
 * fields that may be missing.
 */
module ProjectsForm {
  import opened Optional
  import opened Types
  import Lists

  /** `keyof Project`. */
  datatype ProjectField = Id | Title | Description | GithubLink | DemoLink

  /** The fields a project must have; the two links may be missing. */
  predicate Required(f: ProjectField) {
    !(f == GithubLink || f == DemoLink)
  }

  /** `proj[field]`, with `None` for a missing link. */
  function Get(p: Project, f: ProjectField): (v: Option<string>)
    ensures Required(f) ==> v.Some?
  {
    match f
    case Id => Some(p.id)
    case Title => Some(p.title)
    case Description => Some(p.description)
    case GithubLink => p.githubLink
    case DemoLink => p.demoLink
  }

  /** `Project[K]`: a required field takes a string, a link a string or nothing. */
  predicate FitsField(f: ProjectField, value: Option<string>) {
    Required(f) ==> value.Some?
  }

  /** `{ ...proj, [field]: value }`: the field reads back as given and every other field is as it was. */
  function SetField(p: Project, f: ProjectField, value: Option<string>): (r: Project)
    requires FitsField(f, value)
    ensures Get(r, f) == value
    ensures forall g :: g != f ==> Get(r, g) == Get(p, g)
  {
    match f
    case Id => p.(id := value.value)
    case Title => p.(title := value.value)
    case Description => p.(description := value.value)
    case GithubLink => p.(githubLink := value)
    case DemoLink => p.(demoLink := value)
  }

  /** A project is its five fields and nothing more. */
  lemma FieldsDetermineProject(a: Project, b: Project)
    requires forall f :: Get(a, f) == Get(b, f)
    ensures a == b
  {
    assert Get(a, Id) == Get(b, Id) && Get(a, Title) == Get(b, Title);
    assert Get(a, Description) == Get(b, Description);
    assert Get(a, GithubLink) == Get(b, GithubLink) && Get(a, DemoLink) == Get(b, DemoLink);
  }

  /** The project `addProject` appends: the given id, every other field present and empty. */
  function BlankProject(id: string): (p: Project)
    ensures Get(p, Id) == Some(id)
    ensures forall f :: f != Id ==> Get(p, f) == Some("")
  {
    Project(id, "", "", Some(""), Some(""))
  }

  /** `addProject`: one blank project with the given id at the end; the projects before it untouched. */
  function AddProject(xs: seq<Project>, id: string): (r: seq<Project>)
    ensures |r| == |xs| + 1 && r[..|xs|] == xs
    ensures r[|xs|].id == id && forall f :: f != Id ==> Get(r[|xs|], f) == Some("")
  {
    assert (xs + [BlankProject(id)])[..|xs|] == xs;
    xs + [BlankProject(id)]
  }

  predicate HasOtherId(id: string, p: Project) {
    p.id != id
  }

  /** `removeProject`: the projects whose id differs, in their original order. */
  function RemoveProject(xs: seq<Project>, id: string): (r: seq<Project>)
    ensures forall p :: p in r <==> p in xs && p.id != id
    ensures (forall i :: 0 <= i < |xs| ==> xs[i].id != id) ==> r == xs
  {
    var keep := (p: Project) => HasOtherId(id, p);
    assert (forall i :: 0 <= i < |xs| ==> xs[i].id != id) ==> Lists.Filter(xs, keep) == xs by {
      if forall i :: 0 <= i < |xs| ==> xs[i].id != id {
        Lists.FilterKeepsAll(xs, keep);
      }
    }
    Lists.Filter(xs, keep)
  }

  /**
   * Removal works project by project: a project is kept exactly when its
   * id differs, and the kept projects of a list's two parts come in the
   * parts' order.
   */
  lemma RemoveInOrder(a: seq<Project>, b: seq<Project>, id: string)
    ensures RemoveProject(a + b, id) == RemoveProject(a, id) + RemoveProject(b, id)
    ensures forall p :: RemoveProject([p], id) == if p.id != id then [p] else []
  {
    Lists.FilterAppend(a, b, (p: Project) => HasOtherId(id, p));
    forall p ensures RemoveProject([p], id) == if p.id != id then [p] else [] {
      Lists.FilterSingle(p, (p: Project) => HasOtherId(id, p));
    }
  }

  /** Removing a freshly added id, one that no other project carries, gives back the list. */
  lemma RemoveUndoesAdd(xs: seq<Project>, id: string)
    requires forall i :: 0 <= i < |xs| ==> xs[i].id != id
    ensures RemoveProject(AddProject(xs, id), id) == xs
  {
    RemoveInOrder(xs, [BlankProject(id)], id);
    assert AddProject(xs, id) == xs + [BlankProject(id)];
    assert xs + [] == xs;
  }

  /** `handleProjectChange`: the projects with the id get the new field value; every other project is kept. */
  function ChangeProject(xs: seq<Project>, id: string, f: ProjectField, value: Option<string>): (r: seq<Project>)
    requires FitsField(f, value)
    ensures |r| == |xs|
    ensures forall i :: 0 <= i < |xs| && xs[i].id != id ==> r[i] == xs[i]
    ensures forall i :: 0 <= i < |xs| && xs[i].id == id ==>
      Get(r[i], f) == value && forall g :: g != f ==> Get(r[i], g) == Get(xs[i], g)
    ensures (forall i :: 0 <= i < |xs| ==> xs[i].id != id) ==> r == xs
  {
    Lists.Map(xs, (p: Project) => if p.id == id then SetField(p, f, value) else p)
  }

  /** A second change of the same field of the same projects overrides the first. */
  lemma ChangeOverrides(xs: seq<Project>, id: string, f: ProjectField, v: Option<string>, w: Option<string>)
    requires f != Id && FitsField(f, v) && FitsField(f, w)
    ensures ChangeProject(ChangeProject(xs, id, f, v), id, f, w) == ChangeProject(xs, id, f, w)
  {
    var a, b := ChangeProject(ChangeProject(xs, id, f, v), id, f, w), ChangeProject(xs, id, f, w);
    forall i | 0 <= i < |xs| ensures a[i] == b[i] {
      forall g ensures Get(a[i], g) == Get(b[i], g) {}
      FieldsDetermineProject(a[i], b[i]);
    }
  }
}
