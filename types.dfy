/**
 * The portfolio record the wizard collects. Every string field defaults to
 * the empty string; the two project links are the only optional fields; the
 * three design choices are closed enumerations whose wire names are the
 * string literals of the union types.
 */
module Types {
  import opened Optional

  datatype BasicInfo = BasicInfo(name: string, title: string, bio: string, profilePicture: string)

  datatype Skills = Skills(technical: seq<string>, tools: seq<string>, soft: seq<string>)

  datatype Experience = Experience(
    id: string, company: string, role: string,
    startDate: string, endDate: string, description: string)

  datatype Project = Project(
    id: string, title: string, description: string,
    githubLink: Option<string>, demoLink: Option<string>)

  datatype Theme = Light | Dark

  datatype ColorScheme = Blue | Green | Purple | Orange | Cyan

  datatype Layout = OnePage | MultiPage

  datatype Design = Design(theme: Theme, colorScheme: ColorScheme, layout: Layout)

  datatype PortfolioData = PortfolioData(
    basicInfo: BasicInfo, skills: Skills, experience: seq<Experience>,
    projects: seq<Project>, design: Design)

  /** The keys of a portfolio record: `keyof PortfolioData`. */
  datatype Section = BasicInfoKey | SkillsKey | ExperienceKey | ProjectsKey | DesignKey

  /** A key together with a value of that key's type: the pair `(section, data: PortfolioData[section])`. */
  datatype SectionValue =
    | BasicInfoValue(basicInfo: BasicInfo)
    | SkillsValue(skills: Skills)
    | ExperienceValue(experience: seq<Experience>)
    | ProjectsValue(projects: seq<Project>)
    | DesignValue(design: Design)
  {
    function Key(): Section {
      match this
      case BasicInfoValue(_) => BasicInfoKey
      case SkillsValue(_) => SkillsKey
      case ExperienceValue(_) => ExperienceKey
      case ProjectsValue(_) => ProjectsKey
      case DesignValue(_) => DesignKey
    }
  }

  /** `data[section]`. */
  function Read(data: PortfolioData, section: Section): (v: SectionValue)
    ensures v.Key() == section
  {
    match section
    case BasicInfoKey => BasicInfoValue(data.basicInfo)
    case SkillsKey => SkillsValue(data.skills)
    case ExperienceKey => ExperienceValue(data.experience)
    case ProjectsKey => ProjectsValue(data.projects)
    case DesignKey => DesignValue(data.design)
  }

  /** A portfolio record is its five sections and nothing more: records that agree on every key are equal. */
  lemma SectionsDetermineData(a: PortfolioData, b: PortfolioData)
    requires forall s :: Read(a, s) == Read(b, s)
    ensures a == b
  {
    assert Read(a, BasicInfoKey) == Read(b, BasicInfoKey);
    assert Read(a, SkillsKey) == Read(b, SkillsKey);
    assert Read(a, ExperienceKey) == Read(b, ExperienceKey);
    assert Read(a, ProjectsKey) == Read(b, ProjectsKey);
    assert Read(a, DesignKey) == Read(b, DesignKey);
  }

  const AllThemes: seq<Theme> := [Light, Dark]
  const AllColorSchemes: seq<ColorScheme> := [Blue, Green, Purple, Orange, Cyan]
  const AllLayouts: seq<Layout> := [OnePage, MultiPage]

  /** Each enumeration list names every member exactly once. */
  lemma EnumerationsComplete()
    ensures forall t: Theme :: t in AllThemes
    ensures forall c: ColorScheme :: c in AllColorSchemes
    ensures forall l: Layout :: l in AllLayouts
    ensures |AllThemes| == 2 && AllThemes[0] != AllThemes[1]
    ensures |AllColorSchemes| == 5 && forall i, j :: 0 <= i < j < 5 ==> AllColorSchemes[i] != AllColorSchemes[j]
    ensures |AllLayouts| == 2 && AllLayouts[0] != AllLayouts[1]
  {
    forall t: Theme ensures t in AllThemes {
      match t
      case Light => assert AllThemes[0] == t;
      case Dark => assert AllThemes[1] == t;
    }
    forall c: ColorScheme ensures c in AllColorSchemes {
      match c
      case Blue => assert AllColorSchemes[0] == c;
      case Green => assert AllColorSchemes[1] == c;
      case Purple => assert AllColorSchemes[2] == c;
      case Orange => assert AllColorSchemes[3] == c;
      case Cyan => assert AllColorSchemes[4] == c;
    }
    forall l: Layout ensures l in AllLayouts {
      match l
      case OnePage => assert AllLayouts[0] == l;
      case MultiPage => assert AllLayouts[1] == l;
    }
  }

  /** The string literal of a theme. */
  function ThemeName(t: Theme): string {
    match t
    case Light => "light"
    case Dark => "dark"
  }

  /** The string literal of a colour scheme. */
  function ColorSchemeName(c: ColorScheme): string {
    match c
    case Blue => "blue"
    case Green => "green"
    case Purple => "purple"
    case Orange => "orange"
    case Cyan => "cyan"
  }

  /** The string literal of a layout. */
  function LayoutName(l: Layout): string {
    match l
    case OnePage => "one-page"
    case MultiPage => "multi-page"
  }

  /** The theme a string names, if it names one: exactly "light" and "dark" do. */
  function ThemeFromName(s: string): (r: Option<Theme>)
    ensures r.Some? <==> s == "light" || s == "dark"
    ensures r.Some? ==> ThemeName(r.value) == s
    ensures forall t :: ThemeName(t) == s ==> r == Some(t)
  {
    if s == "light" then Some(Light) else if s == "dark" then Some(Dark) else None
  }

  /** The colour scheme a string names, if it names one. */
  function ColorSchemeFromName(s: string): (r: Option<ColorScheme>)
    ensures r.Some? <==> s in {"blue", "green", "purple", "orange", "cyan"}
    ensures r.Some? ==> ColorSchemeName(r.value) == s
    ensures forall c :: ColorSchemeName(c) == s ==> r == Some(c)
  {
    if s == "blue" then Some(Blue)
    else if s == "green" then Some(Green)
    else if s == "purple" then Some(Purple)
    else if s == "orange" then Some(Orange)
    else if s == "cyan" then Some(Cyan)
    else None
  }

  /** The layout a string names, if it names one. */
  function LayoutFromName(s: string): (r: Option<Layout>)
    ensures r.Some? <==> s == "one-page" || s == "multi-page"
    ensures r.Some? ==> LayoutName(r.value) == s
    ensures forall l :: LayoutName(l) == s ==> r == Some(l)
  {
    if s == "one-page" then Some(OnePage) else if s == "multi-page" then Some(MultiPage) else None
  }
}
