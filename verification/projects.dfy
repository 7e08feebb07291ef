/**
 * The project gallery (src/components/Projects.jsx): records built from a fixed key list by
 * translating derived keys, the category filter, and the modal state.
 */
module Projects {
  import opened Wrappers
  import I18n

  /** The keys of the projects shown, in display order. */
  const ProjectKeys: seq<string> := [
    "project_bsh_master",
    "project_haering_bachelor",
    "project_sdos",
    "project_ur10e",
    "project_vw_factory"
  ]

  /** The filter value that shows every project. */
  const AllFilter := "all"

  datatype Project = Project(
    id: string,
    title: string,
    period: string,
    description: string,
    result: string,
    category: string,
    challenge: string,
    solution: string,
    tools: string,
    image: string,
    video: string)

  /** `key.replace(/_/g, '-')`: every underscore becomes a hyphen, every other character stays. */
  function BaseName(key: string): (r: string)
    ensures |r| == |key|
    ensures '_' !in r
    ensures forall i :: 0 <= i < |key| && key[i] != '_' ==> r[i] == key[i]
    ensures forall i :: 0 <= i < |key| && key[i] == '_' ==> r[i] == '-'
  {
    if key == [] then []
    else [if key[0] == '_' then '-' else key[0]] + BaseName(key[1..])
  }

  function ImagePath(key: string): string
  {
    "/assets/images/" + BaseName(key) + "-thumbnail.jpg"
  }

  function VideoPath(key: string): string
  {
    "/assets/videos/" + BaseName(key) + "-demo.mp4"
  }

  /** The record for one key: each text field is the translation of `<key>_<field>`. */
  function LoadProject(key: string, t: map<string, string>): (p: Project)
    ensures p.id == key
    ensures p.title == I18n.Translate(t, key + "_title")
    ensures p.period == I18n.Translate(t, key + "_period")
    ensures p.description == I18n.Translate(t, key + "_description")
    ensures p.result == I18n.Translate(t, key + "_result")
    ensures p.category == I18n.Translate(t, key + "_category")
    ensures p.challenge == I18n.TranslateOr(t, key + "_challenge", "")
    ensures p.solution == I18n.TranslateOr(t, key + "_solution", "")
    ensures p.tools == I18n.TranslateOr(t, key + "_tools", "")
    ensures p.image == "/assets/images/" + BaseName(key) + "-thumbnail.jpg"
    ensures p.video == "/assets/videos/" + BaseName(key) + "-demo.mp4"
  {
    Project(
      id := key,
      title := I18n.Translate(t, key + "_title"),
      period := I18n.Translate(t, key + "_period"),
      description := I18n.Translate(t, key + "_description"),
      result := I18n.Translate(t, key + "_result"),
      category := I18n.Translate(t, key + "_category"),
      challenge := I18n.TranslateOr(t, key + "_challenge", ""),
      solution := I18n.TranslateOr(t, key + "_solution", ""),
      tools := I18n.TranslateOr(t, key + "_tools", ""),
      image := ImagePath(key),
      video := VideoPath(key))
  }

  /** `loadProjects`: one record per key, in the order of the keys. */
  function LoadProjects(keys: seq<string>, t: map<string, string>): (r: seq<Project>)
    ensures |r| == |keys|
    ensures forall i :: 0 <= i < |keys| ==> r[i] == LoadProject(keys[i], t)
  {
    seq(|keys|, i requires 0 <= i < |keys| => LoadProject(keys[i], t))
  }

  /** The callback given to `projects.filter`. */
  predicate Keeps(filter: string, p: Project)
  {
    filter == AllFilter || p.category == filter
  }

  /** `a` is `b` with some elements left out, the rest in their order. */
  ghost predicate IsSubsequence<T>(a: seq<T>, b: seq<T>)
    decreases |b|
  {
    a == [] || (b != [] && ((a[0] == b[0] && IsSubsequence(a[1..], b[1..])) || IsSubsequence(a, b[1..])))
  }

  /**
   * `filteredProjects`: the records the filter keeps, in their order. With `'all'` that is
   * the whole list; otherwise exactly the records of that category, each as often as it occurs.
   */
  function FilterProjects(ps: seq<Project>, filter: string): (r: seq<Project>)
    ensures filter == AllFilter ==> r == ps
    ensures IsSubsequence(r, ps)
    ensures forall p :: p in r ==> Keeps(filter, p)
    ensures forall p :: multiset(r)[p] == if Keeps(filter, p) then multiset(ps)[p] else 0
  {
    if ps == [] then []
    else
      var rest := FilterProjects(ps[1..], filter);
      assert ps == [ps[0]] + ps[1..];
      if Keeps(filter, ps[0]) then [ps[0]] + rest else rest
  }

  /** Filtering what a filter has already selected changes nothing. */
  lemma {:induction false} FilterIdempotent(ps: seq<Project>, filter: string)
    ensures FilterProjects(FilterProjects(ps, filter), filter) == FilterProjects(ps, filter)
  {
    if ps != [] {
      FilterIdempotent(ps[1..], filter);
      var rest := FilterProjects(ps[1..], filter);
      if Keeps(filter, ps[0]) {
        assert ([ps[0]] + rest)[1..] == rest;
      }
    }
  }

  /** Keys that differ in length, or in a character that is not an underscore, keep distinct base names. */
  lemma BaseNamesDiffer(a: string, b: string, k: nat)
    requires |a| != |b| || (k < |a| == |b| && a[k] != b[k] && a[k] != '_' && b[k] != '_')
    ensures BaseName(a) != BaseName(b)
  {
  }

  /** Distinct base names give distinct image and video paths. */
  lemma AssetPathsDiffer(a: string, b: string)
    requires BaseName(a) != BaseName(b)
    ensures ImagePath(a) != ImagePath(b)
    ensures VideoPath(a) != VideoPath(b)
  {
    var x, y := BaseName(a), BaseName(b);
    assert ImagePath(a)[15..15 + |x|] == x;
    assert ImagePath(b)[15..15 + |y|] == y;
    assert VideoPath(a)[15..15 + |x|] == x;
    assert VideoPath(b)[15..15 + |y|] == y;
  }

  /** The five keys have pairwise distinct base names. */
  lemma ProjectBaseNamesDistinct()
    ensures forall i, j :: 0 <= i < j < |ProjectKeys| ==> BaseName(ProjectKeys[i]) != BaseName(ProjectKeys[j])
  {
    forall i, j | 0 <= i < j < |ProjectKeys|
      ensures BaseName(ProjectKeys[i]) != BaseName(ProjectKeys[j])
    {
      BaseNamesDiffer(ProjectKeys[i], ProjectKeys[j], 8);
    }
  }

  /** The five projects have distinct ids and do not share an image or a video. */
  lemma ProjectAssetsDistinct(t: map<string, string>)
    ensures var ps := LoadProjects(ProjectKeys, t);
      |ps| == |ProjectKeys| &&
      forall i, j :: 0 <= i < j < |ps| ==>
        ps[i].id != ps[j].id && ps[i].image != ps[j].image && ps[i].video != ps[j].video
  {
    var ps := LoadProjects(ProjectKeys, t);
    ProjectBaseNamesDistinct();
    forall i, j | 0 <= i < j < |ps|
      ensures ps[i].id != ps[j].id && ps[i].image != ps[j].image && ps[i].video != ps[j].video
    {
      AssetPathsDiffer(ProjectKeys[i], ProjectKeys[j]);
    }
  }

  // ---------------------------------------------------------------------------------------
  // The component's state cells

  class ProjectsSection {
    var projects: seq<Project>
    var filter: string
    var selected: Option<Project>
    var showFullDescription: bool
    /** Whether `loadProjects` is subscribed to i18next's `languageChanged` event. */
    var subscribed: bool

    /** Mounting: initial state cells, then the effect that loads the records and subscribes. */
    constructor (t: map<string, string>)
      ensures projects == LoadProjects(ProjectKeys, t)
      ensures filter == AllFilter && selected == None && !showFullDescription && subscribed
      ensures Visible() == projects
    {
      selected := None;
      filter := AllFilter;
      showFullDescription := false;
      projects := [];
      subscribed := false;
      new;
      projects := LoadProjects(ProjectKeys, t);
      subscribed := true;
    }

    /** The projects on display. */
    function Visible(): seq<Project>
      reads this
    {
      FilterProjects(projects, filter)
    }

    /** A filter button. */
    method SetFilter(f: string)
      modifies this`filter
      ensures filter == f
      ensures Visible() == FilterProjects(projects, f)
      ensures f == AllFilter ==> Visible() == projects
    {
      filter := f;
    }

    method OpenModal(p: Project)
      modifies this`selected, this`showFullDescription
      ensures selected == Some(p) && !showFullDescription
    {
      selected := Some(p);
      showFullDescription := false;
    }

    method CloseModal()
      modifies this`selected
      ensures selected == None
    {
      selected := None;
    }

    method ToggleDescription()
      modifies this`showFullDescription
      ensures showFullDescription == !old(showFullDescription)
    {
      showFullDescription := !showFullDescription;
    }

    /** i18next switched to the catalogue `t`: the whole list is rebuilt from it. */
    method LanguageChanged(t: map<string, string>)
      modifies this`projects
      ensures subscribed ==> projects == LoadProjects(ProjectKeys, t)
      ensures !subscribed ==> projects == old(projects)
    {
      if subscribed {
        projects := LoadProjects(ProjectKeys, t);
      }
    }

    /** The effect's clean-up: `i18n.off('languageChanged', loadProjects)`. */
    method Unmount()
      modifies this`subscribed
      ensures !subscribed
    {
      subscribed := false;
    }
  }
}
