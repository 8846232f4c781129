/** The project detail page: which project a route id selects, and whether the
    page shows live links or the image gallery. */
module ProjectDetail {
  import opened JsText
  import opened Catalogue

  /** `id || '1'`: a missing or empty route parameter reads as "1". */
  function RouteText(id: Option<string>): (r: string)
    ensures r != []
    ensures id.Some? && id.value != [] ==> r == id.value
    ensures id.None? || id.value == [] ==> r == "1"
  {
    match id
    case Some(v) => if v != [] then v else "1"
    case None => "1"
  }

  /** The parsed route id, possibly NaN. */
  function ProjectId(id: Option<string>): IntOrNaN {
    ParseInt(RouteText(id))
  }

  /** `find` by strict equality of ids; NaN equals nothing. */
  function FindIndex(ps: seq<Project>, pid: IntOrNaN): (r: Option<nat>)
    ensures r.Some? ==>
      && r.value < |ps| && pid == Int(ps[r.value].id)
      && (forall j :: 0 <= j < r.value ==> pid != Int(ps[j].id))
    ensures r.None? <==> forall j :: 0 <= j < |ps| ==> pid != Int(ps[j].id)
  {
    if ps == [] then None
    else if pid == Int(ps[0].id) then Some(0)
    else match FindIndex(ps[1..], pid)
      case Some(k) => Some(k + 1)
      case None => None
  }

  /** The page's project: the first with the parsed id, else the first entry. */
  function SelectProject(id: Option<string>): (p: Project)
    ensures p in ProjectsData
  {
    SelectIn(ProjectsData, ProjectId(id))
  }

  /** `projectsData.find(p => p.id === projectId) || projectsData[0]` over a
      non-empty list. */
  function SelectIn(ps: seq<Project>, pid: IntOrNaN): (p: Project)
    requires ps != []
    ensures p in ps
  {
    match FindIndex(ps, pid)
    case Some(k) => ps[k]
    case None => ps[0]
  }

  /** The client websites entry shows live links; all others the gallery. */
  predicate UsesLiveLinks(p: Project) {
    p.id == 7
  }

  /** Entry i of the list has id i + 1. */
  predicate RankedIds(ps: seq<Project>) {
    forall i :: 0 <= i < |ps| ==> ps[i].id == i + 1
  }

  /** The entry at position i has id i + 1. */
  lemma IdsAreRanks()
    ensures |ProjectsData| == 8
    ensures RankedIds(ProjectsData)
  {
    ProjectIds();
  }

  /** In a list whose ids are the ranks, `find` locates id k at position
      k - 1, and finds nothing for any other value, NaN included. */
  lemma FindInRanked(ps: seq<Project>, pid: IntOrNaN)
    requires RankedIds(ps)
    ensures pid.Int? && 1 <= pid.value <= |ps| ==> FindIndex(ps, pid) == Some(pid.value - 1)
    ensures !(pid.Int? && 1 <= pid.value <= |ps|) ==> FindIndex(ps, pid) == None
  {
    if pid.Int? && 1 <= pid.value <= |ps| {
      assert pid == Int(ps[pid.value - 1].id);
    }
  }

  /** Selection in a rank-numbered list: id k picks entry k - 1, anything
      else the first entry. */
  lemma SelectInRanked(ps: seq<Project>, pid: IntOrNaN)
    requires ps != [] && RankedIds(ps)
    ensures pid.Int? && 1 <= pid.value <= |ps| ==> SelectIn(ps, pid) == ps[pid.value - 1]
    ensures !(pid.Int? && 1 <= pid.value <= |ps|) ==> SelectIn(ps, pid) == ps[0]
  {
    FindInRanked(ps, pid);
  }

  /** An id from 1 to 8 selects the entry with that id; anything else,
      NaN included, falls back to the first entry. */
  lemma SelectionByParsedId(id: Option<string>)
    ensures ProjectId(id).Int? && 1 <= ProjectId(id).value <= 8 ==>
      SelectProject(id) == ProjectsData[ProjectId(id).value - 1]
    ensures !(ProjectId(id).Int? && 1 <= ProjectId(id).value <= 8) ==>
      SelectProject(id) == ProjectsData[0]
  {
    IdsAreRanks();
    SelectInRanked(ProjectsData, ProjectId(id));
  }

  /** The catalogue lookup finds position id - 1 for ids 1 to 8 and nothing
      otherwise. */
  lemma FindByRank(pid: IntOrNaN)
    ensures pid.Int? && 1 <= pid.value <= 8 ==> FindIndex(ProjectsData, pid) == Some(pid.value - 1)
    ensures !(pid.Int? && 1 <= pid.value <= 8) ==> FindIndex(ProjectsData, pid) == None
  {
    IdsAreRanks();
    FindInRanked(ProjectsData, pid);
  }

  /** The id of the selected entry: the parsed id when it is a rank, else 1. */
  lemma SelectedId(ps: seq<Project>, pid: IntOrNaN)
    requires ps != [] && RankedIds(ps)
    ensures SelectIn(ps, pid).id == if pid.Int? && 1 <= pid.value <= |ps| then pid.value else 1
  {
    SelectInRanked(ps, pid);
  }

  /** The page shows live links exactly when the route id parses to 7. */
  lemma LiveLinksOnlyForSeven(id: Option<string>)
    ensures UsesLiveLinks(SelectProject(id)) <==> ProjectId(id) == Int(7)
  {
    IdsAreRanks();
    SelectedId(ProjectsData, ProjectId(id));
  }

  /** A missing or empty route id shows the first project. */
  lemma MissingIdShowsFirst(id: Option<string>)
    requires id.None? || id.value == []
    ensures SelectProject(id) == ShadowCloak
  {
    ParseIntRoundTrip(1);
    assert NatToString(1) == "1";
    SelectionByParsedId(id);
  }

  /** `parseInt` reads a leading number and ignores the rest: "3abc" selects
      the third project, and "abc" (NaN) falls back to the first. */
  lemma PrefixParsedIds()
    ensures SelectProject(Some("3abc")) == BrainTumorDetection
    ensures SelectProject(Some("abc")) == ShadowCloak
  {
    ThirdFromPrefix();
    FirstFromText();
  }

  lemma ThirdFromPrefix()
    ensures SelectProject(Some("3abc")) == BrainTumorDetection
  {
    RouteThree();
    SelectionByParsedId(Some("3abc"));
    ThirdEntry();
  }

  lemma RouteThree()
    ensures ProjectId(Some("3abc")) == Int(3)
  {
    assert RouteText(Some("3abc")) == "3abc";
    ParseIntStopsAtText();
  }

  lemma ThirdEntry()
    ensures ProjectsData[2] == BrainTumorDetection
  {
  }

  lemma FirstFromText()
    ensures SelectProject(Some("abc")) == ShadowCloak
  {
    var id := Some("abc");
    assert RouteText(id) == "abc";
    ParseIntNaN();
    assert ProjectId(id) == NaN;
    SelectionByParsedId(id);
  }
}
