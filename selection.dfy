/**
  The derived values of the master/detail views (projects, the company sections, and the
  simplified projects view): the tag bar, the tag filter, the first-match lookups of the
  selected entity and of its active child, the stage badges and the connector lines.
*/
module Selection {
  import opened Wrappers
  import opened ArrayOps
  import opened MockApi
  import opened Decimal

  // ---- Tags and filtering ----

  /** The tag that stands for "no filter". */
  const AllTag := "all"

  /** The tags of one project, as the function `flatMap` is given. */
  function TagsOf(p: Project): seq<string> {
    p.tags
  }

  /** `projects.flatMap(p => p.tags)`: every tag of every project, project by project. */
  function ProjectTags(projects: seq<Project>): (r: seq<string>)
    ensures forall t :: t in r ==> exists p :: p in projects && t in p.tags
    ensures forall p, t :: p in projects && t in p.tags ==> t in r
    ensures |projects| == 0 ==> r == []
    ensures |projects| == 1 ==> r == projects[0].tags
  {
    var r := FlatMap(projects, TagsOf);
    assert forall t :: t in r ==> exists p :: p in projects && t in p.tags by {
      forall t | t in r ensures exists p :: p in projects && t in p.tags {
        var i :| 0 <= i < |projects| && t in projects[i].tags;
      }
    }
    r
  }

  /** The tags of the projects of `ps` come before those of `qs`, each in its own order. */
  lemma ProjectTagsAppend(ps: seq<Project>, qs: seq<Project>)
    ensures ProjectTags(ps + qs) == ProjectTags(ps) + ProjectTags(qs)
  {
    FlatMapAppend(ps, qs, TagsOf);
  }

  /** On the fixtures the tag bar's source lists the first project's tags, then the second's. */
  lemma FixtureProjectTags()
    ensures ProjectTags(GetProjects()) == GetProjects()[0].tags + GetProjects()[1].tags
  {
    var ps := GetProjects();
    assert ps == [ps[0]] + [ps[1]];
    ProjectTagsAppend([ps[0]], [ps[1]]);
  }

  /**
    `allTags`: `'all'` followed by every tag of every project once, in the order in which the
    tags first occur.
  */
  function AllTags(projects: seq<Project>): (r: seq<string>)
    ensures |r| >= 1 && r[0] == AllTag
    ensures forall t :: t in r[1..] ==> exists p :: p in projects && t in p.tags
    ensures forall p, t :: p in projects && t in p.tags ==> t in r[1..]
    ensures NoDuplicates(r[1..])
    ensures forall i, j :: 1 <= i < j < |r| ==> IndexOf(ProjectTags(projects), r[i]) < IndexOf(ProjectTags(projects), r[j])
  {
    var d := Distinct(ProjectTags(projects));
    assert ([AllTag] + d)[1..] == d;
    [AllTag] + d
  }

  /** `filteredProjects`: everything under `'all'`, otherwise the projects carrying the tag, in order. */
  function FilterByTag(projects: seq<Project>, tag: string): (r: seq<Project>)
    ensures tag == AllTag ==> r == projects
    ensures tag != AllTag ==> IsSubsequence(r, projects)
    ensures tag != AllTag ==> forall p :: p in r <==> p in projects && tag in p.tags
    ensures tag != AllTag ==> forall p :: p in projects && tag in p.tags ==> multiset(r)[p] == multiset(projects)[p]
  {
    if tag == AllTag then projects else Filter(projects, (p: Project) => tag in p.tags)
  }

  /** Every button of the tag bar shows at least one project. */
  lemma TagButtonsSelectSomething(projects: seq<Project>, tag: string)
    requires tag in AllTags(projects)
    requires |projects| > 0
    ensures |FilterByTag(projects, tag)| > 0
  {
    if tag != AllTag {
      var r := AllTags(projects);
      var i :| 0 <= i < |r| && r[i] == tag;
      assert tag in r[1..];
      var p :| p in projects && tag in p.tags;
      assert p in FilterByTag(projects, tag);
    }
  }

  // ---- Lookups ----

  /** `projects.find(p => p.id === selectedProject)` */
  function ProjectById(projects: seq<Project>, id: string): (r: Option<Project>)
    ensures r.Some? ==> r.value in projects && r.value.id == id
    ensures r.None? <==> forall p :: p in projects ==> p.id != id
  {
    Find(projects, (p: Project) => p.id == id)
  }

  /** `stages.find(stage => stage.id === activeStage)` */
  function StageById(stages: seq<ProcessStep>, id: int): (r: Option<ProcessStep>)
    ensures r.Some? ==> r.value in stages && r.value.id == id
    ensures r.None? <==> forall s :: s in stages ==> s.id != id
  {
    Find(stages, (s: ProcessStep) => s.id == id)
  }

  /** `sections.find(s => s.id === selectedSection)` */
  function SectionById(sections: seq<CompanySection>, id: string): (r: Option<CompanySection>)
    ensures r.Some? ==> r.value in sections && r.value.id == id
    ensures r.None? <==> forall s :: s in sections ==> s.id != id
  {
    Find(sections, (s: CompanySection) => s.id == id)
  }

  /** `items.find(item => item.id === activeItem)` */
  function ItemById(items: seq<CompanyItem>, id: int): (r: Option<CompanyItem>)
    ensures r.Some? ==> r.value in items && r.value.id == id
    ensures r.None? <==> forall it :: it in items ==> it.id != id
  {
    Find(items, (it: CompanyItem) => it.id == id)
  }

  /** `currentStage`: the active stage of the current project, absent when either is missing. */
  function CurrentStage(project: Option<Project>, activeStage: int): (r: Option<ProcessStep>)
    ensures r.Some? ==> project.Some? && r.value in project.value.stages && r.value.id == activeStage
    ensures r.None? <==> project.None? || forall s :: s in project.value.stages ==> s.id != activeStage
  {
    match project
    case None => None
    case Some(p) => StageById(p.stages, activeStage)
  }

  /** `currentItem`: the active item of the current section, absent when either is missing. */
  function CurrentItem(section: Option<CompanySection>, activeItem: int): (r: Option<CompanyItem>)
    ensures r.Some? ==> section.Some? && r.value in section.value.items && r.value.id == activeItem
    ensures r.None? <==> section.None? || forall it :: it in section.value.items ==> it.id != activeItem
  {
    match section
    case None => None
    case Some(s) => ItemById(s.items, activeItem)
  }

  /** With duplicate ids the lookup still returns the first project carrying the id. */
  lemma ProjectByIdIsFirst(projects: seq<Project>, k: nat)
    requires k < |projects|
    requires forall j :: 0 <= j < k ==> projects[j].id != projects[k].id
    ensures ProjectById(projects, projects[k].id) == Some(projects[k])
  {
    FindReturnsFirstMatch(projects, (p: Project) => p.id == projects[k].id, k);
  }

  /** With unique ids, looking up the id of any project gives that project. */
  lemma ProjectByIdOfUnique(projects: seq<Project>, k: nat)
    requires ProjectIdsUnique(projects) && k < |projects|
    ensures ProjectById(projects, projects[k].id) == Some(projects[k])
  {
    ProjectByIdIsFirst(projects, k);
  }

  /** With unique ids, looking up the id of any section gives that section. */
  lemma SectionByIdOfUnique(sections: seq<CompanySection>, k: nat)
    requires SectionIdsUnique(sections) && k < |sections|
    ensures SectionById(sections, sections[k].id) == Some(sections[k])
  {
    FindReturnsFirstMatch(sections, (s: CompanySection) => s.id == sections[k].id, k);
  }

  /** For stages numbered 1..n, stage `j` is found exactly when `1 <= j <= n`, and it is the `j`-th one. */
  lemma StageByIdOfNumbered(stages: seq<ProcessStep>, j: int)
    requires StagesNumbered(stages)
    ensures StageById(stages, j) == if 1 <= j <= |stages| then Some(stages[j - 1]) else None
  {
    if 1 <= j <= |stages| {
      FindReturnsFirstMatch(stages, (s: ProcessStep) => s.id == j, j - 1);
    } else {
      forall s | s in stages ensures s.id != j {
        var i :| 0 <= i < |stages| && stages[i] == s;
      }
    }
  }

  /** For items numbered 1..n, item `j` is found exactly when `1 <= j <= n`, and it is the `j`-th one. */
  lemma ItemByIdOfNumbered(items: seq<CompanyItem>, j: int)
    requires ItemsNumbered(items)
    ensures ItemById(items, j) == if 1 <= j <= |items| then Some(items[j - 1]) else None
  {
    if 1 <= j <= |items| {
      FindReturnsFirstMatch(items, (it: CompanyItem) => it.id == j, j - 1);
    } else {
      forall it | it in items ensures it.id != j {
        var i :| 0 <= i < |items| && items[i] == it;
      }
    }
  }

  /**
    Why selecting a project resets to stage 1: on well-formed data, whatever project is found,
    stage 1 is its first stage.
  */
  lemma ResetStageIsFound(projects: seq<Project>, id: string)
    requires WellFormedProjects(projects)
    requires ProjectById(projects, id).Some?
    ensures CurrentStage(ProjectById(projects, id), 1) == Some(ProjectById(projects, id).value.stages[0])
  {
    StageByIdOfNumbered(ProjectById(projects, id).value.stages, 1);
  }

  /** On well-formed sections, item 1 of whatever section is found is its first item. */
  lemma ResetItemIsFound(sections: seq<CompanySection>, id: string)
    requires WellFormedSections(sections)
    requires SectionById(sections, id).Some?
    ensures CurrentItem(SectionById(sections, id), 1) == Some(SectionById(sections, id).value.items[0])
  {
    ItemByIdOfNumbered(SectionById(sections, id).value.items, 1);
  }

  /** The initial selection (`'1'`, 1) resolves in the fixtures to the first project's first stage. */
  lemma DefaultProjectSelectionResolves(ps: seq<Project>)
    requires ps == GetProjects()
    ensures CurrentStage(ProjectById(ps, "1"), 1) == Some(ps[0].stages[0])
  {
    ProjectByIdOfUnique(ps, 0);
    ResetStageIsFound(ps, "1");
  }

  /** The initial selection (`'1'`, 1) resolves in the fixtures to the first section's first item. */
  lemma DefaultSectionSelectionResolves(ss: seq<CompanySection>)
    requires ss == GetCompanySections()
    ensures CurrentItem(SectionById(ss, "1"), 1) == Some(ss[0].items[0])
  {
    SectionByIdOfUnique(ss, 0);
    ResetItemIsFound(ss, "1");
  }

  // ---- The list column ----

  /** The children shown under a parent entry: all of them for the selected parent, none otherwise. */
  function ExpandedChildren<C>(parentId: string, selected: string, children: seq<C>): (r: seq<C>)
    ensures |r| > 0 ==> parentId == selected
    ensures parentId == selected ==> r == children
  {
    if parentId == selected then children else []
  }

  /** With unique ids at most one entry of the list is expanded. */
  lemma AtMostOneExpanded(projects: seq<Project>, selected: string, i: nat, j: nat)
    requires ProjectIdsUnique(projects) && i < |projects| && j < |projects|
    requires |ExpandedChildren(projects[i].id, selected, projects[i].stages)| > 0
    requires |ExpandedChildren(projects[j].id, selected, projects[j].stages)| > 0
    ensures i == j
  {
  }

  /** Number of `true` entries. */
  function CountTrue(bs: seq<bool>): nat {
    if |bs| == 0 then 0 else CountTrue(bs[..|bs| - 1]) + (if bs[|bs| - 1] then 1 else 0)
  }

  /** Whether a connector line follows entry `index` of a list of `n`: `index < n - 1`. */
  function Connectors(n: nat): (r: seq<bool>)
    ensures |r| == n
    ensures forall i :: 0 <= i < n ==> (r[i] <==> i + 1 < n)
  {
    seq(n, i => i < n - 1)
  }

  lemma {:induction false} CountTrueAllTrue(bs: seq<bool>)
    requires forall i :: 0 <= i < |bs| ==> bs[i]
    ensures CountTrue(bs) == |bs|
    decreases |bs|
  {
    if |bs| > 0 {
      CountTrueAllTrue(bs[..|bs| - 1]);
    }
  }

  /** A list of `n` entries draws `n - 1` connector lines (none for an empty list). */
  lemma ConnectorCount(n: nat)
    ensures CountTrue(Connectors(n)) == if n == 0 then 0 else n - 1
  {
    if n > 0 {
      var bs := Connectors(n);
      CountTrueAllTrue(bs[..n - 1]);
    }
  }

  /** The badge of the child at `index`: `${parentId}.${index + 1}`. */
  function BadgeLabel(parentId: string, index: nat): (r: string)
    ensures |r| > |parentId| + 1
    ensures r[..|parentId|] == parentId && r[|parentId|] == '.'
    ensures forall k :: |parentId| < k < |r| ==> IsDigit(r[k])
    ensures DecimalValue(r[|parentId| + 1..]) == index + 1
    ensures r[|parentId| + 1..] == NatToDecimal(index + 1)
  {
    var r := parentId + "." + NatToDecimal(index + 1);
    assert r[|parentId| + 1..] == NatToDecimal(index + 1);
    DecimalRoundTrip(index + 1);
    r
  }

  /** Within one parent, different positions get different badges. */
  lemma BadgeLabelsDiffer(parentId: string, i: nat, j: nat)
    requires i != j
    ensures BadgeLabel(parentId, i) != BadgeLabel(parentId, j)
  {
  }

  /** The badge counts positions, not ids; on numbered stages the two agree, so the badge shows the stage id. */
  lemma BadgeShowsStageId(parentId: string, stages: seq<ProcessStep>, i: nat)
    requires StagesNumbered(stages) && i < |stages|
    ensures BadgeLabel(parentId, i) == parentId + "." + NatToDecimal(stages[i].id as nat)
  {
  }
}
