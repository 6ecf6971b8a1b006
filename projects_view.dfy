/**
  The state of the projects view: the loaded projects, the loading flag and the selection
  (tag, project, stage), changed by the loader and by the click handlers. The simplified
  projects view keeps the same state but renders no tag bar: it never calls `SelectTag`, so
  its filter stays `'all'` and it lists every loaded project.
*/
module ProjectsSection {
  import opened Wrappers
  import opened MockApi
  import opened Selection

  class ProjectsView {
    var projects: seq<Project>
    var loading: bool
    var selectedTag: string
    var selectedProject: string
    var activeStage: int

    /** The initial state: nothing loaded yet, no filter, project `'1'`, stage 1. */
    constructor ()
      ensures projects == [] && loading
      ensures selectedTag == AllTag && selectedProject == "1" && activeStage == 1
    {
      projects := [];
      loading := true;
      selectedTag := AllTag;
      selectedProject := "1";
      activeStage := 1;
    }

    /** `allTags` */
    function Tags(): (r: seq<string>)
      reads this
      ensures |r| >= 1 && r[0] == AllTag
      ensures forall p, t :: p in projects && t in p.tags ==> t in r[1..]
    {
      AllTags(projects)
    }

    /** `filteredProjects` */
    function Visible(): (r: seq<Project>)
      reads this
      ensures selectedTag == AllTag ==> r == projects
      ensures selectedTag != AllTag ==> forall p :: p in r <==> p in projects && selectedTag in p.tags
    {
      FilterByTag(projects, selectedTag)
    }

    /** `currentProject` */
    function Current(): (r: Option<Project>)
      reads this
      ensures r.Some? ==> r.value in projects && r.value.id == selectedProject
      ensures r.None? <==> forall p :: p in projects ==> p.id != selectedProject
    {
      ProjectById(projects, selectedProject)
    }

    /** `currentStage` */
    function Stage(): (r: Option<ProcessStep>)
      reads this
      ensures r.Some? ==> Current().Some? && r.value in Current().value.stages && r.value.id == activeStage
      ensures r.None? <==> Current().None? || forall s :: s in Current().value.stages ==> s.id != activeStage
    {
      CurrentStage(Current(), activeStage)
    }

    /**
      The loader: the fetched projects are stored when the fetch delivers them (`Some`), and
      `loading` is cleared in the `finally` block whether or not it did. The selection is not touched.
    */
    method Load(outcome: Option<seq<Project>>)
      modifies this
      ensures projects == if outcome.Some? then outcome.value else old(projects)
      ensures !loading
      ensures selectedTag == old(selectedTag) && selectedProject == old(selectedProject)
      ensures activeStage == old(activeStage)
    {
      if outcome.Some? {
        projects := outcome.value;
      }
      loading := false;
    }

    /**
      A tag button. Only the filter changes: the selected project and stage stay, so the detail
      panels keep showing a project the new filter may hide.
    */
    method SelectTag(tag: string)
      modifies this
      ensures selectedTag == tag
      ensures projects == old(projects) && loading == old(loading)
      ensures selectedProject == old(selectedProject) && activeStage == old(activeStage)
      ensures Current() == old(Current()) && Stage() == old(Stage())
      ensures Visible() == FilterByTag(projects, tag)
    {
      selectedTag := tag;
    }

    /**
      A project button: selects the project and goes back to stage 1, also when it was already
      selected. On well-formed data that stage is the project's first one.
    */
    method SelectProject(id: string)
      modifies this
      ensures selectedProject == id && activeStage == 1
      ensures projects == old(projects) && loading == old(loading) && selectedTag == old(selectedTag)
      ensures WellFormedProjects(projects) && Current().Some? ==> Stage() == Some(Current().value.stages[0])
    {
      selectedProject := id;
      activeStage := 1;
      if WellFormedProjects(projects) && Current().Some? {
        ResetStageIsFound(projects, id);
      }
    }

    /**
      A stage button: only the active stage changes. For stages numbered 1..n the `id`-th
      stage becomes the current one.
    */
    method SelectStage(id: int)
      modifies this
      ensures activeStage == id
      ensures projects == old(projects) && loading == old(loading)
      ensures selectedTag == old(selectedTag) && selectedProject == old(selectedProject)
      ensures Current() == old(Current())
      ensures Current().Some? && StagesNumbered(Current().value.stages) && 1 <= id <= |Current().value.stages|
              ==> Stage() == Some(Current().value.stages[id - 1])
    {
      activeStage := id;
      if Current().Some? && StagesNumbered(Current().value.stages) {
        StageByIdOfNumbered(Current().value.stages, id);
      }
    }
  }

  /** The view mounted and loaded from the fixtures shows the first project's first stage. */
  method MountWithFixtures() returns (v: ProjectsView)
    ensures fresh(v)
    ensures !v.loading && v.projects == GetProjects()
    ensures v.Visible() == GetProjects()
    ensures v.Stage() == Some(GetProjects()[0].stages[0])
  {
    v := new ProjectsView();
    var data := GetProjects();
    v.Load(Some(data));
    DefaultProjectSelectionResolves(data);
  }
}
