/** The projects step: a form for one project, an upsert keyed on the
    project id, removal by id, and a tech-stack editor inside the form. */
module Projects {
  import opened Wrappers
  import opened Text
  import opened Labels
  import opened Portfolio
  import opened Wizard

  /** The cleared form: empty texts, empty tech stack, both links empty. */
  const EmptyForm := Project("", "", "", [], Links(Some(""), Some("")), "")

  /** The guard of `addProject`: title and description are non-empty
      (whitespace counts as content; nothing is trimmed). */
  predicate CanSubmit(form: Project) {
    form.title != "" && form.description != ""
  }

  /** `projects.map(p => p.id === id ? project : p)`: same length, every
      entry with that id replaced, every other entry kept in place. */
  function ReplaceById(ps: seq<Project>, id: string, project: Project): (r: seq<Project>)
    ensures |r| == |ps|
    ensures forall i :: 0 <= i < |ps| ==> r[i] == if ps[i].id == id then project else ps[i]
  {
    if ps == [] then []
    else [if ps[0].id == id then project else ps[0]] + ReplaceById(ps[1..], id, project)
  }

  /** `projects.filter(p => p.id !== id)`: every entry with that id goes,
      every other entry keeps its number of occurrences. */
  function RemoveById(ps: seq<Project>, id: string): (r: seq<Project>)
    ensures forall p {:trigger multiset(r)[p]} :: multiset(r)[p] == if p.id == id then 0 else multiset(ps)[p]
    ensures |r| <= |ps|
  {
    if ps == [] then []
    else
      assert ps == [ps[0]] + ps[1..];
      if ps[0].id == id then RemoveById(ps[1..], id)
      else [ps[0]] + RemoveById(ps[1..], id)
  }

  /** The list `addProject` writes when its guard holds. A form without an id
      is appended under `freshId`; a form with an id replaces the entries
      carrying that id, and leaves the list alone when none does. */
  function Upsert(ps: seq<Project>, form: Project, freshId: string): (r: seq<Project>)
    ensures form.id == "" ==> |r| == |ps| + 1 && r[..|ps|] == ps && r[|ps|] == form.(id := freshId)
    ensures form.id != "" ==> |r| == |ps|
    ensures form.id != "" ==> forall i :: 0 <= i < |ps| ==> r[i] == if ps[i].id == form.id then form else ps[i]
    ensures form.id != "" && form.id !in Ids(ps) ==> r == ps
  {
    var toAdd := form.(id := if form.id != "" then form.id else freshId);
    if form.id != "" then ReplaceById(ps, form.id, toAdd) else ps + [toAdd]
  }

  /** The id list after an upsert: unchanged for an update, one fresh id
      appended for an insert. */
  lemma UpsertIds(ps: seq<Project>, form: Project, freshId: string)
    ensures Ids(Upsert(ps, form, freshId)) == if form.id == "" then Ids(ps) + [freshId] else Ids(ps)
  {
    var r := Upsert(ps, form, freshId);
    if form.id == "" {
      assert Ids(r)[|ps|] == freshId;
    }
  }

  /** Unique ids stay unique across an upsert, provided the id offered for an
      insert is not already in use (the code does not check this itself). */
  lemma UpsertKeepsIdsDistinct(ps: seq<Project>, form: Project, freshId: string)
    requires Distinct(Ids(ps))
    requires form.id == "" ==> freshId !in Ids(ps)
    ensures Distinct(Ids(Upsert(ps, form, freshId)))
  {
    UpsertIds(ps, form, freshId);
  }

  /** Submitting a project loaded unchanged from a list with unique ids
      leaves the list as it was. */
  lemma ResubmitUnchanged(ps: seq<Project>, p: Project, freshId: string)
    requires Distinct(Ids(ps)) && p in ps && p.id != ""
    ensures Upsert(ps, p, freshId) == ps
  {
    var r := Upsert(ps, p, freshId);
    var k :| 0 <= k < |ps| && ps[k] == p;
    forall i | 0 <= i < |ps|
      ensures r[i] == ps[i]
    {
      if ps[i].id == p.id {
        assert Ids(ps)[i] == Ids(ps)[k];
      }
    }
  }

  /** Removal by id works piecewise, so the surviving projects keep their order. */
  lemma {:induction false} RemoveByIdAppend(a: seq<Project>, b: seq<Project>, id: string)
    ensures RemoveById(a + b, id) == RemoveById(a, id) + RemoveById(b, id)
    decreases |a|
  {
    if a == [] {
      assert a + b == b;
    } else {
      assert (a + b)[0] == a[0] && (a + b)[1..] == a[1..] + b;
      RemoveByIdAppend(a[1..], b, id);
    }
  }

  /** The id list after removing `id` is the id list with `id` filtered out. */
  lemma {:induction false} RemoveByIdIds(ps: seq<Project>, id: string)
    ensures Ids(RemoveById(ps, id)) == RemoveLabel(Ids(ps), id)
    decreases |ps|
  {
    if ps != [] {
      RemoveByIdIds(ps[1..], id);
      assert Ids(ps) == [ps[0].id] + Ids(ps[1..]);
      if ps[0].id != id {
        assert Ids([ps[0]] + RemoveById(ps[1..], id)) == [ps[0].id] + Ids(RemoveById(ps[1..], id));
      }
    }
  }

  class ProjectsStep {
    var showForm: bool
    var currentProject: Project
    /** The text in the tech-stack input. */
    var newTech: string

    constructor ()
      ensures !showForm && currentProject == EmptyForm && newTech == ""
    {
      showForm := false;
      currentProject := EmptyForm;
      newTech := "";
    }

    /** The "Add Project" button: opens the form as it is. */
    method OpenForm()
      modifies this`showForm
      ensures showForm
    {
      showForm := true;
    }

    method SetTitle(value: string)
      modifies this`currentProject
      ensures currentProject == old(currentProject).(title := value)
    {
      currentProject := currentProject.(title := value);
    }

    method SetDescription(value: string)
      modifies this`currentProject
      ensures currentProject == old(currentProject).(description := value)
    {
      currentProject := currentProject.(description := value);
    }

    method SetGithub(value: string)
      modifies this`currentProject
      ensures currentProject == old(currentProject).(links := old(currentProject.links).(github := Some(value)))
    {
      currentProject := currentProject.(links := currentProject.links.(github := Some(value)));
    }

    method SetLive(value: string)
      modifies this`currentProject
      ensures currentProject == old(currentProject).(links := old(currentProject.links).(live := Some(value)))
    {
      currentProject := currentProject.(links := currentProject.links.(live := Some(value)));
    }

    method SetImage(value: string)
      modifies this`currentProject
      ensures currentProject == old(currentProject).(image := value)
    {
      currentProject := currentProject.(image := value);
    }

    method SetNewTech(value: string)
      modifies this`newTech
      ensures newTech == value
    {
      newTech := value;
    }

    /** `resetForm` (also the Cancel button): clear the form and hide it; the
        tech input keeps its text. */
    method ResetForm()
      modifies this`currentProject, this`showForm
      ensures currentProject == EmptyForm && !showForm
    {
      currentProject := EmptyForm;
      showForm := false;
    }

    /** `addProject`: when title and description are non-empty, upsert the
        form into the projects list (a fresh id for a new project) and reset
        the form; otherwise change nothing. `freshId` stands for the clock
        reading the code uses as a new id, which is never empty. */
    method AddProject(host: Builder, freshId: string)
      requires freshId != ""
      modifies this`currentProject, this`showForm, host`portfolioData
      ensures CanSubmit(old(currentProject)) ==>
        && host.portfolioData == old(host.portfolioData).(projects := Upsert(old(host.portfolioData.projects), old(currentProject), freshId))
        && currentProject == EmptyForm && !showForm
      ensures !CanSubmit(old(currentProject)) ==>
        host.portfolioData == old(host.portfolioData) && currentProject == old(currentProject) && showForm == old(showForm)
    {
      if currentProject.title != "" && currentProject.description != "" {
        var data := host.portfolioData;
        var projectToAdd := currentProject.(id := if currentProject.id != "" then currentProject.id else freshId);
        if currentProject.id != "" {
          host.UpdateData(data.(projects := ReplaceById(data.projects, currentProject.id, projectToAdd)));
        } else {
          host.UpdateData(data.(projects := data.projects + [projectToAdd]));
        }
        ResetForm();
      }
    }

    /** `editProject`: load a project into the form and show it. */
    method EditProject(project: Project)
      modifies this`currentProject, this`showForm
      ensures currentProject == project && showForm
    {
      currentProject := project;
      showForm := true;
    }

    /** `removeProject`: drop every project with that id. */
    method RemoveProject(host: Builder, id: string)
      modifies host`portfolioData
      ensures host.portfolioData == old(host.portfolioData).(projects := RemoveById(old(host.portfolioData.projects), id))
    {
      var data := host.portfolioData;
      host.UpdateData(data.(projects := RemoveById(data.projects, id)));
    }

    /** `addTech`: the skills rule applied to the form's tech stack; on success
        the tech input is cleared. */
    method AddTech()
      modifies this`currentProject, this`newTech
      ensures currentProject == old(currentProject).(techStack := AddLabel(old(currentProject.techStack), old(newTech)))
      ensures newTech == if Admits(old(currentProject.techStack), old(newTech)) then "" else old(newTech)
    {
      var tech := Trim(newTech);
      if tech != "" && tech !in currentProject.techStack {
        currentProject := currentProject.(techStack := currentProject.techStack + [tech]);
        newTech := "";
      }
    }

    /** `removeTech`: drop every copy of `tech` from the form's tech stack. */
    method RemoveTech(tech: string)
      modifies this`currentProject
      ensures currentProject == old(currentProject).(techStack := RemoveLabel(old(currentProject.techStack), tech))
    {
      currentProject := currentProject.(techStack := RemoveLabel(currentProject.techStack, tech));
    }
  }
}
