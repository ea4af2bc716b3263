/** The Keystone project reconciler (`OpenstackProject`): it looks a project up by name in the
    listing Keystone returns, then leaves it alone, creates it or deletes it so that its presence
    matches the `state` parameter. */
module OsProjects {
  import opened Runtime
  import opened PercentFormat

  /** A Keystone project record, as far as the reconciler reads it. */
  datatype Project = Project(name: string, id: string)

  /** What one Keystone call does: hands back a value, or raises an exception whose `str` is `message`. */
  datatype Reply<T> = Ok(value: T) | Error(message: string)

  /** The Keystone calls the reconciler makes, in the order it makes them. */
  datatype Call = ListProjects
                | CreateProject(name: string, domainId: string, description: string)
                | DeleteProject(project: Project)

  /** The module parameters the reconciler reads (the credentials only reach Keystone's session). */
  datatype Params = Params(newProjectName: string, projectDomainId: Option<string>,
                           projectDescription: Option<string>, state: State)

  /** How a run ends: `exit_json(changed, result, project_id)`, `fail_json(msg)` (which ends the
      process), or a Python exception escaping the module. */
  datatype Exit = Exit(changed: bool, result: Option<string>, projectId: Option<string>)
                | Failed(message: string)
                | Crashed(error: string)

  /** What `state_create_project` and `state_delete_project` hand back: `(changed, value)`, or the
      message they pass to `fail_json`. */
  datatype Step<T> = Step(changed: bool, value: T) | Fail(message: string)

  // ---------------------------------------------------------------------------------------------
  // Messages and defaults

  const DefaultDomainId := "default"
  const DescriptionTemplate := "New Project: %s"
  const CreateFailedTemplate := "Failed to create project: %s "
  const DeleteFailedTemplate := "Failed to delete Project: %s "

  lemma DescriptionFormat(name: string)
    ensures Format(DescriptionTemplate, [name]) == Some("New Project: " + name)
  {
    assert DescriptionTemplate == "New Project: " + "%s" + "";
    assert NoPercent("New Project: ") && NoPercent("");
    FormatOne("New Project: ", "", name);
    assert "New Project: " + name + "" == "New Project: " + name;
  }

  lemma CreateFailedFormat(e: string)
    ensures Format(CreateFailedTemplate, [e]) == Some("Failed to create project: " + e + " ")
  {
    assert CreateFailedTemplate == "Failed to create project: " + "%s" + " ";
    assert NoPercent("Failed to create project: ") && NoPercent(" ");
    FormatOne("Failed to create project: ", " ", e);
  }

  lemma DeleteFailedFormat(e: string)
    ensures Format(DeleteFailedTemplate, [e]) == Some("Failed to delete Project: " + e + " ")
  {
    assert DeleteFailedTemplate == "Failed to delete Project: " + "%s" + " ";
    assert NoPercent("Failed to delete Project: ") && NoPercent(" ");
    FormatOne("Failed to delete Project: ", " ", e);
  }

  /** The domain id the reconciler creates projects in: the parameter when it is set and non-empty,
      `'default'` otherwise. */
  function DomainIdOf(projectDomainId: Option<string>): (domainId: string)
    ensures NonEmpty(projectDomainId) ==> domainId == projectDomainId.value
    ensures !NonEmpty(projectDomainId) ==> domainId == "default"
  {
    if NonEmpty(projectDomainId) then projectDomainId.value else DefaultDomainId
  }

  /** The description of a new project: the parameter when it is set and non-empty, otherwise
      `'New Project: %s' % name`. */
  function DescriptionOf(projectDescription: Option<string>, name: string): (description: string)
    ensures NonEmpty(projectDescription) ==> description == projectDescription.value
    ensures !NonEmpty(projectDescription) ==> description == "New Project: " + name
  {
    if NonEmpty(projectDescription) then projectDescription.value
    else
      DescriptionFormat(name);
      Format(DescriptionTemplate, [name]).value
  }

  /** The message `fail_json` gets when creating the project raised `e`. */
  function CreateFailure(e: string): (msg: string)
    ensures msg == "Failed to create project: " + e + " "
  {
    CreateFailedFormat(e);
    Format(CreateFailedTemplate, [e]).value
  }

  /** The message `fail_json` gets when deleting the project raised `e`. */
  function DeleteFailure(e: string): (msg: string)
    ensures msg == "Failed to delete Project: " + e + " "
  {
    DeleteFailedFormat(e);
    Format(DeleteFailedTemplate, [e]).value
  }

  // ---------------------------------------------------------------------------------------------
  // Looking a project up by name

  /** `[p for p in projects if p.name == name]`. */
  function Matching(projects: seq<Project>, name: string): (r: seq<Project>)
    ensures |r| <= |projects|
    ensures forall p :: p in r <==> p in projects && p.name == name
  {
    if projects == [] then []
    else (if projects[0].name == name then [projects[0]] else []) + Matching(projects[1..], name)
  }

  /** The position of the first project called `name`, if there is one. */
  function FirstNamed(projects: seq<Project>, name: string): (i: Option<nat>)
    ensures i.None? <==> forall j :: 0 <= j < |projects| ==> projects[j].name != name
    ensures i.Some? ==> i.value < |projects| && projects[i.value].name == name
    ensures i.Some? ==> forall j :: 0 <= j < i.value ==> projects[j].name != name
  {
    if projects == [] then None
    else if projects[0].name == name then Some(0)
    else
      var rest := FirstNamed(projects[1..], name);
      if rest.None? then None
      else
        assert forall j :: 1 <= j < rest.value + 1 ==> projects[j] == projects[1..][j - 1];
        Some(rest.value + 1)
  }

  /** The comprehension is empty exactly when no project has the name, and otherwise it starts with
      the first project that has it. */
  lemma {:induction false} MatchingFirst(projects: seq<Project>, name: string)
    ensures Matching(projects, name) == [] <==> FirstNamed(projects, name).None?
    ensures Matching(projects, name) != [] ==> Matching(projects, name)[0] == projects[FirstNamed(projects, name).value]
  {
    if projects != [] && projects[0].name != name {
      MatchingFirst(projects[1..], name);
    }
  }

  // ---------------------------------------------------------------------------------------------
  // The branches of `run_state`

  datatype Branch = Unchanged | Create | Delete

  /** The branch of `run_state` that runs for the current and desired states. Its three tests run
      one after another rather than as an `elif` chain; each holds exactly when its branch is the
      one chosen here, so for any pair of states exactly one of them holds. */
  function BranchOf(current: State, desired: State): (b: Branch)
    ensures b == Unchanged <==> current == desired
    ensures b == Create <==> current == Absent && desired == Present
    ensures b == Delete <==> current == Present && desired == Absent
  {
    match (current, desired)
    case (Present, Present) => Unchanged
    case (Absent, Absent) => Unchanged
    case (Absent, Present) => Create
    case (Present, Absent) => Delete
  }

  // ---------------------------------------------------------------------------------------------
  // Keystone

  /** `ks.projects` for one run: the projects it lists, how it answers a create (the new project's
      id, or an exception) and a delete (the result, already passed through `str`, or an
      exception), and the calls made on it so far. */
  class Keystone {
    const listing: seq<Project>
    const createReply: Reply<string>
    const deleteReply: Reply<seq<string>>
    var calls: seq<Call>

    constructor(listing: seq<Project>, createReply: Reply<string>, deleteReply: Reply<seq<string>>)
      ensures this.listing == listing && this.createReply == createReply && this.deleteReply == deleteReply
      ensures calls == []
    {
      this.listing := listing;
      this.createReply := createReply;
      this.deleteReply := deleteReply;
      calls := [];
    }

    /** `ks.projects.list()`. */
    method List() returns (projects: seq<Project>)
      modifies this
      ensures projects == listing
      ensures calls == old(calls) + [ListProjects]
    {
      calls := calls + [ListProjects];
      projects := listing;
    }

    /** `ks.projects.create(name, domain_id, description)`: the new project carries the name it was
      created with. */
    method Create(name: string, domainId: string, description: string) returns (r: Reply<Project>)
      modifies this
      ensures createReply.Ok? ==> r == Ok(Project(name, createReply.value))
      ensures createReply.Error? ==> r == Error(createReply.message)
      ensures calls == old(calls) + [CreateProject(name, domainId, description)]
    {
      calls := calls + [CreateProject(name, domainId, description)];
      if createReply.Ok? {
        r := Ok(Project(name, createReply.value));
      } else {
        r := Error(createReply.message);
      }
    }

    /** `ks.projects.delete(project)`. */
    method Delete(project: Project) returns (r: Reply<seq<string>>)
      modifies this
      ensures r == deleteReply
      ensures calls == old(calls) + [DeleteProject(project)]
    {
      calls := calls + [DeleteProject(project)];
      r := deleteReply;
    }
  }

  // ---------------------------------------------------------------------------------------------
  // The reconciler

  class OpenstackProject {
    const projectName: string
    const projectDomainId: string
    const projectDescription: string
    const desired: State
    const ks: Keystone
    var projectId: Option<string>
    var project: Option<Project>

    /** `__init__`: fills in the domain id and description defaults; no project is known yet. */
    constructor(p: Params, ks: Keystone)
      ensures projectName == p.newProjectName && desired == p.state && this.ks == ks
      ensures projectDomainId == DomainIdOf(p.projectDomainId)
      ensures projectDescription == DescriptionOf(p.projectDescription, p.newProjectName)
      ensures projectId == None && project == None
    {
      projectName := p.newProjectName;
      projectDomainId := DomainIdOf(p.projectDomainId);
      projectDescription := DescriptionOf(p.projectDescription, p.newProjectName);
      desired := p.state;
      this.ks := ks;
      projectId := None;
      project := None;
    }

    /** `check_project_state()`: lists the projects and reports "absent" when none has the name;
        otherwise records the first one that has it and reports "present". */
    method CheckProjectState() returns (current: State)
      modifies this, ks
      ensures ks.calls == old(ks.calls) + [ListProjects]
      ensures var first := FirstNamed(ks.listing, projectName);
        && (current == Absent <==> first.None?)
        && (first.None? ==> projectId == old(projectId) && project == old(project))
        && (first.Some? ==> project == Some(ks.listing[first.value])
                            && projectId == Some(ks.listing[first.value].id))
    {
      var projects := ks.List();
      var matching := Matching(projects, projectName);
      MatchingFirst(projects, projectName);
      if matching == [] {
        return Absent;
      }
      projectId := Some(matching[0].id);
      project := Some(matching[0]);
      current := Present;
    }

    /** `state_exit_unchanged()`: no change, and the id `check_project_state` recorded, if any. */
    function StateExitUnchanged(): (r: (bool, Option<string>))
      reads this
      ensures !r.0 && r.1 == projectId
    {
      (false, projectId)
    }

    /** `state_create_project(name, domain_id, description)`: creates the project, or fails the
        module with the exception's text. */
    method StateCreateProject(name: string, domainId: string, description: string) returns (step: Step<Project>)
      modifies ks
      ensures ks.calls == old(ks.calls) + [CreateProject(name, domainId, description)]
      ensures ks.createReply.Ok? ==> step == Step(true, Project(name, ks.createReply.value))
      ensures ks.createReply.Error? ==> step == Fail(CreateFailure(ks.createReply.message))
    {
      var r := ks.Create(name, domainId, description);
      if r.Error? {
        return Fail(CreateFailure(r.message));
      }
      step := Step(true, r.value);
    }

    /** `state_delete_project(project)`: deletes the project, or fails the module with the
        exception's text. */
    method StateDeleteProject(project: Project) returns (step: Step<seq<string>>)
      modifies ks
      ensures ks.calls == old(ks.calls) + [DeleteProject(project)]
      ensures ks.deleteReply.Ok? ==> step == Step(true, ks.deleteReply.value)
      ensures ks.deleteReply.Error? ==> step == Fail(DeleteFailure(ks.deleteReply.message))
    {
      var r := ks.Delete(project);
      if r.Error? {
        return Fail(DeleteFailure(r.message));
      }
      step := Step(true, r.value);
    }

    /** `run_state()`: looks the project up, then runs the one branch whose test holds. Only a
        create or delete that succeeds reports a change; one that raises fails the module. */
    method RunState() returns (exit: Exit)
      modifies this, ks
      ensures FirstNamed(ks.listing, projectName).None? && desired == Absent ==>
        && exit == Exit(false, old(projectId), old(projectId))
        && ks.calls == old(ks.calls) + [ListProjects]
      ensures FirstNamed(ks.listing, projectName).Some? && desired == Present ==>
        var id := ks.listing[FirstNamed(ks.listing, projectName).value].id;
        && exit == Exit(false, Some(id), Some(id))
        && ks.calls == old(ks.calls) + [ListProjects]
      ensures FirstNamed(ks.listing, projectName).None? && desired == Present ==>
        && ks.calls == old(ks.calls) + [ListProjects] + [CreateProject(projectName, projectDomainId, projectDescription)]
        && (ks.createReply.Ok? ==>
              var id := ks.createReply.value;
              exit == Exit(true, Some(id), Some(id)) && projectId == Some(id))
        && (ks.createReply.Error? ==> exit == Failed(CreateFailure(ks.createReply.message)))
      ensures FirstNamed(ks.listing, projectName).Some? && desired == Absent ==>
        var found := ks.listing[FirstNamed(ks.listing, projectName).value];
        && ks.calls == old(ks.calls) + [ListProjects] + [DeleteProject(found)]
        && (ks.deleteReply.Ok? && ks.deleteReply.value != [] ==>
              exit == Exit(true, Some(ks.deleteReply.value[0]), Some(found.id)))
        && (ks.deleteReply.Ok? && ks.deleteReply.value == [] ==> exit == Crashed("IndexError"))
        && (ks.deleteReply.Error? ==> exit == Failed(DeleteFailure(ks.deleteReply.message)))
      ensures var first := FirstNamed(ks.listing, projectName);
        && (first.Some? ==> project == Some(ks.listing[first.value])
                            && projectId == Some(ks.listing[first.value].id))
        && (first.None? ==> project == old(project))
        && (first.None? && !(desired == Present && ks.createReply.Ok?) ==> projectId == old(projectId))
      ensures exit.Exit? ==> exit.projectId == projectId
    {
      var changed, result := false, None;
      var current := CheckProjectState();
      var branch := BranchOf(current, desired);
      if branch == Unchanged {
        var kept := StateExitUnchanged();
        changed, result := kept.0, kept.1;
      }
      if branch == Create {
        var created := StateCreateProject(projectName, projectDomainId, projectDescription);
        if created.Fail? {
          return Failed(created.message);
        }
        changed := created.changed;
        projectId := Some(created.value.id);
        result := projectId;
      }
      if branch == Delete {
        var deleted := StateDeleteProject(project.value);
        if deleted.Fail? {
          return Failed(deleted.message);
        }
        changed := deleted.changed;
        if deleted.value == [] {
          return Crashed("IndexError");
        }
        result := Some(deleted.value[0]);
      }
      exit := Exit(changed, result, projectId);
    }
  }

  /** `main()`: builds the reconciler and runs it once. On a fresh object no id is known, so a
      project that is absent and meant to be absent is reported with none; the other three cases
      are those of `run_state`, with the defaulted domain id and description in the create call. */
  method RunModule(p: Params, ks: Keystone) returns (exit: Exit)
    modifies ks
    ensures FirstNamed(ks.listing, p.newProjectName).None? && p.state == Absent ==>
      && exit == Exit(false, None, None)
      && ks.calls == old(ks.calls) + [ListProjects]
    ensures FirstNamed(ks.listing, p.newProjectName).Some? && p.state == Present ==>
      var id := ks.listing[FirstNamed(ks.listing, p.newProjectName).value].id;
      && exit == Exit(false, Some(id), Some(id))
      && ks.calls == old(ks.calls) + [ListProjects]
    ensures FirstNamed(ks.listing, p.newProjectName).None? && p.state == Present ==>
      && ks.calls == old(ks.calls) + [ListProjects]
           + [CreateProject(p.newProjectName, DomainIdOf(p.projectDomainId),
                            DescriptionOf(p.projectDescription, p.newProjectName))]
      && (ks.createReply.Ok? ==> exit == Exit(true, Some(ks.createReply.value), Some(ks.createReply.value)))
      && (ks.createReply.Error? ==> exit == Failed(CreateFailure(ks.createReply.message)))
    ensures FirstNamed(ks.listing, p.newProjectName).Some? && p.state == Absent ==>
      var found := ks.listing[FirstNamed(ks.listing, p.newProjectName).value];
      && ks.calls == old(ks.calls) + [ListProjects] + [DeleteProject(found)]
      && (ks.deleteReply.Ok? && ks.deleteReply.value != [] ==>
            exit == Exit(true, Some(ks.deleteReply.value[0]), Some(found.id)))
      && (ks.deleteReply.Ok? && ks.deleteReply.value == [] ==> exit == Crashed("IndexError"))
      && (ks.deleteReply.Error? ==> exit == Failed(DeleteFailure(ks.deleteReply.message)))
  {
    var reconciler := new OpenstackProject(p, ks);
    exit := reconciler.RunState();
  }
}
