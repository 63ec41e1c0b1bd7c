/** The controller of the Project kind: Observe, Create, Update and Delete. */
module ProjectController {
  import opened Wrappers
  import opened Helpers
  import opened Constants
  import V1alpha1
  import opened CodeFreshClient
  import opened Managed

  /** The payload of the update request: a map with the keys projectName, tags and
      variables. */
  datatype ProjectUpdateParams = ProjectUpdateParams(
    projectName: string,
    tags: seq<string>,
    variables: seq<ProjectVariable>)

  type ProjectService = CodeFreshApi<ProjectCreateParams, ProjectUpdateParams, ProjectDetails, CreateProjectResponse>

  /** The declared variables in the API's shape: one for one, in order. */
  function ProviderVariables(vs: seq<V1alpha1.ProjectVariable>): (r: seq<ProjectVariable>)
    ensures |r| == |vs|
    ensures forall i :: 0 <= i < |vs| ==> r[i].key == vs[i].key && r[i].value == vs[i].value
  {
    if vs == [] then [] else [ProjectVariable(vs[0].key, vs[0].value)] + ProviderVariables(vs[1..])
  }

  /** The conversion loop that Observe, Create and Update each run. */
  method CopyVariables(vs: seq<V1alpha1.ProjectVariable>) returns (variables: seq<ProjectVariable>)
    ensures variables == ProviderVariables(vs)
  {
    variables := [];
    for i := 0 to |vs|
      invariant |variables| == i
      invariant forall j :: 0 <= j < i ==> variables[j] == ProjectVariable(vs[j].key, vs[j].value)
    {
      variables := variables + [ProjectVariable(vs[i].key, vs[i].value)];
    }
  }

  /** What Create sends. */
  function CreateParams(spec: V1alpha1.ProjectParameters): ProjectCreateParams
  {
    ProjectCreateParams(spec.projectName, spec.projectTags, ProviderVariables(spec.projectVariables))
  }

  /** What Update sends. */
  function UpdateParams(spec: V1alpha1.ProjectParameters): ProjectUpdateParams
  {
    ProjectUpdateParams(spec.projectName, spec.projectTags, ProviderVariables(spec.projectVariables))
  }

  /** The diff of a fetched project against the desired state: same name, tags equal
      as AreTagsEqual decides, variables equal as AreSlicesEqual decides. */
  ghost predicate UpToDate(details: ProjectDetails, spec: V1alpha1.ProjectParameters)
  {
    && details.projectName == spec.projectName
    && MembershipEqual(details.projectTags, spec.projectTags)
    && MembershipEqual(details.projectVariables, ProviderVariables(spec.projectVariables))
  }

  /** Observe's verdict once the stored id is not empty and the one fetch has answered. */
  ghost function ObserveVerdict(fetched: Result<ProjectDetails, Failure>, spec: V1alpha1.ProjectParameters)
    : (Observation, Option<ReconcileError>)
  {
    ClassifyFetch(
      match fetched
      case Success(d) => Success(UpToDate(d, spec))
      case Failure(f) => Failure(f),
      "Project")
  }

  /** Create and Update send the same representation of the desired state. */
  lemma CreateAndUpdateSendSameFields(spec: V1alpha1.ProjectParameters)
    ensures UpdateParams(spec).projectName == CreateParams(spec).projectName == spec.projectName
    ensures UpdateParams(spec).tags == CreateParams(spec).projectTags == spec.projectTags
    ensures UpdateParams(spec).variables == CreateParams(spec).projectVariables
  {
  }

  /** Convergence: a remote project that holds exactly what Create or Update sent is
      reported up to date. */
  lemma SentStateIsCurrent(spec: V1alpha1.ProjectParameters, details: ProjectDetails)
    requires details.projectName == CreateParams(spec).projectName
    requires details.projectTags == CreateParams(spec).projectTags
    requires details.projectVariables == CreateParams(spec).projectVariables
    ensures UpToDate(details, spec)
    ensures ObserveVerdict(Success(details), spec) == (Observation(true, true), None)
  {
  }

  /** Tags and variables that come back in another order still count as current. */
  lemma ReorderedRemoteIsCurrent(spec: V1alpha1.ProjectParameters, details: ProjectDetails)
    requires details.projectName == spec.projectName
    requires multiset(details.projectTags) == multiset(spec.projectTags)
    requires multiset(details.projectVariables) == multiset(ProviderVariables(spec.projectVariables))
    ensures UpToDate(details, spec)
  {
    PermutationInvariant(details.projectTags, spec.projectTags, spec.projectTags);
    var vars := ProviderVariables(spec.projectVariables);
    PermutationInvariant(details.projectVariables, vars, vars);
  }

  /** A remote project under another name is stale, whatever its tags and variables. */
  lemma RenamedRemoteIsStale(spec: V1alpha1.ProjectParameters, details: ProjectDetails)
    requires details.projectName != spec.projectName
    ensures ObserveVerdict(Success(details), spec) == (Observation(true, false), None)
  {
  }

  /** With unique declared keys, a remote variable whose key is kept but whose value
      differs makes the project stale. */
  lemma ChangedVariableIsStale(spec: V1alpha1.ProjectParameters, details: ProjectDetails, i: int, v: string)
    requires forall j, k :: 0 <= j < k < |spec.projectVariables| ==>
               spec.projectVariables[j].key != spec.projectVariables[k].key
    requires 0 <= i < |spec.projectVariables| && v != spec.projectVariables[i].value
    requires details.projectVariables ==
               ProviderVariables(spec.projectVariables)[i := ProjectVariable(spec.projectVariables[i].key, v)]
    ensures !UpToDate(details, spec)
  {
    var vars := ProviderVariables(spec.projectVariables);
    assert UniqueKeys(vars) by {
      forall j, k | 0 <= j < k < |vars| ensures vars[j].key != vars[k].key {
        assert vars[j].key == spec.projectVariables[j].key;
      }
    }
    ChangedValueUnequal(vars, i, v);
  }

  /** When the declared tags have no duplicates, the tag check is a reordering check. */
  lemma DistinctTagsCurrentIffReordered(spec: V1alpha1.ProjectParameters, details: ProjectDetails)
    requires NoDuplicates(spec.projectTags)
    requires details.projectName == spec.projectName
    requires details.projectVariables == ProviderVariables(spec.projectVariables)
    ensures UpToDate(details, spec) <==> multiset(details.projectTags) == multiset(spec.projectTags)
  {
    DistinctSecondIffPermutation(details.projectTags, spec.projectTags);
    var vars := ProviderVariables(spec.projectVariables);
    PermutationInvariant(vars, vars, vars);
  }

  /** The external client of the Project kind. */
  class External {
    const service: ProjectService
    const kube: StatusClient

    constructor (service: ProjectService, kube: StatusClient)
      ensures this.service == service && this.kube == kube
    {
      this.service := service;
      this.kube := kube;
    }

    /** Observe reads the stored id; an empty id means "not created" without a call,
        otherwise one GET decides. The declared object is not written. */
    method Observe(mg: V1alpha1.ManagedResource) returns (obs: Observation, err: Option<ReconcileError>)
      modifies service`log
      ensures !mg.ProjectResource? ==>
        obs == Absent && err == Some(New(ErrNotProject)) && service.log == old(service.log)
      ensures mg.ProjectResource? && mg.project.status.projectID == "" ==>
        obs == Absent && err == None && service.log == old(service.log)
      ensures mg.ProjectResource? && mg.project.status.projectID != "" ==>
        && service.log == old(service.log) + [GetRequest("projects", mg.project.status.projectID)]
        && (obs, err) == ObserveVerdict(service.getReply, mg.project.spec)
    {
      if !mg.ProjectResource? {
        return Absent, Some(New(ErrNotProject));
      }
      var cr := mg.project;
      var projectID := cr.status.projectID;
      if projectID == "" {
        return Absent, None;
      }
      var fetched := service.GetResource("projects", projectID);
      if fetched.Failure? {
        if fetched.error.ResourceNotFound? || IsResourceNotFoundErr(fetched.error.Message(), "Project") {
          return Absent, None;
        }
        return Absent, Some(Returned(fetched.error));
      }
      var details := fetched.value;
      var variables := CopyVariables(cr.spec.projectVariables);
      var nameUpToDate := details.projectName == cr.spec.projectName;
      var tagsUpToDate := AreTagsEqual(details.projectTags, cr.spec.projectTags);
      var varsUpToDate := AreSlicesEqual(details.projectVariables, variables);
      obs, err := Observation(true, nameUpToDate && tagsUpToDate && varsUpToDate), None;
    }

    /** Create sends the desired state; on success the returned id is written into the
        status before the status write is attempted, so a failed write still leaves
        the id in the object but persists nothing: the remote project then exists
        with no recorded id. */
    method Create(mg: V1alpha1.ManagedResource) returns (err: Option<ReconcileError>)
      modifies mg.Objects(), service`log, kube`persisted
      ensures !mg.ProjectResource? ==>
        && err == Some(New(ErrNotProject))
        && unchanged(mg.Objects())
        && service.log == old(service.log) && kube.persisted == old(kube.persisted)
      ensures mg.ProjectResource? ==>
        service.log == old(service.log) + [CreateRequest("projects", CreateParams(mg.project.spec))]
      ensures mg.ProjectResource? && service.createReply.Failure? ==>
        && err == Some(Wrapped(service.createReply.error, ErrCreatingProject))
        && mg.project.status == old(mg.project.status)
        && kube.persisted == old(kube.persisted)
      ensures mg.ProjectResource? && service.createReply.Success? ==>
        && mg.project.status == old(mg.project.status).(projectID := service.createReply.value.projectID)
        && kube.persisted == (if kube.updateReply.None?
                              then old(kube.persisted) + [service.createReply.value.projectID]
                              else old(kube.persisted))
        && err == (match kube.updateReply
                   case None => None
                   case Some(f) => Some(Wrapped(f, ErrUpdatingProjectStatus)))
    {
      if !mg.ProjectResource? {
        return Some(New(ErrNotProject));
      }
      var cr := mg.project;
      var variables := CopyVariables(cr.spec.projectVariables);
      var params := ProjectCreateParams(cr.spec.projectName, cr.spec.projectTags, variables);
      var created := service.CreateResource("projects", params);
      if created.Failure? {
        return Some(Wrapped(created.error, ErrCreatingProject));
      }
      cr.status := cr.status.(projectID := created.value.projectID);
      var persistErr := kube.UpdateStatus(cr.status.projectID);
      if persistErr.Some? {
        return Some(Wrapped(persistErr.value, ErrUpdatingProjectStatus));
      }
      return None;
    }

    /** Update sends the desired state to the stored id and reads no response. */
    method Update(mg: V1alpha1.ManagedResource) returns (err: Option<ReconcileError>)
      modifies service`log
      ensures !mg.ProjectResource? ==>
        err == Some(New(ErrNotProject)) && service.log == old(service.log)
      ensures mg.ProjectResource? ==>
        && service.log == old(service.log) +
             [UpdateRequest("projects", mg.project.status.projectID, UpdateParams(mg.project.spec))]
        && err == (match service.updateReply
                   case None => None
                   case Some(f) => Some(Wrapped(f, ErrUpdatingProject)))
    {
      if !mg.ProjectResource? {
        return Some(New(ErrNotProject));
      }
      var cr := mg.project;
      var variables := CopyVariables(cr.spec.projectVariables);
      var updateParams := ProjectUpdateParams(cr.spec.projectName, cr.spec.projectTags, variables);
      var failure := service.UpdateResource("projects", cr.status.projectID, updateParams);
      if failure.Some? {
        return Some(Wrapped(failure.value, ErrUpdatingProject));
      }
      return None;
    }

    /** Delete removes the project at the stored id. */
    method Delete(mg: V1alpha1.ManagedResource) returns (err: Option<ReconcileError>)
      modifies service`log
      ensures !mg.ProjectResource? ==>
        err == Some(New(ErrNotProject)) && service.log == old(service.log)
      ensures mg.ProjectResource? ==>
        && service.log == old(service.log) + [DeleteRequest("projects", mg.project.status.projectID)]
        && err == (match service.deleteReply
                   case None => None
                   case Some(f) => Some(Wrapped(f, ErrDeletingProject)))
    {
      if !mg.ProjectResource? {
        return Some(New(ErrNotProject));
      }
      var cr := mg.project;
      var failure := service.DeleteResource("projects", cr.status.projectID);
      if failure.Some? {
        return Some(Wrapped(failure.value, ErrDeletingProject));
      }
      return None;
    }
  }

  /** The "ProjectDoesNotExist" case of TestObserve: a stored id whose fetch fails
      with the ErrResourceNotFound sentinel. */
  method TestObserveProjectDoesNotExist() returns (obs: Observation, err: Option<ReconcileError>)
    ensures obs == Observation(false, false) && err == None
  {
    var spec := V1alpha1.ProjectParameters("", "", [], []);
    var cr := new V1alpha1.Project(spec, V1alpha1.ProjectObservation("", "non-existent-project"));
    var service: ProjectService := new CodeFreshApi(Failure(ResourceNotFound), Failure(Failed("")), None, None);
    var kube := new StatusClient(None);
    var e := new External(service, kube);
    obs, err := e.Observe(V1alpha1.ProjectResource(cr));
  }

  /** The "ProjectExists" case of TestObserve: the fetched project carries the
      declared name, tags and variables. */
  method TestObserveProjectExists() returns (obs: Observation, err: Option<ReconcileError>)
    ensures obs == Observation(true, true) && err == None
  {
    var declared := [V1alpha1.ProjectVariable("var1", "value1"), V1alpha1.ProjectVariable("var2", "value2")];
    var spec := V1alpha1.ProjectParameters("", "TestProject", ["tag1", "tag2"], declared);
    var cr := new V1alpha1.Project(spec, V1alpha1.ProjectObservation("", "existing-project"));
    var details := ProjectDetails("", "TestProject", "", ProjectMetadata(""), "", ["tag1", "tag2"],
                                  [ProjectVariable("var1", "value1"), ProjectVariable("var2", "value2")],
                                  0, "existing-project", false);
    assert details.projectVariables == ProviderVariables(declared);
    SentStateIsCurrent(spec, details);
    var service: ProjectService := new CodeFreshApi(Success(details), Failure(Failed("")), None, None);
    var kube := new StatusClient(None);
    var e := new External(service, kube);
    obs, err := e.Observe(V1alpha1.ProjectResource(cr));
  }

  /** A first reconcile creates the project; the next one finds it current although
      the remote lists the tags in another order, so no update is needed. */
  method CreateThenObserveScenario() returns (before: Observation, storedId: string, after: Observation)
    ensures before == Absent
    ensures storedId == "p-123"
    ensures after == Observation(true, true)
  {
    var spec := V1alpha1.ProjectParameters("", "proj1", ["a", "b"], []);
    var cr := new V1alpha1.Project(spec, V1alpha1.ProjectObservation("", ""));
    var service: ProjectService := new CodeFreshApi(Failure(Failed("")), Success(CreateProjectResponse("p-123")), None, None);
    var kube := new StatusClient(None);
    var e := new External(service, kube);
    var mg := V1alpha1.ProjectResource(cr);
    var err;
    before, err := e.Observe(mg);
    assert service.log == [];
    err := e.Create(mg);
    storedId := cr.status.projectID;
    var fetched := ProjectDetails("", "proj1", "", ProjectMetadata(""), "", ["b", "a"], [], 0, "p-123", false);
    assert multiset(fetched.projectTags) == multiset(spec.projectTags);
    ReorderedRemoteIsCurrent(spec, fetched);
    service.getReply := Success(fetched);
    after, err := e.Observe(mg);
  }

  /** A remote project under another name is stale; Update sends the full desired
      state, and once the remote holds it the project is current. */
  method StaleThenUpdateScenario() returns (before: Observation, after: Observation)
    ensures before == Observation(true, false)
    ensures after == Observation(true, true)
  {
    var spec := V1alpha1.ProjectParameters("", "proj1", [], []);
    var cr := new V1alpha1.Project(spec, V1alpha1.ProjectObservation("", "p-123"));
    var remote := ProjectDetails("", "proj2", "", ProjectMetadata(""), "", [], [], 0, "p-123", false);
    var service: ProjectService := new CodeFreshApi(Success(remote), Failure(Failed("")), None, None);
    var kube := new StatusClient(None);
    var e := new External(service, kube);
    var mg := V1alpha1.ProjectResource(cr);
    var err;
    before, err := e.Observe(mg);
    err := e.Update(mg);
    var sent := UpdateParams(spec);
    assert service.log[|service.log| - 1] == UpdateRequest("projects", "p-123", sent);
    CreateAndUpdateSendSameFields(spec);
    var updated := remote.(projectName := sent.projectName, projectTags := sent.tags, projectVariables := sent.variables);
    SentStateIsCurrent(spec, updated);
    service.getReply := Success(updated);
    after, err := e.Observe(mg);
  }
}
