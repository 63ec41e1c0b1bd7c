/** The controller of the Pipeline kind: Observe, Create, Update and Delete. */
module PipelineController {
  import opened Wrappers
  import opened Helpers
  import Constants
  import opened V1alpha1
  import opened CodeFreshClient
  import opened Managed

  const ErrNotPipeline := "managed resource is not a Pipeline custom resource"
  const ErrCreatingPipeline := "error creating pipeline"
  const ErrUpdatingPipeline := "error updating pipeline"
  const ErrDeletingPipeline := "something went wrong while deleting the pipeline"

  /** Update sends nothing, so the update payload type is never used. */
  type PipelineService = CodeFreshApi<PipelineCreateParams, PipelineCreateParams, PipelineDetails, CreatePipelineResponse>

  /** What Create sends: the name and five of the six spec sub-fields; contexts is left
      unset. */
  function CreateParams(spec: PipelineParameters): PipelineCreateParams
  {
    var s := spec.spec;
    PipelineCreateParams(
      PipelineMetadata(spec.metadata.name),
      PipelineSpecStruct(s.triggers, s.steps, s.stages, s.variables, s.options, Unset))
  }

  /** The diff of a fetched pipeline against the desired state: only the name of its
      first document is compared. */
  predicate UpToDate(details: PipelineDetails, spec: PipelineParameters)
  {
    |details.docs| > 0 && details.docs[0].metadata.name == spec.metadata.name
  }

  /** Observe's verdict once the stored id is not empty and the one fetch has answered. */
  ghost function ObserveVerdict(fetched: Result<PipelineDetails, Failure>, spec: PipelineParameters)
    : (Observation, Option<ReconcileError>)
  {
    ClassifyFetch(
      match fetched
      case Success(d) => Success(UpToDate(d, spec))
      case Failure(f) => Failure(f),
      "Pipeline")
  }

  /** A fetched pipeline without documents exists but is stale. */
  lemma EmptyDocsIsStale(spec: PipelineParameters, details: PipelineDetails)
    requires details.docs == []
    ensures ObserveVerdict(Success(details), spec) == (Observation(true, false), None)
  {
  }

  /** The verdict depends on the declared name alone: two desired states with the same
      name are judged alike, whatever their triggers, steps, stages, variables, options
      and contexts. */
  lemma VerdictIgnoresSpecBody(fetched: Result<PipelineDetails, Failure>, a: PipelineParameters, b: PipelineParameters)
    requires a.metadata.name == b.metadata.name
    ensures ObserveVerdict(fetched, a) == ObserveVerdict(fetched, b)
  {
  }

  /** Convergence: a remote pipeline whose first document carries the name Create sent
      is reported up to date. */
  lemma CreatedRemoteIsCurrent(spec: PipelineParameters, details: PipelineDetails)
    requires |details.docs| > 0 && details.docs[0].metadata == CreateParams(spec).metadata
    ensures ObserveVerdict(Success(details), spec) == (Observation(true, true), None)
  {
  }

  /** Create copies everything but contexts: two desired states give the same create
      request exactly when they agree on the name and on every sub-field but contexts. */
  lemma ContextsNotSent(a: PipelineParameters, b: PipelineParameters)
    ensures CreateParams(a) == CreateParams(b) <==>
      a.metadata == b.metadata && a.spec.(contexts := Unset) == b.spec.(contexts := Unset)
    ensures CreateParams(a).spec.contexts == Unset
  {
  }

  /** The external client of the Pipeline kind. */
  class External {
    const service: PipelineService
    const kube: StatusClient

    constructor (service: PipelineService, kube: StatusClient)
      ensures this.service == service && this.kube == kube
    {
      this.service := service;
      this.kube := kube;
    }

    /** Observe reads the stored id; an empty id means "not created" without a call,
        otherwise one GET decides. The declared object is not written. */
    method Observe(mg: ManagedResource) returns (obs: Observation, err: Option<ReconcileError>)
      modifies service`log
      ensures !mg.PipelineResource? ==>
        obs == Absent && err == Some(New(ErrNotPipeline)) && service.log == old(service.log)
      ensures mg.PipelineResource? && mg.pipeline.status.id == "" ==>
        obs == Absent && err == None && service.log == old(service.log)
      ensures mg.PipelineResource? && mg.pipeline.status.id != "" ==>
        && service.log == old(service.log) + [GetRequest("pipelines", mg.pipeline.status.id)]
        && (obs, err) == ObserveVerdict(service.getReply, mg.pipeline.spec)
    {
      if !mg.PipelineResource? {
        return Absent, Some(New(ErrNotPipeline));
      }
      var cr := mg.pipeline;
      var pipelineID := cr.status.id;
      if pipelineID == "" {
        return Absent, None;
      }
      var fetched := service.GetResource("pipelines", pipelineID);
      if fetched.Failure? {
        if fetched.error.ResourceNotFound? || IsResourceNotFoundErr(fetched.error.Message(), "Pipeline") {
          return Absent, None;
        }
        return Absent, Some(Returned(fetched.error));
      }
      var details := fetched.value;
      var nameUpToDate := false;
      if |details.docs| > 0 {
        nameUpToDate := details.docs[0].metadata.name == cr.spec.metadata.name;
      }
      obs, err := Observation(true, nameUpToDate), None;
    }

    /** Create sends the desired state; on success the returned id is written into the
        status before the status write is attempted; a failed write persists nothing
        and is reported as an update error. */
    method Create(mg: ManagedResource) returns (err: Option<ReconcileError>)
      modifies mg.Objects(), service`log, kube`persisted
      ensures !mg.PipelineResource? ==>
        && err == Some(New(ErrNotPipeline))
        && unchanged(mg.Objects())
        && service.log == old(service.log) && kube.persisted == old(kube.persisted)
      ensures mg.PipelineResource? ==>
        service.log == old(service.log) + [CreateRequest("pipelines", CreateParams(mg.pipeline.spec))]
      ensures mg.PipelineResource? && service.createReply.Failure? ==>
        && err == Some(Wrapped(service.createReply.error, ErrCreatingPipeline))
        && mg.pipeline.status == old(mg.pipeline.status)
        && kube.persisted == old(kube.persisted)
      ensures mg.PipelineResource? && service.createReply.Success? ==>
        && mg.pipeline.status == old(mg.pipeline.status).(id := service.createReply.value.metadata.id)
        && kube.persisted == (if kube.updateReply.None?
                              then old(kube.persisted) + [service.createReply.value.metadata.id]
                              else old(kube.persisted))
        && err == (match kube.updateReply
                   case None => None
                   case Some(f) => Some(Wrapped(f, ErrUpdatingPipeline)))
    {
      if !mg.PipelineResource? {
        return Some(New(ErrNotPipeline));
      }
      var cr := mg.pipeline;
      var params := PipelineCreateParams(
        PipelineMetadata(cr.spec.metadata.name),
        PipelineSpecStruct(cr.spec.spec.triggers, cr.spec.spec.steps, cr.spec.spec.stages,
                           cr.spec.spec.variables, cr.spec.spec.options, Unset));
      var created := service.CreateResource("pipelines", params);
      if created.Failure? {
        return Some(Wrapped(created.error, ErrCreatingPipeline));
      }
      cr.status := cr.status.(id := created.value.metadata.id);
      var persistErr := kube.UpdateStatus(cr.status.id);
      if persistErr.Some? {
        return Some(Wrapped(persistErr.value, ErrUpdatingPipeline));
      }
      return None;
    }

    /** Update reaches no service and writes nothing: it succeeds for every pipeline. */
    method Update(mg: ManagedResource) returns (err: Option<ReconcileError>)
      ensures !mg.PipelineResource? ==> err == Some(New(ErrNotPipeline))
      ensures mg.PipelineResource? ==> err == None
    {
      if !mg.PipelineResource? {
        return Some(New(ErrNotPipeline));
      }
      return None;
    }

    /** Delete removes the pipeline at the stored id. A resource of the wrong kind is
        reported with the client-assertion message, not the wrong-kind one. */
    method Delete(mg: ManagedResource) returns (err: Option<ReconcileError>)
      modifies service`log
      ensures !mg.PipelineResource? ==>
        err == Some(New(Constants.ErrExpectedCodeFreshClient)) && service.log == old(service.log)
      ensures mg.PipelineResource? ==>
        && service.log == old(service.log) + [DeleteRequest("pipelines", mg.pipeline.status.id)]
        && err == (match service.deleteReply
                   case None => None
                   case Some(f) => Some(Wrapped(f, ErrDeletingPipeline)))
    {
      if !mg.PipelineResource? {
        return Some(New(Constants.ErrExpectedCodeFreshClient));
      }
      var cr := mg.pipeline;
      var failure := service.DeleteResource("pipelines", cr.status.id);
      if failure.Some? {
        return Some(Wrapped(failure.value, ErrDeletingPipeline));
      }
      return None;
    }
  }
}
