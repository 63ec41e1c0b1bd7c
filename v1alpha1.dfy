/** The declared objects the controllers reconcile (package v1alpha1). */
module V1alpha1 {

  /** A key/value variable as the user declares it. */
  datatype ProjectVariable = ProjectVariable(key: string, value: string)

  /** Spec.ForProvider of a Project. */
  datatype ProjectParameters = ProjectParameters(
    configurableField: string,
    projectName: string,
    projectTags: seq<string>,
    projectVariables: seq<ProjectVariable>)

  /** Status.AtProvider of a Project; `projectID` is the external identity. */
  datatype ProjectObservation = ProjectObservation(observableField: string, projectID: string)

  /** A declared Project: the desired state is fixed for a reconcile, the status is
      written in place. */
  class Project {
    const spec: ProjectParameters
    var status: ProjectObservation

    constructor (spec: ProjectParameters, status: ProjectObservation)
      ensures this.spec == spec && this.status == status
    {
      this.spec := spec;
      this.status := status;
    }
  }

  /** A pipeline sub-field (triggers, steps, ...) whose structure is not part of this
      model; it is carried as the JSON text it is sent as. */
  type RawJson = string

  /** The value of a sub-field that is not set. */
  const Unset: RawJson := ""

  datatype PipelineMetadata = PipelineMetadata(name: string)

  datatype PipelineSpecStruct = PipelineSpecStruct(
    triggers: RawJson,
    steps: RawJson,
    stages: RawJson,
    variables: RawJson,
    options: RawJson,
    contexts: RawJson)

  /** Spec.ForProvider of a Pipeline. */
  datatype PipelineParameters = PipelineParameters(metadata: PipelineMetadata, spec: PipelineSpecStruct)

  /** Status.AtProvider of a Pipeline; `id` is the external identity. */
  datatype PipelineObservation = PipelineObservation(id: string)

  /** A declared Pipeline. */
  class Pipeline {
    const spec: PipelineParameters
    var status: PipelineObservation

    constructor (spec: PipelineParameters, status: PipelineObservation)
      ensures this.spec == spec && this.status == status
    {
      this.spec := spec;
      this.status := status;
    }
  }

  /** One document of a fetched pipeline. */
  datatype PipelineDoc = PipelineDoc(metadata: PipelineMetadata)

  /** A pipeline as GetResource decodes it. */
  datatype PipelineDetails = PipelineDetails(docs: seq<PipelineDoc>)

  /** The body of the pipeline create request. */
  datatype PipelineCreateParams = PipelineCreateParams(metadata: PipelineMetadata, spec: PipelineSpecStruct)

  datatype CreatedMetadata = CreatedMetadata(id: string)

  /** The part of the pipeline create response the controller reads. */
  datatype CreatePipelineResponse = CreatePipelineResponse(metadata: CreatedMetadata)

  /** A managed resource handed to a controller: one of the supported kinds. The
      controllers' type assertions become a test of the constructor. */
  datatype ManagedResource = ProjectResource(project: Project) | PipelineResource(pipeline: Pipeline)
  {
    /** The declared object itself, as a frame. */
    function Objects(): set<object>
    {
      match this
      case ProjectResource(p) => {p}
      case PipelineResource(q) => {q}
    }
  }
}
