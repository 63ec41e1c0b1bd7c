/** Record shapes and message constants of the Project resource kind (package constants). */
module Constants {

  const ErrNotProject := "managed resource is not a Project custom resource"
  const ErrCreatingProject := "error creating project in CodeFresh"
  const ErrExpectedCodeFreshClient := "expected a CodeFreshAPIClient"
  const ErrUpdatingProject := "error updating project in CodeFresh"
  const ErrUpdatingProjectStatus := "error updating project status with project ID"
  const ErrDeletingProject := "error deleting project in CodeFresh"

  /** A key/value variable as the remote API exchanges it. */
  datatype ProjectVariable = ProjectVariable(key: string, value: string)

  datatype ProjectMetadata = ProjectMetadata(createdAt: string)

  /** A project as GetResource decodes it. */
  datatype ProjectDetails = ProjectDetails(
    accountID: string,
    projectName: string,
    updatedAt: string,
    projectMetadata: ProjectMetadata,
    projectImage: string,
    projectTags: seq<string>,
    projectVariables: seq<ProjectVariable>,
    projectTotalPipelinesNumber: int,
    projectID: string,
    isFavorite: bool)

  /** The body of the create request. */
  datatype ProjectCreateParams = ProjectCreateParams(
    projectName: string,
    projectTags: seq<string>,
    projectVariables: seq<ProjectVariable>)

  /** The part of the create response the controller reads. */
  datatype CreateProjectResponse = CreateProjectResponse(projectID: string)
}
