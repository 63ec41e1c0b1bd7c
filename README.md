# CodeFresh provider reconcile core, modelled in Dafny

This project models the reconcile logic of a Crossplane provider for CodeFresh.
It covers two parts:

- the diff helpers, which decide whether the remote state matches the declared
  state and whether a fetch error means "the remote resource is gone";
- the external clients of the Project and Pipeline kinds: `Observe`, `Create`,
  `Update` and `Delete`.

Layout: one module per package of the repository, plus three support modules (`Wrappers`, `Strings` for Go's `strings.Contains`, and `Managed` for the reconciler-facing types):

- `wrappers.dfy`: `Option` and `Result`.
- `strings.dfy`: Go's `strings.Contains`, proved against a ghost "occurs at some position" predicate.
- `helpers.dfy`: `AreTagsEqual`, `AreSlicesEqual` and `IsResourceNotFoundErr`.
  The two list comparisons are methods with the source's two loops: first a lookup map is filled, then the second list is scanned with an early return.
  Both are proved equal to one ghost predicate, `MembershipEqual`.
  The lemmas about that predicate cover order, symmetry, duplicates and changed values.
- `constants.dfy`, `v1alpha1.dfy`: the record shapes and message constants.
  The declared `Project` and `Pipeline` are classes.
  Their desired state (`spec`) is a `const`; their status, which holds the external id, is a `var`.
  The controllers' type assertions become the sum type `ManagedResource`.
- `client.dfy`: the CodeFresh service as an abstract class.
  Each call appends a request to a ghost `log`, so "no call" and "exactly one call" can be stated.
  Each call answers with the reply currently set for that operation.
  The status writer of the declarative store is modelled the same way.
  The module also holds two facts about `sendRequest`'s error texts.
- `managed.dfy`: the observation, the error channel, and the not-found classification that both kinds share.
- `project.dfy`, `pipeline.dfy`: the two external clients.
  Every method's contract states which requests reach the service, what is returned, and the new status.
  Beside them are the lemmas that connect what Create/Update send with what Observe accepts as current.

Behaviours of the code worth knowing:

- The tag/variable comparison checks only that every element of the second list is in the first. It does not check both directions.
- A delete answered with 204 is an error, because `sendRequest` rejects every code other than 200 before the 200/204 check runs.
- `Delete` leaves the stored id in the status.
- No client path returns the `ErrResourceNotFound` sentinel. A remote 404 is recognised as absence only because its error text contains "404" (`NotFoundResponseMatches`).
- The pipeline diff compares only the name of the first document.

## Model

| member | source | states |
|---|---|---|
| `Helpers.AreTagsEqual` | internal/helpers/utils.go:8-22 | false when the lengths differ; true exactly when the lengths are equal and every tag of the second list occurs in the first |
| `Helpers.AreSlicesEqual` | internal/helpers/utils.go:24-52 | the same rule on key/value variables, with the whole pair as the compared element |
| `Helpers.IsResourceNotFoundErr` | internal/helpers/utils.go:54-57 | true exactly when the message contains `<name> not found` or `404` |
| `Strings.Contains` | internal/helpers/utils.go:56 | the substring scan is true exactly when the needle occurs at some position of the message |
| `Helpers.PermutationInvariant` | internal/helpers/utils.go:12-21 | reordering either list never changes the verdict, and every reordering of a list compares equal to it (so it is reflexive) |
| `Helpers.NotSymmetric` | internal/helpers/utils.go:13-20 | membership, not multiplicity: `(["a","b"],["a","a"])` compares equal, `(["a","a"],["a","b"])` does not |
| `Helpers.DistinctSecondIffPermutation` | internal/helpers/utils.go:8-22 | when the second list has no duplicates, the comparison holds exactly when the two lists are reorderings of each other |
| `Helpers.ChangedValueUnequal` | internal/helpers/utils.go:38-51 | with unique keys, giving one key another value makes the lists unequal in both argument orders (`[{a,1}]` vs `[{a,2}]`) |
| `CodeFreshClient.CodeFreshApi.GetResource` | internal/client/codefreshclient.go:28 | one GET request for the resource type and id is logged; the answer is the remote's current reply |
| `CodeFreshClient.CodeFreshApi.CreateResource` | internal/client/codefreshclient.go:29 | one create request with the given payload is logged |
| `CodeFreshClient.CodeFreshApi.UpdateResource` | internal/client/codefreshclient.go:30 | one update request for the id with the given payload is logged; no response is decoded |
| `CodeFreshClient.CodeFreshApi.DeleteResource` | internal/client/codefreshclient.go:31 | one delete request for the resource type and id is logged |
| `CodeFreshClient.StatusClient.UpdateStatus` | internal/controller/project/project.go:220-223 | the status write persists the id now in the status; a failed write persists nothing |
| `CodeFreshClient.DeleteSucceedsOnlyOn200` | internal/client/codefreshclient.go:185-201 | a delete succeeds exactly on 200; a 204 gets sendRequest's "unexpected response" error |
| `CodeFreshClient.NotFoundResponseMatches` | internal/client/codefreshclient.go:92-95 | the error text of a 404 response passes the not-found test for every resource name |
| `CodeFreshClient.SentinelNeedsIdentityCheck` | internal/controller/project/project.go:159 | the sentinel's own text fails the not-found test for both kinds, so only the identity check on the sentinel classifies it |
| `Managed.ClassifyFetch` | internal/controller/project/project.go:155-181 | after the one fetch: exists exactly when the fetch succeeded; no error exactly when it succeeded or failed with a not-found-class error; otherwise the error is returned as is with the empty observation; up to date implies exists |
| `ProjectController.ProviderVariables` | internal/controller/project/project.go:194-200 | the declared variables mapped one to one, keys and values kept, order preserved |
| `ProjectController.CopyVariables` | internal/controller/project/project.go:165-168 | the append loop builds exactly that mapping |
| `ProjectController.CreateAndUpdateSendSameFields` | internal/controller/project/project.go:241-251 | Update sends the name, tags and converted variables that Create sends |
| `ProjectController.SentStateIsCurrent` | internal/controller/project/project.go:170-181 | a remote project holding exactly what Create/Update sent is observed as existing and up to date |
| `ProjectController.ReorderedRemoteIsCurrent` | internal/controller/project/project.go:170-175 | remote tags and variables in another order still count as up to date |
| `ProjectController.RenamedRemoteIsStale` | internal/controller/project/project.go:171-181 | a remote project with another name is observed as existing and stale |
| `ProjectController.ChangedVariableIsStale` | internal/controller/project/project.go:165-175 | with unique declared keys, a remote variable with the same key and another value makes the project stale |
| `ProjectController.DistinctTagsCurrentIffReordered` | internal/controller/project/project.go:172 | with duplicate-free declared tags, the project is current exactly when the remote tags are a reordering of them |
| `ProjectController.External.Observe` | internal/controller/project/project.go:139-182 | wrong kind: ErrNotProject and no call; empty ProjectID: does not exist, no error, no call; otherwise exactly one GET of `projects/<id>`, classified as in ClassifyFetch with the three-part diff; the object is not written |
| `ProjectController.External.Create` | internal/controller/project/project.go:184-228 | sends exactly the spec's name, tags and converted variables; on failure the error is wrapped and the status is unchanged; on success only ProjectID changes, to the returned id, which stays in the object even when the later status write fails; that failed write persists nothing, leaving the remote project without a recorded id |
| `ProjectController.External.Update` | internal/controller/project/project.go:230-260 | one update request to the stored ProjectID with the spec's name, tags and variables; a failure is wrapped; the status is not written |
| `ProjectController.External.Delete` | internal/controller/project/project.go:262-279 | one delete of `projects/<stored id>`; a failure is wrapped; the status is not written |
| `ProjectController.TestObserveProjectDoesNotExist` | internal/controller/project/project_test.go:60-82 | a stored id whose fetch fails with the sentinel is observed as not existing, without error |
| `ProjectController.TestObserveProjectExists` | internal/controller/project/project_test.go:83-125 | a fetched project matching name, tags and variables is observed as existing and up to date |
| `ProjectController.CreateThenObserveScenario` | internal/controller/project/project.go:149-223 | from an empty id: not existing, then Create stores the returned id, then a remote with reordered tags is observed as up to date |
| `ProjectController.StaleThenUpdateScenario` | internal/controller/project/project.go:170-257 | a renamed remote is stale; after Update sends the desired state and the remote holds it, the project is up to date |
| `PipelineController.EmptyDocsIsStale` | internal/controller/pipeline/pipeline.go:179-194 | a fetched pipeline without documents exists but is stale |
| `PipelineController.VerdictIgnoresSpecBody` | internal/controller/pipeline/pipeline.go:179-187 | the verdict depends only on the declared name, not on triggers, steps, stages, variables, options or contexts |
| `PipelineController.CreatedRemoteIsCurrent` | internal/controller/pipeline/pipeline.go:203-216 | a remote whose first document carries the name Create sent is observed as existing and up to date |
| `PipelineController.ContextsNotSent` | internal/controller/pipeline/pipeline.go:203-216 | two desired states give the same create request exactly when they agree on the name and on every sub-field except contexts; contexts is never sent |
| `PipelineController.External.Observe` | internal/controller/pipeline/pipeline.go:152-195 | wrong kind: errNotPipeline and no call; empty ID: does not exist, no error, no call; otherwise exactly one GET of `pipelines/<id>`, classified as in ClassifyFetch with the first-document name check; the object is not written |
| `PipelineController.External.Create` | internal/controller/pipeline/pipeline.go:197-238 | sends the name and five spec sub-fields; on failure the error is wrapped and the status is unchanged; on success ID becomes the returned metadata id, which stays in the object even when the status write fails; that failed write persists nothing and its error is wrapped as an update error |
| `PipelineController.External.Update` | internal/controller/pipeline/pipeline.go:240-273 | wrong kind: errNotPipeline; otherwise success, with no service call and nothing written |
| `PipelineController.External.Delete` | internal/controller/pipeline/pipeline.go:275-288 | wrong kind: ErrExpectedCodeFreshClient; otherwise one delete of `pipelines/<stored id>`, with a failure wrapped |

`ProjectController.TestObserveProjectExists` models the stated expectation of the "ProjectExists" case, with a reply of the type Observe decodes into. The Go case as written assigns a `constants.ProjectDetails` to a test-double field typed `v1alpha1.ProjectDetails`, so it cannot build.

## Left out

- `Setup` and `connector.Connect` of both kinds are not modelled. They wire the controller runtime, look up the ProviderConfig, extract credentials, and build the service.
- The HTTP transport is not modelled: URLs, the bearer header, JSON encoding and decoding, and body closing. The service is an abstract class with fallible replies.
- The remote's behaviour is not modelled. Each service operation answers with the reply currently set for it, as the test double does, so a GET's answer does not depend on the id.
- `CheckResourceExists` is not modelled, because the controllers never call it.
- Logging is not modelled, nor is the `fmt.Printf` in the pipeline `Update`.
- Context cancellation is not modelled.
- The connection details are always empty and are not modelled.
- The Kubernetes status write is one abstract fallible step. It records the id only when the write succeeds.
- The managed reconciler is not part of this model. It lives outside the repository and decides when to call Observe, Create, Update and Delete.
- `AreSlicesEqual` takes any value. Its "both arguments are slices" check cannot fail on typed lists, so it is not modelled, and the helper is specialised to key/value variables.
- The second `if !ok` test in the project methods and in the pipeline `Update` can never be reached after the first one, so it is not modelled.
- The pipeline record types are not visible, because their declarations are commented out. Only the fields the controller touches are modelled. Each spec sub-field (triggers, steps, stages, variables, options, contexts) is an uninterpreted JSON text, and "not set" is the empty text.
- The richer pipeline diff in internal/helpers/pipeline.go is commented out and is not modelled.
- An error that wraps the ErrResourceNotFound sentinel is modelled as the sentinel itself (`ResourceNotFound`). The text such a wrapping error adds is not kept, because Observe matches the sentinel before it reads any text. No service implementation in the repository wraps the sentinel.
- Create posts a record whose empty fields are omitted, while Update sends a map that always carries all three keys. Both are modelled as the same three fields, because the difference is only in the JSON encoding.
