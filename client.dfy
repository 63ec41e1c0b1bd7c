/** The remote CodeFresh API as the controllers see it, and the status writer of the
    declarative store. */
module CodeFreshClient {
  import opened Wrappers
  import opened Strings
  import opened Helpers

  /** The text of the ErrResourceNotFound sentinel. */
  const ErrResourceNotFoundText := "resource not found in CodeFresh"

  /** An error returned by a service call. `ResourceNotFound` stands for every error
      whose chain reaches the ErrResourceNotFound sentinel (the sentinel itself or an
      error wrapping it), which is what the identity check on the sentinel matches;
      its message is taken to be the sentinel's own text. `Failed` is any other
      error, known by its message. */
  datatype Failure = ResourceNotFound | Failed(message: string)
  {
    function Message(): string
    {
      match this
      case ResourceNotFound => ErrResourceNotFoundText
      case Failed(m) => m
    }
  }

  /** One call made on the service. CheckResourceExists is never called by the
      controllers and has no request here. */
  datatype Request<P, U> =
    | GetRequest(resourceType: string, id: string)
    | CreateRequest(resourceType: string, createParams: P)
    | UpdateRequest(resourceType: string, id: string, updateParams: U)
    | DeleteRequest(resourceType: string, id: string)

  /** The CodeFreshAPI service used by one controller. `P` and `U` are the create and
      update payloads, `D` what a GET decodes into, `C` what a create decodes into.
      What the remote answers is not known to the controller: each operation answers
      with the reply currently set for it. Every call is appended to `log`. */
  class CodeFreshApi<P, U, D, C> {
    ghost var log: seq<Request<P, U>>
    var getReply: Result<D, Failure>
    var createReply: Result<C, Failure>
    var updateReply: Option<Failure>
    var deleteReply: Option<Failure>

    constructor (getReply: Result<D, Failure>, createReply: Result<C, Failure>,
                 updateReply: Option<Failure>, deleteReply: Option<Failure>)
      ensures log == []
      ensures this.getReply == getReply && this.createReply == createReply
      ensures this.updateReply == updateReply && this.deleteReply == deleteReply
    {
      log := [];
      this.getReply := getReply;
      this.createReply := createReply;
      this.updateReply := updateReply;
      this.deleteReply := deleteReply;
    }

    method GetResource(resourceType: string, id: string) returns (r: Result<D, Failure>)
      modifies this`log
      ensures log == old(log) + [GetRequest(resourceType, id)]
      ensures r == getReply
    {
      log := log + [GetRequest(resourceType, id)];
      r := getReply;
    }

    method CreateResource(resourceType: string, params: P) returns (r: Result<C, Failure>)
      modifies this`log
      ensures log == old(log) + [CreateRequest(resourceType, params)]
      ensures r == createReply
    {
      log := log + [CreateRequest(resourceType, params)];
      r := createReply;
    }

    /** The controllers pass no response target, so nothing is decoded. */
    method UpdateResource(resourceType: string, id: string, params: U) returns (err: Option<Failure>)
      modifies this`log
      ensures log == old(log) + [UpdateRequest(resourceType, id, params)]
      ensures err == updateReply
    {
      log := log + [UpdateRequest(resourceType, id, params)];
      err := updateReply;
    }

    method DeleteResource(resourceType: string, id: string) returns (err: Option<Failure>)
      modifies this`log
      ensures log == old(log) + [DeleteRequest(resourceType, id)]
      ensures err == deleteReply
    {
      log := log + [DeleteRequest(resourceType, id)];
      err := deleteReply;
    }
  }

  /** The status writer of the declarative store. A write persists the external id
      now held in the object's status, or fails with `updateReply` and persists
      nothing. */
  class StatusClient {
    ghost var persisted: seq<string>
    var updateReply: Option<Failure>

    constructor (updateReply: Option<Failure>)
      ensures persisted == [] && this.updateReply == updateReply
    {
      persisted := [];
      this.updateReply := updateReply;
    }

    method UpdateStatus(externalId: string) returns (err: Option<Failure>)
      modifies this`persisted
      ensures persisted == if updateReply.None? then old(persisted) + [externalId] else old(persisted)
      ensures err == updateReply
    {
      err := updateReply;
      if err.None? {
        persisted := persisted + [externalId];
      }
    }
  }

  /** The error text of sendRequest for a response with code `statusCode`, status line
      `status` and body `body`; None for 200, the only code it lets through. */
  function ResponseError(statusCode: int, status: string, body: string): Option<string>
  {
    if statusCode == 200 then None
    else if statusCode == 404 || statusCode == 500 then
      Some("CodeFresh API returned error: " + status + " - " + body)
    else
      Some("unexpected response from CodeFresh: " + status + " - " + body)
  }

  /** DeleteResource: the 200/204 check it makes runs after sendRequest has already
      turned every code but 200 into an error. */
  function DeleteError(statusCode: int, status: string, body: string): Option<string>
  {
    match ResponseError(statusCode, status, body)
    case Some(e) => Some(e)
    case None =>
      if statusCode != 200 && statusCode != 204 then
        Some("unexpected response from CodeFresh on delete: " + status)
      else
        None
  }

  /** A delete succeeds exactly on 200; a 204 answer is reported as an unexpected
      response by sendRequest, and the delete-specific message is never produced. */
  lemma DeleteSucceedsOnlyOn200(statusCode: int, status: string, body: string)
    ensures DeleteError(statusCode, status, body).None? <==> statusCode == 200
    ensures statusCode == 204 ==>
      DeleteError(statusCode, status, body) == Some("unexpected response from CodeFresh: " + status + " - " + body)
  {
  }

  /** A remote 404 carries "404" in its status line, so its error text passes the
      not-found test for every resource name. */
  lemma NotFoundResponseMatches(status: string, body: string, resourceName: string)
    requires "404" <= status
    ensures ResponseError(404, status, body).Some?
    ensures IsResourceNotFoundErr(ResponseError(404, status, body).value, resourceName)
  {
    var prefix := "CodeFresh API returned error: ";
    var rest := status[3..] + " - " + body;
    assert status == "404" + status[3..];
    assert ResponseError(404, status, body).value == prefix + "404" + rest;
    OccursBetween(prefix, "404", rest);
  }

  /** The sentinel's own text passes the not-found test for neither kind: only the
      identity check on the sentinel classifies it as absence. */
  lemma SentinelNeedsIdentityCheck(resourceName: string)
    requires resourceName == "Project" || resourceName == "Pipeline"
    ensures !IsResourceNotFoundErr(ResourceNotFound.Message(), resourceName)
  {
    var text := ErrResourceNotFoundText;
    assert 'P' !in text;
    assert '4' !in text;
    AbsentFirstChar(resourceName + " not found", text);
    AbsentFirstChar("404", text);
  }
}
