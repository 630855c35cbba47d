/**
 * The value records of the GitHub webhook provider: the parts of the two
 * supported payloads that are read, the canonical build-trigger parameters,
 * and the results of the header check and of the transform.
 */
module GithubModels {
  import opened Wrappers

  /** The head commit of a push. */
  datatype CommitModel = CommitModel(distinct: bool, commitHash: string, commitMessage: string)

  /** A push payload: the pushed ref, whether it was deleted, and its head commit. */
  datatype CodePushEventModel = CodePushEventModel(ref: string, deleted: bool, headCommit: CommitModel)

  /** The head branch of a pull request. */
  datatype BranchInfoModel = BranchInfoModel(ref: string, commitHash: string)

  /**
   * A pull request. `mergeable` is a tri-state: None means GitHub has not
   * finished computing it, which is not the same as Some(false).
   */
  datatype PullRequestInfoModel = PullRequestInfoModel(
    title: string,
    body: string,
    merged: bool,
    mergeable: Option<bool>,
    branchInfo: BranchInfoModel)

  /** A pull-request payload: the action, the pull request's number, and the pull request. */
  datatype PullRequestEventModel = PullRequestEventModel(
    action: string,
    pullRequestID: int,
    pullRequestInfo: PullRequestInfoModel)

  /** The canonical parameters handed to the build-trigger API. */
  datatype TriggerAPIParamsModel = TriggerAPIParamsModel(
    commitHash: string,
    commitMessage: string,
    branch: string,
    pullRequestID: Option<int>)

  /** The verdict of the header-only check. */
  datatype HookCheckResult = HookCheckResult(isSupportedByProvider: bool, cantTransformReason: Option<string>)

  /**
   * The outcome of a transform: skip with a reason, fail with an error, or
   * build with the given parameters. The three never co-occur. The member
   * functions give the record the provider returns (ShouldSkip, Error,
   * TriggerAPIParams); a skip carries its reason in Error, as the provider does.
   */
  datatype TransformResult =
    | Skip(reason: string)
    | Fail(error: string)
    | Success(params: TriggerAPIParamsModel)
  {
    /** A skip carries its reason as the error and never parameters. */
    function ShouldSkip(): (b: bool)
      ensures b ==> Skip? && Error() == Some(reason) && TriggerAPIParams().None?
      ensures Skip? ==> b
    {
      Skip?
    }

    function Error(): (e: Option<string>)
      ensures e.None? <==> Success?
    {
      match this
      case Skip(reason) => Some(reason)
      case Fail(error) => Some(error)
      case Success(_) => None
    }

    function TriggerAPIParams(): (p: Option<TriggerAPIParamsModel>)
      ensures p.Some? <==> Error().None?
    {
      if Success? then Some(params) else None
    }
  }

  /** Request headers: canonical header name to (first) value. */
  type Header = map<string, string>

  /** The value of a header, or "" when it is absent (Go's Header.Get). */
  function HeaderGet(h: Header, name: string): string {
    if name in h then h[name] else ""
  }

  /** What the JSON decoder makes of a body under one schema: a record, or its error message. */
  datatype Decoded<+T> = Decoded(value: T) | DecodeError(detail: string)

  /**
   * A request body as the JSON decoder sees it: absent or empty, or some
   * content, given by what it decodes to under each of the two payload
   * schemas. The two can differ: fields a schema does not name are ignored
   * and missing ones take their zero value, but a field of the wrong type
   * fails only the schema that names it.
   */
  datatype RequestBody =
    | NoBody
    | Content(asCodePush: Decoded<CodePushEventModel>, asPullRequest: Decoded<PullRequestEventModel>)

  datatype Request = Request(header: Header, body: RequestBody)
}
