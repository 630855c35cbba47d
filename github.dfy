/**
 * The GitHub webhook provider: a header-only capability check, the two
 * per-event decision ladders (push and pull request), and the transform
 * that reads the body and dispatches on the event header.
 */
module Github {
  import opened Wrappers
  import opened Strings
  import opened GithubModels
  import opened GuardLadder

  const EventHeader := "X-Github-Event"
  const ContentTypeHeader := "Content-Type"

  const PushEvent := "push"
  const PullRequestEvent := "pull_request"
  const SupportedEvents: set<string> := {PushEvent, PullRequestEvent}

  /** Pushes to refs under this prefix are branch pushes. */
  const HeadRefPrefix := "refs/heads/"

  /** The pull-request actions that start a build. */
  const BuildActions: set<string> := {"opened", "reopened", "synchronize"}

  // Skip reasons and errors.

  const NotDistinctReason := "Head Commit is not Distinct"
  const DeletedReason := "This is a 'Deleted' event, no build can be started"
  function NotHeadRefReason(ref: string): string {
    "Ref (" + ref + ") is not a head ref"
  }
  const NoActionReason := "No Pull Request action specified"
  function ActionNotBuildWorthyReason(action: string): string {
    "Pull Request action doesn't require a build: " + action
  }
  const AlreadyMergedReason := "Pull Request already merged"
  const NotMergeableReason := "Pull Request is not mergeable"

  function UnsupportedEventReason(event: string): string {
    "Unsupported GitHub hook event type: " + event
  }
  const NoBodyError := "Failed to read content of request body: no or empty request body"
  function ParseBodyError(detail: string): string {
    "Failed to parse request body: " + detail
  }
  function UnsupportedTransformEventError(event: string): string {
    "Unsupported GitHub Webhook event: " + event
  }

  /** A header counts as present when it reads as non-empty. */
  predicate IsPresent(h: Header, name: string) {
    HeaderGet(h, name) != ""
  }

  // ---------------------------------------------------------------------
  // Header check

  /**
   * Whether this provider handles a request, from its headers alone. Both the
   * event header and Content-Type must be present; an event outside the
   * supported set is still this provider's, but with a reason it cannot be
   * transformed.
   */
  function HookCheck(h: Header): (r: HookCheckResult)
    ensures r.isSupportedByProvider <==> IsPresent(h, EventHeader) && IsPresent(h, ContentTypeHeader)
    ensures r.cantTransformReason.Some? <==>
              r.isSupportedByProvider && HeaderGet(h, EventHeader) !in SupportedEvents
    ensures r.cantTransformReason.Some? ==>
              r.cantTransformReason.value == UnsupportedEventReason(HeaderGet(h, EventHeader))
  {
    var event := HeaderGet(h, EventHeader);
    if event == "" || HeaderGet(h, ContentTypeHeader) == "" then
      HookCheckResult(false, None)
    else if event == PushEvent || event == PullRequestEvent then
      HookCheckResult(true, None)
    else
      HookCheckResult(true, Some(UnsupportedEventReason(event)))
  }

  // ---------------------------------------------------------------------
  // Push events

  /** The push ladder: distinct head commit, then not deleted, then a branch ref. */
  function CodePushGuards(e: CodePushEventModel): seq<Guard> {
    [ Guard(e.headCommit.distinct, NotDistinctReason),
      Guard(!e.deleted, DeletedReason),
      Guard(HasPrefix(e.ref, HeadRefPrefix), NotHeadRefReason(e.ref)) ]
  }

  /** What a push builds once its ladder passes. */
  function CodePushParams(e: CodePushEventModel): TriggerAPIParamsModel {
    TriggerAPIParamsModel(e.headCommit.commitHash, e.headCommit.commitMessage,
                          TrimPrefix(e.ref, HeadRefPrefix), None)
  }

  /**
   * A push builds exactly when its head commit is distinct, the ref was not
   * deleted and the ref is a branch; the build is of that branch, at the head
   * commit, with no pull request. A push never fails.
   */
  function TransformCodePushEvent(e: CodePushEventModel): (r: TransformResult)
    ensures !r.Fail?
    ensures r.Success? <==> e.headCommit.distinct && !e.deleted && HasPrefix(e.ref, HeadRefPrefix)
    ensures r.Success? ==>
              && HeadRefPrefix + r.params.branch == e.ref
              && r.params.commitHash == e.headCommit.commitHash
              && r.params.commitMessage == e.headCommit.commitMessage
              && r.params.pullRequestID.None?
  {
    if !e.headCommit.distinct then
      Skip(NotDistinctReason)
    else if e.deleted then
      Skip(DeletedReason)
    else if !HasPrefix(e.ref, HeadRefPrefix) then
      Skip(NotHeadRefReason(e.ref))
    else
      Success(CodePushParams(e))
  }

  /** The push transform is the push ladder: the first failing guard decides. */
  lemma CodePushFollowsLadder(e: CodePushEventModel)
    ensures TransformCodePushEvent(e) == Decide(CodePushGuards(e), CodePushParams(e))
  {
    var gs := CodePushGuards(e);
    if !e.headCommit.distinct {
      assert IsFirstFailure(gs, 0);
    } else if e.deleted {
      assert IsFirstFailure(gs, 1);
    } else if !HasPrefix(e.ref, HeadRefPrefix) {
      assert IsFirstFailure(gs, 2);
    } else {
      assert AllHold(gs);
    }
  }

  /** A push to refs/heads/<b> whose other gates pass builds branch b. */
  lemma CodePushBranchRoundTrip(b: string, deleted: bool, c: CommitModel)
    ensures TransformCodePushEvent(CodePushEventModel(HeadRefPrefix + b, deleted, c))
         == if !c.distinct then Skip(NotDistinctReason)
            else if deleted then Skip(DeletedReason)
            else Success(TriggerAPIParamsModel(c.commitHash, c.commitMessage, b, None))
  {
  }

  /**
   * The reason of a push skip names the gate that fired (and, for a non-branch
   * ref, the ref itself): no two gates share a reason.
   */
  lemma CodePushSkipIdentifiesGate(e: CodePushEventModel)
    ensures TransformCodePushEvent(e) == Skip(NotDistinctReason) <==> !e.headCommit.distinct
    ensures TransformCodePushEvent(e) == Skip(DeletedReason) <==> e.headCommit.distinct && e.deleted
    ensures forall ref ::
              TransformCodePushEvent(e) == Skip(NotHeadRefReason(ref)) <==>
              e.headCommit.distinct && !e.deleted && !HasPrefix(e.ref, HeadRefPrefix) && ref == e.ref
  {
    forall ref ensures NotHeadRefReason(ref) != NotDistinctReason && NotHeadRefReason(ref) != DeletedReason {
      // the three reasons end in different letters
      var r := NotHeadRefReason(ref);
      assert r[|r| - 1] == 'f';
      assert NotDistinctReason[|NotDistinctReason| - 1] == 't';
      assert DeletedReason[|DeletedReason| - 1] == 'd';
    }
    forall ref | NotHeadRefReason(ref) == NotHeadRefReason(e.ref) ensures ref == e.ref {
      ConcatCancel("Ref (", ref, e.ref, ") is not a head ref");
    }
  }

  // ---------------------------------------------------------------------
  // Pull-request events

  /** The commit message of a pull request: its title, then its body after a blank line if there is one. */
  function PullRequestMessage(info: PullRequestInfoModel): (m: string)
    ensures HasPrefix(m, info.title)
    ensures |m| == |info.title| + if info.body == "" then 0 else 2 + |info.body|
  {
    if info.body == "" then info.title else info.title + "\n\n" + info.body
  }

  /**
   * Given the title, the body can be read back from a pull request's commit
   * message: the message is the title alone for an empty body, and otherwise
   * starts with the title and a blank line, after which the body follows.
   */
  lemma PullRequestMessageParts(info: PullRequestInfoModel)
    ensures HasPrefix(PullRequestMessage(info), info.title)
    ensures info.body == "" ==> PullRequestMessage(info) == info.title
    ensures info.body != "" ==> HasPrefix(PullRequestMessage(info), info.title + "\n\n")
    ensures info.body != "" ==>
              TrimPrefix(PullRequestMessage(info), info.title + "\n\n") == info.body
  {
  }

  /** The pull-request ladder: an action, a build-worthy one, not merged, not known unmergeable. */
  function PullRequestGuards(e: PullRequestEventModel): seq<Guard> {
    [ Guard(e.action != "", NoActionReason),
      Guard(e.action in BuildActions, ActionNotBuildWorthyReason(e.action)),
      Guard(!e.pullRequestInfo.merged, AlreadyMergedReason),
      Guard(e.pullRequestInfo.mergeable != Some(false), NotMergeableReason) ]
  }

  /** What a pull request builds once its ladder passes. */
  function PullRequestParams(e: PullRequestEventModel): TriggerAPIParamsModel {
    TriggerAPIParamsModel(e.pullRequestInfo.branchInfo.commitHash, PullRequestMessage(e.pullRequestInfo),
                          e.pullRequestInfo.branchInfo.ref, Some(e.pullRequestID))
  }

  /**
   * A pull-request event builds exactly when its action is opened, reopened or
   * synchronize, it is not merged and it is not known to be unmergeable (an
   * undecided mergeability builds); the build is of the head branch at its
   * head commit, carrying the pull request's number. It never fails.
   */
  function TransformPullRequestEvent(e: PullRequestEventModel): (r: TransformResult)
    ensures !r.Fail?
    ensures r.Success? <==>
              e.action in BuildActions && !e.pullRequestInfo.merged && e.pullRequestInfo.mergeable != Some(false)
    ensures r.Success? ==>
              && r.params.branch == e.pullRequestInfo.branchInfo.ref
              && r.params.commitHash == e.pullRequestInfo.branchInfo.commitHash
              && r.params.commitMessage == PullRequestMessage(e.pullRequestInfo)
              && r.params.pullRequestID == Some(e.pullRequestID)
  {
    var info := e.pullRequestInfo;
    if e.action == "" then
      Skip(NoActionReason)
    else if e.action !in BuildActions then
      Skip(ActionNotBuildWorthyReason(e.action))
    else if info.merged then
      Skip(AlreadyMergedReason)
    else if info.mergeable == Some(false) then
      Skip(NotMergeableReason)
    else
      Success(PullRequestParams(e))
  }

  /** The pull-request transform is the pull-request ladder: the first failing guard decides. */
  lemma PullRequestFollowsLadder(e: PullRequestEventModel)
    ensures TransformPullRequestEvent(e) == Decide(PullRequestGuards(e), PullRequestParams(e))
  {
    var gs := PullRequestGuards(e);
    if e.action == "" {
      assert IsFirstFailure(gs, 0);
    } else if e.action !in BuildActions {
      assert IsFirstFailure(gs, 1);
    } else if e.pullRequestInfo.merged {
      assert IsFirstFailure(gs, 2);
    } else if e.pullRequestInfo.mergeable == Some(false) {
      assert IsFirstFailure(gs, 3);
    } else {
      assert AllHold(gs);
    }
  }

  /** The event e with its pull request's mergeability replaced by m. */
  function WithMergeable(e: PullRequestEventModel, m: Option<bool>): PullRequestEventModel {
    e.(pullRequestInfo := e.pullRequestInfo.(mergeable := m))
  }

  /**
   * Mergeability is a genuine tri-state: undecided builds like true, while
   * false skips whenever the earlier gates pass.
   */
  lemma MergeableTriState(e: PullRequestEventModel)
    ensures TransformPullRequestEvent(WithMergeable(e, None)) == TransformPullRequestEvent(WithMergeable(e, Some(true)))
    ensures e.action in BuildActions && !e.pullRequestInfo.merged ==>
              && TransformPullRequestEvent(WithMergeable(e, None)).Success?
              && TransformPullRequestEvent(WithMergeable(e, Some(false))) == Skip(NotMergeableReason)
  {
  }

  /** The reason of a pull-request skip names the gate that fired: no two gates share a reason. */
  lemma PullRequestSkipIdentifiesGate(e: PullRequestEventModel)
    ensures TransformPullRequestEvent(e) == Skip(NoActionReason) <==> e.action == ""
    ensures TransformPullRequestEvent(e) == Skip(ActionNotBuildWorthyReason(e.action)) <==>
              e.action != "" && e.action !in BuildActions
    ensures TransformPullRequestEvent(e) == Skip(AlreadyMergedReason) <==>
              e.action in BuildActions && e.pullRequestInfo.merged
    ensures TransformPullRequestEvent(e) == Skip(NotMergeableReason) <==>
              e.action in BuildActions && !e.pullRequestInfo.merged && e.pullRequestInfo.mergeable == Some(false)
  {
  }

  // ---------------------------------------------------------------------
  // Transform

  /**
   * Reads the body and dispatches on the event header. A missing body, a body
   * that does not decode and an event outside the supported set are errors,
   * never skips; a decoded push or pull-request payload goes to its ladder.
   */
  function Transform(req: Request): (r: TransformResult)
    ensures req.body.NoBody? ==> r == Fail(NoBodyError)
    ensures !r.Fail? ==> req.body.Content? && HeaderGet(req.header, EventHeader) in SupportedEvents
    ensures req.body.Content? && HeaderGet(req.header, EventHeader) == PushEvent ==>
              if req.body.asCodePush.Decoded? then r == TransformCodePushEvent(req.body.asCodePush.value)
              else r.Fail?
    ensures req.body.Content? && HeaderGet(req.header, EventHeader) == PullRequestEvent ==>
              if req.body.asPullRequest.Decoded? then r == TransformPullRequestEvent(req.body.asPullRequest.value)
              else r.Fail?
  {
    var event := HeaderGet(req.header, EventHeader);
    if req.body.NoBody? then
      Fail(NoBodyError)
    else if event == PushEvent then
      match req.body.asCodePush
      case DecodeError(detail) => Fail(ParseBodyError(detail))
      case Decoded(push) => TransformCodePushEvent(push)
    else if event == PullRequestEvent then
      match req.body.asPullRequest
      case DecodeError(detail) => Fail(ParseBodyError(detail))
      case Decoded(pr) => TransformPullRequestEvent(pr)
    else
      Fail(UnsupportedTransformEventError(event))
  }

  /**
   * The header check and the transform agree: on a request the check accepts,
   * a body that decodes under both schemas fails exactly when the check gave
   * a reason it cannot be transformed.
   */
  lemma HookCheckAgreesWithTransform(req: Request)
    requires HookCheck(req.header).isSupportedByProvider
    ensures req.body.Content? && req.body.asCodePush.Decoded? && req.body.asPullRequest.Decoded? ==>
              (HookCheck(req.header).cantTransformReason.None? <==> !Transform(req).Fail?)
    ensures HookCheck(req.header).cantTransformReason.Some? ==> Transform(req).Fail?
  {
  }
}
