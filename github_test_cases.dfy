/**
 * The provider's test cases, one lemma per case: each states what the test
 * asserts of the provider's result, for the inputs the test builds.
 */
module GithubTestCases {
  import opened Wrappers
  import opened GithubModels
  import opened Github

  const SampleHash := "83b86e5f286f546dc5a4a58db66ceef44460c85e"
  const SampleCommitMessage := "re-structuring Hook Providers, with added tests"

  /** The sample push payload, as decoded. */
  const SampleCodePush :=
    CodePushEventModel("refs/heads/master", false, CommitModel(true, SampleHash, SampleCommitMessage))

  /** The sample pull-request payload, as decoded. */
  const SamplePullRequest :=
    PullRequestEventModel("opened", 12,
      PullRequestInfoModel("PR test", "PR text body", false, Some(true), BranchInfoModel("master", SampleHash)))

  const ZeroCommit := CommitModel(false, "", "")
  const ZeroPullRequestInfo := PullRequestInfoModel("", "", false, None, BranchInfoModel("", ""))

  // HookCheck

  lemma HookCheckPushAndPullRequest()
    ensures HookCheck(map[EventHeader := "push", ContentTypeHeader := "application/json"])
         == HookCheckResult(true, None)
    ensures HookCheck(map[EventHeader := "pull_request", ContentTypeHeader := "application/json"])
         == HookCheckResult(true, None)
  {
  }

  lemma HookCheckPing()
    ensures HookCheck(map[EventHeader := "ping", ContentTypeHeader := "application/json"])
         == HookCheckResult(true, Some("Unsupported GitHub hook event type: ping"))
  {
    assert UnsupportedEventReason("ping") == "Unsupported GitHub hook event type: ping";
  }

  lemma HookCheckNotGithub()
    ensures HookCheck(map[ContentTypeHeader := "application/json"]) == HookCheckResult(false, None)
  {
  }

  lemma HookCheckMissingContentType()
    ensures HookCheck(map[EventHeader := "push"]) == HookCheckResult(false, None)
  {
  }

  // Transform

  /** A body that is not JSON ("hi") decodes under neither schema and is never a skip, for either event. */
  lemma TransformUndecodableBodyIsNotSkipped(pushError: string, pullRequestError: string)
    ensures var body := Content(DecodeError(pushError), DecodeError(pullRequestError));
            && !Transform(Request(map[EventHeader := "push"], body)).ShouldSkip()
            && !Transform(Request(map[EventHeader := "pull_request"], body)).ShouldSkip()
  {
  }

  lemma TransformNoBody()
    ensures var r := Transform(Request(map[EventHeader := "push"], NoBody));
            !r.ShouldSkip() && r.Error() == Some("Failed to read content of request body: no or empty request body")
  {
  }

  /** The sample push, whatever the same body gives under the pull-request schema. */
  lemma TransformSampleCodePush(other: Decoded<PullRequestEventModel>)
    ensures var r := Transform(Request(map[EventHeader := "push", ContentTypeHeader := "application/json"],
                                       Content(Decoded(SampleCodePush), other)));
            && r.Error().None? && !r.ShouldSkip()
            && r.TriggerAPIParams() == Some(TriggerAPIParamsModel(SampleHash, SampleCommitMessage, "master", None))
  {
  }

  /** The sample pull request, whatever the same body gives under the push schema. */
  lemma TransformSamplePullRequest(other: Decoded<CodePushEventModel>)
    ensures var r := Transform(Request(map[EventHeader := "pull_request", ContentTypeHeader := "application/json"],
                                       Content(other, Decoded(SamplePullRequest))));
            && r.Error().None? && !r.ShouldSkip()
            && r.TriggerAPIParams() == Some(TriggerAPIParamsModel(SampleHash, "PR test\n\nPR text body", "master", Some(12)))
  {
    assert PullRequestMessage(SamplePullRequest.pullRequestInfo) == "PR test\n\nPR text body";
  }

  // transformCodePushEvent

  lemma CodePushNotDistinct()
    ensures var r := TransformCodePushEvent(CodePushEventModel("", false, ZeroCommit));
            r.ShouldSkip() && r.Error() == Some("Head Commit is not Distinct")
  {
  }

  lemma CodePushDeleted()
    ensures var r := TransformCodePushEvent(CodePushEventModel("", true, ZeroCommit.(distinct := true)));
            r.ShouldSkip() && r.Error() == Some("This is a 'Deleted' event, no build can be started")
  {
  }

  lemma CodePushNotHeadRef()
    ensures var r := TransformCodePushEvent(CodePushEventModel("refs/pull/a", false, ZeroCommit.(distinct := true)));
            r.ShouldSkip() && r.Error() == Some("Ref (refs/pull/a) is not a head ref")
  {
    assert "refs/pull/a"[5] != HeadRefPrefix[5];
    assert NotHeadRefReason("refs/pull/a") == "Ref (refs/pull/a) is not a head ref";
  }

  lemma CodePushDoTransform()
    ensures var r := TransformCodePushEvent(
              CodePushEventModel("refs/heads/master", false, CommitModel(true, SampleHash, SampleCommitMessage)));
            && r.Error().None? && !r.ShouldSkip()
            && r.TriggerAPIParams() == Some(TriggerAPIParamsModel(SampleHash, SampleCommitMessage, "master", None))
  {
  }

  // transformPullRequestEvent

  lemma PullRequestUnsupportedAction()
    ensures var r := TransformPullRequestEvent(PullRequestEventModel("labeled", 0, ZeroPullRequestInfo));
            r.ShouldSkip() && r.Error() == Some("Pull Request action doesn't require a build: labeled")
  {
    assert ActionNotBuildWorthyReason("labeled") == "Pull Request action doesn't require a build: labeled";
  }

  lemma PullRequestEmptyAction()
    ensures var r := TransformPullRequestEvent(PullRequestEventModel("", 0, ZeroPullRequestInfo));
            r.ShouldSkip() && r.Error() == Some("No Pull Request action specified")
  {
  }

  lemma PullRequestAlreadyMerged()
    ensures var r := TransformPullRequestEvent(
              PullRequestEventModel("opened", 0, ZeroPullRequestInfo.(merged := true)));
            r.ShouldSkip() && r.Error() == Some("Pull Request already merged")
  {
  }

  lemma PullRequestNotMergeable()
    ensures var r := TransformPullRequestEvent(
              PullRequestEventModel("reopened", 0, ZeroPullRequestInfo.(mergeable := Some(false))));
            r.ShouldSkip() && r.Error() == Some("Pull Request is not mergeable")
  {
  }

  /** Undecided and true mergeability both build, with the title alone as message. */
  lemma PullRequestMergeableUndecidedOrTrue(mergeable: Option<bool>)
    requires mergeable == None || mergeable == Some(true)
    ensures var r := TransformPullRequestEvent(
              PullRequestEventModel("synchronize", 12,
                PullRequestInfoModel("PR test", "", false, mergeable, BranchInfoModel("master", SampleHash))));
            && r.Error().None? && !r.ShouldSkip()
            && r.TriggerAPIParams() == Some(TriggerAPIParamsModel(SampleHash, "PR test", "master", Some(12)))
  {
  }

  lemma PullRequestTitleAndBody()
    ensures var r := TransformPullRequestEvent(SamplePullRequest);
            && r.Error().None? && !r.ShouldSkip()
            && r.TriggerAPIParams() == Some(TriggerAPIParamsModel(SampleHash, "PR test\n\nPR text body", "master", Some(12)))
  {
    assert PullRequestMessage(SamplePullRequest.pullRequestInfo) == "PR test\n\nPR text body";
  }
}
