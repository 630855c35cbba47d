# GitHub webhook provider — a Dafny model

This project models the decision engine of the GitHub provider of a webhook
normaliser for a CI service. A GitHub webhook consists of request headers and a
JSON body. The provider turns it into one of three outcomes:

- skip, with a human-readable reason;
- fail, with an error;
- build, with canonical trigger parameters: commit hash, commit message,
  branch and an optional pull-request id.

The provider exposes two operations:

- `HookCheck(header)` looks only at the headers. It says whether the request is
  GitHub's and whether its event type can be transformed.
- `Transform(request)` reads the body, dispatches on the `X-Github-Event`
  header and runs one of two ordered guard ladders:
  - push: distinct head commit → not deleted → ref under `refs/heads/`;
  - pull request: action given → action in {opened, reopened, synchronize} →
    not merged → not known to be unmergeable.

`providers/github/github.go` is not part of this model. Its behaviour is taken
from the assertions of `providers/github/github_test.go`. Where those
assertions leave a choice open, the model makes one, and "Left out" lists
each such choice.

Layout:

- `wrappers.dfy` — `Option`, standing in for Go's nil-able pointers and errors.
- `strings.dfy` — `HasPrefix` and `TrimPrefix` with Go's `strings` semantics.
- `github_models.dfy` — the value records (`CommitModel`,
  `CodePushEventModel`, `BranchInfoModel`, `PullRequestInfoModel`,
  `PullRequestEventModel`, `TriggerAPIParamsModel`, `HookCheckResult`), the
  result `TransformResult = Skip | Fail | Success`, headers and request
  bodies. A body is absent, or is given by what it decodes to, record or
  error, under each of the two payload schemas.
  - `TransformResult` exposes the provider's record view through
    `ShouldSkip()`, `Error()` and `TriggerAPIParams()`. As in the provider, a
    skip reports its reason in `Error()`.
  - `Mergeable` is `Option<bool>`, a tri-state.
- `guard_ladder.dfy` — the reference definition of an ordered guard ladder:
  the first guard that fails decides the skip, and the event builds when all
  guards hold.
- `github.dfy` — `HookCheck`, `TransformCodePushEvent`,
  `TransformPullRequestEvent` and `Transform`, plus the lemmas relating them
  to the ladders, to each other and to their inverses.
- `github_test_cases.dfy` — one lemma per test case of the provider, or per pair of like cases.

## Model

| member | source | states |
|---|---|---|
| `Github.HookCheck` | providers/github/github_test.go:41-96 | Supported exactly when both `X-Github-Event` and `Content-Type` are present. A cannot-transform reason is given exactly when the request is supported but its event is outside {push, pull_request}; the reason is "Unsupported GitHub hook event type: " followed by the event. |
| `Github.HookCheckAgreesWithTransform` | providers/github/github_test.go:66-169 | On a request the header check accepts, a body that decodes under both schemas fails the transform exactly when the check gave a cannot-transform reason. With such a reason the transform always fails. |
| `Github.Transform` | providers/github/github_test.go:98-169 | A missing body fails with "Failed to read content of request body: no or empty request body". A body that does not decode under the event's schema is a failure, never a skip. Skip or build happens only under a push or pull_request event. In that case the result is that event's ladder applied to the body's decoded record. |
| `Github.TransformCodePushEvent` | providers/github/github_test.go:171-225 | Never fails. Builds exactly when the head commit is distinct, the ref is not deleted and the ref is under `refs/heads/`. The build's branch is the ref minus that prefix; hash and message come from the head commit; there is no pull-request id. |
| `Github.CodePushFollowsLadder` | providers/github/github_test.go:171-204 | The push transform equals the ladder distinct → not deleted → head ref with its three reasons: the first failing guard decides, so the distinct and deleted checks outrank the ref check. |
| `Github.CodePushBranchRoundTrip` | providers/github/github_test.go:206-224 | A push to `refs/heads/` + b builds branch b with the head commit's hash and message, unless the commit is not distinct or the ref was deleted. |
| `Github.CodePushSkipIdentifiesGate` | providers/github/github_test.go:172-204 | Each push skip reason occurs exactly when its own gate is the first to fail. The not-a-head-ref reason also names exactly the offending ref. |
| `Github.TransformPullRequestEvent` | providers/github/github_test.go:227-351 | Never fails. Builds exactly when the action is opened, reopened or synchronize, the pull request is not merged and its mergeability is not known to be false. The build takes branch and hash from the head branch, the message from title and body, and the pull-request id from the event's number. |
| `Github.PullRequestFollowsLadder` | providers/github/github_test.go:227-271 | The pull-request transform equals the ladder action given → action build-worthy → not merged → not unmergeable with its four reasons, first failure deciding. |
| `Github.PullRequestSkipIdentifiesGate` | providers/github/github_test.go:228-271 | Each pull-request skip reason occurs exactly when its own gate is the first to fail. |
| `Github.MergeableTriState` | providers/github/github_test.go:259-323 | Undecided mergeability gives the same outcome as true. When the earlier gates pass, undecided builds and false skips with "Pull Request is not mergeable". |
| `Github.PullRequestMessage` | providers/github/github_test.go:291-350 | The commit message starts with the title, and is as long as the title alone for an empty body, or as the title, a blank line and the body otherwise. |
| `Github.PullRequestMessageParts` | providers/github/github_test.go:273-350 | Given the title, the body is read back from the message: for an empty body the message is the title alone; otherwise it starts with title + "\n\n", and stripping that prefix gives the body. |
| `GuardLadder.FirstFailure` | providers/github/github_test.go:171-271 | Returns no index exactly when every guard holds; otherwise returns the index of the first guard that does not hold. |
| `GuardLadder.Decide` | providers/github/github_test.go:171-271 | A ladder never fails. It builds, with the given parameters, exactly when every guard holds; otherwise it skips with the reason of the first failing guard. |
| `GithubModels.TransformResult.ShouldSkip` | providers/github/github_test.go:172-270 | The flag is set exactly for a skip; a skip reports its reason as the error and carries no parameters. |
| `GithubModels.TransformResult.Error` | providers/github/github_test.go:121-129 | The error is absent exactly for a build, so skip, error and build never co-occur. |
| `GithubModels.TransformResult.TriggerAPIParams` | providers/github/github_test.go:131-148 | Parameters are present exactly when no error is. |
| `Strings.TrimPrefix` | providers/github/github_test.go:206-224 | When the prefix is present, gluing it back onto the result gives the input; otherwise the input is unchanged. |
| `GithubTestCases.HookCheckPushAndPullRequest` | providers/github/github_test.go:44-64 | push and pull_request with Content-Type present: supported, no reason. |
| `GithubTestCases.HookCheckPing` | providers/github/github_test.go:66-75 | ping with Content-Type present: supported, with reason "Unsupported GitHub hook event type: ping". |
| `GithubTestCases.HookCheckNotGithub` | providers/github/github_test.go:77-85 | No event header: not supported, no reason. |
| `GithubTestCases.HookCheckMissingContentType` | providers/github/github_test.go:87-95 | No Content-Type: not supported, no reason. |
| `GithubTestCases.TransformUndecodableBodyIsNotSkipped` | providers/github/github_test.go:101-119 | A body that does not decode is not skipped, for push or pull_request. |
| `GithubTestCases.TransformNoBody` | providers/github/github_test.go:121-129 | No body: not skipped, error "Failed to read content of request body: no or empty request body". |
| `GithubTestCases.TransformSampleCodePush` | providers/github/github_test.go:131-148 | The sample push payload builds master at its head commit, with no pull-request id. |
| `GithubTestCases.TransformSamplePullRequest` | providers/github/github_test.go:150-168 | The sample pull-request payload builds master with message "PR test\n\nPR text body" and pull-request id 12. |
| `GithubTestCases.CodePushNotDistinct` | providers/github/github_test.go:172-180 | Non-distinct head commit with an empty ref: skip "Head Commit is not Distinct". |
| `GithubTestCases.CodePushDeleted` | providers/github/github_test.go:182-193 | Distinct but deleted with an empty ref: skip "This is a 'Deleted' event, no build can be started". |
| `GithubTestCases.CodePushNotHeadRef` | providers/github/github_test.go:195-204 | Ref refs/pull/a: skip "Ref (refs/pull/a) is not a head ref". |
| `GithubTestCases.CodePushDoTransform` | providers/github/github_test.go:206-224 | refs/heads/master: build branch master with the commit's hash and message. |
| `GithubTestCases.PullRequestUnsupportedAction` | providers/github/github_test.go:228-236 | Action labeled: skip "Pull Request action doesn't require a build: labeled". |
| `GithubTestCases.PullRequestEmptyAction` | providers/github/github_test.go:238-244 | Empty action: skip "No Pull Request action specified". |
| `GithubTestCases.PullRequestAlreadyMerged` | providers/github/github_test.go:246-257 | Merged: skip "Pull Request already merged". |
| `GithubTestCases.PullRequestNotMergeable` | providers/github/github_test.go:259-271 | Mergeable false: skip "Pull Request is not mergeable". |
| `GithubTestCases.PullRequestMergeableUndecidedOrTrue` | providers/github/github_test.go:273-323 | Mergeable undecided or true, empty body: build with the title alone as message and pull-request id 12. |
| `GithubTestCases.PullRequestTitleAndBody` | providers/github/github_test.go:325-350 | Title and body: message "PR test\n\nPR text body". |

## Left out

- `providers/github/github.go` is not part of this model. The behaviour above follows the test assertions, plus the choices listed below where the tests leave it open.
- Reading the body stream and JSON decoding are not modelled. A body is `NoBody` (absent or empty) or `Content(asCodePush, asPullRequest)`. Each part is the record, or the decoder's error message, that the content gives under that payload schema. The parts are independent, so a body can decode under one schema and fail under the other.
- Pull-request action whitelist: the tests pin opened, reopened and synchronize as build-worthy and labeled as not. Fixing the set at exactly those three, so that closed, edited and the like skip, is the model's choice.
- HookCheck: the tests pin push and pull_request as supported and ping as unsupported. Fixing the supported set at exactly those two is the model's choice.
- Push ladder order: the tests pin that the distinct and deleted checks come before the ref check, since both cases have an empty ref. The tests do not pin that distinct comes before deleted: the not-distinct case has deleted false. That order is the model's choice.
- Pull-request ladder order: the tests pin only that the empty-action check comes before the whitelist check. Two further orderings are the model's choice:
  - The action checks come before the merged and mergeable checks. The labeled case is not merged, and the merged and not-mergeable cases use build-worthy actions. As a result, action closed on a merged pull request skips with "Pull Request action doesn't require a build: closed", not "Pull Request already merged".
  - The merged check comes before the mergeable check. The merged case has mergeable undecided.
- Transform, undecodable body: the tests pin only that this is not a skip. The error wording ("Failed to parse request body: " + detail) is the model's own.
- Transform, unsupported event: no test sends one. Failing rather than skipping, and the wording "Unsupported GitHub Webhook event: " + event, are the model's own choices.
- Transform, check order: the model checks for a missing body before it looks at the event type. This is its own choice; the no-body test uses a push event.
- HookCheck: only the presence of `Content-Type` is modelled, not its value, because the tests only vary its presence.
- HookCheck, check order: the model checks that both headers are present before it looks at the event type, so `ping` without `Content-Type` is unsupported and has no reason. This is the model's choice, because the only test without `Content-Type` uses `push`.
- Transform ignores `Content-Type`: a body that decodes goes on to its ladder whether or not that header is sent. This is the model's choice. The tests without `Content-Type` pin only that a missing body fails first and that an undecodable body is not a skip.
- HookCheck: headers are a map from canonical name to a single value. A header reads as "" when absent, as Go's `Header.Get` does, so an explicitly empty value counts as absent. Header-name canonicalisation and multi-valued headers are not modelled.
- The pull-request id is an unbounded `int`. The provider copies it without arithmetic, so Go's integer width plays no part.
- The reverse-proxy helper (`vendor/github.com/bitrise-io/api-utils/proxy/proxy.go`) is not modelled: it is HTTP plumbing with no decision logic.
