# github-backport, modelled in Dafny

`backportPullRequest` takes a pull request of a GitHub repository and a base
branch. It copies the pull request's commits onto a new branch `head` cut from
`base`, opens a pull request from `head` into `base` and returns its number.
The steps run in a fixed order:

1. fetch the SHA of `base`;
2. fetch the source pull request's commits;
3. create `head` at that SHA;
4. call the `_intercept` test hook;
5. cherry-pick the commits onto `head`;
6. create the pull request.

When step 5 or 6 fails, `head` is deleted and an error is thrown. A failed
cherry-pick becomes ``Commits <JSON of the commits> could not be cherry-picked on top of <base>``.
A missing `body`, `head` or `title` option defaults to `Backport #<n>.`,
`backport-<n>-on-<base>` and `Backport #<n> on <base>`.

Layout:

- `wrappers.dfy`: `Option` and `Result`.
- `decimal.dfy` (`Decimal`): how `${n}` renders a pull-request number, and its inverse.
- `defaults.dfy` (`Defaults`): the options and the given-or-default values.
- `host.dfy` (`GitHost`): the host.
  - `Repo` is a snapshot of the references, the pull requests, each pull request's commits, the next pull-request number and a log of calls.
  - Each collaborator call is a pure step on `Repo`.
  - The `Host` class holds the same fields. Its methods mutate them, and each method is proved equal to its step.
- `run.dfy` (`BackportRun`): `Run` is one whole backport as a function of the state before it, the settled options and a fault oracle.
- `properties.dfy` (`BackportProperties`): what a run does, scenario by scenario.
- `backport.dfy` (`Backport`): the imperative `backportPullRequest` of `src/index.ts` over a `Host`. It is proved equal to `Run`, and its main guarantees are restated on it.
- `backport_flow.dfy` (`BackportFlow`): the Flow variant in `src/index.js`.

Which call fails, and with what error, is decided by a `Faults` argument.
Every failure pattern is therefore covered. The host adds its own failures:
- fetching a reference or pull request that does not exist gives `NotFound`;
- creating a reference that exists gives `AlreadyExists`;
- deleting one that does not exist gives `NotFound`.

Where the intended design and the code differ, the model follows the code.
Each difference is stated in a proved contract:

- The default head is `backport-<n>-on-<base>`. `src/index.test.ts:135-139` expects `backport-<n>-to-<base>`, which this code never produces (`DefaultHeadIsNotTestExpectation`).
- `_intercept` is awaited before the `try`. When it fails, the new `head` stays on the host (`InterceptFailureLeavesHead`).
- The compensating delete is awaited without a guard. When it fails, its error replaces the original one (`FailedDeleteMasksError`).
- No title is fetched from the source pull request. The default title is built from the number and the base only: `Resolve`'s title ensures says a missing title reads back as exactly `Backport #<n> on <base>`, and `TemplateReadBack` says no other string reads back so.

## Model

| member | source | states |
|---|---|---|
| Decimal.NatToString | src/index.ts:45-47 | the rendering of the pull-request number is a non-empty string of decimal digits with a leading `0` only for 0 |
| Decimal.ParseNatToString | src/index.ts:45-47 | reading the rendered number back as decimal gives the number |
| Decimal.NatToStringInjective | src/index.ts:45-47 | different numbers render differently |
| Decimal.NatToStringParse | src/index.ts:45-47 | every canonical numeral (non-empty, all digits, no leading `0` unless it is `0`) is the rendering of its own value, so rendering is onto the canonical numerals |
| Defaults.Resolve | src/index.ts:44-48 | base and number are passed through; a given body, head or title is used verbatim; a missing body reads back as `Backport #` + n + `.`, a missing head as `backport-` + n + `-on-` + base and a missing title as `Backport #` + n + ` on ` + base (the reading refuses leading zeros, so with TemplateReadBack each default is exactly that string) |
| Defaults.TemplateRoundTrip | src/index.ts:45-47 | a template `prefix + ${n} + infix + tail` whose infix does not start with a digit reads back as exactly n and tail |
| Defaults.TemplateReadBack | src/index.ts:45-47 | conversely, a string that reads back as n and tail is exactly `prefix + ${n} + infix + tail` |
| Defaults.DefaultHeadInjective | src/index.ts:46 | two default heads are equal only when the number and the base are equal |
| Defaults.DefaultHeadIsNotTestExpectation | src/index.test.ts:135-139 | the default head differs from `backport-<n>-to-<base>`, the name the test expects |
| GitHost.Repo.FetchReferenceSha | src/index.ts:60-65 | the specification of the fetch: only the call is logged; it succeeds exactly when no fault is injected and the reference exists, with that reference's SHA; an injected fault is returned as is |
| GitHost.Repo.FetchPullCommits | src/index.ts:68-73 | only the call is logged; it succeeds exactly when no fault is injected and the pull request is known, with its stored commit list; an injected fault is returned as is |
| GitHost.Repo.CreateReference | src/index.ts:76-82 | only the call and the references change; it succeeds exactly when no fault is injected and the name is free, and then adds the reference at the SHA; otherwise the references are unchanged, with AlreadyExists for a taken name |
| GitHost.Repo.InterceptCommits | src/index.ts:85 | only the hook call with its commits is logged; it fails exactly when a fault is injected |
| GitHost.Repo.CherryPickCommits | src/index.ts:90-96 | only the call and `head` change; no reference is added or removed; it succeeds exactly when `head` exists and the pick succeeds, returning the new tip, where `head` now points |
| GitHost.Repo.CreatePullRequest | src/index.ts:107-116 | references and commits stay, the call is logged; it succeeds exactly when no fault is injected, returning the next number, appending the pull request with the given fields under it and advancing the numbering; on failure only the log changes |
| GitHost.Repo.DeleteReference | src/index.ts:121 | only the call and the references change; it succeeds exactly when no fault is injected and the reference exists, and then removes exactly it; otherwise the references are unchanged, with NotFound for a missing one |
| GitHost.Host.FetchReferenceSha | src/index.ts:60-65 | logs the call; returns the SHA of the reference, the injected error, or NotFound for a missing reference; changes nothing else |
| GitHost.Host.FetchPullCommits | src/index.ts:68-73 | logs the call; returns the pull request's commits in stored order, the injected error, or NotFound; changes nothing else |
| GitHost.Host.CreateReference | src/index.ts:76-82 | logs the call; adds the reference at the given SHA, or fails with the injected error or AlreadyExists and leaves the references as they were |
| GitHost.Host.InterceptCommits | src/index.ts:85 | logs the hook call with the commits it is given; succeeds or fails with the injected error; changes nothing else |
| GitHost.Host.CherryPickCommits | src/index.ts:90-96 | logs the call; moves only `head` (to the new tip, or where a failing pick left it); fails with NotFound when `head` is missing |
| GitHost.Host.CreatePullRequest | src/index.ts:107-116 | logs the call; on success appends one pull request with the given fields under the next number and returns that number |
| GitHost.Host.DeleteReference | src/index.ts:121 | logs the call; removes exactly that reference, or fails with the injected error or NotFound and leaves the references as they were |
| BackportRun.Serialize | src/index.ts:101-103 | `JSON.stringify` of the commit list is bracketed, is `[]` exactly for no commits, and contains every commit between double quotes (see Left out for escaping) |
| BackportRun.PickFailureMessage | src/index.ts:100-104 | the message starts with `Commits ` and the serialized commits, contains `could not be cherry-picked`, and ends with the base |
| BackportRun.Attempt | src/index.ts:87-118 | succeeds with the next pull-request number exactly when `head` exists and the cherry-pick and the creation both succeed; a failed pick gives the rewrapped message; a failed creation gives its own error unchanged; never adds or removes a reference; adds no pull request on failure |
| BackportRun.Rollback | src/index.ts:119-124 | always throws; it issues one delete of `head`; when the delete succeeds it throws the original error with `head` removed; when the delete fails it throws the delete's error (the injected one, or NotFound when `head` is already gone) and the references are unchanged; pull requests are untouched |
| BackportRun.Run | src/index.ts:60-124 | a run only appends to the log, never changes the source commits, and on success returns the next number with `head` present |
| BackportProperties.LookupFailureChangesNothing | src/index.ts:60-73 | when fetching the base SHA or the commits fails: that error is returned unchanged; refs, pull requests and numbering are untouched; the log holds only the one or two fetches, so no create and no delete |
| BackportProperties.CreateRefFailureChangesNothing | src/index.ts:76-82 | when creating `head` fails: the error (injected, or AlreadyExists for a taken name) is returned; refs and pull requests are untouched; no delete is made |
| BackportProperties.HeadCreatedAtBaseSha | src/index.ts:60-82 | after both fetches succeed, the run's first three calls are the two fetches and the creation of `head` at the fetched SHA of `base`, and no later call creates a reference; when a fetch fails no reference creation is made |
| BackportProperties.CallsAfterLookup | src/index.ts:60-124 | once both fetches succeed, the calls of a run are a prefix of the six-call protocol of at least three calls, possibly followed by one delete of `head` |
| BackportProperties.CommitsPassedAsFetched | src/index.ts:68-96 | `_intercept` and then the cherry-pick receive exactly the fetched commit list, in order |
| BackportProperties.InterceptFailureLeavesHead | src/index.ts:85 | when the hook fails: its error is thrown; `head` stays at the base SHA; no delete is made |
| BackportProperties.RollbackTrace | src/index.ts:87-124 | after a failed cherry-pick or pull-request creation: the run fails; it adds no pull request; its last call is the single delete of `head`; after a failed pick, pull-request creation is never called |
| BackportProperties.CherryPickFailureRollsBack | src/index.ts:98-123 | a failed cherry-pick throws the rewrapped message; once the delete succeeds, refs and pull requests are as before the run |
| BackportProperties.PullFailureRollsBack | src/index.ts:106-123 | a failed pull-request creation is re-thrown unchanged; once the delete succeeds, refs and pull requests are as before the run |
| BackportProperties.RefsAfterRollback | src/index.ts:119-123 | a successful compensating delete restores the references exactly to their state before the run |
| BackportProperties.FailedDeleteMasksError | src/index.ts:121 | when the compensating delete fails, its error is what the caller gets, and `head` remains |
| BackportProperties.SucceedsIffPublishes | src/index.ts:60-118 | a run succeeds exactly when every step before the cherry-pick succeeds, the cherry-pick succeeds and the pull request is created |
| BackportProperties.SuccessOpensOnePull | src/index.ts:107-118 | on success exactly one pull request `{base, head, title, body}` is appended; its number is new and is returned; `head` is at the picked tip; the log is the six calls in order, with no delete |
| BackportProperties.OnlyHeadRefChanges | src/index.ts:60-124 | on every path, no reference other than `head` (in particular not `base`) is created, moved or deleted |
| BackportProperties.Atomicity | src/index.ts:87-124 | when `head` was absent before the run, and the cherry-pick or the pull-request creation fails, and the delete succeeds: `head` is absent again, and refs and pull requests equal their state before the run |
| BackportProperties.DanglingHeadCauses | src/index.ts:85-124 | when `head` was absent and the run fails, `head` is left behind exactly when the hook failed after creating it or the compensating delete failed |
| BackportProperties.RepeatedRunConflicts | src/index.ts:76-82 | after a successful run, the same run with working lookups fails with AlreadyExists for `head` and leaves the refs and pull requests of the first run untouched |
| BackportProperties.RunPreservesValid | src/index.ts:107-116 | every run keeps all pull-request numbers below the next number and only appends pull requests |
| BackportProperties.RunGuarantees | src/index.ts:60-124 | on success: a fresh pull-request number on a valid host, exactly the new pull request appended, `head` present and the six-call log; a lookup failure changes no reference or pull request and issues no delete; atomicity as in Atomicity |
| Backport.BackportPullRequest | src/index.ts:22-125 | the result and the host's new state are those of `Run` on the settled options. On success: one new pull request, with a fresh number, the settled fields and the exact six-call log, and `head` remains. A lookup failure changes nothing. Atomicity holds as in the lemma |
| BackportFlow.ResolveFlow | src/index.js:46-50 | the defaults of the Flow variant, keyed by `number`: base and number pass through, given values are used verbatim, and each missing value reads back as its template filled with the number (and the base) |
| BackportFlow.FlowDefaultsAgree | src/index.js:46-50 | the defaults computed from the `number` option equal those of the TypeScript variant; a given head is used verbatim; otherwise the head is `backport-<number>-on-<base>` |
| BackportFlow.BackportPullRequest | src/index.js:24-115 | the result and new state are those of `Run` on the Flow defaults; on success the pull request is created with those fields and `head` remains; a lookup failure changes nothing; atomicity after a failed pick or creation when the delete succeeds |

## Left out

- The Octokit client, the `shared-github-internals` helpers and HTTP transport: each call is a step that succeeds as the host would or fails with an injected error.
- The internals of `github-cherry-pick`: how commits are replayed, and their new SHAs. The model replays nothing. A pick only moves `head` to a tip the oracle chooses, so the new pull request's commits are not recorded in `commits`.
- What `_intercept` does besides being called with the commits and possibly failing. In the test it only reads the host; the model gives it no effect on refs or pull requests.
- `debug` logging (`src/index.ts:16`, `src/index.js:52`): it has no effect on control flow.
- The Promises: each awaited call is one sequential step. Concurrent runs against the same host are not modelled.
- Failures of pull-request creation on the host's own grounds (no divergent commits, duplicate request): they are covered only as injected errors.
- BackportRun.Serialize: is stated by its shape and its contents, not as equal to a JSON encoder; it writes each SHA between double quotes with no escaping. This is `JSON.stringify` only for SHAs without quote, backslash or control characters, which hexadecimal SHAs never contain.
- Pull-request numbers are unbounded naturals. The JavaScript `number` range is not modelled.
- Fetching the source pull request's title for a default title: the code has no such fetch, so there is none to model.
