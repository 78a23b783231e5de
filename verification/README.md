# iPromise: a verified model

This Dafny 4.11 project models the parts of iPromise that decide what reaches the outside world, and proves that they
do what the repository promises. iPromise audits one published promise at a time: it captures a policy, compiles a
claim, probes a synthetic deletion, judges the evidence, has a bounded repair verified in Cloud Build, and then opens
at most one draft pull request or one issue.

Check it with `dafny verify dfyconfig.toml`.

## What is modelled

**The crash-recoverable audit run** (service.py, state_machine.py). `AuditRuns` holds the run and its transitions;
`AuditRunObject` is the same run as an object edited in place, each method proved against those transitions. `Service`
cuts one `create_run` worker at its awaits, because a crash, a lost reply or a failed save can fall on any of them.
`ServiceInvariants` says what a persisted run and a lease-holding worker satisfy, `ServiceSteps` proves that every
await keeps it, and `ServiceProofs` that proof stays attached to its evidence. `ServiceProtocol` puts any number of
workers over one store, clock, lease and remote. `ServiceRuns` states what every history keeps, `ServiceGrants` that
one key makes one artifact, `ServiceRetries` what saves may do to the stored run, and `ServiceSafety` what single
steps of a run with current leases do. `ServiceGrounding`, `ServiceVerdicts` and `ServiceFailures` say what a
persisted claim, verdict and failure mean over every history, and `ServiceRepairs` which builds lead to the draft PR.
`PublisherBridge` and `ArtifactIdentity` tie the run to the publishers' own protocols and identities.

**A finding about that run.** `create_run` reads the reserved run before it takes the execution lease
(service.py:196-213). A second delivery of the same key can therefore be granted the lease over a run that has been
overtaken, although docs/evaluation.md:111 asks for at most one external action for a repeated key.
`ServiceGrants.SafeToGrant` is a test on the snapshot, the stored run and what exists; at most one artifact comes to
exist as long as every lease is granted over a current snapshot or one that passes the test
(`ServiceGrants.OneArtifact`), and for every grant of a free lease, of any kind, the test is exact
(`ServiceStale.GrantIsSafeExactly`). Grants that fail it are reachable in two ways (`ServiceOvertaken`): the stale
delivery audits again over an issue that exists, or it publishes its old plan at once while the stored run has moved
on. In the same way a stale grant can undo a recorded OPENED action, and waiting deliveries can retry without bound
(`ServiceDepartures`); `ServiceRetries` has the exact condition per grant, and the bounds for all histories of grants
that meet it. Soundness of persisted runs, the evidence gate, the existence of every OPENED artifact and legal
recovery need no condition: they hold in every history.

**The run stores** (store.py, firestore_store.py). `RunStore` has both as classes, with the proof that documents with
embedded leases answer every history like the in-memory dictionaries; `StoreLaws` has lease tenures, take-over and
reservations, `StoreReads` what is read back.

**The publication protocols** (github.py). `IssueIntents` and `IssueProtocol`: claim, search, POST, reconcile,
complete or release; `IssueClaims` says exactly who may publish and that somebody always can, `IssueReplies` what a
publication may conclude from its own history. `PullRequestProtocol`: find, check the base, tree, commit, create-only
branch, find, POST, reconcile; `PullRequestBase` has the three base checks, `PullRequestReach` when a candidate can
still be published, `PullRequestRemote` what holds against a remote that anybody may change. Both are state machines
over any number of workers with lost replies.

**The evidence gate** (cloudbuild_verifier.py, models.py, actions.py, control.py). `Base64`, `Candidates`,
`CandidateLimits`, `Verification` and `Actions` follow the proof from the build to the publisher; `EvidenceChain`
closes the chain over every history and through Firestore.

**The smaller algorithms.** `Ordering`, `Json` and `Fingerprints` (remote identities), `VisibleText` and `Source`
(capture and grounding), `VisibleEvents` (what was captured, told from the events alone), `Remediation` (exactly-once
edits), `PollLoop` (the bounded verifier loop), `OAuthStates` (one-time states), `DeletionControl` (the control
against the synthetic store).

Other things the proofs bring out: a repeated Cloud Build step id hides an earlier failure, and nothing else does
(`Verification.NothingHiddenExactly`); an anchor that overlaps itself can be counted once and matched twice
(`Remediation.CountOneMeansUniqueExactly`); verifier settings keep every verification within the run lease if and only
if 2r + T + min(r, p) <= 1200, which the defaults meet and the accepted ranges do not promise
(`PollLoop.FitsTheLeaseExactly`); a refused publication's claim of no external side effects is true exactly for
workers that publish inside `_execute` (`ServiceClaims.RefusalIsTrueExactly`); and `InvalidTransition` is reachable in
exactly one situation (`ServiceRuns.IllegalTransitionExactly`).

## Assumptions about the environment

- The clock never goes backwards. A save takes effect or raises without effect. No worker saves or publishes after its
  run lease has expired (the store does not look at the lease in `save`).
- Remote reads are current; nobody else edits iPromise's branches, PRs or issues (but in `PullRequestRemote` anybody
  may); an issue POST takes effect only while its claim lasts; any other write takes effect before its call returns or
  its worker dies, or never.
- The remote is content-addressed, creates refs only when absent, and keeps one PR per branch; the commit of a candidate
  has fixed authors and dates, so every publisher of one candidate is given the same one.
- SHA-1 and SHA-256 are injective. Run ids, owner tokens and worker ids are fresh.
- Configuration of publisher, verifier and store does not change during a run.
- While a publisher works for a lease holder, no other publisher of the same marker creates its artifact.
- An exception that escapes a publisher as something other than its own errors (a network or unexpected error, for
  example of an HTTP layer that its retry logic does not classify) created nothing. The publishers' own outcomes need no
  such assumption: `PublisherBridge` derives their effects.

## Model

| member | source | states |
|---|---|---|
| `ServiceGrants.OneArtifact` | services/agent/src/ipromise_agent/service.py:185-262 | Over every history of reservations, leases, crashes, lost replies and retries of one key whose leases are granted over current snapshots or over ones that pass `SafeToGrant`, at most one external artifact exists (a draft PR or an issue, never both), and a recorded OPENED action names exactly the artifact that exists |
| `ServiceStale.GrantIsSafeExactly` | services/agent/src/ipromise_agent/service.py:196-239 | For every grant of a free lease, over whatever snapshot and whichever operation it leads to: at most one artifact results from all continuations whose later leases are granted over current or safe snapshots, if and only if taking up the snapshot creates nothing beyond what exists and what it publishes before its first save is what the stored run would create |
| `ServiceStale.SecondArtifact` | services/agent/src/ipromise_agent/service.py:214-239 | Once something exists that a run does not account for, taking the run up (restart, resumed dispatch, re-planning, or a completion whose save fails) has a continuation with two artifacts |
| `ServiceStale.UnknownToStored` | services/agent/src/ipromise_agent/service.py:229-231 | While nothing exists, a stale snapshot that publishes before saving leaves an artifact that the stored run does not account for, and a continuation with two |
| `ServiceGrants.CurrentIsSafe` | services/agent/src/ipromise_agent/service.py:196-213 | A current snapshot always passes the test, because the stored run accounts for what exists |
| `ServiceOvertaken.OvertakenSnapshotReachable` | services/agent/src/ipromise_agent/service.py:196-213 | Two deliveries of one key that both read before either takes the lease reach, with current grants only, a grant that is not safe while an OPENED issue is recorded |
| `ServiceOvertaken.UnknownPublicationReachable` | services/agent/src/ipromise_agent/service.py:196-231 | So do a delivery that reads a routed plan and a first worker whose publisher then fails with a network error: nothing exists, and the grant over the old plan is not safe |
| `ServiceOvertaken.OpenedCanBeUndone` | services/agent/src/ipromise_agent/service.py:237-239 | The first save after such a grant can undo a recorded OPENED issue |
| `ServiceRuns.PersistedRunsAreSound` | services/agent/src/ipromise_agent/service.py:404-753 | Every run ever persisted, in every history: event ids number 1..n, only the last event may be RUNNING, at most one action is selected and only for CONTRADICTED, a SUPPORTED or CONTRADICTED verdict is the verdict of the stored evidence, COMPLETE has a verdict and no READY PR, a READY PR carries bound evidence, FAILED_RETRYABLE is under the attempt budget, and the run still carries its reserving key |
| `ServiceRuns.SoundRun` | services/agent/src/ipromise_agent/actions.py:121-146 | The step invariant of persisted runs implies the reader's invariant of `PersistedRunsAreSound` |
| `ServiceRuns.OpenedActionsExist` | services/agent/src/ipromise_agent/service.py:803-835 | In every history, an action recorded as OPENED names an artifact that exists |
| `ServiceRuns.IllegalTransitionExactly` | services/agent/src/ipromise_agent/service.py:404-651 | After every history and for every next action, a worker has met `InvalidTransition` if and only if it had before or, inside `_execute`, the save that follows its failed publication does not go through |
| `ServiceRuns.RecoveryIsLegal` | services/agent/src/ipromise_agent/service.py:207-246 | Over whole histories, some worker meets an illegal transition if and only if that double failure happens somewhere |
| `ServiceGrounding.CompiledExactly` | services/agent/src/ipromise_agent/service.py:404-462 | In every history, a compiler reply is accepted if and only if its quote is in the captured page; otherwise every run that worker saves for this attempt is FAILED_SAFE, INCONCLUSIVE and selects no action |
| `ServiceGrounding.PersistedRunsAreGrounded` | services/agent/src/ipromise_agent/service.py:404-462 | In every history, a persisted run that has got past COMPILING in an attempt rests on a quote compiled in its present attempt from a captured page that contains it, and carries that quote with the page's URL and hash |
| `ServiceGrounding.ArtifactsQuoteThePage` | services/agent/src/ipromise_agent/service.py:404-462 | In every history, each artifact was first created for a run whose claim quotes a captured page literally, under that page's URL and content hash |
| `ServiceVerdicts.PersistedVerdictsAreExact` | services/agent/src/ipromise_agent/service.py:464-518 | In every history, from evaluation on a persisted verdict is the one its recorded observations give, for a claim that the control covers and was bound to, or NOT_TESTED for a claim that it does not cover; a failed run has one of these or INCONCLUSIVE |
| `ServiceVerdicts.CompletedVerdictMeaning` | services/agent/src/ipromise_agent/service.py:464-518 | A completed run says CONTRADICTED if and only if an observation failed, SUPPORTED if and only if there is an observation and all passed, and NOT_TESTED only of an uncovered claim without observations |
| `ServiceFailures.FailsExactly` | services/agent/src/ipromise_agent/service.py:270-331 | Any await of a working worker: transient errors leave the run FAILED_RETRYABLE while attempts are left and FAILED_SAFE afterwards, fatal ones FAILED_SAFE at once, nothing else fails a run, and each failure adds exactly the limitation that says what is known of side effects |
| `ServiceFailures.EveryFailureIsTold` | services/agent/src/ipromise_agent/service.py:613-651 | The same for every await of every worker in every history, but for the save that fails a second time |
| `ServiceRepairs.RepairReachesItsPublisher` | services/agent/src/ipromise_agent/service.py:520-612 | A contradiction with an approved repair comes to a publisher whatever the build was, to that of the draft PR if and only if the build proves the repair, and then with the checkpoint of exactly this repair |
| `ServiceRepairs.RecordedExactly` | services/agent/src/ipromise_agent/service.py:577-609 | What a run records of any build of an approved repair: a proving receipt and the checkpoint if and only if the build succeeded completely on the right source with an https log and identifiers that fit; otherwise neither |
| `ServiceRepairs.ApprovedIsCheckpointed` | services/agent/src/ipromise_agent/models.py:348-371 | The durable checkpoint never refuses an approved repair |
| `ServiceRepairs.ApprovedIsBound` | services/agent/src/ipromise_agent/cloudbuild_verifier.py:297-321 | The binding of an approved repair is refused only for the build's identifiers or the length of its log URL |
| `ServiceRetries.RetriesAreBounded` | services/agent/src/ipromise_agent/service.py:218-229 | A run leaves FAILED_RETRYABLE at most MAX_RUN_ATTEMPTS - 1 times, in every history whose grants go on from the stored run |
| `ServiceRetries.HistoryExtends` | services/agent/src/ipromise_agent/service.py:685-709 | Along every such history a recorded OPENED action and its URL are never undone by reset, fallback or re-planning, and attempts never decrease |
| `ServiceRetries.GrantExtendsExactly` | services/agent/src/ipromise_agent/service.py:214-239 | For every grant of a free lease, in every history: all that the worker may save next keeps OPENED actions and attempts and pays for leaving FAILED_RETRYABLE, if and only if the granted run keeps the stored OPENED actions and has counted the stored attempts, and one more if the stored run waits for a retry |
| `ServiceRetries.CurrentGoesOn` | services/agent/src/ipromise_agent/service.py:214-239 | A current snapshot always meets that condition |
| `ServiceDepartures.RetriesAreUnbounded` | services/agent/src/ipromise_agent/service.py:218-229 | For every number k there is a history with k departures from FAILED_RETRYABLE: deliveries that wait with one retryable snapshot restart it one after the other |
| `ServiceSafety.PublicationFollowsThePlan` | services/agent/src/ipromise_agent/service.py:711-752 | An issue is created only while the persisted plan has a blocked PR and a planned issue; a draft PR only while the persisted plan has a READY PR with bound evidence; and either only when nothing exists yet |
| `ServiceSafety.UncertainIsResumed` | services/agent/src/ipromise_agent/service.py:218-227 | Once something exists, the next attempt resumes the recorded plan unchanged: it never restarts the audit and never plans again |
| `ServiceSafety.ReceiptIsRecorded` | services/agent/src/ipromise_agent/service.py:803-835 | A confirmed publication is recorded as OPENED with its own URL, nothing else of the plan changes, and that run is what is saved next |
| `ServiceSafety.DispatchKeepsPlan` | services/agent/src/ipromise_agent/service.py:669-753 | Dispatching a plan whose artifact exists neither changes the plan nor falls back to the issue |
| `ServiceSteps.StepKeeps` | services/agent/src/ipromise_agent/service.py:404-948 | Completing any await, successfully or not, keeps the invariant of the persisted run, its commitment to what exists, and the worker's own invariant |
| `ServiceSteps.StepFollows` | services/agent/src/ipromise_agent/service.py:950-1035 | One await never undoes an OPENED action, never loses attempts, and leaving FAILED_RETRYABLE spends exactly one attempt |
| `ServiceSteps.GrantKeeps` | services/agent/src/ipromise_agent/service.py:214-239 | The operation `create_run` selects is right for every checkpoint a worker can leave behind: it makes only legal transitions and keeps every invariant |
| `ServiceSteps.Publishes` | services/agent/src/ipromise_agent/service.py:755-920 | Every answer of a publisher (confirmed, rejected, uncertain, refused, other failures) leads to a run that accounts for what was created, and to at most one artifact |
| `ServiceSteps.FallsBack` | services/agent/src/ipromise_agent/service.py:837-853 | A rejected draft PR falls back to the issue only when no PR of this run exists |
| `ServiceSteps.SaveFailureKeeps` | services/agent/src/ipromise_agent/service.py:273-331 | A save that fails leaves a persistable run at every save point, and an illegal transition exactly after a publication failure inside `_execute` |
| `ServiceSteps.CompleteFailureKeeps` | services/agent/src/ipromise_agent/service.py:922-948 | A failed final checkpoint puts the routing status back and keeps the plan and any receipt |
| `ServiceSteps.WrapKeeps` | services/agent/src/ipromise_agent/service.py:270-328 | A checkpoint failure after a confirmed action is recorded as retryable or safe without losing the receipt |
| `ServiceSteps.Routes` | services/agent/src/ipromise_agent/service.py:653-667 | Routing plans exactly once, on the recorded verdict and receipt, and leaves a plan fit to persist |
| `ServiceSteps.Dispatches` | services/agent/src/ipromise_agent/service.py:669-753 | Dispatching any persisted routing checkpoint completes, settles, falls back or goes to the one publisher its plan selects |
| `ServiceProtocol.HistoryKeeps` | services/agent/src/ipromise_agent/service.py:185-262 | The whole-system invariant holds after every history of workers over the shared store |
| `ServiceProtocol.CrashKeeps` | services/agent/src/ipromise_agent/service.py:755-920 | A worker lost with a publication in flight, which may or may not have taken effect, leaves the persisted plan committed to the result |
| `ServiceProofs.StepProof` | services/agent/src/ipromise_agent/service.py:577-609 | Along every await, a receipt that proves a candidate stays together with the bound, reloadable bytes of that candidate |
| `ServiceProofs.GrantProof` | services/agent/src/ipromise_agent/service.py:207-246 | Resuming or restarting never separates a proving receipt from its candidate |
| `ServiceRerun.RestartToIssue` | services/agent/src/ipromise_agent/service.py:404-651 | A restarted audit of any page that contains the quoted promise, broken again and without a prepared repair, reaches the issue publisher with its new evidence |
| `AuditRuns.RestartIsNew` | services/agent/src/ipromise_agent/service.py:950-974 | A restarted run is a new run of the same key and repository but for its last captured claim and its trail: every earlier event and limitation stays, and only a RUNNING event changes, to FAILED |
| `AuditRuns.StagesAdvance` | services/agent/src/ipromise_agent/state_machine.py:12-25 | The allowed transitions are exactly those to the next stage, and from binding or evaluation straight to routing; only routing completes, and no failure or restart is a transition |
| `ServiceClaims.HandlersTellTheTruth` | services/agent/src/ipromise_agent/state_machine.py:88-105 | When the handlers of `_execute` record that the run stopped without external side effects, nothing had been created |
| `ServiceClaims.RefusalIsTrueExactly` | services/agent/src/ipromise_agent/service.py:786-888 | A refused publication, of a PR or an issue, records that claim; in all worlds of the invariant with this holder it is true if and only if the worker publishes inside `_execute` |
| `ServiceClaims.RefusalCanHide` | services/agent/src/ipromise_agent/service.py:786-888 | From every worker at a publisher there is a history, with current grants only, that ends FAILED_SAFE with that claim over an artifact that exists |
| `ServiceClaims.RefusalMayHideAnIssue` | services/agent/src/ipromise_agent/service.py:880-888 | Such an end is reached from the empty store |
| `ArtifactIdentity.IssueKeysArePreimages` | services/agent/src/ipromise_agent/github.py:54-100 | The keys by which issues are counted are equal if and only if the hashed pre-images of their markers are |
| `ArtifactIdentity.PrKeysArePreimages` | services/agent/src/ipromise_agent/github.py:2559-2589 | The keys by which draft PRs are counted are equal if and only if the hashed pre-images of their markers are, for all runs whose candidate the publisher accepts |
| `PublisherBridge.PullRequestEffect` | services/agent/src/ipromise_agent/github.py:1035-1126 | Every end of a draft PR publisher, in every history of its protocol, has the effect that the service's step takes of its reply: confirmed means the PR exists, rejected that none does, refused that none was created |
| `PublisherBridge.IssueEffect` | services/agent/src/ipromise_agent/github.py:1305-1390 | The same for every end of an issue publisher |
| `AuditRunObject.AuditRun.StartStage` | services/agent/src/ipromise_agent/state_machine.py:27-51 | In place: the transition is refused without change, or the status moves and one RUNNING event is appended, as the transition function of the model says |
| `AuditRunObject.AuditRun.FinishStage` | services/agent/src/ipromise_agent/state_machine.py:54-59 | In place: refused without change unless the last event is RUNNING, which then succeeds |
| `AuditRunObject.AuditRun.FailRun` | services/agent/src/ipromise_agent/state_machine.py:62-105 | In place: refused on a terminal run or a non-failure status; otherwise the last RUNNING event fails or one is appended, and the limitation says what is known of side effects |
| `AuditRunObject.AuditRun.FailRetryable` | services/agent/src/ipromise_agent/service.py:1016-1035 | In place: the third attempt is the last that may be retried |
| `AuditRunObject.AuditRun.AttemptCount` | services/agent/src/ipromise_agent/service.py:1012-1014 | The loop over all events counts exactly the marked attempts |
| `AuditRunObject.AuditRun.ResetInterrupted` | services/agent/src/ipromise_agent/service.py:950-974 | In place: everything the interrupted attempt left is cleared except the event trail and the limitations |
| `AuditRunObject.AuditRun.ResumeDispatch` | services/agent/src/ipromise_agent/service.py:976-990 | In place: only the status and one event change |
| `AuditRunObject.AuditRun.SelectIssueFallback` | services/agent/src/ipromise_agent/service.py:844-853 | In place: the PR is blocked and unverified, the issue planned, nothing else changes |
| `AuditRunObject.ChooseOperation` | services/agent/src/ipromise_agent/service.py:214-239 | The nested choice of `create_run`, editing the run in place, is the resume decision of the worker model |
| `Actions.VerdictMeaning` | services/agent/src/ipromise_agent/control.py:43-53 | One failed observation contradicts; support needs evidence and every observation passing; nothing else is ever returned |
| `Actions.PlanIsSafe` | services/agent/src/ipromise_agent/actions.py:31-146 | Planning never raises; one route is selected exactly for a contradiction: the PR exactly when the receipt proves the candidate, else the email exactly when it is enabled and the contradiction repeats, else the issue; nothing is blocked but an unproven PR |
| `Actions.ValidExactly` | services/agent/src/ipromise_agent/actions.py:121-146 | A plan passes validation if and only if it has the three proposals in order, none has happened, no two are selected, and the PR is verified exactly when ready, which takes a proving receipt |
| `Verification.PublishableExactly` | services/agent/src/ipromise_agent/cloudbuild_verifier.py:859-1000 | An outcome is publishable if and only if the build succeeded, the last recorded status of every required step is success with no other step recorded, source and revision match, and the log is https |
| `Verification.StatesSucceed` | services/agent/src/ipromise_agent/cloudbuild_verifier.py:932-943 | The dictionary test on step states equals that statement about last statuses |
| `Verification.FirstFailedIsEarliest` | services/agent/src/ipromise_agent/cloudbuild_verifier.py:911-918 | The step that classifies a failed build is the earliest failed one in the trusted order, and none exactly when no required step failed |
| `Verification.ClassifiedExactly` | services/agent/src/ipromise_agent/cloudbuild_verifier.py:859-1064 | Each failure code and decision, if and only if its cause: the terminal status, the earliest step in the trusted order whose last status failed, the source, or the log |
| `Verification.ChecksExactly` | services/agent/src/ipromise_agent/cloudbuild_verifier.py:866-910 | Whatever the verdict on a build, the three check results are what the last recorded statuses of their steps say, exact source means a complete build of the right source, exact candidate a publishable one |
| `Verification.ReceiptReportsTheBuild` | services/agent/src/ipromise_agent/cloudbuild_verifier.py:264-321 | The receipt of any build shows its steps, names it, keeps only an https log, and proves a candidate if and only if the build is publishable; there is none if and only if a publishable build's binding is refused |
| `Verification.DistinctStepsAllSucceed` | services/agent/src/ipromise_agent/cloudbuild_verifier.py:932-943 | With one entry per step id, publishable means every recorded step succeeded |
| `Verification.NothingHiddenExactly` | services/agent/src/ipromise_agent/cloudbuild_verifier.py:866-943 | Over recordings that name exactly the required steps, the dictionary test means that every recorded step succeeded, for all statuses, if and only if no step id is recorded twice (the dictionary keeps the last entry) |
| `Verification.ProofReachesPublisher` | services/agent/src/ipromise_agent/cloudbuild_verifier.py:251-321 | A publishable outcome whose receipt and checkpoint were built passes, on the reloaded checkpoint, every receipt, binding and snapshot check the publisher makes |
| `Verification.BoundReceipt` | services/agent/src/ipromise_agent/cloudbuild_verifier.py:264-321 | The receipt of a publishable outcome proves the candidate and is bound to its repository, base, diff and both hash maps |
| `Verification.BindingNamesOneCandidate` | services/agent/src/ipromise_agent/github.py:1128-1183 | A valid binding authorizes at most one candidate: two accepted candidates that match it have the same repository, base, diff, preimages and the same bytes at the same paths |
| `EvidenceChain.ReadyMeansPublishableEvidence` | services/agent/src/ipromise_agent/github.py:1128-1183 | In every history a persisted run survives its Firestore document unchanged, and if its PR is READY the reloaded run passes the publisher's gate |
| `PollLoop.Poll` | services/agent/src/ipromise_agent/cloudbuild_verifier.py:800-829 | The loop stops exactly when, and on the path that, the recursive account of its schedule says; it makes fewer than T/p + 1 status reads, interprets the first terminal status it reads in time, and reports failure or timeout exactly where it must |
| `PollLoop.Verify` | services/agent/src/ipromise_agent/cloudbuild_verifier.py:774-857 | Submission, polling and at most one cancel attempt, made exactly on the deadline path, take exactly the specified total time, always less than 2r + T + min(r, p) |
| `PollLoop.WorstCaseApproached` | services/agent/src/ipromise_agent/cloudbuild_verifier.py:107-152 | For all accepted settings that bound is the least: every time below it is exceeded by some verification |
| `PollLoop.FitsTheLeaseExactly` | services/agent/src/ipromise_agent/cloudbuild_verifier.py:138-152 | For all accepted settings, every verification ends within the 1200 s run lease if and only if 2r + T + min(r, p) <= 1200 |
| `PollLoop.ReadCount` | services/agent/src/ipromise_agent/cloudbuild_verifier.py:107-118 | At most 375 status reads with default settings |
| `PollLoop.DefaultsFitTheLease` | services/agent/src/ipromise_agent/cloudbuild_verifier.py:107-118 | With default settings every verification ends within 782 s, inside the run lease |
| `Candidates.CheckpointRoundTrip` | services/agent/src/ipromise_agent/models.py:332-383 | The checkpoint of a verified candidate gives back the same repository, base, diff, tree and hash maps |
| `Candidates.SnapshotMaps` | services/agent/src/ipromise_agent/github.py:2438-2539 | An accepted snapshot carries exactly the candidate's hash maps |
| `Candidates.ApprovedPathsSafe` | services/agent/src/ipromise_agent/github.py:2542-2556 | The two approved paths pass the publisher's path test |
| `CandidateLimits.SafePathExactly` | services/agent/src/ipromise_agent/github.py:2542-2556 | A path is accepted if and only if it is short, has no backslash or null, leads to itself when walked from the root and never above it, and enters no .git in any letter case |
| `CandidateLimits.CheckpointExactly` | services/agent/src/ipromise_agent/models.py:305-371 | A candidate can be checkpointed if and only if its maps name the same 1 to 16 paths, each with 1 byte to 12 MiB that hash to the verified digest, and its origin is well formed |
| `CandidateLimits.SnapshotExactly` | services/agent/src/ipromise_agent/github.py:2438-2539 | In whatever order its files are listed, a candidate is accepted if and only if its origin is well formed, its maps name the same files at safe paths with the verified bytes, and all of them together fit the limit; the limit on one file never decides |
| `Base64.DecodeEncode` | services/agent/src/ipromise_agent/models.py:305-330 | Decoding inverts encoding (section 4 of RFC 4648) |
| `Base64.CanonicalIsEncoded` | services/agent/src/ipromise_agent/models.py:314-326 | The validator's canonicality test accepts exactly the texts that encoding produces |
| `Base64.DecodingAloneIsNotCanonical` | services/agent/src/ipromise_agent/models.py:314-326 | Strict decoding alone would accept two texts for the same bytes |
| `RunStore.InMemoryRunStore.Reserve` | services/agent/src/ipromise_agent/store.py:58-68 | In place: answer and new dictionaries are those of the store's step function, which the laws below are about |
| `RunStore.InMemoryRunStore.Save` | services/agent/src/ipromise_agent/store.py:70-74 | In place: answer and new dictionaries are those of the store's step function, which the laws below are about |
| `RunStore.InMemoryRunStore.AcquireRunLease` | services/agent/src/ipromise_agent/store.py:95-112 | In place: answer and new dictionaries are those of the store's step function, which the laws below are about |
| `RunStore.InMemoryRunStore.ReleaseRunLease` | services/agent/src/ipromise_agent/store.py:114-118 | In place: answer and new dictionaries are those of the store's step function, which the laws below are about |
| `RunStore.InMemoryRunStore.AcquireActionLease` | services/agent/src/ipromise_agent/store.py:120-142 | In place: answer and new dictionaries are those of the store's step function, which the laws below are about |
| `RunStore.InMemoryRunStore.ReleaseActionLease` | services/agent/src/ipromise_agent/store.py:144-151 | In place: answer and new dictionaries are those of the store's step function, which the laws below are about |
| `RunStore.FirestoreRunStore.Reserve` | services/agent/src/ipromise_agent/firestore_store.py:30-61 | In place: answer and new documents are those of the document step function, which the refinement below is about |
| `RunStore.FirestoreRunStore.Save` | services/agent/src/ipromise_agent/firestore_store.py:63-70 | In place: answer and new documents are those of the document step function, which the refinement below is about |
| `RunStore.FirestoreRunStore.AcquireRunLease` | services/agent/src/ipromise_agent/firestore_store.py:89-128 | In place: answer and new documents are those of the document step function, which the refinement below is about |
| `RunStore.FirestoreRunStore.ReleaseRunLease` | services/agent/src/ipromise_agent/firestore_store.py:130-147 | In place: answer and new documents are those of the document step function, which the refinement below is about |
| `RunStore.FirestoreRunStore.AcquireActionLease` | services/agent/src/ipromise_agent/firestore_store.py:149-186 | In place: answer and new documents are those of the document step function, which the refinement below is about |
| `RunStore.FirestoreRunStore.ReleaseActionLease` | services/agent/src/ipromise_agent/firestore_store.py:188-206 | In place: answer and new documents are those of the document step function, which the refinement below is about |
| `RunStore.DocumentRoundTrip` | services/agent/src/ipromise_agent/firestore_store.py:208-249 | Encoding and decoding a run gives back the same run, private checkpoints included, if and only if those checkpoints are valid; a binding without a receipt never arises |
| `RunStore.StoresAreInterchangeable` | services/agent/src/ipromise_agent/firestore_store.py:30-206 | From empty, the Firestore store and the in-memory store answer every sequence of operations identically |
| `RunStore.StepRefines` | services/agent/src/ipromise_agent/firestore_store.py:30-206 | One operation: identical answers, and the documents still say what the four dictionaries say |
| `StoreLaws.TenuresNeverOverlap` | services/agent/src/ipromise_agent/store.py:95-151 | Over every history the tenures of a lease follow one another, where only its own owner's release or renewal can cut one short |
| `StoreLaws.RefusedExactly` | services/agent/src/ipromise_agent/store.py:95-142 | After every history, an acquisition of an existing run's or action's lease is refused if and only if the slot's last tenure belongs to another owner and has not run out |
| `StoreLaws.FirestoreRefusesExactly` | services/agent/src/ipromise_agent/firestore_store.py:89-186 | The Firestore store takes over at exactly the same times |
| `StoreReads.ReadsWhatWasWritten` | services/agent/src/ipromise_agent/store.py:58-93 | After every history: a read gives the last run written under the id, a save and a lease miss a run exactly when nothing was written, a reservation creates its run exactly when its key is new and otherwise answers with what was last written for it |
| `StoreReads.FirestoreReadsWhatWasWritten` | services/agent/src/ipromise_agent/firestore_store.py:30-87 | The Firestore store reads back the same, private checkpoints included |
| `StoreLaws.ReservationIsAnInjection` | services/agent/src/ipromise_agent/store.py:58-74 | Each key names one run for ever, distinct keys name distinct runs, and the stored run carries its reserving key after any operations |
| `StoreLaws.NoMissingRuns` | services/agent/src/ipromise_agent/firestore_store.py:39-46 | A reservation is always answered with a run: the missing-run errors are unreachable |
| `IssueIntents.InMemoryIntents.Claim` | services/agent/src/ipromise_agent/github.py:311-338 | In place: the claim, and only this fingerprint's intent, change as the claim function says |
| `IssueIntents.InMemoryIntents.Complete` | services/agent/src/ipromise_agent/github.py:340-361 | In place: the first completed receipt wins |
| `IssueIntents.InMemoryIntents.Release` | services/agent/src/ipromise_agent/github.py:363-375 | In place: only the owner's unfinished claim is removed |
| `IssueProtocol.OneIssuePerFinding` | services/agent/src/ipromise_agent/github.py:916-991 | For any number of workers, ambiguous POSTs, crashes and expired claims at most one issue ever carries a marker, and every publication that returns, and the durable receipt, name that issue |
| `IssueProtocol.HistoryKeeps` | services/agent/src/ipromise_agent/github.py:1305-1390 | The protocol invariant: while a POST may still take effect there is no issue and the intent is its worker's |
| `IssueProtocol.HistoryGrows` | services/agent/src/ipromise_agent/github.py:340-361 | The durable receipt is write-once, issues never disappear, and a returned receipt never changes |
| `IssueProtocol.RefusedCreatesNothing` | services/agent/src/ipromise_agent/github.py:1385-1390 | A publication that is refused outright created nothing and has nothing on the wire |
| `IssueProtocol.SearchKeeps` | services/agent/src/ipromise_agent/github.py:2276-2306 | Marker reconciliation, with its bounded retries, keeps the invariant |
| `IssueClaims.ClaimedExactly` | services/agent/src/ipromise_agent/github.py:311-338 | In every reachable world a claim is granted if and only if nobody has completed the intent and no other worker's claim is unexpired and not given back |
| `IssueClaims.AlwaysPublishable` | services/agent/src/ipromise_agent/github.py:1305-1390 | From every reachable world, whatever crashed before, there is a continuation in which a fresh worker returns a receipt |
| `IssueReplies.ClaimAnswered` | services/agent/src/ipromise_agent/github.py:1305-1326 | In every reachable world: a claim is answered with the durable receipt, marked reconciled, if and only if the intent was completed; otherwise it is granted unless another claim is outstanding, and then the worker waits, for thirty seconds from its arrival |
| `IssueReplies.LostRepliesAreReconciled` | services/agent/src/ipromise_agent/github.py:2276-2306 | In every history, a publication whose POST was not answered is called uncertain before completing only after exactly three fruitless searches, and is never refused; one whose claim, first search or completion was not answered is uncertain; one that got no token or was definitely refused is never anything but refused, exactly when it has tried to give its claim back |
| `IssueReplies.CreatorIsKnown` | services/agent/src/ipromise_agent/github.py:916-991 | In every history, a returned receipt says that its worker created the issue if and only if that worker's own POST was confirmed and nobody had completed the intent before; no other receipt then says so |
| `PullRequestProtocol.PublishersAgree` | services/agent/src/ipromise_agent/github.py:993-1126 | All publishers of one candidate that return, return the same PR, head and tree; the head's only parent is the verified base and the tree is the base tree with the candidate laid over it, however bases, refs and other publishers move |
| `PullRequestProtocol.RejectionCreatedNothing` | services/agent/src/ipromise_agent/github.py:1035-1126 | A publisher that raises Rejected did not create the candidate's PR and none existed when it started; a definite refusal created nothing |
| `PullRequestProtocol.HistoryGrows` | services/agent/src/ipromise_agent/github.py:1817-1880 | No existing branch ever changes target and no PR is replaced |
| `PullRequestProtocol.HistoryKeeps` | services/agent/src/ipromise_agent/github.py:1882-2130 | Every PR's branch carries exactly the candidate of the PR's marker |
| `PullRequestProtocol.MarkedIsVerified` | services/agent/src/ipromise_agent/github.py:2056-2117 | A found PR with the candidate's marker always passes the publisher's verification |
| `PullRequestProtocol.ExpectedTree` | services/agent/src/ipromise_agent/github.py:1793-1811 | The loop computes the overlay, and rejects exactly when a candidate path is not a blob of the base |
| `PullRequestProtocol.OverlayIsExact` | services/agent/src/ipromise_agent/github.py:1465-1539 | Exactly the candidate paths change, to exactly the candidate bytes; modes and all other paths stay |
| `PullRequestBase.BaseSeenThrice` | services/agent/src/ipromise_agent/github.py:1048-1102 | In every history, a publisher that has asked for its PR went through three earlier worlds, in order, with the default branch at the candidate's base: before its tree, after its commit, after its branch |
| `PullRequestBase.NothingOverAnotherBase` | services/agent/src/ipromise_agent/github.py:1048-1102 | A publisher that never sees the default branch at its candidate's base makes no branch and no PR |
| `PullRequestReach.PublishableExactly` | services/agent/src/ipromise_agent/github.py:993-1126 | From every reachable world a fresh publisher can return a receipt for a candidate if and only if it replaces plain files of its base, its branch is free or carries exactly it, and its PR is absent or its own |
| `PullRequestRemote.FoundExactly` | services/agent/src/ipromise_agent/github.py:1882-2130 | In any world at all, a lookup finds nothing exactly when there is no PR, accepts exactly a PR with the candidate's marker over a commit with only the verified base as parent and exactly the candidate's tree, and rejects everything else |
| `PullRequestRemote.OverlayExactly` | services/agent/src/ipromise_agent/github.py:1793-1811 | A tree is the computed overlay if and only if it has the base's paths, the candidate's last bytes on the candidate's paths with modes kept, and the base's entries elsewhere |
| `PullRequestRemote.ReceiptsAreExact` | services/agent/src/ipromise_agent/github.py:1465-1703 | Whatever anybody else does to base, branches and PRs in between, a returned receipt is for an exact commit, and a publisher answered with any other tree or commit has rejected it |
| `PullRequestRemote.UncertainAfterThree` | services/agent/src/ipromise_agent/github.py:1817-2054 | Against such a remote, an outcome is called uncertain only after an ambiguous call before the POST, three searches after an unconfirmed POST, or three more reads after an unconfirmed branch; nobody looks more often |
| `Fingerprints.FindingIdentity` | services/agent/src/ipromise_agent/github.py:54-100 | Two runs have the same canonical pre-image if and only if repository id, source url, hash and quote, control id, verdict and the multiset of (id, label, expected, observed, result) agree |
| `Fingerprints.ScopeDoesNotCount` | services/agent/src/ipromise_agent/github.py:54-83 | Two observations count as the same if and only if they differ in their synthetic scope at most |
| `Fingerprints.SortedEvidenceExactly` | services/agent/src/ipromise_agent/github.py:69-83 | Sorting forgets the order of the observations and nothing else |
| `Fingerprints.PullRequestIdentity` | services/agent/src/ipromise_agent/github.py:2559-2584 | The draft PR pre-image names exactly one repository and one authenticated candidate |
| `Fingerprints.IdentitySurvivesCheckpoint` | services/agent/src/ipromise_agent/github.py:2559-2589 | The PR identity computed before a crash is the one computed from the reloaded checkpoint |
| `Json.DumpInjective` | services/agent/src/ipromise_agent/github.py:84-100 | Canonical JSON text is uniquely decodable, string escapes included (section 7 of RFC 8259) |
| `Json.EscapeDecodes` | services/agent/src/ipromise_agent/github.py:84-100 | An escaped string can be told from whatever follows it |
| `Ordering.InOrderUnique` | services/agent/src/ipromise_agent/github.py:69-83 | The sorted form of a multiset is unique when equal keys mean equal items |
| `Ordering.SortedInOrder` | services/agent/src/ipromise_agent/github.py:69-83 | The sort orders by key |
| `VisibleText.NormalExactly` | services/agent/src/ipromise_agent/source.py:12-13 | A text is in normal form if and only if normalization leaves it alone |
| `VisibleText.NormalizeIsNormal` | services/agent/src/ipromise_agent/source.py:12-13 | Normalization always reaches the normal form, so it is idempotent |
| `VisibleText.JoinIsNormalized` | services/agent/src/ipromise_agent/source.py:75-86 | Joined normalized parts are already normal |
| `VisibleText.JoinSlice` | services/agent/src/ipromise_agent/source.py:75-86 | A contiguous stretch of parts joins to a contiguous part of the joined text |
| `VisibleText.NormalizeIsSplitJoin` | services/agent/src/ipromise_agent/source.py:12-13 | Normalization is splitting at white space and joining with single spaces |
| `Source.VisibleTextParser.HandleStartTag` | services/agent/src/ipromise_agent/source.py:37-48 | In place: the parser state moves as the event function says |
| `Source.VisibleTextParser.HandleEndTag` | services/agent/src/ipromise_agent/source.py:50-60 | In place: the parser state moves as the event function says |
| `Source.VisibleTextParser.HandleData` | services/agent/src/ipromise_agent/source.py:62-72 | In place: the text becomes visible and is appended to every open claim |
| `Source.VisibleTextParser.Feed` | services/agent/src/ipromise_agent/source.py:75-77 | In place: a document is the sequence of its events |
| `Source.ParseKeeps` | services/agent/src/ipromise_agent/source.py:37-72 | After every event sequence, open claims hold exactly what became visible since they were opened, and marked claims are stretches of the visible parts |
| `Source.MarkedClaimsAreVisible` | services/agent/src/ipromise_agent/source.py:27-86 | Every marked claim is a contiguous substring of the captured visible text, for every document |
| `Source.GroundedIsLiteral` | services/agent/src/ipromise_agent/source.py:89-97 | Whichever branch accepts a quote, it is a non-empty literal part of the visible text; without marked claims every such quote is accepted |
| `VisibleEvents.SuppressedExactly` | services/agent/src/ipromise_agent/source.py:37-60 | After every event sequence, the parser is suppressed if and only if a script, style or noscript start has no matching end yet |
| `VisibleEvents.VisibleExactly` | services/agent/src/ipromise_agent/source.py:62-72 | The visible parts are exactly the non-empty normalized data events that stand outside every script, style and noscript element, in order |
| `VisibleEvents.TitlePartsExactly` | services/agent/src/ipromise_agent/source.py:62-68 | The title parts are exactly those of them that stand inside a title |
| `VisibleEvents.OpenClaimsExactly` | services/agent/src/ipromise_agent/source.py:44-72 | An open claim holds exactly the visible parts that follow its own start tag |
| `VisibleEvents.MarkedExactly` | services/agent/src/ipromise_agent/source.py:50-60 | A marked claim holds exactly the visible parts between its last start tag and the end tag that closed it |
| `VisibleEvents.CapturedExactly` | services/agent/src/ipromise_agent/source.py:75-86 | The captured text is exactly what the page says, joined by single spaces, and so is the title, but for a page without one |
| `VisibleEvents.ClaimIdExactly` | services/agent/src/ipromise_agent/source.py:44-48 | An element marks a claim by its last attribute of the name, unless that has no value or an empty one |
| `VisibleEvents.GroundedExactly` | services/agent/src/ipromise_agent/source.py:75-97 | A quote is grounded if and only if its normalized text is not empty and, where the page closes any marked claim, is all that was said in a claim that is the last one closed under its id, or else is part of what the page says |
| `Remediation.ReplacesExactlyOnce` | services/agent/src/ipromise_agent/remediation.py:145-159 | An edit is applied if and only if the content splits around a leftmost match after which no match begins, and the result is prefix, replacement, suffix |
| `Remediation.CountOneMeansUniqueExactly` | services/agent/src/ipromise_agent/remediation.py:153-158 | A count of one proves a single position for every content if and only if the anchor does not overlap itself |
| `Remediation.DescriptionOverlapsItself` | services/agent/src/ipromise_agent/remediation.py:66-71 | The approved description anchor does overlap itself, so its count alone does not prove its position |
| `Remediation.EditsCommute` | services/agent/src/ipromise_agent/remediation.py:211-242 | Two independent edits of a file succeed in both orders on the same contents, with the same result |
| `Remediation.ApprovedEditsCommute` | services/agent/src/ipromise_agent/remediation.py:66-86 | The two approved edits of each file commute, on any contents |
| `Remediation.Growth` | services/agent/src/ipromise_agent/remediation.py:302-313 | One edit changes the size by exactly the difference of its anchors |
| `Remediation.GrowthOfTwo` | services/agent/src/ipromise_agent/remediation.py:302-313 | Two edits change the size by exactly the sum of the differences |
| `Remediation.ApprovedGrowth` | services/agent/src/ipromise_agent/remediation.py:302-313 | The growth bound can never be what rejects the approved edits |
| `OAuthStates.DroppingIsUnobservable` | services/agent/src/ipromise_agent/github.py:377-387 | Under a clock that never goes backwards, dropping expired entries answers every history like keeping them |
| `OAuthStates.SingleUse` | services/agent/src/ipromise_agent/github.py:249-271 | A token is accepted at most as often as it was added |
| `OAuthStates.AcceptedBeforeExpiry` | services/agent/src/ipromise_agent/github.py:249-271 | Only what was last added under the token is accepted, and only up to its expiry |
| `OAuthStates.AcceptedExactly` | services/agent/src/ipromise_agent/github.py:249-271 | After every history, a token is accepted if and only if the last operation of its kind on it added it with an expiry that has not passed; a pending authorization comes back as it was added |
| `OAuthStates.FirestoreAcceptsExactly` | services/agent/src/ipromise_agent/github.py:411-468 | In the single collection the last operation on the token decides, whatever its kind |
| `OAuthStates.FirestoreAcceptsNoMore` | services/agent/src/ipromise_agent/github.py:411-468 | The single-collection store accepts only what the in-memory store accepts |
| `OAuthStates.FirestoreAgreesOnSeparateTokens` | services/agent/src/ipromise_agent/github.py:411-468 | It answers exactly alike when no token is used for both kinds |
| `OAuthStates.InMemoryStates.ConsumeInstallState` | services/agent/src/ipromise_agent/github.py:253-257 | In place: pop, drop what has expired, accept up to the expiry |
| `OAuthStates.InMemoryStates.ConsumeOAuthState` | services/agent/src/ipromise_agent/github.py:263-271 | In place: pop, drop what has expired, return the pending state up to its expiry |
| `DeletionControl.SyntheticStore.Seed` | apps/demo_saas/src/ipromise_demo/store.py:40-68 | In place: all four records of the account are written and the fixture becomes known |
| `DeletionControl.SyntheticStore.ProcessDeletion` | apps/demo_saas/src/ipromise_demo/store.py:70-88 | In place: refused for unknown or deleted accounts; otherwise the profile goes, and the analytics profile only in the repaired version |
| `DeletionControl.SyntheticStore.Reset` | apps/demo_saas/src/ipromise_demo/store.py:116-124 | In place: everything is cleared and the number of known fixtures returned |
| `DeletionControl.VerdictOfState` | services/agent/src/ipromise_agent/control.py:62-113 | Support if and only if both records are absent after the deadline with timely processing; contradiction if and only if a record is active after the deadline or processing was late |
| `DeletionControl.InspectedExactly` | apps/demo_saas/src/ipromise_demo/store.py:40-114 | After any operations: a fixture is known if and only if seeded, its profile is there if and only if not deleted since, its analytics profile also after a deletion by the store as written, the elapsed time is that of the last seeding, and a deletion is processed exactly while the profile is there |
| `DeletionControl.ControlSeparatesVersions` | services/agent/src/ipromise_agent/control.py:62-113 | From any prior store and through any operations on other accounts the control returns CONTRADICTED on the store as written and SUPPORTED on the repaired one |
| `DeletionControl.RerunAfterPartialAttempt` | apps/demo_saas/src/ipromise_demo/store.py:40-114 | Running the control again after an attempt interrupted anywhere gives the same verdict |
| `DeletionControl.RunControl` | services/agent/src/ipromise_agent/control.py:62-113 | The three calls in sequence against a store object give that verdict |

## Left out

- ServiceGrants.OneArtifact: for histories whose leases are granted over current or safe snapshots; without that it is false, and `ServiceStale.GrantIsSafeExactly` says of each grant when it is.
- ServiceStale.GrantIsSafeExactly: the continuations are those whose later leases are granted over current or safe snapshots; what several unsafe grants do together is not characterised.
- ServiceRetries.RetriesAreBounded: for histories whose grants go on from the stored run; `ServiceRetries.GrantExtendsExactly` says when one does, and `ServiceDepartures.RetriesAreUnbounded` that the bound fails otherwise.
- ServiceRetries.HistoryExtends: under the same condition; `ServiceOvertaken.OpenedCanBeUndone` is a history that breaks it.
- ServiceClaims.RefusalIsTrueExactly: speaks of worlds of the invariant of current grants; after an unsafe grant a claim made inside `_execute` can be false as well.
- ServiceProtocol.HistoryKeeps: for histories with current grants (`ServiceRuns.PersistedRunsAreSound` and `ServiceGrants.OneArtifact` go beyond them), and for one idempotency key; the in-process task table that lets a second request of one process wait for the first is not modelled, so two requests are two workers.
- ServiceSafety.PublicationFollowsThePlan: in worlds of that invariant, as are the other results of `ServiceSafety`.
- ServiceSteps.Publishes: takes the effect of each reply as given; `PublisherBridge` derives it from the publishers' protocols for their own outcomes, escaping exceptions are assumed to have created nothing, and an uncertain effect has happened or never will by the time the call returns.
- IssueProtocol.OneIssuePerFinding: a POST that lands after its claim expired is excluded by assumption.
- PullRequestProtocol.PublishersAgree: blob upload and its reconciliation are part of the tree step; the checks on the repository connection, token and installation identity are left to the failure steps.
- RunStore.StoresAreInterchangeable: `latest`, `list` and timestamps are not modelled, nor Firestore's deep merge of nested maps, whose keys are always the same here.
- RunStore.FirestoreRunStore.AcquireRunLease: the time is read once per call; a transaction that is retried with an old reading is not modelled.
- PollLoop.Verify: cancellation of the verifying task itself is not modelled.
- Remediation.ApprovedEditsCommute: the fixed SHA-256 constants of the approved files are not part of this model, so the edits are proved for all contents.
- The bodies of `_execute` and the publishers are step functions between awaits rather than methods, because the theorems need a crash or a failed save at every await; aliasing of a run between tasks is not captured by them.
- The synthetic fixture id, the remediation proposal, timestamps and prose fields of a run: no decision reads them.
- The claim compiler (a foreign call), HTTP transport, JWT signing, token minting, pagination and payload shapes: only outcomes matter here.
- The Cloud Build request text, its embedded scripts and the unified diff: shell and library behaviour; the diff is an opaque digest.
- FastAPI routes, settings, console cookies, the console app, deployment scripts, logging, and the prose of issues and PRs.
- Real HTML tokenization: the parser is driven by arbitrary start, end and data events.
