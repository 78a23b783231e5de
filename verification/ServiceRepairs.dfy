/** A repair from its preparation to a publisher: what the verifier's build must be for the draft PR to be reached
    rather than the issue. */
module ServiceRepairs {
  import opened Wrappers
  import opened Actions
  import opened AuditRuns
  import opened Candidates
  import opened Verification
  import opened Service
  import opened ServiceInvariants
  import opened ServiceSteps
  import opened ServiceRerun
  import CandidateLimits
  import Source

  // ----- What an approved repair still needs.

  predicate Identified(e: Evidence) {
    && 1 <= |e.buildId| <= 256 && 1 <= |e.buildName| <= 1000
    && e.logUrl.Some? && 12 <= |e.logUrl.value.text| <= 2000
  }

  function CandidateOf(artifact: Artifact): VerifiedCandidate {
    VerifiedCandidate(PUBLIC_REPOSITORY_URL, artifact.baseSha, artifact.diff, artifact.files)
  }

  lemma ApprovedLimits(artifact: Artifact)
    requires Approved(artifact)
    ensures var input := InputOfCandidate(CandidateOf(artifact));
            && input.tree.Keys == input.preimages.Keys == input.candidates.Keys && |input.tree| == 2
            && |input.preimages| == 2
            && (forall path :: path in input.tree ==> 1 <= |path| <= 1000)
            && (forall path :: path in input.tree ==>
                  && 1 <= |input.tree[path]| <= MAX_PREIMAGE_FILE_BYTES
                  && input.candidates[path] == Candidates.Sha256(input.tree[path]))
  {
    var input := InputOfCandidate(CandidateOf(artifact));
    ApprovedInput(artifact);
    PathsDiffer();
    ApprovedPathsSafe();
    ApprovedContents(artifact);
    assert |{STORE_PATH, TEST_PATH}| == 2;
    assert |input.tree.Keys| == |input.tree| && |input.preimages.Keys| == |input.preimages|;
    assert forall path :: path in input.tree ==> path in {STORE_PATH, TEST_PATH};
  }

  lemma ApprovedContents(artifact: Artifact)
    requires Approved(artifact)
    ensures var tree := InputOfCandidate(CandidateOf(artifact)).tree;
            forall path :: path in tree ==> 1 <= |tree[path]|
  {
    PathsDiffer();
    DictOfTwo(FileContents(artifact.files));
    hide SafePath, IsGitSha;
  }

  /** The durable checkpoint never refuses an approved repair. */
  lemma ApprovedIsCheckpointed(artifact: Artifact)
    requires Approved(artifact)
    ensures FromVerifiedCandidate(InputOfCandidate(CandidateOf(artifact))).Some?
  {
    ApprovedLimits(artifact);
    PublicUrlAccepted();
    CandidateLimits.CheckpointExactly(InputOfCandidate(CandidateOf(artifact)));
    hide FromVerifiedCandidate, IsGitSha;
  }

  /** Its binding is refused only for the build's identifiers or the length of its log URL. */
  lemma ApprovedIsBound(artifact: Artifact, e: Evidence)
    requires Approved(artifact) && e.logUrl.Some?
    ensures CreateBinding(CandidateOf(artifact), e).Some? <==> Identified(e)
  {
    ApprovedLimits(artifact);
    PublicUrlAccepted();
    hide FileContents, FilePreimages, FileCandidates, Dict, IsGitSha;
  }

  /** The build proves the repair: it succeeded with the complete trusted step receipt on the requested source and
      revision, and has a durable https log and identifiers that fit. */
  ghost predicate Proves(artifact: Artifact, snapshot: BuildSnapshot) {
    && snapshot.status == Success && LastStatesSucceed(snapshot.steps)
    && RightSource(PUBLIC_REPOSITORY_URL, artifact, snapshot) && ValidLogUrl(snapshot.logUrl)
    && Identified(Evidence(snapshot.buildId, snapshot.buildName, snapshot.logUrl))
  }

  /** What the run records of a build: a proving receipt with the checkpoint of exactly this repair, or no proof and no
      checkpoint. */
  lemma RecordedExactly(r: Run, artifact: Artifact, submission: BuildSubmission, snapshot: BuildSnapshot)
    requires Approved(artifact)
    ensures var recorded := RecordOutcome(r, Interpret(PUBLIC_REPOSITORY_URL, artifact, submission, snapshot));
            && (ProvesCandidate(recorded.verification) <==> Proves(artifact, snapshot))
            && recorded.candidate == (if Proves(artifact, snapshot) then
                                        FromVerifiedCandidate(InputOfCandidate(CandidateOf(artifact))) else None)
            && (recorded.candidate.Some? <==> Proves(artifact, snapshot))
  {
    var o := Interpret(PUBLIC_REPOSITORY_URL, artifact, submission, snapshot);
    PublishableExactly(PUBLIC_REPOSITORY_URL, artifact, submission, snapshot);
    ReceiptReportsTheBuild(PUBLIC_REPOSITORY_URL, artifact, submission, snapshot);
    ChecksExactly(PUBLIC_REPOSITORY_URL, artifact, submission, snapshot);
    ApprovedIsCheckpointed(artifact);
    if o.Publishable() {
      PublishedCandidate(artifact, submission, snapshot);
      ApprovedIsBound(artifact, o.evidence.value);
    }
    hide Interpret, LastStatesSucceed, CreateBinding, FromVerifiedCandidate, InputOfCandidate, ToReceipt;
    hide Reports, Shows;
  }

  lemma PublishedCandidate(artifact: Artifact, submission: BuildSubmission, snapshot: BuildSnapshot)
    requires Interpret(PUBLIC_REPOSITORY_URL, artifact, submission, snapshot).Publishable()
    ensures Interpret(PUBLIC_REPOSITORY_URL, artifact, submission, snapshot).candidate == Some(CandidateOf(artifact))
    ensures snapshot.logUrl.Some?
  {
    hide Dict, RequiredIds, FirstFailed, FailedStepOutcome, BaselineResult, PassResult;
  }

  // ----- From the verdict to the publisher.

  /** The audit so far is kept. */
  predicate SameAudit(w: Worker, w': Worker) {
    && w'.mode == w.mode && w'.run.evidence == w.run.evidence && w'.run.verdict == w.run.verdict
    && w'.run.repository == w.run.repository && w'.run.claim == w.run.claim
    && Attempts(w'.run.events) == Attempts(w.run.events)
  }

  lemma Prepares(cfg: Config, w: Worker, artifact: Artifact) returns (w': Worker)
    requires At(w, Evaluated, Evaluating, Succeeded) && w.run.verdict == Contradicted && Approved(artifact)
    requires cfg.verifierConfigured && w.run.repository.Some?
    ensures Reaches(cfg, w, [Saved, PrepareOk(artifact)], w') && At(w', Remediated, Remediating, Succeeded)
    ensures w'.artifact == Some(artifact) && SameAudit(w, w')
  {
    hide Approved;
    Started(w.run, Remediating);
    Finished(StartStage(w.run, Remediating).value);
    TwoSteps(cfg, w, Saved, PrepareOk(artifact));
    w' := Step(cfg, Step(cfg, w, Saved), PrepareOk(artifact));
  }

  lemma Verifies(cfg: Config, w: Worker, artifact: Artifact, submission: BuildSubmission, snapshot: BuildSnapshot)
    returns (w': Worker)
    requires At(w, Remediated, Remediating, Succeeded) && w.artifact == Some(artifact) && cfg.verifierConfigured
    ensures Reaches(cfg, w, [Saved, VerifyInterpreted(submission, snapshot)], w')
    ensures At(w', RepairVerified, Verifying, Succeeded) && SameAudit(w, w')
    ensures var recorded := RecordOutcome(w.run, Interpret(PUBLIC_REPOSITORY_URL, artifact, submission, snapshot));
            w'.run.verification == recorded.verification && w'.run.candidate == recorded.candidate
  {
    hide RecordOutcome, Interpret;
    Started(w.run, Verifying);
    var verifying := Step(cfg, w, Saved);
    assert verifying.pc == Calling(Verify(artifact));
    var o := Interpret(PUBLIC_REPOSITORY_URL, artifact, submission, snapshot);
    ServiceSteps.Recorded(verifying.run, o);
    RecordedAlike(verifying.run, w.run, o);
    Finished(RecordOutcome(verifying.run, o));
    TwoSteps(cfg, w, Saved, VerifyInterpreted(submission, snapshot));
    w' := Step(cfg, verifying, VerifyInterpreted(submission, snapshot));
  }

  lemma RecordedAlike(r: Run, s: Run, o: Outcome)
    ensures RecordOutcome(r, o).verification == RecordOutcome(s, o).verification
    ensures RecordOutcome(r, o).candidate == RecordOutcome(s, o).candidate
  {
    hide ToReceipt, FromVerifiedCandidate;
  }

  /** The route follows the receipt. */
  lemma RoutesTo(cfg: Config, w: Worker) returns (w': Worker)
    requires At(w, RepairVerified, Verifying, Succeeded) && w.run.verdict == Contradicted && CanDispatch(cfg, w.run)
    requires ProvesCandidate(w.run.verification) ==> w.run.candidate.Some?
    ensures Reaches(cfg, w, [Saved, Saved, LeaseGranted], w') && SameAudit(w, w')
    ensures w'.pc == Calling(Publish(if ProvesCandidate(w.run.verification) then PullRequest else Issue))
    ensures w'.run.verification == w.run.verification && w'.run.candidate == w.run.candidate
  {
    Started(w.run, RoutingAction);
    PlanIsOk(w.run.verdict, w.run.verification);
    OneStep(cfg, w, Saved);
    var routed := Step(cfg, w, Saved);
    Proposed(w.run.verdict, w.run.verification, routed.run);
    hide PlanActions, ProvesCandidate;
    DispatchesTo(cfg, routed);
    w' := Step(cfg, Step(cfg, routed, Saved), LeaseGranted);
    ReachesAppend(cfg, w, [Saved], routed, [Saved, LeaseGranted], w');
    assert [Saved] + [Saved, LeaseGranted] == [Saved, Saved, LeaseGranted];
  }

  lemma DispatchesTo(cfg: Config, w: Worker)
    requires w.pc == Saving(Routed) && w.run.LastIs(RoutingAction, Running) && CanDispatch(cfg, w.run)
    requires (Plan(w.run, Ready, Skipped) && w.run.candidate.Some?) || Plan(w.run, Blocked, Planned)
    ensures var w' := Step(cfg, Step(cfg, w, Saved), LeaseGranted);
            && Reaches(cfg, w, [Saved, LeaseGranted], w')
            && w' == w.(pc := Calling(Publish(if Plan(w.run, Ready, Skipped) then PullRequest else Issue)))
  {
    TwoSteps(cfg, w, Saved, LeaseGranted);
  }

  /** A contradiction with an approved repair, in a repository that may be written to: whatever the build was, the
      worker comes to a publisher, to that of the draft PR if and only if the build proves the repair, and then with
      the checkpoint of exactly this repair. */
  lemma RepairReachesItsPublisher(
    cfg: Config, w: Worker, artifact: Artifact, submission: BuildSubmission, snapshot: BuildSnapshot)
    returns (replies: seq<Reply>, w': Worker)
    requires At(w, Evaluated, Evaluating, Succeeded) && w.run.verdict == Contradicted && CanDispatch(cfg, w.run)
    requires cfg.verifierConfigured && Approved(artifact)
    ensures Reaches(cfg, w, replies, w') && SameAudit(w, w')
    ensures w'.pc == Calling(Publish(if Proves(artifact, snapshot) then PullRequest else Issue))
    ensures w'.run.candidate == (if Proves(artifact, snapshot) then
                                   FromVerifiedCandidate(InputOfCandidate(CandidateOf(artifact))) else None)
    ensures ProvesCandidate(w'.run.verification) <==> Proves(artifact, snapshot)
  {
    hide Reaches, Approved, Proves, RecordOutcome, Interpret, ProvesCandidate, FromVerifiedCandidate, InputOfCandidate;
    var w1 := Prepares(cfg, w, artifact);
    var w2 := Verifies(cfg, w1, artifact, submission, snapshot);
    RecordedExactly(w1.run, artifact, submission, snapshot);
    w' := RoutesTo(cfg, w2);
    ReachesAppend(cfg, w, [Saved, PrepareOk(artifact)], w1, [Saved, VerifyInterpreted(submission, snapshot)], w2);
    replies := [Saved, PrepareOk(artifact)] + [Saved, VerifyInterpreted(submission, snapshot)];
    ReachesAppend(cfg, w, replies, w2, [Saved, Saved, LeaseGranted], w');
    replies := replies + [Saved, Saved, LeaseGranted];
  }
}
