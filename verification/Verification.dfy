/** Cloud Build interpretation, the verification receipt and its artifact binding. */
module Verification {
  import opened Wrappers
  import opened Base64
  import opened Candidates

  datatype StepId =
    | SourceIntegrity | InstallLockedDependencies | BaselineHiddenControl | MaterializeCandidate
    | CandidateHiddenControl | DemoSaasRegression | CandidateIntegrity
    | Foreign(name: string)

  const REQUIRED_STEP_IDS: seq<StepId> := [
    SourceIntegrity, InstallLockedDependencies, BaselineHiddenControl, MaterializeCandidate,
    CandidateHiddenControl, DemoSaasRegression, CandidateIntegrity]

  datatype BuildStatus =
    Success | Failure | InternalError | Timeout | Cancelled | Expired | Pending(name: string)

  predicate IsTerminal(s: BuildStatus) {
    !s.Pending?
  }

  /** A log reference together with whether it parses as an https URL with a host. */
  datatype LogUrl = LogUrl(text: string, httpsWithHost: bool)

  datatype BuildSubmission = BuildSubmission(buildId: string, buildName: string)

  datatype BuildSnapshot = BuildSnapshot(
    buildId: string, buildName: string, status: BuildStatus, logUrl: Option<LogUrl>,
    sourceUrl: Option<string>, revision: Option<string>, steps: seq<(StepId, BuildStatus)>)

  datatype CheckResult = ExpectedFailure | Pass | Fail | NotRun
  datatype Decision = Verified | Rejected | Unavailable
  datatype FailureCode =
    | NoFailure | InvalidArtifact | SubmissionFailed | PollFailed | DeadlineExceeded | SourceMismatch
    | BaselineMismatch | CandidateMismatch | CandidateControlFailed | RegressionFailed | BuildFailed
    | BuildInternalError | BuildCancelled | BuildExpired | EvidenceIncomplete

  datatype Evidence = Evidence(buildId: string, buildName: string, logUrl: Option<LogUrl>)

  datatype Outcome = Outcome(
    decision: Decision, code: FailureCode,
    baseline: CheckResult, candidateControl: CheckResult, regression: CheckResult,
    exactSource: bool, exactCandidate: bool,
    evidence: Option<Evidence>, candidate: Option<VerifiedCandidate>)
  {
    predicate Publishable() {
      && decision == Verified && code == NoFailure
      && baseline == ExpectedFailure && candidateControl == Pass && regression == Pass
      && exactSource && exactCandidate && candidate.Some?
    }
  }

  function EvidenceOf(snapshot: Option<BuildSnapshot>, submission: BuildSubmission): Evidence {
    match snapshot
    case Some(s) => Evidence(s.buildId, s.buildName, s.logUrl)
    case None => Evidence(submission.buildId, submission.buildName, None)
  }

  function BaselineResult(states: map<StepId, BuildStatus>): CheckResult {
    if BaselineHiddenControl !in states then NotRun
    else
      match states[BaselineHiddenControl]
      case Success => ExpectedFailure
      case Failure | Timeout | Cancelled => Fail
      case _ => NotRun
  }

  function PassResult(states: map<StepId, BuildStatus>, id: StepId): CheckResult {
    if id !in states then NotRun
    else
      match states[id]
      case Success => Pass
      case Failure | Timeout | Cancelled => Fail
      case _ => NotRun
  }

  function FirstFailed(states: map<StepId, BuildStatus>, ids: seq<StepId>): Option<StepId> {
    if ids == [] then None
    else if ids[0] in states && states[ids[0]] in {Failure, Timeout, Cancelled} then Some(ids[0])
    else FirstFailed(states, ids[1..])
  }

  function FailedStepOutcome(step: Option<StepId>): (Decision, FailureCode) {
    match step
    case Some(SourceIntegrity) => (Rejected, SourceMismatch)
    case Some(BaselineHiddenControl) => (Rejected, BaselineMismatch)
    case Some(MaterializeCandidate) => (Rejected, CandidateMismatch)
    case Some(CandidateHiddenControl) => (Rejected, CandidateControlFailed)
    case Some(DemoSaasRegression) => (Rejected, RegressionFailed)
    case Some(CandidateIntegrity) => (Rejected, CandidateMismatch)
    case _ => (Unavailable, BuildFailed)
  }

  function ValidLogUrl(url: Option<LogUrl>): bool {
    url.Some? && url.value.text != "" && url.value.httpsWithHost
  }

  /** An outcome that carries no candidate. */
  function Stopped(decision: Decision, code: FailureCode, evidence: Option<Evidence>): Outcome {
    Outcome(decision, code, NotRun, NotRun, NotRun, false, false, evidence, None)
  }

  function RequiredIds(): set<StepId> {
    set i | 0 <= i < |REQUIRED_STEP_IDS| :: REQUIRED_STEP_IDS[i]
  }

  /** `_interpret`: classify a build that has reached a terminal status. */
  function Interpret(
    repositoryUrl: string, artifact: Artifact, submission: BuildSubmission, snapshot: BuildSnapshot): Outcome
  {
    var evidence := Some(EvidenceOf(Some(snapshot), submission));
    var states := Dict(snapshot.steps);
    var baseline := BaselineResult(states);
    var candidate := PassResult(states, CandidateHiddenControl);
    var regression := PassResult(states, DemoSaasRegression);
    var refused := (d: Decision, c: FailureCode, exactSource: bool) =>
      Outcome(d, c, baseline, candidate, regression, exactSource, false, evidence, None);
    match snapshot.status
    case Timeout => refused(Unavailable, DeadlineExceeded, false)
    case InternalError => refused(Unavailable, BuildInternalError, false)
    case Cancelled => refused(Unavailable, BuildCancelled, false)
    case Expired => refused(Unavailable, BuildExpired, false)
    case Failure | Pending(_) =>
      var failed := FailedStepOutcome(FirstFailed(states, REQUIRED_STEP_IDS));
      refused(failed.0, failed.1, false)
    case Success =>
      if states.Keys != RequiredIds() || exists id :: id in states && states[id] != Success then
        refused(Unavailable, EvidenceIncomplete, false)
      else if snapshot.sourceUrl != Some(repositoryUrl) || snapshot.revision != Some(artifact.baseSha) then
        refused(Rejected, SourceMismatch, false)
      else if !ValidLogUrl(snapshot.logUrl) then
        refused(Unavailable, EvidenceIncomplete, true)
      else
        Outcome(
          Verified, NoFailure, ExpectedFailure, Pass, Pass, true, true, evidence,
          Some(VerifiedCandidate(repositoryUrl, artifact.baseSha, artifact.diff, artifact.files)))
  }

  predicate FailedIn(states: map<StepId, BuildStatus>, id: StepId) {
    id in states && states[id] in {Failure, Timeout, Cancelled}
  }

  ghost predicate EarliestAt(states: map<StepId, BuildStatus>, ids: seq<StepId>, id: StepId, i: int) {
    && 0 <= i < |ids| && ids[i] == id && FailedIn(states, id)
    && forall j :: 0 <= j < i ==> !FailedIn(states, ids[j])
  }

  /** The failure that classifies a build is the earliest failed step in the trusted order. */
  lemma {:induction false} FirstFailedIsEarliest(states: map<StepId, BuildStatus>, ids: seq<StepId>, id: StepId)
    ensures FirstFailed(states, ids) == Some(id) <==> exists i :: EarliestAt(states, ids, id, i)
    ensures FirstFailed(states, ids) == None <==> forall i :: 0 <= i < |ids| ==> !FailedIn(states, ids[i])
  {
    if ids != [] {
      var rest := ids[1..];
      assert forall i :: 0 <= i < |rest| ==> rest[i] == ids[i + 1];
      FirstFailedIsEarliest(states, rest, id);
      if FailedIn(states, ids[0]) {
        assert EarliestAt(states, ids, ids[0], 0);
      } else {
        EarliestShifts(states, ids, id);
      }
    }
  }

  lemma EarliestShifts(states: map<StepId, BuildStatus>, ids: seq<StepId>, id: StepId)
    requires ids != [] && !FailedIn(states, ids[0])
    ensures (exists i :: EarliestAt(states, ids[1..], id, i)) <==> exists i :: EarliestAt(states, ids, id, i)
    ensures (forall i :: 0 <= i < |ids[1..]| ==> !FailedIn(states, ids[1..][i]))
            <==> forall i :: 0 <= i < |ids| ==> !FailedIn(states, ids[i])
  {
    var rest := ids[1..];
    if i :| EarliestAt(states, rest, id, i) {
      forall j | 0 <= j < i + 1 ensures !FailedIn(states, ids[j]) {
        if j > 0 { assert ids[j] == rest[j - 1]; }
      }
      assert EarliestAt(states, ids, id, i + 1);
    }
    if i :| EarliestAt(states, ids, id, i) {
      forall j | 0 <= j < i - 1 ensures !FailedIn(states, rest[j]) {
        assert rest[j] == ids[j + 1];
      }
      assert EarliestAt(states, rest, id, i - 1);
    }
    if forall i :: 0 <= i < |rest| ==> !FailedIn(states, rest[i]) {
      forall i | 0 <= i < |ids| ensures !FailedIn(states, ids[i]) {
        if i > 0 { assert ids[i] == rest[i - 1]; }
      }
    }
  }

  /** Every required step's last recorded status is success, and no other step is recorded. */
  ghost predicate LastStatesSucceed(steps: seq<(StepId, BuildStatus)>) {
    && (forall id :: id in RequiredIds() ==> Recorded(steps, id))
    && (forall i :: 0 <= i < |steps| ==> steps[i].0 in RequiredIds())
    && forall i :: 0 <= i < |steps| && LastOf(steps, i) ==> steps[i].1 == Success
  }

  ghost predicate Recorded(steps: seq<(StepId, BuildStatus)>, id: StepId) {
    exists i :: 0 <= i < |steps| && steps[i].0 == id
  }

  ghost predicate LastOf(steps: seq<(StepId, BuildStatus)>, i: nat)
    requires i < |steps|
  {
    forall j :: i < j < |steps| ==> steps[j].0 != steps[i].0
  }

  lemma {:induction false} LastFrom(steps: seq<(StepId, BuildStatus)>, i: nat) returns (last: nat)
    requires i < |steps|
    ensures i <= last < |steps| && steps[last].0 == steps[i].0 && LastOf(steps, last)
    decreases |steps| - i
  {
    if LastOf(steps, i) {
      last := i;
    } else {
      var j :| i < j < |steps| && steps[j].0 == steps[i].0;
      last := LastFrom(steps, j);
    }
  }

  /** The dictionary test of the code says the same as the test on last statuses. */
  lemma StatesSucceed(steps: seq<(StepId, BuildStatus)>)
    ensures (Dict(steps).Keys == RequiredIds() && forall id :: id in Dict(steps) ==> Dict(steps)[id] == Success)
            <==> LastStatesSucceed(steps)
  {
    var states := Dict(steps);
    DictKeys(steps);
    forall i | 0 <= i < |steps| && LastOf(steps, i) ensures steps[i].0 in states && states[steps[i].0] == steps[i].1 {
      DictLastWins(steps, i);
    }
    if LastStatesSucceed(steps) {
      forall id | id in states ensures states[id] == Success {
        var i :| 0 <= i < |steps| && steps[i].0 == id;
        var last := LastFrom(steps, i);
      }
      forall id | id in RequiredIds() ensures id in states {
        assert Recorded(steps, id);
      }
    }
    if states.Keys == RequiredIds() && forall id :: id in states ==> states[id] == Success {
      forall id | id in RequiredIds() ensures Recorded(steps, id) {
        assert id in states.Keys;
      }
      forall i | 0 <= i < |steps| ensures steps[i].0 in RequiredIds() {
        assert steps[i].0 in states.Keys;
      }
    }
  }

  /** A build authorizes publication exactly when it succeeded with the complete trusted step receipt, the
      requested source and revision, and a durable https log. */
  lemma PublishableExactly(
    repositoryUrl: string, artifact: Artifact, submission: BuildSubmission, snapshot: BuildSnapshot)
    ensures Interpret(repositoryUrl, artifact, submission, snapshot).Publishable()
            <==> && snapshot.status == Success
                 && LastStatesSucceed(snapshot.steps)
                 && snapshot.sourceUrl == Some(repositoryUrl)
                 && snapshot.revision == Some(artifact.baseSha)
                 && ValidLogUrl(snapshot.logUrl)
  {
    StatesSucceed(snapshot.steps);
  }

  // ----- What each failure code says about the build.

  /** The last recorded status of a step is a failure. */
  ghost predicate LastFailed(steps: seq<(StepId, BuildStatus)>, id: StepId) {
    exists i :: 0 <= i < |steps| && steps[i].0 == id && LastOf(steps, i) && steps[i].1 in {Failure, Timeout, Cancelled}
  }

  /** The step failed, and no step before it in the trusted order did. */
  ghost predicate BrokeAt(steps: seq<(StepId, BuildStatus)>, at: nat) {
    && at < |REQUIRED_STEP_IDS| && LastFailed(steps, REQUIRED_STEP_IDS[at])
    && forall i :: 0 <= i < at ==> !LastFailed(steps, REQUIRED_STEP_IDS[i])
  }

  /** The build failed, or was read before it had a terminal status. */
  predicate Broken(s: BuildStatus) {
    s == Failure || s.Pending?
  }

  predicate RightSource(repositoryUrl: string, artifact: Artifact, snapshot: BuildSnapshot) {
    snapshot.sourceUrl == Some(repositoryUrl) && snapshot.revision == Some(artifact.baseSha)
  }

  lemma FailedExactly(steps: seq<(StepId, BuildStatus)>, id: StepId)
    ensures FailedIn(Dict(steps), id) <==> LastFailed(steps, id)
  {
    DictKeys(steps);
    forall i | 0 <= i < |steps| && LastOf(steps, i)
      ensures steps[i].0 in Dict(steps) && Dict(steps)[steps[i].0] == steps[i].1
    {
      DictLastWins(steps, i);
    }
    if FailedIn(Dict(steps), id) {
      var i :| 0 <= i < |steps| && steps[i].0 == id;
      var last := LastFrom(steps, i);
    }
  }

  lemma DistinctRequired()
    ensures forall i, j :: 0 <= i < j < |REQUIRED_STEP_IDS| ==> REQUIRED_STEP_IDS[i] != REQUIRED_STEP_IDS[j]
    ensures |REQUIRED_STEP_IDS| == 7
  {
  }

  lemma FirstFailedExactly(steps: seq<(StepId, BuildStatus)>, at: nat)
    requires at < |REQUIRED_STEP_IDS|
    ensures FirstFailed(Dict(steps), REQUIRED_STEP_IDS) == Some(REQUIRED_STEP_IDS[at]) <==> BrokeAt(steps, at)
  {
    FirstFailedIsEarliest(Dict(steps), REQUIRED_STEP_IDS, REQUIRED_STEP_IDS[at]);
    forall id ensures FailedIn(Dict(steps), id) <==> LastFailed(steps, id) {
      FailedExactly(steps, id);
    }
    DistinctRequired();
    hide LastFailed, FailedIn, FirstFailed, Dict;
    if BrokeAt(steps, at) {
      assert EarliestAt(Dict(steps), REQUIRED_STEP_IDS, REQUIRED_STEP_IDS[at], at);
    }
  }

  lemma {:induction false} FirstFailedIn(states: map<StepId, BuildStatus>, ids: seq<StepId>)
    ensures FirstFailed(states, ids).Some? ==> FirstFailed(states, ids).value in ids
  {
    if ids != [] {
      FirstFailedIn(states, ids[1..]);
    }
  }

  /** The step that broke the build, by its place in the trusted order. */
  lemma BrokenStep(steps: seq<(StepId, BuildStatus)>) returns (at: nat)
    ensures var step := FirstFailed(Dict(steps), REQUIRED_STEP_IDS);
            && (step.None? ==> at == 7)
            && (step.Some? ==> at < 7 && step == Some(REQUIRED_STEP_IDS[at]))
            && forall i: nat :: BrokeAt(steps, i) <==> i == at && at < 7
  {
    FirstFailedIn(Dict(steps), REQUIRED_STEP_IDS);
    DistinctRequired();
    var step := FirstFailed(Dict(steps), REQUIRED_STEP_IDS);
    at := 7;
    if step.Some? {
      at :| 0 <= at < |REQUIRED_STEP_IDS| && REQUIRED_STEP_IDS[at] == step.value;
    }
    forall i: nat ensures BrokeAt(steps, i) <==> i == at && at < 7 {
      if i < 7 {
        FirstFailedExactly(steps, i);
      }
    }
  }

  lemma BrokenCodes(steps: seq<(StepId, BuildStatus)>)
    ensures var (decision, code) := FailedStepOutcome(FirstFailed(Dict(steps), REQUIRED_STEP_IDS));
            && (code == SourceMismatch <==> BrokeAt(steps, 0))
            && (code == BaselineMismatch <==> BrokeAt(steps, 2))
            && (code == CandidateMismatch <==> BrokeAt(steps, 3) || BrokeAt(steps, 6))
            && (code == CandidateControlFailed <==> BrokeAt(steps, 4))
            && (code == RegressionFailed <==> BrokeAt(steps, 5))
            && (code == BuildFailed <==> forall at: nat :: BrokeAt(steps, at) ==> at == 1)
            && code in {SourceMismatch, BaselineMismatch, CandidateMismatch, CandidateControlFailed, RegressionFailed,
                        BuildFailed}
            && decision == if code == BuildFailed then Unavailable else Rejected
  {
    var at := BrokenStep(steps);
    hide BrokeAt, FirstFailed, Dict;
  }

  lemma BrokenOutcome(
    repositoryUrl: string, artifact: Artifact, submission: BuildSubmission, snapshot: BuildSnapshot)
    requires Broken(snapshot.status)
    ensures var o := Interpret(repositoryUrl, artifact, submission, snapshot);
            (o.decision, o.code) == FailedStepOutcome(FirstFailed(Dict(snapshot.steps), REQUIRED_STEP_IDS))
  {
    hide Dict, FirstFailed, FailedStepOutcome;
  }

  /** The decision and code of every build that is read as terminal, by its status, its first failed step in the
      trusted order (0 source integrity, 1 dependencies, 2 baseline, 3 materialization, 4 hidden control,
      5 regression, 6 candidate integrity), its source and its log. */
  lemma ClassifiedExactly(
    repositoryUrl: string, artifact: Artifact, submission: BuildSubmission, snapshot: BuildSnapshot)
    ensures var o := Interpret(repositoryUrl, artifact, submission, snapshot);
            var complete := snapshot.status == Success && LastStatesSucceed(snapshot.steps);
            var right := RightSource(repositoryUrl, artifact, snapshot);
            && (o.code == DeadlineExceeded <==> snapshot.status == Timeout)
            && (o.code == BuildInternalError <==> snapshot.status == InternalError)
            && (o.code == BuildCancelled <==> snapshot.status == Cancelled)
            && (o.code == BuildExpired <==> snapshot.status == Expired)
            && (o.code == SourceMismatch
                <==> (Broken(snapshot.status) && BrokeAt(snapshot.steps, 0)) || (complete && !right))
            && (o.code == BaselineMismatch <==> Broken(snapshot.status) && BrokeAt(snapshot.steps, 2))
            && (o.code == CandidateMismatch
                <==> Broken(snapshot.status) && (BrokeAt(snapshot.steps, 3) || BrokeAt(snapshot.steps, 6)))
            && (o.code == CandidateControlFailed <==> Broken(snapshot.status) && BrokeAt(snapshot.steps, 4))
            && (o.code == RegressionFailed <==> Broken(snapshot.status) && BrokeAt(snapshot.steps, 5))
            && (o.code == BuildFailed
                <==> Broken(snapshot.status)
                     && forall at: nat :: BrokeAt(snapshot.steps, at) ==> at == 1)
            && (o.code == EvidenceIncomplete
                <==> snapshot.status == Success && (!complete || (right && !ValidLogUrl(snapshot.logUrl))))
            && (o.code == NoFailure <==> complete && right && ValidLogUrl(snapshot.logUrl))
            && (o.decision == Verified <==> o.code == NoFailure)
            && (o.decision == Rejected
                <==> o.code in {SourceMismatch, BaselineMismatch, CandidateMismatch, CandidateControlFailed,
                                RegressionFailed})
  {
    hide LastStatesSucceed, BrokeAt, FailedStepOutcome, FirstFailed, Dict, RequiredIds, ValidLogUrl;
    StatesSucceed(snapshot.steps);
    BrokenCodes(snapshot.steps);
    if Broken(snapshot.status) {
      BrokenOutcome(repositoryUrl, artifact, submission, snapshot);
    }
  }

  /** The last recorded status of a step is success. */
  ghost predicate LastSucceeded(steps: seq<(StepId, BuildStatus)>, id: StepId) {
    exists i :: 0 <= i < |steps| && steps[i].0 == id && LastOf(steps, i) && steps[i].1 == Success
  }

  lemma SucceededExactly(steps: seq<(StepId, BuildStatus)>, id: StepId)
    ensures id in Dict(steps) && Dict(steps)[id] == Success <==> LastSucceeded(steps, id)
  {
    DictKeys(steps);
    forall i | 0 <= i < |steps| && LastOf(steps, i)
      ensures steps[i].0 in Dict(steps) && Dict(steps)[steps[i].0] == steps[i].1
    {
      DictLastWins(steps, i);
    }
    if id in Dict(steps) && Dict(steps)[id] == Success {
      var i :| 0 <= i < |steps| && steps[i].0 == id;
      var last := LastFrom(steps, i);
    }
  }

  /** What a check result says about the step it was read from. */
  ghost predicate Reports(check: CheckResult, wanted: CheckResult, steps: seq<(StepId, BuildStatus)>, id: StepId) {
    && (check == wanted <==> LastSucceeded(steps, id))
    && (check == Fail <==> LastFailed(steps, id))
    && check in {wanted, Fail, NotRun}
  }

  lemma StepsReported(steps: seq<(StepId, BuildStatus)>, id: StepId)
    ensures Reports(PassResult(Dict(steps), id), Pass, steps, id)
    ensures Reports(BaselineResult(Dict(steps)), ExpectedFailure, steps, BaselineHiddenControl)
  {
    FailedExactly(steps, id);
    SucceededExactly(steps, id);
    FailedExactly(steps, BaselineHiddenControl);
    SucceededExactly(steps, BaselineHiddenControl);
    hide LastFailed, LastSucceeded, Dict;
  }

  /** A complete receipt has every required step's last status at success. */
  lemma CompleteSucceeds(steps: seq<(StepId, BuildStatus)>, id: StepId)
    requires LastStatesSucceed(steps) && id in RequiredIds()
    ensures LastSucceeded(steps, id) && !LastFailed(steps, id)
  {
    StatesSucceed(steps);
    SucceededExactly(steps, id);
    FailedExactly(steps, id);
  }

  predicate Authorized(repositoryUrl: string, artifact: Artifact, snapshot: BuildSnapshot) {
    && snapshot.status == Success && Dict(snapshot.steps).Keys == RequiredIds()
    && (forall id :: id in Dict(snapshot.steps) ==> Dict(snapshot.steps)[id] == Success)
    && RightSource(repositoryUrl, artifact, snapshot) && ValidLogUrl(snapshot.logUrl)
  }

  lemma UnauthorizedChecks(
    repositoryUrl: string, artifact: Artifact, submission: BuildSubmission, snapshot: BuildSnapshot)
    requires !Authorized(repositoryUrl, artifact, snapshot)
    ensures var o := Interpret(repositoryUrl, artifact, submission, snapshot);
            && o.baseline == BaselineResult(Dict(snapshot.steps))
            && o.candidateControl == PassResult(Dict(snapshot.steps), CandidateHiddenControl)
            && o.regression == PassResult(Dict(snapshot.steps), DemoSaasRegression)
            && !o.exactCandidate && o.candidate.None?
            && o.evidence == Some(Evidence(snapshot.buildId, snapshot.buildName, snapshot.logUrl))
  {
    hide Dict, RequiredIds, FirstFailed, FailedStepOutcome, BaselineResult, PassResult, ValidLogUrl;
  }

  lemma AuthorizedChecks(
    repositoryUrl: string, artifact: Artifact, submission: BuildSubmission, snapshot: BuildSnapshot)
    requires Authorized(repositoryUrl, artifact, snapshot)
    ensures var o := Interpret(repositoryUrl, artifact, submission, snapshot);
            && o.baseline == ExpectedFailure && o.candidateControl == Pass && o.regression == Pass
            && o.Publishable()
            && o.evidence == Some(Evidence(snapshot.buildId, snapshot.buildName, snapshot.logUrl))
  {
    hide Dict, RequiredIds, FirstFailed, FailedStepOutcome, BaselineResult, PassResult, ValidLogUrl;
  }

  lemma SourceExactly(
    repositoryUrl: string, artifact: Artifact, submission: BuildSubmission, snapshot: BuildSnapshot)
    ensures Interpret(repositoryUrl, artifact, submission, snapshot).exactSource
            <==> && snapshot.status == Success && LastStatesSucceed(snapshot.steps)
                 && RightSource(repositoryUrl, artifact, snapshot)
  {
    StatesSucceed(snapshot.steps);
    hide Dict, RequiredIds, FirstFailed, FailedStepOutcome, BaselineResult, PassResult, ValidLogUrl, LastStatesSucceed;
  }

  /** Whatever the verdict on the build, its outcome reports the three checks as their steps were last recorded, the
      source only of a complete build, and the candidate only of a publishable one. */
  lemma ChecksExactly(
    repositoryUrl: string, artifact: Artifact, submission: BuildSubmission, snapshot: BuildSnapshot)
    ensures var o := Interpret(repositoryUrl, artifact, submission, snapshot);
            && Reports(o.baseline, ExpectedFailure, snapshot.steps, BaselineHiddenControl)
            && Reports(o.candidateControl, Pass, snapshot.steps, CandidateHiddenControl)
            && Reports(o.regression, Pass, snapshot.steps, DemoSaasRegression)
            && (o.exactSource
                <==> && snapshot.status == Success && LastStatesSucceed(snapshot.steps)
                     && RightSource(repositoryUrl, artifact, snapshot))
            && (o.exactCandidate <==> o.Publishable()) && (o.candidate.Some? <==> o.Publishable())
            && o.evidence == Some(Evidence(snapshot.buildId, snapshot.buildName, snapshot.logUrl))
  {
    var steps := snapshot.steps;
    SourceExactly(repositoryUrl, artifact, submission, snapshot);
    if Authorized(repositoryUrl, artifact, snapshot) {
      StatesSucceed(steps);
      InRequired();
      CompleteSucceeds(steps, BaselineHiddenControl);
      CompleteSucceeds(steps, CandidateHiddenControl);
      CompleteSucceeds(steps, DemoSaasRegression);
      AuthorizedChecks(repositoryUrl, artifact, submission, snapshot);
    } else {
      StepsReported(steps, CandidateHiddenControl);
      StepsReported(steps, DemoSaasRegression);
      UnauthorizedChecks(repositoryUrl, artifact, submission, snapshot);
    }
    hide Interpret, LastStatesSucceed, LastSucceeded, LastFailed, Dict, RequiredIds, BaselineResult, PassResult;
  }

  lemma InRequired()
    ensures {BaselineHiddenControl, CandidateHiddenControl, DemoSaasRegression} <= RequiredIds()
  {
    assert REQUIRED_STEP_IDS[2] in RequiredIds() && REQUIRED_STEP_IDS[4] in RequiredIds();
    assert REQUIRED_STEP_IDS[5] in RequiredIds();
  }

  ghost predicate EveryStepSucceeded(steps: seq<(StepId, BuildStatus)>) {
    && (forall id :: id in RequiredIds() ==> Recorded(steps, id))
    && forall i :: 0 <= i < |steps| ==> steps[i].0 in RequiredIds() && steps[i].1 == Success
  }

  /** With one entry per step id, publishable builds are those whose every step succeeded. */
  lemma DistinctStepsAllSucceed(steps: seq<(StepId, BuildStatus)>)
    requires DistinctKeys(steps)
    ensures LastStatesSucceed(steps) <==> EveryStepSucceeded(steps)
  {
    forall i | 0 <= i < |steps| ensures LastOf(steps, i) {
    }
  }

  /** The recorded steps of a build: its ids in order, with a status for each. */
  function Recording(ids: seq<StepId>, statuses: seq<BuildStatus>): (steps: seq<(StepId, BuildStatus)>)
    requires |ids| == |statuses|
    ensures |steps| == |ids| && forall i :: 0 <= i < |ids| ==> steps[i] == (ids[i], statuses[i])
  {
    seq(|ids|, i requires 0 <= i < |ids| => (ids[i], statuses[i]))
  }

  ghost predicate DistinctIds(ids: seq<StepId>) {
    forall i, j :: 0 <= i < j < |ids| ==> ids[i] != ids[j]
  }

  /** Reading the last status of each id never hides a failed step. */
  ghost predicate NothingHidden(ids: seq<StepId>) {
    forall statuses :: |statuses| == |ids| && LastStatesSucceed(Recording(ids, statuses)) ==>
      EveryStepSucceeded(Recording(ids, statuses))
  }

  /** Over the recordings that name exactly the required steps, the dictionary test speaks of every recorded step if
      and only if no id is recorded twice. */
  lemma NothingHiddenExactly(ids: seq<StepId>)
    requires (set i | 0 <= i < |ids| :: ids[i]) == RequiredIds()
    ensures NothingHidden(ids) <==> DistinctIds(ids)
  {
    if DistinctIds(ids) {
      forall statuses | |statuses| == |ids| && LastStatesSucceed(Recording(ids, statuses))
        ensures EveryStepSucceeded(Recording(ids, statuses))
      {
        DistinctStepsAllSucceed(Recording(ids, statuses));
      }
    } else {
      var i, j :| 0 <= i < j < |ids| && ids[i] == ids[j];
      var hidden := RepeatedStepHidesFailure(ids, i, j);
    }
  }

  /** A repeated id hides a failure of its earlier step. */
  lemma RepeatedStepHidesFailure(ids: seq<StepId>, i: nat, j: nat) returns (statuses: seq<BuildStatus>)
    requires (set k | 0 <= k < |ids| :: ids[k]) == RequiredIds()
    requires i < j < |ids| && ids[i] == ids[j]
    ensures |statuses| == |ids| && LastStatesSucceed(Recording(ids, statuses))
    ensures !EveryStepSucceeded(Recording(ids, statuses))
  {
    statuses := seq(|ids|, k requires 0 <= k < |ids| => if k == i then Failure else Success);
    var steps := Recording(ids, statuses);
    assert steps[i].1 == Failure && !LastOf(steps, i);
    forall k | 0 <= k < |steps| ensures steps[k].0 in RequiredIds() {
      assert ids[k] in set m | 0 <= m < |ids| :: ids[m];
    }
    forall id | id in RequiredIds() ensures Recorded(steps, id) {
      var k :| 0 <= k < |ids| && ids[k] == id;
      assert steps[k].0 == id;
    }
  }

  // ----- The receipt and its binding (models.py).

  datatype VerificationResult = ResultPass | ResultFail | ResultNotRun

  datatype BindingPayload = BindingPayload(
    repositoryUrl: string, baseSha: string, diff: Digest,
    preimages: map<string, Digest>, candidates: map<string, Digest>,
    buildId: string, buildName: string, logUrl: string)

  /** The digest of the canonical payload is, by injectivity, the payload it was computed from. */
  datatype Binding = Binding(payload: BindingPayload, digest: BindingPayload)
  {
    predicate Valid() {
      && payload.preimages.Keys == payload.candidates.Keys
      && 1 <= |payload.preimages| <= 16
      && (forall path :: path in payload.preimages ==> 1 <= |path| <= 1000)
      && 12 <= |payload.repositoryUrl| <= 2000 && IsGitSha(payload.baseSha)
      && 1 <= |payload.buildId| <= 256 && 1 <= |payload.buildName| <= 1000
      && 12 <= |payload.logUrl| <= 2000
      && digest == payload
    }
  }

  datatype Receipt = Receipt(
    baseline: VerificationResult, candidateControl: VerificationResult, regression: VerificationResult,
    exactTree: bool, isolated: bool, publishable: bool,
    buildId: Option<string>, logUrl: Option<string>, binding: Option<Binding>)

  function CreateBinding(c: VerifiedCandidate, e: Evidence): Option<Binding>
    requires e.logUrl.Some?
  {
    var input := InputOfCandidate(c);
    var payload := BindingPayload(
      c.repositoryUrl, c.baseSha, c.diff, input.preimages, input.candidates,
      e.buildId, e.buildName, e.logUrl.value.text);
    if Binding(payload, payload).Valid() then Some(Binding(payload, payload)) else None
  }

  function ResultOf(check: CheckResult): VerificationResult {
    match check
    case Pass => ResultPass
    case Fail => ResultFail
    case _ => ResultNotRun
  }

  /** `to_verification_receipt`; no receipt when a validator raises. */
  function ToReceipt(o: Outcome): Option<Receipt> {
    var logUrl :=
      if o.evidence.Some? && o.evidence.value.logUrl.Some? && o.evidence.value.logUrl.value.httpsWithHost then
        Some(o.evidence.value.logUrl.value.text)
      else None;
    var receipt := Receipt(
      if o.baseline == ExpectedFailure then ResultFail else ResultNotRun,
      ResultOf(o.candidateControl), ResultOf(o.regression),
      o.exactCandidate, o.evidence.Some?, o.Publishable(),
      if o.evidence.Some? then Some(o.evidence.value.buildId) else None, logUrl, None);
    if o.Publishable() && o.evidence.Some? then
      if o.evidence.value.logUrl.None? then None
      else
        match CreateBinding(o.candidate.value, o.evidence.value)
        case None => None
        case Some(binding) => Some(receipt.(binding := Some(binding)))
    else Some(receipt)
  }

  /** `unverified_mvp_receipt` and `unavailable_verification_receipt`. */
  const UNPROVEN_RECEIPT :=
    Receipt(ResultFail, ResultNotRun, ResultNotRun, false, false, false, None, None, None)

  /** `_receipt_proves_candidate`. */
  predicate ProvesCandidate(receipt: Option<Receipt>) {
    && receipt.Some?
    && receipt.value.publishable && receipt.value.isolated && receipt.value.exactTree
    && receipt.value.baseline == ResultFail
    && receipt.value.candidateControl == ResultPass
    && receipt.value.regression == ResultPass
  }

  /** The publisher's comparison of a receipt's binding with the snapshot it is about to upload. */
  predicate BindingMatches(binding: Binding, snapshot: Snapshot) {
    && binding.payload.repositoryUrl == snapshot.repositoryUrl
    && binding.payload.baseSha == snapshot.baseSha
    && binding.payload.diff == snapshot.diff
    && binding.payload.candidates == CandidateMap(snapshot)
    && binding.payload.preimages == PreimageMap(snapshot)
  }

  /** Proof that survives to the publisher: a proving receipt, bound to the very bytes of the checkpoint. */
  ghost predicate Evidenced(receipt: Option<Receipt>, candidate: Option<Checkpoint>) {
    && ProvesCandidate(receipt)
    && receipt.value.binding.Some? && receipt.value.binding.value.Valid()
    && candidate.Some? && candidate.value.Valid()
    && TakeSnapshot(candidate.value.Input()).Some?
    && BindingMatches(receipt.value.binding.value, TakeSnapshot(candidate.value.Input()).value)
  }

  const PUBLIC_REPOSITORY_URL := "https://github.com/kostakarathana/iPromise.git"

  lemma {:induction false} TotalBytesBound(files: seq<SnapshotFile>, bound: nat)
    requires forall i :: 0 <= i < |files| ==> |files[i].content| <= bound
    ensures TotalBytes(files) <= bound * |files|
  {
    if files != [] {
      TotalBytesBound(files[..|files| - 1], bound);
    }
  }

  lemma ApprovedInput(artifact: Artifact)
    requires Approved(artifact)
    ensures var c := VerifiedCandidate(PUBLIC_REPOSITORY_URL, artifact.baseSha, artifact.diff, artifact.files);
            var input := InputOfCandidate(c);
            && input.tree.Keys == {STORE_PATH, TEST_PATH} == input.preimages.Keys == input.candidates.Keys
            && forall p :: p in input.tree ==>
                 |input.tree[p]| <= MAX_PREIMAGE_FILE_BYTES && input.candidates[p] == Candidates.Sha256(input.tree[p])
  {
    var f := artifact.files;
    PathsDiffer();
    DictOfTwo(FileContents(f));
    DictOfTwo(FilePreimages(f));
    DictOfTwo(FileCandidates(f));
  }

  lemma PathsDiffer()
    ensures STORE_PATH != TEST_PATH
  {
    SplitJoin(["apps", "demo_saas", "src", "ipromise_demo", "store.py"]);
    SplitJoin(["apps", "demo_saas", "tests", "test_app.py"]);
    assert |Split(STORE_PATH)| == 5 && |Split(TEST_PATH)| == 4;
  }

  lemma DictOfTwo<V>(pairs: seq<(string, V)>)
    requires |pairs| == 2 && pairs[0].0 != pairs[1].0
    ensures Dict(pairs) == map[pairs[0].0 := pairs[0].1, pairs[1].0 := pairs[1].1]
  {
    var front := pairs[..1];
    assert front[..0] == [];
    assert Dict(front) == map[pairs[0].0 := pairs[0].1];
  }

  lemma ApprovedTotal(input: CandidateInput)
    requires input.tree.Keys == {STORE_PATH, TEST_PATH} == input.preimages.Keys == input.candidates.Keys
    requires forall p :: p in input.tree ==> |input.tree[p]| <= MAX_PREIMAGE_FILE_BYTES
    ensures TotalBytes(SnapshotFiles(input)) <= 2 * MAX_PREIMAGE_FILE_BYTES
  {
    var files := SnapshotFiles(input);
    PathsDiffer();
    assert |files| == |{STORE_PATH, TEST_PATH}| == 2;
    forall i | 0 <= i < |files| ensures |files[i].content| <= MAX_PREIMAGE_FILE_BYTES {
      assert files[i].path in input.tree && files[i].content == input.tree[files[i].path];
    }
    TotalBytesBound(files, MAX_PREIMAGE_FILE_BYTES);
  }

  lemma ApprovedSnapshot(input: CandidateInput)
    requires IsGitSha(input.baseSha) && input.repositoryUrl == PUBLIC_REPOSITORY_URL
    requires input.tree.Keys == {STORE_PATH, TEST_PATH} == input.preimages.Keys == input.candidates.Keys
    requires forall p :: p in input.tree ==>
               |input.tree[p]| <= MAX_PREIMAGE_FILE_BYTES && input.candidates[p] == Candidates.Sha256(input.tree[p])
    ensures TakeSnapshot(input).Some?
  {
    hide SafePath, StartsWith, EndsWith, TotalBytes, IsGitSha;
    ApprovedTotal(input);
    PublicUrlAccepted();
    ApprovedTreeSafe(input.tree);
    assert STORE_PATH in input.tree.Keys;
  }

  lemma ApprovedTreeSafe(tree: map<string, Bytes>)
    requires tree.Keys == {STORE_PATH, TEST_PATH}
    ensures forall p :: p in tree ==> SafePath(p)
  {
    ApprovedPathsSafe();
    forall p | p in tree ensures SafePath(p) {
      assert p in tree.Keys;
    }
  }

  lemma PublicUrlAccepted()
    ensures |PUBLIC_REPOSITORY_URL| == 46
    ensures StartsWith(PUBLIC_REPOSITORY_URL, "https://") && EndsWith(PUBLIC_REPOSITORY_URL, ".git")
  {
    hide StartsWith, EndsWith;
    Surrounded("https://", "github.com/kostakarathana/iPromise", ".git");
    PublicUrlParts();
  }

  lemma PublicUrlParts()
    ensures |PUBLIC_REPOSITORY_URL| == 46
    ensures PUBLIC_REPOSITORY_URL == "https://" + "github.com/kostakarathana/iPromise" + ".git"
  {
    PublicUrlHead();
    PublicUrlTail();
    hide *;
  }

  lemma PublicUrlHead()
    ensures |PUBLIC_REPOSITORY_URL| == 46
    ensures PUBLIC_REPOSITORY_URL == "https://github.com/kostakarathana/iPromise" + ".git"
  {
  }

  lemma PublicUrlTail()
    ensures "https://github.com/kostakarathana/iPromise" == "https://" + "github.com/kostakarathana/iPromise"
  {
  }

  lemma Surrounded(prefix: string, middle: string, suffix: string)
    ensures StartsWith(prefix + middle + suffix, prefix) && EndsWith(prefix + middle + suffix, suffix)
  {
  }

  lemma BoundReceipt(o: Outcome, c: VerifiedCandidate)
    requires o.Publishable() && o.candidate == Some(c) && o.evidence.Some?
    requires ToReceipt(o).Some?
    ensures ProvesCandidate(ToReceipt(o))
    ensures var b := ToReceipt(o).value.binding;
            var input := InputOfCandidate(c);
            && b.Some? && b.value.Valid()
            && b.value.payload.repositoryUrl == input.repositoryUrl && b.value.payload.baseSha == input.baseSha
            && b.value.payload.diff == input.diff
            && b.value.payload.candidates == input.candidates && b.value.payload.preimages == input.preimages
  {
  }

  /** What a receipt's result says about the step: the baseline's success is the failure it was to reproduce. */
  ghost predicate Shows(
    result: VerificationResult, wanted: VerificationResult, steps: seq<(StepId, BuildStatus)>, id: StepId)
  {
    && (result == wanted <==> LastSucceeded(steps, id))
    && (wanted == ResultPass ==> (result == ResultFail <==> LastFailed(steps, id)))
    && (wanted == ResultFail ==> result != ResultPass)
  }

  /** The receipt of a build shows what its steps did, names the build and nothing but an https log, and proves a
      candidate exactly when the build is publishable; there is none exactly when the binding that a publishable build
      needs is refused. */
  lemma ReceiptReportsTheBuild(
    repositoryUrl: string, artifact: Artifact, submission: BuildSubmission, snapshot: BuildSnapshot)
    ensures var o := Interpret(repositoryUrl, artifact, submission, snapshot);
            var receipt := ToReceipt(o);
            && (receipt.None? <==> o.Publishable() && CreateBinding(o.candidate.value, o.evidence.value).None?)
            && (receipt.Some? ==>
                  && Shows(receipt.value.baseline, ResultFail, snapshot.steps, BaselineHiddenControl)
                  && Shows(receipt.value.candidateControl, ResultPass, snapshot.steps, CandidateHiddenControl)
                  && Shows(receipt.value.regression, ResultPass, snapshot.steps, DemoSaasRegression)
                  && (ProvesCandidate(receipt) <==> o.Publishable())
                  && (receipt.value.publishable <==> o.Publishable())
                  && (receipt.value.binding.Some? <==> o.Publishable())
                  && receipt.value.isolated && receipt.value.buildId == Some(snapshot.buildId)
                  && (receipt.value.logUrl.Some?
                      <==> snapshot.logUrl.Some? && snapshot.logUrl.value.httpsWithHost)
                  && (receipt.value.logUrl.Some? ==> receipt.value.logUrl.value == snapshot.logUrl.value.text))
  {
    ChecksExactly(repositoryUrl, artifact, submission, snapshot);
    PublishableExactly(repositoryUrl, artifact, submission, snapshot);
    hide LastStatesSucceed, LastSucceeded, LastFailed, Interpret, CreateBinding;
  }

  /** Whatever two candidates the publisher accepts, a valid binding authorizes both only if they are the same: the same
      repository, base, diff and preimages, and the same bytes at the same paths. */
  lemma BindingNamesOneCandidate(binding: Binding, first: CandidateInput, second: CandidateInput)
    requires TakeSnapshot(first).Some? && BindingMatches(binding, TakeSnapshot(first).value)
    requires TakeSnapshot(second).Some? && BindingMatches(binding, TakeSnapshot(second).value)
    ensures first == second
  {
    SnapshotMaps(first);
    SnapshotMaps(second);
    hide SafePath, IsGitSha, StartsWith, EndsWith, TotalBytes, SnapshotFiles, CandidateMap, PreimageMap;
    assert first.candidates == second.candidates && first.preimages == second.preimages;
    forall path | path in first.tree ensures path in second.tree && first.tree[path] == second.tree[path] {
      assert path in first.candidates.Keys && path in second.tree.Keys;
      assert first.candidates[path] == Candidates.Sha256(first.tree[path]);
      assert second.candidates[path] == Candidates.Sha256(second.tree[path]);
    }
    assert first.tree.Keys == second.tree.Keys;
    assert first.tree == second.tree;
  }

  lemma CheckpointEvidence(receipt: Option<Receipt>, input: CandidateInput)
    requires ProvesCandidate(receipt) && receipt.value.binding.Some? && receipt.value.binding.value.Valid()
    requires var payload := receipt.value.binding.value.payload;
             && payload.repositoryUrl == input.repositoryUrl && payload.baseSha == input.baseSha
             && payload.diff == input.diff
             && payload.candidates == input.candidates && payload.preimages == input.preimages
    requires TakeSnapshot(input).Some? && FromVerifiedCandidate(input).Some?
    ensures Evidenced(receipt, FromVerifiedCandidate(input))
  {
    CheckpointRoundTrip(input);
    SnapshotMaps(input);
  }

  /** The evidence chain: a publishable outcome whose receipt and checkpoint were both recorded passes every
      receipt, binding and snapshot check the publisher makes later, on the reloaded checkpoint. */
  lemma ProofReachesPublisher(
    artifact: Artifact, submission: BuildSubmission, snapshot: BuildSnapshot, outcome: Outcome)
    requires Approved(artifact)
    requires outcome == Interpret(PUBLIC_REPOSITORY_URL, artifact, submission, snapshot)
    requires outcome.Publishable() && ToReceipt(outcome).Some?
    requires FromVerifiedCandidate(InputOfCandidate(outcome.candidate.value)).Some?
    ensures Evidenced(ToReceipt(outcome), FromVerifiedCandidate(InputOfCandidate(outcome.candidate.value)))
  {
    var c := VerifiedCandidate(PUBLIC_REPOSITORY_URL, artifact.baseSha, artifact.diff, artifact.files);
    assert outcome.candidate == Some(c) && outcome.evidence.Some?;
    ApprovedInput(artifact);
    ApprovedSnapshot(InputOfCandidate(c));
    BoundReceipt(outcome, c);
    CheckpointEvidence(ToReceipt(outcome), InputOfCandidate(c));
  }
}
