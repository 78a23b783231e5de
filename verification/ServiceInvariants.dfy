/** What every persisted run satisfies, and what a worker holding the execution lease keeps. */
module ServiceInvariants {
  import opened Wrappers
  import opened Actions
  import opened AuditRuns
  import opened Candidates
  import opened Verification
  import opened Service
  import Fingerprints

  // ----- A persisted run.

  ghost predicate EventsOk(r: Run) {
    && r.events != []
    && (forall i :: 0 <= i < |r.events| ==> r.events[i].number == i + 1)
    && forall i :: 0 <= i < |r.events| - 1 ==> r.events[i].state != Running
  }

  /** The pull request, the issue and the (never selected) email have these states. */
  predicate Plan(r: Run, pullRequest: ActionState, issue: ActionState) {
    && Ordered(r.actions)
    && r.actions[0].state == pullRequest && r.actions[1].state == issue && r.actions[2].state == Skipped
    && (r.actions[0].verified <==> pullRequest in {Ready, Opened})
    && (pullRequest == Opened ==> r.actions[0].url.Some?)
    && (issue == Opened ==> r.actions[1].url.Some?)
  }

  predicate NothingSelected(r: Run) {
    r.actions == [] || Plan(r, Skipped, Skipped)
  }

  /** A route is selected only for a contradiction, and the pull request is ready only with proof. */
  predicate ActionsOk(r: Run) {
    NothingSelected(r) || (r.verdict == Contradicted && RouteOk(r))
  }

  predicate RouteOk(r: Run) {
    || (Plan(r, Ready, Skipped) && ProvesCandidate(r.verification))
    || Plan(r, Opened, Skipped)
    || Plan(r, Blocked, Planned)
    || Plan(r, Blocked, Opened)
  }

  predicate CanDispatch(cfg: Config, r: Run) {
    cfg.actionsEnabled && r.repository.Some?
  }

  /** Routing has nothing left to publish. */
  predicate RouteSettled(cfg: Config, r: Run) {
    r.actions != [] && !ActionIs(r, 0, Ready) && (ActionIs(r, 1, Planned) ==> !CanDispatch(cfg, r))
  }

  predicate StatusOk(cfg: Config, r: Run)
    requires r.events != []
  {
    match r.status
    case Received => r.actions == [] && r.verdict == PendingVerdict && !r.IsRunning()
    case Capturing | Compiling | BindingControl | Probing => r.actions == [] && r.verdict == PendingVerdict
    case Evaluating => r.actions == [] && r.verdict != PendingVerdict
    case Remediating => r.actions == [] && r.verdict == Contradicted
    case Verifying => r.actions == [] && r.verdict == Contradicted && !r.IsRunning() && r.verification.Some?
    case RoutingAction =>
      && r.actions != [] && r.verdict != PendingVerdict
      && (r.LastIs(RoutingAction, Running) || (r.LastIs(RoutingAction, Succeeded) && RouteSettled(cfg, r)))
    case Complete => RouteSettled(cfg, r) && r.verdict != PendingVerdict && !r.IsRunning()
    case FailedRetryable =>
      r.actions != [] && r.verdict != PendingVerdict && !r.IsRunning() && Attempts(r.events) < MAX_RUN_ATTEMPTS
    case FailedSafe => r.actions != [] && r.verdict != PendingVerdict && !r.IsRunning()
  }

  predicate VerdictOk(r: Run) {
    r.verdict in {Supported, Contradicted} ==> r.verdict == CalculateVerdict(r.evidence)
  }

  /** The invariant of every persisted run. */
  ghost predicate RunOk(cfg: Config, r: Run) {
    && EventsOk(r)
    && ActionsOk(r)
    && VerdictOk(r)
    && StatusOk(cfg, r)
  }

  // ----- External artifacts this run has created.

  /** The identity of the draft PR a run would open, and of the issue it would file: two issue keys are equal exactly
      when the canonical pre-images of their findings are (`ArtifactIdentity.IssueKeysArePreimages`). */
  datatype PrKey = PrKey(repository: Option<Repository>, candidate: Option<Checkpoint>)
  datatype IssueKey = IssueKey(
    repositoryId: Option<nat>, sourceUrl: string, contentHash: string, exactQuote: string, controlId: Option<string>,
    verdict: Verdict, observations: multiset<Fingerprints.Fields>)

  datatype Artifacts = Artifacts(prs: set<PrKey>, issues: set<IssueKey>)
  {
    predicate Empty() {
      prs == {} && issues == {}
    }

    function Count(): nat {
      |prs| + |issues|
    }
  }

  function PrKeyOf(r: Run): PrKey {
    PrKey(r.repository, r.candidate)
  }

  function IssueKeyOf(r: Run): IssueKey {
    IssueKey(
      if r.repository.Some? then Some(r.repository.value.id) else None,
      r.claim.sourceUrl, r.claim.contentHash, r.claim.exactQuote, r.claim.controlId,
      r.verdict, multiset(Fingerprints.AllFields(r.evidence)))
  }

  /** `create_run` will resume dispatch of this run's own plan, or do nothing more. */
  predicate InDispatch(r: Run) {
    r.status in {RoutingAction, Complete, FailedSafe} || (r.status == FailedRetryable && FailedDuringDispatch(r))
  }

  /** The run's plan accounts for every artifact it has created, and what it records as opened exists. */
  predicate Committed(cfg: Config, r: Run, made: Artifacts) {
    || (made.Empty() && NothingOpened(r))
    || (&& made.issues == {} && made.prs == {PrKeyOf(r)}
        && (Plan(r, Ready, Skipped) || Plan(r, Opened, Skipped))
        && InDispatch(r) && CanDispatch(cfg, r) && r.candidate.Some?)
    || (&& made.prs == {} && made.issues == {IssueKeyOf(r)}
        && (Plan(r, Blocked, Planned) || Plan(r, Blocked, Opened))
        && InDispatch(r) && CanDispatch(cfg, r))
  }

  /** An action recorded as opened stays recorded, with its URL. */
  predicate OpenedKept(before: Run, after: Run) {
    forall i :: 0 <= i < 2 && ActionIs(before, i, Opened) ==>
      ActionIs(after, i, Opened) && after.actions[i].url == before.actions[i].url
  }

  predicate NothingOpened(r: Run) {
    !ActionIs(r, 0, Opened) && !ActionIs(r, 1, Opened)
  }

  lemma {:induction false} Appended(r: Run, stage: Status, state: EventState, title: Title)
    requires EventsOk(r) && !r.IsRunning()
    ensures EventsOk(r.Append(stage, state, title))
    ensures r.Append(stage, state, title).Last() == Event(|r.events| + 1, stage, state, title)
    ensures Attempts(r.Append(stage, state, title).events)
            == Attempts(r.events) + if MarksAttempt(Event(|r.events| + 1, stage, state, title)) then 1 else 0
  {
    AttemptsAppend(r.events, Event(|r.events| + 1, stage, state, title));
  }

  lemma LastSet(r: Run, state: EventState)
    requires EventsOk(r)
    ensures EventsOk(r.SetLast(state))
    ensures r.SetLast(state).Last() == r.Last().(state := state)
    ensures Attempts(r.SetLast(state).events) == Attempts(r.events)
  {
    AttemptsSetLast(r.events, r.Last().(state := state));
  }

  // ----- A worker that holds the execution lease.

  predicate Shape(cfg: Config, at: SavePoint, r: Run) {
    match at
    case ResumeRestart => r.status == Received
    case ResumeAction => r.status == RoutingAction && r.IsRunning()
    case CaptureStarted => r.status == Capturing && r.IsRunning()
    case Captured => r.status == Capturing && !r.IsRunning()
    case CompileStarted => r.status == Compiling && r.IsRunning()
    case Compiled => r.status == Compiling && !r.IsRunning()
    case ControlBound => r.status == BindingControl && !r.IsRunning()
    case ProbeStarted => r.status == Probing && r.IsRunning()
    case Probed => r.status == Probing && !r.IsRunning()
    case Evaluated => r.status == Evaluating && !r.IsRunning()
    case Remediated => r.status == Remediating && !r.IsRunning()
    case RepairVerified => r.status == Verifying
    case Routed => r.status == RoutingAction && r.IsRunning()
    case FallbackInline | FallbackAfterPublisher =>
      r.status == RoutingAction && r.IsRunning() && Plan(r, Blocked, Planned)
    case Settled => r.status == RoutingAction && !r.IsRunning()
    case ActionOpened(kind) =>
      && r.status == RoutingAction && !r.IsRunning()
      && (kind == PullRequest ==> Plan(r, Opened, Skipped)) && (kind == Issue ==> Plan(r, Blocked, Opened))
      && kind != Email
    case Completed => r.status == Complete && r.LastIs(Complete, Succeeded)
    case FailedInDispatch | HandlerFailed | CheckpointFailed => r.status in {FailedRetryable, FailedSafe}
  }

  predicate Auditing(at: SavePoint) {
    at in {CaptureStarted, Captured, CompileStarted, Compiled, ControlBound, ProbeStarted, Probed, Evaluated,
           Remediated, RepairVerified}
  }

  predicate Resuming(at: SavePoint) {
    at in {ResumeRestart, ResumeAction}
  }

  /** Save points reached after the outcome of a publication is known. */
  predicate AfterOutcome(at: SavePoint) {
    at in {FailedInDispatch, Completed, CheckpointFailed} || at.ActionOpened?
  }

  /** Nothing has been created by this run, and nothing is recorded as opened. */
  predicate Clean(stored: Run, made: Artifacts) {
    made.Empty() && NothingOpened(stored)
  }

  ghost predicate SavingOk(cfg: Config, w: Worker, at: SavePoint, stored: Run, made: Artifacts) {
    && !w.invalid
    && RunOk(cfg, w.run) && Shape(cfg, at, w.run)
    && Committed(cfg, w.run, made) && OpenedKept(stored, w.run)
    && Attempts(stored.events) <= Attempts(w.run.events)
    && (Auditing(at) ==> w.mode == InExecute)
    && (Auditing(at) || at in {ResumeRestart, HandlerFailed} || (w.mode == InExecute && !AfterOutcome(at)) ==>
          Clean(stored, made) && NothingOpened(w.run))
    && (at == Remediated && w.artifact.Some? ==> Approved(w.artifact.value))
    && if Resuming(at) then
         && w.mode == Direct && stored.status != Complete && stored.status != FailedSafe
         && (stored.status == FailedRetryable ==> Attempts(w.run.events) == Attempts(stored.events) + 1)
       else !Terminal(stored.status)
  }

  predicate Dispatching(cfg: Config, r: Run, kind: ActionKind) {
    && r.status == RoutingAction && r.IsRunning() && CanDispatch(cfg, r)
    && match kind
       case PullRequest => Plan(r, Ready, Skipped) && r.candidate.Some?
       case Issue => Plan(r, Blocked, Planned)
       case Email => false
  }

  ghost predicate CallingOk(cfg: Config, w: Worker, call: Call, stored: Run, made: Artifacts) {
    && !w.invalid
    && !Terminal(stored.status)
    && Attempts(stored.events) <= Attempts(w.run.events)
    && match call
       case AcquireAction(kind) =>
         w.run == stored && Dispatching(cfg, stored, kind) && (w.mode == InExecute ==> Clean(stored, made))
       case Publish(kind) =>
         w.run == stored && Dispatching(cfg, stored, kind) && (w.mode == InExecute ==> Clean(stored, made))
       case Verify(artifact) =>
         && w.mode == InExecute && Clean(stored, made) && Approved(artifact)
         && EventsOk(w.run) && VerdictOk(w.run)
         && w.run.status == Verifying && w.run.IsRunning() && w.run.verdict == Contradicted && w.run.actions == []
       case _ =>
         && w.mode == InExecute && Clean(stored, made)
         && RunOk(cfg, w.run) && w.run.IsRunning()
         && (w.artifact.Some? && call == Prepare ==> Approved(w.artifact.value))
         && w.run.status ==
              match call {
                case Capture => Capturing
                case Compile => Compiling
                case Probe => Probing
                case _ => Remediating
              }
  }

  ghost predicate ActiveOk(cfg: Config, w: Worker, stored: Run, made: Artifacts) {
    match w.pc
    case Saving(at) => SavingOk(cfg, w, at, stored, made)
    case Calling(call) => CallingOk(cfg, w, call, stored, made)
    case _ => true
  }
}
