/** One `create_run` worker (service.py), cut at its awaits: each function below is the code that runs between
    two awaits, applied to the worker's local copy of the run. */
module Service {
  import opened Wrappers
  import opened Actions
  import opened AuditRuns
  import opened Candidates
  import opened Verification
  import Source

  datatype Config = Config(actionsEnabled: bool, verifierConfigured: bool)

  /** Whether an exception passes `_execute`'s handlers or leaves the operation directly. */
  datatype Mode = InExecute | Direct

  datatype SavePoint =
    | ResumeRestart | ResumeAction
    | CaptureStarted | Captured | CompileStarted | Compiled | ControlBound | ProbeStarted | Probed | Evaluated
    | Remediated | RepairVerified | Routed
    | FallbackInline | FallbackAfterPublisher | Settled | ActionOpened(kind: ActionKind) | Completed
    | FailedInDispatch | HandlerFailed | CheckpointFailed

  datatype Call =
    | Capture | Compile | Probe | Prepare | Verify(artifact: Artifact)
    | AcquireAction(kind: ActionKind) | Publish(kind: ActionKind)

  datatype Pc = Reserved(created: bool) | Saving(at: SavePoint) | Calling(call: Call) | Releasing | Done

  /** What the compiler returns of a claim; the source fields come from the captured page. */
  datatype Payload = Payload(exactQuote: string, executable: bool, deadlineHours: Option<nat>, fragmentsPresent: bool)

  /** The worker's local variables: its run, the captured page, and the repair it has prepared. */
  datatype Worker = Worker(
    mode: Mode, pc: Pc, run: Run, artifact: Option<Artifact>, invalid: bool, page: Option<Source.Page>)

  datatype Reply =
    | Saved | NetworkError | OtherError
    | CaptureOk(page: Source.Page)
    | CompileOk(payload: Payload) | CompileFailed(retryable: bool)
    | ProbeOk(evidence: seq<EvidenceItem>)
    | PrepareOk(artifact: Artifact) | PrepareFailed
    | VerifyInterpreted(submission: BuildSubmission, snapshot: BuildSnapshot)
    | VerifyStopped(decision: Decision, code: FailureCode, buildEvidence: Option<Evidence>)
    | LeaseGranted | LeaseBusy
    | PublishConfirmed(url: string) | PublishRejected | PublishUncertain | PublishRefused

  predicate Fits(pc: Pc, reply: Reply) {
    match pc
    case Saving(_) => reply.Saved? || reply.OtherError?
    case Calling(Capture) => reply.CaptureOk? || reply.NetworkError? || reply.OtherError?
    case Calling(Compile) => reply.CompileOk? || reply.CompileFailed? || reply.NetworkError? || reply.OtherError?
    case Calling(Probe) => reply.ProbeOk? || reply.NetworkError? || reply.OtherError?
    case Calling(Prepare) => reply.PrepareFailed? || (reply.PrepareOk? && Approved(reply.artifact))
    case Calling(Verify(_)) => reply.VerifyInterpreted? || reply.VerifyStopped? || reply.OtherError?
    case Calling(AcquireAction(_)) => reply.LeaseGranted? || reply.LeaseBusy? || reply.OtherError?
    case Calling(Publish(k)) =>
      || reply.PublishConfirmed? || reply.PublishUncertain? || reply.PublishRefused?
      || reply.NetworkError? || reply.OtherError? || (reply.PublishRejected? && k == PullRequest)
    case _ => false
  }

  // ----- Exceptions.

  datatype Exception =
    | Network | CompileError(retryable: bool) | Unexpected
    | ExternalCheckpoint(kind: ActionKind) | CompletionCheckpoint

  predicate AnyOpened(r: Run) {
    exists i :: 0 <= i < |r.actions| && r.actions[i].state == Opened && r.actions[i].url.Some?
  }

  /** The two handlers of `_run_with_execution_lease`: fail the run, then restate what is known. */
  function Wrap(w: Worker, known: Limitation): Worker {
    match FailRetryable(w.run, true)
    case Err(_) => w.(pc := Releasing, invalid := true)
    case Ok(r) =>
      w.(run := r.(limitations := r.limitations[|r.limitations| - 1 := known]), pc := Saving(CheckpointFailed))
  }

  function FailedBy(r: Run, e: Exception): Result<Run, Failure> {
    if e == Network || e == CompileError(true) then FailRetryable(r, false) else FailRun(r, FailedSafe, false, false)
  }

  /** The other handlers of `_execute`: abstain, fail the run, plan no action. */
  function Handle(w: Worker, e: Exception): Worker {
    match FailedBy(w.run.(verdict := Inconclusive), e)
    case Err(_) => w.(pc := Releasing, invalid := true)
    case Ok(r) =>
      match PlanActions(r.verdict, r.verification, 1, false)
      case Err(_) => w.(pc := Releasing)
      case Ok(actions) => w.(run := r.(actions := actions), pc := Saving(HandlerFailed))
  }

  function Raise(w: Worker, e: Exception): Worker {
    match e
    case ExternalCheckpoint(kind) => Wrap(w, ConfirmedButNotCheckpointed(kind))
    case CompletionCheckpoint => Wrap(w, FinalCheckpointPending(AnyOpened(w.run)))
    case _ => if w.mode == InExecute then Handle(w, e) else w.(pc := Releasing)
  }

  function RaiseInvalid(w: Worker): Worker {
    Raise(w.(invalid := true), Unexpected)
  }

  // ----- Stages.

  function Begin(w: Worker, status: Status, next: Pc): Worker {
    match StartStage(w.run, status)
    case Err(_) => RaiseInvalid(w)
    case Ok(r) => w.(run := r, pc := next)
  }

  function End(w: Worker, next: Pc): Worker {
    match FinishStage(w.run)
    case Err(_) => RaiseInvalid(w)
    case Ok(r) => w.(run := r, pc := next)
  }

  function ExecuteStart(w: Worker): Worker {
    Begin(w.(mode := InExecute), Capturing, Saving(CaptureStarted))
  }

  function ClaimFrom(page: Source.Page, p: Payload): Claim {
    Claim(p.exactQuote, page.url, page.contentHash, p.executable, p.deadlineHours, p.fragmentsPresent, None)
  }

  ghost function AfterCompile(w: Worker, payload: Payload): Worker {
    match w.page
    case None => Raise(w, Unexpected)
    case Some(page) =>
      var compiled := w.(run := w.run.(claim := ClaimFrom(page, payload)));
      if !Source.Grounded(payload.exactQuote, Source.Captured(page)) then Raise(compiled, CompileError(false))
      else End(compiled, Saving(Compiled))
  }

  /** Match the control; without a match the audit abstains and goes straight to routing. */
  function BindStart(w: Worker): Worker {
    match StartStage(w.run, BindingControl)
    case Err(_) => RaiseInvalid(w)
    case Ok(r) =>
      if CanBind(r.claim) then
        End(w.(run := r.(claim := r.claim.(controlId := Some(CONTROL_ID)))), Saving(ControlBound))
      else
        match FinishStage(r.(verdict := NotTested))
        case Err(_) => RaiseInvalid(w.(run := r))
        case Ok(done) => RouteStart(w.(run := done))
  }

  function EvaluateStart(w: Worker): Worker {
    match StartStage(w.run, Evaluating)
    case Err(_) => RaiseInvalid(w)
    case Ok(r) => End(w.(run := r.(verdict := CalculateVerdict(r.evidence))), Saving(Evaluated))
  }

  function AfterEvaluated(cfg: Config, w: Worker): Worker {
    if w.run.verdict != Contradicted then RouteStart(w)
    else
      match StartStage(w.run, Remediating)
      case Err(_) => RaiseInvalid(w)
      case Ok(r) =>
        if cfg.verifierConfigured && r.repository.Some? then w.(run := r, artifact := None, pc := Calling(Prepare))
        else End(w.(run := r, artifact := None), Saving(Remediated))
  }

  function VerifyStart(cfg: Config, w: Worker): Worker {
    match StartStage(w.run, Verifying)
    case Err(_) => RaiseInvalid(w)
    case Ok(r) =>
      if w.artifact.Some? && cfg.verifierConfigured then w.(run := r, pc := Calling(Verify(w.artifact.value)))
      else End(w.(run := r.(verification := Some(UNPROVEN_RECEIPT))), Saving(RepairVerified))
  }

  /** Record an outcome: its receipt, and the checkpoint only when the outcome is publishable. */
  ghost function RecordOutcome(r: Run, o: Outcome): Run {
    var unavailable := r.(verification := Some(UNPROVEN_RECEIPT), candidate := None);
    match ToReceipt(o)
    case None => unavailable
    case Some(receipt) =>
      if o.Publishable() && o.candidate.Some? then
        match FromVerifiedCandidate(InputOfCandidate(o.candidate.value))
        case None => unavailable
        case Some(checkpoint) => r.(verification := Some(receipt), candidate := Some(checkpoint))
      else r.(verification := Some(receipt), candidate := None)
  }

  ghost function AfterVerify(w: Worker, artifact: Artifact, reply: Reply): Worker {
    var recorded :=
      match reply
      case VerifyInterpreted(submission, snapshot) =>
        RecordOutcome(w.run, Interpret(PUBLIC_REPOSITORY_URL, artifact, submission, snapshot))
      case VerifyStopped(decision, code, evidence) => RecordOutcome(w.run, Stopped(decision, code, evidence))
      case _ => w.run.(verification := Some(UNPROVEN_RECEIPT), candidate := None);
    End(w.(run := recorded), Saving(RepairVerified))
  }

  // ----- Routing and dispatch.

  function RouteStart(w: Worker): Worker {
    match StartStage(w.run, RoutingAction)
    case Err(_) => RaiseInvalid(w)
    case Ok(r) =>
      match PlanActions(r.verdict, r.verification, 1, false)
      case Err(_) => Raise(w.(run := r), Unexpected)
      case Ok(actions) => w.(run := r.(actions := actions), pc := Saving(Routed))
  }

  predicate ActionIs(r: Run, i: nat, state: ActionState) {
    |r.actions| == 3 && i < 3 && r.actions[i].state == state
  }

  /** `_dispatch_and_complete`. */
  function Dispatch(cfg: Config, w: Worker): Worker {
    if w.run.LastIs(RoutingAction, Succeeded) then CompleteStart(w)
    else if exists i :: 0 <= i < 2 && ActionIs(w.run, i, Opened) && w.run.actions[i].url.Some? then
      End(w, Saving(Settled))
    else if ActionIs(w.run, 0, Ready) then
      if cfg.actionsEnabled && w.run.repository.Some? && w.run.candidate.Some? then
        w.(pc := Calling(AcquireAction(PullRequest)))
      else w.(run := SelectIssueFallback(w.run), pc := Saving(FallbackInline))
    else IssuePart(cfg, w)
  }

  function IssuePart(cfg: Config, w: Worker): Worker {
    if ActionIs(w.run, 1, Planned) && cfg.actionsEnabled && w.run.repository.Some? then
      w.(pc := Calling(AcquireAction(Issue)))
    else End(w, Saving(Settled))
  }

  function FallBack(w: Worker): Worker {
    if |w.run.actions| == 3 then w.(run := SelectIssueFallback(w.run), pc := Saving(FallbackAfterPublisher))
    else Raise(w, Unexpected)
  }

  function AfterAcquire(w: Worker, kind: ActionKind): Worker {
    if kind == PullRequest && w.run.candidate.None? then FallBack(w) else w.(pc := Calling(Publish(kind)))
  }

  function MarkOpened(r: Run, kind: ActionKind, url: string): Run
    requires |r.actions| == 3
  {
    if kind == PullRequest then SetPullRequest(r, r.actions[0].(state := Opened, url := Some(url)))
    else SetIssue(r, r.actions[1].(state := Opened, url := Some(url)))
  }

  function AfterPublish(w: Worker, kind: ActionKind, reply: Reply): Worker {
    match reply
    case PublishConfirmed(url) =>
      if |w.run.actions| != 3 then Raise(w, Unexpected)
      else End(w.(run := MarkOpened(w.run, kind, url)), Saving(ActionOpened(kind)))
    case PublishRejected => FallBack(w)
    case PublishUncertain => FailInDispatch(w, FailRetryable(w.run, true))
    case PublishRefused => FailInDispatch(w, FailRun(w.run, FailedSafe, false, false))
    case NetworkError => Raise(w, Network)
    case _ => Raise(w, Unexpected)
  }

  function FailInDispatch(w: Worker, failed: Result<Run, Failure>): Worker {
    match failed
    case Err(_) => RaiseInvalid(w)
    case Ok(r) => w.(run := r, pc := Saving(FailedInDispatch))
  }

  /** `_complete_run` up to its save. */
  function CompleteStart(w: Worker): Worker {
    match StartStage(w.run, Complete)
    case Err(_) => RaiseInvalid(w)
    case Ok(r) => End(w.(run := r), Saving(Completed))
  }

  /** `_complete_run` when its save fails: put the routing status back, then raise. */
  function CompleteFailed(w: Worker): Worker {
    var routed := w.run.(status := RoutingAction);
    var restored := if routed.events != [] && routed.Last().stage == Complete then routed.SetLast(Failed) else routed;
    Raise(w.(run := restored), CompletionCheckpoint)
  }

  // ----- One await completes.

  const CONTROL_ID := "privacy.account_deletion.v1"

  ghost function AfterSave(cfg: Config, w: Worker, at: SavePoint): Worker {
    match at
    case ResumeRestart => ExecuteStart(w)
    case ResumeAction => Dispatch(cfg, w)
    case CaptureStarted => w.(pc := Calling(Capture))
    case Captured => Begin(w, Compiling, Saving(CompileStarted))
    case CompileStarted => w.(pc := Calling(Compile))
    case Compiled => BindStart(w)
    case ControlBound => Begin(w, Probing, Saving(ProbeStarted))
    case ProbeStarted => w.(pc := Calling(Probe))
    case Probed => EvaluateStart(w)
    case Evaluated => AfterEvaluated(cfg, w)
    case Remediated => VerifyStart(cfg, w)
    case RepairVerified => RouteStart(w)
    case Routed => Dispatch(cfg, w)
    case FallbackInline => IssuePart(cfg, w)
    case FallbackAfterPublisher => Dispatch(cfg, w)
    case Settled => CompleteStart(w)
    case ActionOpened(_) => CompleteStart(w)
    case Completed | FailedInDispatch | HandlerFailed | CheckpointFailed => w.(pc := Releasing)
  }

  ghost function SaveFailed(w: Worker, at: SavePoint): Worker {
    match at
    case ResumeRestart | ResumeAction => w.(pc := Done)
    case ActionOpened(kind) => Raise(w, ExternalCheckpoint(kind))
    case Completed => CompleteFailed(w)
    case HandlerFailed | CheckpointFailed => w.(pc := Releasing)
    case _ => Raise(w, Unexpected)
  }

  ghost function AfterCall(cfg: Config, w: Worker, call: Call, reply: Reply): Worker {
    match call
    case Capture =>
      if reply.CaptureOk? then End(w.(page := Some(reply.page)), Saving(Captured))
      else Raise(w, if reply.NetworkError? then Network else Unexpected)
    case Compile =>
      (match reply
       case CompileOk(payload) => AfterCompile(w, payload)
       case CompileFailed(retryable) => Raise(w, CompileError(retryable))
       case NetworkError => Raise(w, Network)
       case _ => Raise(w, Unexpected))
    case Probe =>
      (match reply
       case ProbeOk(evidence) => End(w.(run := w.run.(evidence := evidence)), Saving(Probed))
       case NetworkError => Raise(w, Network)
       case _ => Raise(w, Unexpected))
    case Prepare =>
      if reply.PrepareOk? then End(w.(artifact := Some(reply.artifact)), Saving(Remediated))
      else End(w, Saving(Remediated))
    case Verify(artifact) => AfterVerify(w, artifact, reply)
    case AcquireAction(kind) =>
      if reply.LeaseGranted? then AfterAcquire(w, kind)
      else if reply.LeaseBusy? then w.(pc := Releasing)
      else Raise(w, Unexpected)
    case Publish(kind) => AfterPublish(w, kind, reply)
  }

  ghost function Step(cfg: Config, w: Worker, reply: Reply): Worker
    requires Fits(w.pc, reply)
  {
    match w.pc
    case Saving(at) => if reply.Saved? then AfterSave(cfg, w, at) else SaveFailed(w, at)
    case Calling(call) => AfterCall(cfg, w, call, reply)
  }

  /** What `create_run` does with the reserved run once it holds the execution lease. */
  function Granted(cfg: Config, w: Worker): Worker
    requires w.pc.Reserved?
  {
    var r := w.run;
    if w.pc.created then ExecuteStart(w)
    else if r.status == FailedRetryable then
      if Attempts(r.events) >= MAX_RUN_ATTEMPTS then w.(pc := Releasing)
      else if FailedDuringDispatch(r) then w.(mode := Direct, run := ResumeDispatch(r), pc := Saving(ResumeAction))
      else w.(mode := Direct, run := ResetInterrupted(r), pc := Saving(ResumeRestart))
    else if r.status == RoutingAction then Dispatch(cfg, w.(mode := Direct))
    else if r.status == Verifying && r.verification.Some? then RouteStart(w.(mode := Direct))
    else w.(mode := Direct, run := ResetInterrupted(r), pc := Saving(ResumeRestart))
  }
}
