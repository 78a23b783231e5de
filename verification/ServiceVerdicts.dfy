/** What a persisted verdict means: over every history, it is the verdict on the recorded observations of a claim that
    the control covers, or an explicit abstention. */
module ServiceVerdicts {
  import opened Wrappers
  import opened Actions
  import opened AuditRuns
  import opened Candidates
  import opened Verification
  import opened Service
  import opened ServiceInvariants
  import opened ServiceSteps
  import opened ServiceProofs
  import opened ServiceProtocol
  import opened ServiceRuns
  import Source

  /** The control covers the claim, and was bound to it. */
  predicate Covered(r: Run) {
    CanBind(r.claim) && r.claim.controlId == Some(CONTROL_ID)
  }

  predicate Audited(r: Run) {
    Covered(r) && r.verdict == CalculateVerdict(r.evidence)
  }

  predicate Untested(r: Run) {
    !CanBind(r.claim) && r.claim.controlId.None? && r.verdict == NotTested && r.evidence == []
  }

  /** What the verdict, the claim and the observations of a run say, by its status. */
  predicate Judged(r: Run) {
    match r.status
    case Received | Capturing => r.evidence == []
    case Compiling => r.evidence == [] && (!r.IsRunning() ==> r.claim.controlId.None?)
    case BindingControl | Probing => Covered(r)
    case Evaluating | Remediating | Verifying => Audited(r)
    case RoutingAction | Complete => Audited(r) || Untested(r)
    case FailedRetryable | FailedSafe => r.verdict == Inconclusive || Audited(r) || Untested(r)
  }

  predicate JudgedWorker(w: Worker) {
    w.pc.Releasing? || w.pc.Done? || Judged(w.run)
  }

  // ----- Exceptions.

  lemma HandleJudged(w: Worker, e: Exception)
    ensures JudgedWorker(Handle(w, e))
  {
    PlanIsOk(Inconclusive, w.run.verification);
    hide PlanActions;
  }

  lemma RaiseJudged(w: Worker, e: Exception)
    requires !e.ExternalCheckpoint? && !e.CompletionCheckpoint?
    ensures JudgedWorker(Raise(w, e))
  {
    HandleJudged(w, e);
    hide Handle;
  }

  lemma InvalidJudged(w: Worker)
    ensures JudgedWorker(RaiseInvalid(w))
  {
    RaiseJudged(w.(invalid := true), Unexpected);
    hide Raise;
  }

  lemma WrapJudged(w: Worker, known: Limitation)
    requires Audited(w.run) || Untested(w.run)
    ensures JudgedWorker(Wrap(w, known))
  {
    hide CanBind, CalculateVerdict;
  }

  // ----- Stages.

  lemma BeginJudged(w: Worker, status: Status, next: Pc)
    requires status == Capturing || status == Compiling ==> w.run.evidence == []
    requires status == Probing ==> Covered(w.run)
    requires status in {Capturing, Compiling, Probing}
    ensures JudgedWorker(Begin(w, status, next))
  {
    InvalidJudged(w);
    hide RaiseInvalid, CanBind;
  }

  lemma EndJudged(w: Worker, next: Pc)
    requires Judged(w.run) && (w.run.status == Compiling ==> w.run.claim.controlId.None?)
    ensures JudgedWorker(End(w, next))
  {
    InvalidJudged(w);
    hide RaiseInvalid, CanBind, CalculateVerdict;
  }

  lemma RouteJudged(w: Worker)
    requires Audited(w.run) || Untested(w.run)
    ensures JudgedWorker(RouteStart(w))
  {
    InvalidJudged(w);
    PlanIsOk(w.run.verdict, w.run.verification);
    hide RaiseInvalid, PlanActions, CanBind, CalculateVerdict;
  }

  lemma BindJudged(w: Worker)
    requires w.run.evidence == [] && w.run.claim.controlId.None?
    ensures JudgedWorker(BindStart(w))
  {
    InvalidJudged(w);
    match StartStage(w.run, BindingControl) {
      case Err(_) =>
      case Ok(r) =>
        InvalidJudged(w.(run := r));
        if CanBind(r.claim) {
          EndJudged(w.(run := r.(claim := r.claim.(controlId := Some(CONTROL_ID)))), Saving(ControlBound));
        } else {
          var abstained := FinishStage(r.(verdict := NotTested));
          if abstained.Ok? {
            RouteJudged(w.(run := abstained.value));
          }
        }
    }
    hide RaiseInvalid, RouteStart, End;
  }

  lemma EvaluateJudged(w: Worker)
    requires Covered(w.run)
    ensures JudgedWorker(EvaluateStart(w))
  {
    InvalidJudged(w);
    match StartStage(w.run, Evaluating) {
      case Err(_) =>
      case Ok(r) => EndJudged(w.(run := r.(verdict := CalculateVerdict(r.evidence))), Saving(Evaluated));
    }
    hide RaiseInvalid, End, CanBind, CalculateVerdict;
  }

  lemma RemediateJudged(cfg: Config, w: Worker)
    requires Audited(w.run)
    ensures JudgedWorker(AfterEvaluated(cfg, w)) && JudgedWorker(VerifyStart(cfg, w))
  {
    InvalidJudged(w);
    RouteJudged(w);
    var remediating, verifying := StartStage(w.run, Remediating), StartStage(w.run, Verifying);
    if remediating.Ok? {
      EndJudged(w.(run := remediating.value, artifact := None), Saving(Remediated));
    }
    if verifying.Ok? {
      EndJudged(w.(run := verifying.value.(verification := Some(UNPROVEN_RECEIPT))), Saving(RepairVerified));
    }
    hide RaiseInvalid, End, RouteStart, CanBind, CalculateVerdict;
  }

  lemma CompleteJudged(w: Worker)
    requires Audited(w.run) || Untested(w.run)
    ensures JudgedWorker(CompleteStart(w))
  {
    InvalidJudged(w);
    var completing := StartStage(w.run, Complete);
    if completing.Ok? {
      EndJudged(w.(run := completing.value), Saving(Completed));
    }
    hide RaiseInvalid, End, CanBind, CalculateVerdict;
  }

  lemma DispatchJudged(cfg: Config, w: Worker)
    requires w.run.status == RoutingAction && (Audited(w.run) || Untested(w.run))
    ensures JudgedWorker(Dispatch(cfg, w)) && JudgedWorker(IssuePart(cfg, w))
  {
    CompleteJudged(w);
    EndJudged(w, Saving(Settled));
    hide CompleteStart, End, CanBind, CalculateVerdict;
  }

  // ----- Awaits.

  /** Where the invariant of a working worker puts its run. */
  predicate Placed(w: Worker) {
    match w.pc
    case Saving(at) =>
      && (at == ResumeRestart ==> w.run.status == Received)
      && (at == Captured ==> w.run.status == Capturing)
      && (at == Compiled ==> w.run.status == Compiling && !w.run.IsRunning())
      && (at == ControlBound ==> w.run.status == BindingControl)
      && (at == Probed ==> w.run.status == Probing)
      && (at == Evaluated ==> w.run.status == Evaluating)
      && (at == Remediated ==> w.run.status == Remediating)
      && (at == RepairVerified ==> w.run.status == Verifying)
      && (at in {ResumeAction, Routed, FallbackInline, FallbackAfterPublisher, Settled} || at.ActionOpened? ==>
            w.run.status == RoutingAction)
      && (at == Completed ==> w.run.status == Complete)
    case Calling(Capture) => w.run.status == Capturing
    case Calling(Compile) => w.run.status == Compiling
    case Calling(Probe) => w.run.status == Probing
    case Calling(Prepare) => w.run.status == Remediating
    case Calling(Verify(_)) => w.run.status == Verifying
    case Calling(_) => w.run.status == RoutingAction
    case _ => true
  }

  lemma WorkerPlaced(cfg: Config, w: Worker, base: Run, made: Artifacts)
    requires ActiveOk(cfg, w, base, made)
    ensures Placed(w)
  {
    hide RunOk, Committed, OpenedKept;
  }

  lemma SavedJudged(cfg: Config, w: Worker, at: SavePoint)
    requires w.pc == Saving(at) && Placed(w) && Judged(w.run)
    ensures JudgedWorker(AfterSave(cfg, w, at))
  {
    hide Begin, BindStart, EvaluateStart, AfterEvaluated, VerifyStart, RouteStart, Dispatch, IssuePart, CompleteStart;
    hide CanBind, CalculateVerdict;
    match at
    case ResumeRestart => BeginJudged(w.(mode := InExecute), Capturing, Saving(CaptureStarted));
    case Captured => BeginJudged(w, Compiling, Saving(CompileStarted));
    case Compiled => BindJudged(w);
    case ControlBound => BeginJudged(w, Probing, Saving(ProbeStarted));
    case Probed => EvaluateJudged(w);
    case Evaluated => RemediateJudged(cfg, w);
    case Remediated => RemediateJudged(cfg, w);
    case RepairVerified => RouteJudged(w);
    case Settled => CompleteJudged(w);
    case ActionOpened(_) => CompleteJudged(w);
    case ResumeAction | Routed | FallbackInline | FallbackAfterPublisher => DispatchJudged(cfg, w);
    case _ =>
  }

  lemma UnsavedJudged(w: Worker, at: SavePoint)
    requires w.pc == Saving(at) && Placed(w) && Judged(w.run)
    ensures JudgedWorker(SaveFailed(w, at))
  {
    RaiseJudged(w, Unexpected);
    if at.ActionOpened? {
      WrapJudged(w, ConfirmedButNotCheckpointed(at.kind));
    } else if at == Completed {
      CompletionJudged(w);
    }
    hide Handle, Wrap, CompleteFailed;
  }

  lemma CompletionJudged(w: Worker)
    requires Audited(w.run) || Untested(w.run)
    ensures JudgedWorker(CompleteFailed(w))
  {
    var routed := w.run.(status := RoutingAction);
    var restored := if routed.events != [] && routed.Last().stage == Complete then routed.SetLast(Failed) else routed;
    WrapJudged(w.(run := restored), FinalCheckpointPending(AnyOpened(restored)));
    hide Wrap, AnyOpened, CanBind, CalculateVerdict;
  }

  lemma CompiledJudged(w: Worker, payload: Payload)
    requires w.pc == Calling(Compile) && Placed(w) && Judged(w.run)
    ensures JudgedWorker(AfterCompile(w, payload))
  {
    RaiseJudged(w, Unexpected);
    if w.page.Some? {
      var compiled := w.(run := w.run.(claim := ClaimFrom(w.page.value, payload)));
      RaiseJudged(compiled, CompileError(false));
      EndJudged(compiled, Saving(Compiled));
    }
    hide Raise, End, Source.Grounded, Source.Captured;
  }

  lemma PublishedJudged(w: Worker, kind: ActionKind, reply: Reply)
    requires w.pc == Calling(Publish(kind)) && Placed(w) && Judged(w.run)
    ensures JudgedWorker(AfterPublish(w, kind, reply))
  {
    RaiseJudged(w, Unexpected);
    RaiseJudged(w, Network);
    InvalidJudged(w);
    if |w.run.actions| == 3 && reply.PublishConfirmed? {
      EndJudged(w.(run := MarkOpened(w.run, kind, reply.url)), Saving(ActionOpened(kind)));
      hide MarkOpened;
    }
    hide Raise, RaiseInvalid, End, Covered, CanBind, CalculateVerdict, FailedDuringDispatch, SelectIssueFallback;
  }

  lemma VerifiedJudged(w: Worker, artifact: Artifact, reply: Reply)
    requires w.pc == Calling(Verify(artifact)) && Placed(w) && Judged(w.run)
    ensures JudgedWorker(AfterVerify(w, artifact, reply))
  {
    hide End, RecordOutcome, Interpret, CanBind, CalculateVerdict;
    match reply
    case VerifyInterpreted(submission, snapshot) =>
      RecordedJudged(w, Interpret(PUBLIC_REPOSITORY_URL, artifact, submission, snapshot));
    case VerifyStopped(decision, code, evidence) => RecordedJudged(w, Stopped(decision, code, evidence));
    case _ => EndJudged(w.(run := w.run.(verification := Some(UNPROVEN_RECEIPT), candidate := None)),
                        Saving(RepairVerified));
  }

  lemma RecordedJudged(w: Worker, o: Outcome)
    requires w.run.status == Verifying && Judged(w.run)
    ensures JudgedWorker(End(w.(run := RecordOutcome(w.run, o)), Saving(RepairVerified)))
  {
    ServiceSteps.Recorded(w.run, o);
    hide End, RecordOutcome, CanBind, CalculateVerdict;
    EndJudged(w.(run := RecordOutcome(w.run, o)), Saving(RepairVerified));
  }

  lemma CalledJudged(cfg: Config, w: Worker, call: Call, reply: Reply)
    requires w.pc == Calling(call) && Placed(w) && Judged(w.run) && Fits(w.pc, reply)
    ensures JudgedWorker(AfterCall(cfg, w, call, reply))
  {
    RaiseJudged(w, Unexpected);
    RaiseJudged(w, Network);
    hide Raise, End, AfterCompile, AfterPublish, AfterVerify, CanBind, CalculateVerdict;
    match call
    case Capture =>
      if reply.CaptureOk? {
        EndJudged(w.(page := Some(reply.page)), Saving(Captured));
      }
    case Compile =>
      if reply.CompileOk? {
        CompiledJudged(w, reply.payload);
      } else if reply.CompileFailed? {
        RaiseJudged(w, CompileError(reply.retryable));
      }
    case Probe =>
      if reply.ProbeOk? {
        EndJudged(w.(run := w.run.(evidence := reply.evidence)), Saving(Probed));
      }
    case Prepare =>
      EndJudged(w, Saving(Remediated));
      if reply.PrepareOk? {
        EndJudged(w.(artifact := Some(reply.artifact)), Saving(Remediated));
      }
    case Verify(artifact) => VerifiedJudged(w, artifact, reply);
    case AcquireAction(_) =>
    case Publish(kind) => PublishedJudged(w, kind, reply);
  }

  lemma StepJudged(cfg: Config, w: Worker, reply: Reply)
    requires Fits(w.pc, reply) && Placed(w) && JudgedWorker(w)
    ensures JudgedWorker(Step(cfg, w, reply))
  {
    if w.pc.Saving? {
      SavedJudged(cfg, w, w.pc.at);
      UnsavedJudged(w, w.pc.at);
    } else {
      CalledJudged(cfg, w, w.pc.call, reply);
    }
    hide AfterSave, SaveFailed, AfterCall, Judged;
  }

  /** A run whose dispatch failed has a selected route, so a verdict of its own. */
  lemma ResumedJudged(cfg: Config, r: Run)
    requires RunOk(cfg, r) && Judged(r) && r.status == FailedRetryable && FailedDuringDispatch(r)
    ensures Audited(r)
  {
    if NothingSelected(r) && r.actions != [] {
      assert forall i :: 0 <= i < |r.actions| ==> r.actions[i].state == Skipped;
    }
    assert r.verdict == Contradicted;
  }

  lemma GrantJudged(cfg: Config, w: Worker)
    requires w.pc.Reserved? && RunOk(cfg, w.run) && Judged(w.run) && (w.pc.created ==> w.run.status == Received)
    requires w.run.status !in {Complete, FailedSafe}
    ensures JudgedWorker(Granted(cfg, w))
  {
    if w.pc.created {
      BeginJudged(w.(mode := InExecute), Capturing, Saving(CaptureStarted));
    } else if w.run.status == FailedRetryable && FailedDuringDispatch(w.run) {
      ResumedJudged(cfg, w.run);
    } else if w.run.status == RoutingAction {
      DispatchJudged(cfg, w.(mode := Direct));
    } else if w.run.status == Verifying {
      RouteJudged(w.(mode := Direct));
    }
    hide RunOk, Begin, Dispatch, RouteStart, CanBind, CalculateVerdict, FailedDuringDispatch;
  }

  // ----- Histories.

  ghost predicate AllJudged(s: World) {
    && (s.stored.Some? ==> Judged(s.stored.value))
    && forall w :: w in s.workers ==> JudgedWorker(s.workers[w])
  }

  lemma WorkerStepJudged(cfg: Config, key: string, w: Worker, reply: Reply, world: Artifacts)
    requires WorkerOk(cfg, key, w, world) && Fits(w.pc, reply) && JudgedWorker(w)
    ensures JudgedWorker(Step(cfg, w, reply)) && (w.pc.Saving? ==> Judged(w.run))
  {
    var base, made :| Within(made, world) && Backed(cfg, w, base, made);
    WorkerPlaced(cfg, w, base, made);
    StepJudged(cfg, w, reply);
    hide Step, Judged, Backed;
  }

  lemma ActionJudged(cfg: Config, s: World, a: Action)
    requires RunsOk(cfg, s) && AllJudged(s) && Enabled(s, a)
    ensures AllJudged(Perform(cfg, s, a))
  {
    hide Step, Granted, ProofOk, Backed, RemoteEffect, LostEffect, RunOk, Judged, Committed;
    match a
    case Reserve(w, repository) => NewJudged(s.key, repository);
    case Acquire(w) => GrantJudged(cfg, s.workers[w]);
    case Advance(w, reply, made) => WorkerStepJudged(cfg, s.key, s.workers[w], reply, s.made);
    case _ =>
  }

  lemma NewJudged(key: string, repository: Option<Repository>)
    ensures Judged(NewRun(key, repository))
  {
  }

  lemma {:induction false} HistoryJudged(cfg: Config, s: World, actions: seq<Action>)
    requires RunsOk(cfg, s) && AllJudged(s) && Happens(cfg, s, actions)
    ensures AllJudged(After(cfg, s, actions))
    decreases actions
  {
    hide RunsOk, AllJudged, Perform, Enabled;
    if actions != [] {
      ActionJudged(cfg, s, actions[0]);
      RunsKept(cfg, s, actions[0]);
      HistoryJudged(cfg, Perform(cfg, s, actions[0]), actions[1..]);
    }
  }

  /** Every run ever persisted, in whatever history: from evaluation on its verdict is the one its recorded
      observations give, for a claim that the control covers and was bound to; or it was not tested at all, because
      the control does not cover the claim; and a failed run has one of these verdicts or abstains. */
  lemma PersistedVerdictsAreExact(cfg: Config, key: string, actions: seq<Action>)
    requires Happens(cfg, Start(key), actions)
    ensures var s := After(cfg, Start(key), actions); s.stored.Some? ==> Judged(s.stored.value)
  {
    HistoryJudged(cfg, Start(key), actions);
  }

  /** So whatever was observed, a completed audit that tested the promise says Contradicted exactly when an observation
      failed, and Supported exactly when there is an observation and all of them passed. */
  lemma CompletedVerdictMeaning(cfg: Config, key: string, actions: seq<Action>)
    requires Happens(cfg, Start(key), actions)
    requires After(cfg, Start(key), actions).stored.Some?
    requires After(cfg, Start(key), actions).stored.value.status == Complete
    ensures var r := After(cfg, Start(key), actions).stored.value;
            if r.verdict == NotTested then !CanBind(r.claim) && r.evidence == []
            else
              && CanBind(r.claim)
              && (r.verdict == Contradicted
                  <==> exists i :: 0 <= i < |r.evidence| && r.evidence[i].result == ObservedFail)
              && (r.verdict == Supported
                  <==> r.evidence != [] && forall i :: 0 <= i < |r.evidence| ==> r.evidence[i].result == ObservedPass)
              && (r.verdict != Contradicted && r.verdict != Supported ==> r.verdict == Inconclusive)
  {
    PersistedVerdictsAreExact(cfg, key, actions);
    VerdictMeaning(After(cfg, Start(key), actions).stored.value.evidence);
    hide Happens, After, CalculateVerdict, CanBind;
  }
}
