/** How a run fails: which errors leave it retryable, and what it then says about side effects. */
module ServiceFailures {
  import opened Wrappers
  import opened Actions
  import opened AuditRuns
  import opened Candidates
  import opened Verification
  import opened Service
  import opened ServiceInvariants
  import opened ServiceSteps
  import Source
  import ServiceProtocol
  import ServiceRuns

  /** The errors that a later delivery may get past: a lost connection or a transient compiler error of the audit, an
      uncertain publication, and a checkpoint lost after a confirmed publication or at the very end. */
  predicate Transient(w: Worker, reply: Reply) {
    match w.pc
    case Saving(at) => (at.ActionOpened? || at.Completed?) && !reply.Saved?
    case Calling(Publish(_)) => reply.PublishUncertain? || (reply.NetworkError? && w.mode == InExecute)
    case Calling(Compile) => reply.NetworkError? || reply == CompileFailed(true)
    case Calling(Capture) => reply.NetworkError?
    case Calling(Probe) => reply.NetworkError?
    case _ => false
  }

  /** What the failed run says last. */
  function Told(w: Worker, reply: Reply, status: Status): Limitation {
    match w.pc
    case Saving(ActionOpened(kind)) => ConfirmedButNotCheckpointed(kind)
    case Saving(Completed) => FinalCheckpointPending(ActionIs(w.run, 0, Opened) || ActionIs(w.run, 1, Opened))
    case _ =>
      if reply.PublishUncertain? then OutcomeUncertain(status == FailedRetryable)
      else NoSideEffects(status == FailedRetryable)
  }

  predicate Failing(s: Status) {
    s in {FailedRetryable, FailedSafe}
  }

  /** The run goes on, and says nothing new about side effects. */
  predicate GoesOn(w: Worker, w': Worker) {
    w'.run.limitations == w.run.limitations && (Failing(w'.run.status) ==> w'.run.status == w.run.status)
  }

  /** The run is marked failed, with the attempt budget applied to a transient error. */
  predicate FailsAs(w: Worker, w': Worker, transient: bool, told: Limitation) {
    && w'.run.limitations == w.run.limitations + [told]
    && w'.run.status ==
         if transient && Attempts(w.run.events) < MAX_RUN_ATTEMPTS then FailedRetryable else FailedSafe
  }

  predicate TransientException(e: Exception) {
    e == Network || e == CompileError(true)
  }

  lemma HandleFails(w: Worker, e: Exception)
    requires EventsOk(w.run) && !Terminal(w.run.status)
    ensures FailsAs(w, Handle(w, e), TransientException(e), NoSideEffects(Handle(w, e).run.status == FailedRetryable))
  {
    PlanIsOk(Inconclusive, w.run.verification);
    hide PlanActions;
  }

  lemma WrapFails(w: Worker, known: Limitation)
    requires EventsOk(w.run) && !Terminal(w.run.status)
    ensures FailsAs(w, Wrap(w, known), true, known)
  {
  }

  lemma DispatchFails(w: Worker, uncertain: bool)
    requires EventsOk(w.run) && !Terminal(w.run.status)
    ensures var retryable := FailInDispatch(w, FailRetryable(w.run, uncertain));
            FailsAs(w, retryable, true, if uncertain then OutcomeUncertain(retryable.run.status == FailedRetryable)
                                        else NoSideEffects(retryable.run.status == FailedRetryable))
    ensures FailsAs(w, FailInDispatch(w, FailRun(w.run, FailedSafe, false, false)), false, NoSideEffects(false))
  {
  }

  lemma InvalidStays(w: Worker)
    ensures RaiseInvalid(w).invalid
  {
    hide FailedBy, PlanActions;
  }

  // ----- What goes on.

  lemma BeginsOn(w: Worker, status: Status, next: Pc)
    requires !Begin(w, status, next).invalid && !Failing(status)
    ensures GoesOn(w, Begin(w, status, next))
  {
    InvalidStays(w);
    hide RaiseInvalid;
  }

  lemma EndsOn(w: Worker, next: Pc)
    requires !End(w, next).invalid
    ensures GoesOn(w, End(w, next))
  {
    InvalidStays(w);
    hide RaiseInvalid;
  }

  lemma RoutesOn(w: Worker)
    requires !RouteStart(w).invalid
    ensures GoesOn(w, RouteStart(w))
  {
    InvalidStays(w);
    PlanIsOk(w.run.verdict, w.run.verification);
    hide RaiseInvalid, PlanActions;
  }

  lemma BindsOn(w: Worker)
    requires !BindStart(w).invalid
    ensures GoesOn(w, BindStart(w))
  {
    InvalidStays(w);
    match StartStage(w.run, BindingControl) {
      case Err(_) =>
      case Ok(r) =>
        InvalidStays(w.(run := r));
        var abstained := FinishStage(r.(verdict := NotTested));
        if CanBind(r.claim) {
          EndsOn(w.(run := r.(claim := r.claim.(controlId := Some(CONTROL_ID)))), Saving(ControlBound));
        } else if abstained.Ok? {
          RoutesOn(w.(run := abstained.value));
        }
    }
    hide RaiseInvalid, RouteStart, End, CanBind;
  }

  lemma EvaluatesOn(cfg: Config, w: Worker)
    ensures !EvaluateStart(w).invalid ==> GoesOn(w, EvaluateStart(w))
    ensures !AfterEvaluated(cfg, w).invalid ==> GoesOn(w, AfterEvaluated(cfg, w))
    ensures !VerifyStart(cfg, w).invalid ==> GoesOn(w, VerifyStart(cfg, w))
  {
    InvalidStays(w);
    if !RouteStart(w).invalid {
      RoutesOn(w);
    }
    forall x: Worker, next | !End(x, next).invalid ensures GoesOn(x, End(x, next)) {
      EndsOn(x, next);
    }
    hide RaiseInvalid, RouteStart, End, CalculateVerdict;
  }

  lemma CompletesOn(w: Worker)
    requires !CompleteStart(w).invalid
    ensures GoesOn(w, CompleteStart(w))
  {
    InvalidStays(w);
    forall x: Worker, next | !End(x, next).invalid ensures GoesOn(x, End(x, next)) {
      EndsOn(x, next);
    }
    hide RaiseInvalid, End;
  }

  lemma DispatchesOn(cfg: Config, w: Worker)
    ensures !Dispatch(cfg, w).invalid ==> GoesOn(w, Dispatch(cfg, w))
    ensures !IssuePart(cfg, w).invalid ==> GoesOn(w, IssuePart(cfg, w))
  {
    if !CompleteStart(w).invalid {
      CompletesOn(w);
    }
    if !End(w, Saving(Settled)).invalid {
      EndsOn(w, Saving(Settled));
    }
    hide CompleteStart, End;
  }

  lemma SavedGoesOn(cfg: Config, w: Worker, at: SavePoint)
    requires !w.invalid && !AfterSave(cfg, w, at).invalid
    ensures GoesOn(w, AfterSave(cfg, w, at))
  {
    hide Begin, BindStart, EvaluateStart, AfterEvaluated, VerifyStart, RouteStart, Dispatch, IssuePart, CompleteStart;
    match at
    case ResumeRestart => BeginsOn(w.(mode := InExecute), Capturing, Saving(CaptureStarted));
    case Captured => BeginsOn(w, Compiling, Saving(CompileStarted));
    case Compiled => BindsOn(w);
    case ControlBound => BeginsOn(w, Probing, Saving(ProbeStarted));
    case Probed => EvaluatesOn(cfg, w);
    case Evaluated => EvaluatesOn(cfg, w);
    case Remediated => EvaluatesOn(cfg, w);
    case RepairVerified => RoutesOn(w);
    case Settled => CompletesOn(w);
    case ActionOpened(_) => CompletesOn(w);
    case _ => DispatchesOn(cfg, w);
  }

  // ----- What fails.

  /** What an await may make of the run. */
  ghost predicate EndsSo(w: Worker, reply: Reply, w': Worker) {
    if Transient(w, reply) || Fatal(w, reply) then FailsAs(w, w', Transient(w, reply), Told(w, reply, w'.run.status))
    else GoesOn(w, w')
  }

  /** Inside `_execute` an exception of a call fails the run, without side effects. */
  lemma RaisedSo(w: Worker, reply: Reply, e: Exception)
    requires w.pc.Calling? && w.mode == InExecute && EventsOk(w.run) && !Terminal(w.run.status)
    requires !e.ExternalCheckpoint? && !e.CompletionCheckpoint? && !reply.PublishUncertain?
    requires Transient(w, reply) || Fatal(w, reply)
    requires Transient(w, reply) <==> TransientException(e)
    ensures EndsSo(w, reply, Raise(w, e))
  {
    HandleFails(w, e);
    hide Handle, Transient, Fatal;
  }

  /** What the invariant of a working worker says here. */
  lemma WorkingRun(cfg: Config, w: Worker, base: Run, made: Artifacts)
    requires ActiveOk(cfg, w, base, made) && RunOk(cfg, base) && (w.pc.Saving? || w.pc.Calling?)
    ensures !w.invalid && EventsOk(w.run)
    ensures w.pc.Calling? ==> !Terminal(w.run.status)
    ensures w.pc.Saving? && Handleable(w.pc.at) ==> !Terminal(w.run.status)
    ensures w.pc.Saving? && w.pc.at.ActionOpened? ==> w.run.status == RoutingAction
    ensures w.pc == Saving(Completed) ==> w.run.status == Complete
    ensures w.pc.Calling? && w.pc.call.Publish? ==>
              |w.run.actions| == 3 && w.pc.call.kind in {PullRequest, Issue} && w.run.IsRunning()
    ensures w.pc.Calling? && !w.pc.call.Publish? && !w.pc.call.AcquireAction? ==> w.mode == InExecute
    ensures w.pc.Calling? && w.pc.call.AcquireAction? ==> |w.run.actions| == 3
  {
    hide Committed, OpenedKept, ActionsOk, VerdictOk, StatusOk;
  }

  /** A failed save of a worker outside `_execute` leaves the run as it is. */
  predicate Unsaved(w: Worker, reply: Reply) {
    w.pc.Saving? && !reply.Saved?
  }

  /** Inside `_execute` these errors are not transient, and fail the run for good. */
  ghost predicate Fatal(w: Worker, reply: Reply) {
    match w.pc
    case Saving(at) => !reply.Saved? && Handleable(at) && w.mode == InExecute
    case Calling(Publish(_)) => reply.PublishRefused? || (reply.OtherError? && w.mode == InExecute)
    case Calling(AcquireAction(_)) => reply.OtherError? && w.mode == InExecute
    case Calling(Compile) => reply.OtherError? || reply == CompileFailed(false) || Unquoted(w, reply)
    case Calling(Capture) => reply.OtherError?
    case Calling(Probe) => reply.OtherError?
    case _ => false
  }

  /** The compiler's quote is not in the captured page, or there is none. */
  ghost predicate Unquoted(w: Worker, reply: Reply) {
    reply.CompileOk? && (w.page.None? || !Source.Grounded(reply.payload.exactQuote, Source.Captured(w.page.value)))
  }

  lemma CompletionLost(w: Worker)
    requires EventsOk(w.run)
    ensures FailsAs(w, SaveFailed(w, Completed), true, FinalCheckpointPending(AnyOpened(w.run)))
  {
    var routed := w.run.(status := RoutingAction);
    LastSet(routed, Failed);
    CompletionWraps(w, routed);
    CompletionWraps(w, routed.SetLast(Failed));
    hide Wrap, AnyOpened;
  }

  lemma CompletionLostSo(cfg: Config, w: Worker, reply: Reply, base: Run, made: Artifacts)
    requires ActiveOk(cfg, w, base, made) && w.pc == Saving(Completed) && EventsOk(w.run) && !reply.Saved?
    ensures EndsSo(w, reply, SaveFailed(w, Completed))
  {
    OpenedShown(cfg, w, base, made);
    CompletionLost(w);
    hide ActiveOk, SaveFailed, AnyOpened, FailsAs;
  }

  lemma OpenedLostSo(w: Worker, kind: ActionKind, reply: Reply)
    requires w.pc == Saving(ActionOpened(kind)) && EventsOk(w.run) && !Terminal(w.run.status) && !reply.Saved?
    ensures EndsSo(w, reply, SaveFailed(w, w.pc.at))
  {
    WrapFails(w, ConfirmedButNotCheckpointed(kind));
    hide Wrap, FailsAs;
  }

  lemma OtherSaveLost(w: Worker, at: SavePoint)
    requires EventsOk(w.run) && !Terminal(w.run.status) && Handleable(at)
    ensures if w.mode == InExecute then FailsAs(w, SaveFailed(w, at), false, NoSideEffects(false))
            else GoesOn(w, SaveFailed(w, at))
  {
    HandleFails(w, Unexpected);
    hide Handle;
  }

  lemma OtherSaveLostSo(w: Worker, reply: Reply)
    requires w.pc.Saving? && Fits(w.pc, reply) && !reply.Saved? && Handleable(w.pc.at)
    requires EventsOk(w.run) && !Terminal(w.run.status)
    ensures EndsSo(w, reply, SaveFailed(w, w.pc.at))
  {
    OtherSaveLost(w, w.pc.at);
    hide SaveFailed;
  }

  lemma SaveFails(cfg: Config, w: Worker, reply: Reply, base: Run, made: Artifacts)
    requires ActiveOk(cfg, w, base, made) && RunOk(cfg, base) && w.pc.Saving? && Fits(w.pc, reply) && !reply.Saved?
    requires !SaveFailed(w, w.pc.at).invalid
    ensures EndsSo(w, reply, SaveFailed(w, w.pc.at))
  {
    WorkingRun(cfg, w, base, made);
    hide ActiveOk, RunOk, SaveFailed, GoesOn, FailsAs;
    match w.pc.at
    case Completed => CompletionLostSo(cfg, w, reply, base, made);
    case ActionOpened(kind) => OpenedLostSo(w, kind, reply);
    case _ =>
      if Handleable(w.pc.at) {
        OtherSaveLostSo(w, reply);
      } else {
        NothingLost(cfg, w, base, made);
      }
  }

  lemma NothingLost(cfg: Config, w: Worker, base: Run, made: Artifacts)
    requires ActiveOk(cfg, w, base, made) && w.pc.Saving? && !Handleable(w.pc.at)
    requires !w.pc.at.ActionOpened? && !w.pc.at.Completed? && !SaveFailed(w, w.pc.at).invalid
    ensures GoesOn(w, SaveFailed(w, w.pc.at))
  {
    if w.pc.at == FailedInDispatch {
      assert Terminal(w.run.status);
      FailsAgainOrLeaves(w);
    }
    hide ActiveOk, Raise;
  }

  lemma OpenedShown(cfg: Config, w: Worker, base: Run, made: Artifacts)
    requires ActiveOk(cfg, w, base, made) && w.pc == Saving(Completed)
    ensures AnyOpened(w.run) <==> ActionIs(w.run, 0, Opened) || ActionIs(w.run, 1, Opened)
  {
    assert ActionsOk(w.run) && w.run.actions != [];
    assert Ordered(w.run.actions) && !ActionIs(w.run, 2, Opened);
    assert ActionIs(w.run, 0, Opened) ==> w.run.actions[0].url.Some?;
    assert ActionIs(w.run, 1, Opened) ==> w.run.actions[1].url.Some?;
  }

  lemma FailsAgainOrLeaves(w: Worker)
    requires w.pc == Saving(FailedInDispatch) && !w.invalid
    ensures var w' := SaveFailed(w, FailedInDispatch); GoesOn(w, w') || w'.invalid || !Terminal(w.run.status)
  {
    if Terminal(w.run.status) {
      FailsAgain(w);
    }
  }

  lemma CompletionWraps(w: Worker, restored: Run)
    requires EventsOk(restored) && restored.status == RoutingAction && restored.actions == w.run.actions
    requires restored.limitations == w.run.limitations && Attempts(restored.events) == Attempts(w.run.events)
    ensures AnyOpened(restored) == AnyOpened(w.run)
    ensures FailsAs(
      w, Wrap(w.(run := restored), FinalCheckpointPending(AnyOpened(restored))), true,
      FinalCheckpointPending(AnyOpened(w.run)))
  {
    WrapFails(w.(run := restored), FinalCheckpointPending(AnyOpened(restored)));
  }

  /** A stage of a call ends well. */
  lemma EndedSo(w: Worker, reply: Reply, x: Worker, next: Pc)
    requires w.pc.Calling? && !Transient(w, reply) && !Fatal(w, reply)
    requires x.run.limitations == w.run.limitations && x.run.status == w.run.status && !End(x, next).invalid
    ensures EndsSo(w, reply, End(x, next))
  {
    EndsOn(x, next);
    hide End;
  }

  lemma CompileFailsSo(w: Worker, reply: Reply)
    requires w.pc == Calling(Compile) && Fits(w.pc, reply) && EventsOk(w.run) && !Terminal(w.run.status)
    requires w.mode == InExecute && !reply.CompileOk?
    ensures EndsSo(w, reply, AfterCall(Config(false, false), w, Compile, reply))
  {
    var e :=
      if reply.CompileFailed? then CompileError(reply.retryable)
      else if reply.NetworkError? then Network else Unexpected;
    RaisedSo(w, reply, e);
    hide Raise, EndsSo, Source.Grounded, Source.Captured;
  }

  lemma CompileEndsSo(w: Worker, payload: Payload)
    requires w.pc == Calling(Compile) && EventsOk(w.run) && !Terminal(w.run.status)
    requires w.mode == InExecute && !AfterCompile(w, payload).invalid
    ensures EndsSo(w, CompileOk(payload), AfterCompile(w, payload))
  {
    hide Raise, End, EndsSo, Source.Grounded, Source.Captured, FailsAs;
    if w.page.None? {
      RaisedSo(w, CompileOk(payload), Unexpected);
    } else {
      var compiled := w.(run := w.run.(claim := ClaimFrom(w.page.value, payload)));
      if Unquoted(w, CompileOk(payload)) {
        UnquotedSo(w, compiled, CompileOk(payload));
      } else {
        EndedSo(w, CompileOk(payload), compiled, Saving(Compiled));
      }
    }
  }

  lemma UnquotedSo(w: Worker, compiled: Worker, reply: Reply)
    requires w.pc == Calling(Compile) && EventsOk(w.run) && !Terminal(w.run.status) && w.mode == InExecute
    requires Unquoted(w, reply) && compiled == w.(run := w.run.(claim := compiled.run.claim))
    ensures EndsSo(w, reply, Raise(compiled, CompileError(false)))
  {
    HandleFails(compiled, CompileError(false));
    hide Handle, Unquoted;
  }

  lemma AuditEndsSo(cfg: Config, w: Worker, reply: Reply)
    requires w.pc.Calling? && w.pc.call in {Capture, Probe, Prepare} && Fits(w.pc, reply)
    requires EventsOk(w.run) && !Terminal(w.run.status)
    requires w.mode == InExecute && !AfterCall(cfg, w, w.pc.call, reply).invalid
    ensures EndsSo(w, reply, AfterCall(cfg, w, w.pc.call, reply))
  {
    hide End, Raise, EndsSo;
    match reply
    case NetworkError => RaisedSo(w, reply, Network);
    case CaptureOk(page) => EndedSo(w, reply, w.(page := Some(page)), Saving(Captured));
    case ProbeOk(evidence) => EndedSo(w, reply, w.(run := w.run.(evidence := evidence)), Saving(Probed));
    case PrepareOk(artifact) => EndedSo(w, reply, w.(artifact := Some(artifact)), Saving(Remediated));
    case PrepareFailed => EndedSo(w, reply, w, Saving(Remediated));
    case _ => RaisedSo(w, reply, Unexpected);
  }

  lemma VerifyEndsSo(w: Worker, artifact: Artifact, reply: Reply)
    requires w.pc == Calling(Verify(artifact)) && !AfterVerify(w, artifact, reply).invalid
    ensures EndsSo(w, reply, AfterVerify(w, artifact, reply))
  {
    forall o ensures RecordOutcome(w.run, o)
                     == w.run.(verification := RecordOutcome(w.run, o).verification,
                               candidate := RecordOutcome(w.run, o).candidate) {
      ServiceSteps.Recorded(w.run, o);
    }
    forall x: Worker, next | !End(x, next).invalid ensures GoesOn(x, End(x, next)) {
      EndsOn(x, next);
    }
    hide End, RecordOutcome, Interpret;
  }

  lemma LeaseEndsSo(cfg: Config, w: Worker, reply: Reply)
    requires w.pc.Calling? && w.pc.call.AcquireAction? && Fits(w.pc, reply)
    requires EventsOk(w.run) && !Terminal(w.run.status) && |w.run.actions| == 3
    ensures EndsSo(w, reply, AfterCall(cfg, w, w.pc.call, reply))
  {
    if reply.OtherError? && w.mode == InExecute {
      RaisedSo(w, reply, Unexpected);
      hide Raise, EndsSo;
    } else {
      hide Handle;
    }
  }

  lemma PublicationEndsSo(w: Worker, kind: ActionKind, reply: Reply)
    requires w.pc == Calling(Publish(kind)) && Fits(w.pc, reply) && kind in {PullRequest, Issue}
    requires EventsOk(w.run) && !Terminal(w.run.status) && |w.run.actions| == 3 && w.run.IsRunning()
    ensures EndsSo(w, reply, AfterPublish(w, kind, reply))
  {
    if w.mode == InExecute && (reply.NetworkError? || reply.OtherError?) {
      RaisedSo(w, reply, if reply.NetworkError? then Network else Unexpected);
      hide Raise, EndsSo;
    } else if reply.PublishUncertain? || reply.PublishRefused? {
      DispatchFails(w, true);
      hide FailInDispatch, FailRetryable, FailRun;
    } else {
      AnsweredSo(w, kind, reply);
    }
  }

  lemma AnsweredSo(w: Worker, kind: ActionKind, reply: Reply)
    requires w.pc == Calling(Publish(kind)) && Fits(w.pc, reply) && kind in {PullRequest, Issue}
    requires |w.run.actions| == 3 && w.run.IsRunning()
    requires !reply.PublishUncertain? && !reply.PublishRefused?
    requires w.mode == InExecute ==> !reply.NetworkError? && !reply.OtherError?
    ensures EndsSo(w, reply, AfterPublish(w, kind, reply))
  {
    hide Handle;
  }

  lemma CallEndsSo(cfg: Config, w: Worker, reply: Reply, base: Run, made: Artifacts)
    requires ActiveOk(cfg, w, base, made) && RunOk(cfg, base) && w.pc.Calling? && Fits(w.pc, reply)
    requires !AfterCall(cfg, w, w.pc.call, reply).invalid
    ensures EndsSo(w, reply, AfterCall(cfg, w, w.pc.call, reply))
  {
    WorkingRun(cfg, w, base, made);
    hide ActiveOk, RunOk, AfterCompile, AfterVerify, AfterPublish, End, Raise, AfterAcquire, EndsSo;
    match w.pc.call
    case Compile =>
      if reply.CompileOk? {
        CompileEndsSo(w, reply.payload);
      } else {
        CompileFailsSo(w, reply);
      }
    case Verify(artifact) => VerifyEndsSo(w, artifact, reply);
    case AcquireAction(_) => LeaseEndsSo(cfg, w, reply);
    case Publish(kind) => PublicationEndsSo(w, kind, reply);
    case _ => AuditEndsSo(cfg, w, reply);
  }

  /** One await, whatever it is: a transient error leaves the run retryable while attempts are left, and fails it safely
      afterwards; a fatal one fails it safely at once; nothing else fails a run. Each failure says exactly what is known
      about side effects, and nothing else is ever said. */
  lemma FailsExactly(cfg: Config, w: Worker, reply: Reply, base: Run, made: Artifacts)
    requires ActiveOk(cfg, w, base, made) && RunOk(cfg, base) && (w.pc.Saving? || w.pc.Calling?) && Fits(w.pc, reply)
    requires !Step(cfg, w, reply).invalid
    ensures EndsSo(w, reply, Step(cfg, w, reply))
  {
    if w.pc.Saving? {
      if reply.Saved? {
        WorkingRun(cfg, w, base, made);
        SavedGoesOn(cfg, w, w.pc.at);
      } else {
        SaveFails(cfg, w, reply, base, made);
      }
    } else {
      CallEndsSo(cfg, w, reply, base, made);
    }
    hide ActiveOk, RunOk, AfterSave, SaveFailed, AfterCall;
  }

  /** In every history: so it goes with every await of every worker, but for the save that fails a second time. */
  lemma EveryFailureIsTold(cfg: Config, key: string, actions: seq<ServiceProtocol.Action>, w: nat, reply: Reply,
                           made: Artifacts)
    requires ServiceProtocol.Happens(cfg, ServiceProtocol.Start(key), actions)
    requires var s := ServiceProtocol.After(cfg, ServiceProtocol.Start(key), actions);
             ServiceProtocol.Enabled(s, ServiceProtocol.Advance(w, reply, made)) && !FailsTwice(s.workers[w], reply)
    ensures var s := ServiceProtocol.After(cfg, ServiceProtocol.Start(key), actions);
            EndsSo(s.workers[w], reply, Step(cfg, s.workers[w], reply))
  {
    ServiceRuns.FromStart(cfg, key, actions);
    var s := ServiceProtocol.After(cfg, ServiceProtocol.Start(key), actions);
    hide ServiceProtocol.Happens, ServiceProtocol.After, EndsSo, Step, Fits, FailsTwice;
    WorkerFailsSo(cfg, key, s.workers[w], reply, s.made);
  }

  lemma WorkerFailsSo(cfg: Config, key: string, w: Worker, reply: Reply, world: Artifacts)
    requires ServiceRuns.WorkerOk(cfg, key, w, world) && Fits(w.pc, reply) && !FailsTwice(w, reply)
    ensures EndsSo(w, reply, Step(cfg, w, reply))
  {
    var base, own :| ServiceRuns.Within(own, world) && ServiceRuns.Backed(cfg, w, base, own);
    var after := ServiceRuns.BackedSteps(cfg, w, reply, base, own);
    FailsExactly(cfg, w, reply, base, own);
  }
}
