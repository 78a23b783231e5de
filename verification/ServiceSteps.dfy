/** Every await a lease-holding worker completes keeps the worker's invariant. */
module ServiceSteps {
  import opened Wrappers
  import opened Actions
  import opened AuditRuns
  import opened Candidates
  import opened Verification
  import opened Service
  import opened ServiceInvariants
  import Source

  /** A run that may still fail: its event trail is in order and its status is not terminal. */
  ghost predicate CanFail(r: Run, stored: Run) {
    && EventsOk(r) && !Terminal(r.status) && !Terminal(stored.status)
    && Attempts(stored.events) <= Attempts(r.events)
  }

  lemma FailRunKeeps(r: Run, status: Status, retryable: bool, uncertain: bool)
    requires EventsOk(r) && !Terminal(r.status) && status in {FailedRetryable, FailedSafe}
    ensures var failed := FailRun(r, status, retryable, uncertain);
            && failed.Ok?
            && failed.value == r.(
                 status := failed.value.status, events := failed.value.events, limitations := failed.value.limitations)
            && EventsOk(failed.value) && !failed.value.IsRunning() && failed.value.status == status
            && Attempts(failed.value.events) == Attempts(r.events)
            && failed.value.actions == r.actions && failed.value.verdict == r.verdict
            && failed.value.evidence == r.evidence && failed.value.claim == r.claim
            && failed.value.repository == r.repository
            && failed.value.verification == r.verification && failed.value.candidate == r.candidate
            && (r.IsRunning() ==> failed.value.Last().stage == r.Last().stage)
  {
    if r.IsRunning() {
      LastSet(r, Failed);
    } else {
      Appended(r, status, Failed, StoppedSafely);
    }
  }

  /** The two ways a run is marked failed, with the attempt budget applied. */
  lemma FailRetryableKeeps(r: Run, uncertain: bool)
    requires EventsOk(r) && !Terminal(r.status)
    ensures var failed := FailRetryable(r, uncertain);
            && failed.Ok?
            && failed.value == r.(
                 status := failed.value.status, events := failed.value.events, limitations := failed.value.limitations)
            && EventsOk(failed.value) && !failed.value.IsRunning()
            && failed.value.status == (if Attempts(r.events) >= MAX_RUN_ATTEMPTS then FailedSafe else FailedRetryable)
            && Attempts(failed.value.events) == Attempts(r.events)
            && failed.value.actions == r.actions && failed.value.verdict == r.verdict
            && failed.value.evidence == r.evidence && failed.value.claim == r.claim
            && failed.value.repository == r.repository
            && failed.value.verification == r.verification && failed.value.candidate == r.candidate
            && (r.IsRunning() ==> failed.value.Last().stage == r.Last().stage)
  {
    var exhausted := Attempts(r.events) >= MAX_RUN_ATTEMPTS;
    FailRunKeeps(r, if exhausted then FailedSafe else FailedRetryable, !exhausted, uncertain);
  }

  /** A failed run that abstains and plans nothing is fit to persist. */
  lemma AbstainedRun(cfg: Config, r: Run, receipt: Option<Receipt>)
    requires EventsOk(r) && !r.IsRunning() && r.status in {FailedRetryable, FailedSafe} && r.verdict == Inconclusive
    requires r.status == FailedRetryable ==> Attempts(r.events) < MAX_RUN_ATTEMPTS
    requires r.actions == Propose(Inconclusive, receipt, 1, false)
    ensures RunOk(cfg, r)
  {
    assert Plan(r, Skipped, Skipped);
  }

  lemma FailedByKeeps(r: Run, e: Exception)
    requires EventsOk(r) && !Terminal(r.status)
    ensures var failed := FailedBy(r, e);
            && failed.Ok?
            && EventsOk(failed.value) && !failed.value.IsRunning()
            && failed.value.status in {FailedRetryable, FailedSafe}
            && Attempts(failed.value.events) == Attempts(r.events)
            && (failed.value.status == FailedRetryable ==> Attempts(r.events) < MAX_RUN_ATTEMPTS)
            && failed.value.verdict == r.verdict && failed.value.verification == r.verification
  {
    hide FailRun;
    FailRunKeeps(r, FailedSafe, false, false);
    FailRetryableKeeps(r, false);
  }

  lemma Handled(w: Worker, e: Exception)
    requires EventsOk(w.run) && !Terminal(w.run.status)
    ensures var h := Handle(w, e);
            && h == w.(run := h.run, pc := Saving(HandlerFailed))
            && EventsOk(h.run) && !h.run.IsRunning() && h.run.status in {FailedRetryable, FailedSafe}
            && h.run.verdict == Inconclusive && h.run.actions == Propose(Inconclusive, w.run.verification, 1, false)
            && Attempts(h.run.events) == Attempts(w.run.events)
            && (h.run.status == FailedRetryable ==> Attempts(h.run.events) < MAX_RUN_ATTEMPTS)
  {
    FailedByKeeps(w.run.(verdict := Inconclusive), e);
    PlanIsOk(Inconclusive, w.run.verification);
  }

  /** The service always plans with one contradiction and email disabled. */
  lemma PlanIsOk(verdict: Verdict, receipt: Option<Receipt>)
    ensures PlanActions(verdict, receipt, 1, false) == Ok(Propose(verdict, receipt, 1, false))
  {
    PlanIsSafe(verdict, receipt, 1, false);
  }

  lemma HandleKeeps(cfg: Config, w: Worker, e: Exception, stored: Run, made: Artifacts)
    requires w.mode == InExecute && !w.invalid && CanFail(w.run, stored) && Clean(stored, made)
    ensures ActiveOk(cfg, Handle(w, e), stored, made) && !Handle(w, e).invalid
    ensures Handle(w, e).pc == Saving(HandlerFailed)
  {
    Handled(w, e);
    AbstainedRun(cfg, Handle(w, e).run, w.run.verification);
  }

  /** Outside the publication outcomes an exception ends in a persisted abstention or in nothing. */
  lemma RaiseKeeps(cfg: Config, w: Worker, e: Exception, stored: Run, made: Artifacts)
    requires !w.invalid && CanFail(w.run, stored) && !e.ExternalCheckpoint? && !e.CompletionCheckpoint?
    requires w.mode == InExecute ==> Clean(stored, made)
    ensures ActiveOk(cfg, Raise(w, e), stored, made) && !Raise(w, e).invalid
  {
    if w.mode == InExecute {
      HandleKeeps(cfg, w, e, stored, made);
    }
  }

  /** A checkpoint failure is recorded without losing the confirmed receipt. */
  lemma WrapKeeps(cfg: Config, w: Worker, known: Limitation, stored: Run, made: Artifacts)
    requires !w.invalid && CanFail(w.run, stored) && VerdictOk(w.run) && w.run.verdict != PendingVerdict
    requires w.run.actions != [] && ActionsOk(w.run) && OpenedKept(stored, w.run)
    requires Committed(cfg, w.run, made)
    requires made.Empty() || Plan(w.run, Opened, Skipped) || Plan(w.run, Blocked, Opened)
    ensures ActiveOk(cfg, Wrap(w, known), stored, made) && !Wrap(w, known).invalid
  {
    FailRetryableKeeps(w.run, true);
    var failed := Wrap(w, known).run;
    FailedKeepsPlan(cfg, w.run, failed, made);
    SavesWrapped(cfg, Wrap(w, known), stored, made);
  }

  lemma SavesWrapped(cfg: Config, w: Worker, stored: Run, made: Artifacts)
    requires w.pc == Saving(CheckpointFailed) && !w.invalid && !Terminal(stored.status)
    requires EventsOk(w.run) && !w.run.IsRunning() && w.run.status in {FailedRetryable, FailedSafe}
    requires w.run.status == FailedRetryable ==> Attempts(w.run.events) < MAX_RUN_ATTEMPTS
    requires Attempts(stored.events) <= Attempts(w.run.events) && w.run.verdict != PendingVerdict && w.run.actions != []
    requires ActionsOk(w.run) && VerdictOk(w.run) && Committed(cfg, w.run, made) && OpenedKept(stored, w.run)
    ensures ActiveOk(cfg, w, stored, made)
  {
  }

  /** Marking a run failed keeps its actions, its route and what it is committed to. */
  lemma FailedKeepsPlan(cfg: Config, r: Run, failed: Run, made: Artifacts)
    requires failed.actions == r.actions && failed.verdict == r.verdict && failed.evidence == r.evidence
    requires failed.claim == r.claim && failed.repository == r.repository
    requires failed.verification == r.verification && failed.candidate == r.candidate
    requires failed.status in {FailedRetryable, FailedSafe}
    requires ActionsOk(r) && VerdictOk(r) && Committed(cfg, r, made)
    requires || made.Empty() || Plan(r, Opened, Skipped) || Plan(r, Blocked, Opened)
             || (failed.events != [] && failed.Last().stage == RoutingAction)
    ensures ActionsOk(failed) && VerdictOk(failed) && Committed(cfg, failed, made)
  {
    if !made.Empty() {
      assert Ordered(failed.actions);
      assert r.actions[0].state in ActionStates(failed) && r.actions[1].state in ActionStates(failed);
      assert FailedDuringDispatch(failed);
    }
  }

  // ----- Stages.

  lemma Started(r: Run, status: Status)
    requires EventsOk(r) && !r.IsRunning() && !Terminal(r.status) && status in Allowed(r.status)
    ensures var started := StartStage(r, status);
            && started.Ok? && started.value == r.(status := status, events := started.value.events)
            && EventsOk(started.value) && started.value.LastIs(status, Running)
            && Attempts(started.value.events) == Attempts(r.events)
  {
    Appended(r, status, Running, StageTitle);
  }

  lemma Finished(r: Run)
    requires EventsOk(r) && r.IsRunning()
    ensures var finished := FinishStage(r);
            && finished.Ok? && finished.value == r.(events := finished.value.events)
            && EventsOk(finished.value) && finished.value.LastIs(r.Last().stage, Succeeded)
            && Attempts(finished.value.events) == Attempts(r.events)
  {
    LastSet(r, Succeeded);
  }

  /** Audit stages that only open or close one stage. */
  lemma AuditSaved(cfg: Config, w: Worker, at: SavePoint, made: Artifacts)
    requires at in {CaptureStarted, Captured, CompileStarted, ControlBound, ProbeStarted}
    requires w.pc == Saving(at) && SavingOk(cfg, w, at, w.run, made)
    ensures ActiveOk(cfg, AfterSave(cfg, w, at), w.run, made) && !AfterSave(cfg, w, at).invalid
  {
    if at == Captured {
      StageOpens(cfg, w, Compiling, CompileStarted, made);
    } else if at == ControlBound {
      StageOpens(cfg, w, Probing, ProbeStarted, made);
    } else {
      StageCalls(cfg, w, at, made);
    }
  }

  lemma StageOpens(cfg: Config, w: Worker, status: Status, next: SavePoint, made: Artifacts)
    requires !w.invalid && w.mode == InExecute && Clean(w.run, made) && CanFail(w.run, w.run) && !w.run.IsRunning()
    requires w.run.actions == [] && w.run.verdict == PendingVerdict && status in Allowed(w.run.status)
    requires (status == Compiling && next == CompileStarted) || (status == Probing && next == ProbeStarted)
    ensures ActiveOk(cfg, Begin(w, status, Saving(next)), w.run, made) && !Begin(w, status, Saving(next)).invalid
  {
    Started(w.run, status);
  }

  lemma StageCalls(cfg: Config, w: Worker, at: SavePoint, made: Artifacts)
    requires at in {CaptureStarted, CompileStarted, ProbeStarted}
    requires w.pc == Saving(at) && SavingOk(cfg, w, at, w.run, made)
    ensures ActiveOk(cfg, AfterSave(cfg, w, at), w.run, made) && !AfterSave(cfg, w, at).invalid
  {
    hide OpenedKept, Committed, RunOk;
  }

  lemma ExecuteStarts(cfg: Config, w: Worker, stored: Run, made: Artifacts)
    requires !w.invalid && RunOk(cfg, w.run) && w.run.status == Received && w.run == stored && Clean(stored, made)
    ensures ActiveOk(cfg, ExecuteStart(w), stored, made) && !ExecuteStart(w).invalid
  {
    Started(w.run, Capturing);
  }

  /** The shape of a worker about to route: the audit is over and nothing has been planned yet. */
  ghost predicate Routable(r: Run) {
    && EventsOk(r) && !r.IsRunning() && VerdictOk(r) && r.actions == []
    && r.status in {BindingControl, Evaluating, Verifying} && r.verdict != PendingVerdict
  }

  lemma Proposed(verdict: Verdict, receipt: Option<Receipt>, r: Run)
    requires r.actions == Propose(verdict, receipt, 1, false) && r.verdict == verdict && r.verification == receipt
    ensures ActionsOk(r) && r.actions != [] && NothingOpened(r)
    ensures if r.verdict != Contradicted then Plan(r, Skipped, Skipped)
            else if ProvesCandidate(receipt) then Plan(r, Ready, Skipped)
            else Plan(r, Blocked, Planned)
  {
  }

  lemma Routes(cfg: Config, w: Worker, stored: Run, made: Artifacts)
    requires !w.invalid && Routable(w.run) && CanFail(w.run, stored) && Clean(stored, made)
    ensures ActiveOk(cfg, RouteStart(w), stored, made) && !RouteStart(w).invalid
  {
    Started(w.run, RoutingAction);
    PlanIsOk(w.run.verdict, w.run.verification);
    var r := RouteStart(w).run;
    Proposed(w.run.verdict, w.run.verification, r);
    SavesRouted(cfg, w.(run := r, pc := Saving(Routed)), stored, made);
  }

  lemma SavesRouted(cfg: Config, w: Worker, stored: Run, made: Artifacts)
    requires w.pc == Saving(Routed) && !w.invalid && Clean(stored, made) && !Terminal(stored.status)
    requires EventsOk(w.run) && w.run.status == RoutingAction && w.run.LastIs(RoutingAction, Running)
    requires VerdictOk(w.run) && w.run.verdict != PendingVerdict
    requires ActionsOk(w.run) && w.run.actions != [] && NothingOpened(w.run)
    requires Attempts(stored.events) <= Attempts(w.run.events)
    ensures ActiveOk(cfg, w, stored, made)
  {
  }

  lemma BindSaved(cfg: Config, w: Worker, made: Artifacts)
    requires w.pc == Saving(Compiled) && SavingOk(cfg, w, Compiled, w.run, made)
    ensures ActiveOk(cfg, BindStart(w), w.run, made) && !BindStart(w).invalid
  {
    Started(w.run, BindingControl);
    var r := StartStage(w.run, BindingControl).value;
    if CanBind(r.claim) {
      BindEnds(cfg, w, r, made);
    } else {
      Abstains(cfg, w, r, made);
    }
  }

  lemma BindEnds(cfg: Config, w: Worker, r: Run, made: Artifacts)
    requires !w.invalid && w.mode == InExecute && Clean(w.run, made) && CanFail(w.run, w.run)
    requires StartStage(w.run, BindingControl) == Ok(r) && CanBind(r.claim)
    requires EventsOk(r) && r.LastIs(BindingControl, Running) && r.status == BindingControl && r.actions == []
    requires r.verdict == PendingVerdict && Attempts(r.events) == Attempts(w.run.events)
    ensures ActiveOk(cfg, BindStart(w), w.run, made) && !BindStart(w).invalid
  {
    var matched := r.(claim := r.claim.(controlId := Some(CONTROL_ID)));
    Finished(matched);
    SavesAudit(cfg, w.(run := FinishStage(matched).value, pc := Saving(ControlBound)), w.run, made);
  }

  /** A finished audit stage, nothing planned yet, is ready to be saved. */
  lemma SavesAudit(cfg: Config, w: Worker, stored: Run, made: Artifacts)
    requires w.pc.Saving? && w.pc.at in {ControlBound, Evaluated, Remediated} && w.mode == InExecute && !w.invalid
    requires EventsOk(w.run) && !w.run.IsRunning() && w.run.actions == [] && VerdictOk(w.run)
    requires w.run.status ==
               match w.pc.at { case ControlBound => BindingControl case Evaluated => Evaluating case _ => Remediating }
    requires w.run.status == BindingControl ==> w.run.verdict == PendingVerdict
    requires w.run.status == Evaluating ==> w.run.verdict != PendingVerdict
    requires w.run.status == Remediating ==>
               w.run.verdict == Contradicted && (w.artifact.Some? ==> Approved(w.artifact.value))
    requires Clean(stored, made) && !Terminal(stored.status) && Attempts(stored.events) <= Attempts(w.run.events)
    ensures ActiveOk(cfg, w, stored, made)
  {
  }

  lemma Abstains(cfg: Config, w: Worker, r: Run, made: Artifacts)
    requires !w.invalid && CanFail(w.run, w.run) && Clean(w.run, made)
    requires StartStage(w.run, BindingControl) == Ok(r) && !CanBind(r.claim)
    requires EventsOk(r) && r.LastIs(BindingControl, Running) && r.status == BindingControl && r.actions == []
    requires Attempts(r.events) == Attempts(w.run.events)
    ensures ActiveOk(cfg, BindStart(w), w.run, made) && !BindStart(w).invalid
  {
    var abstained := r.(verdict := NotTested);
    Finished(abstained);
    Routes(cfg, w.(run := FinishStage(abstained).value), w.run, made);
  }

  lemma ProbeSaved(cfg: Config, w: Worker, made: Artifacts)
    requires w.pc == Saving(Probed) && SavingOk(cfg, w, Probed, w.run, made)
    ensures ActiveOk(cfg, EvaluateStart(w), w.run, made) && !EvaluateStart(w).invalid
  {
    Started(w.run, Evaluating);
    var r := StartStage(w.run, Evaluating).value;
    VerdictMeaning(r.evidence);
    var judged := r.(verdict := CalculateVerdict(r.evidence));
    Finished(judged);
    SavesAudit(cfg, w.(run := FinishStage(judged).value, pc := Saving(Evaluated)), w.run, made);
  }

  lemma EvaluateSaved(cfg: Config, w: Worker, made: Artifacts)
    requires w.pc == Saving(Evaluated) && SavingOk(cfg, w, Evaluated, w.run, made)
    ensures ActiveOk(cfg, AfterEvaluated(cfg, w), w.run, made) && !AfterEvaluated(cfg, w).invalid
  {
    if w.run.verdict != Contradicted {
      Routes(cfg, w, w.run, made);
    } else {
      RemediationStarts(cfg, w, made);
    }
  }

  lemma RemediationStarts(cfg: Config, w: Worker, made: Artifacts)
    requires !w.invalid && w.mode == InExecute && Clean(w.run, made) && CanFail(w.run, w.run)
    requires !w.run.IsRunning() && VerdictOk(w.run) && w.run.actions == []
    requires w.run.status == Evaluating && w.run.verdict == Contradicted
    ensures ActiveOk(cfg, AfterEvaluated(cfg, w), w.run, made) && !AfterEvaluated(cfg, w).invalid
  {
    Started(w.run, Remediating);
    var r := StartStage(w.run, Remediating).value;
    if cfg.verifierConfigured && r.repository.Some? {
      CallsPrepare(cfg, w.(run := r, artifact := None, pc := Calling(Prepare)), w.run, made);
    } else {
      Finished(r);
      SavesAudit(cfg, w.(run := FinishStage(r).value, artifact := None, pc := Saving(Remediated)), w.run, made);
    }
  }

  lemma CallsPrepare(cfg: Config, w: Worker, stored: Run, made: Artifacts)
    requires w.pc == Calling(Prepare) && w.mode == InExecute && !w.invalid && w.artifact.None?
    requires EventsOk(w.run) && w.run.IsRunning() && w.run.actions == [] && VerdictOk(w.run)
    requires w.run.status == Remediating && w.run.verdict == Contradicted
    requires Clean(stored, made) && !Terminal(stored.status) && Attempts(stored.events) <= Attempts(w.run.events)
    ensures ActiveOk(cfg, w, stored, made)
  {
  }

  lemma RemediateSaved(cfg: Config, w: Worker, made: Artifacts)
    requires w.pc == Saving(Remediated) && SavingOk(cfg, w, Remediated, w.run, made)
    ensures ActiveOk(cfg, VerifyStart(cfg, w), w.run, made) && !VerifyStart(cfg, w).invalid
  {
    Started(w.run, Verifying);
    var r := StartStage(w.run, Verifying).value;
    if w.artifact.Some? && cfg.verifierConfigured {
      CallsVerify(cfg, w.(run := r, pc := Calling(Verify(w.artifact.value))), w.run, made);
    } else {
      VerifyEnds(cfg, w.(run := r.(verification := Some(UNPROVEN_RECEIPT))), w.run, made);
    }
    hide RunOk, ActiveOk, Committed, OpenedKept, StartStage, End;
  }

  lemma CallsVerify(cfg: Config, w: Worker, stored: Run, made: Artifacts)
    requires w.pc.Calling? && w.pc.call.Verify? && Approved(w.pc.call.artifact) && w.mode == InExecute && !w.invalid
    requires EventsOk(w.run) && w.run.IsRunning() && w.run.actions == [] && VerdictOk(w.run)
    requires w.run.status == Verifying && w.run.verdict == Contradicted
    requires Clean(stored, made) && !Terminal(stored.status) && Attempts(stored.events) <= Attempts(w.run.events)
    ensures ActiveOk(cfg, w, stored, made)
  {
  }

  /** Closing the verification stage with any recorded receipt leaves a run fit to persist. */
  lemma VerifyEnds(cfg: Config, w: Worker, stored: Run, made: Artifacts)
    requires !w.invalid && w.mode == InExecute && Clean(stored, made) && CanFail(w.run, stored)
    requires VerdictOk(w.run) && w.run.IsRunning() && w.run.status == Verifying
    requires w.run.verdict == Contradicted && w.run.actions == [] && w.run.verification.Some?
    ensures ActiveOk(cfg, End(w, Saving(RepairVerified)), stored, made) && !End(w, Saving(RepairVerified)).invalid
  {
    Finished(w.run);
  }

  // ----- Dispatch.

  /** A worker about to dispatch holds exactly the persisted run, in routing. */
  ghost predicate AtDispatch(cfg: Config, w: Worker, stored: Run, made: Artifacts) {
    && !w.invalid && w.run == stored && stored.status == RoutingAction
    && RunOk(cfg, stored) && Committed(cfg, stored, made)
    && (w.mode == InExecute ==> Clean(stored, made))
  }

  lemma Completes(cfg: Config, w: Worker, made: Artifacts)
    requires !w.invalid && w.run.status == RoutingAction && !w.run.IsRunning()
    requires RunOk(cfg, w.run) && Committed(cfg, w.run, made)
    ensures ActiveOk(cfg, CompleteStart(w), w.run, made) && !CompleteStart(w).invalid
  {
    Started(w.run, Complete);
    Finished(StartStage(w.run, Complete).value);
    var done := CompleteStart(w).run;
    CompletedRun(cfg, w.run, done, made);
    SavesCompleted(cfg, w.(run := done, pc := Saving(Completed)), w.run, made);
  }

  lemma SavesCompleted(cfg: Config, w: Worker, stored: Run, made: Artifacts)
    requires w.pc == Saving(Completed) && !w.invalid && !Terminal(stored.status)
    requires RunOk(cfg, w.run) && w.run.status == Complete && w.run.LastIs(Complete, Succeeded)
    requires Committed(cfg, w.run, made) && OpenedKept(stored, w.run)
    requires Attempts(stored.events) <= Attempts(w.run.events)
    ensures ActiveOk(cfg, w, stored, made)
  {
  }

  lemma CompletedRun(cfg: Config, r: Run, done: Run, made: Artifacts)
    requires RunOk(cfg, r) && r.status == RoutingAction && !r.IsRunning() && Committed(cfg, r, made)
    requires done == r.(status := Complete, events := done.events) && EventsOk(done) && done.LastIs(Complete, Succeeded)
    ensures RunOk(cfg, done) && Committed(cfg, done, made) && OpenedKept(r, done)
  {
  }

  lemma Settles(cfg: Config, w: Worker, stored: Run, made: Artifacts)
    requires AtDispatch(cfg, w, stored, made) && w.run.IsRunning() && RouteSettled(cfg, w.run)
    ensures ActiveOk(cfg, End(w, Saving(Settled)), stored, made) && !End(w, Saving(Settled)).invalid
  {
    Finished(w.run);
  }

  lemma IssueParts(cfg: Config, w: Worker, stored: Run, made: Artifacts)
    requires AtDispatch(cfg, w, stored, made) && w.run.IsRunning()
    requires !ActionIs(w.run, 0, Ready) && NothingOpened(w.run)
    ensures ActiveOk(cfg, IssuePart(cfg, w), stored, made) && !IssuePart(cfg, w).invalid
  {
    if !(ActionIs(w.run, 1, Planned) && CanDispatch(cfg, w.run)) {
      Settles(cfg, w, stored, made);
    }
  }

  lemma FallbackRun(cfg: Config, r: Run, made: Artifacts)
    requires RunOk(cfg, r) && r.status == RoutingAction && r.IsRunning() && Plan(r, Ready, Skipped) && made.Empty()
    ensures RunOk(cfg, SelectIssueFallback(r)) && Plan(SelectIssueFallback(r), Blocked, Planned)
    ensures SelectIssueFallback(r).IsRunning() && Committed(cfg, SelectIssueFallback(r), made)
  {
  }

  lemma Dispatches(cfg: Config, w: Worker, stored: Run, made: Artifacts)
    requires AtDispatch(cfg, w, stored, made)
    ensures ActiveOk(cfg, Dispatch(cfg, w), stored, made) && !Dispatch(cfg, w).invalid
  {
    if w.run.LastIs(RoutingAction, Succeeded) {
      Completes(cfg, w, made);
    } else if ActionIs(w.run, 0, Opened) || ActionIs(w.run, 1, Opened) {
      var i := if ActionIs(w.run, 0, Opened) then 0 else 1;
      assert ActionIs(w.run, i, Opened) && w.run.actions[i].url.Some?;
      Settles(cfg, w, stored, made);
    } else if ActionIs(w.run, 0, Ready) {
      DispatchesReady(cfg, w, stored, made);
    } else {
      IssueParts(cfg, w, stored, made);
    }
  }

  lemma DispatchesReady(cfg: Config, w: Worker, stored: Run, made: Artifacts)
    requires AtDispatch(cfg, w, stored, made) && ActionIs(w.run, 0, Ready)
    ensures ActiveOk(cfg, Dispatch(cfg, w), stored, made) && !Dispatch(cfg, w).invalid
  {
    hide RunOk, OpenedKept;
    ReadyRun(cfg, stored);
    if !(CanDispatch(cfg, w.run) && w.run.candidate.Some?) {
      FallbackRun(cfg, stored, made);
      FallbackSaves(cfg, w, stored, made);
    }
  }

  lemma ReadyRun(cfg: Config, r: Run)
    requires RunOk(cfg, r) && r.status == RoutingAction && ActionIs(r, 0, Ready)
    ensures Plan(r, Ready, Skipped) && r.IsRunning() && !r.LastIs(RoutingAction, Succeeded) && NothingOpened(r)
  {
  }

  lemma FallbackSaves(cfg: Config, w: Worker, stored: Run, made: Artifacts)
    requires !w.invalid && w.run == stored && (w.mode == InExecute ==> Clean(stored, made))
    requires RunOk(cfg, stored) && stored.status == RoutingAction && stored.IsRunning() && Plan(stored, Ready, Skipped)
    requires RunOk(cfg, SelectIssueFallback(stored)) && Plan(SelectIssueFallback(stored), Blocked, Planned)
    requires SelectIssueFallback(stored).IsRunning() && Committed(cfg, SelectIssueFallback(stored), made)
    ensures ActiveOk(cfg, w.(run := SelectIssueFallback(stored), pc := Saving(FallbackInline)), stored, made)
  {
  }

  // ----- Publication.

  /** What a publisher call may do to the artifacts this run has created. Rejection, which only the draft PR
      publisher raises, means that this run's PR for the candidate was never created. */
  predicate PublishEffect(r: Run, kind: ActionKind, reply: Reply, made: Artifacts, made': Artifacts) {
    match reply
    case PublishConfirmed(_) => (Unchanged(made, made') && Exists(r, kind, made)) || Created(r, kind, made, made')
    case PublishUncertain => Unchanged(made, made') || Created(r, kind, made, made')
    case PublishRejected => Unchanged(made, made') && PrKeyOf(r) !in made.prs
    case _ => Unchanged(made, made')
  }

  predicate Unchanged(made: Artifacts, made': Artifacts) {
    made' == made
  }

  predicate Exists(r: Run, kind: ActionKind, made: Artifacts) {
    match kind
    case PullRequest => PrKeyOf(r) in made.prs
    case Issue => IssueKeyOf(r) in made.issues
    case Email => false
  }

  predicate Created(r: Run, kind: ActionKind, made: Artifacts, made': Artifacts) {
    match kind
    case PullRequest => made' == made.(prs := made.prs + {PrKeyOf(r)})
    case Issue => made' == made.(issues := made.issues + {IssueKeyOf(r)})
    case Email => false
  }

  /** Publishing the persisted plan leaves the persisted run committed to whatever was created. */
  lemma EffectCommitted(cfg: Config, r: Run, kind: ActionKind, made: Artifacts, made': Artifacts)
    requires RunOk(cfg, r) && Dispatching(cfg, r, kind) && Committed(cfg, r, made)
    requires Unchanged(made, made') || Created(r, kind, made, made')
    ensures Committed(cfg, r, made')
    ensures made'.Count() <= 1
  {
    if made != made' {
      match kind
      case PullRequest =>
        assert made.issues == {};
        assert made'.prs == {PrKeyOf(r)};
      case Issue =>
        assert made.prs == {};
        assert made'.issues == {IssueKeyOf(r)};
    }
  }

  lemma Confirms(cfg: Config, w: Worker, kind: ActionKind, url: string, stored: Run, made: Artifacts)
    requires !w.invalid && w.run == stored && RunOk(cfg, stored) && Dispatching(cfg, stored, kind)
    requires Committed(cfg, stored, made) && Exists(stored, kind, made)
    ensures ActiveOk(cfg, AfterPublish(w, kind, PublishConfirmed(url)), stored, made)
    ensures !AfterPublish(w, kind, PublishConfirmed(url)).invalid
  {
    hide RunOk, Committed, OpenedKept, Exists, ActionsOk, VerdictOk, Shape, AfterPublish, MarkOpened;
    var o := MarkOpened(stored, kind, url);
    OpenedRun(cfg, stored, kind, url, made);
    Finished(o);
    var r := FinishStage(o).value;
    ReceiptEnds(w, kind, url);
    OpenedSaved(cfg, r, kind, stored, o, made);
    SavesOutcome(cfg, w.(run := r, pc := Saving(ActionOpened(kind))), ActionOpened(kind), stored, made);
  }

  lemma ReceiptEnds(w: Worker, kind: ActionKind, url: string)
    requires |w.run.actions| == 3 && FinishStage(MarkOpened(w.run, kind, url)).Ok?
    ensures AfterPublish(w, kind, PublishConfirmed(url))
            == w.(run := FinishStage(MarkOpened(w.run, kind, url)).value, pc := Saving(ActionOpened(kind)))
  {
  }

  /** A run edited after the publisher answered is ready to be saved. */
  lemma SavesOutcome(cfg: Config, w: Worker, at: SavePoint, stored: Run, made: Artifacts)
    requires w.pc == Saving(at) && (at.ActionOpened? || at == FailedInDispatch) && !w.invalid
    requires RunOk(cfg, w.run) && Shape(cfg, at, w.run) && Committed(cfg, w.run, made) && OpenedKept(stored, w.run)
    requires Attempts(stored.events) <= Attempts(w.run.events) && !Terminal(stored.status)
    ensures ActiveOk(cfg, w, stored, made)
  {
  }

  lemma OpenedRun(cfg: Config, r: Run, kind: ActionKind, url: string, made: Artifacts)
    requires RunOk(cfg, r) && Dispatching(cfg, r, kind) && Committed(cfg, r, made) && Exists(r, kind, made)
    ensures var o := MarkOpened(r, kind, url);
            && EventsOk(o) && o.IsRunning() && o.Last().stage == RoutingAction
            && ActionsOk(o) && VerdictOk(o) && o.verdict == Contradicted
            && (kind == PullRequest ==> Plan(o, Opened, Skipped)) && (kind == Issue ==> Plan(o, Blocked, Opened))
            && Committed(cfg, o, made) && OpenedKept(r, o)
            && o == r.(actions := o.actions)
  {
  }

  lemma OpenedSaved(cfg: Config, r: Run, kind: ActionKind, stored: Run, o: Run, made: Artifacts)
    requires o.status == RoutingAction && ActionsOk(o) && VerdictOk(o) && o.verdict == Contradicted && kind != Email
    requires (kind == PullRequest ==> Plan(o, Opened, Skipped)) && (kind == Issue ==> Plan(o, Blocked, Opened))
    requires Committed(cfg, o, made) && OpenedKept(stored, o)
    requires r == o.(events := r.events) && EventsOk(r) && r.LastIs(RoutingAction, Succeeded)
    ensures RunOk(cfg, r) && Shape(cfg, ActionOpened(kind), r) && Committed(cfg, r, made) && OpenedKept(stored, r)
  {
  }

  lemma FailsInDispatch(cfg: Config, w: Worker, failed: Run, stored: Run, made: Artifacts)
    requires !w.invalid && w.run == stored && RunOk(cfg, stored) && Committed(cfg, stored, made)
    requires stored.status == RoutingAction && stored.LastIs(RoutingAction, Running)
    requires failed == stored.(status := failed.status, events := failed.events, limitations := failed.limitations)
    requires EventsOk(failed) && !failed.IsRunning() && failed.Last().stage == RoutingAction
    requires failed.status in {FailedRetryable, FailedSafe} && Attempts(failed.events) == Attempts(stored.events)
    requires failed.status == FailedRetryable ==> Attempts(stored.events) < MAX_RUN_ATTEMPTS
    ensures ActiveOk(cfg, w.(run := failed, pc := Saving(FailedInDispatch)), stored, made)
  {
    FailedKeepsPlan(cfg, stored, failed, made);
    SavesOutcome(cfg, w.(run := failed, pc := Saving(FailedInDispatch)), FailedInDispatch, stored, made);
  }

  lemma IsUncertain(cfg: Config, w: Worker, kind: ActionKind, stored: Run, made: Artifacts)
    requires !w.invalid && w.run == stored && RunOk(cfg, stored) && Dispatching(cfg, stored, kind)
    requires Committed(cfg, stored, made)
    ensures ActiveOk(cfg, AfterPublish(w, kind, PublishUncertain), stored, made)
    ensures !AfterPublish(w, kind, PublishUncertain).invalid
  {
    FailRetryableKeeps(stored, true);
    FailsInDispatch(cfg, w, FailRetryable(stored, true).value, stored, made);
  }

  lemma IsRefused(cfg: Config, w: Worker, kind: ActionKind, stored: Run, made: Artifacts)
    requires !w.invalid && w.run == stored && RunOk(cfg, stored) && Dispatching(cfg, stored, kind)
    requires Committed(cfg, stored, made)
    ensures ActiveOk(cfg, AfterPublish(w, kind, PublishRefused), stored, made)
    ensures !AfterPublish(w, kind, PublishRefused).invalid
  {
    FailRunKeeps(stored, FailedSafe, false, false);
    FailsInDispatch(cfg, w, FailRun(stored, FailedSafe, false, false).value, stored, made);
  }

  lemma FallsBack(cfg: Config, w: Worker, stored: Run, made: Artifacts)
    requires !w.invalid && w.run == stored && RunOk(cfg, stored) && Dispatching(cfg, stored, PullRequest)
    requires Committed(cfg, stored, made) && PrKeyOf(stored) !in made.prs
    requires w.mode == InExecute ==> Clean(stored, made)
    ensures ActiveOk(cfg, FallBack(w), stored, made) && !FallBack(w).invalid
  {
    assert made.Empty();
    FallbackRun(cfg, stored, made);
  }

  lemma Publishes(
    cfg: Config, w: Worker, kind: ActionKind, reply: Reply, stored: Run, made: Artifacts, made': Artifacts)
    requires w.pc == Calling(Publish(kind)) && Fits(w.pc, reply) && CallingOk(cfg, w, Publish(kind), stored, made)
    requires RunOk(cfg, stored) && Committed(cfg, stored, made) && PublishEffect(stored, kind, reply, made, made')
    ensures Committed(cfg, stored, made') && made'.Count() <= 1
    ensures ActiveOk(cfg, AfterPublish(w, kind, reply), stored, made') && !AfterPublish(w, kind, reply).invalid
  {
    EffectCommitted(cfg, stored, kind, made, made');
    match reply
    case PublishConfirmed(url) => Confirms(cfg, w, kind, url, stored, made');
    case PublishUncertain => IsUncertain(cfg, w, kind, stored, made');
    case PublishRefused => IsRefused(cfg, w, kind, stored, made');
    case PublishRejected => FallsBack(cfg, w, stored, made');
    case NetworkError => RaiseKeeps(cfg, w, Network, stored, made');
    case _ => RaiseKeeps(cfg, w, Unexpected, stored, made');
  }

  // ----- The other calls.

  lemma ProbeCalled(cfg: Config, w: Worker, evidence: seq<EvidenceItem>, stored: Run, made: Artifacts)
    requires w.pc == Calling(Probe) && CallingOk(cfg, w, Probe, stored, made)
    ensures ActiveOk(cfg, AfterCall(cfg, w, Probe, ProbeOk(evidence)), stored, made)
    ensures !AfterCall(cfg, w, Probe, ProbeOk(evidence)).invalid
  {
    Finished(w.run.(evidence := evidence));
  }

  lemma CompileCalled(cfg: Config, w: Worker, payload: Payload, stored: Run, made: Artifacts)
    requires w.pc == Calling(Compile) && CallingOk(cfg, w, Compile, stored, made)
    ensures ActiveOk(cfg, AfterCompile(w, payload), stored, made) && !AfterCompile(w, payload).invalid
  {
    hide Source.Grounded, Source.Captured, ActiveOk, CallingOk, Raise, End;
    CompiledKeeps(cfg, w, w.run.claim, stored, made);
    if w.page.Some? {
      CompiledKeeps(cfg, w, ClaimFrom(w.page.value, payload), stored, made);
    }
  }

  lemma CompiledKeeps(cfg: Config, w: Worker, claim: Claim, stored: Run, made: Artifacts)
    requires w.pc == Calling(Compile) && CallingOk(cfg, w, Compile, stored, made)
    ensures var compiled := w.(run := w.run.(claim := claim));
            && ActiveOk(cfg, End(compiled, Saving(Compiled)), stored, made) && !End(compiled, Saving(Compiled)).invalid
            && ActiveOk(cfg, Raise(compiled, CompileError(false)), stored, made)
            && !Raise(compiled, CompileError(false)).invalid
    ensures ActiveOk(cfg, Raise(w, Unexpected), stored, made) && !Raise(w, Unexpected).invalid
  {
    var compiled := w.(run := w.run.(claim := claim));
    RaiseKeeps(cfg, w, Unexpected, stored, made);
    RaiseKeeps(cfg, compiled, CompileError(false), stored, made);
    CompileEnds(cfg, compiled, stored, made);
    hide Raise;
  }

  lemma CompileEnds(cfg: Config, w: Worker, stored: Run, made: Artifacts)
    requires w.pc == Calling(Compile) && CallingOk(cfg, w, Compile, stored, made)
    ensures ActiveOk(cfg, End(w, Saving(Compiled)), stored, made) && !End(w, Saving(Compiled)).invalid
  {
    Finished(w.run);
  }

  lemma CaptureCalled(cfg: Config, w: Worker, page: Source.Page, stored: Run, made: Artifacts)
    requires w.pc == Calling(Capture) && CallingOk(cfg, w, Capture, stored, made)
    ensures var captured := End(w.(page := Some(page)), Saving(Captured));
            ActiveOk(cfg, captured, stored, made) && !captured.invalid
  {
    Finished(w.run);
  }

  lemma PrepareCalled(cfg: Config, w: Worker, reply: Reply, stored: Run, made: Artifacts)
    requires w.pc == Calling(Prepare) && CallingOk(cfg, w, Prepare, stored, made) && Fits(w.pc, reply)
    ensures ActiveOk(cfg, AfterCall(cfg, w, Prepare, reply), stored, made)
    ensures !AfterCall(cfg, w, Prepare, reply).invalid
  {
    Finished(w.run);
    var r := FinishStage(w.run).value;
    var artifact := if reply.PrepareOk? then Some(reply.artifact) else w.artifact;
    SavesAudit(cfg, w.(run := r, artifact := artifact, pc := Saving(Remediated)), stored, made);
  }

  lemma Recorded(r: Run, o: Outcome)
    ensures RecordOutcome(r, o)
            == r.(verification := RecordOutcome(r, o).verification, candidate := RecordOutcome(r, o).candidate)
    ensures RecordOutcome(r, o).verification.Some?
  {
  }

  lemma VerifyCalled(cfg: Config, w: Worker, artifact: Artifact, reply: Reply, stored: Run, made: Artifacts)
    requires w.pc == Calling(Verify(artifact)) && CallingOk(cfg, w, Verify(artifact), stored, made) && Fits(w.pc, reply)
    ensures ActiveOk(cfg, AfterVerify(w, artifact, reply), stored, made) && !AfterVerify(w, artifact, reply).invalid
  {
    var r :=
      match reply
      case VerifyInterpreted(submission, snapshot) =>
        RecordOutcome(w.run, Interpret(PUBLIC_REPOSITORY_URL, artifact, submission, snapshot))
      case VerifyStopped(decision, code, evidence) => RecordOutcome(w.run, Stopped(decision, code, evidence))
      case _ => w.run.(verification := Some(UNPROVEN_RECEIPT), candidate := None);
    match reply {
      case VerifyInterpreted(submission, snapshot) =>
        Recorded(w.run, Interpret(PUBLIC_REPOSITORY_URL, artifact, submission, snapshot));
      case VerifyStopped(decision, code, evidence) => Recorded(w.run, Stopped(decision, code, evidence));
      case _ =>
    }
    VerifyEnds(cfg, w.(run := r), stored, made);
  }

  // ----- One await, in general.

  /** The one case in which `fail_run` meets a run that is already terminal: inside `_execute`, the save that
      follows a failed publication does not go through. */
  predicate FailsTwice(w: Worker, reply: Reply) {
    w.mode == InExecute && w.pc == Saving(FailedInDispatch) && !reply.Saved?
  }

  lemma SavedKeeps(cfg: Config, w: Worker, at: SavePoint, made: Artifacts)
    requires w.pc == Saving(at) && SavingOk(cfg, w, at, w.run, made)
    ensures ActiveOk(cfg, AfterSave(cfg, w, at), w.run, made) && !AfterSave(cfg, w, at).invalid
  {
    if at in {CaptureStarted, Captured, CompileStarted, ControlBound, ProbeStarted} {
      AuditSaved(cfg, w, at, made);
    } else {
      match at
      case ResumeRestart => ExecuteStarts(cfg, w, w.run, made);
      case ResumeAction => Dispatches(cfg, w, w.run, made);
      case Compiled => BindSaved(cfg, w, made);
      case Probed => ProbeSaved(cfg, w, made);
      case Evaluated => EvaluateSaved(cfg, w, made);
      case Remediated => RemediateSaved(cfg, w, made);
      case RepairVerified => Routes(cfg, w, w.run, made);
      case Routed => Dispatches(cfg, w, w.run, made);
      case FallbackInline => IssueParts(cfg, w, w.run, made);
      case FallbackAfterPublisher => Dispatches(cfg, w, w.run, made);
      case Settled => Completes(cfg, w, made);
      case ActionOpened(_) => Completes(cfg, w, made);
      case _ =>
    }
  }

  /** A save that goes through leaves the worker's invariant with respect to what is now stored. */
  lemma NowStored(cfg: Config, w: Worker, at: SavePoint, stored: Run, made: Artifacts)
    requires w.pc == Saving(at) && SavingOk(cfg, w, at, stored, made)
    requires !Terminal(w.run.status)
    ensures SavingOk(cfg, w, at, w.run, made)
  {
  }

  /** Save points whose failure ends in the ordinary handlers. */
  predicate Handleable(at: SavePoint) {
    !Resuming(at) && !AfterOutcome(at) && at != HandlerFailed
  }

  lemma SaveRaises(cfg: Config, w: Worker, at: SavePoint, stored: Run, made: Artifacts)
    requires w.pc == Saving(at) && SavingOk(cfg, w, at, stored, made) && Handleable(at)
    ensures ActiveOk(cfg, Raise(w, Unexpected), stored, made) && !Raise(w, Unexpected).invalid
  {
    assert CanFail(w.run, stored);
    RaiseKeeps(cfg, w, Unexpected, stored, made);
  }

  lemma OpenedSaveFails(cfg: Config, w: Worker, kind: ActionKind, stored: Run, made: Artifacts)
    requires w.pc == Saving(ActionOpened(kind)) && SavingOk(cfg, w, ActionOpened(kind), stored, made)
    ensures ActiveOk(cfg, SaveFailed(w, w.pc.at), stored, made) && !SaveFailed(w, w.pc.at).invalid
  {
    WrapKeeps(cfg, w, ConfirmedButNotCheckpointed(kind), stored, made);
  }

  lemma FailsAgain(w: Worker)
    requires Terminal(w.run.status) && !w.invalid
    ensures Raise(w, Unexpected).pc == Releasing && (Raise(w, Unexpected).invalid <==> w.mode == InExecute)
  {
    assert FailedBy(w.run.(verdict := Inconclusive), Unexpected).Err?;
  }

  /** A save that does not go through: the exception path of every save point. */
  lemma SaveFailureKeeps(cfg: Config, w: Worker, at: SavePoint, stored: Run, made: Artifacts)
    requires w.pc == Saving(at) && SavingOk(cfg, w, at, stored, made) && Committed(cfg, stored, made)
    ensures ActiveOk(cfg, SaveFailed(w, at), stored, made)
    ensures SaveFailed(w, at).invalid <==> w.mode == InExecute && at == FailedInDispatch
  {
    hide RunOk, Committed, OpenedKept, FailRun, FailRetryable;
    if Handleable(at) {
      SaveRaises(cfg, w, at, stored, made);
    } else {
      match at
      case ActionOpened(kind) => OpenedSaveFails(cfg, w, kind, stored, made);
      case Completed => CompleteFailureKeeps(cfg, w, stored, made);
      case FailedInDispatch => FailsAgain(w);
      case _ =>
    }
  }

  /** Putting the routing status back reopens the run; its plan is untouched. */
  lemma CompleteFailureKeeps(cfg: Config, w: Worker, stored: Run, made: Artifacts)
    requires w.pc == Saving(Completed) && SavingOk(cfg, w, Completed, stored, made)
    ensures ActiveOk(cfg, CompleteFailed(w), stored, made) && !CompleteFailed(w).invalid
  {
    var routed := w.run.(status := RoutingAction);
    LastSet(routed, Failed);
    var restored := routed.SetLast(Failed);
    assert restored == w.run.(status := RoutingAction, events := restored.events);
    Reopened(cfg, w.run, restored, stored, made);
    assert CompleteFailed(w) == Wrap(w.(run := restored), FinalCheckpointPending(AnyOpened(restored)));
    WrapKeeps(cfg, w.(run := restored), FinalCheckpointPending(AnyOpened(restored)), stored, made);
  }

  lemma Reopened(cfg: Config, r: Run, restored: Run, stored: Run, made: Artifacts)
    requires RunOk(cfg, r) && r.status == Complete && Committed(cfg, r, made) && OpenedKept(stored, r)
    requires restored == r.(status := RoutingAction, events := restored.events)
    ensures ActionsOk(restored) && VerdictOk(restored) && restored.verdict != PendingVerdict && restored.actions != []
    ensures Committed(cfg, restored, made) && OpenedKept(stored, restored)
    ensures made.Empty() || Plan(restored, Opened, Skipped) || Plan(restored, Blocked, Opened)
  {
  }

  /** A call that raises leaves the worker with a persisted run it can still mark as failed. */
  lemma CallRaises(cfg: Config, w: Worker, call: Call, e: Exception, stored: Run, made: Artifacts)
    requires w.pc == Calling(call) && !call.Publish? && CallingOk(cfg, w, call, stored, made) && RunOk(cfg, stored)
    requires !e.ExternalCheckpoint? && !e.CompletionCheckpoint?
    ensures ActiveOk(cfg, Raise(w, e), stored, made) && !Raise(w, e).invalid
  {
    assert CanFail(w.run, stored);
    RaiseKeeps(cfg, w, e, stored, made);
  }

  lemma CallKeeps(cfg: Config, w: Worker, call: Call, reply: Reply, stored: Run, made: Artifacts)
    requires w.pc == Calling(call) && !call.Publish? && Fits(w.pc, reply) && CallingOk(cfg, w, call, stored, made)
    requires RunOk(cfg, stored) && Committed(cfg, stored, made)
    ensures ActiveOk(cfg, AfterCall(cfg, w, call, reply), stored, made) && !AfterCall(cfg, w, call, reply).invalid
  {
    hide ActiveOk, CallingOk, RunOk, Committed, AfterVerify, End, Raise;
    match call
    case Prepare => PrepareCalled(cfg, w, reply, stored, made);
    case Verify(artifact) => VerifyCalled(cfg, w, artifact, reply, stored, made);
    case AcquireAction(kind) => LeaseCalled(cfg, w, kind, reply, stored, made);
    case _ => AuditCalled(cfg, w, call, reply, stored, made);
  }

  lemma LeaseCalled(cfg: Config, w: Worker, kind: ActionKind, reply: Reply, stored: Run, made: Artifacts)
    requires w.pc == Calling(AcquireAction(kind)) && Fits(w.pc, reply)
    requires CallingOk(cfg, w, AcquireAction(kind), stored, made) && RunOk(cfg, stored) && Committed(cfg, stored, made)
    ensures ActiveOk(cfg, AfterCall(cfg, w, AcquireAction(kind), reply), stored, made)
    ensures !AfterCall(cfg, w, AcquireAction(kind), reply).invalid
  {
    CallRaises(cfg, w, AcquireAction(kind), Unexpected, stored, made);
  }

  predicate Fails(reply: Reply) {
    reply.CompileFailed? || reply.NetworkError? || reply.OtherError?
  }

  lemma AuditCalled(cfg: Config, w: Worker, call: Call, reply: Reply, stored: Run, made: Artifacts)
    requires call in {Capture, Compile, Probe}
    requires w.pc == Calling(call) && Fits(w.pc, reply) && CallingOk(cfg, w, call, stored, made) && RunOk(cfg, stored)
    ensures ActiveOk(cfg, AfterCall(cfg, w, call, reply), stored, made) && !AfterCall(cfg, w, call, reply).invalid
  {
    if Fails(reply) {
      var e :=
        if reply.CompileFailed? then CompileError(reply.retryable)
        else if reply.NetworkError? then Network else Unexpected;
      CallRaises(cfg, w, call, e, stored, made);
      assert AfterCall(cfg, w, call, reply) == Raise(w, e);
    } else {
      AuditSucceeds(cfg, w, call, reply, stored, made);
    }
  }

  lemma AuditSucceeds(cfg: Config, w: Worker, call: Call, reply: Reply, stored: Run, made: Artifacts)
    requires call in {Capture, Compile, Probe} && !Fails(reply)
    requires w.pc == Calling(call) && Fits(w.pc, reply) && CallingOk(cfg, w, call, stored, made)
    ensures ActiveOk(cfg, AfterCall(cfg, w, call, reply), stored, made) && !AfterCall(cfg, w, call, reply).invalid
  {
    match reply
    case CaptureOk(page) => CaptureCalled(cfg, w, page, stored, made);
    case CompileOk(payload) => CompileCalled(cfg, w, payload, stored, made);
    case ProbeOk(evidence) => ProbeCalled(cfg, w, evidence, stored, made);
  }

  /** What `create_run` does with a current snapshot: every persisted checkpoint is resumed legally. */
  lemma GrantKeeps(cfg: Config, w: Worker, stored: Run, made: Artifacts)
    requires w.pc.Reserved? && !w.invalid && w.run == stored && RunOk(cfg, stored) && Committed(cfg, stored, made)
    requires w.pc.created ==> stored.status == Received
    requires stored.status != Complete && stored.status != FailedSafe
    ensures ActiveOk(cfg, Granted(cfg, w), stored, made) && !Granted(cfg, w).invalid
  {
    if w.pc.created {
      ExecuteStarts(cfg, w, stored, made);
    } else if stored.status == FailedRetryable {
      if FailedDuringDispatch(stored) {
        Resumes(cfg, w, stored, made);
      } else {
        Restarts(cfg, w, stored, made);
      }
    } else if stored.status == RoutingAction {
      Dispatches(cfg, w.(mode := Direct), stored, made);
    } else if stored.status == Verifying {
      Routes(cfg, w.(mode := Direct), stored, made);
    } else {
      Restarts(cfg, w, stored, made);
    }
  }

  lemma Restarts(cfg: Config, w: Worker, stored: Run, made: Artifacts)
    requires !w.invalid && w.run == stored && RunOk(cfg, stored) && Committed(cfg, stored, made)
    requires stored.status in {Received, Capturing, Compiling, BindingControl, Probing, Evaluating, Remediating}
             || (stored.status == FailedRetryable && !FailedDuringDispatch(stored))
    ensures ActiveOk(
              cfg, w.(mode := Direct, run := ResetInterrupted(stored), pc := Saving(ResumeRestart)), stored, made)
  {
    NotDispatched(cfg, stored, made);
    ResetRun(stored);
  }

  /** A run that restarts has created nothing and recorded nothing as opened. */
  lemma NotDispatched(cfg: Config, stored: Run, made: Artifacts)
    requires RunOk(cfg, stored) && Committed(cfg, stored, made)
    requires stored.status in {Received, Capturing, Compiling, BindingControl, Probing, Evaluating, Remediating}
             || (stored.status == FailedRetryable && !FailedDuringDispatch(stored))
    ensures Clean(stored, made)
  {
    if stored.status == FailedRetryable {
      assert stored.actions[0].state in ActionStates(stored) && stored.actions[1].state in ActionStates(stored);
    }
  }

  lemma ResetRun(stored: Run)
    requires EventsOk(stored)
    ensures var reset := ResetInterrupted(stored);
            && EventsOk(reset) && !reset.IsRunning() && reset.actions == [] && reset.status == Received
            && reset.verdict == PendingVerdict && Attempts(reset.events) == Attempts(stored.events) + 1
  {
    var stopped := if stored.IsRunning() then stored.SetLast(Failed) else stored;
    if stored.IsRunning() { LastSet(stored, Failed); }
    var reset := stopped.(
      status := Received, verdict := PendingVerdict, evidence := [], actions := [],
      verification := None, candidate := None);
    Appended(reset, Received, Succeeded, AuditResumed);
  }

  lemma Resumes(cfg: Config, w: Worker, stored: Run, made: Artifacts)
    requires !w.invalid && w.run == stored && RunOk(cfg, stored) && Committed(cfg, stored, made)
    requires stored.status == FailedRetryable && FailedDuringDispatch(stored)
    ensures ActiveOk(cfg, w.(mode := Direct, run := ResumeDispatch(stored), pc := Saving(ResumeAction)), stored, made)
  {
    Appended(stored.(status := RoutingAction), RoutingAction, Running, ActionRetryResumed);
    ResumedRun(cfg, stored, ResumeDispatch(stored), made);
  }

  lemma ResumedRun(cfg: Config, stored: Run, resumed: Run, made: Artifacts)
    requires RunOk(cfg, stored) && Committed(cfg, stored, made) && stored.status == FailedRetryable
    requires resumed == stored.(status := RoutingAction, events := resumed.events)
    requires EventsOk(resumed) && resumed.LastIs(RoutingAction, Running)
    ensures RunOk(cfg, resumed) && Committed(cfg, resumed, made) && OpenedKept(stored, resumed)
  {
  }

  // ----- One await of a lease holder, whatever it is.

  /** Only a save that goes through changes the stored run, and only a publication changes what exists. */
  predicate Effects(w: Worker, reply: Reply, stored: Run, stored': Run, made: Artifacts, made': Artifacts) {
    && stored' == (if w.pc.Saving? && reply.Saved? then w.run else stored)
    && if w.pc.Calling? && w.pc.call.Publish? then PublishEffect(stored, w.pc.call.kind, reply, made, made')
       else made' == made
  }

  lemma SaveSteps(cfg: Config, w: Worker, reply: Reply, stored: Run, stored': Run, made: Artifacts)
    requires w.pc.Saving? && Fits(w.pc, reply) && SavingOk(cfg, w, w.pc.at, stored, made)
    requires RunOk(cfg, stored) && Committed(cfg, stored, made)
    requires stored' == if reply.Saved? then w.run else stored
    ensures RunOk(cfg, stored') && Committed(cfg, stored', made)
    ensures ActiveOk(cfg, Step(cfg, w, reply), stored', made)
    ensures Step(cfg, w, reply).invalid <==> FailsTwice(w, reply)
  {
    hide RunOk, Committed, OpenedKept, SaveFailed;
    if !reply.Saved? {
      SaveFailureKeeps(cfg, w, w.pc.at, stored, made);
    } else if Terminal(w.run.status) {
      assert w.pc.at in {Completed, FailedInDispatch, HandlerFailed, CheckpointFailed};
    } else {
      NowStored(cfg, w, w.pc.at, stored, made);
      SavedKeeps(cfg, w, w.pc.at, made);
    }
  }

  lemma CallSteps(cfg: Config, w: Worker, reply: Reply, stored: Run, made: Artifacts, made': Artifacts)
    requires w.pc.Calling? && Fits(w.pc, reply) && CallingOk(cfg, w, w.pc.call, stored, made)
    requires RunOk(cfg, stored) && Committed(cfg, stored, made) && Effects(w, reply, stored, stored, made, made')
    ensures Committed(cfg, stored, made') && ActiveOk(cfg, Step(cfg, w, reply), stored, made')
    ensures !Step(cfg, w, reply).invalid
  {
    var call := w.pc.call;
    assert Step(cfg, w, reply) == AfterCall(cfg, w, call, reply);
    if call.Publish? {
      Publishes(cfg, w, call.kind, reply, stored, made, made');
    } else {
      CallKeeps(cfg, w, call, reply, stored, made);
    }
  }

  /** Every await keeps the persisted run's invariant, its commitment to what exists and the worker's own invariant;
      an illegal transition is raised exactly when the save after a failed publication inside `_execute` fails. */
  lemma StepKeeps(
    cfg: Config, w: Worker, reply: Reply, stored: Run, stored': Run, made: Artifacts, made': Artifacts)
    requires Fits(w.pc, reply) && ActiveOk(cfg, w, stored, made)
    requires RunOk(cfg, stored) && Committed(cfg, stored, made) && Effects(w, reply, stored, stored', made, made')
    ensures RunOk(cfg, stored') && Committed(cfg, stored', made')
    ensures ActiveOk(cfg, Step(cfg, w, reply), stored', made')
    ensures Step(cfg, w, reply).invalid <==> FailsTwice(w, reply)
  {
    if w.pc.Saving? {
      SaveSteps(cfg, w, reply, stored, stored', made);
    } else {
      CallSteps(cfg, w, reply, stored, made, made');
    }
  }

  /** What one await may do to the persisted history. */
  predicate Follows(before: Run, after: Run) {
    && OpenedKept(before, after)
    && Attempts(before.events) <= Attempts(after.events)
    && (before.status == FailedRetryable && after.status != FailedRetryable ==>
          Attempts(after.events) == Attempts(before.events) + 1)
  }

  lemma StepFollows(
    cfg: Config, w: Worker, reply: Reply, stored: Run, stored': Run, made: Artifacts, made': Artifacts)
    requires Fits(w.pc, reply) && ActiveOk(cfg, w, stored, made) && Effects(w, reply, stored, stored', made, made')
    ensures Follows(stored, stored')
  {
  }
}
