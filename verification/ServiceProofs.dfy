/** The evidence a run carries: along every step, a proving receipt stays bound to the checkpointed candidate. */
module ServiceProofs {
  import opened Wrappers
  import opened Actions
  import opened AuditRuns
  import opened Candidates
  import opened Verification
  import opened Service
  import opened ServiceInvariants

  /** Whatever receipt proves a candidate comes with the bound, reloadable bytes of that candidate. */
  ghost predicate ProofOk(r: Run) {
    && Storable(r) && (ProvesCandidate(r.verification) ==> Evidenced(r.verification, r.candidate))
    && (r.candidate.Some? ==> FromVerifiedCandidate(r.candidate.value.Input()) == r.candidate)
  }

  /** A step leaves the receipt and the candidate alone; no step changes the key or the repository or goes back to
      waiting for the lease. */
  predicate SameProof(w: Worker, w': Worker) {
    Moves(w, w') && w'.run.verification == w.run.verification && w'.run.candidate == w.run.candidate
  }

  predicate Moves(w: Worker, w': Worker) {
    w'.run.key == w.run.key && w'.run.repository == w.run.repository && !w'.pc.Reserved?
  }

  /** The receipt is untouched, withdrawn, or the fixed receipt that proves nothing. */
  predicate NoNewProof(w: Worker, w': Worker) {
    && Moves(w, w')
    && (w'.run.verification in {w.run.verification, None, Some(UNPROVEN_RECEIPT)})
    && (w'.run.candidate == w.run.candidate
        || (w'.run.candidate == None && w'.run.verification in {None, Some(UNPROVEN_RECEIPT)}))
  }

  lemma NoNewProofKeeps(w: Worker, w': Worker)
    requires ProofOk(w.run) && NoNewProof(w, w')
    ensures ProofOk(w'.run)
  {
  }

  lemma FailedProof(r: Run, status: Status, retryable: bool, uncertain: bool)
    ensures var failed := FailRun(r, status, retryable, uncertain);
            failed.Ok? ==>
              && failed.value.key == r.key && failed.value.repository == r.repository
              && failed.value.verification == r.verification && failed.value.candidate == r.candidate
  {
  }

  lemma RaiseProof(w: Worker, e: Exception)
    ensures SameProof(w, Raise(w, e))
  {
    hide FailRun;
    var exhausted := Attempts(w.run.events) >= MAX_RUN_ATTEMPTS;
    FailedProof(w.run, if exhausted then FailedSafe else FailedRetryable, !exhausted, true);
    var abstained := w.run.(verdict := Inconclusive);
    FailedProof(abstained, if exhausted then FailedSafe else FailedRetryable, !exhausted, false);
    FailedProof(abstained, FailedSafe, false, false);
  }

  lemma StageProof(w: Worker, status: Status, next: Pc)
    requires !next.Reserved?
    ensures SameProof(w, Begin(w, status, next)) && SameProof(w, End(w, next))
  {
    RaiseProof(w.(invalid := true), Unexpected);
  }

  lemma RouteProof(w: Worker)
    ensures SameProof(w, RouteStart(w))
  {
    RaiseProof(w.(invalid := true), Unexpected);
    if StartStage(w.run, RoutingAction).Ok? {
      RaiseProof(w.(run := StartStage(w.run, RoutingAction).value), Unexpected);
    }
  }

  lemma BindProof(w: Worker)
    ensures SameProof(w, BindStart(w))
  {
    RaiseProof(w.(invalid := true), Unexpected);
    if StartStage(w.run, BindingControl).Ok? {
      var r := StartStage(w.run, BindingControl).value;
      RaiseProof(w.(run := r, invalid := true), Unexpected);
      StageProof(w.(run := r.(claim := r.claim.(controlId := Some(CONTROL_ID)))), BindingControl, Saving(ControlBound));
      if FinishStage(r.(verdict := NotTested)).Ok? {
        RouteProof(w.(run := FinishStage(r.(verdict := NotTested)).value));
      }
    }
  }

  lemma EvaluateProof(cfg: Config, w: Worker)
    ensures SameProof(w, EvaluateStart(w)) && SameProof(w, AfterEvaluated(cfg, w))
  {
    RaiseProof(w.(invalid := true), Unexpected);
    RouteProof(w);
    if StartStage(w.run, Evaluating).Ok? {
      var r := StartStage(w.run, Evaluating).value;
      StageProof(w.(run := r.(verdict := CalculateVerdict(r.evidence))), Evaluating, Saving(Evaluated));
    }
    if StartStage(w.run, Remediating).Ok? {
      StageProof(w.(run := StartStage(w.run, Remediating).value, artifact := None), Remediating, Saving(Remediated));
    }
  }

  lemma VerifyStartProof(cfg: Config, w: Worker)
    ensures NoNewProof(w, VerifyStart(cfg, w))
  {
    RaiseProof(w.(invalid := true), Unexpected);
    if StartStage(w.run, Verifying).Ok? {
      var r := StartStage(w.run, Verifying).value;
      StageProof(w.(run := r.(verification := Some(UNPROVEN_RECEIPT))), Verifying, Saving(RepairVerified));
    }
  }

  lemma CompleteProof(w: Worker)
    ensures SameProof(w, CompleteStart(w)) && SameProof(w, CompleteFailed(w))
  {
    RaiseProof(w.(invalid := true), Unexpected);
    if StartStage(w.run, Complete).Ok? {
      StageProof(w.(run := StartStage(w.run, Complete).value), Complete, Saving(Completed));
    }
    var routed := w.run.(status := RoutingAction);
    var restored := if routed.events != [] && routed.Last().stage == Complete then routed.SetLast(Failed) else routed;
    RaiseProof(w.(run := restored), CompletionCheckpoint);
  }

  lemma DispatchProof(cfg: Config, w: Worker)
    ensures SameProof(w, Dispatch(cfg, w)) && SameProof(w, IssuePart(cfg, w))
  {
    CompleteProof(w);
    StageProof(w, Complete, Saving(Settled));
  }

  lemma FailInDispatchProof(w: Worker, failed: Result<Run, Failure>)
    requires failed.Ok? ==> SameProof(w, w.(run := failed.value, pc := Releasing))
    ensures SameProof(w, FailInDispatch(w, failed))
  {
    RaiseProof(w.(invalid := true), Unexpected);
  }

  lemma PublishProof(w: Worker, kind: ActionKind, reply: Reply)
    ensures SameProof(w, AfterPublish(w, kind, reply))
  {
    hide Raise, FailRun, FailInDispatch, End;
    RaiseProof(w, Network);
    RaiseProof(w, Unexpected);
    match reply
    case PublishConfirmed(url) =>
      if |w.run.actions| == 3 {
        StageProof(w.(run := MarkOpened(w.run, kind, url)), Complete, Saving(ActionOpened(kind)));
      }
    case PublishUncertain =>
      var exhausted := Attempts(w.run.events) >= MAX_RUN_ATTEMPTS;
      FailedProof(w.run, if exhausted then FailedSafe else FailedRetryable, !exhausted, true);
      FailInDispatchProof(w, FailRetryable(w.run, true));
    case PublishRefused =>
      FailedProof(w.run, FailedSafe, false, false);
      FailInDispatchProof(w, FailRun(w.run, FailedSafe, false, false));
    case _ =>
  }

  lemma SavedProof(cfg: Config, w: Worker, at: SavePoint)
    ensures NoNewProof(w, AfterSave(cfg, w, at))
  {
    match at
    case ResumeRestart => StageProof(w.(mode := InExecute), Capturing, Saving(CaptureStarted));
    case Captured => StageProof(w, Compiling, Saving(CompileStarted));
    case ControlBound => StageProof(w, Probing, Saving(ProbeStarted));
    case Compiled => BindProof(w);
    case Probed => EvaluateProof(cfg, w);
    case Evaluated => EvaluateProof(cfg, w);
    case Remediated => VerifyStartProof(cfg, w);
    case RepairVerified => RouteProof(w);
    case ResumeAction | Routed | FallbackInline | FallbackAfterPublisher => DispatchProof(cfg, w);
    case Settled | ActionOpened(_) => CompleteProof(w);
    case _ =>
  }

  lemma SaveFailedProof(w: Worker, at: SavePoint)
    ensures SameProof(w, SaveFailed(w, at))
  {
    RaiseProof(w, Unexpected);
    match at
    case ActionOpened(kind) => RaiseProof(w, ExternalCheckpoint(kind));
    case Completed => CompleteProof(w);
    case _ =>
  }

  /** The only place where proof appears: a publishable outcome whose receipt and checkpoint were both built. */
  lemma RecordedProof(r: Run, artifact: Artifact, submission: BuildSubmission, snapshot: BuildSnapshot)
    requires Approved(artifact)
    ensures ProofOk(RecordOutcome(r, Interpret(PUBLIC_REPOSITORY_URL, artifact, submission, snapshot)))
  {
    var o := Interpret(PUBLIC_REPOSITORY_URL, artifact, submission, snapshot);
    RecordedCheckpoint(r, o);
    hide BuildCheckpoint;
    if o.Publishable() && ToReceipt(o).Some? && FromVerifiedCandidate(InputOfCandidate(o.candidate.value)).Some? {
      ProofReachesPublisher(artifact, submission, snapshot, o);
    } else if ToReceipt(o).Some? && !o.Publishable() {
      assert !ToReceipt(o).value.publishable;
    }
  }

  /** A checkpoint that was built is the one that is built again from what it gives back. */
  lemma RecordedCheckpoint(r: Run, o: Outcome)
    ensures var recorded := RecordOutcome(r, o).candidate;
            recorded.Some? ==> recorded.value.Valid() && FromVerifiedCandidate(recorded.value.Input()) == recorded
  {
    if RecordOutcome(r, o).candidate.Some? {
      CheckpointRoundTrip(InputOfCandidate(o.candidate.value));
    }
  }

  lemma StoppedProof(r: Run, decision: Decision, code: FailureCode, evidence: Option<Evidence>)
    ensures ProofOk(RecordOutcome(r, Stopped(decision, code, evidence)))
  {
    assert !ToReceipt(Stopped(decision, code, evidence)).value.publishable;
  }

  lemma RecordedSame(r: Run, o: Outcome)
    ensures RecordOutcome(r, o).key == r.key && RecordOutcome(r, o).repository == r.repository
  {
  }

  lemma UnprovenProof(r: Run)
    ensures ProofOk(r.(verification := Some(UNPROVEN_RECEIPT), candidate := None))
  {
  }

  /** Closing the verification stage keeps whatever was recorded. */
  lemma EndedProof(w: Worker, r: Run)
    requires ProofOk(r) && r.key == w.run.key && r.repository == w.run.repository
    ensures var ended := End(w.(run := r), Saving(RepairVerified)); ProofOk(ended.run) && Moves(w, ended)
  {
    StageProof(w.(run := r), Verifying, Saving(RepairVerified));
    NoNewProofKeeps(w.(run := r), End(w.(run := r), Saving(RepairVerified)));
  }

  lemma VerifiedProof(w: Worker, artifact: Artifact, reply: Reply)
    requires Approved(artifact)
    ensures ProofOk(AfterVerify(w, artifact, reply).run) && Moves(w, AfterVerify(w, artifact, reply))
  {
    hide RecordOutcome, End, ProofOk, Moves, Approved, Interpret;
    match reply
    case VerifyInterpreted(submission, snapshot) =>
      var o := Interpret(PUBLIC_REPOSITORY_URL, artifact, submission, snapshot);
      RecordedProof(w.run, artifact, submission, snapshot);
      RecordedSame(w.run, o);
      EndedProof(w, RecordOutcome(w.run, o));
    case VerifyStopped(decision, code, evidence) =>
      StoppedProof(w.run, decision, code, evidence);
      RecordedSame(w.run, Stopped(decision, code, evidence));
      EndedProof(w, RecordOutcome(w.run, Stopped(decision, code, evidence)));
    case _ =>
      UnprovenProof(w.run);
      EndedProof(w, w.run.(verification := Some(UNPROVEN_RECEIPT), candidate := None));
  }

  lemma CalledProof(cfg: Config, w: Worker, call: Call, reply: Reply)
    requires !call.Verify?
    ensures SameProof(w, AfterCall(cfg, w, call, reply))
  {
    RaiseProof(w, Network);
    RaiseProof(w, Unexpected);
    match call
    case Capture =>
      if reply.CaptureOk? { StageProof(w.(page := Some(reply.page)), Capturing, Saving(Captured)); }
    case Compile => CompiledProof(cfg, w, reply);
    case Probe =>
      if reply.ProbeOk? { StageProof(w.(run := w.run.(evidence := reply.evidence)), Probing, Saving(Probed)); }
    case Prepare =>
      StageProof(w, Remediating, Saving(Remediated));
      if reply.PrepareOk? { StageProof(w.(artifact := Some(reply.artifact)), Remediating, Saving(Remediated)); }
    case Publish(kind) => PublishProof(w, kind, reply);
    case _ =>
  }

  lemma CompiledProof(cfg: Config, w: Worker, reply: Reply)
    ensures SameProof(w, AfterCall(cfg, w, Compile, reply))
  {
    RaiseProof(w, Network);
    RaiseProof(w, Unexpected);
    match reply
    case CompileOk(payload) =>
      if w.page.Some? {
        var compiled := w.(run := w.run.(claim := ClaimFrom(w.page.value, payload)));
        RaiseProof(compiled, CompileError(false));
        StageProof(compiled, Compiling, Saving(Compiled));
      }
    case CompileFailed(retryable) => RaiseProof(w, CompileError(retryable));
    case _ =>
  }

  /** Along every await, with any build, any reply and any failure, proof stays attached to its evidence. */
  lemma StepProof(cfg: Config, w: Worker, reply: Reply)
    requires Fits(w.pc, reply) && ProofOk(w.run)
    requires w.pc.Calling? && w.pc.call.Verify? ==> Approved(w.pc.call.artifact)
    ensures ProofOk(Step(cfg, w, reply).run) && Moves(w, Step(cfg, w, reply))
  {
    match w.pc
    case Saving(at) =>
      SavedProof(cfg, w, at);
      SaveFailedProof(w, at);
      NoNewProofKeeps(w, Step(cfg, w, reply));
    case Calling(call) =>
      if call.Verify? {
        VerifiedProof(w, call.artifact, reply);
      } else {
        CalledProof(cfg, w, call, reply);
        NoNewProofKeeps(w, Step(cfg, w, reply));
      }
  }

  lemma ResumedProof(w: Worker, pc: Pc)
    requires !pc.Reserved?
    ensures NoNewProof(w, w.(mode := Direct, run := ResetInterrupted(w.run), pc := pc))
    ensures NoNewProof(w, w.(mode := Direct, run := ResumeDispatch(w.run), pc := pc))
  {
  }

  lemma GrantProof(cfg: Config, w: Worker)
    requires w.pc.Reserved? && ProofOk(w.run)
    ensures ProofOk(Granted(cfg, w).run) && Moves(w, Granted(cfg, w))
  {
    var granted := Granted(cfg, w);
    if w.pc.created {
      StageProof(w.(mode := InExecute), Capturing, Saving(CaptureStarted));
    } else if w.run.status == RoutingAction {
      DispatchProof(cfg, w.(mode := Direct));
    } else if w.run.status == Verifying && w.run.verification.Some? {
      RouteProof(w.(mode := Direct));
    } else {
      ResumedProof(w, Saving(ResumeAction));
      ResumedProof(w, Saving(ResumeRestart));
    }
    NoNewProofKeeps(w, granted);
  }
}
