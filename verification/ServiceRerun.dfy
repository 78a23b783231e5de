/** A restarted audit run to a publication: the continuation that turns a stale restart into a second artifact. */
module ServiceRerun {
  import opened Wrappers
  import opened Actions
  import opened AuditRuns
  import opened Candidates
  import opened Verification
  import opened Service
  import opened ServiceInvariants
  import opened ServiceSteps
  import opened ServiceGrants
  import Source

  /** The worker completes these awaits one after the other, publishing nothing, and ends as `w'`. */
  ghost predicate Reaches(cfg: Config, w: Worker, replies: seq<Reply>, w': Worker)
    decreases replies
  {
    if replies == [] then w' == w
    else
      && Fits(w.pc, replies[0]) && !(w.pc.Calling? && w.pc.call.Publish?)
      && Reaches(cfg, Step(cfg, w, replies[0]), replies[1..], w')
  }

  lemma {:induction false} ReachesAppend(
    cfg: Config, w: Worker, first: seq<Reply>, middle: Worker, rest: seq<Reply>, w': Worker)
    requires Reaches(cfg, w, first, middle) && Reaches(cfg, middle, rest, w')
    ensures Reaches(cfg, w, first + rest, w')
    decreases first
  {
    hide Step, Fits;
    if first == [] {
      assert first + rest == rest;
    } else {
      assert (first + rest)[1..] == first[1..] + rest;
      ReachesAppend(cfg, Step(cfg, w, first[0]), first[1..], middle, rest, w');
    }
  }

  lemma OneStep(cfg: Config, w: Worker, reply: Reply)
    requires Fits(w.pc, reply) && !(w.pc.Calling? && w.pc.call.Publish?)
    ensures Reaches(cfg, w, [reply], Step(cfg, w, reply))
  {
    assert [reply][1..] == [];
  }

  lemma TwoSteps(cfg: Config, w: Worker, first: Reply, second: Reply)
    requires Fits(w.pc, first) && !(w.pc.Calling? && w.pc.call.Publish?)
    requires var m := Step(cfg, w, first); Fits(m.pc, second) && !(m.pc.Calling? && m.pc.call.Publish?)
    ensures Reaches(cfg, w, [first, second], Step(cfg, Step(cfg, w, first), second))
  {
    assert [first, second][1..] == [second];
    OneStep(cfg, Step(cfg, w, first), second);
  }

  /** Where a worker of the audit stands, and what it has established so far. */
  ghost predicate At(w: Worker, at: SavePoint, status: Status, state: EventState) {
    w.pc == Saving(at) && EventsOk(w.run) && w.run.status == status && w.run.LastIs(status, state)
  }

  lemma Restart(cfg: Config, w: Worker) returns (w': Worker)
    requires w.pc == Saving(ResumeRestart) && EventsOk(w.run) && w.run.status == Received && !w.run.IsRunning()
    ensures Reaches(cfg, w, [Saved], w') && At(w', CaptureStarted, Capturing, Running)
    ensures Attempts(w'.run.events) == Attempts(w.run.events) && w'.mode == InExecute
    ensures w'.run.repository == w.run.repository
  {
    Started(w.run, Capturing);
    OneStep(cfg, w, Saved);
    w' := Step(cfg, w, Saved);
  }

  lemma CaptureRuns(cfg: Config, w: Worker, page: Source.Page) returns (replies: seq<Reply>, w': Worker)
    requires At(w, CaptureStarted, Capturing, Running)
    ensures Reaches(cfg, w, replies, w') && At(w', CompileStarted, Compiling, Running) && w'.page == Some(page)
    ensures Attempts(w'.run.events) == Attempts(w.run.events) && w'.mode == w.mode
    ensures w'.run.repository == w.run.repository
  {
    Finished(w.run);
    TwoSteps(cfg, w, Saved, CaptureOk(page));
    var m := Step(cfg, Step(cfg, w, Saved), CaptureOk(page));
    Started(m.run, Compiling);
    OneStep(cfg, m, Saved);
    w' := Step(cfg, m, Saved);
    ReachesAppend(cfg, w, [Saved, CaptureOk(page)], m, [Saved], w');
    replies := [Saved, CaptureOk(page)] + [Saved];
  }

  /** The page contains the quote, and the claim made of it is one the control covers. */
  ghost predicate Bindable(page: Source.Page, payload: Payload) {
    Source.Grounded(payload.exactQuote, Source.Captured(page)) && CanBind(ClaimFrom(page, payload))
  }

  lemma CompileRuns(cfg: Config, w: Worker, page: Source.Page, payload: Payload)
    returns (replies: seq<Reply>, w': Worker)
    requires At(w, CompileStarted, Compiling, Running) && w.page == Some(page) && Bindable(page, payload)
    ensures Reaches(cfg, w, replies, w') && At(w', ControlBound, BindingControl, Succeeded)
    ensures Attempts(w'.run.events) == Attempts(w.run.events) && w'.mode == w.mode
    ensures w'.run.repository == w.run.repository
  {
    hide Source.Grounded, Source.Captured;
    replies := [Saved, CompileOk(payload)];
    Finished(w.run.(claim := ClaimFrom(page, payload)));
    TwoSteps(cfg, w, Saved, CompileOk(payload));
    var m := Step(cfg, Step(cfg, w, Saved), CompileOk(payload));
    w' := Binds(cfg, m);
    ReachesAppend(cfg, w, replies, m, [Saved], w');
    replies := replies + [Saved];
  }

  lemma Binds(cfg: Config, w: Worker) returns (w': Worker)
    requires At(w, Compiled, Compiling, Succeeded) && CanBind(w.run.claim)
    ensures Reaches(cfg, w, [Saved], w') && At(w', ControlBound, BindingControl, Succeeded)
    ensures Attempts(w'.run.events) == Attempts(w.run.events) && w'.mode == w.mode
    ensures w'.run.repository == w.run.repository
  {
    Started(w.run, BindingControl);
    var r := StartStage(w.run, BindingControl).value;
    Finished(r.(claim := r.claim.(controlId := Some(CONTROL_ID))));
    OneStep(cfg, w, Saved);
    w' := Step(cfg, w, Saved);
  }

  lemma ProbeRuns(cfg: Config, w: Worker, evidence: seq<EvidenceItem>) returns (replies: seq<Reply>, w': Worker)
    requires At(w, ControlBound, BindingControl, Succeeded)
    ensures Reaches(cfg, w, replies, w') && At(w', Probed, Probing, Succeeded)
    ensures Attempts(w'.run.events) == Attempts(w.run.events) && w'.mode == w.mode
    ensures w'.run.repository == w.run.repository && w'.run.evidence == evidence
  {
    Started(w.run, Probing);
    OneStep(cfg, w, Saved);
    var m := Step(cfg, w, Saved);
    Finished(m.run.(evidence := evidence));
    TwoSteps(cfg, m, Saved, ProbeOk(evidence));
    w' := Step(cfg, Step(cfg, m, Saved), ProbeOk(evidence));
    ReachesAppend(cfg, w, [Saved], m, [Saved, ProbeOk(evidence)], w');
    replies := [Saved] + [Saved, ProbeOk(evidence)];
  }

  lemma Evaluates(cfg: Config, w: Worker) returns (w': Worker)
    requires At(w, Probed, Probing, Succeeded) && CalculateVerdict(w.run.evidence) == Contradicted
    ensures Reaches(cfg, w, [Saved], w') && At(w', Evaluated, Evaluating, Succeeded)
    ensures Attempts(w'.run.events) == Attempts(w.run.events) && w'.mode == w.mode
    ensures w'.run.repository == w.run.repository && w'.run.evidence == w.run.evidence && w'.run.verdict == Contradicted
  {
    Started(w.run, Evaluating);
    var r := StartStage(w.run, Evaluating).value;
    Finished(r.(verdict := CalculateVerdict(r.evidence)));
    OneStep(cfg, w, Saved);
    w' := Step(cfg, w, Saved);
  }

  /** No repair is prepared, so nothing is verified. */
  lemma RemediationRuns(cfg: Config, w: Worker) returns (replies: seq<Reply>, w': Worker)
    requires At(w, Evaluated, Evaluating, Succeeded) && w.run.verdict == Contradicted
    ensures Reaches(cfg, w, replies, w') && At(w', Remediated, Remediating, Succeeded) && w'.artifact.None?
    ensures Attempts(w'.run.events) == Attempts(w.run.events) && w'.mode == w.mode
    ensures w'.run.repository == w.run.repository && w'.run.evidence == w.run.evidence && w'.run.verdict == Contradicted
  {
    Started(w.run, Remediating);
    Finished(StartStage(w.run, Remediating).value);
    if cfg.verifierConfigured && w.run.repository.Some? {
      replies := [Saved, PrepareFailed];
      TwoSteps(cfg, w, Saved, PrepareFailed);
      w' := Step(cfg, Step(cfg, w, Saved), PrepareFailed);
    } else {
      replies := [Saved];
      OneStep(cfg, w, Saved);
      w' := Step(cfg, w, Saved);
    }
  }

  lemma Verifies(cfg: Config, w: Worker) returns (w': Worker)
    requires At(w, Remediated, Remediating, Succeeded) && w.artifact.None? && w.run.verdict == Contradicted
    ensures Reaches(cfg, w, [Saved], w') && At(w', RepairVerified, Verifying, Succeeded)
    ensures Attempts(w'.run.events) == Attempts(w.run.events) && w'.mode == w.mode
    ensures w'.run.repository == w.run.repository && w'.run.evidence == w.run.evidence && w'.run.verdict == Contradicted
    ensures w'.run.verification == Some(UNPROVEN_RECEIPT)
  {
    Started(w.run, Verifying);
    Finished(StartStage(w.run, Verifying).value.(verification := Some(UNPROVEN_RECEIPT)));
    OneStep(cfg, w, Saved);
    w' := Step(cfg, w, Saved);
  }

  lemma RoutesToIssue(cfg: Config, w: Worker) returns (w': Worker)
    requires At(w, RepairVerified, Verifying, Succeeded) && w.run.verdict == Contradicted
    requires w.run.verification == Some(UNPROVEN_RECEIPT)
    ensures Reaches(cfg, w, [Saved], w') && At(w', Routed, RoutingAction, Running) && Plan(w'.run, Blocked, Planned)
    ensures Attempts(w'.run.events) == Attempts(w.run.events) && w'.mode == w.mode
    ensures w'.run.repository == w.run.repository && w'.run.evidence == w.run.evidence
  {
    Started(w.run, RoutingAction);
    PlanIsOk(w.run.verdict, w.run.verification);
    OneStep(cfg, w, Saved);
    w' := Step(cfg, w, Saved);
  }

  lemma ReachesPublisher(cfg: Config, w: Worker) returns (w': Worker)
    requires At(w, Routed, RoutingAction, Running) && Plan(w.run, Blocked, Planned) && CanDispatch(cfg, w.run)
    ensures Reaches(cfg, w, [Saved, LeaseGranted], w')
    ensures w'.pc == Calling(Publish(Issue)) && w'.run == w.run && w'.mode == w.mode
  {
    TwoSteps(cfg, w, Saved, LeaseGranted);
    w' := Step(cfg, Step(cfg, w, Saved), LeaseGranted);
  }

  lemma AuditToRemediation(
    cfg: Config, w: Worker, page: Source.Page, payload: Payload, evidence: seq<EvidenceItem>)
    returns (replies: seq<Reply>, w': Worker)
    requires At(w, CaptureStarted, Capturing, Running)
    requires Bindable(page, payload) && CalculateVerdict(evidence) == Contradicted
    ensures Reaches(cfg, w, replies, w') && At(w', Evaluated, Evaluating, Succeeded)
    ensures Attempts(w'.run.events) == Attempts(w.run.events) && w'.mode == w.mode
    ensures w'.run.repository == w.run.repository && w'.run.evidence == evidence && w'.run.verdict == Contradicted
  {
    hide Bindable;
    var r1, w1 := CaptureRuns(cfg, w, page);
    var r2, w2 := CompileRuns(cfg, w1, page, payload);
    var r3, w3 := ProbeRuns(cfg, w2, evidence);
    w' := Evaluates(cfg, w3);
    ReachesAppend(cfg, w, r1, w1, r2, w2);
    ReachesAppend(cfg, w, r1 + r2, w2, r3, w3);
    ReachesAppend(cfg, w, r1 + r2 + r3, w3, [Saved], w');
    replies := r1 + r2 + r3 + [Saved];
  }

  lemma RemediationToIssue(cfg: Config, w: Worker) returns (replies: seq<Reply>, w': Worker)
    requires At(w, Evaluated, Evaluating, Succeeded) && w.run.verdict == Contradicted && CanDispatch(cfg, w.run)
    ensures Reaches(cfg, w, replies, w') && w'.pc == Calling(Publish(Issue))
    ensures w'.run.evidence == w.run.evidence && Attempts(w'.run.events) == Attempts(w.run.events)
    ensures w'.mode == w.mode
  {
    var r1, w1 := RemediationRuns(cfg, w);
    var w2 := Verifies(cfg, w1);
    var w3 := RoutesToIssue(cfg, w2);
    w' := ReachesPublisher(cfg, w3);
    ReachesAppend(cfg, w, r1, w1, [Saved], w2);
    ReachesAppend(cfg, w, r1 + [Saved], w2, [Saved], w3);
    ReachesAppend(cfg, w, r1 + [Saved] + [Saved], w3, [Saved, LeaseGranted], w');
    replies := r1 + [Saved] + [Saved] + [Saved, LeaseGranted];
  }

  /** A restarted audit of a promise that is broken again, whose repair is not verified, ends at the issue publisher. */
  lemma RestartToIssue(
    cfg: Config, w: Worker, page: Source.Page, payload: Payload, evidence: seq<EvidenceItem>)
    returns (replies: seq<Reply>, w': Worker)
    requires Bindable(page, payload) && CalculateVerdict(evidence) == Contradicted
    requires CanDispatch(cfg, w.run) && EventsOk(w.run)
    requires || (w.pc == Saving(ResumeRestart) && w.run.status == Received && !w.run.IsRunning())
             || At(w, CaptureStarted, Capturing, Running)
    ensures Reaches(cfg, w, replies, w') && w'.pc == Calling(Publish(Issue)) && w'.run.evidence == evidence
    ensures Attempts(w'.run.events) == Attempts(w.run.events) && (w.mode == InExecute ==> w'.mode == InExecute)
  {
    var w0, r0 := w, [];
    if w.pc == Saving(ResumeRestart) {
      w0 := Restart(cfg, w);
      r0 := [Saved];
    }
    var r1, w1 := AuditToRemediation(cfg, w0, page, payload, evidence);
    var r2, w2 := RemediationToIssue(cfg, w1);
    ReachesAppend(cfg, w, r0, w0, r1, w1);
    ReachesAppend(cfg, w, r0 + r1, w1, r2, w2);
    replies, w' := r0 + r1 + r2, w2;
  }

  // ----- From a grant to the publisher of the recorded plan.

  predicate Resumable(r: Run) {
    || (r.status == RoutingAction && r.LastIs(RoutingAction, Running))
    || (r.status == FailedRetryable && FailedDuringDispatch(r))
  }

  /** From the grant to the publisher of the plan. */
  lemma ResumeToPublisher(cfg: Config, w: Worker) returns (replies: seq<Reply>, w': Worker)
    requires w.pc == Reserved(false) && EventsOk(w.run) && Resumable(w.run) && Unpublished(cfg, w.run)
    requires w.run.status == FailedRetryable ==> Attempts(w.run.events) < MAX_RUN_ATTEMPTS
    ensures Reaches(cfg, Granted(cfg, w), replies, w') && w'.pc == Calling(Publish(PlannedKind(w.run)))
    ensures PrKeyOf(w'.run) == PrKeyOf(w.run) && IssueKeyOf(w'.run) == IssueKeyOf(w.run)
    ensures w'.run == if w.run.status == FailedRetryable then ResumeDispatch(w.run) else w.run
  {
    var granted := Granted(cfg, w);
    if w.run.status == FailedRetryable {
      OneStep(cfg, granted, Saved);
      var dispatching := Step(cfg, granted, Saved);
      var rest;
      rest, w' := DispatchToPublisher(cfg, granted);
      ReachesAppend(cfg, granted, [Saved], dispatching, rest, w');
      replies := [Saved] + rest;
    } else {
      replies, w' := DispatchToPublisher(cfg, w.(mode := Direct));
    }
  }

  lemma DispatchToPublisher(cfg: Config, w: Worker) returns (replies: seq<Reply>, w': Worker)
    requires w.run.LastIs(RoutingAction, Running) && Unpublished(cfg, w.run)
    ensures Reaches(cfg, Dispatch(cfg, w), replies, w') && w'.pc == Calling(Publish(PlannedKind(w.run)))
    ensures w'.run == w.run
  {
    var kind := PlannedKind(w.run);
    var acquiring := Dispatch(cfg, w);
    assert acquiring == w.(pc := Calling(AcquireAction(kind)));
    OneStep(cfg, acquiring, LeaseGranted);
    replies, w' := [LeaseGranted], Step(cfg, acquiring, LeaseGranted);
  }

  /** A verified repair is planned again, from its own receipt. */
  lemma Replanned(cfg: Config, w: Worker)
    requires w.pc == Reserved(false) && RunOk(cfg, w.run) && w.run.status == Verifying && CanDispatch(cfg, w.run)
    requires ProvesCandidate(w.run.verification) ==> w.run.candidate.Some?
    ensures var routed := Granted(cfg, w);
            && routed.pc == Saving(Routed) && routed.run.LastIs(RoutingAction, Running)
            && Unpublished(cfg, routed.run)
            && PlannedKind(routed.run) == (if ProvesCandidate(w.run.verification) then PullRequest else Issue)
            && PrKeyOf(routed.run) == PrKeyOf(w.run) && IssueKeyOf(routed.run) == IssueKeyOf(w.run)
  {
    Started(w.run, RoutingAction);
    PlanIsOk(w.run.verdict, w.run.verification);
    Proposed(w.run.verdict, w.run.verification, RouteStart(w.(mode := Direct)).run);
    assert Granted(cfg, w) == RouteStart(w.(mode := Direct));
  }

  /** From the grant over a verified repair to the publisher. */
  lemma RouteToPublisher(cfg: Config, w: Worker) returns (replies: seq<Reply>, w': Worker)
    requires w.pc == Reserved(false) && RunOk(cfg, w.run) && w.run.status == Verifying && CanDispatch(cfg, w.run)
    requires ProvesCandidate(w.run.verification) ==> w.run.candidate.Some?
    ensures Reaches(cfg, Granted(cfg, w), replies, w')
    ensures w'.pc == Calling(Publish(if ProvesCandidate(w.run.verification) then PullRequest else Issue))
    ensures PrKeyOf(w'.run) == PrKeyOf(w.run) && IssueKeyOf(w'.run) == IssueKeyOf(w.run)
  {
    hide RunOk, Granted, Dispatch, Unpublished, ProvesCandidate;
    Replanned(cfg, w);
    var routed := Granted(cfg, w);
    RoutedSaves(cfg, routed);
    var rest;
    rest, w' := DispatchToPublisher(cfg, routed);
    ReachesAppend(cfg, routed, [Saved], Dispatch(cfg, routed), rest, w');
    replies := [Saved] + rest;
  }

  lemma RoutedSaves(cfg: Config, w: Worker)
    requires w.pc == Saving(Routed)
    ensures Reaches(cfg, w, [Saved], Dispatch(cfg, w))
  {
    OneStep(cfg, w, Saved);
    assert Step(cfg, w, Saved) == Dispatch(cfg, w);
    hide Step, Dispatch;
  }

  // ----- A run without a route whose completion cannot be saved: a retry audits it from the beginning.

  ghost predicate Unrouted(r: Run) {
    EventsOk(r) && !r.IsRunning() && Plan(r, Skipped, Skipped) && Attempts(r.events) < MAX_RUN_ATTEMPTS
  }

  lemma CompletionLost(cfg: Config, w: Worker) returns (replies: seq<Reply>, w': Worker)
    requires w.mode == Direct && RunOk(cfg, w.run) && w.run.status == RoutingAction && Plan(w.run, Skipped, Skipped)
    requires Attempts(w.run.events) < MAX_RUN_ATTEMPTS
    ensures Reaches(cfg, Dispatch(cfg, w), replies, w') && w'.pc == Saving(CheckpointFailed)
    ensures Unrouted(w'.run) && w'.run.status == FailedRetryable && w'.run.repository == w.run.repository
  {
    if w.run.LastIs(RoutingAction, Succeeded) {
      hide CompleteStart;
      assert Dispatch(cfg, w) == CompleteStart(w);
      hide Dispatch, RunOk;
      w' := CompletionFails(cfg, w);
      replies := [OtherError];
    } else {
      SettlesUnrouted(cfg, w);
      var settled := Dispatch(cfg, w);
      hide Dispatch, RunOk, CompleteStart;
      w' := CompletionFails(cfg, settled);
      ReachesAppend(cfg, settled, [Saved], CompleteStart(settled), [OtherError], w');
      replies := [Saved] + [OtherError];
    }
  }

  lemma SettlesUnrouted(cfg: Config, w: Worker)
    requires w.mode == Direct && w.run.status == RoutingAction
    requires EventsOk(w.run) && w.run.LastIs(RoutingAction, Running)
    requires Plan(w.run, Skipped, Skipped) && Attempts(w.run.events) < MAX_RUN_ATTEMPTS
    ensures var settled := Dispatch(cfg, w);
            && Unrouted(settled.run) && settled.run.status == RoutingAction && settled.mode == Direct
            && settled.run.repository == w.run.repository
            && Reaches(cfg, settled, [Saved], CompleteStart(settled))
  {
    Finished(w.run);
    assert Dispatch(cfg, w) == End(w, Saving(Settled));
    SettledSaves(cfg, End(w, Saving(Settled)));
  }

  lemma SettledSaves(cfg: Config, w: Worker)
    requires w.pc == Saving(Settled)
    ensures Reaches(cfg, w, [Saved], CompleteStart(w))
  {
    OneStep(cfg, w, Saved);
    assert Step(cfg, w, Saved) == CompleteStart(w);
    hide Step, CompleteStart;
  }

  lemma CompletionFails(cfg: Config, w: Worker) returns (w': Worker)
    requires w.mode == Direct && Unrouted(w.run) && w.run.status == RoutingAction
    ensures Reaches(cfg, CompleteStart(w), [OtherError], w') && w'.pc == Saving(CheckpointFailed)
    ensures Unrouted(w'.run) && w'.run.status == FailedRetryable && w'.run.repository == w.run.repository
  {
    CompletionStarts(w);
    var done := CompleteStart(w);
    hide CompleteStart, CompleteFailed, Unrouted, Step;
    FailureRecorded(done);
    SaveIsLost(cfg, done);
    w' := CompleteFailed(done);
  }

  lemma SaveIsLost(cfg: Config, w: Worker)
    requires w.pc == Saving(Completed)
    ensures Reaches(cfg, w, [OtherError], CompleteFailed(w))
  {
    OneStep(cfg, w, OtherError);
    assert Step(cfg, w, OtherError) == CompleteFailed(w);
    hide Step, CompleteFailed;
  }

  lemma CompletionStarts(w: Worker)
    requires w.mode == Direct && Unrouted(w.run) && w.run.status == RoutingAction
    ensures var done := CompleteStart(w);
            && done.pc == Saving(Completed) && done.mode == Direct && Unrouted(done.run)
            && done.run.LastIs(Complete, Succeeded) && done.run.repository == w.run.repository
  {
    Started(w.run, Complete);
    Finished(StartStage(w.run, Complete).value);
  }

  lemma FailureRecorded(w: Worker)
    requires Unrouted(w.run) && w.run.LastIs(Complete, Succeeded)
    ensures var failed := CompleteFailed(w);
            && failed.pc == Saving(CheckpointFailed) && Unrouted(failed.run)
            && failed.run.status == FailedRetryable && failed.run.repository == w.run.repository
  {
    var routed := w.run.(status := RoutingAction);
    LastSet(routed, Failed);
    hide FailRetryable;
    FailRetryableKeeps(routed.SetLast(Failed), true);
  }

  // ----- A network error that leaves attempts.

  lemma FailsRetryably(w: Worker)
    requires EventsOk(w.run) && !Terminal(w.run.status) && Attempts(w.run.events) < MAX_RUN_ATTEMPTS
    ensures var h := Handle(w, Network);
            && h.pc == Saving(HandlerFailed) && h.run.status == FailedRetryable && AimOf(h.run) == Anything
            && EventsOk(h.run) && !FailedDuringDispatch(h.run)
            && Attempts(h.run.events) == Attempts(w.run.events)
  {
    hide FailRetryable, FailRun;
    FailRetryableKeeps(w.run.(verdict := Inconclusive), false);
    Handled(w, Network);
    NetworkRetries(w);
    NothingToDispatch(Handle(w, Network).run, w.run.verification);
  }

  lemma NetworkRetries(w: Worker)
    requires EventsOk(w.run) && !Terminal(w.run.status) && Attempts(w.run.events) < MAX_RUN_ATTEMPTS
    ensures Handle(w, Network).run.status == FailedRetryable
  {
    hide FailRetryable, FailRun, PlanActions;
    FailRetryableKeeps(w.run.(verdict := Inconclusive), false);
    PlanIsOk(Inconclusive, w.run.verification);
  }

  lemma NothingToDispatch(r: Run, receipt: Option<Receipt>)
    requires r.actions == Propose(Inconclusive, receipt, 1, false)
    ensures !FailedDuringDispatch(r)
  {
    assert forall i :: 0 <= i < |r.actions| ==> r.actions[i].state == Skipped;
  }
}
