/** What an audit may go on to say about a page: in every history, every run past compilation, and every artifact, goes
    back to a compiled quote that the captured page contains. */
module ServiceGrounding {
  import opened Wrappers
  import opened Actions
  import opened AuditRuns
  import opened Candidates
  import opened Verification
  import opened Service
  import opened ServiceInvariants
  import opened ServiceSteps
  import opened ServiceProofs
  import opened ServiceProtocol
  import opened ServiceRuns
  import Source
  import VisibleText

  // ----- What a history has compiled.

  /** One answer of the compiler: in which audit attempt, on which page, and with which quote. */
  datatype Compilation = Compilation(audit: nat, page: Source.Page, quote: string)

  predicate StartsAudit(e: Event) {
    e.title in {AuditStarted, AuditResumed}
  }

  /** The audit attempts in a run's event trail; resuming a dispatch is not one. */
  function Audits(events: seq<Event>): nat {
    if events == [] then 0
    else Audits(events[..|events| - 1]) + if StartsAudit(events[|events| - 1]) then 1 else 0
  }

  function CompiledBy(s: World, a: Action): set<Compilation> {
    if a.Advance? && a.reply.CompileOk? && a.worker in s.workers && s.workers[a.worker].page.Some? then
      {Compilation(
         Audits(s.workers[a.worker].run.events), s.workers[a.worker].page.value, a.reply.payload.exactQuote)}
    else {}
  }

  ghost function Compilations(cfg: Config, s: World, actions: seq<Action>): set<Compilation>
    requires Happens(cfg, s, actions)
    decreases actions
  {
    if actions == [] then {}
    else CompiledBy(s, actions[0]) + Compilations(cfg, Perform(cfg, s, actions[0]), actions[1..])
  }

  /** The page was captured in the history. */
  predicate CapturedIn(actions: seq<Action>, page: Source.Page) {
    exists i :: 0 <= i < |actions| && actions[i].Advance? && actions[i].reply == CaptureOk(page)
  }

  // ----- What a run rests on.

  predicate HasRoute(r: Run) {
    exists i :: 0 <= i < |r.actions| && Selected(r.actions[i])
  }

  /** The run is past compilation: its claim has been taken for a quote of the page. */
  predicate Past(r: Run) {
    || r.status in {BindingControl, Probing, Evaluating, Remediating, Verifying, RoutingAction, Complete}
    || (r.status == Compiling && !r.IsRunning())
    || HasRoute(r)
  }

  /** The claim is the grounded quote of that compilation, made in the run's present audit attempt. */
  ghost predicate Grounds(c: Compilation, r: Run) {
    && c.audit == Audits(r.events)
    && c.quote == r.claim.exactQuote && c.page.url == r.claim.sourceUrl && c.page.contentHash == r.claim.contentHash
    && Source.Grounded(c.quote, Source.Captured(c.page))
  }

  ghost predicate Rests(log: set<Compilation>, r: Run) {
    Past(r) ==> exists c :: c in log && Grounds(c, r)
  }

  /** `next` is not further than `r`, or rests on the same claim in the same attempt. */
  predicate Goes(r: Run, next: Run) {
    Past(next) ==>
      && Past(r) && Audits(next.events) == Audits(r.events)
      && next.claim.exactQuote == r.claim.exactQuote
      && next.claim.sourceUrl == r.claim.sourceUrl && next.claim.contentHash == r.claim.contentHash
  }

  lemma GoesRests(log: set<Compilation>, log': set<Compilation>, r: Run, next: Run)
    requires Rests(log, r) && Goes(r, next) && log <= log'
    ensures Rests(log', next)
  {
    hide Past, Audits, Source.Grounded, Source.Captured;
    if Past(next) {
      var c :| c in log && Grounds(c, r);
      assert Grounds(c, next);
    }
  }

  // ----- Edits of a run.

  lemma AuditsSet(r: Run, state: EventState)
    requires r.events != []
    ensures Audits(r.SetLast(state).events) == Audits(r.events)
  {
    assert r.SetLast(state).events[..|r.events| - 1] == r.events[..|r.events| - 1];
  }

  lemma AuditsAppended(r: Run, stage: Status, state: EventState, title: Title)
    ensures Audits(r.Append(stage, state, title).events)
            == Audits(r.events) + if title in {AuditStarted, AuditResumed} then 1 else 0
  {
    assert r.Append(stage, state, title).events[..|r.events|] == r.events;
  }

  lemma FailedGoes(r: Run, status: Status, retryable: bool, uncertain: bool)
    ensures var failed := FailRun(r, status, retryable, uncertain);
            failed.Ok? ==>
              && Goes(r, failed.value) && Audits(failed.value.events) == Audits(r.events)
              && failed.value.status in {FailedRetryable, FailedSafe} && failed.value.actions == r.actions
              && failed.value.claim == r.claim && failed.value.verdict == r.verdict
              && failed.value.verification == r.verification
  {
    if r.IsRunning() {
      AuditsSet(r, Failed);
    }
    AuditsAppended(r, status, Failed, StoppedSafely);
    hide Audits;
  }

  /** A stage that is opened is past compilation only if the run was, or had just finished compiling. */
  lemma StartedGoes(r: Run, status: Status)
    requires status == BindingControl ==> !r.IsRunning()
    ensures StartStage(r, status).Ok? ==> Goes(r, StartStage(r, status).value)
  {
    AuditsAppended(r, status, Running, StageTitle);
    hide Audits;
  }

  lemma FinishedGoes(r: Run)
    requires r.status != Compiling
    ensures FinishStage(r).Ok? ==> Goes(r, FinishStage(r).value)
  {
    if r.IsRunning() {
      AuditsSet(r, Succeeded);
    }
    hide Audits;
  }

  lemma GoesOn(a: Run, b: Run, c: Run)
    requires Goes(a, b) && Goes(b, c)
    ensures Goes(a, c)
  {
    hide Past, Audits;
  }

  lemma NoRoute(receipt: Option<Receipt>)
    ensures forall i :: 0 <= i < |Propose(Inconclusive, receipt, 1, false)| ==>
              !Selected(Propose(Inconclusive, receipt, 1, false)[i])
  {
  }

  lemma WrapGoes(w: Worker, known: Limitation)
    ensures Goes(w.run, Wrap(w, known).run)
  {
    var exhausted := Attempts(w.run.events) >= MAX_RUN_ATTEMPTS;
    FailedGoes(w.run, if exhausted then FailedSafe else FailedRetryable, !exhausted, true);
    hide FailRun, Audits, Attempts;
  }

  lemma HandleGoes(w: Worker, e: Exception)
    ensures Goes(w.run, Handle(w, e).run)
  {
    var r := w.run.(verdict := Inconclusive);
    var exhausted := Attempts(r.events) >= MAX_RUN_ATTEMPTS;
    FailedGoes(r, if exhausted then FailedSafe else FailedRetryable, !exhausted, false);
    FailedGoes(r, FailedSafe, false, false);
    PlanIsOk(Inconclusive, r.verification);
    NoRoute(r.verification);
    hide FailRun, Audits, Attempts, Propose, PlanActions;
  }

  lemma RaiseGoes(w: Worker, e: Exception)
    ensures Goes(w.run, Raise(w, e).run)
  {
    HandleGoes(w, e);
    if e.ExternalCheckpoint? {
      WrapGoes(w, ConfirmedButNotCheckpointed(e.kind));
    } else if e.CompletionCheckpoint? {
      WrapGoes(w, FinalCheckpointPending(AnyOpened(w.run)));
    }
    hide Handle, Wrap, Past, Audits;
  }

  lemma BeginGoes(w: Worker, status: Status, next: Pc)
    requires status == BindingControl ==> !w.run.IsRunning()
    ensures Goes(w.run, Begin(w, status, next).run)
  {
    StartedGoes(w.run, status);
    RaiseGoes(w.(invalid := true), Unexpected);
    hide Past, Audits, Raise;
  }

  lemma EndGoes(w: Worker, next: Pc)
    requires w.run.status != Compiling
    ensures Goes(w.run, End(w, next).run)
  {
    FinishedGoes(w.run);
    RaiseGoes(w.(invalid := true), Unexpected);
    hide Past, Audits, Raise;
  }

  /** A run whose status and event trail stay is as far as it was. */
  lemma EditedGoes(r: Run, next: Run)
    requires next.status == r.status && next.events == r.events && next.claim == r.claim && next.actions == r.actions
    ensures Goes(r, next)
  {
  }

  lemma RouteGoes(w: Worker)
    ensures Goes(w.run, RouteStart(w).run)
  {
    StartedGoes(w.run, RoutingAction);
    RaiseGoes(w.(invalid := true), Unexpected);
    if StartStage(w.run, RoutingAction).Ok? {
      var r := StartStage(w.run, RoutingAction).value;
      RaiseGoes(w.(run := r), Unexpected);
      GoesOn(w.run, r, Raise(w.(run := r), Unexpected).run);
      RoutingIsPast(w.run, r);
    }
    hide Audits, Raise, PlanActions;
  }

  /** A run in routing is past compilation whatever is planned. */
  lemma RoutingIsPast(r: Run, routed: Run)
    requires StartStage(r, RoutingAction) == Ok(routed)
    ensures Past(r) && routed.status == RoutingAction && routed.claim == r.claim
    ensures Audits(routed.events) == Audits(r.events)
  {
    AuditsAppended(r, RoutingAction, Running, StageTitle);
  }

  lemma BindGoes(w: Worker)
    requires !w.run.IsRunning()
    ensures Goes(w.run, BindStart(w).run)
  {
    StartedGoes(w.run, BindingControl);
    RaiseGoes(w.(invalid := true), Unexpected);
    if StartStage(w.run, BindingControl).Ok? {
      var r := StartStage(w.run, BindingControl).value;
      BoundGoes(w, r);
      AbstainGoes(w, r);
      hide Raise, End, RouteStart, Past, Audits;
      GoesOn(w.run, r, BindStart(w).run);
    }
    hide Raise, End, RouteStart, Past, Audits;
  }

  lemma BoundGoes(w: Worker, r: Run)
    requires r.status == BindingControl
    ensures var matched := r.(claim := r.claim.(controlId := Some(CONTROL_ID)));
            Goes(r, End(w.(run := matched), Saving(ControlBound)).run)
  {
    var matched := r.(claim := r.claim.(controlId := Some(CONTROL_ID)));
    EndGoes(w.(run := matched), Saving(ControlBound));
    MatchedGoes(r, matched);
    hide Past, Audits, End;
    GoesOn(r, matched, End(w.(run := matched), Saving(ControlBound)).run);
  }

  lemma MatchedGoes(r: Run, matched: Run)
    requires matched == r.(claim := r.claim.(controlId := matched.claim.controlId))
    ensures Goes(r, matched)
  {
  }

  lemma AbstainGoes(w: Worker, r: Run)
    requires r.status == BindingControl
    ensures var finished := FinishStage(r.(verdict := NotTested));
            if finished.Err? then Goes(r, RaiseInvalid(w.(run := r)).run)
            else Goes(r, RouteStart(w.(run := finished.value)).run)
  {
    var abstained := r.(verdict := NotTested);
    RaiseGoes(w.(run := r, invalid := true), Unexpected);
    FinishedGoes(abstained);
    if FinishStage(abstained).Ok? {
      var done := FinishStage(abstained).value;
      EditedGoes(r, abstained);
      RouteGoes(w.(run := done));
      hide Past, Audits, Raise, RouteStart;
      GoesOn(r, abstained, done);
      GoesOn(r, done, RouteStart(w.(run := done)).run);
    }
    hide Past, Audits, Raise, RouteStart;
  }

  lemma EvaluateGoes(w: Worker)
    ensures Goes(w.run, EvaluateStart(w).run)
  {
    StartedGoes(w.run, Evaluating);
    RaiseGoes(w.(invalid := true), Unexpected);
    if StartStage(w.run, Evaluating).Ok? {
      var r := StartStage(w.run, Evaluating).value;
      var judged := r.(verdict := CalculateVerdict(r.evidence));
      EditedGoes(r, judged);
      EndGoes(w.(run := judged), Saving(Evaluated));
      hide Past, Audits, Raise, End;
      GoesOn(w.run, r, judged);
      GoesOn(w.run, judged, End(w.(run := judged), Saving(Evaluated)).run);
    }
    hide Past, Audits, Raise, End;
  }

  lemma RemediateGoes(cfg: Config, w: Worker)
    ensures Goes(w.run, AfterEvaluated(cfg, w).run)
  {
    StartedGoes(w.run, Remediating);
    RaiseGoes(w.(invalid := true), Unexpected);
    RouteGoes(w);
    if StartStage(w.run, Remediating).Ok? {
      var r := StartStage(w.run, Remediating).value;
      EndGoes(w.(run := r, artifact := None), Saving(Remediated));
      hide Past, Audits, Raise, End, RouteStart;
      GoesOn(w.run, r, End(w.(run := r, artifact := None), Saving(Remediated)).run);
    }
    hide Past, Audits, Raise, End, RouteStart;
  }

  lemma VerifyGoes(cfg: Config, w: Worker)
    ensures Goes(w.run, VerifyStart(cfg, w).run)
  {
    StartedGoes(w.run, Verifying);
    RaiseGoes(w.(invalid := true), Unexpected);
    if StartStage(w.run, Verifying).Ok? {
      var r := StartStage(w.run, Verifying).value;
      var unproven := r.(verification := Some(UNPROVEN_RECEIPT));
      EditedGoes(r, unproven);
      EndGoes(w.(run := unproven), Saving(RepairVerified));
      hide Past, Audits, Raise, End;
      GoesOn(w.run, r, unproven);
      GoesOn(w.run, unproven, End(w.(run := unproven), Saving(RepairVerified)).run);
    }
    hide Past, Audits, Raise, End;
  }

  lemma VerifiedGoes(w: Worker, artifact: Artifact, reply: Reply)
    requires w.run.status != Compiling
    ensures Goes(w.run, AfterVerify(w, artifact, reply).run)
  {
    hide RecordOutcome, Interpret, Stopped, Past, Audits, End;
    forall o: Outcome ensures Goes(w.run, RecordOutcome(w.run, o)) && RecordOutcome(w.run, o).status == w.run.status {
      RecordedGoes(w.run, o);
    }
    EditedGoes(w.run, w.run.(verification := Some(UNPROVEN_RECEIPT), candidate := None));
    forall r: Run | Goes(w.run, r) && r.status == w.run.status
      ensures Goes(w.run, End(w.(run := r), Saving(RepairVerified)).run)
    {
      EndGoes(w.(run := r), Saving(RepairVerified));
      GoesOn(w.run, r, End(w.(run := r), Saving(RepairVerified)).run);
    }
  }

  lemma RecordedGoes(r: Run, o: Outcome)
    ensures Goes(r, RecordOutcome(r, o)) && RecordOutcome(r, o).status == r.status
  {
    ServiceSteps.Recorded(r, o);
    EditedGoes(r, RecordOutcome(r, o));
    hide RecordOutcome, Past, Audits;
  }

  // ----- Routing and dispatch.

  /** From a run past compilation every edit that leaves the claim and the audit attempts alone goes on. */
  lemma PastGoes(r: Run, next: Run)
    requires Past(r) && next.claim == r.claim && Audits(next.events) == Audits(r.events)
    ensures Goes(r, next)
  {
  }

  lemma Same(r: Run)
    ensures Goes(r, r)
  {
  }

  lemma CompleteGoes(w: Worker)
    ensures Goes(w.run, CompleteStart(w).run)
  {
    StartedGoes(w.run, Complete);
    RaiseGoes(w.(invalid := true), Unexpected);
    if StartStage(w.run, Complete).Ok? {
      var r := StartStage(w.run, Complete).value;
      EndGoes(w.(run := r), Saving(Completed));
      hide Past, Audits, Raise, End;
      GoesOn(w.run, r, End(w.(run := r), Saving(Completed)).run);
    }
    hide Past, Audits, Raise, End;
  }

  lemma CompleteFailedGoes(w: Worker)
    requires w.run.status == Complete
    ensures Goes(w.run, CompleteFailed(w).run)
  {
    var routed := w.run.(status := RoutingAction);
    var restored := if routed.events != [] && routed.Last().stage == Complete then routed.SetLast(Failed) else routed;
    if routed.events != [] {
      AuditsSet(routed, Failed);
    }
    PastGoes(w.run, restored);
    RaiseGoes(w.(run := restored), CompletionCheckpoint);
    hide Past, Audits, Raise;
    GoesOn(w.run, restored, Raise(w.(run := restored), CompletionCheckpoint).run);
  }

  lemma DispatchGoes(cfg: Config, w: Worker)
    requires w.run.status == RoutingAction
    ensures Goes(w.run, Dispatch(cfg, w).run) && Goes(w.run, IssuePart(cfg, w).run)
  {
    hide Past, Audits, Goes, End, CompleteStart, SelectIssueFallback;
    Same(w.run);
    CompleteGoes(w);
    EndGoes(w, Saving(Settled));
    if |w.run.actions| == 3 {
      FallbackGoes(w.run);
    }
  }

  lemma FallbackGoes(r: Run)
    requires r.status == RoutingAction && |r.actions| == 3
    ensures Goes(r, SelectIssueFallback(r))
  {
    PastGoes(r, SelectIssueFallback(r));
  }

  lemma FallBackGoes(w: Worker)
    requires w.run.status == RoutingAction
    ensures Goes(w.run, FallBack(w).run)
  {
    RaiseGoes(w, Unexpected);
    if |w.run.actions| == 3 {
      FallbackGoes(w.run);
    }
    hide Past, Audits, Raise, SelectIssueFallback;
  }

  lemma StoppedGoes(w: Worker, failed: Result<Run, Failure>)
    requires failed.Ok? ==> Goes(w.run, failed.value)
    ensures Goes(w.run, FailInDispatch(w, failed).run)
  {
    RaiseGoes(w.(invalid := true), Unexpected);
    hide Past, Audits, Raise;
  }

  lemma OpenedGoes(w: Worker, kind: ActionKind, url: string)
    requires w.run.status == RoutingAction && |w.run.actions| == 3
    ensures Goes(w.run, End(w.(run := MarkOpened(w.run, kind, url)), Saving(ActionOpened(kind))).run)
  {
    var marked := MarkOpened(w.run, kind, url);
    PastGoes(w.run, marked);
    EndGoes(w.(run := marked), Saving(ActionOpened(kind)));
    hide Past, Audits, End, MarkOpened;
    GoesOn(w.run, marked, End(w.(run := marked), Saving(ActionOpened(kind))).run);
  }

  lemma PublishGoes(w: Worker, kind: ActionKind, reply: Reply)
    requires w.run.status == RoutingAction
    ensures Goes(w.run, AfterPublish(w, kind, reply).run)
  {
    hide Past, Audits, Raise, End, MarkOpened, FallBack, FailInDispatch, FailRun;
    RaiseGoes(w, Network);
    RaiseGoes(w, Unexpected);
    FallBackGoes(w);
    match reply
    case PublishConfirmed(url) => if |w.run.actions| == 3 { OpenedGoes(w, kind, url); }
    case PublishUncertain =>
      var exhausted := Attempts(w.run.events) >= MAX_RUN_ATTEMPTS;
      FailedGoes(w.run, if exhausted then FailedSafe else FailedRetryable, !exhausted, true);
      StoppedGoes(w, FailRetryable(w.run, true));
    case PublishRefused =>
      FailedGoes(w.run, FailedSafe, false, false);
      StoppedGoes(w, FailRun(w.run, FailedSafe, false, false));
    case _ =>
  }

  // ----- Any await but the compiler's answer.

  /** Where the run of a worker stands. */
  predicate Stands(w: Worker) {
    match w.pc
    case Saving(at) =>
      && (at == Compiled ==> !w.run.IsRunning())
      && (at in {ResumeAction, Routed, FallbackInline, FallbackAfterPublisher} ==> w.run.status == RoutingAction)
      && (at == Completed ==> w.run.status == Complete)
    case Calling(call) =>
      (match call
       case Publish(_) => w.run.status == RoutingAction
       case AcquireAction(_) => w.run.status == RoutingAction
       case Compile => w.run.status == Compiling && w.run.actions == [] && w.run.IsRunning()
       case _ => w.run.status != Compiling)
    case _ => true
  }

  lemma BackedStands(cfg: Config, w: Worker, base: Run, made: Artifacts)
    requires Backed(cfg, w, base, made)
    ensures Stands(w)
  {
    hide Committed, OpenedKept;
  }

  lemma SavedGoes(cfg: Config, w: Worker, at: SavePoint)
    requires w.pc == Saving(at) && Stands(w)
    ensures Goes(w.run, AfterSave(cfg, w, at).run)
  {
    hide Past, Audits, Goes, Begin, BindStart, EvaluateStart, AfterEvaluated, VerifyStart, RouteStart, Dispatch;
    hide IssuePart, CompleteStart;
    Same(w.run);
    match at
    case ResumeRestart => BeginGoes(w.(mode := InExecute), Capturing, Saving(CaptureStarted));
    case Captured => BeginGoes(w, Compiling, Saving(CompileStarted));
    case ControlBound => BeginGoes(w, Probing, Saving(ProbeStarted));
    case Compiled => BindGoes(w);
    case Probed => EvaluateGoes(w);
    case Evaluated => RemediateGoes(cfg, w);
    case Remediated => VerifyGoes(cfg, w);
    case RepairVerified => RouteGoes(w);
    case ResumeAction | Routed | FallbackInline | FallbackAfterPublisher => DispatchGoes(cfg, w);
    case Settled | ActionOpened(_) => CompleteGoes(w);
    case _ =>
  }

  lemma UnsavedGoes(w: Worker, at: SavePoint)
    requires w.pc == Saving(at) && Stands(w)
    ensures Goes(w.run, SaveFailed(w, at).run)
  {
    Same(w.run);
    RaiseGoes(w, Unexpected);
    if at.ActionOpened? {
      RaiseGoes(w, ExternalCheckpoint(at.kind));
    }
    if at == Completed {
      CompleteFailedGoes(w);
    }
    hide Past, Audits, Goes, Raise, CompleteFailed;
  }

  lemma CalledGoes(cfg: Config, w: Worker, call: Call, reply: Reply)
    requires w.pc == Calling(call) && Stands(w) && !(call == Compile && reply.CompileOk?)
    ensures Goes(w.run, AfterCall(cfg, w, call, reply).run)
  {
    hide Past, Audits, Goes, Raise, End, AfterPublish, AfterVerify, AfterCompile, FallBack;
    Same(w.run);
    RaiseGoes(w, Network);
    RaiseGoes(w, Unexpected);
    match call
    case Capture => if reply.CaptureOk? { EndGoes(w.(page := Some(reply.page)), Saving(Captured)); }
    case Compile => if reply.CompileFailed? { RaiseGoes(w, CompileError(reply.retryable)); }
    case Probe => if reply.ProbeOk? { ProbedGoes(w, reply.evidence); }
    case Prepare =>
      EndGoes(w, Saving(Remediated));
      if reply.PrepareOk? { EndGoes(w.(artifact := Some(reply.artifact)), Saving(Remediated)); }
    case Verify(artifact) => VerifiedGoes(w, artifact, reply);
    case AcquireAction(kind) => FallBackGoes(w);
    case Publish(kind) => PublishGoes(w, kind, reply);
  }

  lemma ProbedGoes(w: Worker, evidence: seq<EvidenceItem>)
    requires w.run.status != Compiling
    ensures Goes(w.run, End(w.(run := w.run.(evidence := evidence)), Saving(Probed)).run)
  {
    var probed := w.run.(evidence := evidence);
    EditedGoes(w.run, probed);
    EndGoes(w.(run := probed), Saving(Probed));
    hide Past, Audits, End;
    GoesOn(w.run, probed, End(w.(run := probed), Saving(Probed)).run);
  }

  lemma StepGoes(cfg: Config, w: Worker, reply: Reply)
    requires Fits(w.pc, reply) && Stands(w) && !(w.pc == Calling(Compile) && reply.CompileOk?)
    ensures Goes(w.run, Step(cfg, w, reply).run)
  {
    hide Goes, AfterSave, SaveFailed, AfterCall;
    match w.pc
    case Saving(at) =>
      SavedGoes(cfg, w, at);
      UnsavedGoes(w, at);
    case Calling(call) => CalledGoes(cfg, w, call, reply);
  }

  lemma GrantGoes(cfg: Config, w: Worker)
    requires w.pc.Reserved? && (w.pc.created ==> w.run.status == Received)
    ensures Goes(w.run, Granted(cfg, w).run)
  {
    hide Past, Audits, Goes, Dispatch, RouteStart, ExecuteStart, ResetInterrupted, ResumeDispatch, FailedDuringDispatch;
    Same(w.run);
    if w.pc.created {
      BeginGoes(w.(mode := InExecute), Capturing, Saving(CaptureStarted));
      assert ExecuteStart(w) == Begin(w.(mode := InExecute), Capturing, Saving(CaptureStarted)) by {
        ExecuteBegins(w);
      }
    } else if w.run.status == RoutingAction {
      DispatchGoes(cfg, w.(mode := Direct));
    } else if w.run.status == Verifying && w.run.verification.Some? {
      RouteGoes(w.(mode := Direct));
    } else {
      ResetGoes(w.run);
      if FailedDuringDispatch(w.run) {
        ResumeGoes(w.run);
      }
    }
  }

  lemma ExecuteBegins(w: Worker)
    ensures ExecuteStart(w) == Begin(w.(mode := InExecute), Capturing, Saving(CaptureStarted))
  {
  }

  /** A run that is reset is not past compilation any more. */
  lemma ResetGoes(r: Run)
    ensures Goes(r, ResetInterrupted(r))
  {
  }

  lemma ResumeGoes(r: Run)
    requires FailedDuringDispatch(r)
    ensures Goes(r, ResumeDispatch(r))
  {
    AuditsAppended(r.(status := RoutingAction), RoutingAction, Running, ActionRetryResumed);
    var state :| state in ActionStates(r) && state in {Opened, Ready, Planned};
    var i :| 0 <= i < |r.actions| && r.actions[i].state == state;
    assert Selected(r.actions[i]);
    PastGoes(r, ResumeDispatch(r));
  }

  // ----- The compiler's answer.

  ghost predicate Compiles(w: Worker) {
    && w.pc == Calling(Compile) && w.mode == InExecute && w.page.Some?
    && EventsOk(w.run) && w.run.IsRunning() && w.run.status == Compiling && w.run.actions == []
  }

  lemma BackedCompiles(cfg: Config, w: Worker, base: Run, made: Artifacts)
    requires Backed(cfg, w, base, made) && w.pc == Calling(Compile) && w.page.Some?
    ensures Compiles(w)
  {
    hide Committed, OpenedKept;
  }

  lemma GroundedCompiles(cfg: Config, w: Worker, payload: Payload)
    requires Compiles(w) && Source.Grounded(payload.exactQuote, Source.Captured(w.page.value))
    ensures var next := Step(cfg, w, CompileOk(payload));
            && next.pc == Saving(Compiled)
            && Grounds(Compilation(Audits(w.run.events), w.page.value, payload.exactQuote), next.run)
  {
    hide Source.Grounded, Source.Captured, Audits, Raise;
    var compiled := w.(run := w.run.(claim := ClaimFrom(w.page.value, payload)));
    Finished(compiled.run);
    AuditsSet(compiled.run, Succeeded);
    assert Step(cfg, w, CompileOk(payload)) == End(compiled, Saving(Compiled));
  }

  /** A failed, abstaining run that publishes nothing. */
  ghost predicate Abstained(r: Run) {
    r.status == FailedSafe && r.verdict == Inconclusive && !HasRoute(r) && SelectedCount(r.actions) == 0
  }

  lemma UngroundedCompiles(cfg: Config, w: Worker, payload: Payload)
    requires Compiles(w) && !Source.Grounded(payload.exactQuote, Source.Captured(w.page.value))
    ensures var next := Step(cfg, w, CompileOk(payload));
            next.pc == Saving(HandlerFailed) && Abstained(next.run) && !Past(next.run)
  {
    hide Source.Grounded, Source.Captured, Handle, Abstained, Past, End, Step;
    var compiled := w.(run := w.run.(claim := ClaimFrom(w.page.value, payload)));
    HandledSafely(compiled);
    RefusesQuote(cfg, w, payload);
  }

  lemma RefusesQuote(cfg: Config, w: Worker, payload: Payload)
    requires w.pc == Calling(Compile) && w.mode == InExecute && w.page.Some?
    requires !Source.Grounded(payload.exactQuote, Source.Captured(w.page.value))
    ensures var compiled := w.(run := w.run.(claim := ClaimFrom(w.page.value, payload)));
            Step(cfg, w, CompileOk(payload)) == Handle(compiled, CompileError(false))
  {
    hide Source.Grounded, Source.Captured, Handle, End;
  }

  lemma HandledSafely(w: Worker)
    requires EventsOk(w.run) && w.run.status == Compiling
    ensures var h := Handle(w, CompileError(false));
            h.pc == Saving(HandlerFailed) && Abstained(h.run) && !Past(h.run)
  {
    hide FailRun;
    var r := w.run.(verdict := Inconclusive);
    FailRunKeeps(r, FailedSafe, false, false);
    Handled(w, CompileError(false));
    NoRoute(w.run.verification);
    SafeStatus(w);
    CountThree(Handle(w, CompileError(false)).run.actions);
  }

  lemma SafeStatus(w: Worker)
    requires EventsOk(w.run) && w.run.status == Compiling
    ensures Handle(w, CompileError(false)).run.status == FailedSafe
  {
    FailRunKeeps(w.run.(verdict := Inconclusive), FailedSafe, false, false);
    PlanIsOk(Inconclusive, w.run.verification);
    hide FailRun, PlanActions;
  }

  // ----- Histories.

  /** A worker holds a captured page whenever it is about to compile. */
  predicate HoldsPage(pages: seq<Action>, w: Worker) {
    && (w.page.Some? ==> CapturedIn(pages, w.page.value))
    && (w.pc in {Saving(Captured), Saving(CompileStarted), Calling(Compile)} ==> w.page.Some?)
  }

  /** An artifact quotes the page that a compilation of the history grounded it in. */
  ghost predicate Quotes(c: Compilation, k: IssueKey) {
    && c.quote == k.exactQuote && c.page.url == k.sourceUrl && c.page.contentHash == k.contentHash
    && Source.Grounded(c.quote, Source.Captured(c.page))
  }

  ghost predicate MadeRests(log: set<Compilation>, made: Artifacts) {
    && (forall k :: k in made.issues ==> exists c :: c in log && Quotes(c, k))
    && (made.prs != {} ==> exists c :: c in log && Source.Grounded(c.quote, Source.Captured(c.page)))
  }

  ghost predicate AllRest(log: set<Compilation>, past: seq<Action>, s: World) {
    && (s.stored.Some? ==> Rests(log, s.stored.value))
    && (forall w :: w in s.workers ==> Rests(log, s.workers[w].run) && HoldsPage(past, s.workers[w]))
    && MadeRests(log, s.made)
    && forall c :: c in log ==> CapturedIn(past, c.page)
  }

  lemma PageStays(past: seq<Action>, a: Action, w: Worker)
    requires HoldsPage(past, w)
    ensures HoldsPage(past + [a], w)
  {
    if w.page.Some? {
      CapturedStays(past, a, w.page.value);
    }
  }

  lemma CapturedStays(past: seq<Action>, a: Action, page: Source.Page)
    requires CapturedIn(past, page)
    ensures CapturedIn(past + [a], page)
  {
    var i :| 0 <= i < |past| && past[i].Advance? && past[i].reply == CaptureOk(page);
    assert (past + [a])[i] == past[i];
  }

  lemma RestsStays(log: set<Compilation>, more: set<Compilation>, r: Run)
    requires Rests(log, r)
    ensures Rests(log + more, r)
  {
    Same(r);
    hide Goes, Past;
    GoesRests(log, log + more, r, r);
  }

  /** A worker that has left its stage by an exception. */
  predicate Left(w: Worker, w': Worker) {
    w'.page == w.page && (w'.pc.Releasing? || w'.pc in {Saving(CheckpointFailed), Saving(HandlerFailed)})
  }

  predicate Went(w: Worker, w': Worker, next: Pc) {
    Left(w, w') || (w'.page == w.page && w'.pc == next)
  }

  lemma Leaves()
    ensures forall w, e :: Left(w, Raise(w, e))
    ensures forall w, next :: Went(w, End(w, next), next)
    ensures forall w, status, next :: Went(w, Begin(w, status, next), next)
  {
    hide FailRun, FailRetryable, FailedBy, FinishStage, StartStage, PlanActions;
  }

  lemma PageSaved(cfg: Config, w: Worker, at: SavePoint)
    ensures var next := AfterSave(cfg, w, at);
            && next.page == w.page && next.pc != Saving(Captured)
            && (next.pc == Saving(CompileStarted) ==> at == Captured)
            && (next.pc == Calling(Compile) ==> at == CompileStarted)
  {
    Leaves();
    hide Raise, End, Begin, StartStage, FinishStage, PlanActions, SelectIssueFallback;
  }

  lemma PageUnsaved(w: Worker, at: SavePoint)
    ensures var next := SaveFailed(w, at);
            && next.page == w.page && next.pc != Saving(Captured) && next.pc != Saving(CompileStarted)
            && next.pc != Calling(Compile)
  {
    Leaves();
    hide Raise;
  }

  lemma PageCalled(cfg: Config, w: Worker, call: Call, reply: Reply)
    requires Fits(Calling(call), reply)
    ensures var next := AfterCall(cfg, w, call, reply);
            && (next.page == if reply.CaptureOk? then Some(reply.page) else w.page)
            && (next.pc == Saving(Captured) ==> reply.CaptureOk?)
            && next.pc != Saving(CompileStarted) && next.pc != Calling(Compile)
  {
    Leaves();
    hide Raise, End, SelectIssueFallback, RecordOutcome, Interpret, MarkOpened, FailRun, FailRetryable;
    hide Source.Grounded, Source.Captured;
  }

  /** Only a capture changes the page, and only after one is there anything to compile. */
  lemma StepHolds(cfg: Config, past: seq<Action>, w: Worker, a: Action)
    requires HoldsPage(past, w) && a.Advance? && Fits(w.pc, a.reply)
    ensures HoldsPage(past + [a], Step(cfg, w, a.reply))
  {
    PageStays(past, a, w);
    PageNext(cfg, w, a.reply);
    if a.reply.CaptureOk? {
      assert (past + [a])[|past|] == a;
      assert CapturedIn(past + [a], a.reply.page);
    }
    hide Step, CapturedIn;
  }

  lemma PageNext(cfg: Config, w: Worker, reply: Reply)
    requires Fits(w.pc, reply)
    ensures var next := Step(cfg, w, reply);
            && (next.page == if reply.CaptureOk? then Some(reply.page) else w.page)
            && (next.pc == Saving(Captured) ==> reply.CaptureOk?)
            && (next.pc == Saving(CompileStarted) ==> w.pc == Saving(Captured))
            && (next.pc == Calling(Compile) ==> w.pc == Saving(CompileStarted))
  {
    match w.pc
    case Saving(at) =>
      PageSaved(cfg, w, at);
      PageUnsaved(w, at);
    case Calling(call) => PageCalled(cfg, w, call, reply);
  }

  lemma PageGranted(cfg: Config, past: seq<Action>, w: Worker)
    requires HoldsPage(past, w) && w.pc.Reserved?
    ensures HoldsPage(past, Granted(cfg, w))
  {
    Leaves();
    hide Raise, End, Begin, StartStage, FinishStage, PlanActions, SelectIssueFallback, CapturedIn, FailedDuringDispatch;
    hide ResetInterrupted, ResumeDispatch;
  }

  /** The run of the worker that acts, after it has acted. */
  lemma WorkerRests(
    cfg: Config, log: set<Compilation>, s: World, w: nat, reply: Reply, made: Artifacts)
    requires RunsOk(cfg, s) && Enabled(s, Advance(w, reply, made))
    requires Rests(log, s.workers[w].run)
    requires s.workers[w].pc == Calling(Compile) ==> s.workers[w].page.Some?
    ensures Rests(log + CompiledBy(s, Advance(w, reply, made)), Step(cfg, s.workers[w], reply).run)
    ensures s.workers[w].pc.Calling? && s.workers[w].pc.call.Publish? ==> Past(s.workers[w].run)
  {
    var worker := s.workers[w];
    var more := CompiledBy(s, Advance(w, reply, made));
    assert WorkerOk(cfg, s.key, worker, s.made);
    var base, m :| Backed(cfg, worker, base, m);
    BackedStands(cfg, worker, base, m);
    hide Step, Past, Audits, Goes, Backed, RunsOk, WorkerOk, Source.Grounded, Source.Captured;
    PublishingIsPast(worker);
    if worker.pc == Calling(Compile) && reply.CompileOk? {
      BackedCompiles(cfg, worker, base, m);
      CompilerRests(cfg, log, more, worker, reply.payload);
    } else {
      StepGoes(cfg, worker, reply);
      GoesRests(log, log + more, worker.run, Step(cfg, worker, reply).run);
    }
  }

  lemma PublishingIsPast(w: Worker)
    requires Stands(w)
    ensures w.pc.Calling? && w.pc.call.Publish? ==> Past(w.run)
  {
  }

  lemma CompilerRests(cfg: Config, log: set<Compilation>, more: set<Compilation>, w: Worker, payload: Payload)
    requires Compiles(w)
    requires more == {Compilation(Audits(w.run.events), w.page.value, payload.exactQuote)}
    ensures Rests(log + more, Step(cfg, w, CompileOk(payload)).run)
  {
    assert w.page.Some?;
    hide Step, Past, Audits, Source.Grounded, Source.Captured, Grounds, Compiles;
    if Source.Grounded(payload.exactQuote, Source.Captured(w.page.value)) {
      GroundedCompiles(cfg, w, payload);
    } else {
      UngroundedCompiles(cfg, w, payload);
    }
  }

  /** What a publication creates rests on the compilation that the published run rests on. */
  lemma CreationRests(log: set<Compilation>, r: Run, kind: ActionKind, made: Artifacts, made': Artifacts)
    requires MadeRests(log, made) && Rests(log, r) && Past(r)
    requires made' == made || Created(r, kind, made, made')
    ensures MadeRests(log, made')
  {
    hide Past, Audits, Source.Grounded, Source.Captured;
    var c :| c in log && Grounds(c, r);
    assert Quotes(c, IssueKeyOf(r));
  }

  lemma MadeStays(log: set<Compilation>, more: set<Compilation>, made: Artifacts)
    requires MadeRests(log, made)
    ensures MadeRests(log + more, made)
  {
    hide Quotes, Source.Grounded, Source.Captured;
    forall k | k in made.issues ensures exists c :: c in log + more && Quotes(c, k) {
      var c :| c in log && Quotes(c, k);
      assert c in log + more;
    }
    if made.prs != {} {
      var c :| c in log && Source.Grounded(c.quote, Source.Captured(c.page));
      assert c in log + more;
    }
  }

  /** Nothing but an await and a reservation touches the stored run, a worker's claim or what exists. */
  lemma OthersRest(log: set<Compilation>, more: set<Compilation>, past: seq<Action>, a: Action, s: World)
    requires AllRest(log, past, s)
    ensures s.stored.Some? ==> Rests(log + more, s.stored.value)
    ensures forall w :: w in s.workers ==> Rests(log + more, s.workers[w].run) && HoldsPage(past + [a], s.workers[w])
    ensures MadeRests(log + more, s.made)
    ensures forall c :: c in log ==> CapturedIn(past + [a], c.page)
  {
    hide Rests, HoldsPage, MadeRests, CapturedIn;
    if s.stored.Some? {
      RestsStays(log, more, s.stored.value);
    }
    forall w | w in s.workers
      ensures Rests(log + more, s.workers[w].run) && HoldsPage(past + [a], s.workers[w])
    {
      RestsStays(log, more, s.workers[w].run);
      PageStays(past, a, s.workers[w]);
    }
    MadeStays(log, more, s.made);
    forall c | c in log ensures CapturedIn(past + [a], c.page) {
      CapturedStays(past, a, c.page);
    }
  }

  lemma NewRunRests(log: set<Compilation>, key: string, repository: Option<Repository>)
    ensures Rests(log, NewRun(key, repository))
  {
  }

  lemma ReserveRests(cfg: Config, log: set<Compilation>, past: seq<Action>, s: World, a: Action)
    requires RunsOk(cfg, s) && AllRest(log, past, s) && Enabled(s, a) && a.Reserve?
    ensures AllRest(log, past + [a], Perform(cfg, s, a))
  {
    hide Rests, MadeRests, CapturedIn, Step, Granted, WorkerOk, Fit, NewRun;
    OthersRest(log, {}, past, a, s);
    assert log + {} == log;
    NewRunRests(log, s.key, a.repository);
  }

  lemma AcquireRests(cfg: Config, log: set<Compilation>, past: seq<Action>, s: World, a: Action)
    requires RunsOk(cfg, s) && AllRest(log, past, s) && Enabled(s, a) && a.Acquire?
    ensures AllRest(log, past + [a], Perform(cfg, s, a))
  {
    hide Rests, MadeRests, CapturedIn, HoldsPage, Step, Granted, Fit, Goes, ProofOk, Backed;
    var w := s.workers[a.worker];
    assert WorkerOk(cfg, s.key, w, s.made);
    OthersRest(log, {}, past, a, s);
    assert log + {} == log;
    GrantGoes(cfg, w);
    GoesRests(log, log, w.run, Granted(cfg, w).run);
    PageGranted(cfg, past + [a], w);
    DoneHolds(past + [a], w);
  }

  lemma DoneHolds(past: seq<Action>, w: Worker)
    requires HoldsPage(past, w)
    ensures HoldsPage(past, w.(pc := Done))
  {
    hide CapturedIn;
  }

  lemma AdvanceRests(cfg: Config, log: set<Compilation>, past: seq<Action>, s: World, a: Action)
    requires RunsOk(cfg, s) && AllRest(log, past, s) && Enabled(s, a) && a.Advance?
    ensures AllRest(log + CompiledBy(s, a), past + [a], Perform(cfg, s, a))
  {
    hide Rests, MadeRests, CapturedIn, Step, Granted, Perform, RunsOk, CompiledBy, Fits, Audits, RemoteEffect;
    var w := s.workers[a.worker];
    var more := CompiledBy(s, a);
    CompiledPages(past, s, a);
    OthersRest(log, more, past, a, s);
    WorkerRests(cfg, log, s, a.worker, a.reply, a.made);
    StepHolds(cfg, past, w, a);
    AdvancedMade(log + more, s, a);
    StoredOnce(cfg, s, a.worker);
    AdvanceCollects(cfg, log + more, past + [a], s, a);
  }

  lemma StoredOnce(cfg: Config, s: World, w: nat)
    requires RunsOk(cfg, s) && w in s.workers
    ensures s.stored.Some?
  {
  }

  lemma AdvancedMade(log: set<Compilation>, s: World, a: Action)
    requires Enabled(s, a) && a.Advance? && MadeRests(log, s.made) && Rests(log, s.workers[a.worker].run)
    requires var pc := s.workers[a.worker].pc; pc.Calling? && pc.call.Publish? ==> Past(s.workers[a.worker].run)
    ensures MadeRests(log, a.made)
  {
    var w := s.workers[a.worker];
    hide MadeRests, Rests, Past, Fits;
    if w.pc.Calling? && w.pc.call.Publish? {
      assert a.made == s.made || Created(w.run, w.pc.call.kind, s.made, a.made);
      CreationRests(log, w.run, w.pc.call.kind, s.made, a.made);
    }
  }

  lemma AdvanceCollects(cfg: Config, log: set<Compilation>, past: seq<Action>, s: World, a: Action)
    requires Enabled(s, a) && a.Advance? && s.stored.Some? && MadeRests(log, a.made)
    requires Rests(log, s.stored.value)
    requires forall w :: w in s.workers ==> Rests(log, s.workers[w].run) && HoldsPage(past, s.workers[w])
    requires Rests(log, Step(cfg, s.workers[a.worker], a.reply).run)
    requires HoldsPage(past, Step(cfg, s.workers[a.worker], a.reply))
    requires forall c :: c in log ==> CapturedIn(past, c.page)
    ensures AllRest(log, past, Perform(cfg, s, a))
  {
    hide Rests, HoldsPage, MadeRests, CapturedIn, Step, Granted, Fits, RemoteEffect;
  }

  lemma CompiledPages(past: seq<Action>, s: World, a: Action)
    requires forall w :: w in s.workers ==> HoldsPage(past, s.workers[w])
    ensures forall c :: c in CompiledBy(s, a) ==> CapturedIn(past + [a], c.page)
  {
    hide Audits;
    forall c | c in CompiledBy(s, a) ensures CapturedIn(past + [a], c.page) {
      CapturedStays(past, a, c.page);
    }
  }

  lemma LostRests(cfg: Config, log: set<Compilation>, past: seq<Action>, s: World, a: Action)
    requires RunsOk(cfg, s) && AllRest(log, past, s) && Enabled(s, a) && (a.Crash? || a.Release? || a.Tick?)
    ensures AllRest(log, past + [a], Perform(cfg, s, a))
  {
    OthersRest(log, {}, past, a, s);
    assert log + {} == log;
    if a.Crash? {
      CrashMade(cfg, log, s, a);
      DoneHolds(past + [a], s.workers[a.worker]);
      hide Rests, MadeRests, CapturedIn, HoldsPage, Step, Granted, RunsOk, Created;
    } else {
      EndedRests(cfg, log, past, s, a);
    }
  }

  lemma EndedRests(cfg: Config, log: set<Compilation>, past: seq<Action>, s: World, a: Action)
    requires AllRest(log, past + [a], s) && Enabled(s, a) && (a.Release? || a.Tick?)
    ensures AllRest(log, past + [a], Perform(cfg, s, a))
  {
    if a.Release? {
      DoneHolds(past + [a], s.workers[a.worker]);
    }
    hide Rests, MadeRests, CapturedIn, HoldsPage, Step, Granted;
  }

  lemma CrashMade(cfg: Config, log: set<Compilation>, s: World, a: Action)
    requires RunsOk(cfg, s) && Enabled(s, a) && a.Crash? && MadeRests(log, s.made)
    requires Rests(log, s.workers[a.worker].run)
    ensures MadeRests(log, a.made)
  {
    if a.made != s.made {
      var w := s.workers[a.worker];
      assert WorkerOk(cfg, s.key, w, s.made);
      var base, m :| Backed(cfg, w, base, m);
      BackedStands(cfg, w, base, m);
      PublishingIsPast(w);
      hide RunsOk, WorkerOk, Backed, Rests, MadeRests, Past, Stands;
      CreationRests(log, w.run, w.pc.call.kind, s.made, a.made);
    }
  }

  lemma ActionRests(cfg: Config, log: set<Compilation>, past: seq<Action>, s: World, a: Action)
    requires RunsOk(cfg, s) && AllRest(log, past, s) && Enabled(s, a)
    ensures AllRest(log + CompiledBy(s, a), past + [a], Perform(cfg, s, a))
  {
    hide AllRest, RunsOk, Perform;
    if a.Advance? {
      AdvanceRests(cfg, log, past, s, a);
    } else {
      assert CompiledBy(s, a) == {} && log + {} == log;
      match a
      case Reserve(_, _) => ReserveRests(cfg, log, past, s, a);
      case Acquire(_) => AcquireRests(cfg, log, past, s, a);
      case _ => LostRests(cfg, log, past, s, a);
    }
  }

  lemma {:induction false} HistoryRests(
    cfg: Config, log: set<Compilation>, past: seq<Action>, s: World, actions: seq<Action>)
    requires RunsOk(cfg, s) && AllRest(log, past, s) && Happens(cfg, s, actions)
    ensures AllRest(log + Compilations(cfg, s, actions), past + actions, After(cfg, s, actions))
    decreases actions
  {
    hide AllRest, RunsOk, Perform, CompiledBy, Enabled;
    if actions == [] {
      assert past + actions == past && log + {} == log;
    } else {
      var next := Perform(cfg, s, actions[0]);
      RunsKept(cfg, s, actions[0]);
      ActionRests(cfg, log, past, s, actions[0]);
      HistoryRests(cfg, log + CompiledBy(s, actions[0]), past + [actions[0]], next, actions[1..]);
      assert past + [actions[0]] + actions[1..] == past + actions;
      assert log + CompiledBy(s, actions[0]) + Compilations(cfg, next, actions[1..])
             == log + Compilations(cfg, s, actions);
    }
  }

  lemma StartRests(cfg: Config, key: string, actions: seq<Action>)
    requires Happens(cfg, Start(key), actions)
    ensures AllRest(Compilations(cfg, Start(key), actions), actions, After(cfg, Start(key), actions))
    ensures RunsOk(cfg, After(cfg, Start(key), actions))
  {
    assert AllRest({}, [], Start(key));
    HistoryRests(cfg, {}, [], Start(key), actions);
    FromStart(cfg, key, actions);
    assert {} + Compilations(cfg, Start(key), actions) == Compilations(cfg, Start(key), actions);
    assert [] + actions == actions;
  }

  /** In every history, a persisted run that is past compilation rests on a quote compiled in its present audit attempt
      from a page captured in the history that contains it: its claim is that quote, under that page's address and
      hash. */
  lemma PersistedRunsAreGrounded(cfg: Config, key: string, actions: seq<Action>)
    requires Happens(cfg, Start(key), actions)
    ensures var s := After(cfg, Start(key), actions);
            s.stored.Some? && Past(s.stored.value) ==>
              exists c :: c in Compilations(cfg, Start(key), actions)
                          && Grounds(c, s.stored.value) && CapturedIn(actions, c.page)
  {
    StartRests(cfg, key, actions);
    hide Happens, After, Compilations, Past, Grounds, CapturedIn, RunsOk;
  }

  /** In every history, every artifact that exists quotes a page captured in it: an issue carries the quote, the address
      and the hash, and the quote is a literal part of the visible text of that page. No draft PR exists without such a
      quote either. */
  lemma ArtifactsQuoteThePage(cfg: Config, key: string, actions: seq<Action>)
    requires Happens(cfg, Start(key), actions)
    ensures var made := After(cfg, Start(key), actions).made;
            && (forall k :: k in made.issues ==>
                  exists page: Source.Page ::
                    CapturedIn(actions, page) && page.url == k.sourceUrl && page.contentHash == k.contentHash
                    && QuoteOf(k.exactQuote, page))
            && (made.prs != {} ==>
                  exists page: Source.Page, quote :: CapturedIn(actions, page) && QuoteOf(quote, page))
  {
    StartRests(cfg, key, actions);
    hide Happens, After, Compilations, CapturedIn, RunsOk, QuoteOf, Source.Grounded, Source.Captured;
    var log := Compilations(cfg, Start(key), actions);
    var made := After(cfg, Start(key), actions).made;
    forall k | k in made.issues
      ensures exists page: Source.Page ::
        CapturedIn(actions, page) && page.url == k.sourceUrl && page.contentHash == k.contentHash
        && QuoteOf(k.exactQuote, page)
    {
      var c :| c in log && Quotes(c, k);
      Literal(c.quote, c.page);
    }
    if made.prs != {} {
      var c :| c in log && Source.Grounded(c.quote, Source.Captured(c.page));
      Literal(c.quote, c.page);
    }
  }

  /** The quote is grounded in the page, and a non-empty literal part of its visible text. */
  ghost predicate QuoteOf(quote: string, page: Source.Page) {
    && Source.Grounded(quote, Source.Captured(page)) && VisibleText.Normalize(quote) != ""
    && VisibleText.Occurs(VisibleText.Normalize(quote), Source.Captured(page).visibleText)
  }

  lemma Literal(quote: string, page: Source.Page)
    requires Source.Grounded(quote, Source.Captured(page))
    ensures QuoteOf(quote, page)
  {
    Source.GroundedIsLiteral(page.events, quote);
    hide Source.Grounded;
  }

  // ----- An ungrounded answer.

  /** The worker completes these awaits, in whatever way. */
  ghost predicate Leads(cfg: Config, w: Worker, replies: seq<Reply>, w': Worker)
    decreases replies
  {
    if replies == [] then w' == w
    else Fits(w.pc, replies[0]) && Leads(cfg, Step(cfg, w, replies[0]), replies[1..], w')
  }

  /** Whatever the worker saves from here on is a failed, abstaining run that publishes nothing. */
  ghost predicate OnlyAbstains(cfg: Config, w: Worker) {
    forall replies, w' :: Leads(cfg, w, replies, w') && w'.pc.Saving? ==> Abstained(w'.run)
  }

  lemma HandledAbstains(cfg: Config, w: Worker)
    requires w.pc == Saving(HandlerFailed) && Abstained(w.run)
    ensures OnlyAbstains(cfg, w)
  {
    forall replies, w' | Leads(cfg, w, replies, w') && w'.pc.Saving? ensures Abstained(w'.run) {
      if replies != [] {
        HandledEnds(cfg, w, replies[0]);
        EndedStays(cfg, Step(cfg, w, replies[0]), replies[1..], w');
      }
    }
  }

  lemma HandledEnds(cfg: Config, w: Worker, reply: Reply)
    requires w.pc == Saving(HandlerFailed) && Fits(w.pc, reply)
    ensures Step(cfg, w, reply).pc.Releasing?
  {
  }

  lemma EndedStays(cfg: Config, w: Worker, replies: seq<Reply>, w': Worker)
    requires w.pc.Releasing? && Leads(cfg, w, replies, w')
    ensures w' == w
  {
    hide Step;
  }

  lemma WorkerCompiles(cfg: Config, s: World, w: nat)
    requires RunsOk(cfg, s) && w in s.workers && s.workers[w].pc == Calling(Compile) && s.workers[w].page.Some?
    ensures Compiles(s.workers[w])
  {
    assert WorkerOk(cfg, s.key, s.workers[w], s.made);
    hide Backed, Compiles;
    var base, m :| Backed(cfg, s.workers[w], base, m);
    BackedCompiles(cfg, s.workers[w], base, m);
  }

  /** In every history, the answer of the compiler goes on to be saved as a compiled claim if and only if the captured
      page contains the quote; otherwise all that the worker ever saves is FAILED_SAFE, INCONCLUSIVE and without a
      selected action. */
  lemma CompiledExactly(cfg: Config, key: string, actions: seq<Action>, w: nat, payload: Payload)
    requires Happens(cfg, Start(key), actions) && w in After(cfg, Start(key), actions).workers
    requires After(cfg, Start(key), actions).workers[w].pc == Calling(Compile)
    ensures var worker := After(cfg, Start(key), actions).workers[w];
            var next := Step(cfg, worker, CompileOk(payload));
            && worker.page.Some? && CapturedIn(actions, worker.page.value)
            && (next.pc == Saving(Compiled)
                <==> Source.Grounded(payload.exactQuote, Source.Captured(worker.page.value)))
            && (next.pc != Saving(Compiled) ==> OnlyAbstains(cfg, next))
  {
    hide Happens, After, RunsOk, Backed, Step, Compiles, OnlyAbstains, Source.Grounded, Abstained;
    hide Source.Captured, CapturedIn, Past, Grounds, Audits, Compilations, MadeRests, Rests;
    StartRests(cfg, key, actions);
    var s := After(cfg, Start(key), actions);
    var worker := s.workers[w];
    assert HoldsPage(actions, worker);
    WorkerCompiles(cfg, s, w);
    if Source.Grounded(payload.exactQuote, Source.Captured(worker.page.value)) {
      GroundedCompiles(cfg, worker, payload);
    } else {
      UngroundedCompiles(cfg, worker, payload);
      HandledAbstains(cfg, Step(cfg, worker, CompileOk(payload)));
    }
  }
}
