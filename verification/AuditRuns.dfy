/** The audit run and its state machine (models.py, state_machine.py), and the run edits of service.py. */
module AuditRuns {
  import opened Wrappers
  import opened Actions
  import opened Candidates
  import opened Verification

  datatype Status =
    | Received | Capturing | Compiling | BindingControl | Probing | Evaluating | Remediating | Verifying
    | RoutingAction | Complete | FailedRetryable | FailedSafe

  datatype EventState = Running | Succeeded | Failed

  /** Event titles, as far as the code reads them back: three titles mark an attempt. */
  datatype Title = AuditStarted | AuditResumed | ActionRetryResumed | StageTitle | StoppedSafely

  datatype Event = Event(number: nat, stage: Status, state: EventState, title: Title)

  /** The sentences `fail_run` and the lease wrapper leave in `limitations`. */
  datatype Limitation =
    | NoSideEffects(retryable: bool)
    | OutcomeUncertain(retryable: bool)
    | ConfirmedButNotCheckpointed(kind: ActionKind)
    | FinalCheckpointPending(actionOpened: bool)

  /** The compiled claim; `fragmentsPresent` says whether the case-folded quote holds the four required fragments. */
  datatype Claim = Claim(
    exactQuote: string, sourceUrl: string, contentHash: string,
    executable: bool, deadlineHours: Option<nat>, fragmentsPresent: bool, controlId: Option<string>)

  /** `can_bind_account_deletion`. */
  predicate CanBind(c: Claim) {
    c.executable && c.deadlineHours == Some(24) && c.fragmentsPresent
  }

  datatype Repository = Repository(id: nat, fullName: string)

  datatype Run = Run(
    key: string, repository: Option<Repository>,
    status: Status, verdict: Verdict, claim: Claim, evidence: seq<EvidenceItem>,
    events: seq<Event>, actions: seq<PlannedAction>, limitations: seq<Limitation>,
    verification: Option<Receipt>, candidate: Option<Checkpoint>)
  {
    function Last(): Event
      requires events != []
    {
      events[|events| - 1]
    }

    predicate LastIs(stage: Status, state: EventState) {
      events != [] && Last().stage == stage && Last().state == state
    }

    predicate IsRunning() {
      events != [] && Last().state == Running
    }

    function Append(stage: Status, state: EventState, title: Title): Run {
      this.(events := events + [Event(|events| + 1, stage, state, title)])
    }

    function SetLast(state: EventState): Run
      requires events != []
    {
      this.(events := events[|events| - 1 := Last().(state := state)])
    }
  }

  /** The private checkpoints a run carries are ones their own validators accept. */
  predicate Storable(r: Run) {
    && (r.verification.Some? && r.verification.value.binding.Some? ==> r.verification.value.binding.value.Valid())
    && (r.candidate.Some? ==> r.candidate.value.Valid())
  }

  const MAX_RUN_ATTEMPTS := 3

  predicate Terminal(s: Status) {
    s in {Complete, FailedRetryable, FailedSafe}
  }

  function Allowed(s: Status): set<Status> {
    match s
    case Received => {Capturing}
    case Capturing => {Compiling}
    case Compiling => {BindingControl}
    case BindingControl => {Probing, RoutingAction}
    case Probing => {Evaluating}
    case Evaluating => {Remediating, RoutingAction}
    case Remediating => {Verifying}
    case Verifying => {RoutingAction}
    case RoutingAction => {Complete}
    case _ => {}
  }

  /** How far along the audit a status is. */
  function Rank(s: Status): nat {
    match s
    case Received => 0
    case Capturing => 1
    case Compiling => 2
    case BindingControl => 3
    case Probing => 4
    case Evaluating => 5
    case Remediating => 6
    case Verifying => 7
    case RoutingAction => 8
    case _ => 9
  }

  /** The allowed transitions are to the next stage, or from binding or evaluation straight to routing; so stages only
      advance, every one of them can still lead to routing, and only routing completes. */
  lemma StagesAdvance(s: Status, t: Status)
    ensures t in Allowed(s)
            <==> && !Terminal(s) && t != FailedRetryable && t != FailedSafe
                 && (Rank(t) == Rank(s) + 1 || (t == RoutingAction && (s == BindingControl || s == Evaluating)))
    ensures t in Allowed(s) ==> Rank(s) < Rank(t)
    ensures !Terminal(s) <==> Allowed(s) != {}
    ensures t == Complete ==> (t in Allowed(s) <==> s == RoutingAction)
    ensures t in {FailedRetryable, FailedSafe, Received} ==> t !in Allowed(s)
  {
    match s
    case Received => assert Capturing in Allowed(s);
    case Capturing => assert Compiling in Allowed(s);
    case Compiling => assert BindingControl in Allowed(s);
    case BindingControl => assert Probing in Allowed(s);
    case Probing => assert Evaluating in Allowed(s);
    case Evaluating => assert Remediating in Allowed(s);
    case Remediating => assert Verifying in Allowed(s);
    case Verifying => assert RoutingAction in Allowed(s);
    case RoutingAction => assert Complete in Allowed(s);
    case _ =>
  }

  datatype Failure = InvalidTransition

  /** `start_stage`. */
  function StartStage(r: Run, status: Status): Result<Run, Failure> {
    if Terminal(r.status) || status !in Allowed(r.status) then Err(InvalidTransition)
    else Ok(r.(status := status).Append(status, Running, StageTitle))
  }

  /** `finish_stage`. */
  function FinishStage(r: Run): Result<Run, Failure> {
    if !r.IsRunning() then Err(InvalidTransition) else Ok(r.SetLast(Succeeded))
  }

  /** `fail_run`. */
  function FailRun(r: Run, status: Status, retryable: bool, uncertain: bool): Result<Run, Failure> {
    if status !in {FailedRetryable, FailedSafe} || Terminal(r.status) then Err(InvalidTransition)
    else
      var marked := if r.IsRunning() then r.SetLast(Failed) else r.Append(status, Failed, StoppedSafely);
      Ok(marked.(
        status := status,
        limitations := r.limitations + [if uncertain then OutcomeUncertain(retryable) else NoSideEffects(retryable)]))
  }

  predicate MarksAttempt(e: Event) {
    e.title in {AuditStarted, AuditResumed, ActionRetryResumed}
  }

  /** `_attempt_count`. */
  function Attempts(events: seq<Event>): nat {
    if events == [] then 0
    else Attempts(events[..|events| - 1]) + if MarksAttempt(events[|events| - 1]) then 1 else 0
  }

  /** `_fail_retryable`. */
  function FailRetryable(r: Run, uncertain: bool): Result<Run, Failure> {
    var exhausted := Attempts(r.events) >= MAX_RUN_ATTEMPTS;
    FailRun(r, if exhausted then FailedSafe else FailedRetryable, !exhausted, uncertain)
  }

  /** `_new_run`. */
  function NewRun(key: string, repository: Option<Repository>): Run {
    Run(
      key, repository, Received, PendingVerdict,
      Claim("Claim capture not completed.", "", "unavailable", false, None, false, None), [],
      [Event(1, Received, Succeeded, AuditStarted)], [], [], None, None)
  }

  /** `_reset_interrupted_run`. */
  function ResetInterrupted(r: Run): Run {
    var stopped := if r.IsRunning() then r.SetLast(Failed) else r;
    stopped.(
      status := Received, verdict := PendingVerdict, evidence := [], actions := [],
      verification := None, candidate := None).Append(Received, Succeeded, AuditResumed)
  }

  /** A restart is a new run of the same key and repository, but for the last captured claim and for the trail: every
      earlier event and limitation stays, an interrupted stage is marked failed, and the resumption is added. */
  lemma RestartIsNew(r: Run)
    ensures var reset := ResetInterrupted(r);
            && reset == NewRun(r.key, r.repository).(
                 claim := r.claim, limitations := r.limitations, events := reset.events)
            && |reset.events| == |r.events| + 1
            && reset.Last() == Event(|r.events| + 1, Received, Succeeded, AuditResumed)
            && forall i :: 0 <= i < |r.events| ==>
                 reset.events[i] == if i == |r.events| - 1 && r.IsRunning() then r.events[i].(state := Failed)
                                    else r.events[i]
  {
  }

  /** `_resume_action_dispatch`. */
  function ResumeDispatch(r: Run): Run {
    r.(status := RoutingAction).Append(RoutingAction, Running, ActionRetryResumed)
  }

  function ActionStates(r: Run): set<ActionState> {
    set i | 0 <= i < |r.actions| && r.actions[i].kind in {PullRequest, Issue} :: r.actions[i].state
  }

  /** `_failed_during_action_dispatch`. */
  predicate FailedDuringDispatch(r: Run) {
    || Opened in ActionStates(r)
    || (r.events != [] && r.Last().stage == RoutingAction && (Ready in ActionStates(r) || Planned in ActionStates(r)))
  }

  function SetPullRequest(r: Run, a: PlannedAction): Run
    requires |r.actions| == 3
  {
    r.(actions := [a, r.actions[1], r.actions[2]])
  }

  function SetIssue(r: Run, a: PlannedAction): Run
    requires |r.actions| == 3
  {
    r.(actions := [r.actions[0], a, r.actions[2]])
  }

  /** `_select_issue_fallback`. */
  function SelectIssueFallback(r: Run): Run
    requires |r.actions| == 3
  {
    r.(actions := [
      r.actions[0].(state := Blocked, verified := false),
      r.actions[1].(state := Planned),
      r.actions[2]])
  }

  lemma AttemptsAppend(events: seq<Event>, e: Event)
    ensures Attempts(events + [e]) == Attempts(events) + if MarksAttempt(e) then 1 else 0
  {
    assert (events + [e])[..|events|] == events;
  }

  lemma AttemptsSetLast(events: seq<Event>, e: Event)
    requires events != [] && e.title == events[|events| - 1].title
    ensures Attempts(events[|events| - 1 := e]) == Attempts(events)
  {
    assert events[|events| - 1 := e][..|events| - 1] == events[..|events| - 1];
  }
}
