/** The audit run as the code holds it: one object edited in place. Each method is proved against the function of
    `AuditRuns` that the worker model uses for it. */
module AuditRunObject {
  import opened Wrappers
  import opened Actions
  import opened AuditRuns
  import opened Candidates
  import opened Service
  import opened Verification

  class AuditRun {
    const key: string
    const repository: Option<Repository>
    var status: Status
    var verdict: Verdict
    var claim: Claim
    var evidence: seq<EvidenceItem>
    var events: seq<Event>
    var actions: seq<PlannedAction>
    var limitations: seq<Limitation>
    var verification: Option<Receipt>
    var candidate: Option<Checkpoint>

    function View(): Run
      reads this
    {
      Run(key, repository, status, verdict, claim, evidence, events, actions, limitations, verification, candidate)
    }

    /** `_new_run`. */
    constructor (key: string, repository: Option<Repository>)
      ensures View() == NewRun(key, repository)
    {
      this.key, this.repository := key, repository;
      status, verdict := Received, PendingVerdict;
      claim := Claim("Claim capture not completed.", "", "unavailable", false, None, false, None);
      evidence, actions, limitations := [], [], [];
      events := [Event(1, Received, Succeeded, AuditStarted)];
      verification, candidate := None, None;
    }

    /** `start_stage`; `ok` is false where the code raises, and then nothing has changed. */
    method StartStage(next: Status) returns (ok: bool)
      modifies this`status, this`events
      ensures ok <==> AuditRuns.StartStage(old(View()), next).Ok?
      ensures View() == if ok then AuditRuns.StartStage(old(View()), next).value else old(View())
    {
      if status == Complete || status == FailedRetryable || status == FailedSafe {
        return false;
      }
      if next !in Allowed(status) {
        return false;
      }
      status := next;
      events := events + [Event(|events| + 1, next, Running, StageTitle)];
      return true;
    }

    /** `finish_stage`. */
    method FinishStage() returns (ok: bool)
      modifies this`events
      ensures ok <==> AuditRuns.FinishStage(old(View())).Ok?
      ensures View() == if ok then AuditRuns.FinishStage(old(View())).value else old(View())
    {
      if |events| == 0 || events[|events| - 1].state != Running {
        return false;
      }
      events := events[|events| - 1 := events[|events| - 1].(state := Succeeded)];
      return true;
    }

    /** `fail_run`. */
    method FailRun(next: Status, retryable: bool, uncertain: bool) returns (ok: bool)
      modifies this`status, this`events, this`limitations
      ensures ok <==> AuditRuns.FailRun(old(View()), next, retryable, uncertain).Ok?
      ensures View() == if ok then AuditRuns.FailRun(old(View()), next, retryable, uncertain).value else old(View())
    {
      if next != FailedRetryable && next != FailedSafe {
        return false;
      }
      if Terminal(status) {
        return false;
      }
      status := next;
      if |events| > 0 && events[|events| - 1].state == Running {
        events := events[|events| - 1 := events[|events| - 1].(state := Failed)];
      } else {
        events := events + [Event(|events| + 1, next, Failed, StoppedSafely)];
      }
      limitations := limitations + [if uncertain then OutcomeUncertain(retryable) else NoSideEffects(retryable)];
      return true;
    }

    /** `_attempt_count`: the sum over all events. */
    method AttemptCount() returns (n: nat)
      ensures n == Attempts(events)
    {
      n := 0;
      for i := 0 to |events|
        invariant n == Attempts(events[..i])
      {
        AttemptsAppend(events[..i], events[i]);
        assert events[..i + 1] == events[..i] + [events[i]];
        if events[i].title in {AuditStarted, AuditResumed, ActionRetryResumed} {
          n := n + 1;
        }
      }
      assert events[..|events|] == events;
    }

    /** `_fail_retryable`: the third attempt is the last one that may be retried. */
    method FailRetryable(uncertain: bool) returns (ok: bool)
      modifies this`status, this`events, this`limitations
      ensures ok <==> AuditRuns.FailRetryable(old(View()), uncertain).Ok?
      ensures View() == if ok then AuditRuns.FailRetryable(old(View()), uncertain).value else old(View())
    {
      var attempts := AttemptCount();
      var exhausted := attempts >= MAX_RUN_ATTEMPTS;
      ok := FailRun(if exhausted then FailedSafe else FailedRetryable, !exhausted, uncertain);
    }

    /** `_reset_interrupted_run`. */
    method ResetInterrupted()
      modifies this`status, this`verdict, this`evidence, this`events, this`actions, this`verification, this`candidate
      ensures View() == AuditRuns.ResetInterrupted(old(View()))
    {
      if |events| > 0 && events[|events| - 1].state == Running {
        events := events[|events| - 1 := events[|events| - 1].(state := Failed)];
      }
      status, verdict := Received, PendingVerdict;
      evidence, actions := [], [];
      verification, candidate := None, None;
      events := events + [Event(|events| + 1, Received, Succeeded, AuditResumed)];
    }

    /** `_resume_action_dispatch`. */
    method ResumeDispatch()
      modifies this`status, this`events
      ensures View() == AuditRuns.ResumeDispatch(old(View()))
    {
      status := RoutingAction;
      events := events + [Event(|events| + 1, RoutingAction, Running, ActionRetryResumed)];
    }

    /** `_select_issue_fallback`, on a plan of three actions. */
    method SelectIssueFallback()
      requires |actions| == 3
      modifies this`actions
      ensures View() == AuditRuns.SelectIssueFallback(old(View()))
    {
      actions := actions[0 := actions[0].(state := Blocked, verified := false)];
      actions := actions[1 := actions[1].(state := Planned)];
      assert actions == AuditRuns.SelectIssueFallback(old(View())).actions;
    }
  }

  /** The four operations `create_run` can start, or none when the retry budget is spent. */
  datatype Operation = Execute | DispatchAndComplete | RouteAndComplete | NoOperation

  /** The resume decision of `create_run`, made on the reserved run once the execution lease is held. `saves` says
      that the edited run must be saved before the operation starts. */
  method ChooseOperation(cfg: Config, run: AuditRun, created: bool) returns (operation: Operation, saves: bool)
    modifies run
    ensures var w := Worker(InExecute, Reserved(created), old(run.View()), None, false, None);
            var direct := w.(mode := Direct, run := run.View());
            Granted(cfg, w) ==
              match operation
              case NoOperation => w.(pc := Releasing)
              case Execute =>
                if saves then direct.(pc := Saving(ResumeRestart)) else ExecuteStart(w)
              case DispatchAndComplete =>
                if saves then direct.(pc := Saving(ResumeAction)) else Dispatch(cfg, direct)
              case RouteAndComplete => RouteStart(direct)
    ensures !saves ==> run.View() == old(run.View())
  {
    saves := false;
    if created {
      operation := Execute;
    } else if run.status == FailedRetryable {
      var attempts := run.AttemptCount();
      if attempts < MAX_RUN_ATTEMPTS {
        saves := true;
        if FailedDuringDispatch(run.View()) {
          run.ResumeDispatch();
          operation := DispatchAndComplete;
        } else {
          run.ResetInterrupted();
          operation := Execute;
        }
      } else {
        operation := NoOperation;
      }
    } else if run.status == RoutingAction {
      operation := DispatchAndComplete;
    } else if run.status == Verifying && run.verification.Some? {
      operation := RouteAndComplete;
    } else {
      run.ResetInterrupted();
      operation, saves := Execute, true;
    }
  }
}
