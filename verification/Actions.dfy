/** Verdicts (control.py) and risk-ordered action planning (actions.py). */
module Actions {
  import opened Wrappers
  import opened Verification

  datatype EvidenceResult = ObservedPass | ObservedFail | ObservedUnknown

  datatype EvidenceItem = EvidenceItem(
    id: string, caption: string, expected: string, observed: string, result: EvidenceResult, scope: string)

  datatype Verdict = PendingVerdict | Supported | Contradicted | Inconclusive | NotTested

  function Results(evidence: seq<EvidenceItem>): set<EvidenceResult> {
    set i | 0 <= i < |evidence| :: evidence[i].result
  }

  /** `calculate_verdict`. */
  function CalculateVerdict(evidence: seq<EvidenceItem>): Verdict {
    var results := Results(evidence);
    if ObservedFail in results then Contradicted
    else if evidence == [] || ObservedUnknown in results then Inconclusive
    else if results == {ObservedPass} then Supported
    else Inconclusive
  }

  /** One failed observation contradicts; support needs evidence and every observation passing. */
  lemma VerdictMeaning(evidence: seq<EvidenceItem>)
    ensures CalculateVerdict(evidence) in {Supported, Contradicted, Inconclusive}
    ensures CalculateVerdict(evidence) == Contradicted
            <==> exists i :: 0 <= i < |evidence| && evidence[i].result == ObservedFail
    ensures CalculateVerdict(evidence) == Supported
            <==> evidence != [] && forall i :: 0 <= i < |evidence| ==> evidence[i].result == ObservedPass
  {
    var results := Results(evidence);
    assert forall i :: 0 <= i < |evidence| ==> evidence[i].result in results;
    if evidence != [] && forall i :: 0 <= i < |evidence| ==> evidence[i].result == ObservedPass {
      assert results == {ObservedPass} by { assert evidence[0].result in results; }
    }
    if CalculateVerdict(evidence) == Supported {
      forall i | 0 <= i < |evidence| ensures evidence[i].result == ObservedPass {
        assert evidence[i].result in {ObservedPass};
      }
    }
  }

  datatype ActionKind = PullRequest | Issue | Email
  datatype ActionState = Planned | Blocked | Ready | Opened | Sent | Skipped

  datatype PlannedAction = PlannedAction(kind: ActionKind, state: ActionState, verified: bool, url: Option<string>)

  function SkippedAction(kind: ActionKind): PlannedAction {
    PlannedAction(kind, Skipped, false, None)
  }

  /** The three proposals of `plan_actions`, before validation. */
  function Propose(verdict: Verdict, receipt: Option<Receipt>, contradictions: int, emailEnabled: bool)
    : seq<PlannedAction>
  {
    var proven := ProvesCandidate(receipt);
    if verdict == Contradicted then
      var escalate := emailEnabled && contradictions >= 2;
      [ PlannedAction(PullRequest, if proven then Ready else Blocked, proven, None),
        PlannedAction(Issue, if proven || escalate then Skipped else Planned, false, None),
        PlannedAction(Email, if escalate && !proven then Planned else Skipped, false, None) ]
    else [SkippedAction(PullRequest), SkippedAction(Issue), SkippedAction(Email)]
  }

  predicate Selected(a: PlannedAction) {
    a.state in {Planned, Ready, Opened, Sent}
  }

  function SelectedCount(actions: seq<PlannedAction>): nat {
    if actions == [] then 0 else (if Selected(actions[0]) then 1 else 0) + SelectedCount(actions[1..])
  }

  datatype UnsafePlan = WrongOrder | ClaimsSideEffect | SeveralRoutes | ReadyWithoutProof | VerifiedNotReady

  predicate Ordered(actions: seq<PlannedAction>) {
    |actions| == 3 && actions[0].kind == PullRequest && actions[1].kind == Issue && actions[2].kind == Email
  }

  /** `validate_action_plan`: the first rule a plan breaks, if any. */
  function Validate(actions: seq<PlannedAction>, receipt: Option<Receipt>): Option<UnsafePlan> {
    if !Ordered(actions) then Some(WrongOrder)
    else if exists i :: 0 <= i < |actions| && actions[i].state in {Opened, Sent} then Some(ClaimsSideEffect)
    else if SelectedCount(actions) > 1 then Some(SeveralRoutes)
    else if actions[0].state == Ready then
      if !actions[0].verified || !ProvesCandidate(receipt) then Some(ReadyWithoutProof) else None
    else if actions[0].verified then Some(VerifiedNotReady)
    else None
  }

  /** `plan_actions`; the error is the exception its own validation would raise. */
  function PlanActions(verdict: Verdict, receipt: Option<Receipt>, contradictions: int, emailEnabled: bool)
    : Result<seq<PlannedAction>, UnsafePlan>
  {
    var actions := Propose(verdict, receipt, contradictions, emailEnabled);
    match Validate(actions, receipt)
    case Some(e) => Err(e)
    case None => Ok(actions)
  }

  lemma CountThree(actions: seq<PlannedAction>)
    requires |actions| == 3
    ensures SelectedCount(actions)
            == (if Selected(actions[0]) then 1 else 0)
             + (if Selected(actions[1]) then 1 else 0)
             + (if Selected(actions[2]) then 1 else 0)
  {
    assert actions[1..][1..] == [actions[2]];
    assert SelectedCount(actions[1..][1..]) == if Selected(actions[2]) then 1 else 0;
  }

  /** Fail before, pass after, no regression, on the exact tree, isolated and publishable. */
  predicate Proven(receipt: Option<Receipt>) {
    match receipt
    case None => false
    case Some(Receipt(baseline, control, regression, exactTree, isolated, publishable, _, _, _)) =>
      && baseline == ResultFail && control == ResultPass && regression == ResultPass
      && exactTree && isolated && publishable
  }

  /** Planning never raises, selects one route exactly for a contradiction, and which: the pull request when the
      receipt proves the candidate; else the email when it is enabled and the contradiction repeats; else the issue.
      Nothing is blocked but an unproven pull request. */
  lemma PlanIsSafe(verdict: Verdict, receipt: Option<Receipt>, contradictions: int, emailEnabled: bool)
    ensures var plan := PlanActions(verdict, receipt, contradictions, emailEnabled);
            var proven := Proven(receipt);
            var escalate := emailEnabled && contradictions >= 2;
            && plan == Ok(Propose(verdict, receipt, contradictions, emailEnabled))
            && Ordered(plan.value)
            && SelectedCount(plan.value) == (if verdict == Contradicted then 1 else 0)
            && (Selected(plan.value[0]) <==> verdict == Contradicted && proven)
            && (Selected(plan.value[1]) <==> verdict == Contradicted && !proven && !escalate)
            && (Selected(plan.value[2]) <==> verdict == Contradicted && !proven && escalate)
            && (plan.value[0].state == Ready <==> Selected(plan.value[0]))
            && (plan.value[0].verified <==> plan.value[0].state == Ready)
            && forall i :: 0 <= i < 3 ==>
                 && (Selected(plan.value[i]) || plan.value[i].state in {Skipped, Blocked})
                 && (plan.value[i].state == Blocked <==> i == 0 && verdict == Contradicted && !proven)
                 && (i > 0 ==> plan.value[i].state != Ready && !plan.value[i].verified)
  {
    CountThree(Propose(verdict, receipt, contradictions, emailEnabled));
  }

  /** No two proposals are both selected. */
  ghost predicate OneRoute(actions: seq<PlannedAction>) {
    forall i, j :: 0 <= i < j < |actions| ==> !(Selected(actions[i]) && Selected(actions[j]))
  }

  /** The plans that pass validation: the three proposals in order, none of which claims to have happened, at most one
      selected, and the pull request marked verified exactly when it is ready, which takes a proving receipt. */
  lemma ValidExactly(actions: seq<PlannedAction>, receipt: Option<Receipt>)
    ensures Validate(actions, receipt).None?
            <==> && Ordered(actions) && OneRoute(actions)
                 && (forall i :: 0 <= i < |actions| ==> actions[i].state !in {Opened, Sent})
                 && (actions[0].verified <==> actions[0].state == Ready)
                 && (actions[0].state == Ready ==> Proven(receipt))
  {
    if Ordered(actions) {
      CountThree(actions);
      assert OneRoute(actions) <==>
        && !(Selected(actions[0]) && Selected(actions[1]))
        && !(Selected(actions[0]) && Selected(actions[2]))
        && !(Selected(actions[1]) && Selected(actions[2]));
    }
  }
}
