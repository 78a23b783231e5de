/** A lease granted over an overtaken snapshot can create a second artifact. This module shows that it can whenever the
    grant is not safe, so that the condition of `ServiceGrants` is exact. */
module ServiceStale {
  import opened Wrappers
  import opened Actions
  import opened AuditRuns
  import opened Candidates
  import opened Verification
  import opened Service
  import opened ServiceInvariants
  import opened ServiceSteps
  import opened ServiceProofs
  import opened ServiceProtocol
  import opened ServiceRuns
  import opened ServiceGrants
  import opened ServiceRerun
  import opened ServiceDrives

  /** The lease is free for a delivery whose run could be published. */
  ghost predicate Taker(cfg: Config, s: World, w: nat) {
    && Enabled(s, Acquire(w)) && !s.Busy(w)
    && TakerOk(cfg, s.workers[w])
  }

  ghost predicate TakerOk(cfg: Config, w: Worker) {
    && w.pc.Reserved? && !w.invalid && RunOk(cfg, w.run) && ProofOk(w.run) && CanDispatch(cfg, w.run)
    && w.run.status !in {Complete, FailedSafe} && (w.pc.created ==> w.run.status == Received)
  }

  /** `create_run` answers the snapshot by auditing from the beginning. */
  ghost predicate Restarts(cfg: Config, w: Worker) {
    && w.pc.Reserved? && EventsOk(w.run) && CanDispatch(cfg, w.run)
    && !Routing(w.run) && w.run.status !in {Verifying, Complete, FailedSafe}
    && (w.run.status == FailedRetryable ==> Attempts(w.run.events) < MAX_RUN_ATTEMPTS)
    && (w.pc.created ==> w.run.status == Received && !w.run.IsRunning())
  }

  lemma TakerGranted(cfg: Config, s: World, w: nat)
    requires Enabled(s, Acquire(w)) && !s.Busy(w)
    ensures var s1 := Perform(cfg, s, Acquire(w));
            && w in s1.workers && s1.Holds(w) && s1.workers[w] == Granted(cfg, s.workers[w])
            && s1.made == s.made && s1.stored == s.stored && s1.key == s.key
  {
    hide Granted, Step;
  }

  predicate Routing(r: Run) {
    r.status == RoutingAction || (r.status == FailedRetryable && FailedDuringDispatch(r))
  }

  // ----- Auditing again files an issue of its own.

  lemma AuditsAgain(cfg: Config, s: World, w: nat) returns (actions: seq<Action>)
    requires w in s.workers && s.Holds(w) && s.made.Count() == 1
    requires EventsOk(s.workers[w].run) && CanDispatch(cfg, s.workers[w].run)
    requires || (s.workers[w].pc == Saving(ResumeRestart) && s.workers[w].run.status == Received
                 && !s.workers[w].run.IsRunning())
             || At(s.workers[w], CaptureStarted, Capturing, Running)
    ensures Happens(cfg, s, actions) && GrantsCurrent(cfg, s, actions) && After(cfg, s, actions).made.Count() == 2
  {
    var evidence := FreshEvidence(s.made);
    PromiseIsBindable();
    var replies, w' := RestartToIssue(cfg, s.workers[w], PROMISE_PAGE, PROMISE_PAYLOAD, evidence);
    hide Step, Granted, EventsOk, At, Reaches, CalculateVerdict;
    NewIssue(w', evidence, s.made);
    actions := DrivenToSecond(cfg, s, w, replies, w');
  }

  lemma NewIssue(w: Worker, evidence: seq<EvidenceItem>, made: Artifacts)
    requires w.pc == Calling(Publish(Issue)) && w.run.evidence == evidence
    requires forall k :: k in made.issues ==> k.observations != Observed(evidence)
    ensures NewTarget(w, made)
  {
    assert IssueKeyOf(w.run).observations == Observed(evidence);
  }

  lemma RestartShape(cfg: Config, w: Worker)
    requires Restarts(cfg, w)
    ensures var granted := Granted(cfg, w);
            && EventsOk(granted.run) && CanDispatch(cfg, granted.run)
            && ((granted.pc == Saving(ResumeRestart) && granted.run.status == Received && !granted.run.IsRunning())
                || At(granted, CaptureStarted, Capturing, Running))
  {
    if w.pc.created {
      Started(w.run, Capturing);
    } else {
      ResetRun(w.run);
    }
  }

  lemma RestartsToSecond(cfg: Config, s: World, w: nat) returns (actions: seq<Action>)
    requires Enabled(s, Acquire(w)) && !s.Busy(w) && Restarts(cfg, s.workers[w]) && s.made.Count() == 1
    ensures var s1 := Perform(cfg, s, Acquire(w));
            && Happens(cfg, s1, actions) && GrantsCurrent(cfg, s1, actions)
            && After(cfg, s1, actions).made.Count() == 2
  {
    RestartShape(cfg, s.workers[w]);
    hide Granted, Step, Restarts, EventsOk, At;
    actions := AuditsAgain(cfg, Perform(cfg, s, Acquire(w)), w);
  }

  // ----- A run without a route can become one that is audited again.

  lemma SavesFailure(cfg: Config, s: World, w: nat) returns (after: World)
    requires w in s.workers && s.Holds(w) && s.workers[w].pc == Saving(CheckpointFailed)
    ensures var save := Advance(w, Saved, s.made);
            && Happens(cfg, s, [save]) && GrantsCurrent(cfg, s, [save]) && After(cfg, s, [save]) == after
            && after.stored == Some(s.workers[w].run) && after.made == s.made && after.key == s.key
  {
    var save := Advance(w, Saved, s.made);
    OneAction(cfg, s, save);
    after := Perform(cfg, s, save);
  }

  /** What is stored is taken up again, from the beginning. */
  lemma StoredRestarts(cfg: Config, s: World) returns (actions: seq<Action>)
    requires s.stored.Some? && Restarts(cfg, Taking(s.stored.value)) && s.made.Count() == 1
    ensures Happens(cfg, s, actions) && GrantsCurrent(cfg, s, actions) && After(cfg, s, actions).made.Count() == 2
  {
    assert s.stored.value.status !in {Complete, FailedSafe};
    hide Granted, Step, Restarts, Happens, GrantsCurrent, After, Perform;
    var v, again := TakenUpAgain(cfg, s);
    var ready := After(cfg, s, again);
    OneAction(cfg, ready, Acquire(v));
    var rest := RestartsToSecond(cfg, ready, v);
    HappensAppend(cfg, ready, [Acquire(v)], rest);
    HappensAppend(cfg, s, again, [Acquire(v)] + rest);
    actions := again + ([Acquire(v)] + rest);
  }

  lemma UnroutedRestarts(cfg: Config, r: Run)
    requires Unrouted(r) && r.status == FailedRetryable && CanDispatch(cfg, r)
    ensures Restarts(cfg, Taking(r))
  {
  }

  lemma UnroutedToSecond(cfg: Config, s: World, w: nat) returns (actions: seq<Action>)
    requires Taker(cfg, s, w) && s.made.Count() == 1
    requires var r := s.workers[w].run;
             r.status == RoutingAction && Plan(r, Skipped, Skipped) && Attempts(r.events) < MAX_RUN_ATTEMPTS
    ensures var s1 := Perform(cfg, s, Acquire(w));
            && Happens(cfg, s1, actions) && GrantsCurrent(cfg, s1, actions)
            && After(cfg, s1, actions).made.Count() == 2
  {
    var worker := s.workers[w];
    var replies, w' := CompletionLost(cfg, worker.(mode := Direct));
    UnroutedRestarts(cfg, w'.run);
    assert Granted(cfg, worker) == Dispatch(cfg, worker.(mode := Direct));
    hide Granted, Dispatch, Step, TakerOk, Restarts, Unrouted, Happens, GrantsCurrent, After;
    var s1 := Perform(cfg, s, Acquire(w));
    actions := LostToSecond(cfg, s1, w, replies, w');
  }

  lemma LostToSecond(cfg: Config, s: World, w: nat, replies: seq<Reply>, w': Worker) returns (actions: seq<Action>)
    requires w in s.workers && s.Holds(w) && Reaches(cfg, s.workers[w], replies, w') && s.made.Count() == 1
    requires w'.pc == Saving(CheckpointFailed) && Restarts(cfg, Taking(w'.run))
    ensures Happens(cfg, s, actions) && GrantsCurrent(cfg, s, actions) && After(cfg, s, actions).made.Count() == 2
  {
    hide Granted, Step, Restarts, Happens, GrantsCurrent, After, Perform;
    var driven := Drives(cfg, s, w, replies, w');
    var lost := After(cfg, s, driven);
    var saved := SavesFailure(cfg, lost, w);
    var rest := StoredRestarts(cfg, saved);
    var save := Advance(w, Saved, lost.made);
    HappensAppend(cfg, lost, [save], rest);
    HappensAppend(cfg, s, driven, [save] + rest);
    actions := driven + ([save] + rest);
  }

  // ----- A recorded route that names something else.

  lemma RoutingFacts(cfg: Config, w: Worker, made: Artifacts)
    requires TakerOk(cfg, w) && Routing(w.run) && !Accounts(w.run, made) && made.Count() == 1
    requires !Plan(w.run, Skipped, Skipped)
    ensures w.pc == Reserved(false) && EventsOk(w.run) && Resumable(w.run) && Unpublished(cfg, w.run)
    ensures w.run.status == FailedRetryable ==> Attempts(w.run.events) < MAX_RUN_ATTEMPTS
    ensures if PlannedKind(w.run) == PullRequest then PrKeyOf(w.run) !in made.prs else IssueKeyOf(w.run) !in made.issues
  {
    if PrKeyOf(w.run) in made.prs {
      OneMade(made, PrKeyOf(w.run));
    }
    if IssueKeyOf(w.run) in made.issues {
      OneIssueMade(made, IssueKeyOf(w.run));
    }
  }

  lemma Targets(w: Worker, made: Artifacts)
    requires w.pc.Calling? && w.pc.call.Publish? && w.pc.call.kind != Email
    requires if w.pc.call.kind == PullRequest then PrKeyOf(w.run) !in made.prs else IssueKeyOf(w.run) !in made.issues
    ensures NewTarget(w, made)
  {
  }

  lemma RoutingToSecond(cfg: Config, s: World, w: nat) returns (actions: seq<Action>)
    requires Taker(cfg, s, w) && s.made.Count() == 1 && !Accounts(s.workers[w].run, s.made)
    requires Routing(s.workers[w].run) && !Plan(s.workers[w].run, Skipped, Skipped)
    ensures var s1 := Perform(cfg, s, Acquire(w));
            && Happens(cfg, s1, actions) && GrantsCurrent(cfg, s1, actions)
            && After(cfg, s1, actions).made.Count() == 2
  {
    RoutingFacts(cfg, s.workers[w], s.made);
    TakerGranted(cfg, s, w);
    hide Granted, Step, TakerOk, Resumable, Unpublished, EventsOk, Accounts, ProvesCandidate, NewTarget;
    hide Perform, Happens, GrantsCurrent, After;
    var replies, w' := ResumeToPublisher(cfg, s.workers[w]);
    Targets(w', s.made);
    actions := DrivenToSecond(cfg, Perform(cfg, s, Acquire(w)), w, replies, w');
  }

  // ----- A verified repair that is planned again and names something else.

  lemma VerifyingFacts(cfg: Config, w: Worker, made: Artifacts)
    requires TakerOk(cfg, w) && w.run.status == Verifying && !Accounts(w.run, made) && made.Count() == 1
    ensures w.pc == Reserved(false) && RunOk(cfg, w.run) && CanDispatch(cfg, w.run)
    ensures ProvesCandidate(w.run.verification) ==> w.run.candidate.Some?
    ensures if ProvesCandidate(w.run.verification) then PrKeyOf(w.run) !in made.prs
            else IssueKeyOf(w.run) !in made.issues
  {
    if PrKeyOf(w.run) in made.prs {
      OneMade(made, PrKeyOf(w.run));
    }
    if IssueKeyOf(w.run) in made.issues {
      OneIssueMade(made, IssueKeyOf(w.run));
    }
  }

  lemma VerifyingToSecond(cfg: Config, s: World, w: nat) returns (actions: seq<Action>)
    requires Taker(cfg, s, w) && s.made.Count() == 1 && !Accounts(s.workers[w].run, s.made)
    requires s.workers[w].run.status == Verifying
    ensures var s1 := Perform(cfg, s, Acquire(w));
            && Happens(cfg, s1, actions) && GrantsCurrent(cfg, s1, actions)
            && After(cfg, s1, actions).made.Count() == 2
  {
    VerifyingFacts(cfg, s.workers[w], s.made);
    TakerGranted(cfg, s, w);
    hide Granted, Step, TakerOk, RunOk, Accounts, ProvesCandidate, NewTarget;
    hide Perform, Happens, GrantsCurrent, After;
    var replies, w' := RouteToPublisher(cfg, s.workers[w]);
    Targets(w', s.made);
    actions := DrivenToSecond(cfg, Perform(cfg, s, Acquire(w)), w, replies, w');
  }

  /** Once something exists that the run does not account for, taking the run up can create a second artifact. */
  lemma SecondArtifact(cfg: Config, s: World, w: nat) returns (actions: seq<Action>)
    requires Taker(cfg, s, w) && s.made.Count() == 1 && !Accounts(s.workers[w].run, s.made)
    ensures var s1 := Perform(cfg, s, Acquire(w));
            && Happens(cfg, s1, actions) && GrantsCurrent(cfg, s1, actions)
            && After(cfg, s1, actions).made.Count() == 2
  {
    SecondCases(cfg, s.workers[w], s.made);
    hide Granted, Step, RunOk, ProofOk, Restarts, Routing, Accounts, Happens, GrantsCurrent, After, Perform;
    if s.workers[w].run.status == Verifying {
      actions := VerifyingToSecond(cfg, s, w);
    } else if !Routing(s.workers[w].run) {
      actions := RestartsToSecond(cfg, s, w);
    } else if Plan(s.workers[w].run, Skipped, Skipped) {
      actions := UnroutedToSecond(cfg, s, w);
    } else {
      actions := RoutingToSecond(cfg, s, w);
    }
  }

  lemma SecondCases(cfg: Config, w: Worker, made: Artifacts)
    requires TakerOk(cfg, w) && made.Count() == 1 && !Accounts(w.run, made)
    ensures w.run.status != Verifying && !Routing(w.run) ==> Restarts(cfg, w)
    ensures Routing(w.run) && Plan(w.run, Skipped, Skipped) ==>
              w.run.status == RoutingAction && Attempts(w.run.events) < MAX_RUN_ATTEMPTS
  {
    if Routing(w.run) && Plan(w.run, Skipped, Skipped) {
      assert w.run.status == RoutingAction;
    }
  }

  // ----- What a grant publishes before it saves, the stored run does not know of.

  /** The holder reaches the publisher of its snapshot, the publication takes effect, and the worker dies. */
  lemma PublishedAndLost(cfg: Config, s: World, w: nat) returns (actions: seq<Action>)
    requires Taker(cfg, s, w) && PublishesFirst(cfg, s.workers[w].run)
    ensures var s1 := Perform(cfg, s, Acquire(w));
            && Happens(cfg, s1, actions) && GrantsCurrent(cfg, s1, actions)
            && After(cfg, s1, actions).stored == s.stored && After(cfg, s1, actions).key == s.key
            && After(cfg, s1, actions).made == Added(s.made, s.workers[w].run, PlannedKind(s.workers[w].run))
  {
    AsksFirst(cfg, s.workers[w]);
    TakerGranted(cfg, s, w);
    var s1 := Perform(cfg, s, Acquire(w));
    var kind := PlannedKind(s.workers[w].run);
    hide Granted, TakerOk, PublishesFirst, Perform, PlannedKind, Happens, GrantsCurrent, After;
    LeaseTaken(cfg, s1, w, kind);
    var lease := Advance(w, LeaseGranted, s1.made);
    var s2 := Perform(cfg, s1, lease);
    DiesPublishing(cfg, s2, w, kind);
    var lost := Crash(w, Added(s2.made, s2.workers[w].run, kind));
    HappensAppend(cfg, s1, [lease], [lost]);
    actions := [lease] + [lost];
  }

  lemma LeaseTaken(cfg: Config, s: World, w: nat, kind: ActionKind)
    requires w in s.workers && s.Holds(w) && s.workers[w].pc == Calling(AcquireAction(kind))
    requires kind == PullRequest ==> s.workers[w].run.candidate.Some?
    ensures var lease := Advance(w, LeaseGranted, s.made);
            && Happens(cfg, s, [lease]) && GrantsCurrent(cfg, s, [lease])
            && Enabled(s, lease) && After(cfg, s, [lease]) == Perform(cfg, s, lease)
            && var next := Perform(cfg, s, lease);
               && w in next.workers && next.Holds(w) && next.workers[w] == s.workers[w].(pc := Calling(Publish(kind)))
               && next.made == s.made && next.stored == s.stored && next.key == s.key
  {
    var lease := Advance(w, LeaseGranted, s.made);
    assert Step(cfg, s.workers[w], LeaseGranted) == s.workers[w].(pc := Calling(Publish(kind)));
    hide Step, Granted;
    OneAction(cfg, s, lease);
  }

  lemma DiesPublishing(cfg: Config, s: World, w: nat, kind: ActionKind)
    requires w in s.workers && s.Holds(w) && s.workers[w].pc == Calling(Publish(kind)) && kind != Email
    ensures var lost := Crash(w, Added(s.made, s.workers[w].run, kind));
            && Happens(cfg, s, [lost]) && GrantsCurrent(cfg, s, [lost])
            && After(cfg, s, [lost]) == s.(made := lost.made).Set(w, s.workers[w].(pc := Done))
  {
    hide Step, Granted;
    OneAction(cfg, s, Crash(w, Added(s.made, s.workers[w].run, kind)));
  }

  lemma AsksFirst(cfg: Config, w: Worker)
    requires TakerOk(cfg, w) && PublishesFirst(cfg, w.run)
    ensures Granted(cfg, w) == w.(mode := Direct, pc := Calling(AcquireAction(PlannedKind(w.run))))
    ensures PlannedKind(w.run) == PullRequest ==> w.run.candidate.Some?
  {
    hide RunOk, ProofOk, Raise, End, CompleteStart, ExecuteStart, EventsOk;
    assert !w.pc.created;
  }

  /** The run that is still stored is taken up again, and does not account for what was published. */
  lemma UnknownToStored(cfg: Config, s: World, w: nat) returns (actions: seq<Action>)
    requires Taker(cfg, s, w) && PublishesFirst(cfg, s.workers[w].run) && s.made.Empty()
    requires s.stored.Some? && TakerOk(cfg, Taking(s.stored.value))
    requires !Accounts(s.stored.value, Added(s.made, s.workers[w].run, PlannedKind(s.workers[w].run)))
    ensures var s1 := Perform(cfg, s, Acquire(w));
            && Happens(cfg, s1, actions) && GrantsCurrent(cfg, s1, actions)
            && After(cfg, s1, actions).made.Count() == 2
  {
    var lost := PublishedAndLost(cfg, s, w);
    OneAdded(cfg, s.workers[w].run);
    assert s.stored.value.status !in {Complete, FailedSafe};
    hide Granted, Step, TakerOk, PublishesFirst, Accounts, Added, Happens, GrantsCurrent, After, Perform;
    var s1 := Perform(cfg, s, Acquire(w));
    var s2 := After(cfg, s1, lost);
    var v, again := TakenUpAgain(cfg, s2);
    var s3 := After(cfg, s2, again);
    OneAction(cfg, s3, Acquire(v));
    var rest := SecondArtifact(cfg, s3, v);
    HappensAppend(cfg, s3, [Acquire(v)], rest);
    HappensAppend(cfg, s2, again, [Acquire(v)] + rest);
    HappensAppend(cfg, s1, lost, again + ([Acquire(v)] + rest));
    actions := lost + (again + ([Acquire(v)] + rest));
  }

  lemma OneAdded(cfg: Config, r: Run)
    requires PublishesFirst(cfg, r)
    ensures Added(Artifacts({}, {}), r, PlannedKind(r)).Count() == 1
  {
  }

  // ----- The exact condition.

  /** Whatever happens next, as long as later leases are granted over current snapshots or over safe ones, at most one
      artifact comes to exist. */
  ghost predicate AtMostOneFrom(cfg: Config, s: World) {
    forall actions :: Happens(cfg, s, actions) && GrantsCareful(cfg, s, actions) ==>
      After(cfg, s, actions).made.Count() <= 1
  }

  lemma SafeGrants(cfg: Config, s: World, w: nat)
    requires SafeInv(cfg, s) && Enabled(s, Acquire(w)) && CarefulGrant(cfg, s, Acquire(w))
    ensures AtMostOneFrom(cfg, Perform(cfg, s, Acquire(w)))
  {
    var s1 := Perform(cfg, s, Acquire(w));
    SafeKeeps(cfg, s, Acquire(w));
    hide SafeInv, Perform, Enabled;
    forall actions | Happens(cfg, s1, actions) && GrantsCareful(cfg, s1, actions)
      ensures After(cfg, s1, actions).made.Count() <= 1
    {
      CarefulHistory(cfg, s1, actions);
    }
  }

  lemma TwoFrom(cfg: Config, s: World, actions: seq<Action>)
    requires Happens(cfg, s, actions) && GrantsCurrent(cfg, s, actions) && After(cfg, s, actions).made.Count() == 2
    ensures !AtMostOneFrom(cfg, s)
  {
    CurrentIsCareful(cfg, s, actions);
  }

  /** An unsafe grant, by what makes it unsafe. */
  lemma UnsafeForms(cfg: Config, s: World, w: nat)
    requires SafeInv(cfg, s) && Enabled(s, Acquire(w)) && !s.Busy(w) && s.stored.Some?
    requires !SafeToGrant(cfg, s.workers[w].run, s.stored.value, s.made)
    ensures Taker(cfg, s, w)
    ensures if s.made.Empty() then
              && PublishesFirst(cfg, s.workers[w].run) && TakerOk(cfg, Taking(s.stored.value))
              && !Accounts(s.stored.value, Added(s.made, s.workers[w].run, PlannedKind(s.workers[w].run)))
            else s.made.Count() == 1 && !Accounts(s.workers[w].run, s.made)
  {
    var worker := s.workers[w];
    var stored := s.stored.value;
    assert WorkerOk(cfg, s.key, worker, s.made) && Fit(cfg, stored, s.made);
    assert worker.run.repository == stored.repository;
    assert CanDispatch(cfg, worker.run);
    if !s.made.Empty() {
      assert s.made.Count() == 1;
      if PublishesFirst(cfg, worker.run) && Accounts(worker.run, s.made) {
        AddsNothing(cfg, worker.run, s.made);
      }
    }
  }

  lemma AddsNothing(cfg: Config, r: Run, made: Artifacts)
    requires PublishesFirst(cfg, r) && Accounts(r, made) && !made.Empty()
    ensures Added(made, r, PlannedKind(r)) == made
  {
    assert ActionIs(r, 0, Ready) || ActionIs(r, 1, Planned);
  }

  lemma UnsafeGrants(cfg: Config, s: World, w: nat)
    requires SafeInv(cfg, s) && Enabled(s, Acquire(w)) && !s.Busy(w) && s.stored.Some?
    requires !SafeToGrant(cfg, s.workers[w].run, s.stored.value, s.made)
    ensures !AtMostOneFrom(cfg, Perform(cfg, s, Acquire(w)))
  {
    UnsafeForms(cfg, s, w);
    hide SafeInv, SafeToGrant, Taker, TakerOk, PublishesFirst, Accounts, Added, Perform, AtMostOneFrom;
    hide Happens, GrantsCurrent, After;
    var actions;
    if s.made.Empty() {
      actions := UnknownToStored(cfg, s, w);
    } else {
      actions := SecondArtifact(cfg, s, w);
    }
    TwoFrom(cfg, Perform(cfg, s, Acquire(w)), actions);
  }

  /** For every grant of a free lease, over whatever snapshot: at most one artifact comes to exist, in all continuations
      whose later leases are granted over current or safe snapshots, if and only if this grant is safe. */
  lemma GrantIsSafeExactly(cfg: Config, key: string, actions: seq<Action>, w: nat)
    requires Happens(cfg, Start(key), actions) && GrantsCareful(cfg, Start(key), actions)
    requires var s := After(cfg, Start(key), actions); Enabled(s, Acquire(w)) && !s.Busy(w)
    ensures var s := After(cfg, Start(key), actions);
            && w in s.workers && s.stored.Some?
            && (AtMostOneFrom(cfg, Perform(cfg, s, Acquire(w)))
                <==> SafeToGrant(cfg, s.workers[w].run, s.stored.value, s.made))
  {
    CarefulHistory(cfg, Start(key), actions);
    var s := After(cfg, Start(key), actions);
    StoredOnce(cfg, s, w);
    hide SafeInv, SafeToGrant, Perform, AtMostOneFrom, Happens, GrantsCareful, After;
    if SafeToGrant(cfg, s.workers[w].run, s.stored.value, s.made) {
      SafeGrants(cfg, s, w);
    } else {
      UnsafeGrants(cfg, s, w);
    }
  }

  lemma StoredOnce(cfg: Config, s: World, w: nat)
    requires SafeInv(cfg, s) && Enabled(s, Acquire(w))
    ensures w in s.workers && s.stored.Some?
  {
  }
}
