/** Unsafe grants are reachable with current ones only: deliveries of one key that read the run before they wait for the
    lease are enough. */
module ServiceOvertaken {
  import opened Wrappers
  import opened Actions
  import opened AuditRuns
  import opened Candidates
  import opened Verification
  import opened Service
  import opened ServiceInvariants
  import opened ServiceSteps
  import opened ServiceProofs
  import opened ServiceProtocol
  import opened ServiceSafety
  import opened ServiceGrants
  import opened ServiceRerun
  import opened ServiceDrives

  /** The issue publisher confirms the issue of the worker's run. */
  function IssueConfirmed(s: World, w: nat): Action
    requires w in s.workers
  {
    Advance(w, PublishConfirmed("issue"), s.made.(issues := s.made.issues + {IssueKeyOf(s.workers[w].run)}))
  }

  lemma IssueCanBeConfirmed(s: World, w: nat)
    requires w in s.workers && s.Holds(w) && s.workers[w].pc == Calling(Publish(Issue))
    ensures Enabled(s, IssueConfirmed(s, w)) && CurrentGrant(s, IssueConfirmed(s, w))
  {
  }

  lemma IssueIsConfirmed(cfg: Config, s: World, w: nat)
    requires w in s.workers && s.Holds(w) && s.workers[w].pc == Calling(Publish(Issue))
    requires Enabled(s, IssueConfirmed(s, w)) && AtReceipt(Step(cfg, s.workers[w], PublishConfirmed("issue")))
    ensures var after := Perform(cfg, s, IssueConfirmed(s, w));
            && !after.made.Empty() && after.lease == s.lease && after.clock == s.clock
            && w in after.workers && after.workers == s.workers[w := after.workers[w]]
            && AtReceipt(after.workers[w])
  {
    hide AtReceipt, Step, Granted, Enabled;
    assert IssueKeyOf(s.workers[w].run) in IssueConfirmed(s, w).made.issues;
  }

  /** The holder at the issue publisher confirms an issue. */
  lemma ConfirmsIssue(cfg: Config, s: World, w: nat)
    requires Inv(cfg, s) && w in s.workers && s.Holds(w) && s.workers[w].pc == Calling(Publish(Issue))
    ensures Enabled(s, IssueConfirmed(s, w)) && CurrentGrant(s, IssueConfirmed(s, w))
    ensures var after := Perform(cfg, s, IssueConfirmed(s, w));
            && !after.made.Empty() && after.lease == s.lease && after.clock == s.clock
            && w in after.workers && after.workers == s.workers[w := after.workers[w]]
            && AtReceipt(after.workers[w])
  {
    hide AtReceipt, Step, Inv, Granted;
    AtPublisher(cfg, s, w);
    ReceiptReached(cfg, s.workers[w]);
    IssueCanBeConfirmed(s, w);
    IssueIsConfirmed(cfg, s, w);
  }

  lemma AtPublisher(cfg: Config, s: World, w: nat)
    requires Inv(cfg, s) && w in s.workers && s.Holds(w) && s.workers[w].pc == Calling(Publish(Issue))
    ensures Dispatching(cfg, s.workers[w].run, Issue) && EventsOk(s.workers[w].run)
    ensures s.workers[w].run.Last().stage == RoutingAction
  {
  }

  lemma ReceiptReached(cfg: Config, w: Worker)
    requires w.pc == Calling(Publish(Issue)) && Dispatching(cfg, w.run, Issue) && EventsOk(w.run)
    ensures AtReceipt(Step(cfg, w, PublishConfirmed("issue")))
  {
    ConfirmedStep(cfg, w, Issue, "issue");
    MarkedEnds(w, Issue, "issue");
    hide Step, End;
  }

  ghost predicate AtReceipt(w: Worker) {
    w.pc == Saving(ActionOpened(Issue)) && ActionIs(w.run, 1, Opened)
  }

  /** The receipt is saved, and then nothing happens until the lease has run out. */
  lemma ReceiptSaved(cfg: Config, s: World, w: nat) returns (actions: seq<Action>)
    requires w in s.workers && s.Holds(w) && AtReceipt(s.workers[w])
    ensures Happens(cfg, s, actions) && GrantsCurrent(cfg, s, actions)
    ensures var after := After(cfg, s, actions);
            && after.made == s.made && after.stored == Some(s.workers[w].run)
            && (forall v :: !after.Busy(v)) && w in after.workers && after.workers == s.workers[w := after.workers[w]]
  {
    hide Step, Granted;
    var save := Advance(w, Saved, s.made);
    OneAction(cfg, s, save);
    var s1 := Perform(cfg, s, save);
    var wait := Tick(s1.lease.value.expiry);
    OneAction(cfg, s1, wait);
    HappensAppend(cfg, s, [save], [wait]);
    actions := [save] + [wait];
  }

  /** From its first save, the audit of a promise that is broken reaches the issue publisher. */
  lemma DrivenToPublisher(cfg: Config, s: World) returns (driven: seq<Action>)
    requires 0 in s.workers && s.Holds(0) && s.made.Empty() && s.workers[0].mode == InExecute
    requires At(s.workers[0], CaptureStarted, Capturing, Running) && CanDispatch(cfg, s.workers[0].run)
    ensures Happens(cfg, s, driven) && GrantsCurrent(cfg, s, driven)
    ensures var after := After(cfg, s, driven);
            && 0 in after.workers && after.workers == s.workers[0 := after.workers[0]]
            && after.made == s.made && after.Holds(0)
            && after.workers[0].pc == Calling(Publish(Issue)) && after.workers[0].mode == InExecute
            && Attempts(after.workers[0].run.events) == Attempts(s.workers[0].run.events)
  {
    AtCapture(s.workers[0]);
    var evidence := FreshEvidence(s.made);
    PromiseIsBindable();
    hide Happens, After, GrantsCurrent, Reaches, Step, Granted, At, CalculateVerdict, EventsOk, Bindable;
    var replies, w' := RestartToIssue(cfg, s.workers[0], PROMISE_PAGE, PROMISE_PAYLOAD, evidence);
    driven := Drives(cfg, s, 0, replies, w');
  }

  lemma KeysKept(workers: map<nat, Worker>, after: map<nat, Worker>)
    requires 0 in workers && 0 in after && after == workers[0 := after[0]]
    ensures after.Keys == workers.Keys
  {
  }

  lemma AtCapture(w: Worker)
    requires At(w, CaptureStarted, Capturing, Running)
    ensures EventsOk(w.run)
  {
  }

  /** The first of two deliveries reaches the issue publisher. */
  lemma FirstAtPublisher(cfg: Config, key: string, repository: Option<Repository>) returns (actions: seq<Action>)
    requires cfg.actionsEnabled && repository.Some?
    ensures Happens(cfg, Start(key), actions) && GrantsCurrent(cfg, Start(key), actions)
    ensures var s := After(cfg, Start(key), actions);
            && Inv(cfg, s) && s.workers.Keys == {0, 1} && s.Holds(0) && s.made.Empty()
            && s.workers[0].pc == Calling(Publish(Issue)) && s.workers[0].mode == InExecute
            && Attempts(s.workers[0].run.events) == 1 && s.workers[1] == Taking(NewRun(key, repository))
  {
    hide Happens, After, GrantsCurrent, Step, Granted, Perform, Enabled, At, Inv, EventsOk, NewRun;
    var reserved := TwoDeliveries(cfg, key, repository);
    var s := After(cfg, Start(key), reserved);
    var driven := DrivenToPublisher(cfg, s);
    HappensAppend(cfg, Start(key), reserved, driven);
    actions := reserved + driven;
    StartInv(cfg, key);
    HistoryKeeps(cfg, Start(key), actions);
    KeysKept(s.workers, After(cfg, s, driven).workers);
  }

  /** Two deliveries of one key, both read before either takes the lease: the first files an issue and records it, and
      the second can then be granted the lease over its old snapshot, which is not safe. */
  lemma OvertakenSnapshotReachable(cfg: Config, key: string, repository: Option<Repository>)
    returns (actions: seq<Action>)
    requires cfg.actionsEnabled && repository.Some?
    ensures Happens(cfg, Start(key), actions) && GrantsCurrent(cfg, Start(key), actions)
    ensures var s := After(cfg, Start(key), actions);
            && Enabled(s, Acquire(1)) && !s.Busy(1) && s.workers[1] == Taking(NewRun(key, repository))
            && s.stored.Some? && ActionIs(s.stored.value, 1, Opened)
            && !SafeToGrant(cfg, s.workers[1].run, s.stored.value, s.made)
  {
    var first := FirstAtPublisher(cfg, key, repository);
    var s1 := After(cfg, Start(key), first);
    var publish := IssueConfirmed(s1, 0);
    hide Inv, AtReceipt, Happens, GrantsCurrent, After, Perform, Step, Granted, SafeToGrant, Enabled, NewRun;
    ConfirmsIssue(cfg, s1, 0);
    OneAction(cfg, s1, publish);
    var s2 := Perform(cfg, s1, publish);
    var rest := ReceiptSaved(cfg, s2, 0);
    HappensAppend(cfg, s1, [publish], rest);
    HappensAppend(cfg, Start(key), first, [publish] + rest);
    actions := first + ([publish] + rest);
    ReceiptOpened(s2.workers[0]);
    NewRunUnsafe(cfg, After(cfg, Start(key), actions), key, repository);
  }

  lemma NewRunUnsafe(cfg: Config, s: World, key: string, repository: Option<Repository>)
    requires 1 in s.workers && s.workers[1] == Taking(NewRun(key, repository)) && s.stored.Some? && !s.made.Empty()
    ensures Enabled(s, Acquire(1)) && !SafeToGrant(cfg, s.workers[1].run, s.stored.value, s.made)
  {
    assert AimOf(NewRun(key, repository)) == Anything;
  }

  lemma ReceiptOpened(w: Worker)
    requires AtReceipt(w)
    ensures ActionIs(w.run, 1, Opened)
  {
  }

  /** Granting it undoes a recorded OPENED issue, with the very next save. */
  lemma OpenedCanBeUndone(cfg: Config, key: string, repository: Option<Repository>)
    returns (first: seq<Action>, rest: seq<Action>)
    requires cfg.actionsEnabled && repository.Some?
    ensures Happens(cfg, Start(key), first) && Happens(cfg, After(cfg, Start(key), first), rest)
    ensures var s := After(cfg, Start(key), first);
            var s' := After(cfg, s, rest);
            s.stored.Some? && s'.stored.Some? && !OpenedKept(s.stored.value, s'.stored.value)
  {
    first := OvertakenSnapshotReachable(cfg, key, repository);
    var s := After(cfg, Start(key), first);
    hide Happens, GrantsCurrent, After, SafeToGrant;
    rest := RestartSaves(cfg, s, key, repository);
  }

  lemma RestartSaves(cfg: Config, s: World, key: string, repository: Option<Repository>) returns (rest: seq<Action>)
    requires Enabled(s, Acquire(1)) && !s.Busy(1) && s.workers[1] == Taking(NewRun(key, repository))
    ensures Happens(cfg, s, rest)
    ensures After(cfg, s, rest).stored.Some? && After(cfg, s, rest).stored.value.actions == []
  {
    OneAction(cfg, s, Acquire(1));
    var s1 := Perform(cfg, s, Acquire(1));
    assert s1.workers[1].pc == Saving(ResumeRestart) && s1.workers[1].run.actions == [];
    hide Granted, Step;
    var save := Advance(1, Saved, s1.made);
    OneAction(cfg, s1, save);
    HappensAppend(cfg, s, [Acquire(1)], [save]);
    rest := [Acquire(1)] + [save];
  }

  // ----- The other unsafe grant: the snapshot publishes before it saves, and the stored run has moved on.

  /** Inside `_execute`, a network error from a publisher, with attempts left, ends in an abstaining run that audits
      again. */
  lemma AbstainsAtPublisher(cfg: Config, w: Worker, kind: ActionKind)
    requires w.pc == Calling(Publish(kind)) && w.mode == InExecute && EventsOk(w.run) && w.run.status == RoutingAction
    requires Attempts(w.run.events) < MAX_RUN_ATTEMPTS
    ensures var failed := Step(cfg, w, NetworkError);
            failed.pc == Saving(HandlerFailed) && AimOf(failed.run) == Anything
  {
    assert Step(cfg, w, NetworkError) == Handle(w, Network);
    hide Step, Handle;
    FailsRetryably(w);
  }

  /** The holder at the publisher fails, saves that, and the lease runs out; meanwhile a delivery has read its plan. */
  lemma MovesOn(cfg: Config, s: World, v: nat) returns (actions: seq<Action>)
    requires 0 in s.workers && s.Holds(0) && v !in s.workers && s.stored == Some(s.workers[0].run)
    requires s.workers[0].pc == Calling(Publish(Issue))
    requires var failed := Step(cfg, s.workers[0], NetworkError); failed.pc == Saving(HandlerFailed)
    ensures Happens(cfg, s, actions) && GrantsCurrent(cfg, s, actions)
    ensures var after := After(cfg, s, actions);
            && after.made == s.made && after.stored == Some(Step(cfg, s.workers[0], NetworkError).run)
            && v in after.workers && after.workers[v] == Taking(s.workers[0].run) && (forall u :: !after.Busy(u))
  {
    hide Step, Granted;
    var read := Reserve(v, None);
    OneAction(cfg, s, read);
    var s1 := Perform(cfg, s, read);
    var fail := Advance(0, NetworkError, s.made);
    OneAction(cfg, s1, fail);
    var s2 := Perform(cfg, s1, fail);
    var save := Advance(0, Saved, s.made);
    OneAction(cfg, s2, save);
    var s3 := Perform(cfg, s2, save);
    var wait := Tick(s3.lease.value.expiry);
    OneAction(cfg, s3, wait);
    hide Perform, Enabled;
    HappensAppend(cfg, s2, [save], [wait]);
    HappensAppend(cfg, s1, [fail], [save] + [wait]);
    HappensAppend(cfg, s, [read], [fail] + ([save] + [wait]));
    actions := [read] + ([fail] + ([save] + [wait]));
  }

  lemma AtPublisherStored(cfg: Config, s: World, w: nat)
    requires Inv(cfg, s) && w in s.workers && s.Holds(w) && s.workers[w].pc == Calling(Publish(Issue))
    ensures s.stored == Some(s.workers[w].run) && PublishesFirst(cfg, s.workers[w].run)
    ensures PlannedKind(s.workers[w].run) == Issue && EventsOk(s.workers[w].run)
  {
  }

  /** While nothing exists, a delivery can hold a plan that it will publish at once, over a stored run that will audit
      again: granting it the lease is not safe either. */
  lemma UnknownPublicationReachable(cfg: Config, key: string, repository: Option<Repository>)
    returns (actions: seq<Action>)
    requires cfg.actionsEnabled && repository.Some?
    ensures Happens(cfg, Start(key), actions) && GrantsCurrent(cfg, Start(key), actions)
    ensures var s := After(cfg, Start(key), actions);
            && s.made.Empty() && Enabled(s, Acquire(2)) && !s.Busy(2) && s.stored.Some?
            && !SafeToGrant(cfg, s.workers[2].run, s.stored.value, s.made)
  {
    var first := FirstAtPublisher(cfg, key, repository);
    var s1 := After(cfg, Start(key), first);
    AtPublisherStored(cfg, s1, 0);
    AbstainsAtPublisher(cfg, s1.workers[0], Issue);
    hide Inv, Happens, GrantsCurrent, After, Perform, Step, Granted, SafeToGrant, Enabled, EventsOk, PublishesFirst;
    hide PlannedKind, AimOf;
    var rest := MovesOn(cfg, s1, 2);
    HappensAppend(cfg, Start(key), first, rest);
    actions := first + rest;
    UnknownUnsafe(cfg, After(cfg, s1, rest), s1.workers[0].run);
  }

  lemma UnknownUnsafe(cfg: Config, s: World, r: Run)
    requires 2 in s.workers && s.workers[2] == Taking(r) && PublishesFirst(cfg, r) && PlannedKind(r) == Issue
    requires s.stored.Some? && AimOf(s.stored.value) == Anything
    ensures Enabled(s, Acquire(2)) && !SafeToGrant(cfg, s.workers[2].run, s.stored.value, s.made)
  {
    assert IssueKeyOf(r) in Added(s.made, r, Issue).issues;
  }
}
