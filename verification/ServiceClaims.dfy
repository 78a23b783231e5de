/** The sentence "stopped without external side effects" on a failed run: exactly when it is true. */
module ServiceClaims {
  import opened Wrappers
  import opened Actions
  import opened AuditRuns
  import opened Candidates
  import opened Verification
  import opened Service
  import opened ServiceInvariants
  import opened ServiceSteps
  import opened ServiceProofs
  import opened ServiceProtocol
  import opened ServiceGrants
  import opened ServiceRerun
  import opened ServiceDrives
  import opened ServiceStale
  import opened ServiceOvertaken

  /** The handlers of `_execute` claim that nothing happened outside only when nothing did. */
  lemma HandlersTellTheTruth(
    cfg: Config, w: Worker, reply: Reply, stored: Run, stored': Run, made: Artifacts, made': Artifacts)
    requires Fits(w.pc, reply) && ActiveOk(cfg, w, stored, made)
    requires RunOk(cfg, stored) && Committed(cfg, stored, made) && Effects(w, reply, stored, stored', made, made')
    ensures Step(cfg, w, reply).pc == Saving(HandlerFailed) ==> made'.Empty()
  {
    StepKeeps(cfg, w, reply, stored, stored', made, made');
    hide Step, RunOk, Committed;
  }

  // ----- A publisher that refuses.

  /** The run ends with the claim that it stopped without external side effects. */
  predicate ClaimsNothing(r: Run) {
    r.status == FailedSafe && r.limitations != [] && r.limitations[|r.limitations| - 1] == NoSideEffects(false)
  }

  ghost predicate AtPublisherOf(s: World, w: nat, kind: ActionKind) {
    w in s.workers && s.Holds(w) && s.workers[w].pc == Calling(Publish(kind))
  }

  lemma PublisherFacts(cfg: Config, s: World, w: nat, kind: ActionKind)
    requires Inv(cfg, s) && AtPublisherOf(s, w, kind)
    ensures s.stored == Some(s.workers[w].run) && PublishesFirst(cfg, s.workers[w].run) && kind != Email
    ensures PlannedKind(s.workers[w].run) == kind && EventsOk(s.workers[w].run)
    ensures Dispatching(cfg, s.workers[w].run, kind) && RunOk(cfg, s.workers[w].run)
    ensures Committed(cfg, s.workers[w].run, s.made)
    ensures s.workers[w].mode == InExecute ==> s.made.Empty()
  {
  }

  lemma RefusedStep(cfg: Config, w: Worker, kind: ActionKind)
    requires w.pc == Calling(Publish(kind)) && EventsOk(w.run) && w.run.status == RoutingAction
    ensures var refused := Step(cfg, w, PublishRefused);
            && refused.pc == Saving(FailedInDispatch) && ClaimsNothing(refused.run)
            && refused.run.limitations == w.run.limitations + [NoSideEffects(false)]
  {
  }

  /** The same worker holds the lease, for the same key, over whatever exists. */
  predicate SameHolder(s: World, t: World, w: nat) {
    w in s.workers && w in t.workers && t.workers[w] == s.workers[w] && t.key == s.key && t.Holds(w)
  }

  /** The world as it is after the artifact of the holder's plan has come to exist. */
  function WithArtifact(s: World, w: nat, kind: ActionKind): World
    requires w in s.workers
  {
    s.(made := Added(s.made, s.workers[w].run, kind))
  }

  lemma ArtifactMayExist(cfg: Config, s: World, w: nat, kind: ActionKind)
    requires Inv(cfg, s) && AtPublisherOf(s, w, kind) && s.workers[w].mode == Direct
    ensures Inv(cfg, WithArtifact(s, w, kind)) && !WithArtifact(s, w, kind).made.Empty()
  {
    hide RunOk, ProofOk, Committed, Dispatching, Added, EventsOk, PublishesFirst, PlannedKind, Accounts;
    PublisherFacts(cfg, s, w, kind);
    DispatchAccounts(cfg, s.workers[w].run, kind, s.made);
    AddedExists(s.made, s.workers[w].run, kind);
  }

  lemma AddedExists(made: Artifacts, r: Run, kind: ActionKind)
    requires kind != Email
    ensures !Added(made, r, kind).Empty()
  {
    match kind
    case PullRequest => assert PrKeyOf(r) in Added(made, r, kind).prs;
    case Issue => assert IssueKeyOf(r) in Added(made, r, kind).issues;
  }

  /** A publisher that refuses, of either kind, makes the run claim that nothing happened outside. In all worlds that
      satisfy the invariant and have this holder the claim is true if and only if the holder publishes inside
      `_execute`; for a holder that resumed a plan there is one in which its artifact exists already. */
  lemma RefusalIsTrueExactly(cfg: Config, s: World, w: nat, kind: ActionKind)
    requires Inv(cfg, s) && AtPublisherOf(s, w, kind)
    ensures ClaimsNothing(Step(cfg, s.workers[w], PublishRefused).run)
    ensures (forall t :: Inv(cfg, t) && SameHolder(s, t, w) ==> t.made.Empty()) <==> s.workers[w].mode == InExecute
  {
    hide Inv, Step, Granted, RunOk, ProofOk, Committed, EventsOk, PublishesFirst, PlannedKind, ClaimsNothing;
    PublisherFacts(cfg, s, w, kind);
    RefusedStep(cfg, s.workers[w], kind);
    if s.workers[w].mode == InExecute {
      forall t | Inv(cfg, t) && SameHolder(s, t, w) ensures t.made.Empty() {
        PublisherFacts(cfg, t, w, kind);
      }
    } else {
      ArtifactMayExist(cfg, s, w, kind);
      assert SameHolder(s, WithArtifact(s, w, kind), w);
    }
  }

  // ----- Every publication can end in a false claim.

  lemma RefusalIsSaved(cfg: Config, s: World, w: nat, kind: ActionKind) returns (actions: seq<Action>)
    requires AtPublisherOf(s, w, kind) && EventsOk(s.workers[w].run) && s.workers[w].run.status == RoutingAction
    ensures Happens(cfg, s, actions) && GrantsCurrent(cfg, s, actions)
    ensures var after := After(cfg, s, actions);
            after.stored.Some? && ClaimsNothing(after.stored.value) && after.made == s.made
  {
    RefusedStep(cfg, s.workers[w], kind);
    hide Step, Granted, ClaimsNothing, EventsOk;
    var refuse := Advance(w, PublishRefused, s.made);
    OneAction(cfg, s, refuse);
    var s1 := Perform(cfg, s, refuse);
    var save := Advance(w, Saved, s.made);
    OneAction(cfg, s1, save);
    HappensAppend(cfg, s, [refuse], [save]);
    actions := [refuse] + [save];
  }

  /** The retry of a plan reaches its publisher and is refused outright. */
  lemma RetryIsRefused(cfg: Config, s: World, r: Run) returns (actions: seq<Action>)
    requires s.stored == Some(r) && PublishesFirst(cfg, r) && EventsOk(r)
    ensures Happens(cfg, s, actions) && GrantsCurrent(cfg, s, actions)
    ensures var after := After(cfg, s, actions);
            after.stored.Some? && ClaimsNothing(after.stored.value) && after.made == s.made
  {
    assert r.status == RoutingAction && Resumable(r) && Unpublished(cfg, r);
    hide Step, Granted, ClaimsNothing, EventsOk, PublishesFirst, Unpublished, Resumable;
    hide Happens, GrantsCurrent, After, Perform, Enabled;
    var v, again := TakenUpAgain(cfg, s);
    var s1 := After(cfg, s, again);
    TakerGranted(cfg, s1, v);
    OneAction(cfg, s1, Acquire(v));
    var s2 := Perform(cfg, s1, Acquire(v));
    var replies, w' := ResumeToPublisher(cfg, Taking(r));
    var driven := Drives(cfg, s2, v, replies, w');
    var last := RefusalIsSaved(cfg, After(cfg, s2, driven), v, PlannedKind(r));
    HappensAppend(cfg, s2, driven, last);
    HappensAppend(cfg, s1, [Acquire(v)], driven + last);
    HappensAppend(cfg, s, again, [Acquire(v)] + (driven + last));
    actions := again + ([Acquire(v)] + (driven + last));
  }

  /** From every worker at a publisher, of either kind: its publication takes effect, the worker dies, and a retry is
      refused outright, so that the run ends as FAILED_SAFE, claiming that nothing happened outside, over an artifact
      that exists. The claim of a refusal speaks of its own attempt only. */
  lemma RefusalCanHide(cfg: Config, s: World, w: nat, kind: ActionKind) returns (actions: seq<Action>)
    requires Inv(cfg, s) && AtPublisherOf(s, w, kind)
    ensures Happens(cfg, s, actions) && GrantsCurrent(cfg, s, actions)
    ensures var after := After(cfg, s, actions);
            after.stored.Some? && ClaimsNothing(after.stored.value) && !after.made.Empty()
  {
    PublisherFacts(cfg, s, w, kind);
    AddedExists(s.made, s.workers[w].run, kind);
    hide Inv, Step, Granted, ClaimsNothing, EventsOk, PublishesFirst, Dispatching, Added;
    hide Happens, GrantsCurrent, After, Perform, Enabled;
    DiesPublishing(cfg, s, w, kind);
    var lost := Crash(w, Added(s.made, s.workers[w].run, kind));
    var s1 := After(cfg, s, [lost]);
    var rest := RetryIsRefused(cfg, s1, s.workers[w].run);
    HappensAppend(cfg, s, [lost], rest);
    actions := [lost] + rest;
  }

  /** Such an end is reachable: an issue that exists, and a run that claims nothing was done. */
  lemma RefusalMayHideAnIssue(cfg: Config, key: string, repository: Option<Repository>) returns (actions: seq<Action>)
    requires cfg.actionsEnabled && repository.Some?
    ensures Happens(cfg, Start(key), actions) && GrantsCurrent(cfg, Start(key), actions)
    ensures var s := After(cfg, Start(key), actions);
            s.stored.Some? && ClaimsNothing(s.stored.value) && !s.made.Empty()
  {
    hide Inv, Happens, GrantsCurrent, After, ClaimsNothing;
    var first := FirstAtPublisher(cfg, key, repository);
    var rest := RefusalCanHide(cfg, After(cfg, Start(key), first), 0, Issue);
    HappensAppend(cfg, Start(key), first, rest);
    actions := first + rest;
  }
}
