/** What every history of workers keeps, whatever snapshot a lease is granted over. A worker may go on from a run that
    has been overtaken, so what it relies on is a pair of its own: the run it last read or saved, and a set of
    artifacts that this run would account for. */
module ServiceRuns {
  import opened Wrappers
  import opened Actions
  import opened AuditRuns
  import opened Candidates
  import opened Verification
  import opened Service
  import opened ServiceInvariants
  import opened ServiceSteps
  import opened ServiceProofs
  import opened ServiceProtocol

  predicate Within(made: Artifacts, world: Artifacts) {
    made.prs <= world.prs && made.issues <= world.issues
  }

  /** A run fit to be stored: `create_run` can take it up again, if only for some of the artifacts that exist. */
  ghost predicate Fit(cfg: Config, r: Run, world: Artifacts) {
    RunOk(cfg, r) && ProofOk(r) && exists made :: Within(made, world) && Committed(cfg, r, made)
  }

  ghost predicate Backed(cfg: Config, w: Worker, base: Run, made: Artifacts) {
    RunOk(cfg, base) && Committed(cfg, base, made) && ActiveOk(cfg, w, base, made)
  }

  ghost predicate WorkerOk(cfg: Config, key: string, w: Worker, world: Artifacts) {
    && ProofOk(w.run) && w.run.key == key
    && (w.pc.Reserved? ==> !w.invalid && Fit(cfg, w.run, world) && (w.pc.created ==> w.run.status == Received))
    && (w.pc.Saving? || w.pc.Calling? ==> exists base, made :: Within(made, world) && Backed(cfg, w, base, made))
  }

  ghost predicate RunsOk(cfg: Config, s: World) {
    && (match s.stored
        case None => s.workers == map[]
        case Some(r) => Fit(cfg, r, s.made) && r.key == s.key)
    && forall w :: w in s.workers ==> WorkerOk(cfg, s.key, s.workers[w], s.made)
  }

  lemma WorkerStays(cfg: Config, key: string, w: Worker, world: Artifacts, world': Artifacts)
    requires WorkerOk(cfg, key, w, world) && Within(world, world')
    ensures WorkerOk(cfg, key, w, world')
  {
    hide RunOk, ProofOk, Committed, Backed;
  }

  lemma FitStays(cfg: Config, r: Run, world: Artifacts, world': Artifacts)
    requires Fit(cfg, r, world) && Within(world, world')
    ensures Fit(cfg, r, world')
  {
    hide RunOk, ProofOk, Committed;
  }

  // ----- One await.

  /** A publisher works on the run it was given, whatever exists; from nothing on, say. */
  lemma FromNothing(cfg: Config, w: Worker, base: Run, made: Artifacts)
    requires Backed(cfg, w, base, made) && w.pc.Calling? && w.pc.call.Publish?
    ensures w.run == base && Backed(cfg, w, base, Artifacts({}, {}))
  {
  }

  lemma BackedSteps(cfg: Config, w: Worker, reply: Reply, base: Run, made: Artifacts) returns (made': Artifacts)
    requires Backed(cfg, w, base, made) && Fits(w.pc, reply)
    ensures made' == if w.pc.Calling? && w.pc.call.Publish? then Published(w, reply) else made
    ensures Backed(cfg, Step(cfg, w, reply), if w.pc.Saving? && reply.Saved? then w.run else base, made')
    ensures Step(cfg, w, reply).invalid <==> FailsTwice(w, reply)
  {
    var base' := if w.pc.Saving? && reply.Saved? then w.run else base;
    var before := made;
    made' := made;
    if w.pc.Calling? && w.pc.call.Publish? {
      FromNothing(cfg, w, base, made);
      before := Artifacts({}, {});
      made' := Published(w, reply);
      EffectFromNothing(cfg, w, reply);
    }
    hide RunOk, Committed, ActiveOk, Step, PublishEffect;
    StepKeeps(cfg, w, reply, base, base', before, made');
  }

  function Published(w: Worker, reply: Reply): Artifacts
    requires w.pc.Calling? && w.pc.call.Publish?
  {
    if !reply.PublishConfirmed? then Artifacts({}, {})
    else if w.pc.call.kind == PullRequest then Artifacts({PrKeyOf(w.run)}, {})
    else Artifacts({}, {IssueKeyOf(w.run)})
  }

  lemma EffectFromNothing(cfg: Config, w: Worker, reply: Reply)
    requires w.pc.Calling? && w.pc.call.Publish? && Dispatching(cfg, w.run, w.pc.call.kind)
    ensures PublishEffect(w.run, w.pc.call.kind, reply, Artifacts({}, {}), Published(w, reply))
  {
    assert {} + {PrKeyOf(w.run)} == {PrKeyOf(w.run)} && {} + {IssueKeyOf(w.run)} == {IssueKeyOf(w.run)};
  }

  /** What an await may do to what exists. */
  predicate Effect(w: Worker, reply: Reply, world: Artifacts, world': Artifacts) {
    if w.pc.Calling? && w.pc.call.Publish? then PublishEffect(w.run, w.pc.call.kind, reply, world, world')
    else world' == world
  }

  lemma EffectGrows(w: Worker, reply: Reply, world: Artifacts, world': Artifacts)
    requires Effect(w, reply, world, world')
    ensures Within(world, world')
    ensures w.pc.Calling? && w.pc.call.Publish? ==> Within(Published(w, reply), world')
  {
  }

  lemma BackedVerifies(cfg: Config, w: Worker, base: Run, made: Artifacts)
    requires Backed(cfg, w, base, made)
    ensures w.pc.Calling? && w.pc.call.Verify? ==> Approved(w.pc.call.artifact)
    ensures w.pc.Saving? || w.pc.Calling? ==> !w.invalid
    ensures w.pc.Saving? ==> RunOk(cfg, w.run) && Committed(cfg, w.run, made)
  {
  }

  lemma WorkerSteps(cfg: Config, key: string, w: Worker, reply: Reply, world: Artifacts, world': Artifacts)
    requires WorkerOk(cfg, key, w, world) && Fits(w.pc, reply) && Effect(w, reply, world, world')
    ensures WorkerOk(cfg, key, Step(cfg, w, reply), world') && !w.invalid && Within(world, world')
    ensures Step(cfg, w, reply).invalid <==> FailsTwice(w, reply)
    ensures w.pc.Saving? ==> Fit(cfg, w.run, world')
  {
    var base, made :| Within(made, world) && Backed(cfg, w, base, made);
    BackedVerifies(cfg, w, base, made);
    EffectGrows(w, reply, world, world');
    hide Step, RunOk, ProofOk, Committed, ActiveOk, Backed, Effect;
    var made' := BackedSteps(cfg, w, reply, base, made);
    assert Within(made, world') && Within(made', world');
    StepProof(cfg, w, reply);
  }

  /** A grant goes on from the snapshot it was given, as if that were the stored run. */
  lemma WorkerGranted(cfg: Config, key: string, w: Worker, world: Artifacts)
    requires WorkerOk(cfg, key, w, world) && w.pc.Reserved? && w.run.status !in {Complete, FailedSafe}
    ensures WorkerOk(cfg, key, Granted(cfg, w), world) && !Granted(cfg, w).invalid
  {
    var made :| Within(made, world) && Committed(cfg, w.run, made);
    GrantKeeps(cfg, w, w.run, made);
    GrantProof(cfg, w);
    hide Granted, RunOk, ProofOk, Committed, ActiveOk;
    assert Backed(cfg, Granted(cfg, w), w.run, made);
  }

  // ----- Histories.

  lemma NewRunFits(cfg: Config, key: string, repository: Option<Repository>, world: Artifacts)
    ensures Fit(cfg, NewRun(key, repository), world) && NewRun(key, repository).key == key
    ensures NewRun(key, repository).status == Received
  {
    NewRunOk(cfg, key, repository);
    assert Within(Artifacts({}, {}), world) && Committed(cfg, NewRun(key, repository), Artifacts({}, {}));
  }

  lemma RunsKept(cfg: Config, s: World, a: Action)
    requires RunsOk(cfg, s) && Enabled(s, a)
    ensures RunsOk(cfg, Perform(cfg, s, a)) && Perform(cfg, s, a).key == s.key
  {
    hide Step, Granted, Fit, ProofOk, Backed, RemoteEffect, Created;
    match a
    case Reserve(w, repository) =>
      NewRunFits(cfg, s.key, repository, s.made);
      ReserveFits(cfg, s, w, repository);
    case Acquire(w) => WorkerGranted(cfg, s.key, s.workers[w], s.made);
    case Advance(w, reply, made) =>
      SameEffect(s, s.workers[w], reply, made);
      WorkerSteps(cfg, s.key, s.workers[w], reply, s.made, made);
      OthersStay(cfg, s, made);
    case Crash(w, made) =>
      LostGrows(s, w, made);
      OthersStay(cfg, s, made);
    case _ =>
  }

  lemma SameEffect(s: World, w: Worker, reply: Reply, made: Artifacts)
    requires RemoteEffect(s, w, reply, made)
    ensures Effect(w, reply, s.made, made)
  {
  }

  lemma LostGrows(s: World, w: nat, made: Artifacts)
    requires w in s.workers && LostEffect(s, w, made)
    ensures Within(s.made, made)
  {
  }

  lemma OthersStay(cfg: Config, s: World, made: Artifacts)
    requires RunsOk(cfg, s) && Within(s.made, made)
    ensures forall w :: w in s.workers ==> WorkerOk(cfg, s.key, s.workers[w], made)
    ensures s.stored.Some? ==> Fit(cfg, s.stored.value, made)
  {
    hide WorkerOk, Fit, Within;
    forall w | w in s.workers ensures WorkerOk(cfg, s.key, s.workers[w], made) {
      WorkerStays(cfg, s.key, s.workers[w], s.made, made);
    }
    if s.stored.Some? {
      FitStays(cfg, s.stored.value, s.made, made);
    }
  }

  lemma ReserveFits(cfg: Config, s: World, w: nat, repository: Option<Repository>)
    requires RunsOk(cfg, s) && Enabled(s, Reserve(w, repository)) && Fit(cfg, NewRun(s.key, repository), s.made)
    ensures RunsOk(cfg, Perform(cfg, s, Reserve(w, repository)))
  {
    hide RunOk, Committed, Backed;
  }

  lemma {:induction false} EveryHistory(cfg: Config, s: World, actions: seq<Action>)
    requires RunsOk(cfg, s) && Happens(cfg, s, actions)
    ensures RunsOk(cfg, After(cfg, s, actions)) && After(cfg, s, actions).key == s.key
    decreases actions
  {
    if actions != [] {
      RunsKept(cfg, s, actions[0]);
      EveryHistory(cfg, Perform(cfg, s, actions[0]), actions[1..]);
    }
  }

  lemma {:induction false} FromStart(cfg: Config, key: string, actions: seq<Action>)
    requires Happens(cfg, Start(key), actions)
    ensures RunsOk(cfg, After(cfg, Start(key), actions)) && After(cfg, Start(key), actions).key == key
  {
    EveryHistory(cfg, Start(key), actions);
  }

  // ----- Persisted runs.

  /** The global invariant of persisted runs, in the reader's terms. */
  ghost predicate Sound(r: Run) {
    && (forall i :: 0 <= i < |r.events| ==> r.events[i].number == i + 1)
    && (forall i :: 0 <= i < |r.events| && r.events[i].state == Running ==> i == |r.events| - 1)
    && SelectedCount(r.actions) <= 1
    && (SelectedCount(r.actions) == 1 ==> r.verdict == Contradicted)
    && (r.verdict in {Supported, Contradicted} ==> r.verdict == CalculateVerdict(r.evidence))
    && (r.status == Complete ==> r.verdict != PendingVerdict && !ActionIs(r, 0, Ready))
    && (r.status == FailedRetryable ==> Attempts(r.events) < MAX_RUN_ATTEMPTS)
    && (ActionIs(r, 0, Ready) ==> Evidenced(r.verification, r.candidate))
  }

  lemma SoundRun(cfg: Config, r: Run)
    requires RunOk(cfg, r) && ProofOk(r)
    ensures Sound(r)
  {
    hide Evidenced, ProvesCandidate, CalculateVerdict, SelectedCount, Storable;
    OneRoute(r);
    ReadyRoute(r);
  }

  lemma OneRoute(r: Run)
    requires ActionsOk(r)
    ensures SelectedCount(r.actions) <= 1 && (SelectedCount(r.actions) == 1 ==> r.verdict == Contradicted)
  {
    if r.actions != [] {
      CountThree(r.actions);
    }
  }

  lemma ReadyRoute(r: Run)
    requires ActionsOk(r)
    ensures ActionIs(r, 0, Ready) ==> ProvesCandidate(r.verification)
  {
  }

  /** Every run ever persisted, in whatever history, is sound, and is still the run of the key that reserved it. */
  lemma PersistedRunsAreSound(cfg: Config, key: string, actions: seq<Action>)
    requires Happens(cfg, Start(key), actions)
    ensures var s := After(cfg, Start(key), actions);
            s.stored.Some? ==> Sound(s.stored.value) && s.stored.value.key == key
  {
    FromStart(cfg, key, actions);
    var s := After(cfg, Start(key), actions);
    if s.stored.Some? {
      SoundRun(cfg, s.stored.value);
    }
  }

  /** In every history, an action recorded as opened names an artifact that exists. */
  lemma OpenedActionsExist(cfg: Config, key: string, actions: seq<Action>)
    requires Happens(cfg, Start(key), actions)
    ensures var s := After(cfg, Start(key), actions);
            s.stored.Some? ==>
              && (ActionIs(s.stored.value, 0, Opened) ==> PrKeyOf(s.stored.value) in s.made.prs)
              && (ActionIs(s.stored.value, 1, Opened) ==> IssueKeyOf(s.stored.value) in s.made.issues)
  {
    FromStart(cfg, key, actions);
    var s := After(cfg, Start(key), actions);
    if s.stored.Some? {
      FitOpened(cfg, s.stored.value, s.made);
    }
  }

  lemma FitOpened(cfg: Config, r: Run, world: Artifacts)
    requires Fit(cfg, r, world)
    ensures ActionIs(r, 0, Opened) ==> PrKeyOf(r) in world.prs
    ensures ActionIs(r, 1, Opened) ==> IssueKeyOf(r) in world.issues
  {
  }

  // ----- Legal transitions.

  /** An illegal transition is raised in exactly one situation: inside `_execute`, the save that follows a failed
      publication does not go through. Every other failure, crash or checkpoint recovers legally. */
  lemma IllegalTransitionExactly(cfg: Config, key: string, actions: seq<Action>, a: Action, w: nat)
    requires Happens(cfg, Start(key), actions) && Enabled(After(cfg, Start(key), actions), a)
    requires w in Perform(cfg, After(cfg, Start(key), actions), a).workers
    ensures var s := After(cfg, Start(key), actions);
            Perform(cfg, s, a).workers[w].invalid
            <==> || (w in s.workers && s.workers[w].invalid)
                 || (a.Advance? && a.worker == w && FailsTwice(s.workers[w], a.reply))
  {
    FromStart(cfg, key, actions);
    IllegalExactly(cfg, After(cfg, Start(key), actions), a, w);
  }

  lemma IllegalExactly(cfg: Config, s: World, a: Action, w: nat)
    requires RunsOk(cfg, s) && Enabled(s, a) && w in Perform(cfg, s, a).workers
    ensures Perform(cfg, s, a).workers[w].invalid
            <==> || (w in s.workers && s.workers[w].invalid)
                 || (a.Advance? && a.worker == w && FailsTwice(s.workers[w], a.reply))
  {
    hide Step, Granted, Fit, ProofOk, Backed, RemoteEffect;
    match a
    case Acquire(v) => WorkerGranted(cfg, s.key, s.workers[v], s.made);
    case Advance(v, reply, made) =>
      SameEffect(s, s.workers[v], reply, made);
      WorkerSteps(cfg, s.key, s.workers[v], reply, s.made, made);
    case _ =>
  }

  /** Some save after a failed publication inside `_execute` does not go through. */
  ghost predicate EverFailsTwice(cfg: Config, s: World, actions: seq<Action>)
    requires Happens(cfg, s, actions)
    decreases actions
  {
    && actions != []
    && (|| (actions[0].Advance? && FailsTwice(s.workers[actions[0].worker], actions[0].reply))
        || EverFailsTwice(cfg, Perform(cfg, s, actions[0]), actions[1..]))
  }

  ghost predicate AnyInvalid(s: World) {
    exists w :: w in s.workers && s.workers[w].invalid
  }

  lemma AnyInvalidNext(cfg: Config, s: World, a: Action)
    requires RunsOk(cfg, s) && Enabled(s, a)
    ensures AnyInvalid(Perform(cfg, s, a))
            <==> AnyInvalid(s) || (a.Advance? && FailsTwice(s.workers[a.worker], a.reply))
  {
    var next := Perform(cfg, s, a);
    forall w | w in next.workers
      ensures next.workers[w].invalid
              <==> || (w in s.workers && s.workers[w].invalid)
                   || (a.Advance? && a.worker == w && FailsTwice(s.workers[w], a.reply))
    {
      IllegalExactly(cfg, s, a, w);
    }
    WorkersStay(cfg, s, a);
    hide Perform, RunsOk, FailsTwice, Enabled;
    if a.Advance? && FailsTwice(s.workers[a.worker], a.reply) {
      assert next.workers[a.worker].invalid;
    }
    if w :| w in s.workers && s.workers[w].invalid {
      assert next.workers[w].invalid;
    }
  }

  lemma WorkersStay(cfg: Config, s: World, a: Action)
    requires Enabled(s, a)
    ensures s.workers.Keys <= Perform(cfg, s, a).workers.Keys && (a.Advance? ==> a.worker in s.workers)
  {
    hide Step, Granted;
  }

  lemma {:induction false} InvalidHistory(cfg: Config, s: World, actions: seq<Action>)
    requires RunsOk(cfg, s) && Happens(cfg, s, actions)
    ensures AnyInvalid(After(cfg, s, actions)) <==> AnyInvalid(s) || EverFailsTwice(cfg, s, actions)
    decreases actions
  {
    hide AnyInvalid, RunsOk, Perform, Enabled, FailsTwice;
    if actions != [] {
      AnyInvalidNext(cfg, s, actions[0]);
      RunsKept(cfg, s, actions[0]);
      InvalidHistory(cfg, Perform(cfg, s, actions[0]), actions[1..]);
    }
  }

  /** Over whole histories: no worker ever meets an illegal transition if and only if no save after a failed
      publication inside `_execute` is ever lost. */
  lemma RecoveryIsLegal(cfg: Config, key: string, actions: seq<Action>)
    requires Happens(cfg, Start(key), actions)
    ensures AnyInvalid(After(cfg, Start(key), actions)) <==> EverFailsTwice(cfg, Start(key), actions)
  {
    InvalidHistory(cfg, Start(key), actions);
  }
}
