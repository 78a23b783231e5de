/** `create_run` reads the run before it takes the lease, so a lease can be granted over a snapshot that has since been
    overtaken. This module gives the condition under which such a grant is harmless, and shows that histories whose
    grants all meet it never create two artifacts. */
module ServiceGrants {
  import opened Wrappers
  import opened Actions
  import opened AuditRuns
  import opened Candidates
  import opened Verification
  import opened Service
  import opened ServiceInvariants
  import opened ServiceSteps
  import opened ServiceProofs
  import opened ServiceProtocol
  import opened ServiceRuns

  /** What taking up a run again may still create. */
  datatype Aim = Nothing | Anything | OnlyPr(pr: PrKey) | OnlyIssue(issue: IssueKey)

  function AimOf(r: Run): Aim {
    if r.status in {Complete, FailedSafe} then Nothing
    else if r.status == RoutingAction || (r.status == FailedRetryable && FailedDuringDispatch(r)) then
      if !NothingOpened(r) then Nothing
      else if ActionIs(r, 0, Ready) then OnlyPr(PrKeyOf(r))
      else if ActionIs(r, 1, Planned) then OnlyIssue(IssueKeyOf(r))
      else if Attempts(r.events) >= MAX_RUN_ATTEMPTS then Nothing
      else Anything
    else if r.status == Verifying then
      if ProvesCandidate(r.verification) then OnlyPr(PrKeyOf(r)) else OnlyIssue(IssueKeyOf(r))
    else Anything
  }

  /** Taking up the run creates nothing beyond what exists. */
  predicate Accounts(r: Run, made: Artifacts) {
    || made.Empty()
    || match AimOf(r)
       case Nothing => true
       case Anything => false
       case OnlyPr(key) => made == Artifacts({key}, {})
       case OnlyIssue(key) => made == Artifacts({}, {key})
  }

  /** The run's plan names one artifact that a publisher would now be asked for. */
  predicate Unpublished(cfg: Config, r: Run) {
    CanDispatch(cfg, r) && ((Plan(r, Ready, Skipped) && r.candidate.Some?) || Plan(r, Blocked, Planned))
  }

  function PlannedKind(r: Run): ActionKind {
    if ActionIs(r, 0, Ready) then PullRequest else Issue
  }

  /** `create_run` answers the run by asking a publisher, before it saves anything. */
  predicate PublishesFirst(cfg: Config, r: Run) {
    r.status == RoutingAction && r.LastIs(RoutingAction, Running) && Unpublished(cfg, r)
  }

  function Added(made: Artifacts, r: Run, kind: ActionKind): Artifacts {
    match kind
    case PullRequest => made.(prs := made.prs + {PrKeyOf(r)})
    case Issue => made.(issues := made.issues + {IssueKeyOf(r)})
    case Email => made
  }

  /** When a lease may be granted over `snapshot` while `stored` is stored: taking up the snapshot creates nothing
      beyond what exists, and what it publishes before its first save is also what the stored run would create. */
  predicate SafeToGrant(cfg: Config, snapshot: Run, stored: Run, made: Artifacts) {
    && Accounts(snapshot, made)
    && (PublishesFirst(cfg, snapshot) ==> Accounts(stored, Added(made, snapshot, PlannedKind(snapshot))))
  }

  // ----- The invariant.

  /** The holder works from `base`, a run that accounts for what exists, stored or not. */
  ghost predicate Serves(cfg: Config, w: Worker, base: Run, made: Artifacts) {
    RunOk(cfg, base) && Committed(cfg, base, made) && ActiveOk(cfg, w, base, made)
  }

  predicate Active(w: Worker) {
    w.pc.Saving? || w.pc.Calling?
  }

  /** A plan that nothing more will be published for. */
  predicate Spent(r: Run) {
    || Plan(r, Opened, Skipped) || Plan(r, Blocked, Opened)
    || (Plan(r, Skipped, Skipped) && Attempts(r.events) >= MAX_RUN_ATTEMPTS)
  }

  /** The holder is only writing down the end of such a plan. */
  predicate Closing(w: Worker) {
    w.pc.Saving? && w.pc.at in {ResumeAction, Settled, Completed, CheckpointFailed} && w.mode == Direct && Spent(w.run)
  }

  /** Whatever the holder is about to publish, the stored run would create as well. */
  predicate Covers(stored: Run, w: Worker, made: Artifacts) {
    w.pc.Calling? && (w.pc.call.AcquireAction? || w.pc.call.Publish?) ==>
      Accounts(stored, Added(made, w.run, w.pc.call.kind))
  }

  ghost predicate HolderSafe(cfg: Config, w: Worker, made: Artifacts) {
    Active(w) ==> Closing(w) || exists base :: Serves(cfg, w, base, made)
  }

  ghost predicate StoredSafe(cfg: Config, s: World) {
    match s.stored
    case None => s.made.Empty() && s.lease.None?
    case Some(r) =>
      && Accounts(r, s.made) && (s.made.Empty() || CanDispatch(cfg, r)) && s.made.Count() <= 1
      && (forall w :: w in s.workers ==> s.workers[w].run.repository == r.repository)
      && (s.lease.Some? && s.Holds(s.lease.value.owner) && s.lease.value.owner in s.workers ==>
            && HolderSafe(cfg, s.workers[s.lease.value.owner], s.made)
            && Covers(r, s.workers[s.lease.value.owner], s.made))
  }

  ghost predicate SafeInv(cfg: Config, s: World) {
    RunsOk(cfg, s) && StoredSafe(cfg, s)
  }

  // ----- What a run accounts for.

  lemma CommittedAccounts(cfg: Config, r: Run, made: Artifacts)
    requires RunOk(cfg, r) && Committed(cfg, r, made)
    ensures Accounts(r, made) && made.Count() <= 1
  {
  }

  lemma DispatchAccounts(cfg: Config, r: Run, kind: ActionKind, made: Artifacts)
    requires RunOk(cfg, r) && Dispatching(cfg, r, kind) && Committed(cfg, r, made)
    ensures Accounts(r, Added(made, r, kind)) && Committed(cfg, r, Added(made, r, kind))
    ensures Added(made, r, kind).Count() <= 1
  {
    EffectCommitted(cfg, r, kind, made, Added(made, r, kind));
    CommittedAccounts(cfg, r, Added(made, r, kind));
  }

  // ----- A grant.

  lemma GrantServes(cfg: Config, key: string, w: Worker, made: Artifacts)
    requires WorkerOk(cfg, key, w, made) && w.pc.Reserved? && w.run.status !in {Complete, FailedSafe}
    requires Accounts(w.run, made) && (made.Empty() || CanDispatch(cfg, w.run))
    ensures HolderSafe(cfg, Granted(cfg, w), made)
  {
    if Committed(cfg, w.run, made) {
      GrantKeeps(cfg, w, w.run, made);
      assert Serves(cfg, Granted(cfg, w), w.run, made);
    } else {
      UncommittedForms(cfg, w.run, made);
      if w.run.status == Verifying {
        RoutedServes(cfg, w, made);
      } else {
        GrantCloses(cfg, w);
      }
    }
  }

  /** A run that accounts for what exists without being committed to it. */
  lemma UncommittedForms(cfg: Config, r: Run, made: Artifacts)
    requires RunOk(cfg, r) && ProofOk(r) && r.status !in {Complete, FailedSafe} && !Committed(cfg, r, made)
    requires Accounts(r, made) && (made.Empty() || CanDispatch(cfg, r))
    ensures || (r.status == Verifying && !made.Empty())
            || (Spent(r) && r.status == RoutingAction)
            || (Spent(r) && r.status == FailedRetryable && !NothingOpened(r))
  {
  }

  lemma RoutedServes(cfg: Config, w: Worker, made: Artifacts)
    requires w.pc.Reserved? && !w.pc.created && !w.invalid && RunOk(cfg, w.run) && ProofOk(w.run)
    requires w.run.status == Verifying && Accounts(w.run, made) && !made.Empty() && CanDispatch(cfg, w.run)
    ensures HolderSafe(cfg, Granted(cfg, w), made)
  {
    var routed := RouteStart(w.(mode := Direct));
    Started(w.run, RoutingAction);
    PlanIsOk(w.run.verdict, w.run.verification);
    Proposed(w.run.verdict, w.run.verification, routed.run);
    assert Granted(cfg, w) == routed && routed.pc == Saving(Routed) && routed.mode == Direct && !routed.invalid;
    RoutedCommits(cfg, w.run, routed.run, made);
    SavesPlanned(cfg, routed, made);
    assert Serves(cfg, Granted(cfg, w), routed.run, made);
  }

  lemma RoutedCommits(cfg: Config, r: Run, routed: Run, made: Artifacts)
    requires RunOk(cfg, r) && ProofOk(r) && r.status == Verifying
    requires Accounts(r, made) && !made.Empty() && CanDispatch(cfg, r)
    requires routed == r.(status := RoutingAction, events := routed.events, actions := routed.actions)
    requires EventsOk(routed) && routed.LastIs(RoutingAction, Running)
    requires if ProvesCandidate(r.verification) then Plan(routed, Ready, Skipped) else Plan(routed, Blocked, Planned)
    ensures RunOk(cfg, routed) && Committed(cfg, routed, made)
  {
  }

  lemma SavesPlanned(cfg: Config, w: Worker, made: Artifacts)
    requires w.pc == Saving(Routed) && w.mode == Direct && !w.invalid && w.run.LastIs(RoutingAction, Running)
    requires RunOk(cfg, w.run) && w.run.status == RoutingAction && Committed(cfg, w.run, made)
    ensures ActiveOk(cfg, w, w.run, made)
  {
  }

  lemma GrantCloses(cfg: Config, w: Worker)
    requires w.pc.Reserved? && !w.pc.created && EventsOk(w.run) && Spent(w.run)
    requires || w.run.status == RoutingAction
             || (w.run.status == FailedRetryable && !NothingOpened(w.run) && Attempts(w.run.events) < MAX_RUN_ATTEMPTS)
    ensures Active(Granted(cfg, w)) ==> Closing(Granted(cfg, w))
  {
    if w.run.status == RoutingAction {
      SpentDispatch(cfg, w.(mode := Direct));
    } else {
      OpenedInDispatch(w.run);
    }
  }

  lemma OpenedInDispatch(r: Run)
    requires Spent(r) && !NothingOpened(r)
    ensures FailedDuringDispatch(r)
  {
    assert r.actions[0].state in ActionStates(r) && r.actions[1].state in ActionStates(r);
  }

  lemma SpentDispatch(cfg: Config, w: Worker)
    requires w.mode == Direct && EventsOk(w.run) && w.run.status == RoutingAction && Spent(w.run)
    ensures Active(Dispatch(cfg, w)) ==> Closing(Dispatch(cfg, w))
  {
    if w.run.LastIs(RoutingAction, Succeeded) {
      SpentCompletes(w);
    } else if w.run.IsRunning() {
      Finished(w.run);
    }
  }

  lemma SpentCompletes(w: Worker)
    requires w.mode == Direct && EventsOk(w.run) && !w.run.IsRunning() && w.run.status == RoutingAction && Spent(w.run)
    ensures Active(CompleteStart(w)) ==> Closing(CompleteStart(w))
  {
    Started(w.run, Complete);
    Finished(StartStage(w.run, Complete).value);
  }

  // ----- One await of the holder.

  lemma ClosingNothing(cfg: Config, w: Worker, base: Run, made: Artifacts)
    requires Backed(cfg, w, base, made) && Closing(w)
    ensures AimOf(w.run) == Nothing && EventsOk(w.run)
    ensures w.pc.at == ResumeAction ==> w.run.status == RoutingAction
    ensures w.pc.at == Settled ==> w.run.status == RoutingAction && !w.run.IsRunning()
    ensures w.pc.at == Completed ==> w.run.status == Complete && w.run.LastIs(Complete, Succeeded)
  {
    if w.run.status == FailedRetryable {
      OpenedInDispatch(w.run);
    }
  }

  lemma ClosingSteps(cfg: Config, w: Worker, reply: Reply, base: Run, made: Artifacts)
    requires Backed(cfg, w, base, made) && Closing(w) && Fits(w.pc, reply)
    ensures Active(Step(cfg, w, reply)) ==> Closing(Step(cfg, w, reply))
  {
    ClosingNothing(cfg, w, base, made);
    match w.pc.at
    case ResumeAction => SpentDispatch(cfg, w);
    case Settled => SpentCompletes(w);
    case Completed => SpentFails(w);
    case _ =>
  }

  lemma SpentFails(w: Worker)
    requires w.mode == Direct && EventsOk(w.run) && w.run.LastIs(Complete, Succeeded) && Spent(w.run)
    ensures Active(CompleteFailed(w)) ==> Closing(CompleteFailed(w))
  {
    var routed := w.run.(status := RoutingAction);
    LastSet(routed, Failed);
    FailRetryableKeeps(routed.SetLast(Failed), true);
  }

  lemma ServesSteps(cfg: Config, w: Worker, reply: Reply, base: Run, made: Artifacts, made': Artifacts)
    requires Serves(cfg, w, base, made) && Fits(w.pc, reply)
    requires if w.pc.Calling? && w.pc.call.Publish? then PublishEffect(w.run, w.pc.call.kind, reply, made, made')
             else made' == made
    ensures var base' := if w.pc.Saving? && reply.Saved? then w.run else base;
            Serves(cfg, Step(cfg, w, reply), base', made') && made'.Count() <= 1 && Accounts(base', made')
    ensures !made'.Empty() && made' != made ==> CanDispatch(cfg, w.run)
  {
    var base' := if w.pc.Saving? && reply.Saved? then w.run else base;
    assert w.pc.Calling? && w.pc.call.Publish? ==> w.run == base && CanDispatch(cfg, base);
    StepKeeps(cfg, w, reply, base, base', made, made');
    CommittedAccounts(cfg, base', made');
    hide RunOk, Committed, ActiveOk, Step;
  }

  /** What the holder publishes next, it has just saved or was about to publish already. */
  lemma StillCovers(cfg: Config, w: Worker, reply: Reply, base': Run, made': Artifacts)
    requires Fits(w.pc, reply) && Serves(cfg, Step(cfg, w, reply), base', made')
    ensures w.pc.Saving? && reply.Saved? ==> Covers(base', Step(cfg, w, reply), made')
    ensures var next := Step(cfg, w, reply);
            !(w.pc.Saving? && reply.Saved?) && next.pc.Calling?
            && (next.pc.call.AcquireAction? || next.pc.call.Publish?) ==>
              w.pc == Calling(AcquireAction(next.pc.call.kind)) && next.run == w.run
  {
    var next := Step(cfg, w, reply);
    if next.pc.Calling? && (next.pc.call.AcquireAction? || next.pc.call.Publish?) {
      DispatchAccounts(cfg, base', next.pc.call.kind, made');
      if !(w.pc.Saving? && reply.Saved?) {
        NextCall(cfg, w, reply);
      }
    }
    hide Step;
  }

  lemma NotCalling(w: Worker, e: Exception, at: SavePoint)
    ensures !Raise(w, e).pc.Calling? && !End(w, Saving(at)).pc.Calling? && !CompleteFailed(w).pc.Calling?
  {
    hide FailRun, FailRetryable, FailedBy;
  }

  lemma NextCall(cfg: Config, w: Worker, reply: Reply)
    requires Fits(w.pc, reply) && !(w.pc.Saving? && reply.Saved?)
    requires var next := Step(cfg, w, reply);
             next.pc.Calling? && (next.pc.call.AcquireAction? || next.pc.call.Publish?)
    ensures w.pc == Calling(AcquireAction(Step(cfg, w, reply).pc.call.kind)) && Step(cfg, w, reply).run == w.run
  {
    match w.pc
    case Saving(at) => SaveFailedCalls(w, at);
    case Calling(call) =>
      if call.AcquireAction? {
        AcquireCalls(cfg, w, call.kind, reply);
      } else {
        OtherCalls(cfg, w, call, reply);
      }
  }

  lemma SaveFailedCalls(w: Worker, at: SavePoint)
    ensures !SaveFailed(w, at).pc.Calling?
  {
    NotCalling(w, Unexpected, at);
    NotCalling(w, if at.ActionOpened? then ExternalCheckpoint(at.kind) else Unexpected, at);
    hide Raise, CompleteFailed;
  }

  lemma AcquireCalls(cfg: Config, w: Worker, kind: ActionKind, reply: Reply)
    ensures var next := AfterCall(cfg, w, AcquireAction(kind), reply);
            next.pc.Calling? ==> next == w.(pc := Calling(Publish(kind)))
  {
    NotCalling(w, Unexpected, Settled);
    hide Raise;
  }

  lemma OtherCalls(cfg: Config, w: Worker, call: Call, reply: Reply)
    requires Fits(Calling(call), reply) && !call.AcquireAction?
    ensures !AfterCall(cfg, w, call, reply).pc.Calling?
  {
    hide Raise, End, FailRun, FailRetryable, RecordOutcome, Interpret, ToReceipt;
    forall v: Worker, e: Exception ensures !Raise(v, e).pc.Calling? {
      NotCalling(v, e, Settled);
    }
    forall v: Worker, at: SavePoint ensures !End(v, Saving(at)).pc.Calling? {
      NotCalling(v, Unexpected, at);
    }
  }

  // ----- One action.

  /** The lease is granted over a current snapshot, or over one that is safe to grant. */
  predicate CarefulGrant(cfg: Config, s: World, a: Action)
    requires Enabled(s, a)
  {
    a.Acquire? && !s.Busy(a.worker) && s.stored.Some? && s.stored.value != s.workers[a.worker].run ==>
      SafeToGrant(cfg, s.workers[a.worker].run, s.stored.value, s.made)
  }

  lemma StartsNoCall(w: Worker)
    ensures !ExecuteStart(w).pc.Calling? && !RouteStart(w).pc.Calling?
  {
    forall v: Worker ensures !Raise(v, Unexpected).pc.Calling? {
      NotCalling(v, Unexpected, Settled);
    }
    hide Raise;
  }

  /** The only grant that leads straight to a publisher. */
  lemma GrantAsks(cfg: Config, w: Worker)
    requires w.pc.Reserved? && RunOk(cfg, w.run) && ProofOk(w.run)
    ensures var next := Granted(cfg, w);
            next.pc.Calling? ==>
              PublishesFirst(cfg, w.run) && next.pc.call == AcquireAction(PlannedKind(w.run)) && next.run == w.run
  {
    StartsNoCall(w);
    StartsNoCall(w.(mode := Direct));
    hide RouteStart, ExecuteStart, PublishesFirst;
    if !w.pc.created && w.run.status == RoutingAction {
      DispatchAsks(cfg, w.(mode := Direct));
      hide Dispatch;
    } else {
      hide Dispatch, RunOk, ProofOk;
    }
  }

  lemma DispatchAsks(cfg: Config, w: Worker)
    requires RunOk(cfg, w.run) && ProofOk(w.run) && w.run.status == RoutingAction && !w.pc.Calling?
    ensures var next := Dispatch(cfg, w);
            next.pc.Calling? ==>
              PublishesFirst(cfg, w.run) && next.pc.call == AcquireAction(PlannedKind(w.run)) && next.run == w.run
  {
    NotCalling(w, Unexpected, Settled);
    NotCalling(w.(invalid := true), Unexpected, Settled);
    NotRouted(w);
    hide Raise, End, EventsOk;
  }

  lemma NotRouted(w: Worker)
    ensures !CompleteStart(w).pc.Calling?
  {
    NotCalling(w.(invalid := true), Unexpected, Settled);
    hide Raise;
  }

  /** A current snapshot is always safe to grant. */
  lemma CurrentIsSafe(cfg: Config, r: Run, made: Artifacts)
    requires Accounts(r, made)
    ensures SafeToGrant(cfg, r, r, made)
  {
    if PublishesFirst(cfg, r) {
      assert ActionIs(r, 0, Ready) || ActionIs(r, 1, Planned);
      assert {} + {PrKeyOf(r)} == {PrKeyOf(r)} && {} + {IssueKeyOf(r)} == {IssueKeyOf(r)};
    }
  }

  lemma GrantedSafe(cfg: Config, key: string, w: Worker, stored: Run, made: Artifacts)
    requires WorkerOk(cfg, key, w, made) && w.pc.Reserved? && w.run.status !in {Complete, FailedSafe}
    requires made.Empty() || CanDispatch(cfg, w.run)
    requires Accounts(stored, made) && (stored == w.run || SafeToGrant(cfg, w.run, stored, made))
    ensures HolderSafe(cfg, Granted(cfg, w), made) && Covers(stored, Granted(cfg, w), made)
    ensures Granted(cfg, w).run.repository == w.run.repository
  {
    if stored == w.run {
      CurrentIsSafe(cfg, w.run, made);
    }
    GrantServes(cfg, key, w, made);
    GrantAsks(cfg, w);
    GrantProof(cfg, w);
    hide Granted, RunOk, ProofOk, HolderSafe, Accounts, PublishesFirst;
  }

  lemma AcquireStored(cfg: Config, s: World, w: nat)
    requires StoredSafe(cfg, s) && s.stored.Some? && Enabled(s, Acquire(w))
    requires !s.Busy(w) ==>
      && HolderSafe(cfg, Granted(cfg, s.workers[w]), s.made)
      && Covers(s.stored.value, Granted(cfg, s.workers[w]), s.made)
      && Granted(cfg, s.workers[w]).run.repository == s.workers[w].run.repository
    ensures StoredSafe(cfg, Perform(cfg, s, Acquire(w)))
  {
    hide Granted, Step, HolderSafe, Covers, Accounts;
  }

  lemma AcquireSafe(cfg: Config, s: World, a: Action)
    requires SafeInv(cfg, s) && Enabled(s, a) && a.Acquire? && CarefulGrant(cfg, s, a)
    ensures SafeInv(cfg, Perform(cfg, s, a))
  {
    hide Granted, Perform, Fit, ProofOk, Backed, HolderSafe, Covers, SafeToGrant, Accounts;
    RunsKept(cfg, s, a);
    if !s.Busy(a.worker) {
      GrantedSafe(cfg, s.key, s.workers[a.worker], s.stored.value, s.made);
    }
    AcquireStored(cfg, s, a.worker);
  }

  lemma AdvanceHolder(cfg: Config, key: string, w: Worker, reply: Reply, stored: Run, made: Artifacts, made': Artifacts)
    requires WorkerOk(cfg, key, w, made) && Fits(w.pc, reply) && HolderSafe(cfg, w, made) && Covers(stored, w, made)
    requires if w.pc.Calling? && w.pc.call.Publish? then PublishEffect(w.run, w.pc.call.kind, reply, made, made')
             else made' == made
    requires Accounts(stored, made) && made.Count() <= 1
    ensures var stored' := if w.pc.Saving? && reply.Saved? then w.run else stored;
            && HolderSafe(cfg, Step(cfg, w, reply), made') && Covers(stored', Step(cfg, w, reply), made')
            && Accounts(stored', made') && made'.Count() <= 1
    ensures !made'.Empty() && made' != made ==> CanDispatch(cfg, w.run)
  {
    if Closing(w) {
      var base, m :| Backed(cfg, w, base, m);
      ClosingNothing(cfg, w, base, m);
      ClosingSteps(cfg, w, reply, base, m);
    } else {
      var base :| Serves(cfg, w, base, made);
      var base' := if w.pc.Saving? && reply.Saved? then w.run else base;
      ServesSteps(cfg, w, reply, base, made, made');
      StillCovers(cfg, w, reply, base', made');
      EffectAccounts(cfg, w, reply, stored, made, made');
      hide Step, Serves, RunOk, ProofOk, Accounts;
      assert Serves(cfg, Step(cfg, w, reply), base', made');
    }
  }

  lemma EffectAccounts(cfg: Config, w: Worker, reply: Reply, stored: Run, made: Artifacts, made': Artifacts)
    requires Covers(stored, w, made) && Accounts(stored, made)
    requires if w.pc.Calling? && w.pc.call.Publish? then PublishEffect(w.run, w.pc.call.kind, reply, made, made')
             else made' == made
    ensures Accounts(stored, made')
  {
    hide Accounts;
  }

  lemma StepMoves(cfg: Config, key: string, w: Worker, reply: Reply, made: Artifacts)
    requires WorkerOk(cfg, key, w, made) && Fits(w.pc, reply)
    ensures Step(cfg, w, reply).run.repository == w.run.repository
  {
    var base, m :| Backed(cfg, w, base, m);
    BackedVerifies(cfg, w, base, m);
    hide Step, ProofOk, Backed;
    StepProof(cfg, w, reply);
  }

  lemma AdvanceStored(cfg: Config, s: World, a: Action, stored': Run)
    requires StoredSafe(cfg, s) && s.stored.Some? && Enabled(s, a) && a.Advance?
    requires var w := s.workers[a.worker];
             && stored' == (if w.pc.Saving? && a.reply.Saved? then w.run else s.stored.value)
             && HolderSafe(cfg, Step(cfg, w, a.reply), a.made) && Covers(stored', Step(cfg, w, a.reply), a.made)
             && Accounts(stored', a.made) && a.made.Count() <= 1
             && (!a.made.Empty() && a.made != s.made ==> CanDispatch(cfg, w.run))
             && Step(cfg, w, a.reply).run.repository == w.run.repository
    ensures StoredSafe(cfg, Perform(cfg, s, a))
  {
    hide Granted, Step, HolderSafe, Covers, Accounts, RemoteEffect, Fits;
  }

  lemma AdvanceSafe(cfg: Config, s: World, a: Action)
    requires SafeInv(cfg, s) && Enabled(s, a) && a.Advance?
    ensures SafeInv(cfg, Perform(cfg, s, a))
  {
    hide Granted, Perform, Step, Fit, ProofOk, Backed, HolderSafe, Covers, Accounts, PublishEffect;
    var w := s.workers[a.worker];
    RunsKept(cfg, s, a);
    AdvanceHolder(cfg, s.key, w, a.reply, s.stored.value, s.made, a.made);
    StepMoves(cfg, s.key, w, a.reply, s.made);
    AdvanceStored(cfg, s, a, if w.pc.Saving? && a.reply.Saved? then w.run else s.stored.value);
  }

  /** A publication in flight when its worker dies is one the stored run accounts for. */
  lemma LostAccounts(cfg: Config, w: Worker, stored: Run, made: Artifacts, made': Artifacts)
    requires HolderSafe(cfg, w, made) && Covers(stored, w, made)
    requires w.pc.Calling? && w.pc.call.Publish? && Created(w.run, w.pc.call.kind, made, made')
    ensures Accounts(stored, made') && made'.Count() <= 1 && CanDispatch(cfg, w.run)
  {
    var base :| Serves(cfg, w, base, made);
    DispatchAccounts(cfg, base, w.pc.call.kind, made);
    hide RunOk, Committed, Accounts;
  }

  lemma CrashSafe(cfg: Config, s: World, a: Action)
    requires SafeInv(cfg, s) && Enabled(s, a) && a.Crash?
    ensures SafeInv(cfg, Perform(cfg, s, a))
  {
    RunsKept(cfg, s, a);
    hide RunsOk, Granted, Step, Accounts, Covers, HolderSafe, Created;
    if a.made != s.made {
      LostAccounts(cfg, s.workers[a.worker], s.stored.value, s.made, a.made);
    }
    CrashStored(cfg, s, a);
  }

  lemma CrashStored(cfg: Config, s: World, a: Action)
    requires StoredSafe(cfg, s) && s.stored.Some? && Enabled(s, a) && a.Crash?
    requires Accounts(s.stored.value, a.made) && a.made.Count() <= 1
    requires a.made != s.made ==> CanDispatch(cfg, s.workers[a.worker].run)
    ensures StoredSafe(cfg, Perform(cfg, s, a))
  {
    hide Granted, Step, Accounts, Serves, Created;
  }

  lemma ReserveSafe(cfg: Config, s: World, a: Action)
    requires SafeInv(cfg, s) && Enabled(s, a) && (a.Reserve? || a.Release? || a.Tick?)
    ensures SafeInv(cfg, Perform(cfg, s, a))
  {
    RunsKept(cfg, s, a);
    hide RunsOk, Granted, Step, Serves;
    OthersStored(cfg, s, a);
  }

  lemma OthersStored(cfg: Config, s: World, a: Action)
    requires StoredSafe(cfg, s) && (s.stored.None? ==> s.workers == map[])
    requires Enabled(s, a) && (a.Reserve? || a.Release? || a.Tick?)
    ensures StoredSafe(cfg, Perform(cfg, s, a))
  {
    hide Granted, Step, Serves;
  }

  /** Every action keeps the invariant, as long as leases are granted with care. */
  lemma SafeKeeps(cfg: Config, s: World, a: Action)
    requires SafeInv(cfg, s) && Enabled(s, a) && CarefulGrant(cfg, s, a)
    ensures SafeInv(cfg, Perform(cfg, s, a))
  {
    match a
    case Acquire(_) => AcquireSafe(cfg, s, a);
    case Advance(_, _, _) => AdvanceSafe(cfg, s, a);
    case Crash(_, _) => CrashSafe(cfg, s, a);
    case _ => ReserveSafe(cfg, s, a);
  }

  /** Every grant along the way is careful. */
  ghost predicate GrantsCareful(cfg: Config, s: World, actions: seq<Action>)
    requires Happens(cfg, s, actions)
    decreases actions
  {
    actions == []
    || (CarefulGrant(cfg, s, actions[0]) && GrantsCareful(cfg, Perform(cfg, s, actions[0]), actions[1..]))
  }

  lemma {:induction false} CurrentIsCareful(cfg: Config, s: World, actions: seq<Action>)
    requires Happens(cfg, s, actions) && GrantsCurrent(cfg, s, actions)
    ensures GrantsCareful(cfg, s, actions)
    decreases actions
  {
    if actions != [] {
      hide Perform, SafeToGrant;
      CurrentIsCareful(cfg, Perform(cfg, s, actions[0]), actions[1..]);
    }
  }

  lemma {:induction false} CarefulHistory(cfg: Config, s: World, actions: seq<Action>)
    requires SafeInv(cfg, s) && Happens(cfg, s, actions) && GrantsCareful(cfg, s, actions)
    ensures SafeInv(cfg, After(cfg, s, actions)) && After(cfg, s, actions).made.Count() <= 1
    decreases actions
  {
    if actions == [] {
      SafeCount(cfg, s);
    } else {
      SafeKeeps(cfg, s, actions[0]);
      CarefulHistory(cfg, Perform(cfg, s, actions[0]), actions[1..]);
    }
  }

  lemma SafeCount(cfg: Config, s: World)
    requires SafeInv(cfg, s)
    ensures s.made.Count() <= 1
  {
  }

  /** One key creates at most one artifact, a draft PR or an issue and never both, through every interleaving, crash,
      lost reply and retry, in every history whose leases are granted over current snapshots or over ones that are safe
      to grant; and an action recorded as opened names the artifact that exists. */
  lemma OneArtifact(cfg: Config, key: string, actions: seq<Action>)
    requires Happens(cfg, Start(key), actions) && GrantsCareful(cfg, Start(key), actions)
    ensures var s := After(cfg, Start(key), actions);
            && s.made.Count() <= 1
            && (s.stored.Some? && ActionIs(s.stored.value, 0, Opened) ==>
                  s.made == Artifacts({PrKeyOf(s.stored.value)}, {}))
            && (s.stored.Some? && ActionIs(s.stored.value, 1, Opened) ==>
                  s.made == Artifacts({}, {IssueKeyOf(s.stored.value)}))
  {
    CarefulHistory(cfg, Start(key), actions);
    OpenedActionsExist(cfg, key, actions);
    hide Happens, GrantsCareful, After, SafeInv;
    var s := After(cfg, Start(key), actions);
    if s.stored.Some? && ActionIs(s.stored.value, 0, Opened) {
      OneMade(s.made, PrKeyOf(s.stored.value));
    }
    if s.stored.Some? && ActionIs(s.stored.value, 1, Opened) {
      OneIssueMade(s.made, IssueKeyOf(s.stored.value));
    }
  }

  lemma OneMade(made: Artifacts, key: PrKey)
    requires made.Count() <= 1 && key in made.prs
    ensures made == Artifacts({key}, {})
  {
    assert {key} <= made.prs && |{key}| == 1;
    assert |made.prs - {key}| == 0;
  }

  lemma OneIssueMade(made: Artifacts, key: IssueKey)
    requires made.Count() <= 1 && key in made.issues
    ensures made == Artifacts({}, {key})
  {
    assert {key} <= made.issues && |{key}| == 1;
    assert |made.issues - {key}| == 0;
  }
}
