/** What a save may do to the stored run: recorded publications stay, attempts only grow, and each departure from
    FAILED_RETRYABLE spends one. This module says exactly which grants of a lease lead to such saves only, and what
    histories of such grants keep. */
module ServiceRetries {
  import opened Wrappers
  import opened Actions
  import opened AuditRuns
  import opened Candidates
  import opened Verification
  import opened Service
  import opened ServiceInvariants
  import opened ServiceSteps
  import opened ServiceProofs
  import opened ServiceProtocol
  import opened ServiceRuns

  /** What a save may do to the persisted history. */
  predicate Extends(before: Run, after: Run) {
    && OpenedKept(before, after)
    && Attempts(before.events) <= Attempts(after.events)
    && (before.status == FailedRetryable && after.status != FailedRetryable ==>
          Attempts(before.events) < Attempts(after.events))
  }

  /** The worker completes these awaits one after the other, and none of them is a save that goes through. */
  ghost predicate Unsaved(cfg: Config, w: Worker, replies: seq<Reply>, w': Worker)
    decreases replies
  {
    if replies == [] then w' == w
    else
      && Fits(w.pc, replies[0]) && !(w.pc.Saving? && replies[0].Saved?)
      && Unsaved(cfg, Step(cfg, w, replies[0]), replies[1..], w')
  }

  /** Whatever the next save of the worker is, it extends the stored run. */
  ghost predicate NextSavesExtend(cfg: Config, w: Worker, stored: Run) {
    forall replies, w' :: Unsaved(cfg, w, replies, w') && w'.pc.Saving? ==> Extends(stored, w'.run)
  }

  /** The run a worker is granted goes on from the stored one: it keeps its opened actions, and it has counted its
      attempts, with a new one if the stored run waits for a retry. */
  predicate GoesOn(stored: Run, granted: Run) {
    && OpenedKept(stored, granted)
    && Attempts(stored.events) + (if stored.status == FailedRetryable then 1 else 0) <= Attempts(granted.events)
  }

  // ----- A worker that goes on from its own run.

  lemma BackedExtends(cfg: Config, w: Worker, base: Run, made: Artifacts)
    requires Backed(cfg, w, base, made) && w.pc.Saving?
    ensures Extends(base, w.run)
  {
  }

  lemma {:induction false} BackedUnsaved(
    cfg: Config, w: Worker, base: Run, made: Artifacts, replies: seq<Reply>, w': Worker)
    requires Backed(cfg, w, base, made) && Unsaved(cfg, w, replies, w')
    ensures exists made' :: Backed(cfg, w', base, made')
    decreases replies
  {
    hide Backed, Step;
    if replies != [] {
      var made' := BackedSteps(cfg, w, replies[0], base, made);
      BackedUnsaved(cfg, Step(cfg, w, replies[0]), base, made', replies[1..], w');
    }
  }

  lemma BackedNext(cfg: Config, w: Worker, base: Run, made: Artifacts)
    requires Backed(cfg, w, base, made)
    ensures NextSavesExtend(cfg, w, base)
  {
    hide Backed, Extends;
    forall replies, w' | Unsaved(cfg, w, replies, w') && w'.pc.Saving? ensures Extends(base, w'.run) {
      BackedUnsaved(cfg, w, base, made, replies, w');
      var made' :| Backed(cfg, w', base, made');
      BackedExtends(cfg, w', base, made');
    }
  }

  // ----- The first save after a grant.

  /** A grant records no publication of its own, and only the two resuming saves count a new attempt. */
  lemma GrantAdds(cfg: Config, w: Worker, made: Artifacts)
    requires w.pc.Reserved? && !w.invalid && RunOk(cfg, w.run) && Committed(cfg, w.run, made)
    requires w.run.status !in {Complete, FailedSafe} && (w.pc.created ==> w.run.status == Received)
    ensures var granted := Granted(cfg, w);
            && OpenedKept(granted.run, w.run)
            && (granted.pc.Saving? || (granted.pc.Calling? && granted.pc.call.AcquireAction? && granted.run == w.run))
            && (granted.pc.Saving? && !Resuming(granted.pc.at) ==>
                  Attempts(granted.run.events) == Attempts(w.run.events))
            && (granted.pc.Saving? ==> granted.run.status != FailedRetryable)
  {
    if w.pc.created {
      Started(w.run, Capturing);
    } else if w.run.status == RoutingAction {
      DispatchAdds(cfg, w.(mode := Direct));
    } else if w.run.status == Verifying {
      Started(w.run, RoutingAction);
      PlanIsOk(w.run.verdict, w.run.verification);
    }
  }

  /** What dispatching may do to the run before its first save. */
  ghost predicate Adds(r: Run, next: Worker) {
    && OpenedKept(next.run, r)
    && (next.pc.Saving? || (next.pc.Calling? && next.pc.call.AcquireAction? && next.run == r))
    && (next.pc.Saving? ==> Attempts(next.run.events) == Attempts(r.events))
    && (next.pc.Saving? ==> next.run.status != FailedRetryable && !Resuming(next.pc.at))
  }

  lemma CompleteAdds(w: Worker)
    requires EventsOk(w.run) && !w.run.IsRunning() && w.run.status == RoutingAction
    ensures Adds(w.run, CompleteStart(w))
  {
    Started(w.run, Complete);
    Finished(StartStage(w.run, Complete).value);
  }

  lemma EndAdds(w: Worker)
    requires EventsOk(w.run) && w.run.IsRunning() && w.run.status == RoutingAction
    ensures Adds(w.run, End(w, Saving(Settled)))
  {
    Finished(w.run);
  }

  lemma FallbackAdds(w: Worker)
    requires |w.run.actions| == 3 && w.run.status == RoutingAction
    ensures Adds(w.run, w.(run := SelectIssueFallback(w.run), pc := Saving(FallbackInline)))
  {
  }

  lemma DispatchAdds(cfg: Config, w: Worker)
    requires RunOk(cfg, w.run) && w.run.status == RoutingAction
    ensures Adds(w.run, Dispatch(cfg, w))
  {
    if w.run.LastIs(RoutingAction, Succeeded) {
      CompleteAdds(w);
    } else {
      EndAdds(w);
      if ActionIs(w.run, 0, Ready) {
        FallbackAdds(w);
      }
      AsksAdd(w);
      hide RunOk, EventsOk, End, CompleteStart, Adds, SelectIssueFallback;
    }
  }

  lemma AsksAdd(w: Worker)
    ensures forall kind :: Adds(w.run, w.(pc := Calling(AcquireAction(kind))))
  {
  }

  lemma OneUnsaved(cfg: Config, w: Worker, replies: seq<Reply>, w': Worker)
    requires Unsaved(cfg, w, replies, w') && replies != [] && w.pc.Saving? && Resuming(w.pc.at)
    ensures w'.pc.Done?
  {
    assert Step(cfg, w, replies[0]) == w.(pc := Done);
    hide Step;
  }

  lemma OpenedKeptThrough(a: Run, b: Run, c: Run, d: Run)
    requires OpenedKept(a, b) && OpenedKept(b, c) && OpenedKept(c, d)
    ensures OpenedKept(a, d)
  {
  }

  lemma LaterExtends(stored: Run, granted: Run, r: Run, later: Run)
    requires GoesOn(stored, granted) && OpenedKept(granted, r) && Extends(r, later)
    requires Attempts(granted.events) == Attempts(r.events)
    ensures Extends(stored, later)
  {
    OpenedKeptThrough(stored, granted, r, later);
    hide OpenedKept;
  }

  lemma GoesOnSuffices(cfg: Config, w: Worker, stored: Run, made: Artifacts)
    requires w.pc.Reserved? && !w.invalid && RunOk(cfg, w.run) && Committed(cfg, w.run, made)
    requires w.run.status !in {Complete, FailedSafe} && (w.pc.created ==> w.run.status == Received)
    requires GoesOn(stored, Granted(cfg, w).run)
    ensures NextSavesExtend(cfg, Granted(cfg, w), stored)
  {
    var g := Granted(cfg, w);
    GrantKeeps(cfg, w, w.run, made);
    GrantAdds(cfg, w, made);
    assert Backed(cfg, g, w.run, made);
    BackedNext(cfg, g, w.run, made);
    hide Granted, Step, RunOk, Committed, Backed, OpenedKept;
    forall replies, w' | Unsaved(cfg, g, replies, w') && w'.pc.Saving? ensures Extends(stored, w'.run) {
      if replies == [] {
        assert w' == g;
      } else if g.pc.Saving? && Resuming(g.pc.at) {
        OneUnsaved(cfg, g, replies, w');
      } else {
        LaterExtends(stored, g.run, w.run, w'.run);
      }
    }
  }

  /** A publisher that refuses leaves the plan and the attempts as they are. */
  lemma RefusedAtOnce(cfg: Config, w: Worker, base: Run, made: Artifacts) returns (w': Worker)
    requires Backed(cfg, w, base, made) && w.pc.Calling? && w.pc.call.AcquireAction?
    ensures Unsaved(cfg, w, [LeaseGranted, PublishRefused], w') && w'.pc.Saving? && w'.run.status == FailedSafe
    ensures w'.run.actions == w.run.actions && Attempts(w'.run.events) == Attempts(w.run.events)
  {
    assert Dispatching(cfg, w.run, w.pc.call.kind) && EventsOk(w.run);
    var asking := w.(pc := Calling(Publish(w.pc.call.kind)));
    FailRunKeeps(w.run, FailedSafe, false, false);
    w' := w.(run := FailRun(w.run, FailedSafe, false, false).value, pc := Saving(FailedInDispatch));
    hide FailRun, RunOk, Committed, ActiveOk, EventsOk;
    RefusalSteps(cfg, w, asking, w');
  }

  lemma RefusalSteps(cfg: Config, w: Worker, asking: Worker, w': Worker)
    requires w.pc.Calling? && w.pc.call.AcquireAction? && asking == w.(pc := Calling(Publish(w.pc.call.kind)))
    requires w.pc.call.kind == PullRequest ==> w.run.candidate.Some?
    requires FailRun(w.run, FailedSafe, false, false) == Ok(w'.run)
    requires w' == w.(run := w'.run, pc := Saving(FailedInDispatch))
    ensures Unsaved(cfg, w, [LeaseGranted, PublishRefused], w')
  {
    assert Step(cfg, w, LeaseGranted) == asking;
    assert Step(cfg, asking, PublishRefused) == w';
    assert [LeaseGranted, PublishRefused][1..] == [PublishRefused] && [PublishRefused][1..] == [];
    hide Step, FailRun;
    assert Unsaved(cfg, asking, [PublishRefused], w');
  }

  lemma GoesOnNecessary(cfg: Config, w: Worker, stored: Run, made: Artifacts)
    requires w.pc.Reserved? && !w.invalid && RunOk(cfg, w.run) && Committed(cfg, w.run, made)
    requires w.run.status !in {Complete, FailedSafe} && (w.pc.created ==> w.run.status == Received)
    requires NextSavesExtend(cfg, Granted(cfg, w), stored)
    ensures GoesOn(stored, Granted(cfg, w).run)
  {
    hide Granted, Step, RunOk, Committed, ActiveOk;
    var g := Granted(cfg, w);
    GrantKeeps(cfg, w, w.run, made);
    GrantAdds(cfg, w, made);
    assert Backed(cfg, g, w.run, made);
    hide Backed;
    if g.pc.Saving? {
      assert Unsaved(cfg, g, [], g);
    } else {
      var w' := RefusedAtOnce(cfg, g, w.run, made);
      assert Extends(stored, w'.run);
    }
  }

  // ----- Histories.

  ghost predicate ExtendingGrant(cfg: Config, s: World, a: Action)
    requires Enabled(s, a)
  {
    a.Acquire? && !s.Busy(a.worker) && s.stored.Some? ==>
      GoesOn(s.stored.value, Granted(cfg, s.workers[a.worker]).run)
  }

  ghost predicate GrantsExtend(cfg: Config, s: World, actions: seq<Action>)
    requires Happens(cfg, s, actions)
    decreases actions
  {
    actions == []
    || (ExtendingGrant(cfg, s, actions[0]) && GrantsExtend(cfg, Perform(cfg, s, actions[0]), actions[1..]))
  }

  /** Each departure from FAILED_RETRYABLE spends an attempt. */
  predicate BudgetOk(s: World) {
    match s.stored
    case None => s.departures == 0
    case Some(r) => s.departures < Attempts(r.events) && s.departures < MAX_RUN_ATTEMPTS
  }

  ghost predicate RetryInv(cfg: Config, s: World) {
    && RunsOk(cfg, s) && BudgetOk(s) && (s.stored.None? ==> s.lease.None?)
    && (s.lease.Some? && s.Holds(s.lease.value.owner) && s.lease.value.owner in s.workers && s.stored.Some? ==>
          NextSavesExtend(cfg, s.workers[s.lease.value.owner], s.stored.value))
  }

  ghost predicate StoredExtends(s: World, s': World) {
    s.stored.Some? ==>
      && s'.stored.Some? && OpenedKept(s.stored.value, s'.stored.value)
      && Attempts(s.stored.value.events) <= Attempts(s'.stored.value.events)
  }

  /** After an await, either the new stored run or the old one is what the next save extends. */
  lemma NextAfterStep(cfg: Config, key: string, w: Worker, reply: Reply, stored: Run, world: Artifacts)
    requires WorkerOk(cfg, key, w, world) && Fits(w.pc, reply) && NextSavesExtend(cfg, w, stored)
    ensures var stored' := if w.pc.Saving? && reply.Saved? then w.run else stored;
            && NextSavesExtend(cfg, Step(cfg, w, reply), stored')
            && (w.pc.Saving? && reply.Saved? ==> Extends(stored, w.run))
  {
    hide Step, Fits, Extends, Backed, Fit, ProofOk;
    if w.pc.Saving? && reply.Saved? {
      assert Unsaved(cfg, w, [], w);
      var base, made :| Backed(cfg, w, base, made);
      var made' := BackedSteps(cfg, w, reply, base, made);
      BackedNext(cfg, Step(cfg, w, reply), w.run, made');
    } else {
      forall replies, w' | Unsaved(cfg, Step(cfg, w, reply), replies, w') && w'.pc.Saving?
        ensures Extends(stored, w'.run)
      {
        assert ([reply] + replies)[1..] == replies;
        assert Unsaved(cfg, w, [reply] + replies, w');
      }
    }
  }

  lemma RetryAdvances(cfg: Config, s: World, a: Action)
    requires RetryInv(cfg, s) && Enabled(s, a) && a.Advance?
    ensures RetryInv(cfg, Perform(cfg, s, a)) && StoredExtends(s, Perform(cfg, s, a))
  {
    var w := s.workers[a.worker];
    RunsKept(cfg, s, a);
    NextAfterStep(cfg, s.key, w, a.reply, s.stored.value, s.made);
    BudgetSpent(s, w.run);
    hide Step, Granted, RunsOk, NextSavesExtend, BudgetOk, Extends, Fits, RemoteEffect;
    AdvanceRetries(cfg, s, a);
  }

  lemma BudgetSpent(s: World, r: Run)
    requires BudgetOk(s) && s.stored.Some?
    requires s.stored.value.status == FailedRetryable ==> Attempts(s.stored.value.events) < MAX_RUN_ATTEMPTS
    ensures Extends(s.stored.value, r) ==> BudgetOk(Persist(s, r))
  {
  }

  lemma AdvanceRetries(cfg: Config, s: World, a: Action)
    requires Enabled(s, a) && a.Advance? && s.stored.Some? && BudgetOk(s) && RunsOk(cfg, Perform(cfg, s, a))
    requires var w := s.workers[a.worker];
             var stored' := if w.pc.Saving? && a.reply.Saved? then w.run else s.stored.value;
             && NextSavesExtend(cfg, Step(cfg, w, a.reply), stored')
             && (w.pc.Saving? && a.reply.Saved? ==> Extends(s.stored.value, w.run) && BudgetOk(Persist(s, w.run)))
    ensures RetryInv(cfg, Perform(cfg, s, a)) && StoredExtends(s, Perform(cfg, s, a))
  {
    hide Step, Granted, RunsOk, NextSavesExtend, Fits, RemoteEffect;
  }

  lemma RetryAcquires(cfg: Config, s: World, a: Action)
    requires RetryInv(cfg, s) && Enabled(s, a) && a.Acquire? && ExtendingGrant(cfg, s, a)
    ensures RetryInv(cfg, Perform(cfg, s, a)) && StoredExtends(s, Perform(cfg, s, a))
  {
    RunsKept(cfg, s, a);
    var w := s.workers[a.worker];
    var made :| Committed(cfg, w.run, made);
    if !s.Busy(a.worker) {
      GoesOnSuffices(cfg, w, s.stored.value, made);
    }
    hide Step, Granted, RunsOk, NextSavesExtend;
  }

  lemma RetryOthers(cfg: Config, s: World, a: Action)
    requires RetryInv(cfg, s) && Enabled(s, a) && !a.Acquire? && !a.Advance?
    ensures RetryInv(cfg, Perform(cfg, s, a)) && StoredExtends(s, Perform(cfg, s, a))
  {
    hide Step, Granted, Perform, RunsOk, NextSavesExtend, NewRun;
    RunsKept(cfg, s, a);
    NoneStored(cfg, s);
    OthersRetry(cfg, s, a);
  }

  lemma OthersRetry(cfg: Config, s: World, a: Action)
    requires BudgetOk(s) && (s.stored.None? ==> s.lease.None? && s.workers == map[])
    requires s.lease.Some? && s.Holds(s.lease.value.owner) && s.lease.value.owner in s.workers && s.stored.Some? ==>
               NextSavesExtend(cfg, s.workers[s.lease.value.owner], s.stored.value)
    requires Enabled(s, a) && !a.Acquire? && !a.Advance? && RunsOk(cfg, Perform(cfg, s, a))
    ensures RetryInv(cfg, Perform(cfg, s, a)) && StoredExtends(s, Perform(cfg, s, a))
  {
    hide Step, Granted, RunsOk, NextSavesExtend, NewRun;
    var after := Perform(cfg, s, a);
    if a.Reserve? {
      NewRunOk(cfg, s.key, a.repository);
      IdleNext(cfg, after.workers[a.worker], after.stored.value);
    } else if (a.Crash? || a.Release?) && s.stored.Some? {
      IdleNext(cfg, after.workers[a.worker], s.stored.value);
    }
  }

  lemma IdleNext(cfg: Config, w: Worker, stored: Run)
    requires w.pc.Reserved? || w.pc.Releasing? || w.pc.Done?
    ensures NextSavesExtend(cfg, w, stored)
  {
    hide Step, Extends;
  }

  lemma NoneStored(cfg: Config, s: World)
    requires RunsOk(cfg, s)
    ensures s.stored.None? ==> s.workers == map[]
  {
  }

  lemma RetryKeeps(cfg: Config, s: World, a: Action)
    requires RetryInv(cfg, s) && Enabled(s, a) && ExtendingGrant(cfg, s, a)
    ensures RetryInv(cfg, Perform(cfg, s, a)) && StoredExtends(s, Perform(cfg, s, a))
  {
    match a
    case Acquire(_) => RetryAcquires(cfg, s, a);
    case Advance(_, _, _) => RetryAdvances(cfg, s, a);
    case _ => RetryOthers(cfg, s, a);
  }

  lemma {:induction false} RetryHistory(cfg: Config, s: World, actions: seq<Action>)
    requires RetryInv(cfg, s) && Happens(cfg, s, actions) && GrantsExtend(cfg, s, actions)
    ensures RetryInv(cfg, After(cfg, s, actions)) && StoredExtends(s, After(cfg, s, actions))
    decreases actions
  {
    hide RetryInv, Perform, Enabled, ExtendingGrant;
    if actions != [] {
      RetryKeeps(cfg, s, actions[0]);
      RetryHistory(cfg, Perform(cfg, s, actions[0]), actions[1..]);
    }
  }

  /** A run leaves FAILED_RETRYABLE at most twice, in every history whose grants go on from the stored run. */
  lemma RetriesAreBounded(cfg: Config, key: string, actions: seq<Action>)
    requires Happens(cfg, Start(key), actions) && GrantsExtend(cfg, Start(key), actions)
    ensures After(cfg, Start(key), actions).departures <= MAX_RUN_ATTEMPTS - 1
  {
    RetryHistory(cfg, Start(key), actions);
  }

  /** A recorded OPENED action and its URL are never undone, and attempts never decrease, in every history whose grants
      go on from the stored run. */
  lemma HistoryExtends(cfg: Config, key: string, first: seq<Action>, rest: seq<Action>)
    requires Happens(cfg, Start(key), first) && GrantsExtend(cfg, Start(key), first)
    requires var s := After(cfg, Start(key), first); Happens(cfg, s, rest) && GrantsExtend(cfg, s, rest)
    ensures var s := After(cfg, Start(key), first); StoredExtends(s, After(cfg, s, rest))
  {
    RetryHistory(cfg, Start(key), first);
    RetryHistory(cfg, After(cfg, Start(key), first), rest);
  }

  /** For every grant of a free lease, in whatever history: all that the granted worker may save next extends the stored
      run if and only if the run it is granted goes on from the stored one. */
  lemma GrantExtendsExactly(cfg: Config, key: string, actions: seq<Action>, w: nat)
    requires Happens(cfg, Start(key), actions)
    requires var s := After(cfg, Start(key), actions); Enabled(s, Acquire(w)) && !s.Busy(w)
    ensures var s := After(cfg, Start(key), actions);
            && w in s.workers && s.stored.Some?
            && (NextSavesExtend(cfg, Granted(cfg, s.workers[w]), s.stored.value)
                <==> GoesOn(s.stored.value, Granted(cfg, s.workers[w]).run))
  {
    FromStart(cfg, key, actions);
    var s := After(cfg, Start(key), actions);
    var worker := s.workers[w];
    assert WorkerOk(cfg, key, worker, s.made);
    var made :| Committed(cfg, worker.run, made);
    hide Granted, NextSavesExtend, GoesOn, Happens, After, Perform;
    if GoesOn(s.stored.value, Granted(cfg, worker).run) {
      GoesOnSuffices(cfg, worker, s.stored.value, made);
    } else if NextSavesExtend(cfg, Granted(cfg, worker), s.stored.value) {
      GoesOnNecessary(cfg, worker, s.stored.value, made);
    }
  }

  /** A current snapshot always goes on. */
  lemma CurrentGoesOn(cfg: Config, w: Worker, made: Artifacts)
    requires w.pc.Reserved? && !w.invalid && RunOk(cfg, w.run) && Committed(cfg, w.run, made)
    requires w.run.status !in {Complete, FailedSafe} && (w.pc.created ==> w.run.status == Received)
    ensures GoesOn(w.run, Granted(cfg, w).run)
  {
    GrantKeeps(cfg, w, w.run, made);
    assert Backed(cfg, Granted(cfg, w), w.run, made);
    BackedNext(cfg, Granted(cfg, w), w.run, made);
    hide Granted, NextSavesExtend, GoesOn, Backed;
    GoesOnNecessary(cfg, w, w.run, made);
  }
}
