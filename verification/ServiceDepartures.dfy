/** What grants that do not go on from the stored run can do: deliveries that all wait with the same retryable snapshot
    restart it one after the other, so that no number bounds the retries. */
module ServiceDepartures {
  import opened Wrappers
  import opened Actions
  import opened AuditRuns
  import opened Candidates
  import opened Verification
  import opened Service
  import opened ServiceInvariants
  import opened ServiceSteps
  import opened ServiceProtocol
  import opened ServiceRerun
  import opened ServiceDrives

  /** A run that failed in its first attempt and waits for a retry. */
  ghost predicate FailedOnce(r: Run) {
    EventsOk(r) && r.status == FailedRetryable && !FailedDuringDispatch(r) && Attempts(r.events) == 1
  }

  /** A worker about to capture, whose capture fails: three more awaits to a retryable run. */
  ghost predicate CaptureFails(cfg: Config, w: Worker, attempts: nat) {
    && w.pc == Saving(CaptureStarted) && w.run.status == Capturing
    && var calling := Step(cfg, w, Saved);
       && calling.pc == Calling(Capture)
       && var failed := Step(cfg, calling, NetworkError);
          && failed.pc == Saving(HandlerFailed) && failed.run.status == FailedRetryable
          && EventsOk(failed.run) && !FailedDuringDispatch(failed.run) && Attempts(failed.run.events) == attempts
          && Step(cfg, failed, Saved).pc.Releasing?
  }

  lemma CaptureCanFail(cfg: Config, w: Worker)
    requires At(w, CaptureStarted, Capturing, Running) && w.mode == InExecute
    requires Attempts(w.run.events) < MAX_RUN_ATTEMPTS
    ensures CaptureFails(cfg, w, Attempts(w.run.events))
  {
    var calling := w.(pc := Calling(Capture));
    FailsRetryably(calling);
    hide Handle;
    assert Step(cfg, w, Saved) == calling;
    NetworkFails(cfg, calling);
    SavesHandled(cfg, Handle(calling, Network));
    hide Step;
  }

  lemma NetworkFails(cfg: Config, w: Worker)
    requires w.pc == Calling(Capture) && w.mode == InExecute
    ensures Step(cfg, w, NetworkError) == Handle(w, Network)
  {
    hide Handle;
  }

  lemma SavesHandled(cfg: Config, w: Worker)
    requires w.pc == Saving(HandlerFailed)
    ensures Step(cfg, w, Saved).pc.Releasing?
  {
  }

  lemma RestartFails(cfg: Config, r: Run)
    requires FailedOnce(r)
    ensures var granted := Granted(cfg, Taking(r));
            && granted.pc == Saving(ResumeRestart) && granted.run.status == Received
            && CaptureFails(cfg, Step(cfg, granted, Saved), 2)
  {
    ResetRun(r);
    var granted := Granted(cfg, Taking(r));
    assert granted.pc == Saving(ResumeRestart) && granted.run == ResetInterrupted(r);
    hide Granted, CaptureFails, Step;
    var started := Restart(cfg, granted);
    ReachesOne(cfg, granted, started);
    CaptureCanFail(cfg, started);
  }

  lemma ReachesOne(cfg: Config, w: Worker, w': Worker)
    requires Reaches(cfg, w, [Saved], w')
    ensures w' == Step(cfg, w, Saved)
  {
    assert [Saved][1..] == [];
    hide Step, Fits;
  }

  // ----- In the world.

  lemma Saves(cfg: Config, s: World, w: nat)
    requires w in s.workers && s.Holds(w) && s.workers[w].pc.Saving? && s.stored.Some?
    ensures var a := Advance(w, Saved, s.made);
            && Happens(cfg, s, [a])
            && var next := After(cfg, s, [a]);
               && next.stored == Some(s.workers[w].run) && next.lease == s.lease && next.clock == s.clock
               && next.workers == s.workers[w := Step(cfg, s.workers[w], Saved)] && next.made == s.made
               && next.departures == s.departures +
                    (if s.stored.value.status == FailedRetryable && s.workers[w].run.status != FailedRetryable then 1
                     else 0)
  {
    hide Step, Granted;
    OneAction(cfg, s, Advance(w, Saved, s.made));
  }

  lemma CaptureRaises(cfg: Config, s: World, w: nat)
    requires w in s.workers && s.Holds(w) && s.workers[w].pc == Calling(Capture)
    ensures var a := Advance(w, NetworkError, s.made);
            && Happens(cfg, s, [a])
            && After(cfg, s, [a]) == s.Set(w, Step(cfg, s.workers[w], NetworkError))
  {
    hide Step, Granted;
    OneAction(cfg, s, Advance(w, NetworkError, s.made));
  }

  lemma LetsGo(cfg: Config, s: World, w: nat)
    requires w in s.workers && s.Holds(w) && s.workers[w].pc.Releasing?
    ensures Happens(cfg, s, [Release(w, true)])
    ensures After(cfg, s, [Release(w, true)]) == s.(lease := None).Set(w, s.workers[w].(pc := Done))
  {
    hide Step, Granted;
    OneAction(cfg, s, Release(w, true));
  }

  /** The capture of the holder fails, which is saved, and the lease is let go. */
  lemma FailsAndReleases(cfg: Config, s: World, w: nat, attempts: nat) returns (actions: seq<Action>)
    requires w in s.workers && s.Holds(w) && CaptureFails(cfg, s.workers[w], attempts)
    requires s.stored.Some? && s.stored.value.status != FailedRetryable
    ensures Happens(cfg, s, actions)
    ensures var after := After(cfg, s, actions);
            && after.departures == s.departures && after.lease.None? && after.stored.Some?
            && after.stored.value.status == FailedRetryable && EventsOk(after.stored.value)
            && !FailedDuringDispatch(after.stored.value) && Attempts(after.stored.value.events) == attempts
            && w in after.workers && after.workers == s.workers[w := after.workers[w]]
  {
    hide Step, Granted, Happens, After, Perform, Enabled, FailedDuringDispatch, EventsOk;
    Saves(cfg, s, w);
    var s1 := After(cfg, s, [Advance(w, Saved, s.made)]);
    CaptureRaises(cfg, s1, w);
    var s2 := After(cfg, s1, [Advance(w, NetworkError, s1.made)]);
    Saves(cfg, s2, w);
    var s3 := After(cfg, s2, [Advance(w, Saved, s2.made)]);
    LetsGo(cfg, s3, w);
    HappensAppend(cfg, s2, [Advance(w, Saved, s2.made)], [Release(w, true)]);
    var last := [Advance(w, Saved, s2.made)] + [Release(w, true)];
    HappensAppend(cfg, s1, [Advance(w, NetworkError, s1.made)], last);
    HappensAppend(cfg, s, [Advance(w, Saved, s.made)], [Advance(w, NetworkError, s1.made)] + last);
    actions := [Advance(w, Saved, s.made)] + ([Advance(w, NetworkError, s1.made)] + last);
  }

  lemma Granting(cfg: Config, s: World, w: nat)
    requires w in s.workers && s.workers[w].pc.Reserved? && s.lease.None?
    requires s.workers[w].run.status !in {Complete, FailedSafe}
    ensures Happens(cfg, s, [Acquire(w)])
    ensures After(cfg, s, [Acquire(w)])
            == s.(lease := Some(Lease(w, s.clock + RUN_LEASE_SECONDS))).Set(w, Granted(cfg, s.workers[w]))
  {
    hide Step, Granted;
    OneAction(cfg, s, Acquire(w));
  }

  /** One more waiting delivery restarts the run it read, and fails again: one more departure. */
  lemma OneMore(cfg: Config, s: World, w: nat, r: Run) returns (actions: seq<Action>)
    requires w in s.workers && s.workers[w] == Taking(r) && FailedOnce(r)
    requires s.lease.None? && s.stored.Some? && s.stored.value.status == FailedRetryable
    ensures Happens(cfg, s, actions)
    ensures var after := After(cfg, s, actions);
            && after.departures == s.departures + 1 && after.lease.None? && after.stored.Some?
            && after.stored.value.status == FailedRetryable
            && w in after.workers && after.workers == s.workers[w := after.workers[w]]
  {
    RestartFails(cfg, r);
    assert r.status == FailedRetryable;
    hide Step, Granted, Happens, After, Perform, Enabled, FailedDuringDispatch, EventsOk, FailedOnce, CaptureFails;
    Granting(cfg, s, w);
    var s1 := After(cfg, s, [Acquire(w)]);
    Saves(cfg, s1, w);
    var save := Advance(w, Saved, s1.made);
    var s2 := After(cfg, s1, [save]);
    var rest := FailsAndReleases(cfg, s2, w, 2);
    HappensAppend(cfg, s1, [save], rest);
    HappensAppend(cfg, s, [Acquire(w)], [save] + rest);
    actions := [Acquire(w)] + ([save] + rest);
  }

  /** Deliveries `1` to `k` wait with the same snapshot. */
  ghost predicate Waiting(s: World, r: Run, k: nat) {
    forall w :: 1 <= w <= k ==> w in s.workers && s.workers[w] == Taking(r)
  }

  lemma {:induction false} AllRestart(cfg: Config, s: World, r: Run, k: nat) returns (actions: seq<Action>)
    requires FailedOnce(r) && Waiting(s, r, k)
    requires s.lease.None? && s.stored.Some? && s.stored.value.status == FailedRetryable
    ensures Happens(cfg, s, actions) && After(cfg, s, actions).departures == s.departures + k
    decreases k
  {
    if k == 0 {
      actions := [];
    } else {
      hide Happens, After, FailedOnce;
      var first := OneMore(cfg, s, k, r);
      var rest := AllRestart(cfg, After(cfg, s, first), r, k - 1);
      HappensAppend(cfg, s, first, rest);
      actions := first + rest;
    }
  }

  lemma {:induction false} AllRead(cfg: Config, s: World, k: nat) returns (actions: seq<Action>)
    requires s.stored.Some? && s.lease.None? && s.workers.Keys <= {0}
    ensures Happens(cfg, s, actions)
    ensures var after := After(cfg, s, actions);
            && after.stored == s.stored && after.lease.None? && after.departures == s.departures
            && Waiting(after, s.stored.value, k) && (forall w :: w in after.workers ==> w <= k)
    decreases k
  {
    if k == 0 {
      actions := [];
    } else {
      var first := AllRead(cfg, s, k - 1);
      var s1 := After(cfg, s, first);
      hide Step, Granted, Happens, After;
      OneAction(cfg, s1, Reserve(k, None));
      HappensAppend(cfg, s, first, [Reserve(k, None)]);
      actions := first + [Reserve(k, None)];
    }
  }

  lemma FirstDelivery(cfg: Config, key: string, repository: Option<Repository>)
    ensures var granted := Granted(cfg, Worker(InExecute, Reserved(true), NewRun(key, repository), None, false, None));
            CaptureFails(cfg, granted, 1)
  {
    NewRunOk(cfg, key, repository);
    Started(NewRun(key, repository), Capturing);
    var granted := Granted(cfg, Worker(InExecute, Reserved(true), NewRun(key, repository), None, false, None));
    hide Step, CaptureFails;
    CaptureCanFail(cfg, granted);
  }

  /** The first delivery fails in its first attempt. */
  lemma FailsOnce(cfg: Config, key: string, repository: Option<Repository>) returns (actions: seq<Action>)
    ensures Happens(cfg, Start(key), actions)
    ensures var s := After(cfg, Start(key), actions);
            && s.stored.Some? && FailedOnce(s.stored.value) && s.lease.None? && s.workers.Keys <= {0}
            && s.departures == 0
  {
    FirstDelivery(cfg, key, repository);
    assert NewRun(key, repository).status == Received;
    hide Step, Granted, NewRun, CaptureFails, EventsOk, FailedDuringDispatch;
    var reserve := Reserve(0, repository);
    OneAction(cfg, Start(key), reserve);
    var s1 := Perform(cfg, Start(key), reserve);
    Granting(cfg, s1, 0);
    var s2 := After(cfg, s1, [Acquire(0)]);
    hide Happens, After, Perform, Enabled;
    var rest := FailsAndReleases(cfg, s2, 0, 1);
    HappensAppend(cfg, s1, [Acquire(0)], rest);
    HappensAppend(cfg, Start(key), [reserve], [Acquire(0)] + rest);
    actions := [reserve] + ([Acquire(0)] + rest);
  }

  /** For every number there is a history with that many departures from FAILED_RETRYABLE: MAX_RUN_ATTEMPTS does not
      bound the retries once deliveries wait with a snapshot that has been overtaken. */
  lemma RetriesAreUnbounded(cfg: Config, key: string, repository: Option<Repository>, k: nat)
    returns (actions: seq<Action>)
    ensures Happens(cfg, Start(key), actions) && After(cfg, Start(key), actions).departures == k
  {
    hide Happens, After, FailedOnce;
    var first := FailsOnce(cfg, key, repository);
    var s1 := After(cfg, Start(key), first);
    var waiting := AllRead(cfg, s1, k);
    var s2 := After(cfg, s1, waiting);
    IsFailed(s1.stored.value);
    var rest := AllRestart(cfg, s2, s1.stored.value, k);
    HappensAppend(cfg, s1, waiting, rest);
    HappensAppend(cfg, Start(key), first, waiting + rest);
    actions := first + (waiting + rest);
  }

  lemma IsFailed(r: Run)
    requires FailedOnce(r)
    ensures r.status == FailedRetryable
  {
  }
}
