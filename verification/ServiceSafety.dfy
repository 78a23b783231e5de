/** What every history of workers keeps, as long as each lease is granted over a current snapshot. */
module ServiceSafety {
  import opened Wrappers
  import opened Actions
  import opened AuditRuns
  import opened Candidates
  import opened Verification
  import opened Service
  import opened ServiceInvariants
  import opened ServiceSteps
  import opened ServiceProofs
  import opened ServiceProtocol

  lemma StartInv(cfg: Config, key: string)
    ensures Inv(cfg, Start(key))
  {
  }

  // ----- Publication order and recovery.

  /** An issue is created only for a persisted plan whose pull request is blocked, and a draft PR only for a
      persisted plan whose candidate is proven. */
  lemma PublicationFollowsThePlan(cfg: Config, s: World, a: Action)
    requires Inv(cfg, s) && Enabled(s, a)
    ensures var after := Perform(cfg, s, a);
            && (after.made.issues != s.made.issues ==>
                  s.stored.Some? && Plan(s.stored.value, Blocked, Planned) && s.made.Empty())
            && (after.made.prs != s.made.prs ==>
                  && s.stored.Some? && Plan(s.stored.value, Ready, Skipped) && s.made.Empty()
                  && Evidenced(s.stored.value.verification, s.stored.value.candidate))
  {
    hide RunOk, ProofOk, Committed, Step, Granted, Evidenced;
    if Perform(cfg, s, a).made != s.made {
      assert a.Advance? || a.Crash?;
      CreationFollowsThePlan(cfg, s, s.workers[a.worker], a.made);
    }
  }

  lemma CreationFollowsThePlan(cfg: Config, s: World, w: Worker, made: Artifacts)
    requires s.stored.Some? && RunOk(cfg, s.stored.value) && ProofOk(s.stored.value)
    requires Committed(cfg, s.stored.value, s.made) && ActiveOk(cfg, w, s.stored.value, s.made)
    requires w.pc.Calling? && w.pc.call.Publish? && Created(w.run, w.pc.call.kind, s.made, made) && made != s.made
    ensures s.made.Empty()
    ensures if w.pc.call.kind == PullRequest then
              && made.issues == s.made.issues && Plan(s.stored.value, Ready, Skipped)
              && Evidenced(s.stored.value.verification, s.stored.value.candidate)
            else made.prs == s.made.prs && Plan(s.stored.value, Blocked, Planned)
  {
    hide ProofOk, Evidenced, EventsOk, VerdictOk, StatusOk, ProvesCandidate;
    ReadyEvidence(s.stored.value);
  }

  lemma ReadyEvidence(r: Run)
    requires ProofOk(r)
    ensures ProvesCandidate(r.verification) ==> Evidenced(r.verification, r.candidate)
  {
    hide FromVerifiedCandidate, Evidenced, ProvesCandidate, Storable;
  }

  function Slot(kind: ActionKind): nat {
    if kind == PullRequest then 0 else 1
  }

  /** A confirmed publication is recorded with its own URL, nothing else of the plan changes, and it is saved next. */
  lemma ReceiptIsRecorded(cfg: Config, s: World, w: nat, kind: ActionKind, url: string, made: Artifacts)
    requires Inv(cfg, s) && Enabled(s, Advance(w, PublishConfirmed(url), made))
    requires s.workers[w].pc == Calling(Publish(kind))
    ensures var before := s.workers[w].run;
            var worker := Perform(cfg, s, Advance(w, PublishConfirmed(url), made)).workers[w];
            && worker.pc == Saving(ActionOpened(kind))
            && |before.actions| == 3 == |worker.run.actions|
            && worker.run.actions[Slot(kind)] == before.actions[Slot(kind)].(state := Opened, url := Some(url))
            && forall i :: 0 <= i < 3 && i != Slot(kind) ==> worker.run.actions[i] == before.actions[i]
  {
    AtAnyPublisher(cfg, s, w, kind);
    ReceiptMarked(cfg, s.workers[w], kind, url);
    hide Step, Granted, Inv, Enabled;
  }

  lemma AtAnyPublisher(cfg: Config, s: World, w: nat, kind: ActionKind)
    requires Inv(cfg, s) && w in s.workers && s.Holds(w) && s.workers[w].pc == Calling(Publish(kind))
    ensures Dispatching(cfg, s.workers[w].run, kind) && EventsOk(s.workers[w].run)
  {
    hide Committed, ProofOk;
  }

  lemma ReceiptMarked(cfg: Config, w: Worker, kind: ActionKind, url: string)
    requires w.pc == Calling(Publish(kind)) && Dispatching(cfg, w.run, kind) && EventsOk(w.run)
    ensures var after := Step(cfg, w, PublishConfirmed(url));
            && after.pc == Saving(ActionOpened(kind)) && |after.run.actions| == 3
            && after.run.actions[Slot(kind)] == w.run.actions[Slot(kind)].(state := Opened, url := Some(url))
            && forall i :: 0 <= i < 3 && i != Slot(kind) ==> after.run.actions[i] == w.run.actions[i]
  {
    hide Step, End;
    ConfirmedStep(cfg, w, kind, url);
    MarkedEnds(w, kind, url);
  }

  lemma ConfirmedStep(cfg: Config, w: Worker, kind: ActionKind, url: string)
    requires w.pc == Calling(Publish(kind)) && |w.run.actions| == 3
    ensures Step(cfg, w, PublishConfirmed(url))
            == End(w.(run := MarkOpened(w.run, kind, url)), Saving(ActionOpened(kind)))
  {
    hide End, MarkOpened;
  }

  lemma MarkedEnds(w: Worker, kind: ActionKind, url: string)
    requires EventsOk(w.run) && w.run.IsRunning() && |w.run.actions| == 3
    ensures var marked := MarkOpened(w.run, kind, url);
            var ended := End(w.(run := marked), Saving(ActionOpened(kind)));
            ended.pc == Saving(ActionOpened(kind)) && ended.run.actions == marked.actions
  {
    Finished(MarkOpened(w.run, kind, url));
  }

  /** Dispatching a committed plan again neither changes it nor falls back. */
  lemma DispatchKeepsPlan(cfg: Config, w: Worker, made: Artifacts)
    requires RunOk(cfg, w.run) && w.run.status == RoutingAction && Committed(cfg, w.run, made) && !made.Empty()
    ensures var d := Dispatch(cfg, w);
            && d.run.actions == w.run.actions && d.pc != Saving(ResumeRestart) && d.pc != Saving(Routed)
            && !d.pc.Releasing?
  {
    if w.run.LastIs(RoutingAction, Succeeded) {
      Started(w.run, Complete);
      Finished(StartStage(w.run, Complete).value);
    } else {
      Finished(w.run);
    }
  }

  /** Once something exists, a retry resumes the recorded plan: it neither restarts the audit nor re-plans. */
  lemma UncertainIsResumed(cfg: Config, s: World, w: nat)
    requires Inv(cfg, s) && Enabled(s, Acquire(w)) && !s.Busy(w) && CurrentGrant(s, Acquire(w))
    requires !s.made.Empty()
    ensures var worker := Perform(cfg, s, Acquire(w)).workers[w];
            && worker.pc != Saving(ResumeRestart) && worker.pc != Saving(Routed) && !worker.pc.Releasing?
            && worker.run.actions == s.stored.value.actions
  {
    hide Granted, RunOk, ProofOk, Committed, Step;
    WorkerResumes(cfg, s.workers[w], s.made);
  }

  lemma WorkerResumes(cfg: Config, w: Worker, made: Artifacts)
    requires w.pc.Reserved? && RunOk(cfg, w.run) && Committed(cfg, w.run, made) && !made.Empty()
    requires w.run.status !in {Complete, FailedSafe} && (w.pc.created ==> w.run.status == Received)
    ensures var granted := Granted(cfg, w);
            && granted.pc != Saving(ResumeRestart) && granted.pc != Saving(Routed) && !granted.pc.Releasing?
            && granted.run.actions == w.run.actions
  {
    assert InDispatch(w.run);
    if w.run.status == RoutingAction {
      DispatchKeepsPlan(cfg, w.(mode := Direct), made);
      hide Dispatch;
    }
  }
}
