/** Many `create_run` workers over one shared store: reservations, execution leases, crashes and retries of one
    idempotency key, and what every history of them keeps. */
module ServiceProtocol {
  import opened Wrappers
  import opened Actions
  import opened AuditRuns
  import opened Candidates
  import opened Verification
  import opened Service
  import opened ServiceInvariants
  import opened ServiceSteps
  import opened ServiceProofs

  const RUN_LEASE_SECONDS := 1200

  datatype Lease = Lease(owner: nat, expiry: nat)

  datatype World = World(
    key: string, clock: nat, stored: Option<Run>, lease: Option<Lease>, workers: map<nat, Worker>,
    made: Artifacts, departures: nat)
  {
    /** Worker `w` may still save and publish. */
    predicate Holds(w: nat) {
      lease.Some? && lease.value.owner == w && clock < lease.value.expiry
    }

    predicate Busy(w: nat) {
      lease.Some? && lease.value.owner != w && clock < lease.value.expiry
    }

    function Set(w: nat, worker: Worker): World {
      this.(workers := workers[w := worker])
    }
  }

  function Start(key: string): World {
    World(key, 0, None, None, map[], Artifacts({}, {}), 0)
  }

  /** One thing that happens. `made` is what exists on the remote afterwards. */
  datatype Action =
    | Reserve(worker: nat, repository: Option<Repository>)
    | Acquire(worker: nat)
    | Advance(worker: nat, reply: Reply, made: Artifacts)
    | Release(worker: nat, reached: bool)
    | Crash(worker: nat, made: Artifacts)
    | Tick(seconds: nat)

  /** A worker dies with a publication in flight, which may or may not have taken effect. */
  predicate LostEffect(s: World, w: nat, made: Artifacts)
    requires w in s.workers
  {
    || made == s.made
    || (&& s.Holds(w) && s.workers[w].pc.Calling? && s.workers[w].pc.call.Publish?
        && Created(s.workers[w].run, s.workers[w].pc.call.kind, s.made, made))
  }

  predicate RemoteEffect(s: World, worker: Worker, reply: Reply, made: Artifacts) {
    if worker.pc.Calling? && worker.pc.call.Publish? then
      PublishEffect(worker.run, worker.pc.call.kind, reply, s.made, made)
    else made == s.made
  }

  predicate Enabled(s: World, a: Action) {
    match a
    case Reserve(w, _) => w !in s.workers
    case Acquire(w) =>
      w in s.workers && s.workers[w].pc.Reserved? && s.workers[w].run.status !in {Complete, FailedSafe}
    case Advance(w, reply, made) =>
      w in s.workers && s.Holds(w) && Fits(s.workers[w].pc, reply) && RemoteEffect(s, s.workers[w], reply, made)
    case Release(w, _) => w in s.workers && s.workers[w].pc.Releasing?
    case Crash(w, made) => w in s.workers && LostEffect(s, w, made)
    case Tick(_) => true
  }

  /** `store.save`: the lease is not looked at. */
  function Persist(s: World, r: Run): World {
    s.(stored := Some(r),
       departures := s.departures +
         if s.stored.Some? && s.stored.value.status == FailedRetryable && r.status != FailedRetryable then 1 else 0)
  }

  ghost function Perform(cfg: Config, s: World, a: Action): World
    requires Enabled(s, a)
  {
    match a
    case Reserve(w, repository) =>
      var created := s.stored.None?;
      var r := if created then NewRun(s.key, repository) else s.stored.value;
      s.(stored := Some(r)).Set(w, Worker(InExecute, Reserved(created), r, None, false, None))
    case Acquire(w) =>
      if s.Busy(w) then s.Set(w, s.workers[w].(pc := Done))
      else s.(lease := Some(Lease(w, s.clock + RUN_LEASE_SECONDS))).Set(w, Granted(cfg, s.workers[w]))
    case Advance(w, reply, made) =>
      var moved := s.(made := made).Set(w, Step(cfg, s.workers[w], reply));
      if s.workers[w].pc.Saving? && reply.Saved? then Persist(moved, s.workers[w].run) else moved
    case Release(w, reached) =>
      var owns := s.lease.Some? && s.lease.value.owner == w;
      s.(lease := if reached && owns then None else s.lease).Set(w, s.workers[w].(pc := Done))
    case Crash(w, made) => s.(made := made).Set(w, s.workers[w].(pc := Done))
    case Tick(seconds) => s.(clock := s.clock + seconds)
  }

  /** A lease is granted over a current snapshot: the run the worker read is still the stored one. */
  predicate CurrentGrant(s: World, a: Action)
    requires Enabled(s, a)
  {
    a.Acquire? && !s.Busy(a.worker) ==> s.stored == Some(s.workers[a.worker].run)
  }

  ghost predicate Happens(cfg: Config, s: World, actions: seq<Action>)
    decreases actions
  {
    actions == [] || (Enabled(s, actions[0]) && Happens(cfg, Perform(cfg, s, actions[0]), actions[1..]))
  }

  ghost function After(cfg: Config, s: World, actions: seq<Action>): World
    requires Happens(cfg, s, actions)
    decreases actions
  {
    if actions == [] then s else After(cfg, Perform(cfg, s, actions[0]), actions[1..])
  }

  /** Every grant along the way is current. */
  ghost predicate GrantsCurrent(cfg: Config, s: World, actions: seq<Action>)
    requires Happens(cfg, s, actions)
    decreases actions
  {
    actions == []
    || (CurrentGrant(s, actions[0]) && GrantsCurrent(cfg, Perform(cfg, s, actions[0]), actions[1..]))
  }

  // ----- The invariant.

  ghost predicate StoredOk(cfg: Config, s: World) {
    match s.stored
    case None => s.workers == map[] && s.lease.None? && s.made.Empty()
    case Some(r) => RunOk(cfg, r) && ProofOk(r) && Committed(cfg, r, s.made) && r.key == s.key
  }

  /** Of a worker that has not been granted the lease yet: it holds a run that was stored once. */
  ghost predicate WaitingOk(cfg: Config, w: Worker) {
    w.pc.Reserved? ==> !w.invalid && RunOk(cfg, w.run) && (w.pc.created ==> w.run.status == Received)
  }

  ghost predicate WorkersOk(cfg: Config, s: World) {
    forall w :: w in s.workers ==>
      && WaitingOk(cfg, s.workers[w]) && ProofOk(s.workers[w].run)
      && s.workers[w].run.key == s.key
      && s.stored.Some? && s.workers[w].run.repository == s.stored.value.repository
  }

  ghost predicate HolderOk(cfg: Config, s: World) {
    s.lease.Some? && s.Holds(s.lease.value.owner) && s.lease.value.owner in s.workers && s.stored.Some? ==>
      ActiveOk(cfg, s.workers[s.lease.value.owner], s.stored.value, s.made)
  }

  ghost predicate Inv(cfg: Config, s: World) {
    StoredOk(cfg, s) && WorkersOk(cfg, s) && HolderOk(cfg, s)
  }

  lemma NewRunOk(cfg: Config, key: string, repository: Option<Repository>)
    ensures RunOk(cfg, NewRun(key, repository)) && Attempts(NewRun(key, repository).events) == 1
  {
    var r := NewRun(key, repository);
    assert r.events[..0] == [];
  }

  lemma ReserveKeeps(cfg: Config, s: World, a: Action)
    requires Inv(cfg, s) && Enabled(s, a) && a.Reserve?
    ensures Inv(cfg, Perform(cfg, s, a))
  {
    NewRunOk(cfg, s.key, a.repository);
  }

  lemma AcquireKeeps(cfg: Config, s: World, a: Action)
    requires Inv(cfg, s) && Enabled(s, a) && a.Acquire? && CurrentGrant(s, a)
    ensures Inv(cfg, Perform(cfg, s, a))
  {
    var w := s.workers[a.worker];
    if !s.Busy(a.worker) {
      GrantKeeps(cfg, w, s.stored.value, s.made);
      GrantProof(cfg, w);
    }
  }

  lemma AdvanceStored(cfg: Config, s: World, a: Action)
    requires Inv(cfg, s) && Enabled(s, a) && a.Advance?
    ensures StoredOk(cfg, Perform(cfg, s, a)) && HolderOk(cfg, Perform(cfg, s, a))
  {
    var w := s.workers[a.worker];
    var stored := s.stored.value;
    var stored' := if w.pc.Saving? && a.reply.Saved? then w.run else stored;
    HolderEffects(cfg, w, a.reply, stored, stored', s, a.made);
    StepKeeps(cfg, w, a.reply, stored, stored', s.made, a.made);
  }

  /** A publisher works on the stored run itself, so its effects are those of the stored plan. */
  lemma HolderEffects(cfg: Config, w: Worker, reply: Reply, stored: Run, stored': Run, s: World, made: Artifacts)
    requires ActiveOk(cfg, w, stored, s.made) && RemoteEffect(s, w, reply, made) && Fits(w.pc, reply)
    requires stored' == if w.pc.Saving? && reply.Saved? then w.run else stored
    ensures Effects(w, reply, stored, stored', s.made, made)
  {
  }

  lemma AdvanceWorkers(cfg: Config, s: World, a: Action)
    requires WorkersOk(cfg, s) && Enabled(s, a) && a.Advance?
    requires var pc := s.workers[a.worker].pc; pc.Calling? && pc.call.Verify? ==> Approved(pc.call.artifact)
    ensures WorkersOk(cfg, Perform(cfg, s, a))
  {
    var w := s.workers[a.worker];
    hide Step, RunOk, ProofOk, Fits;
    StepProof(cfg, w, a.reply);
  }

  lemma CrashKeeps(cfg: Config, s: World, a: Action)
    requires Inv(cfg, s) && Enabled(s, a) && a.Crash?
    ensures Inv(cfg, Perform(cfg, s, a))
  {
    hide Step, RunOk, ProofOk, Granted, Committed;
    var w := s.workers[a.worker];
    if a.made != s.made {
      EffectCommitted(cfg, s.stored.value, w.pc.call.kind, s.made, a.made);
    }
  }

  lemma ActionKeeps(cfg: Config, s: World, a: Action)
    requires Inv(cfg, s) && Enabled(s, a) && CurrentGrant(s, a)
    ensures Inv(cfg, Perform(cfg, s, a))
  {
    match a
    case Reserve(_, _) => ReserveKeeps(cfg, s, a);
    case Acquire(_) => AcquireKeeps(cfg, s, a);
    case Advance(_, _, _) =>
      AdvanceStored(cfg, s, a);
      AdvanceWorkers(cfg, s, a);
    case Crash(_, _) => CrashKeeps(cfg, s, a);
    case _ =>
  }

  lemma {:induction false} HistoryKeeps(cfg: Config, s: World, actions: seq<Action>)
    requires Inv(cfg, s) && Happens(cfg, s, actions) && GrantsCurrent(cfg, s, actions)
    ensures Inv(cfg, After(cfg, s, actions))
    decreases actions
  {
    if actions != [] {
      ActionKeeps(cfg, s, actions[0]);
      HistoryKeeps(cfg, Perform(cfg, s, actions[0]), actions[1..]);
    }
  }
}
