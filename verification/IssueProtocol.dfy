/** Publication of one finding as an issue, by any number of workers: claim, search for the marker, POST, reconcile
    an ambiguous write, complete or release the intent. */
module IssueProtocol {
  import opened Wrappers
  import opened IssueIntents

  const ISSUE_INTENT_LEASE_SECONDS := 300
  const ISSUE_INTENT_WAIT_SECONDS := 30
  const ISSUE_RECONCILIATIONS := 3

  datatype Error = Uncertain | Refused

  datatype Pc =
    | Claiming(deadline: int) | Tokening | Searching | Posting | Awaiting | Reconciling(attempt: nat)
    | Completing(receipt: Receipt) | Releasing
    | Returned(result: Receipt) | Raised(error: Error) | Crashed

  /** `sent`: its POST is on the wire. `landed`: the issue its POST created. */
  datatype Worker = Worker(pc: Pc, expiry: int, sent: bool, landed: Option<nat>)

  datatype World = World(clock: int, intent: Option<Intent>, issues: set<nat>, workers: map<nat, Worker>)
  {
    function Set(w: nat, worker: Worker): World {
      this.(workers := workers[w := worker])
    }

    function Move(w: nat, pc: Pc): World
      requires w in workers
    {
      Set(w, workers[w].(pc := pc))
    }
  }

  const START := World(0, None, {}, map[])

  datatype Action =
    | Arrive(worker: nat)
    | Claim(worker: nat, reached: bool)
    | Token(worker: nat, ok: bool)
    | Search(worker: nat, ok: bool, found: Option<nat>)
    | Send(worker: nat)
    | Land(worker: nat, number: nat)
    | Confirm(worker: nat)
    | LoseReply(worker: nat)
    | Refuse(worker: nat)
    | Reconcile(worker: nat, ok: bool, found: Option<nat>)
    | Complete(worker: nat, reached: bool)
    | Release(worker: nat, reached: bool)
    | Crash(worker: nat)
    | Tick(seconds: nat)

  /** A marker search reads the current issues. */
  predicate SearchFits(s: World, found: Option<nat>) {
    match found
    case None => s.issues == {}
    case Some(n) => n in s.issues
  }

  /** A POST takes effect at most once, and only while its worker's claim has not expired. */
  predicate Enabled(s: World, a: Action) {
    match a
    case Arrive(w) => w !in s.workers
    case Tick(_) => true
    case Claim(w, _) => w in s.workers && s.workers[w].pc.Claiming?
    case Token(w, _) => w in s.workers && s.workers[w].pc.Tokening?
    case Search(w, ok, found) => w in s.workers && s.workers[w].pc.Searching? && (ok ==> SearchFits(s, found))
    case Send(w) => w in s.workers && s.workers[w].pc.Posting?
    case Land(w, n) => w in s.workers && s.workers[w].sent && s.clock < s.workers[w].expiry && n !in s.issues
    case Confirm(w) => w in s.workers && s.workers[w].pc.Awaiting? && s.workers[w].landed.Some?
    case LoseReply(w) => w in s.workers && s.workers[w].pc.Awaiting?
    case Refuse(w) => w in s.workers && s.workers[w].pc.Awaiting? && s.workers[w].landed.None?
    case Reconcile(w, ok, found) =>
      w in s.workers && s.workers[w].pc.Reconciling? && (ok ==> SearchFits(s, found))
    case Complete(w, _) => w in s.workers && s.workers[w].pc.Completing?
    case Release(w, _) => w in s.workers && s.workers[w].pc.Releasing?
    case Crash(w) => w in s.workers && !s.workers[w].pc.Returned? && !s.workers[w].pc.Raised?
  }

  function Perform(s: World, a: Action): World
    requires Enabled(s, a)
  {
    match a
    case Arrive(w) => s.Set(w, Worker(Claiming(s.clock + ISSUE_INTENT_WAIT_SECONDS), 0, false, None))
    case Tick(seconds) => s.(clock := s.clock + seconds)
    case Claim(w, reached) => if reached then ClaimOnce(s, w) else s.Move(w, Raised(Uncertain))
    case Token(w, ok) => s.Move(w, if ok then Searching else Releasing)
    case Search(w, ok, found) =>
      if !ok then s.Move(w, Raised(Uncertain))
      else if found.Some? then s.Move(w, Completing(Receipt(found.value, true)))
      else s.Move(w, Posting)
    case Send(w) => s.Set(w, s.workers[w].(pc := Awaiting, sent := true))
    case Land(w, n) => s.(issues := s.issues + {n}).Set(w, s.workers[w].(sent := false, landed := Some(n)))
    case Confirm(w) => s.Move(w, Completing(Receipt(s.workers[w].landed.value, false)))
    case LoseReply(w) => s.Move(w, Reconciling(0))
    case Refuse(w) => s.Set(w, s.workers[w].(pc := Releasing, sent := false))
    case Reconcile(w, ok, found) =>
      if ok && found.Some? then s.Move(w, Completing(Receipt(found.value, true)))
      else if s.workers[w].pc.attempt + 1 < ISSUE_RECONCILIATIONS then
        s.Move(w, Reconciling(s.workers[w].pc.attempt + 1))
      else s.Move(w, Raised(Uncertain))
    case Complete(w, reached) =>
      var completed := CompleteIntent(s.intent, w, s.workers[w].pc.receipt);
      if !reached then s.Move(w, Raised(Uncertain))
      else
        s.(intent := completed.0).Move(
          w, match completed.1 case Durable(r) => Returned(r) case OwnershipChanged => Raised(Uncertain))
    case Release(w, reached) =>
      s.(intent := if reached then ReleaseIntent(s.intent, w) else s.intent).Move(w, Raised(Refused))
    case Crash(w) => s.Move(w, Crashed)
  }

  /** One turn of `_wait_for_issue_intent`. */
  function ClaimOnce(s: World, w: nat): World
    requires w in s.workers && s.workers[w].pc.Claiming?
  {
    var claimed := ClaimIntent(s.intent, w, s.clock, ISSUE_INTENT_LEASE_SECONDS);
    if claimed.1.acquired then
      s.(intent := claimed.0).Set(
        w, s.workers[w].(pc := Tokening, expiry := s.clock + ISSUE_INTENT_LEASE_SECONDS))
    else if claimed.1.receipt.Some? then s.Move(w, Returned(claimed.1.receipt.value))
    else if s.clock >= s.workers[w].pc.deadline then s.Move(w, Raised(Uncertain))
    else s
  }

  // ----- The invariant.

  /** A worker whose POST may still take effect. */
  predicate MayLand(s: World, w: nat)
    requires w in s.workers
  {
    s.clock < s.workers[w].expiry && (s.workers[w].pc.Posting? || s.workers[w].sent)
  }

  /** A worker that has claimed and neither released, completed nor waits any more. */
  predicate Claimed(worker: Worker) {
    worker.pc.Tokening? || worker.pc.Searching? || worker.pc.Posting? || worker.sent
  }

  /** While a claim lasts, the intent is its worker's or already complete. */
  predicate ClaimHolds(s: World, w: nat)
    requires w in s.workers
  {
    Claimed(s.workers[w]) && s.clock < s.workers[w].expiry ==>
      s.intent == Some(Intent(Some(w), s.workers[w].expiry, None)) || (s.intent.Some? && s.intent.value.receipt.Some?)
  }

  /** While a POST may still take effect, there is no issue and the intent is its worker's. */
  predicate PostsAlone(s: World, w: nat)
    requires w in s.workers
  {
    MayLand(s, w) ==> s.issues == {} && s.intent == Some(Intent(Some(w), s.workers[w].expiry, None))
  }

  /** Every receipt names an issue that exists. */
  predicate ReceiptTrue(s: World, w: nat)
    requires w in s.workers
  {
    && (s.workers[w].pc.Completing? ==> s.workers[w].pc.receipt.number in s.issues)
    && (s.workers[w].pc.Returned? ==> s.workers[w].pc.result.number in s.issues)
    && (s.workers[w].landed.Some? ==> s.workers[w].landed.value in s.issues)
  }

  /** Nothing is on the wire before the POST or after a definite refusal. */
  predicate NothingSent(s: World, w: nat)
    requires w in s.workers
  {
    var pc := s.workers[w].pc;
    pc.Claiming? || pc.Tokening? || pc.Searching? || pc.Posting? || pc.Releasing? || pc == Raised(Refused) ==>
      !s.workers[w].sent && s.workers[w].landed.None?
  }

  predicate WorkerOk(s: World, w: nat)
    requires w in s.workers
  {
    ClaimHolds(s, w) && PostsAlone(s, w) && ReceiptTrue(s, w) && NothingSent(s, w)
  }

  ghost predicate Inv(s: World) {
    && |s.issues| <= 1
    && (s.intent.Some? && s.intent.value.receipt.Some? ==> s.intent.value.receipt.value.number in s.issues)
    && forall w :: w in s.workers ==> WorkerOk(s, w)
  }

  lemma ClaimKeeps(s: World, w: nat)
    requires Inv(s) && Enabled(s, Claim(w, true))
    ensures Inv(ClaimOnce(s, w))
  {
    var s' := ClaimOnce(s, w);
    forall v | v in s'.workers ensures WorkerOk(s', v) {
      assert WorkerOk(s, v);
    }
  }

  lemma SearchKeeps(s: World, a: Action)
    requires Inv(s) && Enabled(s, a) && (a.Search? || a.Reconcile?)
    ensures Inv(Perform(s, a))
  {
    var s' := Perform(s, a);
    forall v | v in s'.workers ensures WorkerOk(s', v) {
      assert WorkerOk(s, v);
    }
  }

  lemma LandKeeps(s: World, a: Action)
    requires Inv(s) && Enabled(s, a) && a.Land?
    ensures Inv(Perform(s, a))
  {
    assert WorkerOk(s, a.worker) && MayLand(s, a.worker);
    var s' := Perform(s, a);
    forall v | v in s'.workers ensures WorkerOk(s', v) {
      assert WorkerOk(s, v);
    }
  }

  lemma CompleteKeeps(s: World, a: Action)
    requires Inv(s) && Enabled(s, a) && a.Complete?
    ensures Inv(Perform(s, a))
  {
    assert WorkerOk(s, a.worker);
    var s' := Perform(s, a);
    forall v | v in s'.workers ensures WorkerOk(s', v) {
      assert WorkerOk(s, v);
    }
  }

  lemma ReleaseKeeps(s: World, a: Action)
    requires Inv(s) && Enabled(s, a) && a.Release?
    ensures Inv(Perform(s, a))
  {
    assert WorkerOk(s, a.worker);
    var s' := Perform(s, a);
    forall v | v in s'.workers ensures WorkerOk(s', v) {
      assert WorkerOk(s, v);
    }
  }

  predicate OnlyMoves(a: Action) {
    a.Token? || a.Send? || a.Confirm? || a.LoseReply? || a.Refuse? || a.Crash?
  }

  lemma MoveKeeps(s: World, a: Action)
    requires Inv(s) && Enabled(s, a) && OnlyMoves(a)
    ensures Inv(Perform(s, a))
  {
    var s' := Perform(s, a);
    forall v | v in s'.workers ensures WorkerOk(s', v) {
      assert WorkerOk(s, v);
    }
  }

  lemma EnvironmentKeeps(s: World, a: Action)
    requires Inv(s) && Enabled(s, a) && (a.Arrive? || a.Tick?)
    ensures Inv(Perform(s, a))
  {
    var s' := Perform(s, a);
    forall v | v in s'.workers ensures WorkerOk(s', v) {
      assert v in s.workers ==> WorkerOk(s, v);
    }
  }

  lemma ActionKeeps(s: World, a: Action)
    requires Inv(s) && Enabled(s, a)
    ensures Inv(Perform(s, a))
  {
    match a
    case Claim(w, reached) =>
      if reached {
        ClaimKeeps(s, w);
      } else {
        GivesUpKeeps(s, w);
      }
    case Search(_, _, _) => SearchKeeps(s, a);
    case Reconcile(_, _, _) => SearchKeeps(s, a);
    case Land(_, _) => LandKeeps(s, a);
    case Complete(_, _) => CompleteKeeps(s, a);
    case Release(_, _) => ReleaseKeeps(s, a);
    case Arrive(_) => EnvironmentKeeps(s, a);
    case Tick(_) => EnvironmentKeeps(s, a);
    case _ => MoveKeeps(s, a);
  }

  lemma GivesUpKeeps(s: World, w: nat)
    requires Inv(s) && Enabled(s, Claim(w, false))
    ensures Inv(Perform(s, Claim(w, false)))
  {
    var s' := Perform(s, Claim(w, false));
    forall v | v in s'.workers ensures WorkerOk(s', v) {
      assert WorkerOk(s, v);
    }
  }

  // ----- Whole histories.

  predicate Happens(s: World, actions: seq<Action>)
    decreases actions
  {
    actions == [] || (Enabled(s, actions[0]) && Happens(Perform(s, actions[0]), actions[1..]))
  }

  function After(s: World, actions: seq<Action>): World
    requires Happens(s, actions)
    decreases actions
  {
    if actions == [] then s else After(Perform(s, actions[0]), actions[1..])
  }

  lemma {:induction false} HistoryKeeps(s: World, actions: seq<Action>)
    requires Inv(s) && Happens(s, actions)
    ensures Inv(After(s, actions))
    decreases actions
  {
    if actions != [] {
      ActionKeeps(s, actions[0]);
      HistoryKeeps(Perform(s, actions[0]), actions[1..]);
    }
  }

  /** For any number of workers, ambiguous POSTs, crashes and expired claims: at most one issue ever carries the
      marker, and every publication that returns, returns that issue. */
  lemma OneIssuePerFinding(actions: seq<Action>)
    requires Happens(START, actions)
    ensures var s := After(START, actions);
            && |s.issues| <= 1
            && (forall w :: w in s.workers && s.workers[w].pc.Returned? ==> s.issues == {s.workers[w].pc.result.number})
            && (s.intent.Some? && s.intent.value.receipt.Some? ==> s.issues == {s.intent.value.receipt.value.number})
  {
    HistoryKeeps(START, actions);
    var s := After(START, actions);
    assert forall n :: n in s.issues ==> s.issues == {n} by {
      forall n | n in s.issues ensures s.issues == {n} {
        assert |s.issues - {n}| == 0;
      }
    }
    forall w | w in s.workers && s.workers[w].pc.Returned? ensures s.issues == {s.workers[w].pc.result.number} {
      assert WorkerOk(s, w);
    }
  }

  /** A publication that is refused outright created nothing and never will. */
  lemma RefusedCreatesNothing(actions: seq<Action>, w: nat)
    requires Happens(START, actions) && w in After(START, actions).workers
    requires After(START, actions).workers[w].pc == Raised(Refused)
    ensures var worker := After(START, actions).workers[w]; worker.landed.None? && !worker.sent
  {
    HistoryKeeps(START, actions);
    assert WorkerOk(After(START, actions), w);
  }

  /** The durable receipt is written once, and issues never disappear. */
  predicate Grows(s: World, s': World) {
    && s.issues <= s'.issues
    && (s.intent.Some? && s.intent.value.receipt.Some? ==> s'.intent == s.intent)
    && s.workers.Keys <= s'.workers.Keys
    && forall w :: w in s.workers && s.workers[w].pc.Returned? ==>
         s'.workers[w].pc == s.workers[w].pc
  }

  lemma {:induction false} HistoryGrows(s: World, actions: seq<Action>)
    requires Happens(s, actions)
    ensures Grows(s, After(s, actions))
    decreases actions
  {
    if actions != [] {
      ActionGrows(s, actions[0]);
      HistoryGrows(Perform(s, actions[0]), actions[1..]);
    }
  }

  lemma ActionGrows(s: World, a: Action)
    requires Enabled(s, a)
    ensures Grows(s, Perform(s, a))
  {
  }
}
