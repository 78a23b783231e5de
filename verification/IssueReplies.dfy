/** What one publication of an issue may conclude from its own history: how long it waits for another worker's claim,
    how often it looks for an issue whose POST was never answered, when it gives its claim back, and when it may say
    that it created the issue itself. */
module IssueReplies {
  import opened Wrappers
  import opened IssueIntents
  import opened IssueProtocol
  import opened IssueClaims

  lemma LastAction(past: seq<Action>, a: Action)
    ensures past + [a] != [] && (past + [a])[|past|] == a && (past + [a])[..|past|] == past
  {
  }

  lemma Mentions(past: seq<Action>, a: Action)
    ensures forall b :: b in past + [a] <==> b in past || b == a
  {
  }

  // ----- Waiting.

  /** The seconds that have passed. */
  function Elapsed(past: seq<Action>): int {
    if past == [] then 0
    else
      var last := past[|past| - 1];
      Elapsed(past[..|past| - 1]) + if last.Tick? then last.seconds else 0
  }

  /** When worker `w` began. */
  function ArrivedAt(past: seq<Action>, w: nat): int {
    if past == [] then 0
    else if past[|past| - 1] == Arrive(w) then Elapsed(past[..|past| - 1])
    else ArrivedAt(past[..|past| - 1], w)
  }

  ghost predicate Waiting(s: World, past: seq<Action>) {
    && s.clock == Elapsed(past)
    && forall w :: w in s.workers && s.workers[w].pc.Claiming? ==>
         s.workers[w].pc.deadline == ArrivedAt(past, w) + ISSUE_INTENT_WAIT_SECONDS
  }

  lemma ActionWaits(s: World, past: seq<Action>, a: Action)
    requires Waiting(s, past) && Enabled(s, a)
    ensures Waiting(Perform(s, a), past + [a])
  {
    LastAction(past, a);
    OnlyArrivalsClaim(s, a);
    hide Perform, Enabled;
  }

  lemma OnlyArrivalsClaim(s: World, a: Action)
    requires Enabled(s, a)
    ensures var s' := Perform(s, a);
            && s'.clock == s.clock + (if a.Tick? then a.seconds else 0)
            && forall w :: w in s'.workers && s'.workers[w].pc.Claiming? ==>
                 if a == Arrive(w) then s'.workers[w].pc.deadline == s.clock + ISSUE_INTENT_WAIT_SECONDS
                 else w in s.workers && s'.workers[w].pc == s.workers[w].pc
  {
  }

  lemma {:induction false} HistoryWaits(s: World, past: seq<Action>, rest: seq<Action>)
    requires Waiting(s, past) && Happens(s, rest)
    ensures Waiting(After(s, rest), past + rest)
    decreases rest
  {
    if rest == [] {
      assert past + rest == past;
    } else {
      ActionWaits(s, past, rest[0]);
      HistoryWaits(Perform(s, rest[0]), past + [rest[0]], rest[1..]);
      assert past + [rest[0]] + rest[1..] == past + rest;
    }
  }

  /** Every answer to a claim that reached the store: the durable receipt, as a reconciled one, if anybody completed
      the intent; a grant if nobody else's claim is outstanding; and otherwise another turn, or an uncertain outcome
      once the worker has waited thirty seconds. */
  lemma ClaimAnswered(actions: seq<Action>, w: nat)
    requires Happens(START, actions) && Enabled(After(START, actions), Claim(w, true))
    ensures var s := After(START, actions);
            var pc := Perform(s, Claim(w, true)).workers[w].pc;
            var waited := s.clock - ArrivedAt(actions, w);
            && (pc.Returned? <==> Completed(s, actions))
            && (pc.Returned? ==> s.intent.Some? && s.intent.value.receipt.Some?
                                 && pc.result == Receipt(s.intent.value.receipt.value.number, true))
            && (pc.Tokening? <==> !Completed(s, actions) && !AnotherClaims(s, actions, w))
            && (pc == Raised(Uncertain) <==>
                  !Completed(s, actions) && AnotherClaims(s, actions, w) && waited >= 30)
            && (pc == s.workers[w].pc <==>
                  !Completed(s, actions) && AnotherClaims(s, actions, w) && waited < 30)
  {
    ClaimedExactly(actions, w);
    HistoryTells(START, [], actions);
    HistoryWaits(START, [], actions);
    assert [] + actions == actions;
    hide Happens, After, AnotherClaims, Completed, Elapsed, ArrivedAt;
  }

  // ----- Reconciling.

  /** How often worker `w` has looked for its issue after a lost reply. */
  function Reconciles(past: seq<Action>, w: nat): nat {
    if past == [] then 0
    else
      var last := past[|past| - 1];
      Reconciles(past[..|past| - 1], w) + if last.Reconcile? && last.worker == w then 1 else 0
  }

  /** None of those searches found it. */
  ghost predicate Fruitless(past: seq<Action>, w: nat) {
    forall found :: Reconcile(w, true, Some(found)) !in past
  }

  predicate Completes(past: seq<Action>, w: nat) {
    Complete(w, true) in past || Complete(w, false) in past
  }

  predicate Releases(past: seq<Action>, w: nat) {
    Release(w, true) in past || Release(w, false) in past
  }

  /** A claim, a marker search before the POST, or a completion of worker `w` was not answered. */
  ghost predicate CutOff(past: seq<Action>, w: nat) {
    Claim(w, false) in past || Complete(w, false) in past || exists found :: Search(w, false, found) in past
  }

  /** It got no installation token, or its POST was definitely refused. */
  predicate Declined(past: seq<Action>, w: nat) {
    Token(w, false) in past || Refuse(w) in past
  }

  /** A worker's own actions, as far as they matter here. */
  datatype Account = Account(
    lost: bool, searches: nat, fruitless: bool, completed: bool, released: bool, cutOff: bool, declined: bool)

  ghost function AccountOf(past: seq<Action>, w: nat): Account {
    Account(
      LoseReply(w) in past, Reconciles(past, w), Fruitless(past, w), Completes(past, w), Releases(past, w),
      CutOff(past, w), Declined(past, w))
  }

  const NOTHING := Account(false, 0, true, false, false, false, false)

  predicate BeforeReply(pc: Pc) {
    pc.Claiming? || pc.Tokening? || pc.Searching? || pc.Posting? || pc.Awaiting? || pc.Releasing?
    || pc == Raised(Refused)
  }

  /** What a worker's position says about its own actions so far. */
  predicate Reconciled(pc: Pc, own: Account) {
    && (BeforeReply(pc) ==> !own.lost)
    && (!own.lost ==> !pc.Reconciling? && own.searches == 0 && own.fruitless)
    && (InProgress(pc) ==> !own.completed)
    && (pc.Reconciling? ==> pc.attempt == own.searches < ISSUE_RECONCILIATIONS && own.fruitless)
    && (own.lost && (pc.Completing? || own.completed) ==> !own.fruitless)
    && own.searches <= ISSUE_RECONCILIATIONS
    && (pc == Raised(Uncertain) && own.lost && !own.completed ==>
          own.searches == ISSUE_RECONCILIATIONS && own.fruitless)
    && (pc == Raised(Refused) <==> own.released)
    && (own.cutOff ==> pc == Raised(Uncertain))
    && (pc.Releasing? || pc == Raised(Refused) ==> own.declined)
    && (own.declined ==> pc.Releasing? || pc == Raised(Refused) || pc.Crashed?)
  }

  ghost predicate Counts(s: World, past: seq<Action>) {
    forall w {:trigger AccountOf(past, w)} ::
      if w in s.workers then Reconciled(s.workers[w].pc, AccountOf(past, w)) else AccountOf(past, w) == NOTHING
  }

  function Booked(own: Account, a: Action): Account {
    match a
    case LoseReply(_) => own.(lost := true)
    case Reconcile(_, ok, found) =>
      own.(searches := own.searches + 1, fruitless := own.fruitless && !(ok && found.Some?))
    case Complete(_, reached) => own.(completed := true, cutOff := own.cutOff || !reached)
    case Release(_, _) => own.(released := true)
    case Claim(_, reached) => own.(cutOff := own.cutOff || !reached)
    case Search(_, ok, _) => own.(cutOff := own.cutOff || !ok)
    case Token(_, ok) => own.(declined := own.declined || !ok)
    case Refuse(_) => own.(declined := true)
    case _ => own
  }

  predicate By(a: Action, w: nat) {
    !a.Tick? && a.worker == w
  }

  lemma SearchesBooked(past: seq<Action>, a: Action, w: nat)
    ensures Reconciles(past + [a], w) == Reconciles(past, w) + if By(a, w) && a.Reconcile? then 1 else 0
    ensures Fruitless(past + [a], w)
            <==> Fruitless(past, w) && !(By(a, w) && a.Reconcile? && a.ok && a.found.Some?)
  {
    LastAction(past, a);
    Mentions(past, a);
  }

  lemma EndsBooked(past: seq<Action>, a: Action, w: nat)
    ensures LoseReply(w) in past + [a] <==> LoseReply(w) in past || (By(a, w) && a.LoseReply?)
    ensures Completes(past + [a], w) <==> Completes(past, w) || (By(a, w) && a.Complete?)
    ensures Releases(past + [a], w) <==> Releases(past, w) || (By(a, w) && a.Release?)
    ensures Declined(past + [a], w) <==> Declined(past, w) || (By(a, w) && (a.Refuse? || (a.Token? && !a.ok)))
  {
    Mentions(past, a);
  }

  lemma CutOffBooked(past: seq<Action>, a: Action, w: nat)
    ensures CutOff(past + [a], w)
            <==> CutOff(past, w)
                 || (By(a, w) && (((a.Claim? || a.Complete?) && !a.reached) || (a.Search? && !a.ok)))
  {
    Mentions(past, a);
    if By(a, w) && a.Search? && !a.ok {
      assert Search(w, false, a.found) in past + [a];
    }
  }

  /** An action is booked to its worker and to nobody else. */
  lemma ActionBooked(past: seq<Action>, a: Action, w: nat)
    ensures AccountOf(past + [a], w)
            == if By(a, w) then Booked(AccountOf(past, w), a) else AccountOf(past, w)
  {
    SearchesBooked(past, a, w);
    EndsBooked(past, a, w);
    CutOffBooked(past, a, w);
    hide Reconciles, Fruitless, Completes, Releases, Declined, CutOff;
  }

  predicate InProgress(pc: Pc) {
    !pc.Returned? && !pc.Raised? && !pc.Crashed?
  }

  /** How an action moves its worker. */
  predicate Moves(pc: Pc, a: Action, pc': Pc) {
    match a
    case LoseReply(_) => pc.Awaiting? && pc' == Reconciling(0)
    case Reconcile(_, ok, found) =>
      && pc.Reconciling?
      && if ok && found.Some? then pc'.Completing?
         else if pc.attempt + 1 < ISSUE_RECONCILIATIONS then pc' == Reconciling(pc.attempt + 1)
         else pc' == Raised(Uncertain)
    case Complete(_, reached) =>
      pc.Completing? && (pc' == Raised(Uncertain) || (reached && pc'.Returned?))
    case Release(_, _) => pc.Releasing? && pc' == Raised(Refused)
    case Crash(_) => !pc.Returned? && !pc.Raised? && pc'.Crashed?
    case Claim(_, reached) =>
      && pc.Claiming?
      && (pc' == Raised(Uncertain) || (reached && (pc' == pc || pc'.Tokening? || pc'.Returned?)))
    case Token(_, ok) => pc.Tokening? && pc' == if ok then Searching else Releasing
    case Search(_, ok, found) =>
      && pc.Searching?
      && if !ok then pc' == Raised(Uncertain) else if found.Some? then pc'.Completing? else pc' == Posting
    case Send(_) => pc.Posting? && pc' == Awaiting
    case Confirm(_) => pc.Awaiting? && pc'.Completing?
    case Refuse(_) => pc.Awaiting? && pc' == Releasing
    case Land(_, _) => pc' == pc
    case Tick(_) => false
    case Arrive(_) => false
  }

  lemma MovesSo(s: World, a: Action)
    requires Enabled(s, a) && !a.Tick? && !a.Arrive?
    ensures a.worker in s.workers && a.worker in Perform(s, a).workers
    ensures Moves(s.workers[a.worker].pc, a, Perform(s, a).workers[a.worker].pc)
  {
  }

  lemma OwnMove(pc: Pc, a: Action, pc': Pc, own: Account)
    requires Moves(pc, a, pc') && Reconciled(pc, own)
    ensures Reconciled(pc', Booked(own, a))
  {
  }

  lemma OthersStay(s: World, a: Action, w: nat)
    requires Enabled(s, a) && (a.Tick? || a.worker != w)
    ensures w in Perform(s, a).workers <==> w in s.workers
    ensures w in s.workers ==> Perform(s, a).workers[w] == s.workers[w]
  {
  }

  lemma ActionCounts(s: World, past: seq<Action>, a: Action)
    requires Counts(s, past) && Enabled(s, a)
    ensures Counts(Perform(s, a), past + [a])
  {
    var s' := Perform(s, a);
    forall w ensures if w in s'.workers then Reconciled(s'.workers[w].pc, AccountOf(past + [a], w))
                     else AccountOf(past + [a], w) == NOTHING
    {
      ActionBooked(past, a, w);
      assert AccountOf(past, w) == AccountOf(past, w);
      if a.Tick? || a.worker != w {
        OthersStay(s, a, w);
      } else if !a.Arrive? {
        MovesSo(s, a);
        OwnMove(s.workers[w].pc, a, s'.workers[w].pc, AccountOf(past, w));
      }
    }
  }

  lemma {:induction false} HistoryCounts(s: World, past: seq<Action>, rest: seq<Action>)
    requires Counts(s, past) && Happens(s, rest)
    ensures Counts(After(s, rest), past + rest)
    decreases rest
  {
    if rest == [] {
      assert past + rest == past;
    } else {
      ActionCounts(s, past, rest[0]);
      HistoryCounts(Perform(s, rest[0]), past + [rest[0]], rest[1..]);
      assert past + [rest[0]] + rest[1..] == past + rest;
    }
  }

  /** A publication whose POST was not answered ends as uncertain before completing only after three searches, none of
      which found the issue, and it never searches a fourth time; it is never refused. One whose claim, earlier search
      or completion was not answered is uncertain. One that got no token or was definitely refused is never anything
      but refused, and exactly when it has tried to give its claim back. */
  lemma LostRepliesAreReconciled(actions: seq<Action>, w: nat)
    requires Happens(START, actions) && w in After(START, actions).workers
    ensures var pc := After(START, actions).workers[w].pc;
            && Reconciles(actions, w) <= 3
            && (LoseReply(w) in actions && pc == Raised(Uncertain) && !Completes(actions, w) ==>
                  Reconciles(actions, w) == 3 && Fruitless(actions, w))
            && (LoseReply(w) in actions && Completes(actions, w) ==> !Fruitless(actions, w))
            && (CutOff(actions, w) ==> pc == Raised(Uncertain))
            && (Declined(actions, w) ==> pc.Releasing? || pc == Raised(Refused) || pc.Crashed?)
            && (pc == Raised(Refused) <==> Releases(actions, w))
            && (pc == Raised(Refused) ==> LoseReply(w) !in actions && Declined(actions, w))
  {
    forall v ensures AccountOf([], v) == NOTHING {
    }
    HistoryCounts(START, [], actions);
    assert [] + actions == actions;
    assert AccountOf(actions, w) == AccountOf(actions, w);
    hide Happens, After, Reconciles, Fruitless, Completes, Releases, CutOff, Declined;
  }

  // ----- Who created the issue.

  predicate Durable(s: World) {
    s.intent.Some? && s.intent.value.receipt.Some?
  }

  /** Before its completion a receipt is unreconciled exactly when the worker's own POST was confirmed. */
  predicate Credited(s: World, past: seq<Action>, w: nat)
    requires w in s.workers
  {
    var worker := s.workers[w];
    && (Confirm(w) in past ==> worker.landed.Some? && !BeforeReply(worker.pc) && !worker.pc.Reconciling?)
    && (worker.pc.Completing? ==>
          && (Confirm(w) in past <==> !worker.pc.receipt.reconciled)
          && (Confirm(w) in past ==> worker.landed == Some(worker.pc.receipt.number)))
    && (worker.pc.Returned? ==>
          && Durable(s)
          && (!worker.pc.result.reconciled <==> Confirm(w) in past && !s.intent.value.receipt.value.reconciled)
          && (!worker.pc.result.reconciled ==> worker.landed == Some(worker.pc.result.number)))
  }

  ghost predicate OneLander(s: World) {
    forall v, w :: v in s.workers && w in s.workers && s.workers[v].landed.Some? && s.workers[w].landed.Some? ==>
      v == w
  }

  ghost predicate CreatorReturned(s: World, past: seq<Action>) {
    Durable(s) && !s.intent.value.receipt.value.reconciled ==>
      exists v :: v in s.workers && s.workers[v].pc.Returned? && Confirm(v) in past
  }

  ghost predicate Credits(s: World, past: seq<Action>) {
    && (forall w :: w in s.workers ==> Credited(s, past, w))
    && (forall w :: Confirm(w) in past ==> w in s.workers)
    && OneLander(s) && CreatorReturned(s, past)
  }

  /** Everything else leaves a durable receipt alone. */
  lemma KeepsDurable(s: World, a: Action)
    requires Enabled(s, a) && !(a.Complete? && a.reached)
    ensures Durable(Perform(s, a)) <==> Durable(s)
    ensures Durable(s) ==> Perform(s, a).intent == s.intent
    ensures forall v :: v in s.workers ==>
              && v in Perform(s, a).workers
              && (Perform(s, a).workers[v].pc.Returned? && !s.workers[v].pc.Returned? ==>
                    Durable(s) && Perform(s, a).workers[v].pc.result.reconciled && s.workers[v].pc.Claiming?)
              && (s.workers[v].pc.Returned? ==> Perform(s, a).workers[v].pc == s.workers[v].pc)
  {
  }

  /** Only its own POST lands for a worker. */
  lemma LandedKept(s: World, a: Action)
    requires Enabled(s, a)
    ensures Perform(s, a).workers.Keys == s.workers.Keys + if a.Arrive? then {a.worker} else {}
    ensures forall v :: v in Perform(s, a).workers && !(a.Land? && a.worker == v) ==>
              Perform(s, a).workers[v].landed == if v in s.workers then s.workers[v].landed else None
  {
  }

  lemma StillOneLander(s: World, a: Action)
    requires Inv(s) && OneLander(s) && Enabled(s, a)
    ensures OneLander(Perform(s, a))
  {
    if a.Land? {
      LandsAlone(s, a.worker);
    }
    LandedKept(s, a);
    hide Perform, Enabled, Inv;
    var s' := Perform(s, a);
    forall v, w | v in s'.workers && w in s'.workers && s'.workers[v].landed.Some? && s'.workers[w].landed.Some?
      ensures v == w
    {
      if !a.Land? {
        assert v in s.workers && w in s.workers;
      }
    }
  }

  lemma CreatorStays(s: World, past: seq<Action>, a: Action)
    requires CreatorReturned(s, past) && Enabled(s, a) && !(a.Complete? && a.reached)
    ensures CreatorReturned(Perform(s, a), past + [a])
  {
    KeepsDurable(s, a);
    if Durable(s) && !s.intent.value.receipt.value.reconciled {
      var v :| v in s.workers && s.workers[v].pc.Returned? && Confirm(v) in past;
      hide Perform, Enabled;
      Mentions(past, a);
      assert Perform(s, a).workers[v].pc.Returned? && Confirm(v) in past + [a];
    }
  }

  lemma MoveCredits(s: World, past: seq<Action>, a: Action)
    requires Inv(s) && Credits(s, past) && Enabled(s, a) && !(a.Complete? && a.reached)
    ensures Credits(Perform(s, a), past + [a])
  {
    var s' := Perform(s, a);
    assert a.Confirm? ==> a.worker in s.workers;
    StillOneLander(s, a);
    CreatorStays(s, past, a);
    LandedKept(s, a);
    if a.Land? {
      LandsAlone(s, a.worker);
    }
    hide Inv, Credited, Perform, Enabled, OneLander, CreatorReturned;
    forall v | v in s'.workers ensures Credited(s', past + [a], v) {
      CreditKept(s, past, a, v);
    }
    forall w | Confirm(w) in past + [a] ensures w in s'.workers {
      assert Confirm(w) in past || a == Confirm(w);
    }
  }

  lemma LandsAlone(s: World, w: nat)
    requires Inv(s) && w in s.workers && s.workers[w].sent && s.clock < s.workers[w].expiry
    ensures forall v :: v in s.workers ==> s.workers[v].landed.None?
  {
    assert WorkerOk(s, w) && MayLand(s, w);
    forall v | v in s.workers ensures s.workers[v].landed.None? {
      assert WorkerOk(s, v);
    }
  }

  lemma CreditKept(s: World, past: seq<Action>, a: Action, v: nat)
    requires Credits(s, past) && Enabled(s, a) && !(a.Complete? && a.reached)
    requires a.Land? ==> forall u :: u in s.workers ==> s.workers[u].landed.None?
    requires v in Perform(s, a).workers
    ensures Credited(Perform(s, a), past + [a], v)
  {
    Mentions(past, a);
    assert v in s.workers ==> Credited(s, past, v);
    if a.Tick? || a.worker != v {
      OthersStay(s, a, v);
      KeepsDurable(s, a);
      hide Perform, Enabled;
    } else {
      OwnCredit(s, past, a);
    }
  }

  lemma OwnCredit(s: World, past: seq<Action>, a: Action)
    requires Enabled(s, a) && !a.Tick? && !(a.Complete? && a.reached)
    requires if a.Arrive? then Confirm(a.worker) !in past else Credited(s, past, a.worker)
    requires a.Land? ==> !a.Arrive? && s.workers[a.worker].landed.None?
    ensures Credited(Perform(s, a), past + [a], a.worker)
  {
    assert Confirm(a.worker) in past + [a] <==> Confirm(a.worker) in past || a.Confirm?;
  }

  lemma CompletionCredits(s: World, past: seq<Action>, w: nat)
    requires Inv(s) && Credits(s, past) && Enabled(s, Complete(w, true))
    ensures Credits(Perform(s, Complete(w, true)), past + [Complete(w, true)])
  {
    var a := Complete(w, true);
    Mentions(past, a);
    StillOneLander(s, a);
    LandedKept(s, a);
    CompletionCreator(s, past, w);
    hide Inv, Perform, Enabled, OneLander, Credited;
    forall v | v in Perform(s, a).workers ensures Credited(Perform(s, a), past + [a], v) {
      CompletionCredit(s, past, w, v);
    }
  }

  lemma CompletionCreator(s: World, past: seq<Action>, w: nat)
    requires Credits(s, past) && Enabled(s, Complete(w, true))
    ensures CreatorReturned(Perform(s, Complete(w, true)), past + [Complete(w, true)])
  {
    var a := Complete(w, true);
    var s' := Perform(s, a);
    assert Credited(s, past, w);
    if Durable(s) {
      if !s.intent.value.receipt.value.reconciled {
        var v :| v in s.workers && s.workers[v].pc.Returned? && Confirm(v) in past;
        assert s'.workers[v].pc.Returned? && Confirm(v) in past + [a];
      }
    } else if Durable(s') && !s'.intent.value.receipt.value.reconciled {
      assert s'.workers[w].pc.Returned? && Confirm(w) in past + [a];
    }
  }

  lemma CompletionCredit(s: World, past: seq<Action>, w: nat, v: nat)
    requires Credits(s, past) && Enabled(s, Complete(w, true)) && v in s.workers
    ensures Credited(Perform(s, Complete(w, true)), past + [Complete(w, true)], v)
  {
    var a := Complete(w, true);
    assert Confirm(v) in past + [a] <==> Confirm(v) in past;
    assert Credited(s, past, v) && Credited(s, past, w);
  }

  lemma {:induction false} HistoryCredits(s: World, past: seq<Action>, rest: seq<Action>)
    requires Inv(s) && Credits(s, past) && Happens(s, rest)
    ensures Credits(After(s, rest), past + rest)
    decreases rest
  {
    if rest == [] {
      assert past + rest == past;
    } else {
      ActionKeeps(s, rest[0]);
      if rest[0].Complete? && rest[0].reached {
        CompletionCredits(s, past, rest[0].worker);
      } else {
        MoveCredits(s, past, rest[0]);
      }
      HistoryCredits(Perform(s, rest[0]), past + [rest[0]], rest[1..]);
      assert past + [rest[0]] + rest[1..] == past + rest;
    }
  }

  /** A returned receipt says that its worker created the issue exactly when the worker's own POST was confirmed and
      nobody had completed the intent before; then it names the issue that this POST created, and no other publication
      says so. */
  lemma CreatorIsKnown(actions: seq<Action>, w: nat)
    requires Happens(START, actions)
    requires w in After(START, actions).workers && After(START, actions).workers[w].pc.Returned?
    ensures var s := After(START, actions);
            var result := s.workers[w].pc.result;
            && Durable(s)
            && (!result.reconciled <==> Confirm(w) in actions && !s.intent.value.receipt.value.reconciled)
            && (!result.reconciled ==>
                  && s.workers[w].landed == Some(result.number)
                  && forall v :: v in s.workers && v != w && s.workers[v].pc.Returned? ==>
                       s.workers[v].pc.result.reconciled)
  {
    HistoryCredits(START, [], actions);
    assert [] + actions == actions;
    var s := After(START, actions);
    hide Happens, After;
    assert Credited(s, actions, w);
    forall v | v in s.workers && v != w && s.workers[v].pc.Returned? && !s.workers[w].pc.result.reconciled
      ensures s.workers[v].pc.result.reconciled
    {
      assert Credited(s, actions, v);
    }
  }
}
