/** One-time OAuth and installation states (github.py): the in-memory store, which drops expired entries whenever
    one is consumed, and the Firestore store, which keeps both kinds in one collection. */
module OAuthStates {
  import opened Wrappers

  datatype Pending = Pending(installationId: nat, verifier: string, expiresAt: int)

  datatype Op =
    | AddInstall(token: string, expiresAt: int)
    | AddOAuth(token: string, pending: Pending)
    | ConsumeInstall(token: string, now: int)
    | ConsumeOAuth(token: string, now: int)

  datatype Answer = Added | InstallAnswer(accepted: bool) | OAuthAnswer(pending: Option<Pending>)

  datatype Memory = Memory(installs: map<string, int>, oauths: map<string, Pending>)

  const EMPTY := Memory(map[], map[])

  /** `_drop_expired`. */
  function DropExpired(m: Memory, now: int): Memory {
    Memory(
      map s | s in m.installs && m.installs[s] >= now :: m.installs[s],
      map s | s in m.oauths && m.oauths[s].expiresAt >= now :: m.oauths[s])
  }

  function Answered(m: Memory, op: Op): Answer {
    match op
    case AddInstall(_, _) => Added
    case AddOAuth(_, _) => Added
    case ConsumeInstall(token, now) => InstallAnswer(token in m.installs && m.installs[token] >= now)
    case ConsumeOAuth(token, now) =>
      OAuthAnswer(if token in m.oauths && m.oauths[token].expiresAt >= now then Some(m.oauths[token]) else None)
  }

  /** The reference: a state is stored until it is consumed. */
  function Keep(m: Memory, op: Op): Memory {
    match op
    case AddInstall(token, expiresAt) => m.(installs := m.installs[token := expiresAt])
    case AddOAuth(token, pending) => m.(oauths := m.oauths[token := pending])
    case ConsumeInstall(token, _) => m.(installs := m.installs - {token})
    case ConsumeOAuth(token, _) => m.(oauths := m.oauths - {token})
  }

  /** The in-memory store: consuming also drops whatever has expired, of both kinds. */
  function KeepFresh(m: Memory, op: Op): Memory {
    match op
    case ConsumeInstall(_, now) => DropExpired(Keep(m, op), now)
    case ConsumeOAuth(_, now) => DropExpired(Keep(m, op), now)
    case _ => Keep(m, op)
  }

  class InMemoryStates {
    var installs: map<string, int>
    var oauths: map<string, Pending>

    function View(): Memory
      reads this
    {
      Memory(installs, oauths)
    }

    constructor ()
      ensures View() == EMPTY
    {
      installs, oauths := map[], map[];
    }

    method AddInstallState(token: string, expiresAt: int)
      modifies this
      ensures View() == KeepFresh(old(View()), AddInstall(token, expiresAt))
    {
      installs := installs[token := expiresAt];
    }

    method AddOAuthState(token: string, pending: Pending)
      modifies this
      ensures View() == KeepFresh(old(View()), AddOAuth(token, pending))
    {
      oauths := oauths[token := pending];
    }

    method Drop(now: int)
      modifies this
      ensures View() == DropExpired(old(View()), now)
    {
      installs := map s | s in installs && installs[s] >= now :: installs[s];
      oauths := map s | s in oauths && oauths[s].expiresAt >= now :: oauths[s];
    }

    method ConsumeInstallState(token: string, now: int) returns (accepted: bool)
      modifies this
      ensures View() == KeepFresh(old(View()), ConsumeInstall(token, now))
      ensures InstallAnswer(accepted) == Answered(old(View()), ConsumeInstall(token, now))
    {
      var expiresAt := if token in installs then Some(installs[token]) else None;
      installs := installs - {token};
      Drop(now);
      return expiresAt.Some? && expiresAt.value >= now;
    }

    method ConsumeOAuthState(token: string, now: int) returns (pending: Option<Pending>)
      modifies this
      ensures View() == KeepFresh(old(View()), ConsumeOAuth(token, now))
      ensures OAuthAnswer(pending) == Answered(old(View()), ConsumeOAuth(token, now))
    {
      pending := if token in oauths then Some(oauths[token]) else None;
      oauths := oauths - {token};
      Drop(now);
      if pending.None? || pending.value.expiresAt < now {
        return None;
      }
    }
  }

  // ----- Dropping is unobservable.

  predicate Consumes(op: Op) {
    op.ConsumeInstall? || op.ConsumeOAuth?
  }

  /** The clock never goes backwards. */
  predicate Timely(ops: seq<Op>, now: int)
    decreases ops
  {
    ops == []
    || (if Consumes(ops[0]) then now <= ops[0].now && Timely(ops[1..], ops[0].now) else Timely(ops[1..], now))
  }

  function Kept(m: Memory, ops: seq<Op>): seq<Answer>
    decreases ops
  {
    if ops == [] then [] else [Answered(m, ops[0])] + Kept(Keep(m, ops[0]), ops[1..])
  }

  function Dropped(m: Memory, ops: seq<Op>): seq<Answer>
    decreases ops
  {
    if ops == [] then [] else [Answered(m, ops[0])] + Dropped(KeepFresh(m, ops[0]), ops[1..])
  }

  /** `m` lacks at most entries of `r` that have expired by `now`. */
  ghost predicate Fresh(m: Memory, r: Memory, now: int) {
    && (forall s :: s in m.installs ==> s in r.installs && r.installs[s] == m.installs[s])
    && (forall s :: s in m.oauths ==> s in r.oauths && r.oauths[s] == m.oauths[s])
    && (forall s :: s in r.installs && r.installs[s] >= now ==> s in m.installs)
    && (forall s :: s in r.oauths && r.oauths[s].expiresAt >= now ==> s in m.oauths)
  }

  lemma FreshStep(m: Memory, r: Memory, op: Op, now: int)
    requires Fresh(m, r, now) && (Consumes(op) ==> now <= op.now)
    ensures Answered(m, op) == Answered(r, op)
    ensures Fresh(KeepFresh(m, op), Keep(r, op), if Consumes(op) then op.now else now)
  {
  }

  lemma {:induction false} FreshRun(m: Memory, r: Memory, ops: seq<Op>, now: int)
    requires Fresh(m, r, now) && Timely(ops, now)
    ensures Dropped(m, ops) == Kept(r, ops)
    decreases ops
  {
    if ops != [] {
      FreshStep(m, r, ops[0], now);
      FreshRun(KeepFresh(m, ops[0]), Keep(r, ops[0]), ops[1..], if Consumes(ops[0]) then ops[0].now else now);
    }
  }

  /** Under a clock that never goes backwards, the store that drops expired entries answers every history like the
      store that keeps them. */
  lemma DroppingIsUnobservable(ops: seq<Op>, now: int)
    requires Timely(ops, now)
    ensures Dropped(EMPTY, ops) == Kept(EMPTY, ops)
  {
    FreshRun(EMPTY, EMPTY, ops, now);
  }

  // ----- Single use.

  predicate Adds(op: Op, token: string) {
    (op.AddInstall? || op.AddOAuth?) && op.token == token
  }

  predicate Accepts(op: Op, answer: Answer, token: string) {
    && Consumes(op) && op.token == token
    && (answer == InstallAnswer(true) || (answer.OAuthAnswer? && answer.pending.Some?))
  }

  function AddCount(ops: seq<Op>, token: string): nat {
    if ops == [] then 0 else (if Adds(ops[0], token) then 1 else 0) + AddCount(ops[1..], token)
  }

  function AcceptCount(ops: seq<Op>, answers: seq<Answer>, token: string): nat
    requires |ops| == |answers|
  {
    if ops == [] then 0
    else (if Accepts(ops[0], answers[0], token) then 1 else 0) + AcceptCount(ops[1..], answers[1..], token)
  }

  function Stored(m: Memory, token: string): nat {
    (if token in m.installs then 1 else 0) + (if token in m.oauths then 1 else 0)
  }

  lemma {:induction false} KeptLength(m: Memory, ops: seq<Op>)
    ensures |Kept(m, ops)| == |ops|
    decreases ops
  {
    if ops != [] { KeptLength(Keep(m, ops[0]), ops[1..]); }
  }

  lemma {:induction false} AcceptsSpend(m: Memory, ops: seq<Op>, token: string)
    ensures |Kept(m, ops)| == |ops|
    ensures AcceptCount(ops, Kept(m, ops), token) <= Stored(m, token) + AddCount(ops, token)
    decreases ops
  {
    KeptLength(m, ops);
    if ops != [] {
      AcceptsSpend(Keep(m, ops[0]), ops[1..], token);
      assert Kept(m, ops)[1..] == Kept(Keep(m, ops[0]), ops[1..]);
      SpendOne(m, ops[0], token);
    }
  }

  lemma SpendOne(m: Memory, op: Op, token: string)
    ensures (if Accepts(op, Answered(m, op), token) then 1 else 0) + Stored(Keep(m, op), token)
            <= Stored(m, token) + (if Adds(op, token) then 1 else 0)
  {
  }

  /** A token is accepted at most as often as it was added, so a token added once is accepted at most once. */
  lemma SingleUse(ops: seq<Op>, token: string, now: int)
    requires Timely(ops, now)
    ensures |Dropped(EMPTY, ops)| == |ops|
    ensures AcceptCount(ops, Dropped(EMPTY, ops), token) <= AddCount(ops, token)
  {
    DroppingIsUnobservable(ops, now);
    AcceptsSpend(EMPTY, ops, token);
  }

  /** What the latest additions say: the pending state, or the expiry, with which a token was last added. */
  function LastAdded(m: Memory, ops: seq<Op>): Memory
    decreases ops
  {
    if ops == [] then m
    else LastAdded(if Consumes(ops[0]) then m else Keep(m, ops[0]), ops[1..])
  }

  ghost predicate Within(m: Memory, r: Memory) {
    && (forall s :: s in m.installs ==> s in r.installs && r.installs[s] == m.installs[s])
    && forall s :: s in m.oauths ==> s in r.oauths && r.oauths[s] == m.oauths[s]
  }

  function KeptAfter(m: Memory, ops: seq<Op>): Memory
    decreases ops
  {
    if ops == [] then m else KeptAfter(Keep(m, ops[0]), ops[1..])
  }

  lemma {:induction false} KeptWithinAdded(m: Memory, r: Memory, ops: seq<Op>)
    requires Within(m, r)
    ensures Within(KeptAfter(m, ops), LastAdded(r, ops))
    decreases ops
  {
    if ops != [] {
      KeptWithinAdded(Keep(m, ops[0]), if Consumes(ops[0]) then r else Keep(r, ops[0]), ops[1..]);
    }
  }

  /** Acceptance is only ever of what was last added under the token, and only up to its expiry. */
  lemma AcceptedBeforeExpiry(ops: seq<Op>, op: Op)
    requires Accepts(op, Answered(KeptAfter(EMPTY, ops), op), op.token)
    ensures var added := LastAdded(EMPTY, ops);
            if op.ConsumeInstall? then op.token in added.installs && op.now <= added.installs[op.token]
            else && op.token in added.oauths && op.now <= added.oauths[op.token].expiresAt
                 && Answered(KeptAfter(EMPTY, ops), op) == OAuthAnswer(Some(added.oauths[op.token]))
  {
    KeptWithinAdded(EMPTY, EMPTY, ops);
  }

  predicate ForInstall(op: Op) {
    op.AddInstall? || op.ConsumeInstall?
  }

  predicate SameKind(a: Op, b: Op) {
    ForInstall(a) <==> ForInstall(b)
  }

  /** The last operation on the token of `op`; with `apart`, only operations of its kind are looked at. */
  function LastOn(ops: seq<Op>, op: Op, apart: bool): Option<Op> {
    if ops == [] then None
    else
      var last := ops[|ops| - 1];
      if last.token == op.token && (apart ==> SameKind(last, op)) then Some(last)
      else LastOn(ops[..|ops| - 1], op, apart)
  }

  /** An addition that `op` may still consume. */
  predicate Unexpired(added: Option<Op>, op: Op)
    requires Consumes(op)
  {
    match added
    case Some(AddInstall(_, expiresAt)) => op.ConsumeInstall? && op.now <= expiresAt
    case Some(AddOAuth(_, pending)) => op.ConsumeOAuth? && op.now <= pending.expiresAt
    case _ => false
  }

  /** The answer to a consumption, given the last operation on its token. */
  ghost predicate AnswersTo(answer: Answer, op: Op, last: Option<Op>)
    requires Consumes(op)
  {
    && (op.ConsumeInstall? ==> answer == InstallAnswer(Unexpired(last, op)))
    && (op.ConsumeOAuth? ==>
          answer == OAuthAnswer(if Unexpired(last, op) then Some(last.value.pending) else None))
  }

  lemma {:induction false} KeptSnoc(m: Memory, ops: seq<Op>, op: Op)
    ensures KeptAfter(m, ops + [op]) == Keep(KeptAfter(m, ops), op)
    ensures |Kept(m, ops + [op])| == |ops| + 1 && Kept(m, ops + [op])[|ops|] == Answered(KeptAfter(m, ops), op)
    decreases ops
  {
    if ops == [] {
      assert [] + [op] == [op] && [op][1..] == [];
    } else {
      assert (ops + [op])[1..] == ops[1..] + [op];
      KeptSnoc(Keep(m, ops[0]), ops[1..], op);
    }
  }

  lemma {:induction false} KeptIsLast(ops: seq<Op>, op: Op)
    requires Consumes(op)
    ensures AnswersTo(Answered(KeptAfter(EMPTY, ops), op), op, LastOn(ops, op, true))
    decreases |ops|
  {
    if ops != [] {
      var front, last := ops[..|ops| - 1], ops[|ops| - 1];
      assert ops == front + [last];
      KeptSnoc(EMPTY, front, last);
      KeptIsLast(front, op);
    }
  }

  /** After any history a token is accepted if and only if the last operation of its kind on it added it, with an
      expiry that has not passed; and a pending authorization is given back as it was added. */
  lemma AcceptedExactly(ops: seq<Op>, op: Op, now: int)
    requires Consumes(op) && Timely(ops + [op], now)
    ensures |Dropped(EMPTY, ops + [op])| == |ops| + 1
    ensures AnswersTo(Dropped(EMPTY, ops + [op])[|ops|], op, LastOn(ops, op, true))
  {
    DroppingIsUnobservable(ops + [op], now);
    KeptSnoc(EMPTY, ops, op);
    KeptIsLast(ops, op);
  }

  // ----- The Firestore store.

  datatype Document = InstallDocument(expiresAt: int) | OAuthDocument(pending: Pending)

  function FirestoreStep(f: map<string, Document>, op: Op): (map<string, Document>, Answer) {
    match op
    case AddInstall(token, expiresAt) => (f[token := InstallDocument(expiresAt)], Added)
    case AddOAuth(token, pending) => (f[token := OAuthDocument(pending)], Added)
    case ConsumeInstall(token, now) =>
      (f - {token},
       InstallAnswer(token in f && f[token].InstallDocument? && f[token].expiresAt >= now))
    case ConsumeOAuth(token, now) =>
      (f - {token},
       OAuthAnswer(
         if token in f && f[token].OAuthDocument? && f[token].pending.expiresAt >= now then Some(f[token].pending)
         else None))
  }

  function FirestoreRun(f: map<string, Document>, ops: seq<Op>): seq<Answer>
    decreases ops
  {
    if ops == [] then [] else [FirestoreStep(f, ops[0]).1] + FirestoreRun(FirestoreStep(f, ops[0]).0, ops[1..])
  }

  ghost predicate Covered(f: map<string, Document>, r: Memory) {
    forall s :: s in f ==>
      match f[s]
      case InstallDocument(e) => s in r.installs && r.installs[s] == e
      case OAuthDocument(p) => s in r.oauths && r.oauths[s] == p
  }

  /** `a` accepts only what `b` accepts, and then says the same. */
  predicate NoMore(a: Answer, b: Answer) {
    match a
    case Added => b.Added?
    case InstallAnswer(accepted) => b.InstallAnswer? && (accepted ==> b.accepted)
    case OAuthAnswer(pending) => b.OAuthAnswer? && (pending.Some? ==> b.pending == pending)
  }

  lemma {:induction false} FirestoreCovered(f: map<string, Document>, r: Memory, ops: seq<Op>, i: nat)
    requires Covered(f, r) && i < |ops|
    ensures |FirestoreRun(f, ops)| == |ops| == |Kept(r, ops)|
    ensures NoMore(FirestoreRun(f, ops)[i], Kept(r, ops)[i])
    decreases ops
  {
    KeptLength(r, ops);
    FirestoreLength(f, ops);
    if i > 0 {
      FirestoreCovered(FirestoreStep(f, ops[0]).0, Keep(r, ops[0]), ops[1..], i - 1);
    }
  }

  lemma {:induction false} FirestoreLength(f: map<string, Document>, ops: seq<Op>)
    ensures |FirestoreRun(f, ops)| == |ops|
    decreases ops
  {
    if ops != [] { FirestoreLength(FirestoreStep(f, ops[0]).0, ops[1..]); }
  }

  /** The single-collection store accepts only what the in-memory store accepts. */
  lemma FirestoreAcceptsNoMore(ops: seq<Op>, now: int, i: nat)
    requires Timely(ops, now) && i < |ops|
    ensures |FirestoreRun(map[], ops)| == |ops| == |Dropped(EMPTY, ops)|
    ensures NoMore(FirestoreRun(map[], ops)[i], Dropped(EMPTY, ops)[i])
  {
    DroppingIsUnobservable(ops, now);
    FirestoreCovered(map[], EMPTY, ops, i);
  }

  function FirestoreAfter(f: map<string, Document>, ops: seq<Op>): map<string, Document>
    decreases ops
  {
    if ops == [] then f else FirestoreAfter(FirestoreStep(f, ops[0]).0, ops[1..])
  }

  lemma {:induction false} FirestoreSnoc(f: map<string, Document>, ops: seq<Op>, op: Op)
    ensures FirestoreAfter(f, ops + [op]) == FirestoreStep(FirestoreAfter(f, ops), op).0
    ensures |FirestoreRun(f, ops + [op])| == |ops| + 1
    ensures FirestoreRun(f, ops + [op])[|ops|] == FirestoreStep(FirestoreAfter(f, ops), op).1
    decreases ops
  {
    if ops == [] {
      assert [] + [op] == [op] && [op][1..] == [];
    } else {
      assert (ops + [op])[1..] == ops[1..] + [op];
      FirestoreSnoc(FirestoreStep(f, ops[0]).0, ops[1..], op);
    }
  }

  lemma {:induction false} DocumentIsLast(ops: seq<Op>, op: Op)
    requires Consumes(op)
    ensures AnswersTo(FirestoreStep(FirestoreAfter(map[], ops), op).1, op, LastOn(ops, op, false))
    decreases |ops|
  {
    if ops != [] {
      var front, last := ops[..|ops| - 1], ops[|ops| - 1];
      assert ops == front + [last];
      FirestoreSnoc(map[], front, last);
      DocumentIsLast(front, op);
    }
  }

  /** In the single collection the last operation on the token decides, whatever its kind. */
  lemma FirestoreAcceptsExactly(ops: seq<Op>, op: Op)
    requires Consumes(op)
    ensures |FirestoreRun(map[], ops + [op])| == |ops| + 1
    ensures AnswersTo(FirestoreRun(map[], ops + [op])[|ops|], op, LastOn(ops, op, false))
  {
    FirestoreSnoc(map[], ops, op);
    DocumentIsLast(ops, op);
  }

  // ----- It answers exactly alike when no token is used for both kinds.

  ghost predicate KindsApart(ops: seq<Op>, installs: set<string>) {
    forall i :: 0 <= i < |ops| ==> (ForInstall(ops[i]) <==> ops[i].token in installs)
  }

  ghost predicate SameStates(f: map<string, Document>, r: Memory, installs: set<string>) {
    && Covered(f, r)
    && (forall s :: s in r.installs ==> s in installs && s in f && f[s] == InstallDocument(r.installs[s]))
    && forall s :: s in r.oauths ==> s !in installs && s in f && f[s] == OAuthDocument(r.oauths[s])
  }

  lemma {:induction false} KindsApartAgree(f: map<string, Document>, r: Memory, ops: seq<Op>, installs: set<string>)
    requires SameStates(f, r, installs) && KindsApart(ops, installs)
    ensures FirestoreRun(f, ops) == Kept(r, ops)
    decreases ops
  {
    if ops != [] {
      assert ForInstall(ops[0]) <==> ops[0].token in installs;
      assert KindsApart(ops[1..], installs) by {
        forall i | 0 <= i < |ops[1..]| ensures ForInstall(ops[1..][i]) <==> ops[1..][i].token in installs {
          assert ops[1..][i] == ops[i + 1];
        }
      }
      KindsApartAgree(FirestoreStep(f, ops[0]).0, Keep(r, ops[0]), ops[1..], installs);
    }
  }

  lemma FirestoreAgreesOnSeparateTokens(ops: seq<Op>, now: int, installs: set<string>)
    requires Timely(ops, now) && KindsApart(ops, installs)
    ensures FirestoreRun(map[], ops) == Dropped(EMPTY, ops)
  {
    DroppingIsUnobservable(ops, now);
    KindsApartAgree(map[], EMPTY, ops, installs);
  }
}
