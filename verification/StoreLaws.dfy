/** What both run stores guarantee over whole histories: lease tenures never overlap, and a reservation is a
    permanent injection from idempotency keys to runs. */
module StoreLaws {
  import opened Wrappers
  import opened Actions
  import opened AuditRuns
  import opened RunStore

  // ----- Lease tenures.

  /** A run's execution lease, or the lease of one of its actions. */
  datatype Slot = RunSlot(id: string) | ActionSlot(id: string, kind: ActionKind)

  function Current(m: Memory, slot: Slot): Option<Lease> {
    match slot
    case RunSlot(id) => Lookup(m.runLeases, id)
    case ActionSlot(id, kind) => Lookup(m.actionLeases, (id, kind))
  }

  predicate Acquires(op: Op, slot: Slot) {
    (op.AcquireRun? && slot == RunSlot(op.id)) || (op.AcquireAction? && slot == ActionSlot(op.id, op.kind))
  }

  predicate Releases(op: Op, slot: Slot) {
    (op.ReleaseRun? && slot == RunSlot(op.id)) || (op.ReleaseAction? && slot == ActionSlot(op.id, op.kind))
  }

  /** From the grant until it runs out, is released by its owner, or is renewed by its owner. */
  datatype Tenure = Tenure(owner: string, from: int, until: int)

  function Close(log: seq<Tenure>, now: int): seq<Tenure> {
    if log == [] then []
    else
      var last := log[|log| - 1];
      log[|log| - 1 := last.(until := if now < last.until then now else last.until)]
  }

  predicate OwnedBy(lease: Option<Lease>, owner: string) {
    lease.Some? && lease.value.owner == owner
  }

  /** The tenures of a slot, extended by one operation. Only its own owner can cut a tenure short. */
  function Extend(log: seq<Tenure>, m: Memory, op: Op, slot: Slot): seq<Tenure> {
    if Acquires(op, slot) && MemoryStep(m, op).1 == Acquired(true) then
      (if OwnedBy(Current(m, slot), op.owner) then Close(log, op.now) else log)
      + [Tenure(op.owner, op.now, op.now + op.seconds)]
    else if Releases(op, slot) && OwnedBy(Current(m, slot), op.owner) then
      Close(log, op.now)
    else log
  }

  function Tenures(log: seq<Tenure>, m: Memory, ops: seq<Op>, slot: Slot): seq<Tenure>
    decreases ops
  {
    if ops == [] then log else Tenures(Extend(log, m, ops[0], slot), MemoryStep(m, ops[0]).0, ops[1..], slot)
  }

  predicate IsTimed(op: Op) {
    op.AcquireRun? || op.ReleaseRun? || op.AcquireAction? || op.ReleaseAction?
  }

  /** The clock never goes backwards, and leases are asked for a length of time. */
  predicate Timely(ops: seq<Op>, now: int)
    decreases ops
  {
    ops == []
    || (if IsTimed(ops[0]) then
          now <= ops[0].now && Timely(ops[1..], ops[0].now)
          && (ops[0].AcquireRun? || ops[0].AcquireAction? ==> 0 <= ops[0].seconds)
        else Timely(ops[1..], now))
  }

  ghost predicate Successive(log: seq<Tenure>) {
    forall i, j :: 0 <= i < j < |log| ==> log[i].until <= log[j].from
  }

  /** The log accounts for the lease the store holds at time `now`. */
  ghost predicate Logged(log: seq<Tenure>, lease: Option<Lease>, now: int) {
    && Successive(log)
    && (forall i :: 0 <= i < |log| ==> log[i].from <= log[i].until && log[i].from <= now)
    && match lease
       case Some(l) => log != [] && log[|log| - 1].owner == l.owner && log[|log| - 1].until == l.expiry
       case None => log == [] || log[|log| - 1].until <= now
  }

  lemma Closed(log: seq<Tenure>, lease: Option<Lease>, now: int, later: int)
    requires Logged(log, lease, now) && now <= later
    ensures Logged(Close(log, later), None, later)
  {
  }

  lemma Opened(log: seq<Tenure>, now: int, owner: string, seconds: int)
    requires Logged(log, None, now) && 0 <= seconds
    ensures Logged(log + [Tenure(owner, now, now + seconds)], Some(Lease(owner, now + seconds)), now)
  {
  }

  /** A grant comes only when the last tenure has run out or belongs to the same owner. */
  lemma GrantLogged(log: seq<Tenure>, lease: Option<Lease>, now: int, owner: string, later: int, seconds: int)
    requires Logged(log, lease, now) && now <= later && 0 <= seconds && !Taken(lease, owner, later)
    ensures Logged(
      (if OwnedBy(lease, owner) then Close(log, later) else log) + [Tenure(owner, later, later + seconds)],
      Some(Lease(owner, later + seconds)), later)
  {
    if OwnedBy(lease, owner) {
      Closed(log, lease, now, later);
      Opened(Close(log, later), later, owner, seconds);
    } else {
      Opened(log, later, owner, seconds);
    }
  }

  /** No save, read or reservation disturbs a lease, nor does any lease operation that is not its owner's own. */
  lemma OthersDoNotDisturb(m: Memory, op: Op, slot: Slot)
    requires !(Releases(op, slot) && OwnedBy(Current(m, slot), op.owner))
    requires !(Acquires(op, slot) && MemoryStep(m, op).1 == Acquired(true))
    ensures Current(MemoryStep(m, op).0, slot) == Current(m, slot)
  {
  }

  lemma LoggedLater(log: seq<Tenure>, lease: Option<Lease>, now: int, later: int)
    requires Logged(log, lease, now) && now <= later
    ensures Logged(log, lease, later)
  {
  }

  lemma OpLogged(log: seq<Tenure>, m: Memory, op: Op, slot: Slot, now: int)
    requires Logged(log, Current(m, slot), now) && Timely([op], now)
    ensures Logged(
      Extend(log, m, op, slot), Current(MemoryStep(m, op).0, slot), if IsTimed(op) then op.now else now)
  {
    hide Logged, HasAction, Close;
    if Acquires(op, slot) && MemoryStep(m, op).1 == Acquired(true) {
      GrantLogged(log, Current(m, slot), now, op.owner, op.now, op.seconds);
    } else if Releases(op, slot) && OwnedBy(Current(m, slot), op.owner) {
      Closed(log, Current(m, slot), now, op.now);
    } else {
      OthersDoNotDisturb(m, op, slot);
      LoggedLater(log, Current(m, slot), now, if IsTimed(op) then op.now else now);
    }
  }

  function MemoryAfter(m: Memory, ops: seq<Op>): Memory
    decreases ops
  {
    if ops == [] then m else MemoryAfter(MemoryStep(m, ops[0]).0, ops[1..])
  }

  function DocumentsAfter(f: Documents, ops: seq<Op>): Documents
    decreases ops
  {
    if ops == [] then f else DocumentsAfter(FirestoreStep(f, ops[0]).0, ops[1..])
  }

  /** The time after a history: that of its last lease operation. */
  function Clock(ops: seq<Op>, now: int): int
    decreases ops
  {
    if ops == [] then now else Clock(ops[1..], if IsTimed(ops[0]) then ops[0].now else now)
  }

  lemma {:induction false} HistoryLogged(log: seq<Tenure>, m: Memory, ops: seq<Op>, slot: Slot, now: int)
    requires Logged(log, Current(m, slot), now) && Timely(ops, now)
    ensures Logged(Tenures(log, m, ops, slot), Current(MemoryAfter(m, ops), slot), Clock(ops, now))
    decreases ops
  {
    if ops != [] {
      assert Timely([ops[0]], now) by { assert [ops[0]][1..] == []; }
      OpLogged(log, m, ops[0], slot, now);
      HistoryLogged(
        Extend(log, m, ops[0], slot), MemoryStep(m, ops[0]).0, ops[1..], slot,
        if IsTimed(ops[0]) then ops[0].now else now);
    }
  }

  /** Over any history, the tenures of a lease follow one another: no two owners ever hold it at once, whatever is
      saved, reserved or leased in between. */
  lemma TenuresNeverOverlap(ops: seq<Op>, slot: Slot, now: int)
    requires Timely(ops, now)
    ensures Successive(Tenures([], EMPTY_MEMORY, ops, slot))
  {
    HistoryLogged([], EMPTY_MEMORY, ops, slot, now);
  }

  /** Somebody else's tenure of the slot, the last one, has not run out. */
  predicate HeldByAnother(log: seq<Tenure>, owner: string, now: int) {
    log != [] && log[|log| - 1].owner != owner && log[|log| - 1].until > now
  }

  /** The slot's run exists, with the action if it is an action's. */
  predicate Exists(m: Memory, slot: Slot) {
    slot.id in m.runs && (slot.ActionSlot? ==> HasAction(m.runs[slot.id], slot.kind))
  }

  function Acquiring(slot: Slot, owner: string, now: int, seconds: int): Op {
    match slot
    case RunSlot(id) => AcquireRun(id, owner, now, seconds)
    case ActionSlot(id, kind) => AcquireAction(id, kind, owner, now, seconds)
  }

  /** After any history, an acquisition is refused if and only if the last tenure of the slot belongs to another owner
      and has not run out; otherwise it is granted. So what a dead worker held is taken over as soon as it expires. */
  lemma RefusedExactly(ops: seq<Op>, slot: Slot, start: int, owner: string, now: int, seconds: int)
    requires Timely(ops, start) && Clock(ops, start) <= now
    requires Exists(MemoryAfter(EMPTY_MEMORY, ops), slot)
    ensures var m := MemoryAfter(EMPTY_MEMORY, ops);
            MemoryStep(m, Acquiring(slot, owner, now, seconds)).1
            == Acquired(!HeldByAnother(Tenures([], EMPTY_MEMORY, ops, slot), owner, now))
  {
    HistoryLogged([], EMPTY_MEMORY, ops, slot, start);
    hide Tenures, MemoryAfter, Clock, Timely, Successive;
  }

  /** The Firestore store takes over at exactly the same times. */
  lemma FirestoreRefusesExactly(ops: seq<Op>, slot: Slot, start: int, owner: string, now: int, seconds: int)
    requires Timely(ops, start) && Clock(ops, start) <= now && AllWellPosed(EMPTY_MEMORY, ops)
    requires Exists(MemoryAfter(EMPTY_MEMORY, ops), slot)
    ensures var f := DocumentsAfter(NO_DOCUMENTS, ops);
            FirestoreStep(f, Acquiring(slot, owner, now, seconds)).1
            == Acquired(!HeldByAnother(Tenures([], EMPTY_MEMORY, ops, slot), owner, now))
  {
    RefusedExactly(ops, slot, start, owner, now, seconds);
    DocumentsAgree(NO_DOCUMENTS, EMPTY_MEMORY, ops);
    hide Tenures, MemoryAfter, DocumentsAfter, MemoryStep, FirestoreStep, Agree;
    StepRefines(
      DocumentsAfter(NO_DOCUMENTS, ops), MemoryAfter(EMPTY_MEMORY, ops), Acquiring(slot, owner, now, seconds));
  }

  lemma {:induction false} DocumentsAgree(f: Documents, m: Memory, ops: seq<Op>)
    requires Agree(f, m) && AllWellPosed(m, ops)
    ensures Agree(DocumentsAfter(f, ops), MemoryAfter(m, ops))
    decreases ops
  {
    if ops != [] {
      StepRefines(f, m, ops[0]);
      DocumentsAgree(FirestoreStep(f, ops[0]).0, MemoryStep(m, ops[0]).0, ops[1..]);
    }
  }

  /** In Firestore the leases live in the document a save rewrites; the save leaves them alone. */
  lemma SaveKeepsEmbeddedLeases(f: Documents, id: string, run: Run, other: string)
    requires other in f.runs
    ensures var f' := FirestoreStep(f, Save(id, run)).0;
            && other in f'.runs
            && f'.runs[other].executionLease == f.runs[other].executionLease
            && f'.runs[other].actionLeases == f.runs[other].actionLeases
  {
  }

  // ----- Reservations.

  /** A new run carries its reserving key and a fresh id, and saves never change a run's key. */
  predicate KeysRespected(m: Memory, op: Op) {
    match op
    case Reserve(key, newId, newRun) => newId !in m.runs && newRun.key == key
    case Save(id, run) => id in m.runs ==> run.key == m.runs[id].key
    case _ => true
  }

  predicate AllKeysRespected(m: Memory, ops: seq<Op>)
    decreases ops
  {
    ops == [] || (KeysRespected(m, ops[0]) && AllKeysRespected(MemoryStep(m, ops[0]).0, ops[1..]))
  }

  ghost predicate Reservations(m: Memory) {
    && (forall k :: k in m.idempotency ==> m.idempotency[k] in m.runs && m.runs[m.idempotency[k]].key == k)
    && forall j, k :: j in m.idempotency && k in m.idempotency && j != k ==> m.idempotency[j] != m.idempotency[k]
  }

  /** Keys keep the run they named. */
  ghost predicate Extends(before: Memory, after: Memory) {
    && before.runs.Keys <= after.runs.Keys
    && forall k :: k in before.idempotency ==>
         k in after.idempotency && after.idempotency[k] == before.idempotency[k]
  }

  lemma ReservationStep(m: Memory, op: Op)
    requires Reservations(m) && KeysRespected(m, op)
    ensures Reservations(MemoryStep(m, op).0) && Extends(m, MemoryStep(m, op).0)
    ensures op.Reserve? ==> MemoryStep(m, op).1.Reserved? && MemoryStep(m, op).1.run.key == op.key
  {
  }

  lemma {:induction false} ReservationHistory(m: Memory, ops: seq<Op>)
    requires Reservations(m) && AllKeysRespected(m, ops)
    ensures Reservations(MemoryAfter(m, ops)) && Extends(m, MemoryAfter(m, ops))
    decreases ops
  {
    if ops != [] {
      ReservationStep(m, ops[0]);
      ReservationHistory(MemoryStep(m, ops[0]).0, ops[1..]);
    }
  }

  /** Each key names one run for ever, distinct keys name distinct runs, and the stored run carries its reserving
      key after any sequence of operations; so a reserved run never disappears. */
  lemma ReservationIsAnInjection(first: seq<Op>, rest: seq<Op>)
    requires AllKeysRespected(EMPTY_MEMORY, first) && AllKeysRespected(MemoryAfter(EMPTY_MEMORY, first), rest)
    ensures var m := MemoryAfter(EMPTY_MEMORY, first);
            var m' := MemoryAfter(m, rest);
            && (forall k :: k in m.idempotency ==>
                  && k in m'.idempotency && m'.idempotency[k] == m.idempotency[k]
                  && m'.idempotency[k] in m'.runs && m'.runs[m'.idempotency[k]].key == k)
            && (forall j, k :: j in m'.idempotency && k in m'.idempotency && m'.idempotency[j] == m'.idempotency[k] ==>
                  j == k)
  {
    ReservationHistory(EMPTY_MEMORY, first);
    ReservationHistory(MemoryAfter(EMPTY_MEMORY, first), rest);
  }

  /** "Reserved run disappeared" and "idempotency record has no audit run" are unreachable in Firestore. */
  lemma {:induction false} NoMissingRuns(f: Documents, m: Memory, ops: seq<Op>, i: nat)
    requires Agree(f, m) && Reservations(m) && AllKeysRespected(m, ops) && AllWellPosed(m, ops)
    requires i < |ops| && ops[i].Reserve?
    ensures |FirestoreRun(f, ops)| == |ops| && FirestoreRun(f, ops)[i].Reserved?
    decreases ops
  {
    StepRefines(f, m, ops[0]);
    ReservationStep(m, ops[0]);
    var f', m' := FirestoreStep(f, ops[0]).0, MemoryStep(m, ops[0]).0;
    if i > 0 {
      NoMissingRuns(f', m', ops[1..], i - 1);
    } else {
      AnswersEach(f', ops[1..]);
    }
  }

  lemma {:induction false} AnswersEach(f: Documents, ops: seq<Op>)
    ensures |FirestoreRun(f, ops)| == |ops|
    decreases ops
  {
    if ops != [] { AnswersEach(FirestoreStep(f, ops[0]).0, ops[1..]); }
  }
}
