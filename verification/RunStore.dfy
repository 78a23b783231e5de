/** Run checkpoints, idempotency reservations and leases: the in-memory store (store.py) and the Firestore store
    (firestore_store.py), which keeps its leases inside the run documents. Both answer every history alike. */
module RunStore {
  import opened Wrappers
  import opened Actions
  import opened AuditRuns
  import opened Candidates
  import opened Verification

  datatype Lease = Lease(owner: string, expiry: int)

  /** The lease test shared by all four acquire methods. */
  predicate Taken(current: Option<Lease>, owner: string, now: int) {
    current.Some? && current.value.owner != owner && current.value.expiry > now
  }

  function Lookup<K, V>(m: map<K, V>, k: K): Option<V> {
    if k in m then Some(m[k]) else None
  }

  /** `action.id` is the run's id with the action's kind. */
  predicate HasAction(r: Run, kind: ActionKind) {
    exists i :: 0 <= i < |r.actions| && r.actions[i].kind == kind
  }

  /** An operation, with what the caller supplies: a fresh run id, an owner token, the time it reads. */
  datatype Op =
    | Reserve(key: string, newId: string, newRun: Run)
    | Save(id: string, run: Run)
    | Get(id: string)
    | AcquireRun(id: string, owner: string, now: int, seconds: int)
    | ReleaseRun(id: string, owner: string, now: int)
    | AcquireAction(id: string, kind: ActionKind, owner: string, now: int, seconds: int)
    | ReleaseAction(id: string, kind: ActionKind, owner: string, now: int)

  datatype Answer =
    | Reserved(run: Run, created: bool) | Done | Found(run': Option<Run>) | Acquired(granted: bool)
    | MissingKey | Corrupt

  // ----- The in-memory store.

  datatype Memory = Memory(
    runs: map<string, Run>, idempotency: map<string, string>,
    runLeases: map<string, Lease>, actionLeases: map<(string, ActionKind), Lease>)

  const EMPTY_MEMORY := Memory(map[], map[], map[], map[])

  function MemoryStep(m: Memory, op: Op): (Memory, Answer) {
    match op
    case Reserve(key, newId, newRun) =>
      if key in m.idempotency then
        if m.idempotency[key] in m.runs then (m, Reserved(m.runs[m.idempotency[key]], false)) else (m, MissingKey)
      else
        (m.(runs := m.runs[newId := newRun], idempotency := m.idempotency[key := newId]), Reserved(newRun, true))
    case Save(id, run) =>
      if id !in m.runs then (m, MissingKey) else (m.(runs := m.runs[id := run]), Done)
    case Get(id) => (m, Found(Lookup(m.runs, id)))
    case AcquireRun(id, owner, now, seconds) =>
      if id !in m.runs then (m, MissingKey)
      else if Taken(Lookup(m.runLeases, id), owner, now) then (m, Acquired(false))
      else (m.(runLeases := m.runLeases[id := Lease(owner, now + seconds)]), Acquired(true))
    case ReleaseRun(id, owner, _) =>
      if id in m.runLeases && m.runLeases[id].owner == owner then (m.(runLeases := m.runLeases - {id}), Done)
      else (m, Done)
    case AcquireAction(id, kind, owner, now, seconds) =>
      if id !in m.runs || !HasAction(m.runs[id], kind) then (m, MissingKey)
      else if Taken(Lookup(m.actionLeases, (id, kind)), owner, now) then (m, Acquired(false))
      else (m.(actionLeases := m.actionLeases[(id, kind) := Lease(owner, now + seconds)]), Acquired(true))
    case ReleaseAction(id, kind, owner, _) =>
      if (id, kind) in m.actionLeases && m.actionLeases[(id, kind)].owner == owner then
        (m.(actionLeases := m.actionLeases - {(id, kind)}), Done)
      else (m, Done)
  }

  class InMemoryRunStore {
    var runs: map<string, Run>
    var idempotency: map<string, string>
    var runLeases: map<string, Lease>
    var actionLeases: map<(string, ActionKind), Lease>

    function View(): Memory
      reads this
    {
      Memory(runs, idempotency, runLeases, actionLeases)
    }

    constructor ()
      ensures View() == EMPTY_MEMORY
    {
      runs, idempotency, runLeases, actionLeases := map[], map[], map[], map[];
    }

    method Reserve(key: string, newId: string, newRun: Run) returns (answer: Answer)
      modifies this`runs, this`idempotency
      ensures (View(), answer) == MemoryStep(old(View()), Op.Reserve(key, newId, newRun))
    {
      if key in idempotency {
        if idempotency[key] !in runs {
          return MissingKey;
        }
        return Reserved(runs[idempotency[key]], false);
      }
      runs := runs[newId := newRun];
      idempotency := idempotency[key := newId];
      return Reserved(newRun, true);
    }

    method Save(id: string, run: Run) returns (answer: Answer)
      modifies this`runs
      ensures (View(), answer) == MemoryStep(old(View()), Op.Save(id, run))
    {
      if id !in runs {
        return MissingKey;
      }
      runs := runs[id := run];
      return Done;
    }

    method Get(id: string) returns (answer: Answer)
      ensures (View(), answer) == MemoryStep(View(), Op.Get(id))
    {
      if id in runs {
        return Found(Some(runs[id]));
      }
      return Found(None);
    }

    method AcquireRunLease(id: string, owner: string, now: int, seconds: int) returns (answer: Answer)
      modifies this`runLeases
      ensures (View(), answer) == MemoryStep(old(View()), AcquireRun(id, owner, now, seconds))
    {
      if id !in runs {
        return MissingKey;
      }
      if id in runLeases {
        var current := runLeases[id];
        if current.owner != owner && current.expiry > now {
          return Acquired(false);
        }
      }
      runLeases := runLeases[id := Lease(owner, now + seconds)];
      return Acquired(true);
    }

    method ReleaseRunLease(id: string, owner: string, now: int) returns (answer: Answer)
      modifies this`runLeases
      ensures (View(), answer) == MemoryStep(old(View()), ReleaseRun(id, owner, now))
    {
      if id in runLeases && runLeases[id].owner == owner {
        runLeases := runLeases - {id};
      }
      return Done;
    }

    method AcquireActionLease(id: string, kind: ActionKind, owner: string, now: int, seconds: int)
      returns (answer: Answer)
      modifies this`actionLeases
      ensures (View(), answer) == MemoryStep(old(View()), AcquireAction(id, kind, owner, now, seconds))
    {
      if id !in runs {
        return MissingKey;
      }
      if !HasAction(runs[id], kind) {
        return MissingKey;
      }
      if (id, kind) in actionLeases {
        var current := actionLeases[(id, kind)];
        if current.owner != owner && current.expiry > now {
          return Acquired(false);
        }
      }
      actionLeases := actionLeases[(id, kind) := Lease(owner, now + seconds)];
      return Acquired(true);
    }

    method ReleaseActionLease(id: string, kind: ActionKind, owner: string, now: int) returns (answer: Answer)
      modifies this`actionLeases
      ensures (View(), answer) == MemoryStep(old(View()), ReleaseAction(id, kind, owner, now))
    {
      if (id, kind) in actionLeases && actionLeases[(id, kind)].owner == owner {
        actionLeases := actionLeases - {(id, kind)};
      }
      return Done;
    }
  }

  // ----- The Firestore store.

  /** A run document: the public payload, the two private checkpoints, and the embedded leases. */
  datatype Document = Document(
    payload: Run, candidate: Option<Checkpoint>, binding: Option<Binding>,
    executionLease: Option<Lease>, actionLeases: map<ActionKind, Lease>)

  /** The public JSON of a run does not show the receipt's binding or the candidate. */
  function Public(r: Run): Run {
    r.(verification := if r.verification.Some? then Some(r.verification.value.(binding := None)) else None,
       candidate := None)
  }

  /** `_encode`, merged over the leases the document already holds. */
  function Encode(r: Run, executionLease: Option<Lease>, actionLeases: map<ActionKind, Lease>): Document {
    Document(
      Public(r), r.candidate,
      if r.verification.Some? then r.verification.value.binding else None,
      executionLease, actionLeases)
  }

  datatype DecodeError = BindingWithoutReceipt | InvalidCheckpoint

  /** `_decode`: rebuild the run, then restore its private checkpoints through their validators. */
  function Decode(d: Document): Result<Run, DecodeError> {
    if d.binding.Some? && d.payload.verification.None? then Err(BindingWithoutReceipt)
    else if (d.binding.Some? && !d.binding.value.Valid()) || (d.candidate.Some? && !d.candidate.value.Valid()) then
      Err(InvalidCheckpoint)
    else
      var bound :=
        if d.binding.Some? then
          d.payload.(verification := Some(d.payload.verification.value.(binding := d.binding)))
        else d.payload;
      Ok(if d.candidate.Some? then bound.(candidate := d.candidate) else bound)
  }

  /** Saving and loading a run gives back the same run, private checkpoints included, exactly when those
      checkpoints are ones their validators accept. */
  lemma DocumentRoundTrip(r: Run, executionLease: Option<Lease>, actionLeases: map<ActionKind, Lease>)
    ensures Decode(Encode(r, executionLease, actionLeases)) == Ok(r) <==> Storable(r)
    ensures Decode(Encode(r, executionLease, actionLeases)) != Err(BindingWithoutReceipt)
  {
  }

  /** Keys are stored under their SHA-256, an injection. */
  datatype KeyHash = Sha256OfKey(key: string)

  datatype Documents = Documents(runs: map<string, Document>, keys: map<KeyHash, string>)

  const NO_DOCUMENTS := Documents(map[], map[])

  function FirestoreStep(f: Documents, op: Op): (Documents, Answer) {
    match op
    case Reserve(key, newId, newRun) =>
      if Sha256OfKey(key) in f.keys then
        if f.keys[Sha256OfKey(key)] in f.runs then
          match Decode(f.runs[f.keys[Sha256OfKey(key)]])
          case Ok(r) => (f, Reserved(r, false))
          case Err(_) => (f, Corrupt)
        else (f, Corrupt)
      else
        (Documents(f.runs[newId := Encode(newRun, None, map[])], f.keys[Sha256OfKey(key) := newId]),
         Reserved(newRun, true))
    case Save(id, run) =>
      if id !in f.runs then (f, MissingKey)
      else (f.(runs := f.runs[id := Encode(run, f.runs[id].executionLease, f.runs[id].actionLeases)]), Done)
    case Get(id) =>
      if id !in f.runs then (f, Found(None))
      else
        (match Decode(f.runs[id])
         case Ok(r) => (f, Found(Some(r)))
         case Err(_) => (f, Corrupt))
    case AcquireRun(id, owner, now, seconds) =>
      if id !in f.runs then (f, MissingKey)
      else if Taken(f.runs[id].executionLease, owner, now) then (f, Acquired(false))
      else
        var held := f.runs[id].(executionLease := Some(Lease(owner, now + seconds)));
        (f.(runs := f.runs[id := held]), Acquired(true))
    case ReleaseRun(id, owner, _) =>
      if id in f.runs && f.runs[id].executionLease.Some? && f.runs[id].executionLease.value.owner == owner then
        (f.(runs := f.runs[id := f.runs[id].(executionLease := None)]), Done)
      else (f, Done)
    case AcquireAction(id, kind, owner, now, seconds) =>
      if id !in f.runs then (f, MissingKey)
      else
        (match Decode(f.runs[id])
         case Err(_) => (f, Corrupt)
         case Ok(r) =>
           if !HasAction(r, kind) then (f, MissingKey)
           else if Taken(Lookup(f.runs[id].actionLeases, kind), owner, now) then (f, Acquired(false))
           else
             var leases := f.runs[id].actionLeases[kind := Lease(owner, now + seconds)];
             (f.(runs := f.runs[id := f.runs[id].(actionLeases := leases)]), Acquired(true)))
    case ReleaseAction(id, kind, owner, _) =>
      if id in f.runs && kind in f.runs[id].actionLeases && f.runs[id].actionLeases[kind].owner == owner then
        (f.(runs := f.runs[id := f.runs[id].(actionLeases := f.runs[id].actionLeases - {kind})]), Done)
      else (f, Done)
  }

  class FirestoreRunStore {
    var runs: map<string, Document>
    var keys: map<KeyHash, string>

    function View(): Documents
      reads this
    {
      Documents(runs, keys)
    }

    constructor ()
      ensures View() == NO_DOCUMENTS
    {
      runs, keys := map[], map[];
    }

    method Reserve(key: string, newId: string, newRun: Run) returns (answer: Answer)
      modifies this
      ensures (View(), answer) == FirestoreStep(old(View()), Op.Reserve(key, newId, newRun))
    {
      var keyId := Sha256OfKey(key);
      if keyId in keys {
        if keys[keyId] !in runs {
          return Corrupt;
        }
        var decoded := Decode(runs[keys[keyId]]);
        return if decoded.Ok? then Reserved(decoded.value, false) else Corrupt;
      }
      runs := runs[newId := Encode(newRun, None, map[])];
      keys := keys[keyId := newId];
      return Reserved(newRun, true);
    }

    method Save(id: string, run: Run) returns (answer: Answer)
      modifies this`runs
      ensures (View(), answer) == FirestoreStep(old(View()), Op.Save(id, run))
    {
      if id !in runs {
        return MissingKey;
      }
      runs := runs[id := Encode(run, runs[id].executionLease, runs[id].actionLeases)];
      return Done;
    }

    method Get(id: string) returns (answer: Answer)
      ensures (View(), answer) == FirestoreStep(View(), Op.Get(id))
    {
      if id !in runs {
        return Found(None);
      }
      var decoded := Decode(runs[id]);
      return if decoded.Ok? then Found(Some(decoded.value)) else Corrupt;
    }

    method AcquireRunLease(id: string, owner: string, now: int, seconds: int) returns (answer: Answer)
      modifies this`runs
      ensures (View(), answer) == FirestoreStep(old(View()), AcquireRun(id, owner, now, seconds))
    {
      if id !in runs {
        return MissingKey;
      }
      if Taken(runs[id].executionLease, owner, now) {
        return Acquired(false);
      }
      runs := runs[id := runs[id].(executionLease := Some(Lease(owner, now + seconds)))];
      return Acquired(true);
    }

    method ReleaseRunLease(id: string, owner: string, now: int) returns (answer: Answer)
      modifies this`runs
      ensures (View(), answer) == FirestoreStep(old(View()), ReleaseRun(id, owner, now))
    {
      if id in runs && runs[id].executionLease.Some? && runs[id].executionLease.value.owner == owner {
        runs := runs[id := runs[id].(executionLease := None)];
      }
      return Done;
    }

    method AcquireActionLease(id: string, kind: ActionKind, owner: string, now: int, seconds: int)
      returns (answer: Answer)
      modifies this`runs
      ensures (View(), answer) == FirestoreStep(old(View()), AcquireAction(id, kind, owner, now, seconds))
    {
      if id !in runs {
        return MissingKey;
      }
      var decoded := Decode(runs[id]);
      if decoded.Err? {
        return Corrupt;
      }
      if !HasAction(decoded.value, kind) {
        return MissingKey;
      }
      var leases := runs[id].actionLeases;
      if Taken(Lookup(leases, kind), owner, now) {
        return Acquired(false);
      }
      leases := leases[kind := Lease(owner, now + seconds)];
      runs := runs[id := runs[id].(actionLeases := leases)];
      return Acquired(true);
    }

    method ReleaseActionLease(id: string, kind: ActionKind, owner: string, now: int) returns (answer: Answer)
      modifies this`runs
      ensures (View(), answer) == FirestoreStep(old(View()), ReleaseAction(id, kind, owner, now))
    {
      if id in runs && kind in runs[id].actionLeases && runs[id].actionLeases[kind].owner == owner {
        runs := runs[id := runs[id].(actionLeases := runs[id].actionLeases - {kind})];
      }
      return Done;
    }
  }

  // ----- The two stores answer alike.

  /** A document that holds this run, whatever leases are embedded beside it. */
  predicate Holds(d: Document, r: Run) {
    d == Encode(r, d.executionLease, d.actionLeases) && Storable(r)
  }

  lemma HeldRunDecodes(d: Document, r: Run)
    requires Holds(d, r)
    ensures Decode(d) == Ok(r)
  {
    DocumentRoundTrip(r, d.executionLease, d.actionLeases);
  }

  lemma LeasesDoNotDisturb(d: Document, r: Run, lease: Option<Lease>, leases: map<ActionKind, Lease>)
    requires Holds(d, r)
    ensures Holds(d.(executionLease := lease), r) && Holds(d.(actionLeases := leases), r)
  {
  }

  ghost predicate RecordsAgree(f: Documents, m: Memory) {
    f.runs.Keys == m.runs.Keys && forall id :: id in m.runs ==> Holds(f.runs[id], m.runs[id])
  }

  ghost predicate KeysAgree(f: Documents, m: Memory) {
    forall key ::
      && (key in m.idempotency <==> Sha256OfKey(key) in f.keys)
      && (key in m.idempotency ==>
            m.idempotency[key] == f.keys[Sha256OfKey(key)] && m.idempotency[key] in m.runs)
  }

  ghost predicate RunLeasesAgree(f: Documents, m: Memory) {
    && m.runLeases.Keys <= m.runs.Keys <= f.runs.Keys
    && forall id :: id in m.runs ==> f.runs[id].executionLease == Lookup(m.runLeases, id)
  }

  ghost predicate ActionLeasesAgree(f: Documents, m: Memory) {
    && m.runs.Keys <= f.runs.Keys
    && (forall id, kind :: (id, kind) in m.actionLeases ==> id in m.runs)
    && forall id, kind :: id in m.runs ==>
         Lookup(f.runs[id].actionLeases, kind) == Lookup(m.actionLeases, (id, kind))
  }

  /** The documents say what the four dictionaries say. */
  ghost predicate Agree(f: Documents, m: Memory) {
    RecordsAgree(f, m) && KeysAgree(f, m) && RunLeasesAgree(f, m) && ActionLeasesAgree(f, m)
  }

  /** What callers hand over: runs with valid private checkpoints, and run ids never used before. */
  predicate WellPosed(m: Memory, op: Op) {
    match op
    case Reserve(_, newId, newRun) => newId !in m.runs && Storable(newRun)
    case Save(_, run) => Storable(run)
    case _ => true
  }

  lemma ReserveRefines(f: Documents, m: Memory, op: Op)
    requires Agree(f, m) && WellPosed(m, op) && op.Reserve?
    ensures FirestoreStep(f, op).1 == MemoryStep(m, op).1 && Agree(FirestoreStep(f, op).0, MemoryStep(m, op).0)
  {
    assert op.key in m.idempotency <==> Sha256OfKey(op.key) in f.keys;
    if op.key in m.idempotency {
      HeldRunDecodes(f.runs[m.idempotency[op.key]], m.runs[m.idempotency[op.key]]);
    } else {
      var d := Encode(op.newRun, None, map[]);
      assert Holds(d, op.newRun);
      NewDocumentAgrees(
        f, m, op.newId, d, op.newRun, f.keys[Sha256OfKey(op.key) := op.newId], m.idempotency[op.key := op.newId]);
      ReservedKeysAgree(f, m, op.key, op.newId, f.runs[op.newId := d], m.runs[op.newId := op.newRun]);
    }
  }

  lemma NewDocumentAgrees(
    f: Documents, m: Memory, id: string, d: Document, r: Run,
    keys: map<KeyHash, string>, idempotency: map<string, string>)
    requires RecordsAgree(f, m) && RunLeasesAgree(f, m) && ActionLeasesAgree(f, m)
    requires id !in m.runs && Holds(d, r) && d.executionLease.None? && d.actionLeases == map[]
    ensures var f', m' := Documents(f.runs[id := d], keys), m.(runs := m.runs[id := r], idempotency := idempotency);
            RecordsAgree(f', m') && RunLeasesAgree(f', m') && ActionLeasesAgree(f', m')
  {
    hide Holds;
  }

  lemma ReservedKeysAgree(
    f: Documents, m: Memory, key: string, id: string, documents: map<string, Document>, runs: map<string, Run>)
    requires KeysAgree(f, m) && runs.Keys == m.runs.Keys + {id}
    ensures KeysAgree(
      Documents(documents, f.keys[Sha256OfKey(key) := id]), m.(runs := runs, idempotency := m.idempotency[key := id]))
  {
    var f', m' :=
      Documents(documents, f.keys[Sha256OfKey(key) := id]), m.(runs := runs, idempotency := m.idempotency[key := id]);
    forall other
      ensures other in m'.idempotency <==> Sha256OfKey(other) in f'.keys
      ensures other in m'.idempotency ==>
                m'.idempotency[other] == f'.keys[Sha256OfKey(other)] && m'.idempotency[other] in m'.runs
    {
      assert other != key ==> (other in m.idempotency <==> Sha256OfKey(other) in f.keys);
    }
  }

  lemma SaveRefines(f: Documents, m: Memory, op: Op)
    requires Agree(f, m) && WellPosed(m, op) && op.Save?
    ensures FirestoreStep(f, op).1 == MemoryStep(m, op).1 && Agree(FirestoreStep(f, op).0, MemoryStep(m, op).0)
  {
    if op.id in m.runs {
      var d := Encode(op.run, f.runs[op.id].executionLease, f.runs[op.id].actionLeases);
      assert Holds(d, op.run);
      ReplacedDocumentAgrees(f, m, op.id, d, op.run);
    }
  }

  /** Replacing the run in a document leaves every lease where it was. */
  lemma ReplacedDocumentAgrees(f: Documents, m: Memory, id: string, d: Document, r: Run)
    requires Agree(f, m) && id in m.runs && Holds(d, r)
    requires d.executionLease == f.runs[id].executionLease && d.actionLeases == f.runs[id].actionLeases
    ensures Agree(f.(runs := f.runs[id := d]), m.(runs := m.runs[id := r]))
  {
    hide Holds;
  }

  lemma Agreement(f: Documents, m: Memory, id: string, kind: ActionKind)
    requires Agree(f, m)
    ensures id in f.runs <==> id in m.runs
    ensures id in m.runs ==>
      && Holds(f.runs[id], m.runs[id])
      && f.runs[id].executionLease == Lookup(m.runLeases, id)
      && Lookup(f.runs[id].actionLeases, kind) == Lookup(m.actionLeases, (id, kind))
    ensures id !in m.runs ==> id !in m.runLeases && (id, kind) !in m.actionLeases
  {
    hide Holds;
  }

  /** What one lease operation does to the one lease it is about: the new lease and the answer. */
  function LeaseStep(current: Option<Lease>, op: Op): (Option<Lease>, Answer)
    requires op.AcquireRun? || op.ReleaseRun? || op.AcquireAction? || op.ReleaseAction?
  {
    if op.AcquireRun? || op.AcquireAction? then
      if Taken(current, op.owner, op.now) then (current, Acquired(false))
      else (Some(Lease(op.owner, op.now + op.seconds)), Acquired(true))
    else if current.Some? && current.value.owner == op.owner then (None, Done)
    else (current, Done)
  }

  function SetLease<K>(leases: map<K, Lease>, k: K, lease: Option<Lease>): map<K, Lease> {
    if lease.Some? then leases[k := lease.value] else leases - {k}
  }

  lemma RunLeaseSteps(f: Documents, m: Memory, op: Op)
    requires (op.AcquireRun? || op.ReleaseRun?) && op.id in m.runs && op.id in f.runs
    requires f.runs[op.id].executionLease == Lookup(m.runLeases, op.id)
    ensures var step := LeaseStep(Lookup(m.runLeases, op.id), op);
            && FirestoreStep(f, op) == (f.(runs := f.runs[op.id := f.runs[op.id].(executionLease := step.0)]), step.1)
            && MemoryStep(m, op) == (m.(runLeases := SetLease(m.runLeases, op.id, step.0)), step.1)
  {
    var step := LeaseStep(Lookup(m.runLeases, op.id), op);
    var d := f.runs[op.id];
    assert step.0 == d.executionLease ==> f.runs[op.id := d.(executionLease := step.0)] == f.runs;
    assert step.0 == Lookup(m.runLeases, op.id) ==> SetLease(m.runLeases, op.id, step.0) == m.runLeases;
  }

  lemma RunLeaseRefines(f: Documents, m: Memory, op: Op)
    requires Agree(f, m) && (op.AcquireRun? || op.ReleaseRun?)
    ensures FirestoreStep(f, op).1 == MemoryStep(m, op).1 && Agree(FirestoreStep(f, op).0, MemoryStep(m, op).0)
  {
    hide Agree, Holds;
    Agreement(f, m, op.id, Email);
    if op.id in m.runs {
      var lease := LeaseStep(Lookup(m.runLeases, op.id), op).0;
      RunLeaseSteps(f, m, op);
      LeasesDoNotDisturb(f.runs[op.id], m.runs[op.id], lease, map[]);
      RunLeaseAgrees(f, m, op.id, lease);
    } else if op.AcquireRun? {
      assert FirestoreStep(f, op) == (f, MissingKey) && MemoryStep(m, op) == (m, MissingKey);
    } else {
      assert FirestoreStep(f, op) == (f, Done) && MemoryStep(m, op) == (m, Done);
    }
  }

  lemma RunLeaseAgrees(f: Documents, m: Memory, id: string, lease: Option<Lease>)
    requires Agree(f, m) && id in m.runs && Holds(f.runs[id].(executionLease := lease), m.runs[id])
    ensures Agree(
      f.(runs := f.runs[id := f.runs[id].(executionLease := lease)]), m.(runLeases := SetLease(m.runLeases, id, lease)))
  {
    hide Holds;
  }

  lemma ActionLeaseSteps(f: Documents, m: Memory, op: Op)
    requires (op.AcquireAction? || op.ReleaseAction?) && op.id in m.runs && op.id in f.runs
    requires Decode(f.runs[op.id]) == Ok(m.runs[op.id])
    requires op.AcquireAction? ==> HasAction(m.runs[op.id], op.kind)
    requires Lookup(f.runs[op.id].actionLeases, op.kind) == Lookup(m.actionLeases, (op.id, op.kind))
    ensures var step := LeaseStep(Lookup(m.actionLeases, (op.id, op.kind)), op);
            var leases := SetLease(f.runs[op.id].actionLeases, op.kind, step.0);
            && FirestoreStep(f, op) == (f.(runs := f.runs[op.id := f.runs[op.id].(actionLeases := leases)]), step.1)
            && MemoryStep(m, op) == (m.(actionLeases := SetLease(m.actionLeases, (op.id, op.kind), step.0)), step.1)
  {
    hide Decode, HasAction;
    var step := LeaseStep(Lookup(m.actionLeases, (op.id, op.kind)), op);
    var d := f.runs[op.id];
    var leases := SetLease(d.actionLeases, op.kind, step.0);
    if step.0 == Lookup(m.actionLeases, (op.id, op.kind)) {
      assert leases == d.actionLeases;
      assert f.runs[op.id := d.(actionLeases := leases)] == f.runs;
      assert SetLease(m.actionLeases, (op.id, op.kind), step.0) == m.actionLeases;
    }
  }

  lemma ActionLeaseRefines(f: Documents, m: Memory, op: Op)
    requires Agree(f, m) && (op.AcquireAction? || op.ReleaseAction?)
    ensures FirestoreStep(f, op).1 == MemoryStep(m, op).1 && Agree(FirestoreStep(f, op).0, MemoryStep(m, op).0)
  {
    hide Agree, Holds, Decode, HasAction;
    Agreement(f, m, op.id, op.kind);
    if op.id !in m.runs {
      assert op.AcquireAction? ==> FirestoreStep(f, op) == (f, MissingKey) && MemoryStep(m, op) == (m, MissingKey);
      assert op.ReleaseAction? ==> FirestoreStep(f, op) == (f, Done) && MemoryStep(m, op) == (m, Done);
    } else {
      HeldRunDecodes(f.runs[op.id], m.runs[op.id]);
      if op.AcquireAction? && !HasAction(m.runs[op.id], op.kind) {
        assert FirestoreStep(f, op) == (f, MissingKey) && MemoryStep(m, op) == (m, MissingKey);
      } else {
        var lease := LeaseStep(Lookup(m.actionLeases, (op.id, op.kind)), op).0;
        var leases := SetLease(f.runs[op.id].actionLeases, op.kind, lease);
        ActionLeaseSteps(f, m, op);
        LeasesDoNotDisturb(f.runs[op.id], m.runs[op.id], None, leases);
        ActionLeaseAgrees(f, m, op.id, op.kind, lease);
      }
    }
  }

  lemma ActionLeaseAgrees(f: Documents, m: Memory, id: string, kind: ActionKind, lease: Option<Lease>)
    requires Agree(f, m) && id in m.runs
    requires Holds(f.runs[id].(actionLeases := SetLease(f.runs[id].actionLeases, kind, lease)), m.runs[id])
    ensures Agree(
      f.(runs := f.runs[id := f.runs[id].(actionLeases := SetLease(f.runs[id].actionLeases, kind, lease))]),
      m.(actionLeases := SetLease(m.actionLeases, (id, kind), lease)))
  {
    hide Holds;
    ActionLeaseSet(f, m, id, kind, lease);
    hide ActionLeasesAgree;
  }

  lemma ActionLeaseSet(f: Documents, m: Memory, id: string, kind: ActionKind, lease: Option<Lease>)
    requires ActionLeasesAgree(f, m) && id in m.runs
    ensures ActionLeasesAgree(
      f.(runs := f.runs[id := f.runs[id].(actionLeases := SetLease(f.runs[id].actionLeases, kind, lease))]),
      m.(actionLeases := SetLease(m.actionLeases, (id, kind), lease)))
  {
    var leases := SetLease(f.runs[id].actionLeases, kind, lease);
    var f' := f.(runs := f.runs[id := f.runs[id].(actionLeases := leases)]);
    var m' := m.(actionLeases := SetLease(m.actionLeases, (id, kind), lease));
    forall other, k | other in m.runs
      ensures Lookup(f'.runs[other].actionLeases, k) == Lookup(m'.actionLeases, (other, k))
    {
      assert Lookup(f.runs[other].actionLeases, k) == Lookup(m.actionLeases, (other, k));
    }
  }

  lemma StepRefines(f: Documents, m: Memory, op: Op)
    requires Agree(f, m) && WellPosed(m, op)
    ensures FirestoreStep(f, op).1 == MemoryStep(m, op).1
    ensures Agree(FirestoreStep(f, op).0, MemoryStep(m, op).0)
  {
    match op
    case Reserve(_, _, _) => ReserveRefines(f, m, op);
    case Save(_, _) => SaveRefines(f, m, op);
    case Get(id) => if id in m.runs { HeldRunDecodes(f.runs[id], m.runs[id]); }
    case AcquireRun(_, _, _, _) => RunLeaseRefines(f, m, op);
    case ReleaseRun(_, _, _) => RunLeaseRefines(f, m, op);
    case AcquireAction(_, _, _, _, _) => ActionLeaseRefines(f, m, op);
    case ReleaseAction(_, _, _, _) => ActionLeaseRefines(f, m, op);
  }

  function MemoryRun(m: Memory, ops: seq<Op>): seq<Answer>
    decreases ops
  {
    if ops == [] then [] else [MemoryStep(m, ops[0]).1] + MemoryRun(MemoryStep(m, ops[0]).0, ops[1..])
  }

  function FirestoreRun(f: Documents, ops: seq<Op>): seq<Answer>
    decreases ops
  {
    if ops == [] then [] else [FirestoreStep(f, ops[0]).1] + FirestoreRun(FirestoreStep(f, ops[0]).0, ops[1..])
  }

  predicate AllWellPosed(m: Memory, ops: seq<Op>)
    decreases ops
  {
    ops == [] || (WellPosed(m, ops[0]) && AllWellPosed(MemoryStep(m, ops[0]).0, ops[1..]))
  }

  lemma {:induction false} RunsAgree(f: Documents, m: Memory, ops: seq<Op>)
    requires Agree(f, m) && AllWellPosed(m, ops)
    ensures FirestoreRun(f, ops) == MemoryRun(m, ops)
    decreases ops
  {
    if ops != [] {
      StepRefines(f, m, ops[0]);
      RunsAgree(FirestoreStep(f, ops[0]).0, MemoryStep(m, ops[0]).0, ops[1..]);
    }
  }

  /** From empty, every sequence of reservations, saves, reads and lease operations gets identical answers. */
  lemma StoresAreInterchangeable(ops: seq<Op>)
    requires AllWellPosed(EMPTY_MEMORY, ops)
    ensures FirestoreRun(NO_DOCUMENTS, ops) == MemoryRun(EMPTY_MEMORY, ops)
  {
    RunsAgree(NO_DOCUMENTS, EMPTY_MEMORY, ops);
  }
}
