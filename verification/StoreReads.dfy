/** What the run stores read back, told from the operations alone: a run is the last one written under its id, and a key
    belongs to its first reservation. */
module StoreReads {
  import opened Wrappers
  import opened Actions
  import opened AuditRuns
  import opened RunStore
  import opened StoreLaws

  /** The id that a key's first reservation gave it. */
  function FirstId(ops: seq<Op>, key: string): Option<string> {
    if ops == [] then None
    else
      var earlier, last := FirstId(ops[..|ops| - 1], key), ops[|ops| - 1];
      if earlier.Some? then earlier
      else if last.Reserve? && last.key == key then Some(last.newId)
      else None
  }

  /** The last run written under an id: by the reservation that was the first of its key, or by a save since. */
  function LastWritten(ops: seq<Op>, id: string): Option<Run> {
    if ops == [] then None
    else
      var front, last := ops[..|ops| - 1], ops[|ops| - 1];
      if last.Reserve? && last.newId == id && FirstId(front, last.key).None? then Some(last.newRun)
      else if last.Save? && last.id == id && LastWritten(front, id).Some? then Some(last.run)
      else LastWritten(front, id)
  }

  /** What was written decides the answer. */
  predicate AnswersFrom(ops: seq<Op>, op: Op, answer: Answer) {
    match op
    case Get(id) => answer == Found(LastWritten(ops, id))
    case Save(id, _) => answer == if LastWritten(ops, id).Some? then Done else MissingKey
    case Reserve(key, _, newRun) =>
      var first := FirstId(ops, key);
      if first.None? then answer == Reserved(newRun, true)
      else
        && LastWritten(ops, first.value).Some?
        && answer == Reserved(LastWritten(ops, first.value).value, false)
    case AcquireRun(id, _, _, _) =>
      answer.MissingKey? <==> LastWritten(ops, id).None?
    case AcquireAction(id, kind, _, _, _) =>
      answer.MissingKey? <==> LastWritten(ops, id).None? || !HasAction(LastWritten(ops, id).value, kind)
    case _ => answer == Done
  }

  lemma {:induction false} MemorySnoc(m: Memory, ops: seq<Op>, op: Op)
    ensures MemoryAfter(m, ops + [op]) == MemoryStep(MemoryAfter(m, ops), op).0
    decreases ops
  {
    if ops == [] {
      assert [] + [op] == [op] && [op][1..] == [];
    } else {
      assert (ops + [op])[1..] == ops[1..] + [op];
      MemorySnoc(MemoryStep(m, ops[0]).0, ops[1..], op);
    }
  }

  ghost predicate Remembers(m: Memory, ops: seq<Op>) {
    && (forall id {:trigger LastWritten(ops, id)} :: Lookup(m.runs, id) == LastWritten(ops, id))
    && (forall key {:trigger FirstId(ops, key)} :: Lookup(m.idempotency, key) == FirstId(ops, key))
    && forall key {:trigger FirstId(ops, key)} :: FirstId(ops, key).Some? ==>
         LastWritten(ops, FirstId(ops, key).value).Some?
  }

  lemma StepRemembers(m: Memory, ops: seq<Op>, op: Op)
    requires Remembers(m, ops)
    ensures Remembers(MemoryStep(m, op).0, ops + [op])
  {
    assert (ops + [op])[..|ops|] == ops;
    hide HasAction, Taken;
    var m' := MemoryStep(m, op).0;
    forall key
      ensures Lookup(m'.idempotency, key) == FirstId(ops + [op], key)
      ensures FirstId(ops + [op], key).Some? ==> LastWritten(ops + [op], FirstId(ops + [op], key).value).Some?
    {
      assert FirstId(ops, key) == Lookup(m.idempotency, key);
      if op.Reserve? {
        assert FirstId(ops, op.key) == Lookup(m.idempotency, op.key);
      }
    }
    forall id ensures Lookup(m'.runs, id) == LastWritten(ops + [op], id) {
      assert LastWritten(ops, id) == Lookup(m.runs, id);
      if op.Reserve? {
        assert FirstId(ops, op.key) == Lookup(m.idempotency, op.key);
        if FirstId(ops, op.key).Some? {
          assert LastWritten(ops, FirstId(ops, op.key).value).Some?;
        }
      }
    }
  }

  lemma {:induction false} HistoryRemembers(ops: seq<Op>)
    ensures Remembers(MemoryAfter(EMPTY_MEMORY, ops), ops)
    decreases |ops|
  {
    if ops != [] {
      var front, last := ops[..|ops| - 1], ops[|ops| - 1];
      assert ops == front + [last];
      HistoryRemembers(front);
      MemorySnoc(EMPTY_MEMORY, front, last);
      StepRemembers(MemoryAfter(EMPTY_MEMORY, front), front, last);
    }
  }

  /** After any history, reading a run gives the last one written under its id, saving one is refused exactly when
      nothing was, a lease names a missing run or action exactly when what was last written says so, and a reservation
      creates its run exactly when its key was never reserved before; otherwise it answers with what was last written
      for the key's first reservation. */
  lemma ReadsWhatWasWritten(ops: seq<Op>, op: Op)
    ensures AnswersFrom(ops, op, MemoryStep(MemoryAfter(EMPTY_MEMORY, ops), op).1)
  {
    HistoryRemembers(ops);
    var m := MemoryAfter(EMPTY_MEMORY, ops);
    if op.Get? || op.Save? || op.AcquireRun? || op.AcquireAction? {
      assert LastWritten(ops, op.id) == Lookup(m.runs, op.id);
    } else if op.Reserve? {
      assert FirstId(ops, op.key) == Lookup(m.idempotency, op.key);
      if FirstId(ops, op.key).Some? {
        assert LastWritten(ops, FirstId(ops, op.key).value) == Lookup(m.runs, FirstId(ops, op.key).value);
      }
    }
    hide MemoryAfter, FirstId, LastWritten, HasAction, Taken;
  }

  /** The Firestore store reads back the same, private checkpoints included. */
  lemma FirestoreReadsWhatWasWritten(ops: seq<Op>, op: Op)
    requires AllWellPosed(EMPTY_MEMORY, ops) && WellPosed(MemoryAfter(EMPTY_MEMORY, ops), op)
    ensures AnswersFrom(ops, op, FirestoreStep(DocumentsAfter(NO_DOCUMENTS, ops), op).1)
  {
    ReadsWhatWasWritten(ops, op);
    DocumentsAgree(NO_DOCUMENTS, EMPTY_MEMORY, ops);
    hide MemoryAfter, DocumentsAfter, MemoryStep, FirestoreStep, Agree, FirstId, LastWritten, AllWellPosed;
    StepRefines(DocumentsAfter(NO_DOCUMENTS, ops), MemoryAfter(EMPTY_MEMORY, ops), op);
  }
}
