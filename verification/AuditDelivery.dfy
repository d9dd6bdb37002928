/** Delivery over the outbox (`enqueue` and `send` in scripts/rekey-audit-delivery.py), and
    what every run of them, with crashes at every step, keeps. */
module AuditDelivery {
  import opened AuditExport
  import opened AuditOutbox
  import opened WriteOnceDirectory
  import opened Outcomes

  type OutboxDisk = Disk<Name, Doc>

  // ---------------------------------------------------------------- the steps of a run

  /** The outbox opens and its journal reads as this cursor and pending batch. */
  ghost predicate Accepts(d: OutboxDisk, valid: Batch -> bool, cursor: int, pending: Option<Batch>) {
    Ready(d) && AcceptsDocs(Docs(d), valid, cursor, pending)
  }

  ghost predicate AcceptsDocs(docs: map<Name, Doc>, valid: Batch -> bool, cursor: int, pending: Option<Batch>) {
    Identity in docs && Consistent(docs, valid, cursor, pending)
  }

  ghost predicate Admitted(docs: map<Name, Doc>, valid: Batch -> bool, cursor: int, b: Batch) {
    valid(b) && b.bound.first == cursor + 1 && Total(docs) + BatchSize(b) + Reserve(b.bound) <= MAX_OUTBOX
  }

  /** The writes that `enqueue` and `send` make when the journal reads as given. */
  ghost predicate Writes(docs: map<Name, Doc>, valid: Batch -> bool, cursor: int, pending: Option<Batch>, name: Name, doc: Doc) {
    match pending
    case None => doc.BatchDoc? && Admitted(docs, valid, cursor, doc.batch) && name == BatchFile(cursor + 1)
    case Some(b) =>
      && FailureFile(cursor + 1) !in docs
      && ((name == AckFile(cursor + 1) && GoodAck(doc, b))
          || (name == FailureFile(cursor + 1) && GoodFailure(doc, b) && Size(doc) <= Reserve(b.bound)))
  }

  /** One write, killed after `steps` of its steps. */
  datatype Attempt = Attempt(cursor: int, pending: Option<Batch>, name: Name, doc: Doc, temporary: nat, steps: nat)

  ghost predicate Leaves(d: OutboxDisk, e: OutboxDisk, valid: Batch -> bool, w: Attempt) {
    && w.steps <= 6 && Accepts(d, valid, w.cursor, w.pending) && Writes(Docs(d), valid, w.cursor, w.pending, w.name, w.doc)
    && e == WriteAt(d, w.name, w.doc, w.temporary, w.steps)
  }

  ghost predicate WriteStep(d: OutboxDisk, e: OutboxDisk, valid: Batch -> bool) {
    exists w :: Leaves(d, e, valid, w)
  }

  /** A step without power loss: a write, or the operator's review of leftover partial files. */
  ghost predicate Proceeds(d: OutboxDisk, e: OutboxDisk, valid: Batch -> bool) {
    WriteStep(d, e, valid) || (Sound(d) && e == Review(d))
  }

  ghost predicate Step(d: OutboxDisk, e: OutboxDisk, valid: Batch -> bool) {
    (Sound(d) && Crash(d, e)) || Proceeds(d, e, valid)
  }

  /** A freshly initialized outbox holds its identity; the initialization may have been killed
      before it synced the directory. */
  ghost predicate Initialized(d: OutboxDisk) {
    Ready(d) && Docs(d).Keys == {Identity} && Size(Docs(d)[Identity]) <= MAX_OUTBOX
  }

  ghost predicate Run(run: seq<OutboxDisk>, valid: Batch -> bool) {
    |run| > 0 && Initialized(run[0]) && forall i :: 0 <= i < |run| - 1 ==> StepAt(run, i, valid)
  }

  ghost predicate StepAt(run: seq<OutboxDisk>, i: int, valid: Batch -> bool)
    requires 0 <= i < |run| - 1
  {
    Step(run[i], run[i + 1], valid)
  }

  /** Runs begin with an outbox that reads as empty. */
  lemma InitializedIsEmpty(d: OutboxDisk, valid: Batch -> bool)
    requires Initialized(d)
    ensures Accepts(d, valid, 0, None)
  {
    assert forall n :: n in Docs(d) ==> n == Identity;
    assert forall k :: !HasBatch(Docs(d), k);
  }

  /** A write goes to a name that is free. */
  lemma WritesAreNew(docs: map<Name, Doc>, valid: Batch -> bool, cursor: int, pending: Option<Batch>, name: Name, doc: Doc)
    requires HasWindows(valid) && Consistent(docs, valid, cursor, pending) && Writes(docs, valid, cursor, pending, name, doc)
    ensures name !in docs && name != Identity
  {
    assert name in docs ==> WellNamed(docs, name, valid);
  }

  // ---------------------------------------------------------------- capacity

  /** The files that were there when batch `n` was admitted, and that batch. */
  ghost function Below(docs: map<Name, Doc>, n: int): set<Name> {
    set m | m in docs && match m
                         case BatchFile(k) => k <= n
                         case AckFile(k) => k < n
                         case FailureFile(k) => k < n
                         case Identity => true
                         case Stray => false
  }

  /** Batch `n` was admitted with room for its result. */
  ghost predicate HasRoom(docs: map<Name, Doc>, n: int)
    requires HasBatch(docs, n)
  {
    TotalOf(docs, Below(docs, n)) + Reserve(BatchAt(docs, n).bound) <= MAX_OUTBOX
  }

  ghost predicate WithinCapacity(docs: map<Name, Doc>) {
    && (Identity in docs ==> Size(docs[Identity]) <= MAX_OUTBOX)
    && (forall n :: HasBatch(docs, n) && FailureFile(n) in docs ==> Size(docs[FailureFile(n)]) <= Reserve(BatchAt(docs, n).bound))
    && (forall n :: HasBatch(docs, n) ==> HasRoom(docs, n))
  }

  lemma CapacityOfSubset(docs: map<Name, Doc>, fewer: map<Name, Doc>)
    requires WithinCapacity(docs) && fewer.Keys <= docs.Keys && forall n :: n in fewer ==> fewer[n] == docs[n]
    ensures WithinCapacity(fewer)
  {
    forall n | HasBatch(fewer, n) ensures HasRoom(fewer, n) {
      assert HasBatch(docs, n);
      TotalMonotone(fewer, Below(fewer, n), docs, Below(docs, n));
    }
  }

  lemma CapacityOfWrite(docs: map<Name, Doc>, valid: Batch -> bool, cursor: int, pending: Option<Batch>, name: Name, doc: Doc)
    requires HasWindows(valid) && Consistent(docs, valid, cursor, pending) && Writes(docs, valid, cursor, pending, name, doc)
    requires WithinCapacity(docs)
    ensures WithinCapacity(docs[name := doc])
  {
    WritesAreNew(docs, valid, cursor, pending, name, doc);
    var more := docs[name := doc];
    forall n | HasBatch(more, n) ensures HasRoom(more, n) {
      RoomAfterWrite(docs, valid, cursor, pending, name, doc, more, n);
    }
    forall n | HasBatch(more, n) && FailureFile(n) in more
      ensures Size(more[FailureFile(n)]) <= Reserve(BatchAt(more, n).bound)
    {
      FailureAfterWrite(docs, valid, cursor, pending, name, doc, more, n);
    }
  }

  lemma RoomAfterWrite(docs: map<Name, Doc>, valid: Batch -> bool, cursor: int, pending: Option<Batch>, name: Name, doc: Doc,
                       more: map<Name, Doc>, n: int)
    requires HasWindows(valid) && Consistent(docs, valid, cursor, pending) && Writes(docs, valid, cursor, pending, name, doc)
    requires name !in docs && more == docs[name := doc] && HasBatch(more, n)
    requires HasBatch(docs, n) ==> HasRoom(docs, n)
    ensures HasRoom(more, n)
  {
    if name == BatchFile(n) {
      TotalWith(docs, name, doc);
      TotalMonotone(more, Below(more, n), more, more.Keys);
    } else {
      BatchesReach(docs, valid, cursor, pending, n);
      BelowIsUntouched(docs, name, doc, n);
    }
  }

  lemma FailureAfterWrite(docs: map<Name, Doc>, valid: Batch -> bool, cursor: int, pending: Option<Batch>, name: Name, doc: Doc,
                          more: map<Name, Doc>, n: int)
    requires HasWindows(valid) && Consistent(docs, valid, cursor, pending) && Writes(docs, valid, cursor, pending, name, doc)
    requires name !in docs && more == docs[name := doc] && HasBatch(more, n) && FailureFile(n) in more
    requires HasBatch(docs, n) && FailureFile(n) in docs ==> Size(docs[FailureFile(n)]) <= Reserve(BatchAt(docs, n).bound)
    ensures Size(more[FailureFile(n)]) <= Reserve(BatchAt(more, n).bound)
  {
    assert FailureFile(n) in docs ==> WellNamed(docs, FailureFile(n), valid);
  }

  lemma BelowIsUntouched(docs: map<Name, Doc>, name: Name, doc: Doc, n: int)
    requires name !in docs && name != Identity && name != Stray
    requires if name.BatchFile? then n < name.first else n <= name.first
    ensures TotalOf(docs[name := doc], Below(docs[name := doc], n)) == TotalOf(docs, Below(docs, n))
  {
    var more := docs[name := doc];
    assert Below(more, n) == Below(docs, n);
    TotalMonotone(more, Below(docs, n), docs, Below(docs, n));
    TotalMonotone(docs, Below(docs, n), more, Below(docs, n));
  }

  lemma BatchesReach(docs: map<Name, Doc>, valid: Batch -> bool, cursor: int, pending: Option<Batch>, n: int)
    requires HasWindows(valid) && Consistent(docs, valid, cursor, pending) && HasBatch(docs, n)
    ensures n <= if pending.None? then cursor else cursor + 1
    ensures n == cursor + 1 <==> !Acked(docs, n)
  {
    assert WellNamed(docs, BatchFile(n), valid);
  }

  /** Whatever the journal accepts fits, and a batch that waits for its result leaves room for it. */
  lemma CapacityIsConserved(docs: map<Name, Doc>, valid: Batch -> bool, cursor: int, pending: Option<Batch>)
    requires HasWindows(valid) && Consistent(docs, valid, cursor, pending) && WithinCapacity(docs)
    ensures Total(docs) <= MAX_OUTBOX
    ensures pending.Some? && FailureFile(cursor + 1) !in docs ==>
              Total(docs) + Reserve(pending.value.bound) <= MAX_OUTBOX
  {
    if pending.Some? {
      LastFile(docs, valid, cursor, pending, cursor + 1, FailureFile(cursor + 1));
      if FailureFile(cursor + 1) in docs {
        assert HasBatch(docs, cursor + 1);
      }
    } else if cursor == 0 {
      OnlyIdentity(docs, valid);
    } else {
      LastAckFits(docs, valid, cursor);
    }
  }

  lemma OnlyIdentity(docs: map<Name, Doc>, valid: Batch -> bool)
    requires HasWindows(valid) && Consistent(docs, valid, 0, None) && WithinCapacity(docs)
    ensures Total(docs) <= MAX_OUTBOX
  {
    forall n | n in docs ensures n == Identity {
      assert WellNamed(docs, n, valid);
      assert n != Identity ==> HasBatch(docs, n.first) && WellNamed(docs, BatchFile(n.first), valid);
    }
    if Identity in docs {
      TotalWithout(docs, docs.Keys, Identity);
      assert docs.Keys - {Identity} == {};
    } else {
      assert docs.Keys == {};
    }
  }

  lemma LastAckFits(docs: map<Name, Doc>, valid: Batch -> bool, cursor: int)
    requires HasWindows(valid) && Consistent(docs, valid, cursor, None) && WithinCapacity(docs) && cursor > 0
    ensures Total(docs) <= MAX_OUTBOX
  {
    assert InAckedWindow(docs, cursor);
    var n :| Acked(docs, n) && n <= cursor <= BatchAt(docs, n).bound.last;
    LastFile(docs, valid, cursor, None, n, AckFile(n));
    AckedResultFits(docs, valid, n);
  }

  lemma AckedResultFits(docs: map<Name, Doc>, valid: Batch -> bool, n: int)
    requires Acked(docs, n) && WellNamed(docs, AckFile(n), valid)
    ensures Size(docs[AckFile(n)]) <= Reserve(BatchAt(docs, n).bound)
  {
    AckFitsReserve(BatchAt(docs, n).bound, docs[AckFile(n)].ackedAt);
  }

  /** Batch `n` being the last, only its own result lies outside what was there before it. */
  lemma LastFile(docs: map<Name, Doc>, valid: Batch -> bool, cursor: int, pending: Option<Batch>, n: int, result: Name)
    requires HasWindows(valid) && Consistent(docs, valid, cursor, pending) && HasBatch(docs, n)
    requires if pending.Some? then n == cursor + 1 && result == FailureFile(n)
             else n <= cursor <= BatchAt(docs, n).bound.last && result == AckFile(n)
    ensures Total(docs) == TotalOf(docs, Below(docs, n)) + if result in docs then Size(docs[result]) else 0
  {
    forall m | m in docs && m != result ensures m in Below(docs, n) {
      assert WellNamed(docs, m, valid);
      if m != Identity {
        BatchesReach(docs, valid, cursor, pending, m.first);
        assert WellNamed(docs, BatchFile(m.first), valid);
      }
    }
    assert result !in Below(docs, n);
    if result in docs {
      TotalWithout(docs, docs.Keys, result);
      assert docs.Keys - {result} == Below(docs, n);
    } else {
      assert docs.Keys == Below(docs, n);
    }
  }

  // ---------------------------------------------------------------- every run

  /** Nothing durable goes away or changes. */
  ghost predicate Keeps(d: OutboxDisk, e: OutboxDisk) {
    Sound(d) && Sound(e) && d.durable <= e.durable && forall n :: n in d.durable ==> Docs(e)[n] == Docs(d)[n]
  }

  lemma KeepsIsTransitive(d: OutboxDisk, e: OutboxDisk, f: OutboxDisk)
    requires Keeps(d, e) && Keeps(e, f)
    ensures Keeps(d, f)
  {
  }

  lemma CrashKeepsCapacity(d: OutboxDisk, e: OutboxDisk)
    requires Sound(d) && WithinCapacity(Docs(d)) && Crash(d, e)
    ensures Keeps(d, e) && WithinCapacity(Docs(e))
  {
    CrashDocs(d, e);
    CapacityOfSubset(Docs(d), Docs(e));
  }

  lemma WriteKeepsCapacity(d: OutboxDisk, valid: Batch -> bool, cursor: int, pending: Option<Batch>, name: Name, doc: Doc,
                           temporary: nat, k: nat)
    requires HasWindows(valid) && Accepts(d, valid, cursor, pending) && WithinCapacity(Docs(d))
    requires Writes(Docs(d), valid, cursor, pending, name, doc) && k <= 6
    ensures Keeps(d, WriteAt(d, name, doc, temporary, k)) && WithinCapacity(Docs(WriteAt(d, name, doc, temporary, k)))
  {
    WritesAreNew(Docs(d), valid, cursor, pending, name, doc);
    WriteKeepsNames(d, name, doc, temporary, k);
    CapacityOfWrite(Docs(d), valid, cursor, pending, name, doc);
  }

  lemma WriteKeepsNames(d: OutboxDisk, name: Name, doc: Doc, temporary: nat, k: nat)
    requires Ready(d) && name !in d.files && k <= 6
    ensures Keeps(d, WriteAt(d, name, doc, temporary, k))
    ensures Docs(WriteAt(d, name, doc, temporary, k)) in {Docs(d), Docs(d)[name := doc]}
  {
    KilledAt(d, name, doc, temporary, k);
  }

  lemma StepKeepsCapacity(d: OutboxDisk, e: OutboxDisk, valid: Batch -> bool)
    requires HasWindows(valid) && Sound(d) && WithinCapacity(Docs(d)) && Step(d, e, valid)
    ensures Keeps(d, e) && WithinCapacity(Docs(e))
  {
    if Crash(d, e) {
      CrashKeepsCapacity(d, e);
    } else if WriteStep(d, e, valid) {
      var w :| Leaves(d, e, valid, w);
      WriteKeepsCapacity(d, valid, w.cursor, w.pending, w.name, w.doc, w.temporary, w.steps);
    }
  }

  lemma {:induction false} RunKeepsCapacity(run: seq<OutboxDisk>, valid: Batch -> bool, i: nat)
    requires HasWindows(valid) && Run(run, valid) && i < |run|
    ensures Sound(run[i]) && WithinCapacity(Docs(run[i]))
  {
    if i > 0 {
      RunKeepsCapacity(run, valid, i - 1);
      assert StepAt(run, i - 1, valid);
      StepKeepsCapacity(run[i - 1], run[i], valid);
    }
  }

  /** Over every run, with a crash possible at every step: what the outbox accepts is within
      the limit, and completing a pending batch never needs room that is not there. */
  lemma CapacityOverEveryRun(run: seq<OutboxDisk>, valid: Batch -> bool, i: nat, cursor: int, pending: Option<Batch>,
                             name: Name, doc: Doc)
    requires HasWindows(valid) && Run(run, valid) && i < |run| && Accepts(run[i], valid, cursor, pending)
    ensures Total(Docs(run[i])) <= MAX_OUTBOX
    ensures Writes(Docs(run[i]), valid, cursor, pending, name, doc) ==> Total(Docs(run[i])[name := doc]) <= MAX_OUTBOX
  {
    var docs := Docs(run[i]);
    RunKeepsCapacity(run, valid, i);
    CapacityIsConserved(docs, valid, cursor, pending);
    if Writes(docs, valid, cursor, pending, name, doc) {
      WritesAreNew(docs, valid, cursor, pending, name, doc);
      TotalWith(docs, name, doc);
      if pending.Some? {
        if doc.AckDoc? {
          AckFitsReserve(pending.value.bound, doc.ackedAt);
        }
      }
    }
  }

  lemma {:induction false} DurablePersists(run: seq<OutboxDisk>, valid: Batch -> bool, i: nat, j: nat)
    requires HasWindows(valid) && Run(run, valid) && i <= j < |run|
    ensures Keeps(run[i], run[j])
    decreases j
  {
    RunKeepsCapacity(run, valid, i);
    if i < j {
      RunKeepsCapacity(run, valid, j - 1);
      assert StepAt(run, j - 1, valid);
      DurablePersists(run, valid, i, j - 1);
      StepKeepsCapacity(run[j - 1], run[j], valid);
      KeepsIsTransitive(run[i], run[j - 1], run[j]);
    }
  }

  // ---------------------------------------------------------------- atomicity of one write

  function CursorAfter(cursor: int, doc: Doc): int {
    if doc.AckDoc? && doc.ack.Ack? then doc.ack.bound.last else cursor
  }

  function PendingAfter(pending: Option<Batch>, doc: Doc): Option<Batch> {
    match doc
    case BatchDoc(batch) => Some(batch)
    case AckDoc(_, _) => None
    case _ => pending
  }

  /** With nothing pending, no file is above the cursor. */
  lemma NothingAbove(docs: map<Name, Doc>, valid: Batch -> bool, cursor: int, n: Name)
    requires HasWindows(valid) && Consistent(docs, valid, cursor, None) && n in docs && n != Identity
    ensures n.BatchFile? || n.AckFile?
    ensures Acked(docs, n.first) && BatchAt(docs, n.first).bound.first == n.first
    ensures n.first <= BatchAt(docs, n.first).bound.last <= cursor
  {
    assert WellNamed(docs, n, valid);
    assert HasBatch(docs, n.first) && WellNamed(docs, BatchFile(n.first), valid);
  }

  lemma WindowStays(docs: map<Name, Doc>, more: map<Name, Doc>, s: int)
    requires docs.Keys <= more.Keys && (forall n :: n in docs ==> more[n] == docs[n]) && InAckedWindow(docs, s)
    ensures InAckedWindow(more, s)
  {
    var k :| Acked(docs, k) && k <= s <= BatchAt(docs, k).bound.last;
    assert Acked(more, k) && BatchAt(more, k) == BatchAt(docs, k);
  }

  /** A batch admitted with nothing pending becomes the pending one. */
  lemma QueueAdvances(docs: map<Name, Doc>, valid: Batch -> bool, cursor: int, b: Batch, more: map<Name, Doc>)
    requires HasWindows(valid) && Consistent(docs, valid, cursor, None) && valid(b) && b.bound.first == cursor + 1
    requires more == docs[BatchFile(cursor + 1) := BatchDoc(b)]
    ensures Consistent(more, valid, cursor, Some(b))
  {
    forall n | n in more ensures WellNamed(more, n, valid) {
      if n in docs && n != Identity {
        assert WellNamed(docs, n, valid);
        NothingAbove(docs, valid, cursor, n);
      }
    }
    forall s | 1 <= s <= cursor ensures InAckedWindow(more, s) {
      assert InAckedWindow(docs, s);
      WindowStays(docs, more, s);
    }
    forall k | HasBatch(more, k)
      ensures k == cursor + 1 || (HasBatch(docs, k) && Acked(more, k) && k <= BatchAt(more, k).bound.last <= cursor)
    {
      if k != cursor + 1 {
        NothingAbove(docs, valid, cursor, BatchFile(k));
      }
    }
    assert AckFile(cursor + 1) !in docs by {
      if AckFile(cursor + 1) in docs {
        NothingAbove(docs, valid, cursor, AckFile(cursor + 1));
      }
    }
    assert IsPending(more, cursor, b);
  }

  /** The other batches, with one pending. */
  lemma BelowPending(docs: map<Name, Doc>, valid: Batch -> bool, cursor: int, b: Batch, k: int)
    requires HasWindows(valid) && Consistent(docs, valid, cursor, Some(b)) && HasBatch(docs, k)
    ensures k <= BatchAt(docs, k).bound.last && BatchAt(docs, k).bound.first == k
    ensures if k == cursor + 1 then BatchAt(docs, k) == b && !Acked(docs, k)
            else Acked(docs, k) && BatchAt(docs, k).bound.last <= cursor
  {
    assert WellNamed(docs, BatchFile(k), valid);
  }

  /** Its acknowledgement moves the cursor to its end. */
  lemma AckAdvances(docs: map<Name, Doc>, valid: Batch -> bool, cursor: int, b: Batch, doc: Doc, more: map<Name, Doc>)
    requires HasWindows(valid) && Consistent(docs, valid, cursor, Some(b)) && GoodAck(doc, b)
    requires FailureFile(cursor + 1) !in docs && more == docs[AckFile(cursor + 1) := doc]
    ensures Consistent(more, valid, b.bound.last, None)
  {
    BelowPending(docs, valid, cursor, b, cursor + 1);
    forall n | n in more ensures WellNamed(more, n, valid) {
      assert n != AckFile(cursor + 1) ==> WellNamed(docs, n, valid);
    }
    forall s | 1 <= s <= b.bound.last ensures InAckedWindow(more, s) {
      if s <= cursor {
        assert InAckedWindow(docs, s);
        WindowStays(docs, more, s);
      } else {
        assert Acked(more, cursor + 1) && BatchAt(more, cursor + 1) == b;
      }
    }
    forall k | HasBatch(more, k)
      ensures HasBatch(docs, k) && BatchAt(more, k) == BatchAt(docs, k) && Acked(more, k) && BatchAt(more, k).bound.last <= b.bound.last
    {
      BelowPending(docs, valid, cursor, b, k);
    }
  }

  /** A failure leaves it pending. */
  lemma FailureAdvances(docs: map<Name, Doc>, valid: Batch -> bool, cursor: int, b: Batch, doc: Doc, more: map<Name, Doc>)
    requires HasWindows(valid) && Consistent(docs, valid, cursor, Some(b)) && GoodFailure(doc, b)
    requires more == docs[FailureFile(cursor + 1) := doc]
    ensures Consistent(more, valid, cursor, Some(b))
  {
    BelowPending(docs, valid, cursor, b, cursor + 1);
    forall n | n in more ensures WellNamed(more, n, valid) {
      assert n != FailureFile(cursor + 1) ==> WellNamed(docs, n, valid);
    }
    forall s | 1 <= s <= cursor ensures InAckedWindow(more, s) {
      assert InAckedWindow(docs, s);
      assert docs.Keys <= more.Keys && forall n :: n in docs && n != FailureFile(cursor + 1) ==> more[n] == docs[n];
      var k :| Acked(docs, k) && k <= s <= BatchAt(docs, k).bound.last;
      assert Acked(more, k) && BatchAt(more, k) == BatchAt(docs, k);
    }
    assert forall k :: HasBatch(more, k) ==> HasBatch(docs, k) && BatchAt(more, k) == BatchAt(docs, k);
    assert forall k :: Acked(more, k) <==> Acked(docs, k);
  }

  /** Each write takes the journal to its next state: a batch becomes pending, its
      acknowledgement moves the cursor to its end, a failure leaves it pending. */
  lemma WriteAdvances(docs: map<Name, Doc>, valid: Batch -> bool, cursor: int, pending: Option<Batch>, name: Name, doc: Doc)
    requires HasWindows(valid) && Consistent(docs, valid, cursor, pending) && Writes(docs, valid, cursor, pending, name, doc)
    ensures Consistent(docs[name := doc], valid, CursorAfter(cursor, doc), PendingAfter(pending, doc))
  {
    match pending
    case None => QueueAdvances(docs, valid, cursor, doc.batch, docs[name := doc]);
    case Some(b) =>
      if doc.AckDoc? {
        AckAdvances(docs, valid, cursor, b, doc, docs[name := doc]);
      } else {
        FailureAdvances(docs, valid, cursor, b, doc, docs[name := doc]);
      }
  }

  /** Began on a synced directory, a write is atomic: after power loss at any of its steps the
      outbox either is refused for a leftover partial file or reads as before or after it. */
  lemma WriteIsAtomic(d: OutboxDisk, valid: Batch -> bool, cursor: int, pending: Option<Batch>, name: Name, doc: Doc,
                      temporary: nat, k: nat, e: OutboxDisk)
    requires HasWindows(valid) && Accepts(d, valid, cursor, pending) && Writes(Docs(d), valid, cursor, pending, name, doc)
    requires Settled(d) && k <= 6 && Crash(WriteAt(d, name, doc, temporary, k), e)
    ensures Sound(e)
    ensures AcceptsDocs(Docs(e), valid, cursor, pending)
            || (k >= 4 && AcceptsDocs(Docs(e), valid, CursorAfter(cursor, doc), PendingAfter(pending, doc)))
    ensures k == 6 ==> AcceptsDocs(Docs(e), valid, CursorAfter(cursor, doc), PendingAfter(pending, doc))
  {
    WritesAreNew(Docs(d), valid, cursor, pending, name, doc);
    WriteAdvances(Docs(d), valid, cursor, pending, name, doc);
    var c := CrashIsAtomic(d, name, doc, temporary, k, e);
    SettledCrash(d, c);
  }

  lemma SettledCrash(d: OutboxDisk, e: OutboxDisk)
    requires Sound(d) && Settled(d) && Crash(d, e)
    ensures Sound(e) && Docs(e) == Docs(d)
  {
    CrashDocs(d, e);
  }

  /** A process killed instead of the machine leaves the same two possibilities. */
  lemma KillIsAtomic(d: OutboxDisk, valid: Batch -> bool, cursor: int, pending: Option<Batch>, name: Name, doc: Doc,
                     temporary: nat, k: nat)
    requires HasWindows(valid) && Accepts(d, valid, cursor, pending) && Writes(Docs(d), valid, cursor, pending, name, doc)
    requires k <= 6
    ensures var e := WriteAt(d, name, doc, temporary, k);
            if k == 0 then Accepts(e, valid, cursor, pending)
            else if k <= 4 then !Ready(e)
            else Accepts(e, valid, CursorAfter(cursor, doc), PendingAfter(pending, doc))
  {
    WritesAreNew(Docs(d), valid, cursor, pending, name, doc);
    WriteAdvances(Docs(d), valid, cursor, pending, name, doc);
    KilledAt(d, name, doc, temporary, k);
  }

  /** Without its batch, a result is an orphan. */
  lemma LosingABatch(docs: map<Name, Doc>, valid: Batch -> bool, name: Name, doc: Doc, k: int, rest: map<Name, Doc>)
    requires BatchFile(k) in docs && rest == docs[name := doc] - {BatchFile(k)}
    requires AckFile(k) in docs || name == AckFile(k) || name == FailureFile(k)
    ensures exists n :: n in rest && !WellNamed(rest, n, valid)
  {
    if AckFile(k) in rest {
      assert !WellNamed(rest, AckFile(k), valid);
    } else {
      assert !WellNamed(rest, FailureFile(k), valid);
    }
  }

  /** Without its acknowledgement batch `k` is not acknowledged. */
  lemma LosingAnAck(docs: map<Name, Doc>, valid: Batch -> bool, cursor: int, pending: Option<Batch>, name: Name, doc: Doc,
                    k: int, rest: map<Name, Doc>)
    requires HasWindows(valid) && Consistent(docs, valid, cursor, pending)
    requires name !in docs && AckFile(k) in docs && rest == docs[name := doc] - {AckFile(k)}
    ensures HasBatch(rest, k) && !Acked(rest, k) && k <= cursor && BatchAt(rest, k).bound.first == k
  {
    assert WellNamed(docs, AckFile(k), valid) && WellNamed(docs, BatchFile(k), valid);
  }

  lemma PendingIsThere(docs: map<Name, Doc>, valid: Batch -> bool, cursor: int, b: Batch)
    requires HasWindows(valid) && Consistent(docs, valid, cursor, Some(b))
    ensures HasBatch(docs, cursor + 1) && BatchAt(docs, cursor + 1).bound.first == cursor + 1
    ensures cursor < BatchAt(docs, cursor + 1).bound.last
  {
    assert IsPending(docs, cursor, b) && WellNamed(docs, BatchFile(cursor + 1), valid);
  }

  /** The batch that the write concerns is there after it. */
  lemma NextBatchIsThere(docs: map<Name, Doc>, valid: Batch -> bool, cursor: int, pending: Option<Batch>, name: Name, doc: Doc)
    requires HasWindows(valid) && Consistent(docs, valid, cursor, pending) && Writes(docs, valid, cursor, pending, name, doc)
    ensures var more := docs[name := doc];
            HasBatch(more, cursor + 1) && BatchAt(more, cursor + 1).bound.first == cursor + 1
            && cursor < BatchAt(more, cursor + 1).bound.last
  {
    match pending
    case None =>
    case Some(b) => PendingIsThere(docs, valid, cursor, b);
  }

  /** It is still there if a name other than its own is lost. */
  lemma NextBatchStays(docs: map<Name, Doc>, valid: Batch -> bool, cursor: int, pending: Option<Batch>, name: Name, doc: Doc,
                       k: int, rest: map<Name, Doc>)
    requires HasWindows(valid) && Consistent(docs, valid, cursor, pending) && Writes(docs, valid, cursor, pending, name, doc)
    requires rest == docs[name := doc] - {AckFile(k)}
    ensures HasBatch(rest, cursor + 1) && BatchAt(rest, cursor + 1).bound.first == cursor + 1
    ensures cursor < BatchAt(rest, cursor + 1).bound.last
  {
    NextBatchIsThere(docs, valid, cursor, pending, name, doc);
    assert BatchFile(cursor + 1) in rest && rest[BatchFile(cursor + 1)] == docs[name := doc][BatchFile(cursor + 1)];
  }

  /** Two batches without acknowledgements are one too many. */
  lemma TwoUnacked(docs: map<Name, Doc>, valid: Batch -> bool, k: int, next: int, c: int, p: Option<Batch>)
    requires k < next && HasBatch(docs, k) && !Acked(docs, k) && BatchAt(docs, k).bound.first == k
    requires HasBatch(docs, next) && BatchAt(docs, next).bound.first == next && BatchAt(docs, next).bound.last >= next
    ensures !Consistent(docs, valid, c, p)
  {
  }

  lemma LosingAnAckName(docs: map<Name, Doc>, valid: Batch -> bool, cursor: int, pending: Option<Batch>, name: Name, doc: Doc,
                        k: int, rest: map<Name, Doc>, c: int, p: Option<Batch>)
    requires HasWindows(valid) && Consistent(docs, valid, cursor, pending) && Writes(docs, valid, cursor, pending, name, doc)
    requires name !in docs && AckFile(k) in docs && rest == docs[name := doc] - {AckFile(k)}
    ensures !Consistent(rest, valid, c, p)
  {
    LosingAnAck(docs, valid, cursor, pending, name, doc, k, rest);
    NextBatchStays(docs, valid, cursor, pending, name, doc, k, rest);
    TwoUnacked(rest, valid, k, cursor + 1, c, p);
  }

  lemma LosingAName(docs: map<Name, Doc>, valid: Batch -> bool, cursor: int, pending: Option<Batch>, name: Name, doc: Doc,
                    lost: Name, c: int, p: Option<Batch>)
    requires HasWindows(valid) && AcceptsDocs(docs, valid, cursor, pending) && Writes(docs, valid, cursor, pending, name, doc)
    requires lost in docs && name !in docs
    ensures !AcceptsDocs(docs[name := doc] - {lost}, valid, c, p)
  {
    var rest := docs[name := doc] - {lost};
    assert WellNamed(docs, lost, valid);
    match lost
    case Identity =>
    case BatchFile(k) =>
      BatchesReach(docs, valid, cursor, pending, k);
      LosingABatch(docs, valid, name, doc, k, rest);
    case AckFile(k) =>
      LosingAnAckName(docs, valid, cursor, pending, name, doc, k, rest, c, p);
    case FailureFile(k) => BatchesReach(docs, valid, cursor, pending, k);
  }

  /** If power is lost after `k` steps leaving `e`, its journal is that before the write or that
      after it. */
  ghost predicate Survives(d: OutboxDisk, valid: Batch -> bool, cursor: int, pending: Option<Batch>, name: Name, doc: Doc,
                           temporary: nat, k: nat, e: OutboxDisk)
    requires k <= 6
  {
    Crash(WriteAt(d, name, doc, temporary, k), e) ==>
      && Sound(e)
      && (AcceptsDocs(Docs(e), valid, cursor, pending)
          || AcceptsDocs(Docs(e), valid, CursorAfter(cursor, doc), PendingAfter(pending, doc)))
  }

  lemma UnsettledCanStrand(d: OutboxDisk, valid: Batch -> bool, cursor: int, pending: Option<Batch>,
                           name: Name, doc: Doc, temporary: nat) returns (e: OutboxDisk)
    requires HasWindows(valid) && Accepts(d, valid, cursor, pending) && Writes(Docs(d), valid, cursor, pending, name, doc)
    requires !Settled(d)
    ensures Crash(WriteAt(d, name, doc, temporary, 5), e) && Sound(e)
    ensures forall c, p :: !AcceptsDocs(Docs(e), valid, c, p)
  {
    assert !(d.files.Keys <= d.durable);
    var lost :| lost in d.files && lost !in d.durable;
    WritesAreNew(Docs(d), valid, cursor, pending, name, doc);
    e := Stranded(d, name, doc, temporary, lost);
    forall c, p ensures !AcceptsDocs(Docs(e), valid, c, p) {
      LosingAName(Docs(d), valid, cursor, pending, name, doc, lost, c, p);
    }
  }

  lemma SettledSurvives(d: OutboxDisk, valid: Batch -> bool, cursor: int, pending: Option<Batch>, name: Name, doc: Doc,
                        temporary: nat, k: nat, e: OutboxDisk)
    requires HasWindows(valid) && Accepts(d, valid, cursor, pending) && Writes(Docs(d), valid, cursor, pending, name, doc)
    requires Settled(d) && k <= 6
    ensures Survives(d, valid, cursor, pending, name, doc, temporary, k, e)
  {
    if Crash(WriteAt(d, name, doc, temporary, k), e) {
      WriteIsAtomic(d, valid, cursor, pending, name, doc, temporary, k, e);
    }
  }

  lemma StrandedFails(d: OutboxDisk, valid: Batch -> bool, cursor: int, pending: Option<Batch>, name: Name, doc: Doc,
                      temporary: nat, k: nat, e: OutboxDisk)
    requires k <= 6 && Crash(WriteAt(d, name, doc, temporary, k), e)
    requires Sound(e) && forall c, p :: !AcceptsDocs(Docs(e), valid, c, p)
    ensures !Survives(d, valid, cursor, pending, name, doc, temporary, k, e)
  {
  }

  /** Exactly when power loss during a write leaves the journal before it or the journal after
      it: when no earlier link still waits for its directory sync, which takes a kill between the
      unlink and the sync of that earlier write. Otherwise it may leave none that can be read. */
  lemma AtomicExactlyWhenSettled(d: OutboxDisk, valid: Batch -> bool, cursor: int, pending: Option<Batch>,
                                 name: Name, doc: Doc, temporary: nat)
    requires HasWindows(valid) && Accepts(d, valid, cursor, pending) && Writes(Docs(d), valid, cursor, pending, name, doc)
    ensures Settled(d) <==> forall k: nat, e | k <= 6 :: Survives(d, valid, cursor, pending, name, doc, temporary, k, e)
  {
    if Settled(d) {
      forall k: nat, e | k <= 6 ensures Survives(d, valid, cursor, pending, name, doc, temporary, k, e) {
        SettledSurvives(d, valid, cursor, pending, name, doc, temporary, k, e);
      }
    } else {
      var e := UnsettledCanStrand(d, valid, cursor, pending, name, doc, temporary);
      StrandedFails(d, valid, cursor, pending, name, doc, temporary, 5, e);
    }
  }

  /** The crash, after the fifth step, that keeps the new link and loses an earlier one. */
  lemma Stranded(d: OutboxDisk, name: Name, doc: Doc, temporary: nat, lost: Name) returns (e: OutboxDisk)
    requires Ready(d) && name !in d.files && lost in d.files && lost !in d.durable
    ensures Crash(WriteAt(d, name, doc, temporary, 5), e) && Sound(e)
    ensures Docs(e) == Docs(d)[name := doc] - {lost}
  {
    var w := WriteAt(d, name, doc, temporary, 5);
    Steps(d, name, doc, temporary, 5);
    KilledAt(d, name, doc, temporary, 5);
    e := Disk(w.files - {lost}, w.files.Keys - {lost}, map[], {}, {});
    CrashDocs(w, e);
  }
}
