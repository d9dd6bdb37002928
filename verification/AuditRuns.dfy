/** What every run of the delivery outbox comes to: when its journal can be read, what has then
    been delivered, and when the cursor it shows can be relied on. */
module AuditRuns {
  import opened AuditExport
  import opened AuditOutbox
  import opened AuditDelivery
  import opened WriteOnceDirectory
  import opened Outcomes

  // ---------------------------------------------------------------- the journal can be read

  ghost predicate Readable(d: OutboxDisk, valid: Batch -> bool) {
    Sound(d) && exists c, p :: AcceptsDocs(Docs(d), valid, c, p)
  }

  /** Also after any power loss. */
  ghost predicate Robust(d: OutboxDisk, valid: Batch -> bool) {
    Readable(d, valid) && forall e :: Crash(d, e) ==> Readable(e, valid)
  }

  ghost predicate WithoutPowerLoss(run: seq<OutboxDisk>, valid: Batch -> bool, i: nat, j: nat)
    requires i <= j < |run|
  {
    forall k :: i <= k < j ==> Proceeds(run[k], run[k + 1], valid)
  }

  /** No write begins while an earlier name still waits for its directory sync, and neither did
      the run. */
  ghost predicate WritesBeginSettled(run: seq<OutboxDisk>, valid: Batch -> bool)
    requires |run| > 0
  {
    Settled(run[0]) && forall k :: 0 <= k < |run| - 1 && WriteStep(run[k], run[k + 1], valid) ==> Settled(run[k])
  }

  lemma ProceedsStaysReadable(d: OutboxDisk, e: OutboxDisk, valid: Batch -> bool)
    requires HasWindows(valid) && Readable(d, valid) && Proceeds(d, e, valid)
    ensures Readable(e, valid)
  {
    if WriteStep(d, e, valid) {
      var w :| Leaves(d, e, valid, w);
      WritesAreNew(Docs(d), valid, w.cursor, w.pending, w.name, w.doc);
      WriteAdvances(Docs(d), valid, w.cursor, w.pending, w.name, w.doc);
      WriteKeepsNames(d, w.name, w.doc, w.temporary, w.steps);
      assert AcceptsDocs(Docs(d), valid, w.cursor, w.pending);
      assert AcceptsDocs(Docs(d)[w.name := w.doc], valid, CursorAfter(w.cursor, w.doc), PendingAfter(w.pending, w.doc));
    } else {
      assert Docs(e) == Docs(d);
    }
  }

  /** A write that began settled leaves a journal that any power loss leaves readable. */
  lemma SettledWriteIsRobust(d: OutboxDisk, e: OutboxDisk, valid: Batch -> bool)
    requires HasWindows(valid) && Readable(d, valid) && Settled(d) && WriteStep(d, e, valid)
    ensures Robust(e, valid)
  {
    ProceedsStaysReadable(d, e, valid);
    var w :| Leaves(d, e, valid, w);
    forall f | Crash(e, f) ensures Readable(f, valid) {
      WriteIsAtomic(d, valid, w.cursor, w.pending, w.name, w.doc, w.temporary, w.steps, f);
    }
  }

  lemma CrashIsRobust(d: OutboxDisk, e: OutboxDisk, valid: Batch -> bool)
    requires Robust(d, valid) && Crash(d, e)
    ensures Robust(e, valid)
  {
    CrashDocs(d, e);
    forall f | Crash(e, f) ensures Readable(f, valid) {
      SettledCrash(e, f);
    }
  }

  lemma ReviewIsRobust(d: OutboxDisk, valid: Batch -> bool)
    requires Robust(d, valid)
    ensures Robust(Review(d), valid)
  {
    assert Docs(Review(d)) == Docs(d);
    forall f | Crash(Review(d), f) ensures Readable(f, valid) {
      var c := CrashAfterReview(d, f);
      assert Readable(c, valid);
    }
  }

  lemma InitializedIsRobust(d: OutboxDisk, valid: Batch -> bool)
    requires Initialized(d) && Settled(d)
    ensures Robust(d, valid)
  {
    InitializedIsEmpty(d, valid);
    forall e | Crash(d, e) ensures Readable(e, valid) {
      SettledCrash(d, e);
    }
  }

  /** (a) Without power loss, every state of every run can be read, whatever was killed. */
  lemma {:induction false} RunsStayReadable(run: seq<OutboxDisk>, valid: Batch -> bool, i: nat)
    requires HasWindows(valid) && Run(run, valid) && i < |run| && WithoutPowerLoss(run, valid, 0, i)
    ensures Readable(run[i], valid)
  {
    if i == 0 {
      InitializedIsEmpty(run[0], valid);
    } else {
      RunsStayReadable(run, valid, i - 1);
      ProceedsStaysReadable(run[i - 1], run[i], valid);
    }
  }

  /** (b) With power losses, every state can, and after any further power loss, if each write
      begins settled. */
  lemma {:induction false} SettledRunsAreRobust(run: seq<OutboxDisk>, valid: Batch -> bool, i: nat)
    requires HasWindows(valid) && Run(run, valid) && WritesBeginSettled(run, valid) && i < |run|
    ensures Robust(run[i], valid)
  {
    if i == 0 {
      InitializedIsRobust(run[0], valid);
    } else {
      SettledRunsAreRobust(run, valid, i - 1);
      assert StepAt(run, i - 1, valid);
      if WriteStep(run[i - 1], run[i], valid) {
        SettledWriteIsRobust(run[i - 1], run[i], valid);
      } else if Crash(run[i - 1], run[i]) {
        CrashIsRobust(run[i - 1], run[i], valid);
      } else {
        ReviewIsRobust(run[i - 1], valid);
      }
    }
  }

  // ---------------------------------------------------------------- what was delivered

  /** The journal reads, every sequence from 1 to its cursor and no other was acknowledged in
      exactly one batch and stands in exactly one row of it, and at most one batch is pending. */
  ghost predicate Delivered(docs: map<Name, Doc>, source: string, vault: string) {
    exists c, p :: AcceptsDocs(docs, ValidFor(source, vault), c, p) && DeliveredUpTo(docs, c) && OnlyPending(docs, p)
  }

  ghost predicate DeliveredUpTo(docs: map<Name, Doc>, cursor: int) {
    forall s :: DeliveredOnce(docs, cursor, s)
  }

  ghost predicate DeliveredOnce(docs: map<Name, Doc>, cursor: int, s: int) {
    && (1 <= s <= cursor <==> exists k :: Delivers(docs, k, s))
    && (forall k, m :: Delivers(docs, k, s) && Delivers(docs, m, s) ==> k == m)
  }

  ghost predicate OnlyPending(docs: map<Name, Doc>, pending: Option<Batch>) {
    forall k :: HasBatch(docs, k) && !Acked(docs, k) ==> pending == Some(BatchAt(docs, k))
  }

  lemma ReadableIsDelivered(d: OutboxDisk, source: string, vault: string)
    requires Readable(d, ValidFor(source, vault))
    ensures Delivered(Docs(d), source, vault)
  {
    var docs := Docs(d);
    var c, p :| AcceptsDocs(docs, ValidFor(source, vault), c, p);
    forall s ensures DeliveredOnce(docs, c, s) {
      DeliveredExactlyOnce(docs, source, vault, c, p, s);
    }
    assert DeliveredUpTo(docs, c) && OnlyPending(docs, p);
  }

  /** Over every run of `enqueue` and `send`, killed at any step: the acknowledged windows
      partition 1 to the cursor, and at most one batch is pending. */
  lemma DeliveredOverEveryKilledRun(run: seq<OutboxDisk>, source: string, vault: string, i: nat)
    requires Run(run, ValidFor(source, vault)) && i < |run| && WithoutPowerLoss(run, ValidFor(source, vault), 0, i)
    ensures Sound(run[i]) && Delivered(Docs(run[i]), source, vault)
  {
    RunsStayReadable(run, ValidFor(source, vault), i);
    ReadableIsDelivered(run[i], source, vault);
  }

  /** So they do with power loss at any step of it, and after it, if each write begins settled. */
  lemma DeliveredOverEverySettledRun(run: seq<OutboxDisk>, source: string, vault: string, i: nat, e: OutboxDisk)
    requires Run(run, ValidFor(source, vault)) && i < |run| && WritesBeginSettled(run, ValidFor(source, vault))
    requires e == run[i] || Crash(run[i], e)
    ensures Sound(e) && Delivered(Docs(e), source, vault)
  {
    SettledRunsAreRobust(run, ValidFor(source, vault), i);
    ReadableIsDelivered(e, source, vault);
  }

  // ---------------------------------------------------------------- the cursor

  predicate Extends(docs: map<Name, Doc>, more: map<Name, Doc>) {
    docs.Keys <= more.Keys && forall n :: n in docs ==> more[n] == docs[n]
  }

  lemma CursorGrows(docs: map<Name, Doc>, more: map<Name, Doc>, valid: Batch -> bool, c: int, p: Option<Batch>, c': int, p': Option<Batch>)
    requires HasWindows(valid) && Consistent(docs, valid, c, p) && Consistent(more, valid, c', p')
    requires Extends(docs, more)
    ensures c <= c'
  {
    assert forall k :: Acked(docs, k) ==> Acked(more, k) && BatchAt(more, k) == BatchAt(docs, k);
    assert c' < c ==> InAckedWindow(docs, c' + 1);
  }

  ghost predicate Grows(d: OutboxDisk, e: OutboxDisk) {
    Sound(d) && Sound(e) && Extends(Docs(d), Docs(e))
  }

  lemma GrowsIsTransitive(d: OutboxDisk, e: OutboxDisk, f: OutboxDisk)
    requires Grows(d, e) && Grows(e, f)
    ensures Grows(d, f)
  {
  }

  lemma WriteGrows(d: OutboxDisk, name: Name, doc: Doc, temporary: nat, k: nat)
    requires Ready(d) && name !in Docs(d) && k <= 6
    ensures Grows(d, WriteAt(d, name, doc, temporary, k))
  {
    WriteKeepsNames(d, name, doc, temporary, k);
    assert Extends(Docs(d), Docs(d)[name := doc]);
  }

  lemma ProceedsGrows(d: OutboxDisk, e: OutboxDisk, valid: Batch -> bool)
    requires HasWindows(valid) && Sound(d) && Proceeds(d, e, valid)
    ensures Grows(d, e)
  {
    if WriteStep(d, e, valid) {
      var w :| Leaves(d, e, valid, w);
      WritesAreNew(Docs(d), valid, w.cursor, w.pending, w.name, w.doc);
      WriteGrows(d, w.name, w.doc, w.temporary, w.steps);
    } else {
      assert Docs(e) == Docs(d);
    }
  }

  lemma RunIsSound(run: seq<OutboxDisk>, valid: Batch -> bool, i: nat)
    requires HasWindows(valid) && Run(run, valid) && i < |run|
    ensures Sound(run[i])
  {
    RunKeepsCapacity(run, valid, i);
  }

  lemma {:induction false} RunGrows(run: seq<OutboxDisk>, valid: Batch -> bool, i: nat, j: nat)
    requires HasWindows(valid) && Run(run, valid) && i <= j < |run| && WithoutPowerLoss(run, valid, i, j)
    ensures Grows(run[i], run[j])
    decreases j
  {
    if i == j {
      RunIsSound(run, valid, i);
    } else {
      RunGrows(run, valid, i, j - 1);
      ProceedsGrows(run[j - 1], run[j], valid);
      GrowsIsTransitive(run[i], run[j - 1], run[j]);
    }
  }

  /** Without power loss the cursor never falls, synced or not and whatever was killed. */
  lemma CursorNeverFallsWithoutPowerLoss(run: seq<OutboxDisk>, valid: Batch -> bool, i: nat, j: nat,
                                         c: int, p: Option<Batch>, c': int, p': Option<Batch>)
    requires HasWindows(valid) && Run(run, valid) && i <= j < |run| && WithoutPowerLoss(run, valid, i, j)
    requires Sound(run[i]) && AcceptsDocs(Docs(run[i]), valid, c, p)
    requires Sound(run[j]) && AcceptsDocs(Docs(run[j]), valid, c', p')
    ensures c <= c'
  {
    RunGrows(run, valid, i, j);
    CursorGrows(Docs(run[i]), Docs(run[j]), valid, c, p, c', p');
  }

  /** Some durable name proves the cursor: the acknowledgement that it rests on, or a file of the
      batch above it. */
  ghost predicate CursorIsDurable(d: OutboxDisk, cursor: int)
    requires Sound(d)
  {
    cursor == 0 || BatchFile(cursor + 1) in d.durable || FailureFile(cursor + 1) in d.durable
    || exists k :: EndsAt(Docs(d), k, cursor) && AckFile(k) in d.durable
  }

  /** Batch `k` is the last one acknowledged. */
  ghost predicate EndsAt(docs: map<Name, Doc>, k: int, cursor: int) {
    Acked(docs, k) && BatchAt(docs, k).bound.last == cursor
  }

  /** Documents that repeat one of those names show at least that cursor. */
  lemma DurableCursorHolds(d: OutboxDisk, more: map<Name, Doc>, valid: Batch -> bool,
                           c: int, p: Option<Batch>, c': int, p': Option<Batch>)
    requires HasWindows(valid) && Sound(d) && AcceptsDocs(Docs(d), valid, c, p) && AcceptsDocs(more, valid, c', p')
    requires d.durable <= more.Keys && (forall n :: n in d.durable ==> more[n] == Docs(d)[n]) && CursorIsDurable(d, c)
    ensures c <= c'
  {
    var docs := Docs(d);
    if BatchFile(c + 1) in d.durable || FailureFile(c + 1) in d.durable {
      assert BatchFile(c + 1) in more ==> WellNamed(more, BatchFile(c + 1), valid);
      assert FailureFile(c + 1) in more ==> WellNamed(more, FailureFile(c + 1), valid);
      BatchesReach(more, valid, c', p', c + 1);
    } else if c > 0 {
      var k :| EndsAt(docs, k, c) && AckFile(k) in d.durable;
      assert WellNamed(docs, AckFile(k), valid) && WellNamed(more, AckFile(k), valid);
      assert Acked(more, k);
    }
  }

  /** The power loss that takes the last acknowledgement, and the batch above it. */
  lemma CursorCanFall(d: OutboxDisk, valid: Batch -> bool, c: int, p: Option<Batch>) returns (e: OutboxDisk, k: int)
    requires HasWindows(valid) && Accepts(d, valid, c, p) && !CursorIsDurable(d, c)
    ensures Crash(d, e) && 1 <= k <= c && HasBatch(Docs(d), k) && Accepts(e, valid, k - 1, Some(BatchAt(Docs(d), k)))
  {
    var docs := Docs(d);
    assert InAckedWindow(docs, c);
    k :| Acked(docs, k) && k <= c <= BatchAt(docs, k).bound.last;
    assert EndsAt(docs, k, c);
    var kept := d.files.Keys - {AckFile(k), BatchFile(c + 1), FailureFile(c + 1)};
    RewindIsCrash(d, kept);
    e := Rewind(d, kept);
    var rest := Docs(e);
    assert rest.Keys == kept && forall n :: n in kept ==> rest[n] == docs[n];
    WithoutLast(docs, valid, c, p, k, rest);
  }

  lemma WithoutLast(docs: map<Name, Doc>, valid: Batch -> bool, c: int, p: Option<Batch>, k: int, rest: map<Name, Doc>)
    requires HasWindows(valid) && AcceptsDocs(docs, valid, c, p) && EndsAt(docs, k, c)
    requires rest.Keys == docs.Keys - {AckFile(k), BatchFile(c + 1), FailureFile(c + 1)}
    requires forall n :: n in rest ==> rest[n] == docs[n]
    ensures AcceptsDocs(rest, valid, k - 1, Some(BatchAt(docs, k))) && 1 <= k <= c
  {
    assert WellNamed(docs, BatchFile(k), valid);
    forall n | n in rest ensures WellNamed(rest, n, valid) {
      NamedWithoutLast(docs, valid, c, p, k, rest, n);
    }
    forall s | 1 <= s <= k - 1 ensures InAckedWindow(rest, s) {
      assert InAckedWindow(docs, s);
      var m :| Acked(docs, m) && m <= s <= BatchAt(docs, m).bound.last;
      assert Acked(rest, m) && BatchAt(rest, m) == BatchAt(docs, m);
    }
    forall m | HasBatch(rest, m)
      ensures HasBatch(docs, m) && BatchAt(rest, m) == BatchAt(docs, m)
      ensures m != k ==> Acked(rest, m) && BatchAt(rest, m).bound.last <= k - 1
    {
      BatchWithoutLast(docs, valid, c, p, k, rest, m);
    }
  }

  lemma BatchWithoutLast(docs: map<Name, Doc>, valid: Batch -> bool, c: int, p: Option<Batch>, k: int, rest: map<Name, Doc>, m: int)
    requires HasWindows(valid) && AcceptsDocs(docs, valid, c, p) && EndsAt(docs, k, c)
    requires rest.Keys == docs.Keys - {AckFile(k), BatchFile(c + 1), FailureFile(c + 1)}
    requires (forall n :: n in rest ==> rest[n] == docs[n]) && HasBatch(rest, m)
    ensures HasBatch(docs, m) && BatchAt(rest, m) == BatchAt(docs, m)
    ensures m != k ==> Acked(rest, m) && BatchAt(rest, m).bound.last <= k - 1
  {
    BatchesReach(docs, valid, c, p, m);
    assert WellNamed(docs, BatchFile(m), valid) && WellNamed(docs, BatchFile(k), valid);
  }

  lemma NamedWithoutLast(docs: map<Name, Doc>, valid: Batch -> bool, c: int, p: Option<Batch>, k: int, rest: map<Name, Doc>, n: Name)
    requires HasWindows(valid) && AcceptsDocs(docs, valid, c, p) && EndsAt(docs, k, c)
    requires rest.Keys == docs.Keys - {AckFile(k), BatchFile(c + 1), FailureFile(c + 1)}
    requires (forall m :: m in rest ==> rest[m] == docs[m]) && n in rest
    ensures WellNamed(rest, n, valid)
  {
    assert WellNamed(docs, n, valid);
    if n.AckFile? || n.FailureFile? {
      BatchesReach(docs, valid, c, p, n.first);
      assert WellNamed(docs, BatchFile(n.first), valid);
    }
  }

  /** Exactly when power loss cannot lower the cursor: when one of those names is durable. A
      synced directory is enough, and so is a synced batch above an unsynced acknowledgement. */
  lemma CursorHoldsExactly(d: OutboxDisk, valid: Batch -> bool, c: int, p: Option<Batch>)
    requires HasWindows(valid) && Accepts(d, valid, c, p)
    ensures CursorIsDurable(d, c)
            <==> forall e, c', p' :: Crash(d, e) && Shows(e, valid, c', p') ==> c <= c'
  {
    if CursorIsDurable(d, c) {
      forall e, c', p' | Crash(d, e) && Shows(e, valid, c', p') ensures c <= c' {
        CrashDocs(d, e);
        DurableCursorHolds(d, Docs(e), valid, c, p, c', p');
      }
    } else {
      var e, k := CursorCanFall(d, valid, c, p);
      assert Shows(e, valid, k - 1, Some(BatchAt(Docs(d), k)));
    }
  }

  /** The journal reads so, leftover partial files apart. */
  ghost predicate Shows(d: OutboxDisk, valid: Batch -> bool, cursor: int, pending: Option<Batch>) {
    Sound(d) && AcceptsDocs(Docs(d), valid, cursor, pending)
  }

  /** From a durable cursor no later step of any run, with any power losses, lowers it. */
  lemma CursorNeverDecreases(run: seq<OutboxDisk>, valid: Batch -> bool, i: nat, j: nat,
                             c: int, p: Option<Batch>, c': int, p': Option<Batch>)
    requires HasWindows(valid) && Run(run, valid) && i <= j < |run|
    requires Shows(run[i], valid, c, p) && Shows(run[j], valid, c', p') && CursorIsDurable(run[i], c)
    ensures c <= c'
  {
    DurablePersists(run, valid, i, j);
    DurableCursorHolds(run[i], Docs(run[j]), valid, c, p, c', p');
  }

  /** A synced directory has a durable cursor. */
  lemma SettledCursorIsDurable(d: OutboxDisk, valid: Batch -> bool, c: int, p: Option<Batch>)
    requires HasWindows(valid) && Shows(d, valid, c, p) && Settled(d)
    ensures CursorIsDurable(d, c)
  {
    var docs := Docs(d);
    if c > 0 {
      assert InAckedWindow(docs, c);
      var k :| Acked(docs, k) && k <= c <= BatchAt(docs, k).bound.last;
      assert EndsAt(docs, k, c) && AckFile(k) in d.durable;
    }
  }

  /** So from a synced directory no later step lowers it. */
  lemma SettledCursorNeverDecreases(run: seq<OutboxDisk>, valid: Batch -> bool, i: nat, j: nat,
                                    c: int, p: Option<Batch>, c': int, p': Option<Batch>)
    requires HasWindows(valid) && Run(run, valid) && i <= j < |run|
    requires Shows(run[i], valid, c, p) && Shows(run[j], valid, c', p') && Settled(run[i])
    ensures c <= c'
  {
    SettledCursorIsDurable(run[i], valid, c, p);
    CursorNeverDecreases(run, valid, i, j, c, p, c', p');
  }

  /** The cursor that a process reads can be lowered by power loss while the acknowledgement
      waits for its directory sync; so `CursorNeverDecreases` starts from a durable cursor. */
  lemma UnsyncedCursorCanRegress(d: OutboxDisk, valid: Batch -> bool, cursor: int, b: Batch, at: int, temporary: nat)
    requires HasWindows(valid) && Settled(d) && Accepts(d, valid, cursor, Some(b)) && FailureFile(cursor + 1) !in Docs(d)
    requires 0 <= at <= MAX_NUMBER
    ensures var w := WriteAt(d, AckFile(cursor + 1), AckDoc(ExpectedAck(b), at), temporary, 5);
            Accepts(w, valid, b.bound.last, None) && cursor < b.bound.last
            && exists e :: Crash(w, e) && Accepts(e, valid, cursor, Some(b))
  {
    var name, doc := AckFile(cursor + 1), AckDoc(ExpectedAck(b), at);
    KillIsAtomic(d, valid, cursor, Some(b), name, doc, temporary, 5);
    WritesAreNew(Docs(d), valid, cursor, Some(b), name, doc);
    var w := WriteAt(d, name, doc, temporary, 5);
    Steps(d, name, doc, temporary, 5);
    var e := Disk(w.files - {name}, w.files.Keys - {name}, map[], {}, {});
    assert Crash(w, e);
    assert Docs(e) == Docs(d);
    assert WellNamed(Docs(d), BatchFile(cursor + 1), valid);
  }
}
