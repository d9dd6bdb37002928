/** `enqueue` and `send` as methods over one outbox, its transport and its clock
    (scripts/rekey-audit-delivery.py). */
module AuditSender {
  import opened AuditExport
  import opened AuditOutbox
  import opened AuditDelivery
  import opened AuditRuns
  import opened WriteOnceDirectory
  import opened Outcomes

  const REQUEST_TIMEOUT := 10.0
  const RUN_TIMEOUT := 35.0
  const MAX_AGE_MS := 24 * 60 * 60 * 1000

  // ---------------------------------------------------------------- transport and clock

  datatype Body = Decoded(reply: Ack) | NotJson

  /** What a transport call can come back with: the two retryable failures, any other labelled
      error, or an HTTP response. */
  datatype Reply = NetworkFailure | NetworkTimeout | OtherError(category: string) | Response(status: int, body: Body)

  datatype Call = Call(batch: Batch, started: real, timeout: real)
  datatype Pause = Pause(started: real, delay: real)

  class Network {
    var now: real
    var calls: seq<Call>
    var pauses: seq<Pause>

    constructor ()
    {
      now, calls, pauses := 0.0, [], [];
    }

    /** `time.monotonic`. */
    method Monotonic() returns (t: real)
      modifies this`now
      ensures old(now) <= now == t
    {
      var elapsed: real :| 0.0 <= elapsed;
      now := now + elapsed;
      t := now;
    }

    /** `transport`: any reply, after any time. */
    method Transport(batch: Batch, started: real, timeout: real) returns (reply: Reply)
      modifies this
      ensures calls == old(calls) + [Call(batch, started, timeout)] && pauses == old(pauses) && old(now) <= now
      ensures reply.OtherError? ==> |reply.category| <= MAX_LABEL
    {
      calls := calls + [Call(batch, started, timeout)];
      var elapsed: real :| 0.0 <= elapsed;
      now := now + elapsed;
      reply :| reply.OtherError? ==> |reply.category| <= MAX_LABEL;
    }

    /** `time.sleep`. */
    method Sleep(started: real, delay: real)
      requires 0.0 <= delay
      modifies this
      ensures pauses == old(pauses) + [Pause(started, delay)] && calls == old(calls) && old(now) + delay <= now
    {
      pauses := pauses + [Pause(started, delay)];
      var overrun: real :| 0.0 <= overrun;
      now := now + delay + overrun;
    }
  }

  predicate Retryable(reply: Reply) {
    reply.NetworkFailure? || reply.NetworkTimeout?
    || (reply.Response? && (reply.status == 429 || 500 <= reply.status <= 599))
  }

  // ---------------------------------------------------------------- the outbox

  datatype EnqueueError = Unreadable | PendingBatch | BadExport(error: ExportError) | BacklogLimit | Interrupted

  datatype SendError =
    | SendUnreadable | InvalidToken | NoPendingBatch | ReviewRequired | BatchAgeLimit | RetryTimeLimit
    | Permanent(category: string)      // recorded as a failure
    | GaveUp                           // three retryable failures
    | SendInterrupted

  /** The batch was pending, its valid acknowledgement is written and synced, and the cursor
      is at its end. */
  ghost predicate Acknowledged(d: OutboxDisk, e: OutboxDisk, valid: Batch -> bool, cursor: int, b: Batch) {
    && Accepts(d, valid, cursor, Some(b)) && Accepts(e, valid, b.bound.last, None) && Settled(e)
    && AckFile(cursor + 1) in Docs(e) && GoodAck(Docs(e)[AckFile(cursor + 1)], b)
  }

  /** The batch was pending and still is, with its failure on record. */
  ghost predicate Recorded(d: OutboxDisk, e: OutboxDisk, valid: Batch -> bool, cursor: int, b: Batch) {
    Accepts(d, valid, cursor, Some(b)) && Accepts(e, valid, cursor, Some(b)) && FailureFile(cursor + 1) in Docs(e)
  }

  /** The batch is pending and no failure is on record: the only state in which `send` sends. */
  ghost predicate Sendable(d: OutboxDisk, valid: Batch -> bool, cursor: int, b: Batch) {
    Accepts(d, valid, cursor, Some(b)) && FailureFile(cursor + 1) !in Docs(d)
  }

  /** What an attempt to deliver may leave, by its result. */
  ghost predicate DeliveryOutcome(d: OutboxDisk, e: OutboxDisk, valid: Batch -> bool, cursor: int, b: Batch, r: Result<int, SendError>) {
    match r
    case Ok(last) => last == b.bound.last && Acknowledged(d, e, valid, cursor, b) && WriteStep(d, e, valid)
    case Err(Permanent(_)) => Recorded(d, e, valid, cursor, b) && WriteStep(d, e, valid)
    case Err(SendInterrupted) => WriteStep(d, e, valid)
    case Err(_) => e == d
  }

  ghost predicate Opens(d: OutboxDisk, valid: Batch -> bool) {
    exists c, p :: Accepts(d, valid, c, p)
  }

  /** Nothing was pending, and now the batch is, above the same cursor. */
  ghost predicate Queued(d: OutboxDisk, e: OutboxDisk, valid: Batch -> bool, b: Batch) {
    exists cursor :: Accepts(d, valid, cursor, None) && Accepts(e, valid, cursor, Some(b))
  }

  /** Why `enqueue` refuses. */
  ghost predicate Refusal(d: OutboxDisk, valid: Batch -> bool, raw: Export, error: EnqueueError) {
    match error
    case Unreadable => !Opens(d, valid)
    case PendingBatch => exists c, b :: Accepts(d, valid, c, Some(b))
    case BadExport(reason) => exists c :: Accepts(d, valid, c, None) && Verdict(raw, c) == Err(reason)
    case BacklogLimit => exists c, b :: TooLarge(d, valid, c, raw, b)
    case Interrupted => true
  }

  /** The next batch for this export does not fit, with room for its result. */
  ghost predicate TooLarge(d: OutboxDisk, valid: Batch -> bool, cursor: int, raw: Export, b: Batch) {
    && Accepts(d, valid, cursor, None) && valid(b) && b.content == raw
    && Total(Docs(d)) + BatchSize(b) + Reserve(b.bound) > MAX_OUTBOX
  }

  /** The schedule that `send` keeps: at most three calls, all with this batch, each started
      before the deadline with a timeout that ends by it, and every pause over before it. */
  ghost predicate OnSchedule(calls: seq<Call>, pauses: seq<Pause>, batch: Batch, deadline: real) {
    && |calls| <= 3 && |pauses| <= 2
    && (forall i :: 0 <= i < |calls| ==> calls[i].batch == batch && calls[i].started < deadline
                                         && 0.0 < calls[i].timeout <= REQUEST_TIMEOUT
                                         && calls[i].started + calls[i].timeout <= deadline)
    && (forall i :: 0 <= i < |pauses| ==> pauses[i].started + pauses[i].delay < deadline)
  }

  // ---------------------------------------------------------------- failures end transmission

  /** Documents with a failure record leave nothing to send. */
  lemma FailureIsFinal(d: OutboxDisk, valid: Batch -> bool, n: int, cursor: int, b: Batch)
    requires HasWindows(valid) && Sound(d) && FailureFile(n) in Docs(d)
    ensures !Sendable(d, valid, cursor, b)
  {
    if Accepts(d, valid, cursor, Some(b)) {
      assert WellNamed(Docs(d), FailureFile(n), valid);
      BatchesReach(Docs(d), valid, cursor, Some(b), n);
    }
  }

  /** Without power loss a failure on record ends transmission, synced or not: in no later state
      of any run does `send` reach the transport, for this batch or for another. */
  lemma FailureEndsTransmission(run: seq<OutboxDisk>, valid: Batch -> bool, i: nat, j: nat, n: int, cursor: int, b: Batch)
    requires HasWindows(valid) && Run(run, valid) && i <= j < |run| && WithoutPowerLoss(run, valid, i, j)
    requires FailureFile(n) in run[i].files
    ensures !Sendable(run[j], valid, cursor, b)
  {
    RunGrows(run, valid, i, j);
    assert FailureFile(n) in Docs(run[i]);
    FailureIsFinal(run[j], valid, n, cursor, b);
  }

  /** One whose name is durable ends it also through any power losses. */
  lemma DurableFailureEndsTransmission(run: seq<OutboxDisk>, valid: Batch -> bool, i: nat, j: nat, n: int, cursor: int, b: Batch)
    requires HasWindows(valid) && Run(run, valid) && i <= j < |run| && FailureFile(n) in run[i].durable
    ensures !Sendable(run[j], valid, cursor, b)
  {
    DurablePersists(run, valid, i, j);
    assert FailureFile(n) in Docs(run[j]);
    FailureIsFinal(run[j], valid, n, cursor, b);
  }

  /** Power loss that takes the failure's name makes the batch sendable again. */
  lemma FailureCanBeLost(d: OutboxDisk, valid: Batch -> bool, cursor: int, b: Batch) returns (e: OutboxDisk)
    requires HasWindows(valid) && Accepts(d, valid, cursor, Some(b))
    requires FailureFile(cursor + 1) in Docs(d) && FailureFile(cursor + 1) !in d.durable
    ensures Crash(d, e) && Sendable(e, valid, cursor, b)
  {
    var docs, kept := Docs(d), d.files.Keys - {FailureFile(cursor + 1)};
    RewindIsCrash(d, kept);
    e := Rewind(d, kept);
    var rest := Docs(e);
    assert rest.Keys == kept && forall n :: n in kept ==> rest[n] == docs[n];
    WithoutFailure(docs, valid, cursor, b, rest);
  }

  lemma WithoutFailure(docs: map<Name, Doc>, valid: Batch -> bool, cursor: int, b: Batch, rest: map<Name, Doc>)
    requires HasWindows(valid) && AcceptsDocs(docs, valid, cursor, Some(b))
    requires rest.Keys == docs.Keys - {FailureFile(cursor + 1)} && forall n :: n in rest ==> rest[n] == docs[n]
    ensures AcceptsDocs(rest, valid, cursor, Some(b))
  {
    forall n | n in rest ensures WellNamed(rest, n, valid) {
      assert WellNamed(docs, n, valid);
    }
    forall s | 1 <= s <= cursor ensures InAckedWindow(rest, s) {
      assert InAckedWindow(docs, s);
      var k :| Acked(docs, k) && k <= s <= BatchAt(docs, k).bound.last;
      assert Acked(rest, k) && BatchAt(rest, k) == BatchAt(docs, k);
    }
    assert forall k :: HasBatch(rest, k) ==> HasBatch(docs, k) && BatchAt(rest, k) == BatchAt(docs, k);
    assert forall k :: Acked(rest, k) <==> Acked(docs, k);
  }

  /** Exactly when no power loss lets a batch with a failure on record be sent: when the record's
      name is durable. */
  lemma FailureHoldsExactly(d: OutboxDisk, valid: Batch -> bool, cursor: int, b: Batch)
    requires HasWindows(valid) && Accepts(d, valid, cursor, Some(b)) && FailureFile(cursor + 1) in Docs(d)
    ensures FailureFile(cursor + 1) in d.durable
            <==> forall e, c, b' :: Crash(d, e) ==> !Sendable(e, valid, c, b')
  {
    if FailureFile(cursor + 1) in d.durable {
      forall e, c, b' | Crash(d, e) ensures !Sendable(e, valid, c, b') {
        CrashDocs(d, e);
        FailureIsFinal(e, valid, cursor + 1, c, b');
      }
    } else {
      var e := FailureCanBeLost(d, valid, cursor, b);
    }
  }

  /** A failure record that was linked and not synced makes `send` refuse, and power loss then
      makes the same batch sendable again. */
  lemma UnsyncedFailureCanBeSent(d: OutboxDisk, valid: Batch -> bool, cursor: int, b: Batch, category: string, at: int, temporary: nat)
    requires HasWindows(valid) && Settled(d) && Sendable(d, valid, cursor, b)
    requires 0 <= at <= MAX_NUMBER && |category| <= MAX_LABEL
    ensures var w := WriteAt(d, FailureFile(cursor + 1), FailureDoc(b.bound.batchId, category, at), temporary, 5);
            WriteStep(d, w, valid) && (forall c, b' :: !Sendable(w, valid, c, b'))
            && exists e :: Crash(w, e) && Sendable(e, valid, cursor, b)
  {
    var name, doc := FailureFile(cursor + 1), FailureDoc(b.bound.batchId, category, at);
    FailureFitsReserve(b.bound, category, at);
    assert Writes(Docs(d), valid, cursor, Some(b), name, doc);
    var w := WriteAt(d, name, doc, temporary, 5);
    WritesAreNew(Docs(d), valid, cursor, Some(b), name, doc);
    CommitIsWrite(d, valid, cursor, Some(b), name, doc, temporary, 5);
    KillIsAtomic(d, valid, cursor, Some(b), name, doc, temporary, 5);
    KilledAt(d, name, doc, temporary, 5);
    Steps(d, name, doc, temporary, 5);
    forall c, b' ensures !Sendable(w, valid, c, b') {
      FailureIsFinal(w, valid, cursor + 1, c, b');
    }
    var e := FailureCanBeLost(w, valid, cursor, b);
  }

  lemma TooLargeIsRefused(d: OutboxDisk, valid: Batch -> bool, raw: Export, cursor: int, b: Batch)
    requires TooLarge(d, valid, cursor, raw, b)
    ensures Refusal(d, valid, raw, BacklogLimit)
  {
  }

  lemma AdmittedIsWritten(d: OutboxDisk, valid: Batch -> bool, cursor: int, b: Batch)
    requires Accepts(d, valid, cursor, None) && valid(b) && b.bound.first == cursor + 1
    requires Total(Docs(d)) + BatchSize(b) + Reserve(b.bound) <= MAX_OUTBOX
    ensures Writes(Docs(d), valid, cursor, None, BatchFile(cursor + 1), BatchDoc(b))
  {
  }

  lemma CommitIsWrite(d: OutboxDisk, valid: Batch -> bool, cursor: int, pending: Option<Batch>, name: Name, doc: Doc,
                      temporary: nat, steps: nat)
    requires HasWindows(valid) && Accepts(d, valid, cursor, pending) && Writes(Docs(d), valid, cursor, pending, name, doc)
    requires name !in d.files && steps <= 6
    ensures var e := WriteAt(d, name, doc, temporary, steps);
            WriteStep(d, e, valid)
            && (steps == 6 ==> Settled(e) && Accepts(e, valid, CursorAfter(cursor, doc), PendingAfter(pending, doc))
                               && Docs(e) == Docs(d)[name := doc])
  {
    assert Leaves(d, WriteAt(d, name, doc, temporary, steps), valid, Attempt(cursor, pending, name, doc, temporary, steps));
    KilledAt(d, name, doc, temporary, steps);
    KillIsAtomic(d, valid, cursor, pending, name, doc, temporary, steps);
  }

  function NextBatch(raw: Export, batchId: string, source: string, vault: string, createdAt: int,
                     cursor: int, last: int, rows: int): Batch {
    Batch(Bound(batchId, source, vault, cursor + 1, last, last, rows, Sha256(raw)), true, createdAt, raw)
  }

  lemma NextBatchIsValid(raw: Export, batchId: string, source: string, vault: string, createdAt: int,
                         cursor: int, last: int, rows: int)
    requires CanonicalUuid(batchId) && 0 <= createdAt <= MAX_NUMBER && 0 <= cursor && Verdict(raw, cursor) == Ok((last, rows))
    ensures ValidFor(source, vault)(NextBatch(raw, batchId, source, vault, createdAt, cursor, last, rows))
  {
  }

  lemma UnreadableIsClosed(d: OutboxDisk, valid: Batch -> bool)
    requires Sound(d) && forall c, p :: !Consistent(Docs(d), valid, c, p)
    ensures !Opens(d, valid)
  {
  }

  ghost predicate StartedSince(calls: seq<Call>, start: real) {
    forall i :: 0 <= i < |calls| ==> start <= calls[i].started
  }

  lemma CallsOnSchedule(calls: seq<Call>, pauses: seq<Pause>, made: seq<Call>, batch: Batch, deadline: real)
    requires OnSchedule(calls, pauses, batch, deadline) && OnSchedule(made, [], batch, deadline) && |calls| + |made| <= 3
    ensures OnSchedule(calls + made, pauses, batch, deadline)
  {
  }

  lemma PauseOnSchedule(calls: seq<Call>, pauses: seq<Pause>, batch: Batch, deadline: real, now: real, delay: real)
    requires OnSchedule(calls, pauses, batch, deadline) && |pauses| < 2 && now + delay < deadline
    ensures OnSchedule(calls, pauses + [Pause(now, delay)], batch, deadline)
  {
  }

  class Outbox {
    const source: string
    const vault: string
    const store: Store<Name, Doc>
    const network: Network

    constructor (source: string, vault: string, store: Store<Name, Doc>, network: Network)
      ensures this.source == source && this.vault == vault && this.store == store && this.network == network
    {
      this.source, this.vault, this.store, this.network := source, vault, store, network;
    }

    /** The journal as it is read from the directory. */
    method Read() returns (state: Option<JournalState>)
      requires Ready(store.disk) && Identity in store.disk.files
      ensures state.None? ==> !Opens(store.disk, ValidFor(source, vault))
      ensures state.Some? ==> Accepts(store.disk, ValidFor(source, vault), state.value.cursor, state.value.pending)
                              && 0 <= state.value.cursor && state.value.total == Total(Docs(store.disk))
    {
      var read := Journal(Docs(store.disk), source, vault);
      if read.Err? {
        UnreadableIsClosed(store.disk, ValidFor(source, vault));
        return None;
      }
      return Some(read.value);
    }

    /** The next batch, unless one is pending or the export does not follow the cursor. */
    method Prepare(raw: Export, batchId: string, createdAt: int, cursor: int, pending: Option<Batch>)
      returns (r: Result<Batch, EnqueueError>)
      requires Accepts(store.disk, ValidFor(source, vault), cursor, pending) && 0 <= cursor
      requires CanonicalUuid(batchId) && 0 <= createdAt <= MAX_NUMBER
      ensures r.Err? ==> (r.error.PendingBatch? || r.error.BadExport?)
                         && Refusal(store.disk, ValidFor(source, vault), raw, r.error)
      ensures r.Ok? ==> pending.None? && ValidFor(source, vault)(r.value) && r.value.content == raw
                        && r.value.bound.batchId == batchId && r.value.bound.first == cursor + 1
    {
      if pending.Some? {
        assert Accepts(store.disk, ValidFor(source, vault), cursor, Some(pending.value));
        return Err(PendingBatch);
      }
      var info := ExportInfo(raw, cursor);
      if info.Err? {
        assert Accepts(store.disk, ValidFor(source, vault), cursor, None);
        return Err(BadExport(info.error));
      }
      NextBatchIsValid(raw, batchId, source, vault, createdAt, cursor, info.value.0, info.value.1);
      return Ok(NextBatch(raw, batchId, source, vault, createdAt, cursor, info.value.0, info.value.1));
    }

    /** `enqueue`, for the raw export read from its path. */
    method Enqueue(raw: Export, batchId: string, createdAt: int) returns (r: Result<Batch, EnqueueError>)
      requires Ready(store.disk) && Identity in store.disk.files
      requires CanonicalUuid(batchId) && 0 <= createdAt <= MAX_NUMBER
      modifies store
      ensures r.Err? && !r.error.Interrupted? ==> store.disk == old(store.disk)
      ensures store.disk == old(store.disk) || WriteStep(old(store.disk), store.disk, ValidFor(source, vault))
      ensures r.Err? ==> Refusal(old(store.disk), ValidFor(source, vault), raw, r.error)
      ensures r.Ok? ==>
                && r.value.content == raw && r.value.bound.batchId == batchId && Settled(store.disk)
                && Queued(old(store.disk), store.disk, ValidFor(source, vault), r.value)
    {
      var read := Read();
      if read.None? {
        return Err(Unreadable);
      }
      var next := Prepare(raw, batchId, createdAt, read.value.cursor, read.value.pending);
      if next.Err? {
        return next;
      }
      r := Admit(read.value.cursor, read.value.total, raw, next.value);
      if r == Err(BacklogLimit) {
        TooLargeIsRefused(store.disk, ValidFor(source, vault), raw, read.value.cursor, next.value);
      }
    }

    /** The admission check of `enqueue`, and the write behind it. */
    method Admit(cursor: int, total: nat, raw: Export, batch: Batch) returns (r: Result<Batch, EnqueueError>)
      requires Accepts(store.disk, ValidFor(source, vault), cursor, None) && total == Total(Docs(store.disk))
      requires ValidFor(source, vault)(batch) && batch.content == raw && batch.bound.first == cursor + 1
      modifies store
      ensures r == Ok(batch) || r == Err(BacklogLimit) || r == Err(Interrupted)
      ensures r == Err(BacklogLimit) <==> TooLarge(old(store.disk), ValidFor(source, vault), cursor, raw, batch)
      ensures if r == Err(BacklogLimit) then store.disk == old(store.disk)
              else WriteStep(old(store.disk), store.disk, ValidFor(source, vault))
      ensures r.Ok? ==> Settled(store.disk) && Accepts(store.disk, ValidFor(source, vault), cursor, Some(batch))
    {
      if total + BatchSize(batch) + Reserve(batch.bound) > MAX_OUTBOX {
        return Err(BacklogLimit);
      }
      AdmittedIsWritten(store.disk, ValidFor(source, vault), cursor, batch);
      r := Commit(cursor, None, BatchFile(cursor + 1), BatchDoc(batch), batch);
    }

    /** The write of `enqueue`, and what it comes to when it completes. */
    method Commit(ghost cursor: int, ghost pending: Option<Batch>, name: Name, doc: Doc, batch: Batch)
      returns (r: Result<Batch, EnqueueError>)
      requires Accepts(store.disk, ValidFor(source, vault), cursor, pending)
      requires Writes(Docs(store.disk), ValidFor(source, vault), cursor, pending, name, doc)
      modifies store
      ensures WriteStep(old(store.disk), store.disk, ValidFor(source, vault))
      ensures r == Ok(batch) || r == Err(Interrupted)
      ensures r.Ok? ==> Settled(store.disk)
                        && Accepts(store.disk, ValidFor(source, vault), CursorAfter(cursor, doc), PendingAfter(pending, doc))
                        && Docs(store.disk) == Docs(old(store.disk))[name := doc]
    {
      WritesAreNew(Docs(store.disk), ValidFor(source, vault), cursor, pending, name, doc);
      var outcome, temporary, steps := store.Write(name, doc);
      CommitIsWrite(old(store.disk), ValidFor(source, vault), cursor, pending, name, doc, temporary, steps);
      return if outcome == Written then Ok(batch) else Err(Interrupted);
    }

    /** Record a failure for the pending batch and report it. */
    method Fail(ghost cursor: int, batch: Batch, category: string) returns (error: SendError)
      requires Sendable(store.disk, ValidFor(source, vault), cursor, batch) && |category| <= MAX_LABEL
      modifies store
      ensures DeliveryOutcome(old(store.disk), store.disk, ValidFor(source, vault), cursor, batch, Err(error))
      ensures error in {Permanent(category), SendInterrupted}
    {
      var failedAt: int :| 0 <= failedAt <= MAX_NUMBER;
      var doc := FailureDoc(batch.bound.batchId, category, failedAt);
      FailureFitsReserve(batch.bound, category, failedAt);
      var done := Commit(cursor, Some(batch), FailureFile(batch.bound.first), doc, batch);
      return if done.Ok? then Permanent(category) else SendInterrupted;
    }

    /** What `send` does with one reply: a result, or nothing for a retryable failure. */
    method Handle(ghost cursor: int, batch: Batch, reply: Reply) returns (r: Option<Result<int, SendError>>)
      requires Sendable(store.disk, ValidFor(source, vault), cursor, batch)
      requires reply.OtherError? ==> |reply.category| <= MAX_LABEL
      modifies store
      ensures r.None? ==> store.disk == old(store.disk) && Retryable(reply)
      ensures r.Some? ==> DeliveryOutcome(old(store.disk), store.disk, ValidFor(source, vault), cursor, batch, r.value)
      ensures r.Some? && r.value.Ok? ==> reply == Response(200, Decoded(ExpectedAck(batch)))
    {
      match reply {
        case NetworkFailure => return None;
        case NetworkTimeout => return None;
        case OtherError(category) =>
          var error := Fail(cursor, batch, category);
          return Some(Err(error));
        case Response(status, body) =>
          if status == 200 {
            if body.NotJson? || !ValidAck(body.reply, batch) {
              var error := Fail(cursor, batch, if body.NotJson? then "invalid-json" else "invalid-durable-ack");
              return Some(Err(error));
            }
            var ackedAt: int :| 0 <= ackedAt <= MAX_NUMBER;
            var done := Commit(cursor, Some(batch), AckFile(batch.bound.first), AckDoc(body.reply, ackedAt), batch);
            return Some(if done.Ok? then Ok(batch.bound.last) else Err(SendInterrupted));
          }
          if status != 429 && !(500 <= status <= 599) {
            var category := if status in {401, 403} then "authentication-rejected" else "permanent-http-failure";
            var error := Fail(cursor, batch, category);
            return Some(Err(error));
          }
          return None;
      }
    }

    /** One turn of the retry loop up to its reply: a result, or nothing for a retryable failure. */
    method Try(ghost cursor: int, batch: Batch, deadline: real) returns (r: Option<Result<int, SendError>>, ghost made: seq<Call>)
      requires Sendable(store.disk, ValidFor(source, vault), cursor, batch)
      modifies store, network
      ensures network.calls == old(network.calls) + made && network.pauses == old(network.pauses)
      ensures |made| <= 1 && OnSchedule(made, [], batch, deadline)
      ensures old(network.now) <= network.now && StartedSince(made, old(network.now))
      ensures r.None? ==> store.disk == old(store.disk)
      ensures r.Some? ==> DeliveryOutcome(old(store.disk), store.disk, ValidFor(source, vault), cursor, batch, r.value)
    {
      var now := network.Monotonic();
      var remaining := deadline - now;
      if remaining <= 0.0 {
        return Some(Err(RetryTimeLimit)), [];
      }
      var timeout := if remaining < REQUEST_TIMEOUT then remaining else REQUEST_TIMEOUT;
      var reply := network.Transport(batch, now, timeout);
      made := [Call(batch, now, timeout)];
      r := Handle(cursor, batch, reply);
    }

    /** The retry loop of `send`. */
    method Attempts(ghost cursor: int, batch: Batch, deadline: real) returns (r: Result<int, SendError>)
      requires Sendable(store.disk, ValidFor(source, vault), cursor, batch)
      modifies store, network
      ensures old(network.calls) <= network.calls && old(network.pauses) <= network.pauses
      ensures OnSchedule(network.calls[|old(network.calls)|..], network.pauses[|old(network.pauses)|..], batch, deadline)
      ensures StartedSince(network.calls[|old(network.calls)|..], old(network.now))
      ensures DeliveryOutcome(old(store.disk), store.disk, ValidFor(source, vault), cursor, batch, r)
    {
      var delay := 1.0;
      ghost var calls: seq<Call>, pauses: seq<Pause> := [], [];
      for attempt := 0 to 3
        invariant network.calls == old(network.calls) + calls && network.pauses == old(network.pauses) + pauses
        invariant |calls| <= attempt && |pauses| <= attempt && OnSchedule(calls, pauses, batch, deadline)
        invariant old(network.now) <= network.now && StartedSince(calls, old(network.now))
        invariant store.disk == old(store.disk) && delay >= 1.0
      {
        var result, made := Try(cursor, batch, deadline);
        CallsOnSchedule(calls, pauses, made, batch, deadline);
        calls := calls + made;
        if result.Some? {
          return result.value;
        }
        if attempt == 2 {
          return Err(GaveUp);
        }
        var now := network.Monotonic();
        if now + delay >= deadline {
          return Err(RetryTimeLimit);
        }
        network.Sleep(now, delay);
        PauseOnSchedule(calls, pauses, batch, deadline, now, delay);
        pauses := pauses + [Pause(now, delay)];
        delay := 2.0 * delay;
      }
      return Err(GaveUp);
    }

    /** `send`. It calls the transport only for a pending batch without a failure on record. */
    method Send(tokenIsValid: bool, wallClock: int) returns (r: Result<int, SendError>, ghost deadline: real)
      requires Ready(store.disk) && Identity in store.disk.files
      modifies store, network
      ensures old(network.calls) <= network.calls && old(network.pauses) <= network.pauses
      ensures (network.calls == old(network.calls) && network.pauses == old(network.pauses)
               && store.disk == old(store.disk) && r.Err?)
              || exists cursor, b ::
                   && Sendable(old(store.disk), ValidFor(source, vault), cursor, b)
                   && OnSchedule(network.calls[|old(network.calls)|..], network.pauses[|old(network.pauses)|..], b, deadline)
                   && StartedSince(network.calls[|old(network.calls)|..], deadline - RUN_TIMEOUT)
                   && DeliveryOutcome(old(store.disk), store.disk, ValidFor(source, vault), cursor, b, r)
    {
      deadline := 0.0;
      if !tokenIsValid {
        return Err(InvalidToken), deadline;
      }
      var read := Read();
      if read.None? {
        return Err(SendUnreadable), deadline;
      }
      if read.value.pending.None? {
        return Err(NoPendingBatch), deadline;
      }
      var batch := read.value.pending.value;
      if FailureFile(batch.bound.first) in Docs(store.disk) {
        return Err(ReviewRequired), deadline;
      }
      if !(0 <= wallClock - batch.createdAt <= MAX_AGE_MS) {
        return Err(BatchAgeLimit), deadline;
      }
      var started := network.Monotonic();
      var limit := started + RUN_TIMEOUT;
      deadline := limit;
      r := Attempts(read.value.cursor, batch, limit);
    }
  }
}
