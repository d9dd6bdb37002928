/** The delivery outbox (`Outbox` and `enqueue` in scripts/rekey-audit-delivery.py): a
    write-once journal of batches, acknowledgements and failures. */
module AuditOutbox {
  import opened Decimal
  import opened AuditExport
  import opened WriteOnceDirectory
  import opened Outcomes

  const MAX_OUTBOX := 256 * 1024 * 1024

  /** The names the journal knows; any other name is `Stray`. */
  datatype Name = Identity | BatchFile(first: int) | AckFile(first: int) | FailureFile(first: int) | Stray

  datatype Doc =
    | IdentityDoc(size: nat)
    | BatchDoc(batch: Batch)
    | AckDoc(ack: Ack, ackedAt: int)
    | FailureDoc(batchId: string, category: string, failedAt: int)
    | OtherDoc(size: nat)

  // ---------------------------------------------------------------- encoded sizes

  /** Bytes of each encoded record besides its values: keys, punctuation, fixed labels. */
  const ACK_FRAME := 225
  const FAILURE_FRAME := 46
  const BATCH_FRAME := 224
  const HEX_DIGEST := 64

  function NumberSize(n: int): nat {
    if n < 0 then 1 + |Digits(-n)| else |Digits(n)|
  }

  function BoundSize(b: Bound): nat {
    |b.batchId| + |b.source| + |b.vault| + NumberSize(b.first) + NumberSize(b.last)
    + NumberSize(b.snapshotMax) + NumberSize(b.rowCount) + HEX_DIGEST
  }

  function AckSize(b: Bound, ackedAt: int): nat {
    ACK_FRAME + BoundSize(b) + NumberSize(ackedAt)
  }

  function FailureSize(batchId: string, category: string, failedAt: int): nat {
    FAILURE_FRAME + |batchId| + |category| + NumberSize(failedAt)
  }

  function BatchSize(b: Batch): nat {
    BATCH_FRAME + BoundSize(b.bound) + NumberSize(b.createdAt) + b.content.escaped
  }

  function Size(d: Doc): nat {
    match d
    case IdentityDoc(size) => size
    case BatchDoc(batch) => BatchSize(batch)
    case AckDoc(ack, at) => if ack.Ack? then AckSize(ack.bound, at) else 0
    case FailureDoc(batchId, category, at) => FailureSize(batchId, category, at)
    case OtherDoc(size) => size
  }

  /** What `enqueue` reserves before it admits a batch. */
  function Reserve(b: Bound): nat {
    AckSize(b, MAX_NUMBER)
  }

  lemma AckFitsReserve(b: Bound, at: int)
    requires 0 <= at <= MAX_NUMBER
    ensures AckSize(b, at) <= Reserve(b)
  {
    LengthIsMonotone(at, MAX_NUMBER);
  }

  /** The room for a failure's label in what is reserved for the acknowledgement. */
  function LabelRoom(b: Bound): int {
    Reserve(b) - FailureSize(b.batchId, "", MAX_NUMBER)
  }

  /** Whatever its timestamp, a failure record is no longer than the reserved receipt exactly
      when its label fits. */
  lemma FailureFitsExactly(b: Bound, category: string)
    ensures |category| <= LabelRoom(b) <==> AlwaysFits(b.batchId, category, Reserve(b), MAX_NUMBER)
  {
    LabelFitsExactly(b.batchId, category, Reserve(b), MAX_NUMBER);
  }

  ghost predicate AlwaysFits(batchId: string, category: string, reserve: nat, most: nat) {
    forall at :: 0 <= at <= most ==> FailureSize(batchId, category, at) <= reserve
  }

  lemma LabelFitsExactly(batchId: string, category: string, reserve: nat, most: nat)
    ensures |category| <= reserve - FailureSize(batchId, "", most) <==> AlwaysFits(batchId, category, reserve, most)
  {
    assert FailureSize(batchId, category, most) == FailureSize(batchId, "", most) + |category|;
    forall at | 0 <= at <= most ensures FailureSize(batchId, category, at) <= FailureSize(batchId, category, most) {
      LengthIsMonotone(at, most);
    }
  }

  /** Every label that `send` records is far shorter than this, which always fits. */
  const MAX_LABEL := 240

  lemma FailureFitsReserve(b: Bound, category: string, at: int)
    requires 0 <= at <= MAX_NUMBER && |category| <= MAX_LABEL
    ensures FailureSize(b.batchId, category, at) <= Reserve(b)
  {
    FailureIsShorter(b, category, at);
    AckFitsReserve(b, at);
  }

  lemma FailureIsShorter(b: Bound, category: string, at: int)
    requires |category| <= MAX_LABEL
    ensures FailureSize(b.batchId, category, at) <= AckSize(b, at)
  {
  }

  ghost function TotalOf(docs: map<Name, Doc>, names: set<Name>): nat
    requires names <= docs.Keys
  {
    if names == {} then 0
    else var n :| n in names; Size(docs[n]) + TotalOf(docs, names - {n})
  }

  ghost function Total(docs: map<Name, Doc>): nat {
    TotalOf(docs, docs.Keys)
  }

  lemma {:induction false} TotalWithout(docs: map<Name, Doc>, names: set<Name>, n: Name)
    requires names <= docs.Keys && n in names
    ensures TotalOf(docs, names) == Size(docs[n]) + TotalOf(docs, names - {n})
    decreases names
  {
    var m :| m in names && TotalOf(docs, names) == Size(docs[m]) + TotalOf(docs, names - {m});
    if m != n {
      TotalWithout(docs, names - {m}, n);
      TotalWithout(docs, names - {n}, m);
      assert names - {m} - {n} == names - {n} - {m};
    }
  }

  lemma {:induction false} TotalMonotone(docs: map<Name, Doc>, names: set<Name>, more: map<Name, Doc>, others: set<Name>)
    requires names <= docs.Keys && others <= more.Keys && names <= others
    requires forall n :: n in names ==> docs[n] == more[n]
    ensures TotalOf(docs, names) <= TotalOf(more, others)
    decreases others
  {
    if others != {} {
      var n :| n in others;
      TotalWithout(more, others, n);
      if n in names {
        TotalWithout(docs, names, n);
      }
      TotalMonotone(docs, names - {n}, more, others - {n});
      assert n !in names ==> names - {n} == names;
    }
  }

  lemma TotalWith(docs: map<Name, Doc>, n: Name, d: Doc)
    requires n !in docs
    ensures Total(docs[n := d]) == Total(docs) + Size(d)
  {
    var more := docs[n := d];
    TotalWithout(more, more.Keys, n);
    assert more.Keys - {n} == docs.Keys;
    TotalMonotone(docs, docs.Keys, more, docs.Keys);
    TotalMonotone(more, docs.Keys, docs, docs.Keys);
  }

  // ---------------------------------------------------------------- what the journal accepts

  /** Validity for one source and vault, as a function value. */
  ghost function ValidFor(source: string, vault: string): (valid: Batch -> bool)
    ensures HasWindows(valid)
  {
    (b: Batch) => ValidBatch(b, source, vault)
  }

  /** All that the journal's arithmetic uses of validity. */
  ghost predicate HasWindows(valid: Batch -> bool) {
    forall b :: valid(b) ==> 0 < b.bound.first <= b.bound.last
  }

  predicate HasBatch(docs: map<Name, Doc>, k: int) {
    BatchFile(k) in docs && docs[BatchFile(k)].BatchDoc?
  }

  function BatchAt(docs: map<Name, Doc>, k: int): Batch
    requires HasBatch(docs, k)
  {
    docs[BatchFile(k)].batch
  }

  predicate Acked(docs: map<Name, Doc>, k: int) {
    HasBatch(docs, k) && AckFile(k) in docs
  }

  predicate GoodAck(d: Doc, b: Batch) {
    d.AckDoc? && ValidAck(d.ack, b) && 0 <= d.ackedAt <= MAX_NUMBER
  }

  predicate GoodFailure(d: Doc, b: Batch) {
    d.FailureDoc? && d.batchId == b.bound.batchId && 0 <= d.failedAt <= MAX_NUMBER
  }

  ghost predicate WellNamed(docs: map<Name, Doc>, n: Name, valid: Batch -> bool) {
    match n
    case Identity => true
    case BatchFile(k) => HasBatch(docs, k) && valid(BatchAt(docs, k)) && BatchAt(docs, k).bound.first == k
    case AckFile(k) => HasBatch(docs, k) && (n in docs ==> GoodAck(docs[n], BatchAt(docs, k)))
    case FailureFile(k) => HasBatch(docs, k) && AckFile(k) !in docs && (n in docs ==> GoodFailure(docs[n], BatchAt(docs, k)))
    case Stray => false
  }

  /** The acknowledged windows tile 1..cursor; at most one batch is pending, just above. */
  ghost predicate Consistent(docs: map<Name, Doc>, valid: Batch -> bool, cursor: int, pending: Option<Batch>) {
    && (forall n :: n in docs ==> WellNamed(docs, n, valid))
    && 0 <= cursor
    && (forall k :: Acked(docs, k) ==> BatchAt(docs, k).bound.last <= cursor)
    && (forall s :: 1 <= s <= cursor ==> InAckedWindow(docs, s))
    && (forall k, m :: HasBatch(docs, k) && HasBatch(docs, m) && k < m ==> BatchAt(docs, k).bound.last < m)
    && (forall k :: HasBatch(docs, k) && !Acked(docs, k) ==> pending == Some(BatchAt(docs, k)))
    && (pending.Some? ==> IsPending(docs, cursor, pending.value))
  }

  /** The batch stands just above the cursor, without an acknowledgement. */
  predicate IsPending(docs: map<Name, Doc>, cursor: int, b: Batch) {
    b.bound.first == cursor + 1 && HasBatch(docs, cursor + 1) && BatchAt(docs, cursor + 1) == b && !Acked(docs, cursor + 1)
  }

  ghost predicate InAckedWindow(docs: map<Name, Doc>, s: int) {
    exists k :: Acked(docs, k) && k <= s <= BatchAt(docs, k).bound.last
  }

  /** No sequence is acknowledged twice. */
  lemma WindowsAreDisjoint(docs: map<Name, Doc>, valid: Batch -> bool, cursor: int, pending: Option<Batch>,
                           s: int, k: int, m: int)
    requires HasWindows(valid)
    requires Consistent(docs, valid, cursor, pending)
    requires Acked(docs, k) && k <= s <= BatchAt(docs, k).bound.last
    requires Acked(docs, m) && m <= s <= BatchAt(docs, m).bound.last
    ensures k == m && 1 <= s <= cursor
  {
    assert WellNamed(docs, BatchFile(k), valid);
  }

  /** Row `i` of the export, and no other, holds the sequence. */
  predicate IsOnlyRow(x: Export, i: int, s: int)
    requires |x.lines| >= 2
  {
    && 0 <= i < |Rows(x)| && Rows(x)[i] == Event(Number(s))
    && forall j :: 0 <= j < |Rows(x)| && j != i ==> Rows(x)[j] != Event(Number(s))
  }

  /** Batch `k` was acknowledged and its export holds the sequence in exactly one row. */
  ghost predicate Delivers(docs: map<Name, Doc>, k: int, s: int) {
    && Acked(docs, k) && k <= s <= BatchAt(docs, k).bound.last && |BatchAt(docs, k).content.lines| >= 2
    && exists i :: IsOnlyRow(BatchAt(docs, k).content, i, s)
  }

  /** Whatever the journal accepts: every sequence from 1 to the cursor, and no other, was
      delivered, by exactly one batch and in exactly one row of it. */
  lemma DeliveredExactlyOnce(docs: map<Name, Doc>, source: string, vault: string, cursor: int, pending: Option<Batch>, s: int)
    requires Consistent(docs, ValidFor(source, vault), cursor, pending)
    ensures 1 <= s <= cursor <==> exists k :: Delivers(docs, k, s)
    ensures forall k, m :: Delivers(docs, k, s) && Delivers(docs, m, s) ==> k == m
  {
    var valid := ValidFor(source, vault);
    forall k, m | Delivers(docs, k, s) && Delivers(docs, m, s) ensures k == m && 1 <= s <= cursor {
      WindowsAreDisjoint(docs, valid, cursor, pending, s, k, m);
    }
    if 1 <= s <= cursor {
      assert InAckedWindow(docs, s);
      var k :| Acked(docs, k) && k <= s <= BatchAt(docs, k).bound.last;
      assert WellNamed(docs, BatchFile(k), valid);
      RowOfWindow(BatchAt(docs, k), source, vault, s);
      assert Delivers(docs, k, s);
    }
  }

  lemma RowOfWindow(b: Batch, source: string, vault: string, s: int)
    requires ValidBatch(b, source, vault) && b.bound.first <= s <= b.bound.last
    ensures |b.content.lines| >= 2 && exists i :: IsOnlyRow(b.content, i, s)
  {
    WindowExactlyOnce(b.content, b.bound.first - 1, s);
    var rows := Rows(b.content);
    var i :| 0 <= i < |rows| && rows[i].sequence == Number(s)
             && forall j :: 0 <= j < |rows| && j != i ==> rows[j].sequence != Number(s);
    assert IsOnlyRow(b.content, i, s);
  }

  /** The documents determine what the journal says. */
  lemma JournalIsDetermined(docs: map<Name, Doc>, valid: Batch -> bool,
                            c: int, p: Option<Batch>, c': int, p': Option<Batch>)
    requires HasWindows(valid)
    requires Consistent(docs, valid, c, p) && Consistent(docs, valid, c', p')
    ensures c == c' && p == p'
  {
    assert c < c' ==> InAckedWindow(docs, c + 1);
    assert c' < c ==> InAckedWindow(docs, c' + 1);
  }

  // ---------------------------------------------------------------- reading the journal

  datatype JournalState = JournalState(cursor: int, pending: Option<Batch>, total: nat)

  /** `batches.sort(key=...)` by first sequence. */
  method SortFirsts(names: set<Name>) returns (sorted: seq<int>)
    requires forall n :: n in names ==> n.BatchFile?
    ensures forall i :: 0 <= i < |sorted| ==> BatchFile(sorted[i]) in names
    ensures forall n :: n in names ==> n.first in sorted
    ensures forall i, j :: 0 <= i < j < |sorted| ==> sorted[i] < sorted[j]
  {
    sorted := [];
    var rest := names;
    while rest != {}
      invariant rest <= names
      invariant forall i :: 0 <= i < |sorted| ==> BatchFile(sorted[i]) in names
      invariant forall i, n :: 0 <= i < |sorted| && n in rest ==> sorted[i] < n.first
      invariant forall n :: n in names ==> n in rest || n.first in sorted
      invariant forall i, j :: 0 <= i < j < |sorted| ==> sorted[i] < sorted[j]
      decreases |rest|
    {
      var least := Least(rest);
      forall n | n in rest && n != least ensures least.first < n.first {
        assert n == BatchFile(n.first) && least == BatchFile(least.first);
      }
      sorted, rest := sorted + [least.first], rest - {least};
    }
  }

  method Least(names: set<Name>) returns (least: Name)
    requires names != {} && forall n :: n in names ==> n.BatchFile?
    ensures least in names && forall n :: n in names ==> least.first <= n.first
  {
    least :| least in names;
    var rest := names - {least};
    while rest != {}
      invariant rest <= names && least in names
      invariant forall n :: n in names ==> n in rest || least.first <= n.first
      decreases |rest|
    {
      var n :| n in rest;
      if n.first < least.first {
        least := n;
      }
      rest := rest - {n};
    }
  }

  ghost predicate InWalkedWindow(docs: map<Name, Doc>, walked: seq<int>, s: int) {
    exists j :: 0 <= j < |walked| && Acked(docs, walked[j]) && walked[j] <= s <= BatchAt(docs, walked[j]).bound.last
  }

  /** What the first `i` sorted batches have been found to be. */
  ghost predicate Walked(docs: map<Name, Doc>, valid: Batch -> bool, firsts: seq<int>, i: nat,
                         cursor: int, pending: Option<Batch>) {
    && i <= |firsts| && 0 <= cursor
    && (forall j :: 0 <= j < |firsts| ==> WellNamed(docs, BatchFile(firsts[j]), valid))
    && (forall k :: HasBatch(docs, k) ==> k in firsts)
    && (forall j, k :: 0 <= j < k < |firsts| ==> firsts[j] < firsts[k])
    && (forall j :: 0 <= j < i && AckFile(firsts[j]) in docs ==>
          BatchAt(docs, firsts[j]).bound.last <= cursor && WellNamed(docs, AckFile(firsts[j]), valid))
    && (forall j :: 0 <= j < i && AckFile(firsts[j]) !in docs ==>
          j == i - 1 && pending == Some(BatchAt(docs, firsts[j])) && firsts[j] == cursor + 1)
    && (pending.Some? ==> i > 0 && AckFile(firsts[i - 1]) !in docs)
    && (forall s :: 1 <= s <= cursor ==> InWalkedWindow(docs, firsts[..i], s))
    && (forall j, k :: 0 <= j < k < i ==> BatchAt(docs, firsts[j]).bound.last < firsts[k])
  }

  /** In consistent documents the walk meets the next batch exactly where it expects it. */
  lemma WalkMeetsNext(docs: map<Name, Doc>, valid: Batch -> bool, firsts: seq<int>, i: nat,
                      cursor: int, pending: Option<Batch>, c: int, p: Option<Batch>)
    requires HasWindows(valid)
    requires Walked(docs, valid, firsts, i, cursor, pending) && Consistent(docs, valid, c, p)
    ensures i < |firsts| ==> pending.None? && firsts[i] == cursor + 1
  {
    if i < |firsts| {
      var k := firsts[i];
      assert HasBatch(docs, k) && WellNamed(docs, BatchFile(k), valid);
      assert forall j :: 0 <= j < i ==> HasBatch(docs, firsts[j]) && BatchAt(docs, firsts[j]).bound.last < k;
      var walked := firsts[..i];
      assert 1 <= k <= cursor ==> InWalkedWindow(docs, walked, k);
      assert pending.None? ==> cursor < k;
      assert k != cursor + 1 ==> k > cursor + 1 || pending.Some?;
      assert cursor + 1 <= c ==> InAckedWindow(docs, cursor + 1);
    }
  }

  lemma WalkedIsConsistent(docs: map<Name, Doc>, valid: Batch -> bool, firsts: seq<int>,
                           cursor: int, pending: Option<Batch>)
    requires HasWindows(valid)
    requires Walked(docs, valid, firsts, |firsts|, cursor, pending)
    requires forall n :: n in docs && !n.BatchFile? ==> WellNamed(docs, n, valid)
    requires forall n :: n in docs && n.BatchFile? ==> docs[n].BatchDoc?
    ensures Consistent(docs, valid, cursor, pending)
  {
    forall n | n in docs && n.BatchFile? ensures WellNamed(docs, n, valid) {
      assert HasBatch(docs, n.first);
      assert n.first in firsts;
    }
    forall s | 1 <= s <= cursor ensures InAckedWindow(docs, s) {
      assert InWalkedWindow(docs, firsts[..|firsts|], s);
    }
  }

  /** In consistent documents the next batch is where the walk expects it. */
  lemma NextIsForced(docs: map<Name, Doc>, valid: Batch -> bool, firsts: seq<int>, i: nat, cursor: int, pending: Option<Batch>)
    requires HasWindows(valid) && Walked(docs, valid, firsts, i, cursor, pending) && i < |firsts|
    ensures forall c, p :: Consistent(docs, valid, c, p) ==> pending.None? && firsts[i] == cursor + 1
  {
    forall c, p | Consistent(docs, valid, c, p) ensures pending.None? && firsts[i] == cursor + 1 {
      WalkMeetsNext(docs, valid, firsts, i, cursor, pending, c, p);
    }
  }

  method CheckBatch(docs: map<Name, Doc>, n: Name, source: string, vault: string) returns (good: bool)
    requires n in docs && n.BatchFile?
    ensures good <==> WellNamed(docs, n, ValidFor(source, vault))
  {
    assert n == BatchFile(n.first);
    if !docs[n].BatchDoc? {
      return false;
    }
    good := ValidateBatch(docs[n].batch, source, vault);
    good := good && docs[n].batch.bound.first == n.first;
  }

  /** The first loop of `journal`: sizes, unknown names, and the batches. */
  method ReadBatches(docs: map<Name, Doc>, source: string, vault: string)
    returns (ok: bool, total: nat, batches: set<Name>)
    ensures ok ==> total == Total(docs) && forall n :: n in batches <==> n in docs && n.BatchFile?
    ensures ok ==> Stray !in docs && forall n :: n in batches ==> WellNamed(docs, n, ValidFor(source, vault))
    ensures !ok ==> exists n :: n in docs && !WellNamed(docs, n, ValidFor(source, vault))
  {
    total, batches := 0, {};
    ghost var valid := ValidFor(source, vault);
    var rest := docs.Keys;
    while rest != {}
      invariant rest <= docs.Keys && total + TotalOf(docs, rest) == Total(docs)
      invariant forall n :: n in batches <==> n in docs && n !in rest && n.BatchFile?
      invariant Stray in docs ==> Stray in rest
      invariant forall n :: n in batches ==> WellNamed(docs, n, valid)
      decreases |rest|
    {
      var n :| n in rest;
      TotalWithout(docs, rest, n);
      total := total + Size(docs[n]);
      if n == Stray {
        assert !WellNamed(docs, n, valid);
        return false, total, batches;
      }
      if n.BatchFile? {
        var good := CheckBatch(docs, n, source, vault);
        if !good {
          return false, total, batches;
        }
        batches := batches + {n};
      }
      rest := rest - {n};
    }
    ok := true;
  }

  /** One turn of the second loop of `journal`; `found` is the acknowledgement or failure
      that belongs to the batch, or the batch itself. */
  method Visit(docs: map<Name, Doc>, firsts: seq<int>, i: nat, cursor: int, pending: Option<Batch>,
               ghost valid: Batch -> bool)
    returns (good: bool, next: int, found: Name, waiting: Option<Batch>)
    requires HasWindows(valid) && Walked(docs, valid, firsts, i, cursor, pending) && i < |firsts|
    ensures !good ==> forall c, p :: !Consistent(docs, valid, c, p)
    ensures good ==> pending.None? && Walked(docs, valid, firsts, i + 1, next, waiting)
    ensures good ==> (found == AckFile(firsts[i]) <==> AckFile(firsts[i]) in docs)
    ensures good ==> (found == FailureFile(firsts[i]) <==> FailureFile(firsts[i]) in docs && waiting.Some?)
    ensures good && waiting.Some? ==> waiting.value.bound.first == firsts[i]
    ensures good && found == FailureFile(firsts[i]) ==> WellNamed(docs, found, valid)
  {
    var first := firsts[i];
    assert WellNamed(docs, BatchFile(first), valid);
    var batch := docs[BatchFile(first)].batch;
    good, next, found, waiting := false, cursor, BatchFile(first), None;
    if pending.Some? || batch.bound.first != cursor + 1 {
      assert first == batch.bound.first;
      NextIsForced(docs, valid, firsts, i, cursor, pending);
      return;
    }
    if AckFile(first) in docs {
      found := AckFile(first);
      if !GoodAck(docs[found], batch) {
        assert !WellNamed(docs, found, valid);
        return;
      }
      next := batch.bound.last;
    } else {
      waiting := Some(batch);
      if FailureFile(first) in docs {
        found := FailureFile(first);
        if !GoodFailure(docs[found], batch) {
          assert !WellNamed(docs, found, valid);
          return;
        }
      }
    }
    ExtendWalk(docs, valid, firsts, i, cursor, next, waiting);
    good := true;
  }

  /** The results collected for the batches visited. */
  ghost predicate Collected(docs: map<Name, Doc>, acks: set<Name>, failures: set<Name>, visited: seq<int>, pending: Option<Batch>,
                            valid: Batch -> bool) {
    && (forall n :: n in acks <==> n in docs && n.AckFile? && n.first in visited)
    && (forall n :: n in failures <==> pending.Some? && n in docs && n == FailureFile(pending.value.bound.first))
    && (forall n :: n in failures ==> WellNamed(docs, n, valid))
  }

  lemma CollectsNext(docs: map<Name, Doc>, acks: set<Name>, failures: set<Name>, visited: seq<int>, first: int, found: Name,
                     waiting: Option<Batch>, valid: Batch -> bool)
    requires Collected(docs, acks, failures, visited, None, valid)
    requires found == AckFile(first) <==> AckFile(first) in docs
    requires found == FailureFile(first) <==> FailureFile(first) in docs && waiting.Some?
    requires waiting.Some? ==> waiting.value.bound.first == first
    requires found == FailureFile(first) ==> WellNamed(docs, found, valid)
    ensures Collected(docs, if found == AckFile(first) then acks + {found} else acks,
                      if found == FailureFile(first) then failures + {found} else failures, visited + [first], waiting, valid)
  {
  }

  /** The orphan checks: every acknowledgement and failure belongs to a batch that was visited. */
  method CheckOrphans(docs: map<Name, Doc>, acks: set<Name>, failures: set<Name>, ghost valid: Batch -> bool,
                      ghost firsts: seq<int>, ghost cursor: int, ghost pending: Option<Batch>) returns (ok: bool)
    requires HasWindows(valid) && Walked(docs, valid, firsts, |firsts|, cursor, pending) && Stray !in docs
    requires forall n :: n in docs && n.BatchFile? ==> docs[n].BatchDoc?
    requires Collected(docs, acks, failures, firsts, pending, valid)
    ensures ok ==> Consistent(docs, valid, cursor, pending)
    ensures !ok ==> forall c, p :: !Consistent(docs, valid, c, p)
  {
    ok := false;
    if (set n | n in docs && n.AckFile?) != acks {
      OrphanAck(docs, valid, firsts, cursor, pending, acks);
      return;
    }
    if (set n | n in docs && n.FailureFile?) != failures {
      OrphanFailure(docs, valid, firsts, cursor, pending, failures);
      return;
    }
    assert forall n :: n in docs && n.AckFile? ==> n in acks;
    assert forall n :: n in docs && n.FailureFile? ==> n in failures;
    NoOrphans(docs, valid, firsts, cursor, pending);
    ok := true;
  }

  /** The turn, with what it collects. */
  method VisitNext(docs: map<Name, Doc>, firsts: seq<int>, i: nat, cursor: int, pending: Option<Batch>, acks: set<Name>,
                   failures: set<Name>, ghost valid: Batch -> bool)
    returns (good: bool, next: int, waiting: Option<Batch>, moreAcks: set<Name>, moreFailures: set<Name>)
    requires HasWindows(valid) && Walked(docs, valid, firsts, i, cursor, pending) && i < |firsts|
    requires Collected(docs, acks, failures, firsts[..i], pending, valid)
    ensures !good ==> forall c, p :: !Consistent(docs, valid, c, p)
    ensures good ==> Walked(docs, valid, firsts, i + 1, next, waiting)
                     && Collected(docs, moreAcks, moreFailures, firsts[..i + 1], waiting, valid)
  {
    var found;
    good, next, found, waiting := Visit(docs, firsts, i, cursor, pending, valid);
    moreAcks, moreFailures := acks, failures;
    if good {
      assert firsts[..i + 1] == firsts[..i] + [firsts[i]];
      CollectsNext(docs, acks, failures, firsts[..i], firsts[i], found, waiting, valid);
      if found == AckFile(firsts[i]) {
        moreAcks := acks + {found};
      } else if found == FailureFile(firsts[i]) {
        moreFailures := failures + {found};
      }
    }
  }

  /** The second loop of `journal`, over the sorted batches, and the orphan checks. */
  method Walk(docs: map<Name, Doc>, firsts: seq<int>, ghost valid: Batch -> bool)
    returns (ok: bool, cursor: int, pending: Option<Batch>)
    requires HasWindows(valid) && Walked(docs, valid, firsts, 0, 0, None) && Stray !in docs
    requires forall n :: n in docs && n.BatchFile? ==> docs[n].BatchDoc?
    ensures ok ==> Consistent(docs, valid, cursor, pending)
    ensures !ok ==> forall c, p :: !Consistent(docs, valid, c, p)
  {
    cursor, pending, ok := 0, None, false;
    var acks: set<Name>, failures: set<Name> := {}, {};
    for i := 0 to |firsts|
      invariant Walked(docs, valid, firsts, i, cursor, pending)
      invariant Collected(docs, acks, failures, firsts[..i], pending, valid)
    {
      var good;
      good, cursor, pending, acks, failures := VisitNext(docs, firsts, i, cursor, pending, acks, failures, valid);
      if !good {
        return;
      }
    }
    assert firsts[..|firsts|] == firsts;
    ok := CheckOrphans(docs, acks, failures, valid, firsts, cursor, pending);
  }

  lemma NoOrphans(docs: map<Name, Doc>, valid: Batch -> bool, firsts: seq<int>, cursor: int, pending: Option<Batch>)
    requires HasWindows(valid) && Walked(docs, valid, firsts, |firsts|, cursor, pending) && Stray !in docs
    requires forall n :: n in docs && n.BatchFile? ==> docs[n].BatchDoc?
    requires forall n :: n in docs && n.AckFile? ==> n.first in firsts
    requires forall n :: n in docs && n.FailureFile? ==> WellNamed(docs, n, valid)
    ensures Consistent(docs, valid, cursor, pending)
  {
    forall n | n in docs && !n.BatchFile? ensures WellNamed(docs, n, valid) {
      if n.AckFile? {
        var j :| 0 <= j < |firsts| && firsts[j] == n.first;
        assert n == AckFile(firsts[j]);
      }
    }
    WalkedIsConsistent(docs, valid, firsts, cursor, pending);
  }

  lemma ExtendWalk(docs: map<Name, Doc>, valid: Batch -> bool, firsts: seq<int>, i: nat, before: int,
                   cursor: int, pending: Option<Batch>)
    requires HasWindows(valid) && Walked(docs, valid, firsts, i, before, None)
    requires i < |firsts| && firsts[i] == before + 1
    requires AckFile(firsts[i]) in docs ==>
               WellNamed(docs, AckFile(firsts[i]), valid) && cursor == BatchAt(docs, firsts[i]).bound.last && pending.None?
    requires AckFile(firsts[i]) !in docs ==> cursor == before && pending == Some(BatchAt(docs, firsts[i]))
    ensures Walked(docs, valid, firsts, i + 1, cursor, pending)
  {
    assert WellNamed(docs, BatchFile(firsts[i]), valid);
    var more := firsts[..i + 1];
    forall s | 1 <= s <= cursor ensures InWalkedWindow(docs, more, s) {
      ExtendWindow(docs, firsts, i, before, cursor, s);
    }
  }

  lemma ExtendWindow(docs: map<Name, Doc>, firsts: seq<int>, i: nat, before: int, cursor: int, s: int)
    requires i < |firsts| && s <= cursor
    requires s <= before ==> InWalkedWindow(docs, firsts[..i], s)
    requires s > before ==> Acked(docs, firsts[i]) && firsts[i] <= s <= BatchAt(docs, firsts[i]).bound.last
    ensures InWalkedWindow(docs, firsts[..i + 1], s)
  {
    var more := firsts[..i + 1];
    if s <= before {
      var j :| 0 <= j < i && Acked(docs, firsts[..i][j]) && firsts[..i][j] <= s <= BatchAt(docs, firsts[..i][j]).bound.last;
      assert more[j] == firsts[..i][j];
    } else {
      assert more[i] == firsts[i];
    }
  }

  lemma OrphanAck(docs: map<Name, Doc>, valid: Batch -> bool, firsts: seq<int>, cursor: int, pending: Option<Batch>, acks: set<Name>)
    requires Walked(docs, valid, firsts, |firsts|, cursor, pending)
    requires forall n :: n in acks <==> n in docs && n.AckFile? && n.first in firsts
    requires (set n | n in docs && n.AckFile?) != acks
    ensures forall c, p :: !Consistent(docs, valid, c, p)
  {
    var n :| n in docs && n.AckFile? && n !in acks;
    assert n == AckFile(n.first) && !HasBatch(docs, n.first);
    assert !WellNamed(docs, n, valid);
  }

  lemma OrphanFailure(docs: map<Name, Doc>, valid: Batch -> bool, firsts: seq<int>, cursor: int, pending: Option<Batch>,
                      failures: set<Name>)
    requires Walked(docs, valid, firsts, |firsts|, cursor, pending)
    requires forall n :: n in failures <==> pending.Some? && n in docs && n == FailureFile(pending.value.bound.first)
    requires (set n | n in docs && n.FailureFile?) != failures
    ensures forall c, p :: !Consistent(docs, valid, c, p)
  {
    var n :| n in docs && n.FailureFile? && n !in failures;
    assert n == FailureFile(n.first);
    assert !WellNamed(docs, n, valid);
  }

  /** `journal`: it succeeds exactly on consistent documents, with their cursor and pending
      batch and the bytes they occupy. */
  method Journal(docs: map<Name, Doc>, source: string, vault: string) returns (r: Result<JournalState, ()>)
    ensures r.Ok? ==> Consistent(docs, ValidFor(source, vault), r.value.cursor, r.value.pending)
                      && r.value.total == Total(docs)
    ensures r.Err? ==> forall c, p :: !Consistent(docs, ValidFor(source, vault), c, p)
  {
    var ok, total, batches := ReadBatches(docs, source, vault);
    if !ok {
      return Err(());
    }
    var firsts := SortFirsts(batches);
    var cursor, pending;
    ok, cursor, pending := Walk(docs, firsts, ValidFor(source, vault));
    return if ok then Ok(JournalState(cursor, pending, total)) else Err(());
  }
}
