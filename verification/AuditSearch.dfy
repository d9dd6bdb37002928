/** The paged search for an activation event (`audit_evidence` in
    scripts/rekey-controlplane.py). */
module AuditSearch {
  import opened AuditExport
  import opened Outcomes

  const PAGE_LIMIT := 25
  const MAX_CALLS := 10

  /** A digest, taken to be injective, of the artifact bytes that it names. */
  datatype Hash<T> = HashOf(of: T)

  /** The reason code: `policy-activated:` with a version and a digest, or any other text. */
  datatype Reason<T> = PolicyActivated(version: int, bundle: Hash<T>) | OtherReason(text: string)

  /** One row of a page. `rightType` says that it is an object with the record type asked for. */
  datatype Row<T> = Row(rightType: bool, sequence: Field, eventType: string, outcome: string, reason: Reason<T>,
                        createdAt: Field, eventId: string)

  /** One page. `rightShape` says that it has exactly the fields and the schema asked for. */
  datatype Page<T> = Page(rightShape: bool, snapshotMax: Field, rows: seq<Row<T>>, next: Option<Field>)

  /** What the CLI answers to each call, given the snapshot and the cursor it is called with;
      nothing when it fails. */
  type Pager<!T> = (nat, Option<int>, Option<int>) -> Option<Page<T>>

  // ---------------------------------------------------------------- one page

  predicate ActivationId(s: string) {
    |s| == 32 && forall i :: 0 <= i < 32 ==> IsHex(s[i])
  }

  predicate Matches<T(==)>(r: Row<T>, reason: Reason<T>) {
    r.eventType == "policy.activated" && r.outcome == "success" && r.reason == reason && InRange(r.createdAt)
  }

  predicate GoodShape<T>(p: Page<T>, snapshot: Option<int>) {
    && p.rightShape && InRange(p.snapshotMax) && p.snapshotMax.n > 0 && |p.rows| <= PAGE_LIMIT
    && (snapshot.Some? ==> snapshot.value == p.snapshotMax.n)
  }

  /** The sequence that a page's rows start below. */
  function Start(max: int, cursor: Option<int>): int {
    if cursor.Some? then cursor.value else max + 1
  }

  /** The sequence that row `i` must stay below. */
  function Previous<T>(rows: seq<Row<T>>, i: nat, start: int): int
    requires i <= |rows|
  {
    if i == 0 then start else if rows[i - 1].sequence.Number? then rows[i - 1].sequence.n else 0
  }

  predicate GoodRow<T(==)>(rows: seq<Row<T>>, i: int, start: int, max: int, reason: Reason<T>)
    requires 0 <= i < |rows|
  {
    && rows[i].rightType && InRange(rows[i].sequence) && 0 < rows[i].sequence.n < Previous(rows, i, start)
    && rows[i].sequence.n <= max && (Matches(rows[i], reason) ==> ActivationId(rows[i].eventId))
  }

  /** Well-formed rows in strictly descending sequence below the start and within the snapshot;
      a matching row has an event identifier. */
  predicate GoodRows<T(==)>(rows: seq<Row<T>>, start: int, max: int, reason: Reason<T>) {
    forall i :: 0 <= i < |rows| ==> GoodRow(rows, i, start, max, reason)
  }

  predicate GoodNext<T>(p: Page<T>, cursor: Option<int>)
    requires GoodShape(p, None)
  {
    p.next.Some? ==>
      && InRange(p.next.value) && 0 < p.next.value.n <= p.snapshotMax.n
      && (cursor.Some? ==> p.next.value.n < cursor.value)
      && (forall i :: 0 <= i < |p.rows| ==> p.rows[i].sequence.Number? && p.rows[i].sequence.n >= p.next.value.n)
      && (|p.rows| > 0 || p.next.value.n < p.snapshotMax.n)
  }

  ghost predicate GoodPage<T>(p: Page<T>, snapshot: Option<int>, cursor: Option<int>, reason: Reason<T>) {
    && GoodShape(p, snapshot) && GoodRows(p.rows, Start(p.snapshotMax.n, cursor), p.snapshotMax.n, reason)
    && GoodNext(p, cursor)
  }

  predicate NoMatch<T(==)>(rows: seq<Row<T>>, from: int, to: int, reason: Reason<T>)
    requires 0 <= from && to <= |rows|
  {
    forall i :: from <= i < to ==> !Matches(rows[i], reason)
  }

  predicate HasMatch<T(==)>(rows: seq<Row<T>>, reason: Reason<T>) {
    !NoMatch(rows, 0, |rows|, reason)
  }

  /** The row that the search takes from a page: its last match. */
  predicate IsLastMatch<T(==)>(rows: seq<Row<T>>, reason: Reason<T>, m: int) {
    0 <= m < |rows| && Matches(rows[m], reason) && NoMatch(rows, m + 1, |rows|, reason)
  }

  ghost predicate IsTaken<T>(rows: seq<Row<T>>, reason: Reason<T>, row: Row<T>) {
    exists m :: IsLastMatch(rows, reason, m) && rows[m] == row
  }

  // ---------------------------------------------------------------- the calls

  /** The snapshot that call `i` asks for: that of the first page, none at first. */
  ghost function SnapshotAt<T>(pages: seq<Page<T>>, i: nat): Option<int>
    requires i <= |pages|
  {
    if i > 0 && pages[i - 1].snapshotMax.Number? then Some(pages[i - 1].snapshotMax.n) else None
  }

  ghost function CursorAt<T>(pages: seq<Page<T>>, i: nat): Option<int>
    requires i <= |pages|
  {
    if i > 0 && pages[i - 1].next.Some? && pages[i - 1].next.value.Number? then Some(pages[i - 1].next.value.n) else None
  }

  /** The pages are the answers to the calls made, each of them accepted and pointing on. */
  ghost predicate Asked<T>(pager: Pager<T>, pages: seq<Page<T>>, reason: Reason<T>) {
    && (forall i :: 0 <= i < |pages| ==> AskedAt(pager, pages, i, reason))
    && (forall i :: 0 <= i < |pages| - 1 ==> pages[i].next.Some? && !HasMatch(pages[i].rows, reason))
  }

  ghost predicate AskedAt<T>(pager: Pager<T>, pages: seq<Page<T>>, i: nat, reason: Reason<T>)
    requires i < |pages|
  {
    && pager(i, SnapshotAt(pages, i), CursorAt(pages, i)) == Some(pages[i])
    && GoodPage(pages[i], SnapshotAt(pages, i), CursorAt(pages, i), reason)
  }

  /** Why the search goes no further after these pages. */
  ghost predicate Exhausted<T>(pager: Pager<T>, pages: seq<Page<T>>, reason: Reason<T>) {
    var n := |pages|;
    n == MAX_CALLS || (n > 0 && pages[n - 1].next.None?) || Refused(pager(n, SnapshotAt(pages, n), CursorAt(pages, n)), pages, reason)
  }

  ghost predicate Refused<T>(answer: Option<Page<T>>, pages: seq<Page<T>>, reason: Reason<T>) {
    answer.None? || !GoodPage(answer.value, SnapshotAt(pages, |pages|), CursorAt(pages, |pages|), reason)
  }

  /** What a search that accepted these pages returns: the last match on the last page, or
      nothing when it holds no match and cannot go on. */
  ghost predicate Searched<T>(pager: Pager<T>, reason: Reason<T>, r: Option<(Row<T>, int)>, pages: seq<Page<T>>) {
    && |pages| <= MAX_CALLS && Asked(pager, pages, reason)
    && match r
       case Some((row, max)) =>
         |pages| > 0 && pages[|pages| - 1].snapshotMax == Number(max) && IsTaken(pages[|pages| - 1].rows, reason, row)
       case None =>
         (|pages| > 0 ==> !HasMatch(pages[|pages| - 1].rows, reason)) && Exhausted(pager, pages, reason)
  }

  /** The checks on one page's rows, and its last match. */
  method ScanRows<T(==)>(rows: seq<Row<T>>, start: int, max: int, reason: Reason<T>) returns (good: bool, found: Option<Row<T>>)
    ensures good <==> GoodRows(rows, start, max, reason)
    ensures good && found.Some? ==> IsTaken(rows, reason, found.value)
    ensures good && found.None? ==> !HasMatch(rows, reason)
  {
    var previous := start;
    found := None;
    ghost var last := 0;
    for i := 0 to |rows|
      invariant forall j :: 0 <= j < i ==> GoodRow(rows, j, start, max, reason)
      invariant previous == Previous(rows, i, start)
      invariant found.Some? ==> 0 <= last < i && rows[last] == found.value && Matches(rows[last], reason)
      invariant NoMatch(rows, if found.Some? then last + 1 else 0, i, reason)
    {
      var row := rows[i];
      if !(row.rightType && InRange(row.sequence) && 0 < row.sequence.n < previous && row.sequence.n <= max) {
        assert !GoodRow(rows, i, start, max, reason);
        return false, None;
      }
      previous := row.sequence.n;
      if Matches(row, reason) {
        if !ActivationId(row.eventId) {
          assert !GoodRow(rows, i, start, max, reason);
          return false, None;
        }
        found, last := Some(row), i;
      }
    }
    assert found.Some? ==> IsLastMatch(rows, reason, last);
    good := true;
  }

  /** Each call brought an accepted page, except that a search may fail at a last one that did
      not. */
  ghost predicate InCalls<T>(pages: seq<Page<T>>, r: Option<(Row<T>, int)>, calls: nat) {
    calls <= MAX_CALLS && (calls == |pages| || (r.None? && calls == |pages| + 1))
  }

  /** `audit_evidence`, over any pager: at most ten calls, for one snapshot and with falling
      cursors; it fails only when what it has accepted holds no match and it cannot go on. */
  method AuditEvidence<T(==)>(pager: Pager<T>, reason: Reason<T>)
    returns (r: Option<(Row<T>, int)>, calls: nat)
    ensures exists pages :: Searched(pager, reason, r, pages) && InCalls(pages, r, calls)
  {
    calls := 0;
    var snapshot: Option<int>, cursor: Option<int> := None, None;
    ghost var pages: seq<Page<T>> := [];
    for i := 0 to MAX_CALLS
      invariant |pages| == calls == i && Asked(pager, pages, reason)
      invariant snapshot == SnapshotAt(pages, i) && cursor == CursorAt(pages, i)
      invariant forall j :: 0 <= j < i ==> pages[j].next.Some? && !HasMatch(pages[j].rows, reason)
    {
      var answer := pager(i, snapshot, cursor);
      calls := i + 1;
      if answer.None? || !GoodShape(answer.value, snapshot) {
        assert Searched(pager, reason, None, pages) && InCalls(pages, None, calls);
        return None, calls;
      }
      var page := answer.value;
      var good, found := ScanRows(page.rows, Start(page.snapshotMax.n, cursor), page.snapshotMax.n, reason);
      if !good || !GoodNext(page, cursor) {
        assert Searched(pager, reason, None, pages) && InCalls(pages, None, calls);
        return None, calls;
      }
      ExtendAsked(pager, pages, page, reason);
      pages := pages + [page];
      if found.Some? {
        assert Searched(pager, reason, Some((found.value, page.snapshotMax.n)), pages);
        return Some((found.value, page.snapshotMax.n)), calls;
      }
      if page.next.None? {
        assert Searched(pager, reason, None, pages) && InCalls(pages, None, calls);
        return None, calls;
      }
      snapshot, cursor := Some(page.snapshotMax.n), Some(page.next.value.n);
    }
    assert Searched(pager, reason, None, pages) && InCalls(pages, None, calls);
    return None, calls;
  }

  lemma ExtendAsked<T>(pager: Pager<T>, pages: seq<Page<T>>, page: Page<T>, reason: Reason<T>)
    requires Asked(pager, pages, reason)
    requires forall i :: 0 <= i < |pages| ==> pages[i].next.Some? && !HasMatch(pages[i].rows, reason)
    requires pager(|pages|, SnapshotAt(pages, |pages|), CursorAt(pages, |pages|)) == Some(page)
    requires GoodPage(page, SnapshotAt(pages, |pages|), CursorAt(pages, |pages|), reason)
    ensures Asked(pager, pages + [page], reason)
  {
    var more := pages + [page];
    forall i | 0 <= i < |more| ensures AskedAt(pager, more, i, reason) {
      assert SnapshotAt(more, i) == SnapshotAt(pages, i) && CursorAt(more, i) == CursorAt(pages, i);
      assert i < |pages| ==> AskedAt(pager, pages, i, reason);
    }
  }

  // ---------------------------------------------------------------- every row accepted at most once

  lemma {:induction false} OneSnapshot<T>(pager: Pager<T>, pages: seq<Page<T>>, reason: Reason<T>, i: nat)
    requires Asked(pager, pages, reason) && i < |pages|
    ensures pages[i].snapshotMax == pages[0].snapshotMax
  {
    if i > 0 {
      OneSnapshot(pager, pages, reason, i - 1);
      assert AskedAt(pager, pages, i - 1, reason) && AskedAt(pager, pages, i, reason);
    }
  }

  lemma {:induction false} CursorsFall<T>(pager: Pager<T>, pages: seq<Page<T>>, reason: Reason<T>, i: nat, j: nat)
    requires Asked(pager, pages, reason) && i < j < |pages|
    ensures pages[i].next.Some? && pages[i].next.value.Number? && CursorAt(pages, j).Some?
    ensures CursorAt(pages, j).value <= pages[i].next.value.n
    decreases j
  {
    assert AskedAt(pager, pages, i, reason);
    if i < j - 1 {
      CursorsFall(pager, pages, reason, i, j - 1);
      assert AskedAt(pager, pages, j - 1, reason);
    }
  }

  lemma {:induction false} RowsFall<T>(rows: seq<Row<T>>, start: int, max: int, reason: Reason<T>, a: nat, b: nat)
    requires GoodRows(rows, start, max, reason) && a < b < |rows|
    ensures rows[a].sequence.Number? && rows[b].sequence.Number? && rows[b].sequence.n < rows[a].sequence.n
    decreases b
  {
    assert GoodRow(rows, a, start, max, reason) && GoodRow(rows, b, start, max, reason);
    if a < b - 1 {
      RowsFall(rows, start, max, reason, a, b - 1);
    }
  }

  lemma RowsStartBelow<T>(rows: seq<Row<T>>, start: int, max: int, reason: Reason<T>, a: nat)
    requires GoodRows(rows, start, max, reason) && a < |rows|
    ensures rows[a].sequence.Number? && rows[a].sequence.n < start
  {
    assert GoodRow(rows, 0, start, max, reason);
    if a > 0 {
      RowsFall(rows, start, max, reason, 0, a);
    }
  }

  /** Over any pager, the accepted rows fall strictly across all pages: no row is accepted
      twice or out of order. */
  lemma AcceptedRowsFall<T>(pager: Pager<T>, pages: seq<Page<T>>, reason: Reason<T>, i: nat, a: nat, j: nat, b: nat)
    requires Asked(pager, pages, reason) && i <= j < |pages| && a < |pages[i].rows| && b < |pages[j].rows|
    requires i < j || a < b
    ensures pages[i].rows[a].sequence.Number? && pages[j].rows[b].sequence.Number?
    ensures pages[j].rows[b].sequence.n < pages[i].rows[a].sequence.n
  {
    assert AskedAt(pager, pages, i, reason) && AskedAt(pager, pages, j, reason);
    if i == j {
      RowsFall(pages[i].rows, Start(pages[i].snapshotMax.n, CursorAt(pages, i)), pages[i].snapshotMax.n, reason, a, b);
    } else {
      CursorsFall(pager, pages, reason, i, j);
      RowsStartBelow(pages[j].rows, Start(pages[j].snapshotMax.n, CursorAt(pages, j)), pages[j].snapshotMax.n, reason, b);
    }
  }

  lemma {:induction false} PagesAgree<T>(pager: Pager<T>, reason: Reason<T>, p: seq<Page<T>>, q: seq<Page<T>>, i: nat)
    requires Asked(pager, p, reason) && Asked(pager, q, reason) && i < |p| && i < |q|
    ensures p[i] == q[i]
  {
    if i > 0 {
      PagesAgree(pager, reason, p, q, i - 1);
    }
    assert AskedAt(pager, p, i, reason) && AskedAt(pager, q, i, reason);
  }

  /** A finished search could not have gone on. */
  lemma SearchIsMaximal<T>(pager: Pager<T>, reason: Reason<T>, r: Option<(Row<T>, int)>, p: seq<Page<T>>, q: seq<Page<T>>)
    requires Searched(pager, reason, r, p) && Asked(pager, q, reason) && |q| <= MAX_CALLS
    ensures |q| <= |p|
  {
    forall i | 0 <= i < |p| && i < |q| ensures p[i] == q[i] {
      PagesAgree(pager, reason, p, q, i);
    }
    assert |p| < |q| ==> AskedAt(pager, q, |p|, reason);
  }

  /** The pager determines the result of the search. */
  lemma SearchIsDetermined<T>(pager: Pager<T>, reason: Reason<T>, r: Option<(Row<T>, int)>, p: seq<Page<T>>,
                              u: Option<(Row<T>, int)>, q: seq<Page<T>>)
    requires Searched(pager, reason, r, p) && Searched(pager, reason, u, q)
    ensures r == u && p == q
  {
    SearchIsMaximal(pager, reason, r, p, q);
    SearchIsMaximal(pager, reason, u, q, p);
    forall i | 0 <= i < |p| ensures p[i] == q[i] {
      PagesAgree(pager, reason, p, q, i);
    }
    assert p == q;
    if r.Some? && u.Some? {
      var rows := p[|p| - 1].rows;
      var m :| IsLastMatch(rows, reason, m) && rows[m] == r.value.0;
      var n :| IsLastMatch(rows, reason, n) && rows[n] == u.value.0;
      assert m == n;
    }
  }

  /** What the search returns is a well-formed match within the snapshot. */
  lemma FoundIsGood<T>(pager: Pager<T>, reason: Reason<T>, row: Row<T>, max: int, pages: seq<Page<T>>)
    requires Searched(pager, reason, Some((row, max)), pages)
    ensures Matches(row, reason) && row.rightType && ActivationId(row.eventId)
    ensures InRange(row.sequence) && 0 < row.sequence.n <= max <= MAX_NUMBER
  {
    assert AskedAt(pager, pages, |pages| - 1, reason);
    var rows := pages[|pages| - 1].rows;
    var m :| IsLastMatch(rows, reason, m) && rows[m] == row;
    assert GoodRow(rows, m, Start(max, CursorAt(pages, |pages| - 1)), max, reason);
  }

  // ---------------------------------------------------------------- a faithful pager

  /** The cursor separates the newest `k` rows of the log from the rest. */
  ghost predicate Separates<T>(log: seq<Row<T>>, k: nat, cursor: Option<int>)
    requires k <= |log|
  {
    match cursor
    case None => k == 0
    case Some(c) => (k > 0 ==> log[k - 1].sequence.Number? && c <= log[k - 1].sequence.n)
                    && (k < |log| ==> log[k].sequence.Number? && log[k].sequence.n < c)
  }

  function PageEnd(length: nat, k: nat): nat {
    if k + PAGE_LIMIT <= length then k + PAGE_LIMIT else length
  }

  /** The page after the newest `k` rows: the next 25, and a cursor exactly when rows remain. */
  ghost predicate IsPage<T>(answer: Option<Page<T>>, log: seq<Row<T>>, k: nat, max: int)
    requires k <= |log|
  {
    && answer.Some? && answer.value.rightShape && answer.value.snapshotMax == Number(max)
    && answer.value.rows == log[k..PageEnd(|log|, k)]
    && if PageEnd(|log|, k) == |log| then answer.value.next.None?
       else answer.value.next.Some? && answer.value.next.value.Number?
            && Separates(log, PageEnd(|log|, k), Some(answer.value.next.value.n))
  }

  ghost predicate Serves<T>(pager: Pager<T>, log: seq<Row<T>>, max: int, k: nat, i: nat, snapshot: Option<int>, cursor: Option<int>)
    requires k <= |log|
  {
    (snapshot.Some? ==> snapshot.value == max) && Separates(log, k, cursor) ==> IsPage(pager(i, snapshot, cursor), log, k, max)
  }

  /** The pager serves one log, newest row first, under one snapshot. */
  ghost predicate Faithful<T(!new)>(pager: Pager<T>, log: seq<Row<T>>, max: int, reason: Reason<T>) {
    && 0 < max <= MAX_NUMBER && GoodRows(log, max + 1, max, reason)
    && forall k: nat, i: nat, snapshot, cursor | k <= |log| :: Serves(pager, log, max, k, i, snapshot, cursor)
  }

  lemma FaithfulPageIsGood<T(!new)>(page: Page<T>, log: seq<Row<T>>, max: int, reason: Reason<T>, k: nat,
                                    snapshot: Option<int>, cursor: Option<int>)
    requires 0 < max <= MAX_NUMBER && GoodRows(log, max + 1, max, reason) && k <= |log| && IsPage(Some(page), log, k, max)
    requires (snapshot.Some? ==> snapshot.value == max) && Separates(log, k, cursor)
    ensures GoodPage(page, snapshot, cursor, reason)
  {
    var end := PageEnd(|log|, k);
    forall i | 0 <= i < |page.rows| ensures GoodRow(page.rows, i, Start(max, cursor), max, reason) {
      assert GoodRow(log, k + i, max + 1, max, reason);
    }
    if end < |log| {
      assert GoodRow(log, end, max + 1, max, reason) && GoodRow(log, end - 1, max + 1, max, reason);
      forall i | 0 <= i < |page.rows| ensures page.rows[i].sequence.Number? && page.rows[i].sequence.n >= page.next.value.n {
        assert GoodRow(log, k + i, max + 1, max, reason);
        if k + i < end - 1 {
          RowsFall(log, max + 1, max, reason, k + i, end - 1);
        }
      }
      RowsStartBelow(page.rows, Start(max, cursor), max, reason, |page.rows| - 1);
    }
  }

  /** Page `i` of a faithful pager starts after the newest `25 * i` rows. */
  lemma {:induction false} PagesFollow<T(!new)>(pager: Pager<T>, pages: seq<Page<T>>, log: seq<Row<T>>, max: int,
                                                reason: Reason<T>, i: nat)
    requires Faithful(pager, log, max, reason) && Asked(pager, pages, reason) && i <= |pages|
    requires i == |pages| > 0 ==> pages[i - 1].next.Some?
    ensures 25 * i <= |log| && Separates(log, 25 * i, CursorAt(pages, i))
    ensures var snapshot := SnapshotAt(pages, i); snapshot.Some? ==> snapshot.value == max
    ensures i < |pages| ==> IsPage(Some(pages[i]), log, 25 * i, max)
  {
    if i > 0 {
      PagesFollow(pager, pages, log, max, reason, i - 1);
    }
    assert Serves(pager, log, max, 25 * i, i, SnapshotAt(pages, i), CursorAt(pages, i));
    if i < |pages| {
      assert AskedAt(pager, pages, i, reason);
    }
  }

  /** A faithful pager's next answer is accepted. */
  lemma NextIsAccepted<T(!new)>(pager: Pager<T>, pages: seq<Page<T>>, log: seq<Row<T>>, max: int, reason: Reason<T>)
    requires Faithful(pager, log, max, reason) && Asked(pager, pages, reason)
    requires |pages| > 0 ==> pages[|pages| - 1].next.Some?
    ensures !Refused(pager(|pages|, SnapshotAt(pages, |pages|), CursorAt(pages, |pages|)), pages, reason)
  {
    var n := |pages|;
    PagesFollow(pager, pages, log, max, reason, n);
    assert Serves(pager, log, max, 25 * n, n, SnapshotAt(pages, n), CursorAt(pages, n));
    FaithfulPageIsGood(pager(n, SnapshotAt(pages, n), CursorAt(pages, n)).value, log, max, reason, 25 * n,
                       SnapshotAt(pages, n), CursorAt(pages, n));
  }

  /** Over a faithful pager only the tenth page, or the end of the log, ends the search. */
  lemma FaithfulEnd<T(!new)>(pager: Pager<T>, pages: seq<Page<T>>, log: seq<Row<T>>, max: int, reason: Reason<T>)
    requires Faithful(pager, log, max, reason) && Asked(pager, pages, reason) && Exhausted(pager, pages, reason)
    ensures |pages| == MAX_CALLS || (|pages| > 0 && pages[|pages| - 1].next.None?)
  {
    if |pages| == 0 || pages[|pages| - 1].next.Some? {
      NextIsAccepted(pager, pages, log, max, reason);
    }
  }

  /** No match on the first `i` pages is no match in the newest `25 * i` rows. */
  lemma {:induction false} NoMatchBefore<T(!new)>(pager: Pager<T>, pages: seq<Page<T>>, log: seq<Row<T>>, max: int,
                                                  reason: Reason<T>, i: nat)
    requires Faithful(pager, log, max, reason) && Asked(pager, pages, reason) && i <= |pages|
    requires i == |pages| > 0 ==> !HasMatch(pages[i - 1].rows, reason)
    ensures i > 0 ==> 25 * (i - 1) <= |log| && NoMatch(log, 0, PageEnd(|log|, 25 * (i - 1)), reason)
  {
    if i > 0 {
      NoMatchBefore(pager, pages, log, max, reason, i - 1);
      PagesFollow(pager, pages, log, max, reason, i - 1);
      forall m | 25 * (i - 1) <= m < PageEnd(|log|, 25 * (i - 1)) ensures !Matches(log[m], reason) {
        assert pages[i - 1].rows[m - 25 * (i - 1)] == log[m];
      }
    }
  }

  /** Over a faithful pager the search succeeds exactly when a matching event is among the
      newest 250 rows; it returns the last match of the first page that has one. */
  lemma FaithfulSearch<T(!new)>(pager: Pager<T>, log: seq<Row<T>>, max: int, reason: Reason<T>,
                                r: Option<(Row<T>, int)>, pages: seq<Page<T>>)
    requires Faithful(pager, log, max, reason) && Searched(pager, reason, r, pages)
    ensures r.Some? <==> !NoMatch(log, 0, SearchReach(|log|), reason)
    ensures r.Some? ==> r.value.1 == max && |pages| > 0 && 25 * (|pages| - 1) <= |log|
                        && NoMatch(log, 0, 25 * (|pages| - 1), reason)
                        && IsTaken(log[25 * (|pages| - 1)..PageEnd(|log|, 25 * (|pages| - 1))], reason, r.value.0)
  {
    var n := |pages|;
    match r {
      case Some((row, _)) =>
        NoMatchBefore(pager, pages, log, max, reason, n - 1);
        PagesFollow(pager, pages, log, max, reason, n - 1);
        var m :| IsLastMatch(pages[n - 1].rows, reason, m) && pages[n - 1].rows[m] == row;
        assert Matches(log[25 * (n - 1) + m], reason);
      case None =>
        FaithfulEnd(pager, pages, log, max, reason);
        NoMatchBefore(pager, pages, log, max, reason, n);
        PagesFollow(pager, pages, log, max, reason, n - 1);
    }
  }

  function SearchReach(length: nat): nat {
    if length < PAGE_LIMIT * MAX_CALLS then length else PAGE_LIMIT * MAX_CALLS
  }
}
