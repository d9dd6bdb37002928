/** Complete audit exports and the batches made from them (`export_info`, `validate_batch`,
    `expected_ack` and `validate_ack` in scripts/rekey-audit-delivery.py). */
module AuditExport {
  import opened Decimal
  import opened Outcomes

  const MAX_EXPORT := 16 * 1024 * 1024
  const MAX_NUMBER := 0x7FFF_FFFF_FFFF_FFFF

  // ---------------------------------------------------------------- export records

  /** A JSON field as far as the scanner looks at it. */
  datatype Field = Number(n: int) | NotNumber

  /** One parsed line. A header and a trailer have exactly the fields the scanner demands and
      an event has its record type; anything else is another record, another JSON value, or
      not JSON at all. */
  datatype Line =
    | Header(unfiltered: bool, createdAt: Field, snapshotMax: Field)
    | Event(sequence: Field)
    | Trailer(rowCount: Field)
    | OtherRecord
    | OtherValue
    | Malformed

  datatype Export = Export(lines: seq<Line>, bytes: nat, escaped: nat, terminated: bool)

  datatype ExportError =
    | IncompleteExport | InvalidJson | FilteredOrInvalidExport | SnapshotRegressionOrNoNewEvents | SequenceGap

  predicate InRange(f: Field) {
    f.Number? && 0 <= f.n <= MAX_NUMBER
  }

  predicate Readable(x: Export) {
    x.terminated && x.bytes <= MAX_EXPORT
  }

  predicate Records(x: Export) {
    |x.lines| >= 2 && forall i :: 0 <= i < |x.lines| ==> !x.lines[i].OtherValue?
  }

  predicate GoodHeader(x: Export)
    requires |x.lines| >= 2
  {
    x.lines[0].Header? && x.lines[0].unfiltered && InRange(x.lines[0].createdAt)
  }

  predicate Advances(x: Export, cursor: int)
    requires |x.lines| >= 2 && GoodHeader(x)
  {
    InRange(x.lines[0].snapshotMax) && x.lines[0].snapshotMax.n > cursor
  }

  function Rows(x: Export): seq<Line>
    requires |x.lines| >= 2
  {
    x.lines[1..|x.lines| - 1]
  }

  predicate GoodTrailer(x: Export)
    requires |x.lines| >= 2
  {
    x.lines[|x.lines| - 1] == Trailer(Number(|Rows(x)|)) && |Rows(x)| > 0
  }

  /** Every row is an event, and sequences descend strictly from the maximum to above zero. */
  predicate Descending(rows: seq<Line>, maximum: int) {
    (forall i :: 0 <= i < |rows| ==> rows[i].Event? && InRange(rows[i].sequence) && 0 < rows[i].sequence.n <= maximum)
    && forall i, j :: 0 <= i < j < |rows| ==> rows[j].sequence.n < rows[i].sequence.n
  }

  /** The rows hold every sequence above the cursor up to the maximum. */
  ghost predicate Covers(rows: seq<Line>, cursor: int, maximum: int) {
    forall s :: cursor < s <= maximum ==> Event(Number(s)) in rows
  }

  /** What the scanner makes of an export. */
  ghost function Verdict(x: Export, cursor: int): Result<(int, nat), ExportError> {
    if !Readable(x) then Err(IncompleteExport)
    else if Malformed in x.lines then Err(InvalidJson)
    else if !Records(x) then Err(IncompleteExport)
    else if !GoodHeader(x) then Err(FilteredOrInvalidExport)
    else if !Advances(x, cursor) then Err(SnapshotRegressionOrNoNewEvents)
    else if !GoodTrailer(x) then Err(IncompleteExport)
    else if Descending(Rows(x), x.lines[0].snapshotMax.n) && Covers(Rows(x), cursor, x.lines[0].snapshotMax.n)
    then Ok((x.lines[0].snapshotMax.n, |Rows(x)|))
    else Err(SequenceGap)
  }

  /** The row loop of `export_info`. */
  method ScanRows(rows: seq<Line>, cursor: int, maximum: int) returns (covered: bool)
    requires 0 <= cursor < maximum <= MAX_NUMBER
    ensures covered <==> Descending(rows, maximum) && Covers(rows, cursor, maximum)
  {
    var expected, previous := maximum, maximum + 1;
    for i := 0 to |rows|
      invariant Descending(rows[..i], maximum)
      invariant forall k :: 0 <= k < i ==> previous <= rows[k].sequence.n
      invariant previous == (if i == 0 then maximum + 1 else rows[i - 1].sequence.n)
      invariant cursor <= expected <= maximum && (previous > cursor ==> expected == previous - 1)
      invariant forall k :: 0 <= k < i && rows[k].sequence.n > cursor ==> rows[k].sequence.n > expected
      invariant forall s :: expected < s <= maximum ==> Event(Number(s)) in rows[..i]
    {
      var row := rows[i];
      assert rows[..i + 1] == rows[..i] + [row];
      if !(row.Event? && InRange(row.sequence) && 0 < row.sequence.n < previous) {
        assert i > 0 ==> rows[i - 1].sequence.n == previous;
        return false;
      }
      if row.sequence.n > cursor {
        if row.sequence.n != expected {
          assert Event(Number(expected)) !in rows[..i];
          return false;
        }
        expected := expected - 1;
      }
      previous := row.sequence.n;
    }
    assert rows[..|rows|] == rows;
    covered := expected <= cursor;
    assert !covered ==> Event(Number(expected)) !in rows;
  }

  /** `export_info`. */
  method ExportInfo(x: Export, cursor: int) returns (r: Result<(int, nat), ExportError>)
    requires 0 <= cursor
    ensures r == Verdict(x, cursor)
  {
    if !Readable(x) {
      return Err(IncompleteExport);
    }
    if Malformed in x.lines {
      return Err(InvalidJson);
    }
    if !Records(x) {
      return Err(IncompleteExport);
    }
    if !GoodHeader(x) {
      return Err(FilteredOrInvalidExport);
    }
    if !Advances(x, cursor) {
      return Err(SnapshotRegressionOrNoNewEvents);
    }
    if !GoodTrailer(x) {
      return Err(IncompleteExport);
    }
    var maximum := x.lines[0].snapshotMax.n;
    var covered := ScanRows(Rows(x), cursor, maximum);
    return if covered then Ok((maximum, |Rows(x)|)) else Err(SequenceGap);
  }

  /** An accepted export holds each sequence of its window in exactly one row. */
  lemma WindowExactlyOnce(x: Export, cursor: int, s: int)
    requires Verdict(x, cursor).Ok? && cursor < s <= Verdict(x, cursor).value.0
    ensures exists i :: 0 <= i < |Rows(x)| && Rows(x)[i].sequence == Number(s)
                        && forall j :: 0 <= j < |Rows(x)| && j != i ==> Rows(x)[j].sequence != Number(s)
  {
    var rows := Rows(x);
    assert Event(Number(s)) in rows;
    var i :| 0 <= i < |rows| && rows[i] == Event(Number(s));
    forall j | 0 <= j < |rows| && j != i ensures rows[j].sequence != Number(s) {
      assert if i < j then rows[j].sequence.n < rows[i].sequence.n else rows[i].sequence.n < rows[j].sequence.n;
    }
  }

  // ---------------------------------------------------------------- batches and acknowledgements

  datatype Digest = Sha256(of: Export) | OtherDigest(hex: string)

  /** The fields that an acknowledgement repeats. */
  datatype Bound = Bound(batchId: string, source: string, vault: string, first: int, last: int,
                         snapshotMax: int, rowCount: int, sha256: Digest)

  datatype Batch = Batch(bound: Bound, rightType: bool, createdAt: int, content: Export)

  /** A decoded reply: an object with the right fields and types, or anything else. */
  datatype Ack = Ack(bound: Bound, rightType: bool, durable: bool) | OtherReply

  predicate IsHex(c: char) {
    IsDigit(c) || 'a' <= c <= 'f'
  }

  /** The only spelling that `str(uuid.UUID(text))` returns unchanged. */
  predicate CanonicalUuid(s: string) {
    |s| == 36 && forall i :: 0 <= i < 36 ==> if i in {8, 13, 18, 23} then s[i] == '-' else IsHex(s[i])
  }

  ghost predicate ValidBatch(b: Batch, source: string, vault: string) {
    && b.rightType && b.bound.source == source && b.bound.vault == vault
    && 0 < b.bound.first <= MAX_NUMBER && 0 <= b.createdAt <= MAX_NUMBER
    && CanonicalUuid(b.bound.batchId)
    && Verdict(b.content, b.bound.first - 1) == Ok((b.bound.last, b.bound.rowCount))
    && b.bound.sha256 == Sha256(b.content)
    && b.bound.snapshotMax == b.bound.last
  }

  method ValidateBatch(b: Batch, source: string, vault: string) returns (valid: bool)
    ensures valid <==> ValidBatch(b, source, vault)
  {
    if !(b.rightType && b.bound.source == source && b.bound.vault == vault
         && 0 < b.bound.first <= MAX_NUMBER && 0 <= b.createdAt <= MAX_NUMBER) {
      return false;
    }
    if !CanonicalUuid(b.bound.batchId) {
      return false;
    }
    var info := ExportInfo(b.content, b.bound.first - 1);
    return info.Ok? && b.bound.sha256 == Sha256(b.content) && b.bound.rowCount == info.value.1
           && b.bound.last == info.value.0 && b.bound.snapshotMax == info.value.0;
  }

  function ExpectedAck(b: Batch): Ack {
    Ack(b.bound, true, true)
  }

  predicate ValidAck(ack: Ack, b: Batch) {
    ack == ExpectedAck(b)
  }
}
