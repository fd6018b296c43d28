/** The hash-chained record file. The digest is a parameter; the theorems ask that it be injective
    and never empty, as SHA-256 hex is taken to be. */
module LedgerStore {
  import opened Wrappers
  import opened Contracts

  datatype Row = Row(record: Record, previousHash: string, recordHash: string)

  /** A line of the file: a row with the four fields, or anything else. */
  datatype Line = Parsed(row: Row) | Malformed

  datatype StoreError = HashValidationFailed(line: nat) | IdentityReused

  datatype Identity = FillIdentity(id: string) | CorrectionIdentity(id: string)

  type Digest = (string, Record) -> string

  function IdentityOf(r: Record): Identity {
    match r
    case FillRow(f) => FillIdentity(f.id)
    case CorrectionRow(c) => CorrectionIdentity(c.id)
  }

  /** Records share an identity exactly if they are of one kind and carry one id. */
  lemma IdentityIff(a: Record, b: Record)
    ensures IdentityOf(a) == IdentityOf(b) <==>
      || (a.FillRow? && b.FillRow? && a.fill.id == b.fill.id)
      || (a.CorrectionRow? && b.CorrectionRow? && a.correction.id == b.correction.id)
  {
  }

  ghost predicate Collisionless(digest: Digest) {
    (forall p, r, q, s :: digest(p, r) == digest(q, s) ==> p == q && r == s) &&
    (forall p, r :: digest(p, r) != "")
  }

  function LastHash(rows: seq<Row>): string {
    if rows == [] then "" else rows[|rows| - 1].recordHash
  }

  ghost predicate Signed(digest: Digest, rows: seq<Row>, i: nat)
    requires i < |rows|
  {
    rows[i].previousHash == LastHash(rows[..i]) &&
    rows[i].recordHash == digest(rows[i].previousHash, rows[i].record)
  }

  ghost predicate Chained(digest: Digest, rows: seq<Row>) {
    forall i :: 0 <= i < |rows| ==> Signed(digest, rows, i)
  }

  ghost predicate DistinctIdentities(rows: seq<Row>) {
    forall i, j :: 0 <= i < j < |rows| ==> IdentityOf(rows[i].record) != IdentityOf(rows[j].record)
  }

  function Records(rows: seq<Row>): (r: seq<Record>)
    ensures |r| == |rows| && forall i :: 0 <= i < |r| ==> r[i] == rows[i].record
  {
    seq(|rows|, i requires 0 <= i < |rows| => rows[i].record)
  }

  function NextRow(digest: Digest, rows: seq<Row>, record: Record): Row {
    Row(record, LastHash(rows), digest(LastHash(rows), record))
  }

  lemma ChainedSnoc(digest: Digest, rows: seq<Row>, row: Row)
    ensures Chained(digest, rows + [row]) <==>
      Chained(digest, rows) && row == NextRow(digest, rows, row.record)
  {
    var all := rows + [row];
    assert all[..|rows|] == rows;
    forall i | 0 <= i < |rows| ensures Signed(digest, all, i) <==> Signed(digest, rows, i) {
      assert all[..i] == rows[..i];
    }
    if Chained(digest, all) {
      assert Signed(digest, all, |rows|);
      forall i | 0 <= i < |rows| ensures Signed(digest, rows, i) { assert Signed(digest, all, i); }
    }
  }

  /** Cutting rows off the end leaves a file that validates: truncation is not detected. */
  lemma {:induction false} TruncationStaysValid(digest: Digest, rows: seq<Row>, k: nat)
    requires Chained(digest, rows) && k <= |rows|
    ensures Chained(digest, rows[..k])
  {
    if k < |rows| {
      var init := rows[..|rows| - 1];
      assert rows == init + [rows[|rows| - 1]] && init[..k] == rows[..k];
      ChainedSnoc(digest, init, rows[|rows| - 1]);
      TruncationStaysValid(digest, init, k);
    } else {
      assert rows[..k] == rows;
    }
  }

  /** The last hash fixes the whole file. */
  lemma {:induction false} LastHashFixesFile(digest: Digest, a: seq<Row>, b: seq<Row>)
    requires Collisionless(digest) && Chained(digest, a) && Chained(digest, b) && LastHash(a) == LastHash(b)
    ensures a == b
  {
    if a != [] { assert Signed(digest, a, |a| - 1); }
    if b != [] { assert Signed(digest, b, |b| - 1); }
    if a != [] && b != [] {
      var x, y := a[..|a| - 1], b[..|b| - 1];
      assert a == x + [a[|a| - 1]] && b == y + [b[|b| - 1]];
      ChainedSnoc(digest, x, a[|a| - 1]);
      ChainedSnoc(digest, y, b[|b| - 1]);
      LastHashFixesFile(digest, x, y);
    }
  }

  /** Replacing one row of a valid file goes unnoticed exactly when nothing was changed, or the
      row is the last one and carries its own correct hash. */
  lemma EditIsRejectedUnless(digest: Digest, rows: seq<Row>, k: nat, row: Row)
    requires Collisionless(digest) && Chained(digest, rows) && k < |rows|
    ensures Chained(digest, rows[k := row]) <==>
      row == rows[k] || (k == |rows| - 1 && row == NextRow(digest, rows[..k], row.record))
  {
    var edited := rows[k := row];
    var last := |rows| - 1;
    if k < last {
      if Chained(digest, edited) {
        LastHashFixesFile(digest, edited, rows);
      } else {
        assert row == rows[k] ==> edited == rows;
      }
    } else {
      assert edited == rows[..last] + [row] && rows == rows[..last] + [rows[last]];
      ChainedSnoc(digest, rows[..last], row);
      ChainedSnoc(digest, rows[..last], rows[last]);
    }
  }

  ghost predicate Sound(digest: Digest, file: seq<Line>, rows: seq<Row>) {
    |file| == |rows| && (forall i :: 0 <= i < |file| ==> file[i] == Parsed(rows[i])) && Chained(digest, rows)
  }

  ghost predicate Validates(digest: Digest, file: seq<Line>) {
    exists rows :: Sound(digest, file, rows)
  }

  class JsonlLedgerStore {
    const digest: Digest
    var file: seq<Line>

    constructor (digest: Digest)
      ensures this.digest == digest && file == []
    {
      this.digest := digest;
      file := [];
    }

    /** The rows up to the first line that does not continue the chain. */
    method ValidatedRows() returns (r: Result<seq<Row>, StoreError>)
      ensures r.Ok? ==> Sound(digest, file, r.value)
      ensures r.Err? ==> r.error.HashValidationFailed? && 1 <= r.error.line <= |file|
      ensures r.Err? ==> !Validates(digest, file[..r.error.line]) && Validates(digest, file[..r.error.line - 1])
    {
      var previousHash := "";
      var rows: seq<Row> := [];
      var i := 0;
      while i < |file|
        invariant 0 <= i <= |file|
        invariant Sound(digest, file[..i], rows)
        invariant previousHash == LastHash(rows)
      {
        assert file[..i + 1] == file[..i] + [file[i]];
        if file[i].Malformed? || file[i].row.previousHash != previousHash ||
           file[i].row.recordHash != digest(previousHash, file[i].row.record) {
          BrokenHere(digest, file[..i + 1], rows);
          return Err(HashValidationFailed(i + 1));
        }
        ChainedSnoc(digest, rows, file[i].row);
        rows := rows + [file[i].row];
        previousHash := file[i].row.recordHash;
        i := i + 1;
      }
      assert file[..i] == file;
      r := Ok(rows);
    }

    method LoadRecords() returns (r: Result<seq<Record>, StoreError>)
      ensures r.Ok? <==> Validates(digest, file)
      ensures forall rows | Sound(digest, file, rows) :: r == Ok(Records(rows))
    {
      hide Chained, Records;
      var valid := ValidatedRows();
      if valid.Err? {
        InvalidBeyond(digest, file, valid.error.line);
        return Err(valid.error);
      }
      RowsAreUnique(digest, file, valid.value);
      r := Ok(Records(valid.value));
    }

    /** Appends at most one row; an equal record already present is left alone. */
    method Append(record: Record) returns (r: Result<string, StoreError>)
      modifies this
      ensures forall rows | Sound(digest, old(file), rows) ::
        match Find(rows, record, |rows|)
        case Some(row) =>
          file == old(file) && r == if row.record == record then Ok(row.recordHash) else Err(IdentityReused)
        case None =>
          && file == old(file) + [Parsed(NextRow(digest, rows, record))]
          && r == Ok(digest(LastHash(rows), record))
          && Sound(digest, file, rows + [NextRow(digest, rows, record)])
      ensures forall rows | Sound(digest, old(file), rows) :: Sound(digest, file, Appended(digest, rows, record))
      ensures !Validates(digest, old(file)) ==> r.Err? && file == old(file)
    {
      hide Sound, Validates, NextRow, Find, LastHash;
      var valid := ValidatedRows();
      if valid.Err? {
        InvalidBeyond(digest, file, valid.error.line);
        return Err(valid.error);
      }
      var rows := valid.value;
      RowsAreUnique(digest, file, rows);
      var i := 0;
      while i < |rows|
        invariant 0 <= i <= |rows| && file == old(file)
        invariant Find(rows, record, i).None?
      {
        FindStays(rows, record, i + 1, |rows|);
        if IdentityOf(rows[i].record) == IdentityOf(record) {
          if rows[i].record == record { return Ok(rows[i].recordHash); }
          return Err(IdentityReused);
        }
        i := i + 1;
      }
      var row := NextRow(digest, rows, record);
      SoundSnoc(digest, file, rows, record);
      file := file + [Parsed(row)];
      r := Ok(row.recordHash);
    }
  }

  /** The first of the first `n` rows with the record's identity. */
  function Find(rows: seq<Row>, record: Record, n: nat): (r: Option<Row>)
    requires n <= |rows|
    ensures r.None? <==> forall i :: 0 <= i < n ==> IdentityOf(rows[i].record) != IdentityOf(record)
    ensures r.Some? ==> r.value in rows[..n] && IdentityOf(r.value.record) == IdentityOf(record)
  {
    if n == 0 then None
    else
      var before := Find(rows, record, n - 1);
      if before.Some? then before
      else if IdentityOf(rows[n - 1].record) == IdentityOf(record) then Some(rows[n - 1])
      else None
  }

  lemma {:induction false} FindStays(rows: seq<Row>, record: Record, k: nat, n: nat)
    requires k <= n <= |rows|
    ensures Find(rows, record, k).Some? ==> Find(rows, record, n) == Find(rows, record, k)
  {
    if k < n { FindStays(rows, record, k, n - 1); }
  }

  lemma BrokenHere(digest: Digest, file: seq<Line>, rows: seq<Row>)
    requires |file| == |rows| + 1 && Sound(digest, file[..|rows|], rows)
    requires file[|rows|].Parsed? ==>
      file[|rows|].row.previousHash != LastHash(rows) ||
      file[|rows|].row.recordHash != digest(LastHash(rows), file[|rows|].row.record)
    ensures !Validates(digest, file)
  {
    forall all | Sound(digest, file, all) ensures false {
      SameRows(digest, file, rows, all);
    }
  }

  lemma SameRows(digest: Digest, file: seq<Line>, rows: seq<Row>, all: seq<Row>)
    requires Sound(digest, file, all) && |rows| < |file| && Sound(digest, file[..|rows|], rows)
    ensures all[..|rows|] == rows && Signed(digest, all, |rows|)
  {
    assert forall i :: 0 <= i < |rows| ==> file[..|rows|][i] == file[i];
  }

  /** The rows of a valid file are determined by it. */
  lemma RowsAreUnique(digest: Digest, file: seq<Line>, rows: seq<Row>)
    requires Sound(digest, file, rows)
    ensures Validates(digest, file) && |rows| == |file|
    ensures forall other | Sound(digest, file, other) :: other == rows
  {
    hide Chained;
    forall other | Sound(digest, file, other) ensures other == rows {
      assert forall i :: 0 <= i < |file| ==> Parsed(other[i]) == file[i] == Parsed(rows[i]);
    }
  }

  lemma InvalidBeyond(digest: Digest, file: seq<Line>, k: nat)
    requires k <= |file| && !Validates(digest, file[..k])
    ensures !Validates(digest, file) && forall rows :: !Sound(digest, file, rows)
  {
    hide Chained, Sound;
    forall rows | Sound(digest, file, rows) ensures false {
      SoundPrefix(digest, file, rows, k);
    }
  }

  lemma SoundSnoc(digest: Digest, file: seq<Line>, rows: seq<Row>, record: Record)
    requires Sound(digest, file, rows)
    ensures Sound(digest, file + [Parsed(NextRow(digest, rows, record))], rows + [NextRow(digest, rows, record)])
    ensures NextRow(digest, rows, record).recordHash == digest(LastHash(rows), record)
  {
    ChainedSnoc(digest, rows, NextRow(digest, rows, record));
    hide Chained;
  }

  lemma SoundPrefix(digest: Digest, file: seq<Line>, rows: seq<Row>, k: nat)
    requires Sound(digest, file, rows) && k <= |file|
    ensures Sound(digest, file[..k], rows[..k])
  {
    TruncationStaysValid(digest, rows, k);
  }

  /** What one append does to a valid file: no identity is ever stored twice. */
  lemma AppendKeepsIdentities(digest: Digest, rows: seq<Row>, record: Record)
    requires Chained(digest, rows) && DistinctIdentities(rows) && Find(rows, record, |rows|).None?
    ensures Chained(digest, rows + [NextRow(digest, rows, record)])
    ensures DistinctIdentities(rows + [NextRow(digest, rows, record)])
    ensures Records(rows + [NextRow(digest, rows, record)]) == Records(rows) + [record]
  {
    ChainedSnoc(digest, rows, NextRow(digest, rows, record));
  }

  /** The rows after one append. */
  function Appended(digest: Digest, rows: seq<Row>, record: Record): seq<Row> {
    if Find(rows, record, |rows|).Some? then rows else rows + [NextRow(digest, rows, record)]
  }

  /** The rows after appending record after record to an empty file. */
  function AppendedAll(digest: Digest, records: seq<Record>): seq<Row> {
    if records == [] then []
    else Appended(digest, AppendedAll(digest, records[..|records| - 1]), records[|records| - 1])
  }

  /** Every record has a row of its identity. */
  ghost predicate Holds(rows: seq<Row>, records: seq<Record>) {
    forall i :: 0 <= i < |records| ==> Find(rows, records[i], |rows|).Some?
  }

  /** Whatever was appended: the chain is valid, no identity is stored twice, and every record appended has
      a row of its identity. */
  lemma {:induction false} AppendsStaySound(digest: Digest, records: seq<Record>)
    ensures var rows := AppendedAll(digest, records);
      Chained(digest, rows) && DistinctIdentities(rows) && Holds(rows, records)
  {
    if records != [] {
      hide Chained, DistinctIdentities, Find, Holds, Appended;
      var init, last := records[..|records| - 1], records[|records| - 1];
      assert records == init + [last];
      AppendsStaySound(digest, init);
      AppendedStaysSound(digest, AppendedAll(digest, init), last);
      AppendedHolds(digest, AppendedAll(digest, init), init, last);
    }
  }

  lemma AppendedStaysSound(digest: Digest, rows: seq<Row>, record: Record)
    requires Chained(digest, rows) && DistinctIdentities(rows)
    ensures Chained(digest, Appended(digest, rows, record)) && DistinctIdentities(Appended(digest, rows, record))
  {
    hide Chained, DistinctIdentities, Find;
    if Find(rows, record, |rows|).None? { AppendKeepsIdentities(digest, rows, record); }
  }

  lemma AppendedHolds(digest: Digest, rows: seq<Row>, init: seq<Record>, last: Record)
    requires Holds(rows, init)
    ensures Holds(Appended(digest, rows, last), init + [last])
  {
    var after, all := Appended(digest, rows, last), init + [last];
    assert rows <= after;
    hide Find, Appended;
    forall i | 0 <= i < |all| ensures Find(after, all[i], |after|).Some? {
      if i < |init| {
        assert all[i] == init[i];
        FoundStays(rows, after, init[i]);
      } else {
        AppendedIsFound(digest, rows, last);
      }
    }
  }

  lemma FoundStays(before: seq<Row>, after: seq<Row>, record: Record)
    requires before <= after && Find(before, record, |before|).Some?
    ensures Find(after, record, |after|).Some?
  {
    var row := Find(before, record, |before|).value;
    assert row in before[..|before|];
    var i :| 0 <= i < |before| && before[i] == row;
    assert after[i] == row;
  }

  lemma AppendedIsFound(digest: Digest, rows: seq<Row>, record: Record)
    ensures var after := Appended(digest, rows, record); Find(after, record, |after|).Some?
  {
    var after := Appended(digest, rows, record);
    if after != rows { assert after[|rows|] == NextRow(digest, rows, record); }
  }
}
