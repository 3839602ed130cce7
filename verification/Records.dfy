/** git's NUL-delimited output: how it is printed, and how the server reads it back (server/src/gitService.ts). */
module Records {
  import opened Collections

  const NUL := '\0'

  // ---- splitting -------------------------------------------------------------------------------

  /** `z.split("\0")`: never empty, and the text after the last NUL is a part too. */
  function Split(z: string): (parts: seq<string>)
    ensures parts != []
  {
    if z == [] then [[]]
    else
      var rest := Split(z[1..]);
      if z[0] == NUL then [[]] + rest else [[z[0]] + rest[0]] + rest[1..]
  }

  function Present(parts: seq<string>): seq<string> {
    if parts == [] then [] else (if parts[0] != [] then [parts[0]] else []) + Present(parts[1..])
  }

  predicate Clean(s: string) { NUL !in s }

  function Print(records: seq<string>): string {
    if records == [] then [] else records[0] + [NUL] + Print(records[1..])
  }

  lemma {:induction false} SplitRecord(record: string, rest: string)
    requires Clean(record)
    ensures Split(record + [NUL] + rest) == [record] + Split(rest)
  {
    var z := record + [NUL] + rest;
    if record == [] {
      assert z[1..] == rest;
    } else {
      assert z[1..] == record[1..] + [NUL] + rest;
      SplitRecord(record[1..], rest);
      assert [record[0]] + record[1..] == record;
    }
  }

  /** Splitting what was printed gives the records back, then the empty text after the last NUL. */
  lemma {:induction false} SplitPrinted(records: seq<string>)
    requires forall r :: r in records ==> Clean(r)
    ensures Split(Print(records)) == records + [[]]
  {
    if records != [] {
      SplitRecord(records[0], Print(records[1..]));
      SplitPrinted(records[1..]);
      assert records == [records[0]] + records[1..];
    }
  }

  lemma {:induction false} PresentAppends(a: seq<string>, b: seq<string>)
    ensures Present(a + b) == Present(a) + Present(b)
  {
    if a == [] {
      assert a + b == b;
    } else {
      assert (a + b)[1..] == a[1..] + b;
      PresentAppends(a[1..], b);
    }
  }

  lemma {:induction false} PresentKeepsAll(parts: seq<string>)
    requires [] !in parts
    ensures Present(parts) == parts
  {
    if parts != [] { PresentKeepsAll(parts[1..]); }
  }

  lemma PresentPrinted(records: seq<string>)
    requires [] !in records && forall r :: r in records ==> Clean(r)
    ensures Present(Split(Print(records))) == records
  {
    SplitPrinted(records);
    PresentAppends(records, [[]]);
    PresentKeepsAll(records);
    assert Present([[]]) == [];
  }

  // ---- rows with an optional source path -------------------------------------------------------

  /** One row of status or name-status output; `code` is the XY pair or the status letter with its score. */
  datatype Row = Row(code: string, path: string, oldPath: Option<string>)

  /** Whether the reader takes a source path for this code. */
  type Moves = string -> bool

  predicate ReadableName(s: string) { s != [] && Clean(s) }

  /** Each row names a source exactly when its code says so; a last row may lack the one its code calls for. */
  predicate SourcesFit(moves: Moves, rows: seq<Row>) {
    rows == [] || (
      && (if moves(rows[0].code) then rows[0].oldPath.Some? || |rows| == 1 else rows[0].oldPath.None?)
      && SourcesFit(moves, rows[1..]))
  }

  lemma {:induction false} SourcesFitAlike(a: Moves, b: Moves, rows: seq<Row>)
    requires forall code: string :: a(code) <==> b(code)
    ensures SourcesFit(a, rows) <==> SourcesFit(b, rows)
  {
    if rows != [] { SourcesFitAlike(a, b, rows[1..]); }
  }

  // ---- git status --porcelain=v1 -z ------------------------------------------------------------

  function Take(s: string, n: nat): string { if |s| <= n then s else s[..n] }
  function Drop(s: string, n: nat): string { if |s| <= n then [] else s[n..] }

  function Renames(): Moves { (xy: string) => 'R' in xy }

  function PorcelainRows(parts: seq<string>): (rows: seq<Row>)
    ensures rows == [] <==> parts == []
  {
    if parts == [] then []
    else
      var xy, path := Take(parts[0], 2), Drop(parts[0], 3);
      if Renames()(xy) && |parts| > 1 then [Row(xy, path, Some(parts[1]))] + PorcelainRows(parts[2..])
      else [Row(xy, path, None)] + PorcelainRows(parts[1..])
  }

  function Porcelain(z: string): seq<Row> { PorcelainRows(Present(Split(z))) }

  lemma PorcelainStep(rows: seq<Row>, parts: seq<string>, i: nat)
    requires i < |parts|
    ensures var xy, path := Take(parts[i], 2), Drop(parts[i], 3);
            rows + PorcelainRows(parts[i..]) ==
              if 'R' in xy && i + 1 < |parts| then rows + [Row(xy, path, Some(parts[i + 1]))]
                  + PorcelainRows(parts[i + 2..])
              else rows + [Row(xy, path, None)] + PorcelainRows(parts[i + 1..])
  {
    var rest := parts[i..];
    assert rest[1..] == parts[i + 1..];
    if 'R' in Take(parts[i], 2) && i + 1 < |parts| { assert rest[2..] == parts[i + 2..] && rest[1] == parts[i + 1]; }
  }

  method ParsePorcelain(z: string) returns (rows: seq<Row>)
    ensures rows == Porcelain(z)
  {
    var parts := Present(Split(z));
    rows := [];
    var i := 0;
    assert parts[0..] == parts && [] + PorcelainRows(parts) == PorcelainRows(parts);
    while i < |parts|
      invariant 0 <= i <= |parts|
      invariant rows + PorcelainRows(parts[i..]) == PorcelainRows(parts)
    {
      PorcelainStep(rows, parts, i);
      var rec := parts[i];
      var xy, path := Take(rec, 2), Drop(rec, 3);
      if 'R' in xy && i + 1 < |parts| {
        i := i + 1;
        rows := rows + [Row(xy, path, Some(parts[i]))];
      } else {
        rows := rows + [Row(xy, path, None)];
      }
      i := i + 1;
    }
    assert rows + [] == rows;
  }

  predicate PorcelainRow(r: Row) {
    |r.code| == 2 && Clean(r.code) && ReadableName(r.path) && (r.oldPath.Some? ==> ReadableName(r.oldPath.value))
  }

  function PorcelainRecords(rows: seq<Row>): seq<string> {
    if rows == [] then []
    else [rows[0].code + " " + rows[0].path] + (if rows[0].oldPath.Some? then [rows[0].oldPath.value] else [])
         + PorcelainRecords(rows[1..])
  }

  lemma {:induction false} PorcelainRecordsAreClean(rows: seq<Row>)
    requires forall r :: r in rows ==> PorcelainRow(r)
    ensures [] !in PorcelainRecords(rows) && forall x :: x in PorcelainRecords(rows) ==> Clean(x)
  {
    if rows != [] {
      assert rows[0] in rows;
      PorcelainRecordsAreClean(rows[1..]);
    }
  }

  lemma {:induction false} PorcelainReadsBack(rows: seq<Row>)
    requires forall r :: r in rows ==> PorcelainRow(r)
    ensures PorcelainRows(PorcelainRecords(rows)) == rows <==> SourcesFit(Renames(), rows)
  {
    if rows != [] {
      var r, more := rows[0], PorcelainRecords(rows[1..]);
      assert r in rows;
      PorcelainReadsBack(rows[1..]);
      var records := PorcelainRecords(rows);
      assert records[0] == r.code + " " + r.path;
      assert Take(records[0], 2) == r.code && Drop(records[0], 3) == r.path;
      assert more == [] <==> |rows| == 1;
      var read := PorcelainRows(records);
      if r.oldPath.Some? {
        assert records[1] == r.oldPath.value && records[2..] == more && records[1..] == [r.oldPath.value] + more;
        assert Renames()(r.code) ==> read == [r] + PorcelainRows(more);
      } else {
        assert records[1..] == more;
        assert !(Renames()(r.code) && more != []) ==> read == [r] + PorcelainRows(more);
      }
      assert rows == [r] + rows[1..];
      assert read == [read[0]] + read[1..];
    }
  }

  /** Reading what git printed gives its rows back exactly when every rename, and nothing else, has a source:
      a copy, which prints one too, is misread. */
  lemma PorcelainRoundTrip(rows: seq<Row>, renames: Moves)
    requires forall r :: r in rows ==> PorcelainRow(r)
    requires forall code: string :: renames(code) <==> 'R' in code
    ensures Porcelain(Print(PorcelainRecords(rows))) == rows <==> SourcesFit(renames, rows)
  {
    SourcesFitAlike(renames, Renames(), rows);
    PorcelainRecordsAreClean(rows);
    PresentPrinted(PorcelainRecords(rows));
    PorcelainReadsBack(rows);
  }

  lemma CopiesAreMisread()
    ensures exists r :: PorcelainRow(r) && r.code == "C " && r.oldPath.Some?
                     && Porcelain(Print(PorcelainRecords([r]))) != [r]
  {
    var r := Row("C ", "new", Some("old"));
    PorcelainRoundTrip([r], Renames());
    assert !SourcesFit(Renames(), [r]);
  }

  // ---- git diff --name-status -M -z ------------------------------------------------------------

  function RenamesAndCopies(): Moves { (code: string) => code != [] && (code[0] == 'R' || code[0] == 'C') }

  function NameStatusRows(parts: seq<string>): seq<Row> {
    if parts == [] then []
    else if RenamesAndCopies()(parts[0]) && |parts| > 2 then
      [Row(parts[0], parts[2], Some(parts[1]))] + NameStatusRows(parts[3..])
    else if |parts| > 1 then [Row(parts[0], parts[1], None)] + NameStatusRows(parts[2..])
    else []
  }

  function NameStatus(z: string): seq<Row> { NameStatusRows(Present(Split(z))) }

  lemma NameStatusStep(rows: seq<Row>, parts: seq<string>, i: nat)
    requires i < |parts|
    ensures rows + NameStatusRows(parts[i..]) ==
              if RenamesAndCopies()(parts[i]) && i + 2 < |parts| then
                rows + [Row(parts[i], parts[i + 2], Some(parts[i + 1]))] + NameStatusRows(parts[i + 3..])
              else if i + 1 < |parts| then rows + [Row(parts[i], parts[i + 1], None)] + NameStatusRows(parts[i + 2..])
              else rows
  {
    var rest := parts[i..];
    if RenamesAndCopies()(parts[i]) && i + 2 < |parts| {
      assert rest[3..] == parts[i + 3..] && rest[1] == parts[i + 1] && rest[2] == parts[i + 2];
    } else if i + 1 < |parts| {
      assert rest[2..] == parts[i + 2..] && rest[1] == parts[i + 1];
    }
  }

  method ParseNameStatus(z: string) returns (rows: seq<Row>)
    ensures rows == NameStatus(z)
  {
    var parts := Present(Split(z));
    rows := [];
    var i := 0;
    assert parts[0..] == parts && [] + NameStatusRows(parts) == NameStatusRows(parts);
    while i < |parts|
      invariant 0 <= i
      invariant rows + (if i < |parts| then NameStatusRows(parts[i..]) else []) == NameStatusRows(parts)
    {
      NameStatusStep(rows, parts, i);
      var code := parts[i];
      if code != [] && (code[0] == 'R' || code[0] == 'C') && i + 2 < |parts| {
        rows := rows + [Row(code, parts[i + 2], Some(parts[i + 1]))];
        i := i + 2;
      } else if i + 1 < |parts| {
        i := i + 1;
        rows := rows + [Row(code, parts[i], None)];
      }
      i := i + 1;
    }
    assert rows + [] == rows;
  }

  predicate NameStatusRow(r: Row) {
    ReadableName(r.code) && ReadableName(r.path) && (r.oldPath.Some? ==> ReadableName(r.oldPath.value))
  }

  function NameStatusRecords(rows: seq<Row>): seq<string> {
    if rows == [] then []
    else [rows[0].code] + (if rows[0].oldPath.Some? then [rows[0].oldPath.value] else []) + [rows[0].path]
         + NameStatusRecords(rows[1..])
  }

  lemma {:induction false} NameStatusRecordsAreClean(rows: seq<Row>)
    requires forall r :: r in rows ==> NameStatusRow(r)
    ensures [] !in NameStatusRecords(rows) && forall x :: x in NameStatusRecords(rows) ==> Clean(x)
  {
    if rows != [] {
      assert rows[0] in rows;
      NameStatusRecordsAreClean(rows[1..]);
    }
  }

  lemma {:induction false} NameStatusReadsBack(rows: seq<Row>)
    requires forall r :: r in rows ==> NameStatusRow(r)
    ensures NameStatusRows(NameStatusRecords(rows)) == rows <==> SourcesFit(RenamesAndCopies(), rows)
  {
    if rows != [] {
      var r, more := rows[0], NameStatusRecords(rows[1..]);
      assert r in rows;
      NameStatusReadsBack(rows[1..]);
      var records := NameStatusRecords(rows);
      assert more == [] <==> |rows| == 1;
      var read := NameStatusRows(records);
      assert records[0] == r.code;
      if r.oldPath.Some? {
        assert records[1] == r.oldPath.value && records[2] == r.path && records[3..] == more;
        assert RenamesAndCopies()(r.code) ==> read == [r] + NameStatusRows(more);
      } else {
        assert records[1] == r.path && records[2..] == more;
        assert !(RenamesAndCopies()(r.code) && more != []) ==> read == [r] + NameStatusRows(more);
      }
      assert rows == [r] + rows[1..];
      assert read == [read[0]] + read[1..];
    }
  }

  /** Here renames and copies both carry their source. */
  lemma NameStatusRoundTrip(rows: seq<Row>, moves: Moves)
    requires forall r :: r in rows ==> NameStatusRow(r)
    requires forall code: string :: moves(code) <==> "R" <= code || "C" <= code
    ensures NameStatus(Print(NameStatusRecords(rows))) == rows <==> SourcesFit(moves, rows)
  {
    SourcesFitAlike(moves, RenamesAndCopies(), rows);
    NameStatusRecordsAreClean(rows);
    PresentPrinted(NameStatusRecords(rows));
    NameStatusReadsBack(rows);
  }
}
