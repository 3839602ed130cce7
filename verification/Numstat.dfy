/** `git diff --numstat -z`: counts per path, and how the server reads them (server/src/gitService.ts). */
module Numstat {
  import opened Collections
  import opened Records

  // ---- decimal numbers -------------------------------------------------------------------------

  predicate IsDigit(c: char) { '0' <= c <= '9' }
  predicate AllDigits(s: string) { forall c :: c in s ==> IsDigit(c) }

  function Decimal(n: nat): string {
    if n < 10 then [('0' as int + n) as char] else Decimal(n / 10) + [('0' as int + n % 10) as char]
  }

  /** `Number.parseInt(s, 10)` of a run of digits. */
  function ParseInt(s: string): int {
    if s == [] then 0 else ParseInt(s[..|s| - 1]) * 10 + (s[|s| - 1] as int - '0' as int)
  }

  lemma {:induction false} DecimalReadsBack(n: nat)
    ensures Decimal(n) != [] && AllDigits(Decimal(n)) && ParseInt(Decimal(n)) == n
  {
    if n >= 10 {
      DecimalReadsBack(n / 10);
      var s := Decimal(n);
      assert s[..|s| - 1] == Decimal(n / 10);
    } else {
      assert Decimal(n)[..0] == [];
    }
  }

  // ---- the head of a record --------------------------------------------------------------------

  predicate LineEnd(c: char) { c == '\n' || c == '\r' || c == '\U{2028}' || c == '\U{2029}' }
  predicate OneLine(s: string) { forall c :: c in s ==> !LineEnd(c) }

  /** `-` or a run of digits. */
  predicate IsCount(s: string) { s == "-" || (s != [] && AllDigits(s)) }

  function DigitRun(s: string): (n: nat)
    ensures n <= |s| && AllDigits(s[..n]) && (n < |s| ==> !IsDigit(s[n]))
  {
    if s == [] || !IsDigit(s[0]) then 0
    else
      var n := DigitRun(s[1..]) + 1;
      assert s[..n] == [s[0]] + s[1..][..n - 1];
      n
  }

  /** The longest count at the start. */
  function CountRun(s: string): (n: nat)
    ensures n <= |s| && (n > 0 ==> IsCount(s[..n]))
  {
    if s != [] && s[0] == '-' then 1 else DigitRun(s)
  }

  datatype Head = Head(first: string, second: string, rest: string)

  /** `/^(-|\d+)\t(-|\d+)\t?(.*)$/` applied to one token. */
  function MatchHead(s: string): Option<Head> {
    var a := CountRun(s);
    if a == 0 || a == |s| || s[a] != '\t' then None
    else
      var t := s[a + 1..];
      var b := CountRun(t);
      if b == 0 then None
      else
        var u := t[b..];
        var rest := if u != [] && u[0] == '\t' then u[1..] else u;
        if OneLine(rest) then Some(Head(s[..a], t[..b], rest)) else None
  }

  /** One way the token can be cut to fit the pattern. */
  predicate Cut(s: string, first: string, second: string, tab: bool, rest: string) {
    IsCount(first) && IsCount(second) && OneLine(rest) && s == first + "\t" + second + (if tab then "\t" else "") + rest
  }

  lemma CountRunExact(count: string, rest: string)
    requires IsCount(count) && (rest == [] || !IsDigit(rest[0]))
    ensures CountRun(count + rest) == |count|
  {
    if count != "-" { DigitRunExact(count, rest); }
  }

  lemma {:induction false} DigitRunExact(digits: string, rest: string)
    requires AllDigits(digits) && (rest == [] || !IsDigit(rest[0]))
    ensures DigitRun(digits + rest) == |digits|
  {
    if digits == [] {
      assert digits + rest == rest;
    } else {
      assert (digits + rest)[1..] == digits[1..] + rest;
      DigitRunExact(digits[1..], rest);
    }
  }

  lemma {:induction false} DigitRunReaches(digits: string, rest: string)
    requires AllDigits(digits)
    ensures DigitRun(digits + rest) >= |digits|
  {
    if digits != [] {
      assert (digits + rest)[1..] == digits[1..] + rest;
      DigitRunReaches(digits[1..], rest);
    }
  }

  lemma CutAssociates(first: string, second: string, tabs: string, rest: string)
    ensures first + "\t" + second + tabs + rest == first + ("\t" + (second + (tabs + rest)))
  {
  }

  lemma Around(s: string, i: nat)
    requires i < |s|
    ensures s == s[..i] + ([s[i]] + s[i + 1..])
  {
  }

  lemma MakesCut(s: string, first: string, second: string, tab: bool, u: string, rest: string)
    requires IsCount(first) && IsCount(second) && OneLine(rest)
    requires s == first + ("\t" + (second + u)) && u == (if tab then "\t" else "") + rest
    ensures Cut(s, first, second, tab, rest)
  {
    CutAssociates(first, second, if tab then "\t" else "", rest);
  }

  lemma CutAt(s: string, a: nat, t: string, b: nat, tab: bool, rest: string)
    requires a < |s| && s[a] == '\t' && t == s[a + 1..] && b <= |t| && IsCount(s[..a]) && IsCount(t[..b])
        && OneLine(rest)
    requires t[b..] == (if tab then "\t" else "") + rest
    ensures Cut(s, s[..a], t[..b], tab, rest)
  {
    Around(s, a);
    assert t == t[..b] + t[b..];
    assert ['\t'] == "\t";
    MakesCut(s, s[..a], t[..b], tab, t[b..], rest);
  }

  lemma FoundIsCut(s: string) returns (tab: bool)
    requires MatchHead(s).Some?
    ensures Cut(s, MatchHead(s).value.first, MatchHead(s).value.second, tab, MatchHead(s).value.rest)
  {
    var a := CountRun(s);
    var t := s[a + 1..];
    var b := CountRun(t);
    var u := t[b..];
    tab := u != [] && u[0] == '\t';
    assert u == (if tab then "\t" else "") + MatchHead(s).value.rest;
    CutAt(s, a, t, b, tab, MatchHead(s).value.rest);
  }

  /** The longest count swallows no line terminator, so what it leaves is still one line. */
  lemma LongestCountLeavesOneLine(second: string, tail: string)
    requires IsCount(second) && OneLine(tail)
    ensures CountRun(second + tail) >= |second| && OneLine((second + tail)[CountRun(second + tail)..])
  {
    var after := second + tail;
    if second != "-" { DigitRunReaches(second, tail); }
    var b := CountRun(after);
    forall c | c in after[b..] ensures !LineEnd(c) {
      var i :| 0 <= i < |after| - b && after[b..][i] == c;
      assert after[b + i] == tail[b + i - |second|];
    }
  }

  lemma CutIsFound(s: string, first: string, second: string, tab: bool, rest: string)
    requires Cut(s, first, second, tab, rest)
    ensures MatchHead(s).Some?
  {
    var tabs := if tab then "\t" else "";
    var tail := tabs + rest;
    var after := second + tail;
    CutAssociates(first, second, tabs, rest);
    AroundTab(first, after);
    CountRunExact(first, "\t" + after);
    LongestCountLeavesOneLine(second, tail);
  }

  /** The reader's one greedy pass finds a cut whenever the pattern has one, so backtracking adds nothing. */
  lemma HeadMatchesThePattern(s: string)
    ensures MatchHead(s).Some? <==> exists first, second, tab, rest :: Cut(s, first, second, tab, rest)
    ensures MatchHead(s).Some? ==> exists tab ::
        Cut(s, MatchHead(s).value.first, MatchHead(s).value.second, tab, MatchHead(s).value.rest)
  {
    if MatchHead(s).Some? { var tab := FoundIsCut(s); }
    forall first, second, tab, rest | Cut(s, first, second, tab, rest) ensures MatchHead(s).Some? {
      CutIsFound(s, first, second, tab, rest);
    }
  }

  /** With nothing digit-like after the counts, the cut is the printed one. */
  lemma HeadReadsBack(first: string, second: string, rest: string)
    requires IsCount(first) && IsCount(second)
    ensures MatchHead(first + "\t" + second + "\t" + rest) == if OneLine(rest) then Some(Head(first, second, rest))
        else None
  {
    var s := first + "\t" + second + "\t" + rest;
    var tail := "\t" + rest;
    var after := second + tail;
    CutAssociates(first, second, "\t", rest);
    AroundTab(first, after);
    CountRunExact(first, "\t" + after);
    AroundTab(second, rest);
    CountRunExact(second, tail);
    assert tail[1..] == rest;
  }

  lemma AroundTab(a: string, b: string)
    ensures var s := a + ("\t" + b);
            |s| == |a| + 1 + |b| && s[|a|] == '\t' && s[..|a|] == a && s[|a|..] == "\t" + b && s[|a| + 1..] == b
  {
  }

  // ---- reading ---------------------------------------------------------------------------------

  datatype Number = Num(n: int) | NaN
  datatype FileCount = FileCount(added: Number, removed: Number, binary: bool)
  type Counts = map<string, FileCount>

  function ToNumber(s: string): Number { if s == "-" then NaN else Num(ParseInt(s)) }

  function CountOf(h: Head): FileCount {
    if h.first == "-" then FileCount(Num(-1), Num(-1), true)
    else FileCount(ToNumber(h.first), ToNumber(h.second), false)
  }

  function Store(counts: Counts, path: string, c: FileCount): Counts {
    if path == [] then counts else counts[path := c]
  }

  function Read(tokens: seq<string>, counts: Counts): Counts
    decreases |tokens|
  {
    if tokens == [] then counts
    else
      var m := MatchHead(tokens[0]);
      if tokens[0] == [] || m.None? then Read(tokens[1..], counts)
      else if m.value.rest != [] then Read(tokens[1..], Store(counts, m.value.rest, CountOf(m.value)))
      else if |tokens| > 2 then Read(tokens[3..], Store(counts, tokens[2], CountOf(m.value)))
      else counts
  }

  method ParseNumstat(z: string) returns (counts: Counts)
    ensures counts == Read(Split(z), map[])
  {
    counts := map[];
    var tokens := Split(z);
    var i := 0;
    assert tokens[0..] == tokens;
    while i < |tokens|
      invariant 0 <= i
      invariant (if i < |tokens| then Read(tokens[i..], counts) else counts) == Read(tokens, map[])
    {
      ReadAt(tokens, i, counts);
      var head := tokens[i];
      i := i + 1;
      if head == [] { continue; }
      var m := MatchHead(head);
      if m.None? { continue; }
      var path := m.value.rest;
      if path == [] {
        i := i + 1;
        path := if i < |tokens| then tokens[i] else [];
        i := i + 1;
      }
      if path != [] { counts := counts[path := CountOf(m.value)]; }
    }
  }

  lemma ReadAt(tokens: seq<string>, i: nat, counts: Counts)
    requires i < |tokens|
    ensures var m := MatchHead(tokens[i]);
            Read(tokens[i..], counts) ==
              if tokens[i] == [] || m.None? then Read(tokens[i + 1..], counts)
              else if m.value.rest != [] then Read(tokens[i + 1..], Store(counts, m.value.rest, CountOf(m.value)))
              else if i + 2 < |tokens| then Read(tokens[i + 3..], Store(counts, tokens[i + 2], CountOf(m.value)))
              else counts
  {
    var rest := tokens[i..];
    assert rest[1..] == tokens[i + 1..];
    if i + 2 < |tokens| { assert rest[3..] == tokens[i + 3..] && rest[2] == tokens[i + 2]; }
  }

  // ---- what git prints -------------------------------------------------------------------------

  datatype Tally = Lines(added: nat, removed: nat) | Binary
  datatype NumRow = NumRow(tally: Tally, path: string, oldPath: Option<string>)

  predicate PrintableRow(r: NumRow) { ReadableName(r.path) && (r.oldPath.Some? ==> ReadableName(r.oldPath.value)) }

  function Prefix(t: Tally): string {
    match t
    case Lines(added, removed) => Decimal(added) + "\t" + Decimal(removed) + "\t"
    case Binary => "-\t-\t"
  }

  function RowTokens(r: NumRow): seq<string> {
    if r.oldPath.Some? then [Prefix(r.tally), r.oldPath.value, r.path] else [Prefix(r.tally) + r.path]
  }

  function NumTokens(rows: seq<NumRow>): seq<string> {
    if rows == [] then [] else RowTokens(rows[0]) + NumTokens(rows[1..])
  }

  function Tallied(t: Tally): FileCount {
    match t
    case Lines(added, removed) => FileCount(Num(added), Num(removed), false)
    case Binary => FileCount(Num(-1), Num(-1), true)
  }

  /** The rows' own table, the last row of a path winning. */
  function Table(rows: seq<NumRow>): Counts {
    if rows == [] then map[] else Table(rows[..|rows| - 1])[rows[|rows| - 1].path := Tallied(rows[|rows| - 1].tally)]
  }

  /** A plain row fits the pattern only when its path has no line terminator; a rename's paths are never matched. */
  predicate Legible(r: NumRow) { r.oldPath.Some? || OneLine(r.path) }

  function LegibleRows(rows: seq<NumRow>): seq<NumRow> {
    if rows == [] then []
    else LegibleRows(rows[..|rows| - 1]) + (if Legible(rows[|rows| - 1]) then [rows[|rows| - 1]] else [])
  }

  lemma PrefixParts(t: Tally, rest: string)
    ensures var m := MatchHead(Prefix(t) + rest);
            if OneLine(rest) then m.Some? && m.value.rest == rest && CountOf(m.value) == Tallied(t) else m == None
  {
    match t
    case Lines(added, removed) =>
      DecimalReadsBack(added);
      DecimalReadsBack(removed);
      assert Prefix(t) + rest == Decimal(added) + "\t" + Decimal(removed) + "\t" + rest;
      assert Decimal(added)[0] in Decimal(added) && Decimal(removed)[0] in Decimal(removed);
      HeadReadsBack(Decimal(added), Decimal(removed), rest);
    case Binary =>
      assert Prefix(t) + rest == "-" + "\t" + "-" + "\t" + rest;
      HeadReadsBack("-", "-", rest);
  }

  lemma {:induction false} PrefixIsClean(t: Tally)
    ensures Prefix(t) != [] && Clean(Prefix(t))
  {
    if t.Lines? {
      DecimalReadsBack(t.added);
      DecimalReadsBack(t.removed);
      assert !IsDigit(NUL);
    }
  }

  lemma {:induction false} NumTokensAreClean(rows: seq<NumRow>)
    requires forall r :: r in rows ==> PrintableRow(r)
    ensures forall x :: x in NumTokens(rows) ==> Clean(x)
  {
    if rows != [] {
      assert rows[0] in rows;
      PrefixIsClean(rows[0].tally);
      NumTokensAreClean(rows[1..]);
    }
  }

  /** Reading one printed row, whatever follows. */
  lemma ReadRow(r: NumRow, more: seq<string>, counts: Counts)
    requires PrintableRow(r)
    ensures Read(RowTokens(r) + more, counts)
        == Read(more, if Legible(r) then counts[r.path := Tallied(r.tally)] else counts)
  {
    var tokens := RowTokens(r) + more;
    PrefixIsClean(r.tally);
    if r.oldPath.Some? {
      PrefixParts(r.tally, []);
      assert Prefix(r.tally) + [] == Prefix(r.tally);
      assert tokens[3..] == more && tokens[2] == r.path;
    } else {
      PrefixParts(r.tally, r.path);
      assert tokens[1..] == more;
    }
  }

  function Folded(rows: seq<NumRow>, counts: Counts): Counts
    decreases |rows|
  {
    if rows == [] then counts
    else Folded(rows[1..], if Legible(rows[0]) then counts[rows[0].path := Tallied(rows[0].tally)] else counts)
  }

  lemma {:induction false} FoldedSplits(front: seq<NumRow>, last: NumRow, counts: Counts)
    ensures Folded(front + [last], counts)
         == if Legible(last) then Folded(front, counts)[last.path := Tallied(last.tally)] else Folded(front, counts)
    decreases |front|
  {
    var all := front + [last];
    if front == [] {
      assert all == [last] && all[1..] == [];
    } else {
      assert all[1..] == front[1..] + [last];
      FoldedSplits(front[1..], last, if Legible(front[0]) then counts[front[0].path := Tallied(front[0].tally)]
          else counts);
    }
  }

  lemma {:induction false} FoldedIsTable(rows: seq<NumRow>)
    ensures Folded(rows, map[]) == Table(LegibleRows(rows))
  {
    if rows != [] {
      var front, last := rows[..|rows| - 1], rows[|rows| - 1];
      var legible := LegibleRows(front);
      assert rows == front + [last];
      FoldedSplits(front, last, map[]);
      FoldedIsTable(front);
      if Legible(last) {
        assert (legible + [last])[..|legible|] == legible;
      } else {
        assert legible + [] == legible;
      }
    }
  }

  lemma {:induction false} ReadRows(rows: seq<NumRow>, counts: Counts)
    requires forall r :: r in rows ==> PrintableRow(r)
    ensures Read(NumTokens(rows) + [[]], counts) == Folded(rows, counts)
    decreases |rows|
  {
    if rows == [] {
      LastTokenAddsNothing(counts);
    } else {
      assert rows[0] in rows;
      ReadFirstRow(rows, counts);
      ReadRows(rows[1..], if Legible(rows[0]) then counts[rows[0].path := Tallied(rows[0].tally)] else counts);
    }
  }

  lemma LastTokenAddsNothing(counts: Counts)
    ensures Read(NumTokens([]) + [[]], counts) == counts
  {
    assert NumTokens([]) + [[]] == [[]];
    var last: seq<string> := [[]];
    assert last[1..] == [];
  }

  lemma ReadFirstRow(rows: seq<NumRow>, counts: Counts)
    requires rows != [] && PrintableRow(rows[0])
    ensures Read(NumTokens(rows) + [[]], counts)
         == Read(NumTokens(rows[1..]) + [[]], if Legible(rows[0]) then counts[rows[0].path := Tallied(rows[0].tally)]
             else counts)
  {
    assert NumTokens(rows) + [[]] == RowTokens(rows[0]) + (NumTokens(rows[1..]) + [[]]);
    ReadRow(rows[0], NumTokens(rows[1..]) + [[]], counts);
  }

  /** Reading what git printed gives the table of its rows, less exactly the plain rows whose path holds a
      line terminator. */
  lemma NumstatRoundTrip(rows: seq<NumRow>)
    requires forall r :: r in rows ==> PrintableRow(r)
    ensures Read(Split(Print(NumTokens(rows))), map[]) == Table(LegibleRows(rows))
  {
    NumTokensAreClean(rows);
    SplitPrinted(NumTokens(rows));
    ReadRows(rows, map[]);
    FoldedIsTable(rows);
  }

  lemma {:induction false} AllLegible(rows: seq<NumRow>)
    ensures LegibleRows(rows) == rows <==> forall r :: r in rows ==> Legible(r)
    ensures |LegibleRows(rows)| <= |rows|
  {
    if rows != [] {
      var front, last := rows[..|rows| - 1], rows[|rows| - 1];
      AllLegible(front);
      assert rows == front + [last];
    }
  }

  /** So for paths of one line the table is the rows' own. */
  lemma NumstatInverts(rows: seq<NumRow>)
    requires forall r :: r in rows ==> PrintableRow(r) && Legible(r)
    ensures Read(Split(Print(NumTokens(rows))), map[]) == Table(rows)
  {
    NumstatRoundTrip(rows);
    AllLegible(rows);
  }

  lemma {:induction false} TableKeys(rows: seq<NumRow>)
    ensures forall p :: p in Table(rows) <==> exists r :: r in rows && r.path == p
  {
    if rows != [] {
      var front, last := rows[..|rows| - 1], rows[|rows| - 1];
      TableKeys(front);
      assert rows == front + [last];
    }
  }

  /** A path is counted exactly when some legible row names it: a new file with a newline in its name is not. */
  lemma CountedExactlyWhenLegible(rows: seq<NumRow>, path: string)
    requires forall r :: r in rows ==> PrintableRow(r)
    ensures path in Read(Split(Print(NumTokens(rows))), map[])
        <==> exists r :: r in rows && Legible(r) && r.path == path
  {
    NumstatRoundTrip(rows);
    TableKeys(LegibleRows(rows));
    LegibleElements(rows);
  }

  lemma {:induction false} LegibleElements(rows: seq<NumRow>)
    ensures forall r :: r in LegibleRows(rows) <==> r in rows && Legible(r)
  {
    if rows != [] {
      LegibleElements(rows[..|rows| - 1]);
      assert rows == rows[..|rows| - 1] + [rows[|rows| - 1]];
    }
  }
}
