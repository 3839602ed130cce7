/** Shared vocabulary: optional values, the order JavaScript's `<` puts on strings, and the stable sort
    behind `Array.prototype.sort`. */
module Collections {
  datatype Option<+T> = None | Some(value: T)

  // ---- strings ---------------------------------------------------------------------------------

  /** `a < b`: code by code, a proper prefix first. */
  predicate Less(a: string, b: string) {
    if b == [] then false
    else if a == [] then true
    else a[0] < b[0] || (a[0] == b[0] && Less(a[1..], b[1..]))
  }

  /** It is what it says: the first code at which two strings differ decides, or else where one of them ends. */
  lemma {:induction false} LessAtTheFirstDifference(a: string, b: string, k: nat)
    requires k <= |a| && k <= |b| && a[..k] == b[..k]
    requires if k < |a| && k < |b| then a[k] != b[k] else |a| != |b|
    ensures Less(a, b) <==> if k < |a| && k < |b| then a[k] < b[k] else |a| < |b|
  {
    if k > 0 {
      assert a[1..][..k - 1] == a[..k][1..] && b[1..][..k - 1] == b[..k][1..];
      assert a[0] == a[..k][0] && b[0] == b[..k][0];
      LessAtTheFirstDifference(a[1..], b[1..], k - 1);
    }
  }

  lemma {:induction false} LessIsIrreflexive(a: string)
    ensures !Less(a, a)
  {
    if a != [] { LessIsIrreflexive(a[1..]); }
  }

  lemma {:induction false} LessIsTransitive(a: string, b: string, c: string)
    requires Less(a, b) && Less(b, c)
    ensures Less(a, c)
  {
    if a != [] && a[0] == b[0] && b[0] == c[0] {
      LessIsTransitive(a[1..], b[1..], c[1..]);
    }
  }

  lemma {:induction false} LessIsTotal(a: string, b: string)
    ensures Less(a, b) || a == b || Less(b, a)
  {
    if a != [] && b != [] && a[0] == b[0] {
      LessIsTotal(a[1..], b[1..]);
      if a[1..] == b[1..] {
        assert a == [a[0]] + a[1..] && b == [b[0]] + b[1..];
      }
    }
  }

  lemma LessIsAsymmetric(a: string, b: string)
    requires Less(a, b)
    ensures !Less(b, a) && a != b
  {
    LessIsIrreflexive(a);
    if Less(b, a) { LessIsTransitive(a, b, a); }
  }

  /** The indices below n. */
  function UpTo(n: nat): (r: set<nat>)
    ensures forall i: nat :: i in r <==> i < n
  {
    if n == 0 then {} else UpTo(n - 1) + {n - 1}
  }

  // ---- filtering -------------------------------------------------------------------------------

  function Filter<T>(keep: T -> bool, s: seq<T>): (r: seq<T>)
    ensures |r| <= |s|
    ensures forall x :: x in r ==> x in s && keep(x)
    ensures forall x :: x in s && keep(x) ==> x in r
  {
    if s == [] then []
    else (if keep(s[0]) then [s[0]] else []) + Filter(keep, s[1..])
  }

  lemma {:induction false} FilterAppends<T>(keep: T -> bool, a: seq<T>, b: seq<T>)
    ensures Filter(keep, a + b) == Filter(keep, a) + Filter(keep, b)
  {
    if a == [] {
      assert a + b == b;
    } else {
      assert (a + b)[1..] == a[1..] + b;
      FilterAppends(keep, a[1..], b);
    }
  }

  /** One step of filtering from the front. */
  lemma FilterStep<T>(keep: T -> bool, s: seq<T>, done: seq<T>, rest: seq<T>)
    requires rest != [] && done + Filter(keep, rest) == Filter(keep, s)
    ensures done + (if keep(rest[0]) then [rest[0]] else []) + Filter(keep, rest[1..]) == Filter(keep, s)
  {
    Associate(done, if keep(rest[0]) then [rest[0]] else [], Filter(keep, rest[1..]));
  }

  lemma Associate<T>(a: seq<T>, b: seq<T>, c: seq<T>)
    ensures a + b + c == a + (b + c)
  {
  }

  lemma {:induction false} FilterKeepsAll<T>(keep: T -> bool, s: seq<T>)
    requires forall x :: x in s ==> keep(x)
    ensures Filter(keep, s) == s
  {
    if s != [] {
      FilterKeepsAll(keep, s[1..]);
      assert s == [s[0]] + s[1..];
    }
  }

  lemma {:induction false} FilterKeepsNone<T>(keep: T -> bool, s: seq<T>)
    requires forall x :: x in s ==> !keep(x)
    ensures Filter(keep, s) == []
  {
    if s != [] { FilterKeepsNone(keep, s[1..]); }
  }

  /** `out` has, in order, one element for each element of `s` that is taken, and `fits` relates the two. */
  ghost predicate Picks<T(!new), U(!new)>(s: seq<T>, out: seq<U>, takes: T -> bool, fits: (T, U) -> bool)
    decreases |s|
  {
    if s == [] then out == []
    else if takes(s[0]) then out != [] && fits(s[0], out[0]) && Picks(s[1..], out[1..], takes, fits)
    else Picks(s[1..], out, takes, fits)
  }

  function Same<T(==)>(): (T, T) -> bool { (x: T, y: T) => x == y }

  lemma {:induction false} FilterPicks<T(!new)>(keep: T -> bool, s: seq<T>)
    ensures Picks(s, Filter(keep, s), keep, Same())
    decreases |s|
  {
    if s != [] {
      FilterPicks(keep, s[1..]);
      assert Filter(keep, s)[if keep(s[0]) then 1 else 0..] == Filter(keep, s[1..]);
    }
  }

  /** No element occurs twice. */
  predicate Distinct<T(==)>(s: seq<T>) {
    forall i, j :: 0 <= i < j < |s| ==> s[i] != s[j]
  }

  // ---- the stable sort -------------------------------------------------------------------------

  /** `after(x, y)`: the comparator puts x strictly after y. */
  ghost predicate WeakOrder<T(!new)>(after: (T, T) -> bool) {
    && (forall x, y :: after(x, y) ==> !after(y, x))
    && (forall x, y, z :: !after(x, y) && !after(y, z) ==> !after(x, z))
  }

  ghost predicate Sorted<T(!new)>(after: (T, T) -> bool, s: seq<T>) {
    forall i, j :: 0 <= i < j < |s| ==> !after(s[i], s[j])
  }

  /** Puts x behind everything it does not have to precede, which is what makes the sort stable. */
  function Place<T>(after: (T, T) -> bool, s: seq<T>, x: T): (r: seq<T>)
    ensures |r| == |s| + 1
    ensures multiset(r) == multiset(s) + multiset{x}
  {
    if s == [] || !after(s[|s| - 1], x) then s + [x]
    else
      var rest := Place(after, s[..|s| - 1], x);
      assert s == s[..|s| - 1] + [s[|s| - 1]];
      rest + [s[|s| - 1]]
  }

  function Sort<T>(after: (T, T) -> bool, s: seq<T>): (r: seq<T>)
    ensures |r| == |s|
    ensures multiset(r) == multiset(s)
  {
    if s == [] then []
    else
      assert s == s[..|s| - 1] + [s[|s| - 1]];
      Place(after, Sort(after, s[..|s| - 1]), s[|s| - 1])
  }

  lemma SameElements<T>(a: seq<T>, b: seq<T>)
    requires multiset(a) == multiset(b)
    ensures forall x :: x in a <==> x in b
  {
    forall x ensures x in a <==> x in b {
      assert x in a <==> x in multiset(a);
      assert x in b <==> x in multiset(b);
    }
  }

  lemma {:induction false} PlaceSorts<T(!new)>(after: (T, T) -> bool, s: seq<T>, x: T)
    requires WeakOrder(after) && Sorted(after, s)
    ensures Sorted(after, Place(after, s, x))
  {
    if s == [] || !after(s[|s| - 1], x) {
    } else {
      var front, last := s[..|s| - 1], s[|s| - 1];
      PlaceSorts(after, front, x);
      var r := Place(after, front, x);
      assert multiset(r) == multiset(front) + multiset{x};
      forall i | 0 <= i < |r| ensures !after(r[i], last) {
        assert r[i] in multiset(r);
        if r[i] != x {
          assert r[i] in multiset(front);
          assert r[i] in front;
          var j :| 0 <= j < |front| && front[j] == r[i];
          assert s[j] == r[i];
        }
      }
    }
  }

  lemma {:induction false} SortSorts<T(!new)>(after: (T, T) -> bool, s: seq<T>)
    requires WeakOrder(after)
    ensures Sorted(after, Sort(after, s))
  {
    if s != [] {
      SortSorts(after, s[..|s| - 1]);
      PlaceSorts(after, Sort(after, s[..|s| - 1]), s[|s| - 1]);
    }
  }

  /** Two sorted arrangements of the same elements agree when no two elements tie. */
  lemma {:induction false} PlaceIsStable<T(!new)>(after: (T, T) -> bool, keep: T -> bool, s: seq<T>, x: T)
    requires keep(x) ==> forall y :: y in s && keep(y) ==> !after(y, x)
    ensures Filter(keep, Place(after, s, x)) == Filter(keep, s) + Filter(keep, [x])
  {
    FilterAppends(keep, s, [x]);
    if s != [] && after(s[|s| - 1], x) {
      var front, last := s[..|s| - 1], s[|s| - 1];
      assert s == front + [last];
      PlaceIsStable(after, keep, front, x);
      var a, b, c := Filter(keep, front), Filter(keep, [x]), Filter(keep, [last]);
      FilterAppends(keep, Place(after, front, x), [last]);
      FilterAppends(keep, front, [last]);
      assert keep(x) ==> !keep(last) by { assert last in s; }
      EitherIsEmpty(a, b, c);
    }
  }

  lemma EitherIsEmpty<T>(a: seq<T>, b: seq<T>, c: seq<T>)
    requires b == [] || c == []
    ensures a + b + c == a + c + b
  {
  }

  /** Elements the order does not tell apart keep their places among themselves. */
  lemma {:induction false} SortIsStable<T(!new)>(after: (T, T) -> bool, keep: T -> bool, s: seq<T>)
    requires forall x, y :: x in s && y in s && keep(x) && keep(y) ==> !after(x, y)
    ensures Filter(keep, Sort(after, s)) == Filter(keep, s)
  {
    if s != [] {
      var front, last := s[..|s| - 1], s[|s| - 1];
      assert s == front + [last];
      SortIsStable(after, keep, front);
      SameElements(front, Sort(after, front));
      PlaceIsStable(after, keep, Sort(after, front), last);
      FilterAppends(keep, front, [last]);
    }
  }

  lemma {:induction false} FilterTwice<T>(first: T -> bool, second: T -> bool, both: T -> bool, s: seq<T>)
    requires forall x :: x in s ==> (both(x) <==> first(x) && second(x))
    ensures Filter(second, Filter(first, s)) == Filter(both, s)
  {
    if s != [] {
      FilterTwice(first, second, both, s[1..]);
      FilterAppends(second, if first(s[0]) then [s[0]] else [], Filter(first, s[1..]));
    }
  }

  lemma {:induction false} SortedIsUnique<T(!new)>(after: (T, T) -> bool, a: seq<T>, b: seq<T>)
    requires WeakOrder(after) && Sorted(after, a) && Sorted(after, b)
    requires multiset(a) == multiset(b)
    requires forall x, y :: x in a && y in a && !after(x, y) && !after(y, x) ==> x == y
    ensures a == b
  {
    assert |multiset(a)| == |multiset(b)|;
    if a != [] {
      SameHeads(after, a, b);
      MultisetTail(a);
      MultisetTail(b);
      assert a == [a[0]] + a[1..] && b == [b[0]] + b[1..];
      SortedTail(after, a);
      SortedTail(after, b);
      SortedIsUnique(after, a[1..], b[1..]);
    }
  }

  lemma SameHeads<T(!new)>(after: (T, T) -> bool, a: seq<T>, b: seq<T>)
    requires WeakOrder(after) && Sorted(after, a) && Sorted(after, b) && a != [] && b != []
    requires multiset(a) == multiset(b)
    requires forall x, y :: x in a && y in a && !after(x, y) && !after(y, x) ==> x == y
    ensures a[0] == b[0]
  {
    SameElements(a, b);
    assert a[0] in a && b[0] in b;
    HeadIsLeast(after, a, b[0]);
    HeadIsLeast(after, b, a[0]);
  }

  lemma MultisetTail<T>(s: seq<T>)
    requires s != []
    ensures multiset(s[1..]) == multiset(s) - multiset{s[0]}
  {
    assert s == [s[0]] + s[1..];
  }

  lemma HeadIsLeast<T(!new)>(after: (T, T) -> bool, s: seq<T>, x: T)
    requires WeakOrder(after) && Sorted(after, s) && x in s
    ensures !after(s[0], x)
  {
    var k :| 0 <= k < |s| && s[k] == x;
    assert !after(s[0], s[0]);
  }

  lemma SortedTail<T(!new)>(after: (T, T) -> bool, s: seq<T>)
    requires Sorted(after, s) && s != []
    ensures Sorted(after, s[1..])
  {
    forall i, j | 0 <= i < j < |s[1..]| ensures !after(s[1..][i], s[1..][j]) {
      assert !after(s[i + 1], s[j + 1]);
    }
  }

  function CountIf<T>(p: T -> bool, s: seq<T>): nat {
    if s == [] then 0 else (if p(s[0]) then 1 else 0) + CountIf(p, s[1..])
  }

  lemma {:induction false} CountIfConcat<T>(p: T -> bool, a: seq<T>, b: seq<T>)
    ensures CountIf(p, a + b) == CountIf(p, a) + CountIf(p, b)
  {
    if a == [] {
      assert a + b == b;
    } else {
      assert (a + b)[1..] == a[1..] + b;
      CountIfConcat(p, a[1..], b);
    }
  }

  lemma {:induction false} PlaceCounts<T>(after: (T, T) -> bool, p: T -> bool, s: seq<T>, x: T)
    ensures CountIf(p, Place(after, s, x)) == CountIf(p, s) + (if p(x) then 1 else 0)
  {
    if s == [] || !after(s[|s| - 1], x) {
      CountIfConcat(p, s, [x]);
    } else {
      var front, last := s[..|s| - 1], s[|s| - 1];
      assert s == front + [last];
      PlaceCounts(after, p, front, x);
      CountIfConcat(p, Place(after, front, x), [last]);
      CountIfConcat(p, front, [last]);
    }
  }

  /** Sorting moves elements; it counts the same. */
  lemma {:induction false} SortCounts<T>(after: (T, T) -> bool, p: T -> bool, s: seq<T>)
    ensures CountIf(p, Sort(after, s)) == CountIf(p, s)
  {
    if s != [] {
      var front, last := s[..|s| - 1], s[|s| - 1];
      assert s == front + [last];
      SortCounts(after, p, front);
      PlaceCounts(after, p, Sort(after, front), last);
      CountIfConcat(p, front, [last]);
    }
  }

  function LastN<T>(s: seq<T>, n: nat): (r: seq<T>)
    ensures |r| == if |s| <= n then |s| else n
    ensures forall x :: x in r ==> x in s
  {
    if |s| <= n then s else s[|s| - n..]
  }

  /** `a` is `b` with some elements left out, in the same order. */
  ghost predicate Subsequence<T>(a: seq<T>, b: seq<T>)
    decreases |b|
  {
    a == [] || (b != [] && ((a[0] == b[0] && Subsequence(a[1..], b[1..])) || Subsequence(a, b[1..])))
  }

  lemma {:induction false} SubsequenceTail<T>(a: seq<T>, b: seq<T>)
    requires a != [] && Subsequence(a, b)
    ensures Subsequence(a[1..], b)
    decreases |b|
  {
    if Subsequence(a, b[1..]) {
      SubsequenceTail(a, b[1..]);
    } else if a[1..] != [] {
      assert Subsequence(a[1..], b[1..]);
    }
  }

  lemma {:induction false} SubsequenceDrop<T>(a: seq<T>, b: seq<T>, n: nat)
    requires n <= |a| && Subsequence(a, b)
    ensures Subsequence(a[n..], b)
  {
    if n > 0 {
      SubsequenceTail(a, b);
      SubsequenceDrop(a[1..], b, n - 1);
      assert a[1..][n - 1..] == a[n..];
    }
  }

  // ---- keeping the warmest ---------------------------------------------------------------------

  /** `s` without the first n of its sorted order: how both bounded tables shed their coldest entries. */
  function DropColdest<T(==)>(after: (T, T) -> bool, s: seq<T>, n: nat): (r: seq<T>)
    requires n <= |s|
    ensures forall x :: x in r ==> x in s
  {
    WithoutElements(s, Sort(after, s)[..n]);
    Without(s, Sort(after, s)[..n])
  }

  function Without<T(==)>(s: seq<T>, gone: seq<T>): seq<T> {
    if s == [] then [] else (if s[0] in gone then [] else [s[0]]) + Without(s[1..], gone)
  }

  lemma {:induction false} WithoutElements<T>(s: seq<T>, gone: seq<T>)
    ensures forall x :: x in Without(s, gone) ==> x in s && x !in gone
    ensures forall x :: x in s && x !in gone ==> x in Without(s, gone)
  {
    if s != [] { WithoutElements(s[1..], gone); }
  }

  method RemoveAll<T(==)>(s: seq<T>, gone: seq<T>) returns (r: seq<T>)
    ensures r == Without(s, gone)
  {
    r := [];
    var rest := s;
    while rest != []
      invariant r + Without(rest, gone) == Without(s, gone)
      decreases |rest|
    {
      r, rest := WithoutStep(s, gone, r, rest), rest[1..];
    }
  }

  function WithoutStep<T(==)>(s: seq<T>, gone: seq<T>, r: seq<T>, rest: seq<T>): (t: seq<T>)
    requires rest != [] && r + Without(rest, gone) == Without(s, gone)
    ensures t + Without(rest[1..], gone) == Without(s, gone)
  {
    Associate(r, if rest[0] in gone then [] else [rest[0]], Without(rest[1..], gone));
    r + (if rest[0] in gone then [] else [rest[0]])
  }

  lemma {:induction false} WithoutIsDistinct<T>(s: seq<T>, gone: seq<T>)
    requires Distinct(s)
    ensures Distinct(Without(s, gone))
  {
    if s != [] {
      var rest := s[1..];
      DistinctTail(s);
      WithoutIsDistinct(rest, gone);
      WithoutElements(rest, gone);
    }
  }

  lemma DistinctTail<T>(s: seq<T>)
    requires Distinct(s) && s != []
    ensures Distinct(s[1..]) && s[0] !in s[1..]
  {
    var rest := s[1..];
    forall i, j | 0 <= i < j < |rest| ensures rest[i] != rest[j] { assert s[i + 1] != s[j + 1]; }
    forall k | 0 <= k < |rest| ensures rest[k] != s[0] { assert s[0] != s[k + 1]; }
  }

  lemma WithoutSize<T>(s: seq<T>, gone: seq<T>)
    requires Distinct(s) && Distinct(gone) && forall x :: x in gone ==> x in s
    ensures |Without(s, gone)| == |s| - |gone|
    ensures Distinct(Without(s, gone))
  {
    WithoutIsDistinct(s, gone);
    WithoutElements(s, gone);
    ToSet(s);
    ToSet(gone);
    ToSet(Without(s, gone));
    var all, lost := set x | x in s, set x | x in gone;
    assert (set x | x in Without(s, gone)) == all - lost;
    assert |all - lost| == |all| - |lost| by {
      assert lost <= all;
      assert all == (all - lost) + lost;
    }
  }

  lemma {:induction false} ToSet<T>(s: seq<T>)
    requires Distinct(s)
    ensures |set x | x in s| == |s|
  {
    if s != [] {
      DistinctTail(s);
      ToSet(s[1..]);
      assert (set x | x in s) == (set x | x in s[1..]) + {s[0]};
    }
  }

  lemma DistinctByMultiset<T>(s: seq<T>)
    ensures Distinct(s) <==> forall x :: x in s ==> multiset(s)[x] == 1
  {
    if Distinct(s) {
      forall x | x in s ensures multiset(s)[x] == 1 {
        var k :| 0 <= k < |s| && s[k] == x;
        assert s == s[..k] + [x] + s[k + 1..];
        forall i | 0 <= i < k ensures s[..k][i] != x { assert s[i] != s[k]; }
        var rest := s[k + 1..];
        forall i | 0 <= i < |rest| ensures rest[i] != x { assert s[k] != s[k + 1 + i]; }
        assert x !in s[..k] && x !in rest;
        assert multiset(s) == multiset(s[..k]) + multiset{x} + multiset(s[k + 1..]);
      }
    }
    if forall x :: x in s ==> multiset(s)[x] == 1 {
      forall i, j | 0 <= i < j < |s| ensures s[i] != s[j] {
        assert s == s[..j] + [s[j]] + s[j + 1..];
        assert multiset(s) == multiset(s[..j]) + multiset{s[j]} + multiset(s[j + 1..]);
        assert s[j] in s && s[j] !in multiset(s[..j]);
        assert s[i] == s[..j][i] && s[i] in multiset(s[..j]);
      }
    }
  }

  lemma SortDistinct<T>(after: (T, T) -> bool, s: seq<T>)
    requires Distinct(s)
    ensures Distinct(Sort(after, s)) && forall x :: x in Sort(after, s) <==> x in s
  {
    SameElements(s, Sort(after, s));
    DistinctByMultiset(s);
    DistinctByMultiset(Sort(after, s));
  }

  /** Exactly n entries go, each no warmer than any that stay. */
  lemma DropColdestKeepsWarmest<T(!new)>(after: (T, T) -> bool, s: seq<T>, n: nat)
    requires WeakOrder(after) && Distinct(s) && n <= |s|
    ensures |DropColdest(after, s, n)| == |s| - n && Distinct(DropColdest(after, s, n))
    ensures forall gone, kept :: gone in s && gone !in DropColdest(after, s, n) && kept in DropColdest(after, s, n)
                             ==> !after(gone, kept)
  {
    var t := Sort(after, s);
    var cold := t[..n];
    SortDistinct(after, s);
    SortSorts(after, s);
    assert Distinct(cold);
    WithoutSize(s, cold);
    WithoutElements(s, cold);
    forall gone, kept | gone in s && gone !in DropColdest(after, s, n) && kept in DropColdest(after, s, n)
      ensures !after(gone, kept)
    {
      assert gone in cold && kept !in cold && kept in t;
      var i :| 0 <= i < n && cold[i] == gone;
      var j :| 0 <= j < |t| && t[j] == kept;
      assert forall k :: 0 <= k < n ==> cold[k] == t[k];
    }
  }

  /** An entry appended last and no colder than the rest survives losing any n others. */
  lemma DropColdestKeepsNewest<T(!new)>(after: (T, T) -> bool, s: seq<T>, x: T, n: nat)
    requires WeakOrder(after) && Distinct(s + [x]) && n <= |s|
    requires forall y :: y in s ==> !after(y, x)
    ensures x in DropColdest(after, s + [x], n)
  {
    var all := s + [x];
    var cold := Sort(after, all)[..n];
    NewestSortsLast(after, s, x);
    SameElements(s, Sort(after, s));
    assert cold == Sort(after, s)[..n];
    forall k | 0 <= k < |s| ensures s[k] != x { assert all[k] != all[|s|]; }
    forall k | 0 <= k < n ensures cold[k] != x { assert cold[k] in Sort(after, s); }
    assert x == all[|s|] && x in all;
    WithoutElements(all, cold);
  }

  lemma NewestSortsLast<T>(after: (T, T) -> bool, s: seq<T>, x: T)
    requires forall y :: y in s ==> !after(y, x)
    ensures Sort(after, s + [x]) == Sort(after, s) + [x]
  {
    var all, sorted := s + [x], Sort(after, s);
    assert all[..|s|] == s && all[|s|] == x;
    SameElements(s, sorted);
    forall y | y in sorted ensures !after(y, x) { assert y in multiset(sorted) && y in multiset(s); }
    PlacedLast(after, sorted, x);
  }

  lemma PlacedLast<T>(after: (T, T) -> bool, s: seq<T>, x: T)
    requires forall y :: y in s ==> !after(y, x)
    ensures Place(after, s, x) == s + [x]
  {
    assert s != [] ==> s[|s| - 1] in s;
  }
}
