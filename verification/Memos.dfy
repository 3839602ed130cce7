/** Implementation memos: merging history pages with live events so that every order of arrival converges
    (web/src/implementationMemos.ts). */
module Memos {
  import opened Collections

  datatype Memo = Memo(id: string, revision: int, createdAt: int, updatedAt: int, completed: bool, report: string)

  // ---- the merge -------------------------------------------------------------------------------

  /** The loop's rule for one memo: a newer clock replaces, an equal one keeps what is there. */
  function Upsert(byId: map<string, Memo>, m: Memo): map<string, Memo> {
    if m.id !in byId || m.updatedAt > byId[m.id].updatedAt then byId[m.id := m] else byId
  }

  function MergeInto(byId: map<string, Memo>, incoming: seq<Memo>): map<string, Memo>
    decreases |incoming|
  {
    if incoming == [] then byId else MergeInto(Upsert(byId, incoming[0]), incoming[1..])
  }

  /** `new Map(existing.map(memo => [memo.id, memo]))`: a later row of one id replaces an earlier. */
  function Index(existing: seq<Memo>): map<string, Memo> {
    if existing == [] then map[]
    else Index(existing[..|existing| - 1])[existing[|existing| - 1].id := existing[|existing| - 1]]
  }

  function After(): (Memo, Memo) -> bool {
    (a: Memo, b: Memo) => a.revision > b.revision || (a.revision == b.revision && a.createdAt > b.createdAt)
  }

  ghost predicate Keyed(byId: map<string, Memo>) { forall id :: id in byId ==> byId[id].id == id }

  /** By revision, and within one revision by creation. */
  ghost predicate NoNewer(a: Memo, b: Memo) {
    a.revision < b.revision || (a.revision == b.revision && a.createdAt <= b.createdAt)
  }

  ghost predicate OldestFirst(list: seq<Memo>) { forall i, j :: 0 <= i < j < |list| ==> NoNewer(list[i], list[j]) }

  /** The map's values in the order the panel shows them. */
  ghost predicate Listed(byId: map<string, Memo>, list: seq<Memo>) {
    && OldestFirst(list) && Distinct(list)
    && forall m :: m in list <==> m.id in byId && byId[m.id] == m
  }

  lemma SortedIsOldestFirst(list: seq<Memo>)
    ensures OldestFirst(list) <==> Sorted(After(), list)
  {
    assert forall a, b :: NoNewer(a, b) <==> !After()(a, b);
  }

  lemma AfterIsWeakOrder()
    ensures WeakOrder(After())
  {
  }

  /** `order` is the Map's insertion order: its distinct keys as they were first set. */
  method MergeImplementationMemos(existing: seq<Memo>, incoming: seq<Memo>) returns (list: seq<Memo>)
    ensures Listed(MergeInto(Index(existing), incoming), list)
  {
    var byId: map<string, Memo> := map[];
    var order: seq<string> := [];
    for i := 0 to |existing|
      invariant byId == Index(existing[..i]) && Keyed(byId)
      invariant Distinct(order) && forall k :: k in order <==> k in byId
    {
      var memo := existing[i];
      assert existing[..i + 1][..i] == existing[..i];
      if memo.id !in byId { order := order + [memo.id]; }
      byId := byId[memo.id := memo];
    }
    assert existing[..|existing|] == existing;
    var rest := incoming;
    while rest != []
      invariant MergeInto(byId, rest) == MergeInto(Index(existing), incoming) && Keyed(byId)
      invariant Distinct(order) && forall k :: k in order <==> k in byId
      decreases |rest|
    {
      var memo := rest[0];
      if memo.id !in byId || memo.updatedAt > byId[memo.id].updatedAt {
        if memo.id !in byId { order := order + [memo.id]; }
        byId := byId[memo.id := memo];
      }
      rest := rest[1..];
    }
    list := SortedValues(byId, order);
  }

  method SortedValues(byId: map<string, Memo>, order: seq<string>) returns (list: seq<Memo>)
    requires Keyed(byId) && Distinct(order) && forall k :: k in order <==> k in byId
    ensures Listed(byId, list)
  {
    var values := seq(|order|, i requires 0 <= i < |order| => assert order[i] in order; byId[order[i]]);
    forall i, j | 0 <= i < j < |values| ensures values[i] != values[j] {
      assert values[i].id == order[i] && values[j].id == order[j];
    }
    list := Sort(After(), values);
    AfterIsWeakOrder();
    SortSorts(After(), values);
    SortedIsOldestFirst(list);
    SortDistinct(After(), values);
    forall m ensures m in list <==> m.id in byId && byId[m.id] == m {
      if m.id in byId && byId[m.id] == m {
        var i :| 0 <= i < |order| && order[i] == m.id;
        assert values[i] == m;
      }
      if m in values {
        var i :| 0 <= i < |values| && values[i] == m;
        assert order[i] in order && m.id == order[i];
      }
    }
  }

  // ---- an order-free description ---------------------------------------------------------------

  /** Two deliveries of one memo at one clock are the same memo: the server's clock is strictly monotonic. */
  ghost predicate ClockDeterminesContent(all: set<Memo>) {
    forall a, b :: a in all && b in all && a.id == b.id && a.updatedAt == b.updatedAt ==> a == b
  }

  /** Each id at its newest clock, and nothing else: a function of what was delivered, not of how. */
  ghost predicate IsNewest(all: set<Memo>, byId: map<string, Memo>) {
    && (forall id :: id in byId ==> byId[id] in all && byId[id].id == id)
    && (forall m :: m in all ==> m.id in byId && m.updatedAt <= byId[m.id].updatedAt)
  }

  lemma NewestIsUnique(all: set<Memo>, a: map<string, Memo>, b: map<string, Memo>)
    requires ClockDeterminesContent(all) && IsNewest(all, a) && IsNewest(all, b)
    ensures a == b
  {
    forall id | id in a ensures id in b && a[id] == b[id] { assert a[id] in all; assert b[id] in all; }
    forall id | id in b ensures id in a { assert b[id] in all; }
  }

  ghost function Elements(x: seq<Memo>): set<Memo> { set m | m in x }

  lemma UpsertIsNewest(all: set<Memo>, byId: map<string, Memo>, m: Memo)
    requires IsNewest(all, byId)
    ensures IsNewest(all + {m}, Upsert(byId, m))
  {
  }

  lemma {:induction false} MergeIsNewest(all: set<Memo>, byId: map<string, Memo>, incoming: seq<Memo>)
    requires IsNewest(all, byId)
    ensures IsNewest(all + Elements(incoming), MergeInto(byId, incoming))
    decreases |incoming|
  {
    if incoming == [] {
      assert all + Elements(incoming) == all;
    } else {
      UpsertIsNewest(all, byId, incoming[0]);
      MergeIsNewest(all + {incoming[0]}, Upsert(byId, incoming[0]), incoming[1..]);
      OneThenTheRest(all, incoming);
    }
  }

  lemma OneThenTheRest(all: set<Memo>, list: seq<Memo>)
    requires list != []
    ensures all + {list[0]} + Elements(list[1..]) == all + Elements(list)
  {
    assert list == [list[0]] + list[1..];
  }

  // ---- convergence -----------------------------------------------------------------------------

  /** A task's memos after some replies and live events. */
  function MergeBatches(byId: map<string, Memo>, batches: seq<seq<Memo>>): map<string, Memo>
    decreases |batches|
  {
    if batches == [] then byId else MergeBatches(MergeInto(byId, batches[0]), batches[1..])
  }

  function Flatten(batches: seq<seq<Memo>>): seq<Memo> {
    if batches == [] then [] else batches[0] + Flatten(batches[1..])
  }

  ghost function Delivered(batches: seq<seq<Memo>>): set<Memo> { set m | m in Flatten(batches) }

  lemma {:induction false} BatchesAreNewest(all: set<Memo>, byId: map<string, Memo>, batches: seq<seq<Memo>>)
    requires IsNewest(all, byId)
    ensures IsNewest(all + Delivered(batches), MergeBatches(byId, batches))
    decreases |batches|
  {
    if batches == [] {
      assert all + Delivered(batches) == all;
    } else {
      MergeIsNewest(all, byId, batches[0]);
      var more := all + Elements(batches[0]);
      BatchesAreNewest(more, MergeInto(byId, batches[0]), batches[1..]);
      assert more + Delivered(batches[1..]) == all + Delivered(batches);
    }
  }

  /** A keyed map is the newest of what it holds. */
  lemma KeyedIsNewest(byId: map<string, Memo>)
    requires Keyed(byId)
    ensures IsNewest(byId.Values, byId)
  {
    forall m | m in byId.Values ensures m.id in byId && byId[m.id] == m {
      var id :| id in byId && byId[id] == m;
    }
  }

  /** Whatever is there already, any order, any grouping and any repetition of the same deliveries ends in
      the same memos. */
  lemma MergeConverges(byId: map<string, Memo>, a: seq<seq<Memo>>, b: seq<seq<Memo>>)
    requires Keyed(byId) && Delivered(a) == Delivered(b) && ClockDeterminesContent(byId.Values + Delivered(a))
    ensures MergeBatches(byId, a) == MergeBatches(byId, b)
  {
    KeyedIsNewest(byId);
    BatchesAreNewest(byId.Values, byId, a);
    BatchesAreNewest(byId.Values, byId, b);
    NewestIsUnique(byId.Values + Delivered(a), MergeBatches(byId, a), MergeBatches(byId, b));
  }

  /** Merging is a join on whatever is there: history then live events, or live events then history. */
  lemma MergeCommutes(byId: map<string, Memo>, x: seq<Memo>, y: seq<Memo>)
    requires Keyed(byId) && ClockDeterminesContent(byId.Values + Elements(x) + Elements(y))
    ensures MergeInto(MergeInto(byId, x), y) == MergeInto(MergeInto(byId, y), x)
  {
    var all := byId.Values;
    MergedTwice(byId, x, y);
    MergedTwice(byId, y, x);
    EitherOrder(all, Elements(x), Elements(y));
    NewestIsUnique(all + Elements(x) + Elements(y), MergeInto(MergeInto(byId, x), y), MergeInto(MergeInto(byId, y), x));
  }

  lemma EitherOrder(a: set<Memo>, b: set<Memo>, c: set<Memo>)
    ensures a + b + c == a + c + b
  {
  }

  lemma MergedTwice(byId: map<string, Memo>, x: seq<Memo>, y: seq<Memo>)
    requires Keyed(byId)
    ensures IsNewest(byId.Values + Elements(x) + Elements(y), MergeInto(MergeInto(byId, x), y))
  {
    KeyedIsNewest(byId);
    MergeIsNewest(byId.Values, byId, x);
    MergeIsNewest(byId.Values + Elements(x), MergeInto(byId, x), y);
  }

  /** No row of the list would replace anything. */
  ghost predicate Dominates(byId: map<string, Memo>, list: seq<Memo>) {
    forall m :: m in list ==> m.id in byId && m.updatedAt <= byId[m.id].updatedAt
  }

  lemma {:induction false} MergeOnlyRaises(byId: map<string, Memo>, incoming: seq<Memo>)
    ensures forall id :: id in byId ==>
              id in MergeInto(byId, incoming) && byId[id].updatedAt <= MergeInto(byId, incoming)[id].updatedAt
    decreases |incoming|
  {
    if incoming != [] { MergeOnlyRaises(Upsert(byId, incoming[0]), incoming[1..]); }
  }

  lemma {:induction false} MergeDominates(byId: map<string, Memo>, incoming: seq<Memo>)
    ensures Dominates(MergeInto(byId, incoming), incoming)
    decreases |incoming|
  {
    if incoming != [] {
      var next := Upsert(byId, incoming[0]);
      MergeDominates(next, incoming[1..]);
      MergeOnlyRaises(next, incoming[1..]);
    }
  }

  lemma {:induction false} DominatedAddsNothing(byId: map<string, Memo>, incoming: seq<Memo>)
    requires Dominates(byId, incoming)
    ensures MergeInto(byId, incoming) == byId
    decreases |incoming|
  {
    if incoming != [] {
      assert incoming[0] in incoming && Upsert(byId, incoming[0]) == byId;
      DominatedAddsNothing(byId, incoming[1..]);
    }
  }

  /** The same reply again changes nothing, whatever was there and whatever the clocks say. */
  lemma MergeIsIdempotent(byId: map<string, Memo>, x: seq<Memo>)
    ensures MergeInto(MergeInto(byId, x), x) == MergeInto(byId, x)
  {
    MergeDominates(byId, x);
    DominatedAddsNothing(MergeInto(byId, x), x);
  }

  /** Two replies merged one after the other, or joined into one first: no clock assumption needed. */
  lemma {:induction false} MergeAssociates(byId: map<string, Memo>, y: seq<Memo>, z: seq<Memo>)
    ensures MergeInto(MergeInto(byId, y), z) == MergeInto(byId, y + z)
    decreases |y|
  {
    if y == [] {
      assert y + z == z;
    } else {
      assert (y + z)[1..] == y[1..] + z;
      MergeAssociates(Upsert(byId, y[0]), y[1..], z);
    }
  }

  /** The stored list is read back into the map it came from, so merging list by list is merging maps. */
  lemma {:induction false} IndexOfDistinct(list: seq<Memo>)
    requires forall i, j :: 0 <= i < j < |list| ==> list[i].id != list[j].id
    ensures Keyed(Index(list)) && forall m :: m in list <==> m.id in Index(list) && Index(list)[m.id] == m
    decreases |list|
  {
    if list != [] {
      var front, last := list[..|list| - 1], list[|list| - 1];
      assert list == front + [last];
      forall i, j | 0 <= i < j < |front| ensures front[i].id != front[j].id { assert list[i].id != list[j].id; }
      IndexOfDistinct(front);
      forall k | 0 <= k < |front| ensures front[k].id != last.id { assert list[k].id != list[|list| - 1].id; }
    }
  }

  lemma ListRoundTrips(byId: map<string, Memo>, list: seq<Memo>)
    requires Keyed(byId) && Listed(byId, list)
    ensures Index(list) == byId
  {
    forall i, j | 0 <= i < j < |list| ensures list[i].id != list[j].id {
      assert list[i] in list && list[j] in list;
    }
    IndexOfDistinct(list);
    forall id | id in byId ensures id in Index(list) && Index(list)[id] == byId[id] { assert byId[id] in list; }
    forall id | id in Index(list) ensures id in byId { assert Index(list)[id] in list; }
  }

  ghost predicate SortKeysDistinct(byId: map<string, Memo>) {
    forall x, y :: x in byId.Values && y in byId.Values && x.revision == y.revision && x.createdAt == y.createdAt
        ==> x == y
  }

  /** With distinct sort keys the shown list, too, is determined. */
  lemma ListIsDetermined(byId: map<string, Memo>, a: seq<Memo>, b: seq<Memo>)
    requires Keyed(byId) && Listed(byId, a) && Listed(byId, b) && SortKeysDistinct(byId)
    ensures a == b
  {
    AfterIsWeakOrder();
    DistinctByMultiset(a);
    DistinctByMultiset(b);
    assert multiset(a) == multiset(b) by {
      forall m ensures multiset(a)[m] == multiset(b)[m] {
        assert m in a <==> m in b;
        assert m in multiset(a) <==> m in a;
        assert m in multiset(b) <==> m in b;
      }
    }
    forall x, y | x in a && y in a && !After()(x, y) && !After()(y, x) ensures x == y {
      assert byId[x.id] in byId.Values && byId[y.id] in byId.Values;
    }
    SortedIsOldestFirst(a);
    SortedIsOldestFirst(b);
    SortedIsUnique(After(), a, b);
  }

  /** `last` is what the panel may show after merging the replies into `first` list by list. */
  ghost predicate MergesTo(first: seq<Memo>, replies: seq<seq<Memo>>, last: seq<Memo>)
    decreases |replies|
  {
    if replies == [] then last == first
    else exists next :: Listed(MergeInto(Index(first), replies[0]), next) && MergesTo(next, replies[1..], last)
  }

  lemma {:induction false} MergeKeepsKeys(byId: map<string, Memo>, incoming: seq<Memo>)
    requires Keyed(byId)
    ensures Keyed(MergeInto(byId, incoming))
    decreases |incoming|
  {
    if incoming != [] { MergeKeepsKeys(Upsert(byId, incoming[0]), incoming[1..]); }
  }

  /** Merging list by list lists the map merged batch by batch. */
  lemma {:induction false} ListsFollowMaps(byId: map<string, Memo>, first: seq<Memo>, replies: seq<seq<Memo>>,
          last: seq<Memo>)
    requires Keyed(byId) && Listed(byId, first) && MergesTo(first, replies, last)
    ensures Keyed(MergeBatches(byId, replies)) && Listed(MergeBatches(byId, replies), last)
    decreases |replies|
  {
    if replies != [] {
      ListRoundTrips(byId, first);
      var next :| Listed(MergeInto(Index(first), replies[0]), next) && MergesTo(next, replies[1..], last);
      MergeKeepsKeys(byId, replies[0]);
      ListsFollowMaps(MergeInto(byId, replies[0]), next, replies[1..], last);
    }
  }

  /** From one shown list, any order, grouping and repetition of the same deliveries ends in the same shown
      list when the resulting memos have distinct revisions. */
  lemma ListsConverge(byId: map<string, Memo>, first: seq<Memo>, a: seq<seq<Memo>>, b: seq<seq<Memo>>, x: seq<Memo>,
          y: seq<Memo>)
    requires Keyed(byId) && Listed(byId, first) && MergesTo(first, a, x) && MergesTo(first, b, y)
    requires Delivered(a) == Delivered(b) && ClockDeterminesContent(byId.Values + Delivered(a))
    requires SortKeysDistinct(MergeBatches(byId, a))
    ensures x == y
  {
    ListsFollowMaps(byId, first, a, x);
    ListsFollowMaps(byId, first, b, y);
    MergeConverges(byId, a, b);
    ListIsDetermined(MergeBatches(byId, a), x, y);
  }

  // ---- the featured memo -----------------------------------------------------------------------

  predicate Useful(m: Memo, blank: string -> bool) { m.completed && !blank(m.report) }

  function LastUseful(ordered: seq<Memo>, blank: string -> bool): (r: Option<Memo>)
    ensures r.Some? ==> r.value in ordered && Useful(r.value, blank)
    ensures r.None? ==> forall m :: m in ordered ==> !Useful(m, blank)
  {
    if ordered == [] then None
    else if Useful(ordered[|ordered| - 1], blank) then Some(ordered[|ordered| - 1])
    else
      var front := ordered[..|ordered| - 1];
      assert ordered == front + [ordered[|ordered| - 1]];
      LastUseful(front, blank)
  }

  datatype Selection = Selection(current: Option<Memo>, latestUseful: Option<Memo>, featured: Option<Memo>)

  function SelectMemos(memos: seq<Memo>, blank: string -> bool): Selection {
    var ordered := Sort(After(), memos);
    var current := if ordered == [] then None else Some(ordered[|ordered| - 1]);
    var useful := LastUseful(ordered, blank);
    Selection(current, useful, if useful.Some? then useful else current)
  }

  lemma {:induction false} LastUsefulIsNewest(ordered: seq<Memo>, blank: string -> bool)
    requires Sorted(After(), ordered) && LastUseful(ordered, blank).Some?
    ensures forall m :: m in ordered && Useful(m, blank) ==> !After()(m, LastUseful(ordered, blank).value)
    decreases |ordered|
  {
    var front, last := ordered[..|ordered| - 1], ordered[|ordered| - 1];
    assert ordered == front + [last];
    if Useful(last, blank) {
      forall m | m in ordered ensures !After()(m, last) {
        var k :| 0 <= k < |ordered| && ordered[k] == m;
      }
    } else {
      LastUsefulIsNewest(front, blank);
    }
  }

  /** A failed newest attempt never hides the newest report that says something, and nothing else is
      featured while one exists. */
  lemma FeaturedIsNewestUseful(memos: seq<Memo>, blank: string -> bool)
    ensures var s := SelectMemos(memos, blank);
            && (s.current.None? <==> memos == [])
            && (s.current.Some? ==> s.current.value in memos && forall m :: m in memos ==> NoNewer(m, s.current.value))
            && ((exists m :: m in memos && m.completed && !blank(m.report)) <==> s.latestUseful.Some?)
            && (s.latestUseful.Some? ==>
                  && s.featured == s.latestUseful && s.latestUseful.value in memos
                  && s.latestUseful.value.completed && !blank(s.latestUseful.value.report)
                  && forall m :: m in memos && m.completed && !blank(m.report) ==> NoNewer(m, s.latestUseful.value))
            && (s.latestUseful.None? ==> s.featured == s.current)
  {
    var ordered := Sort(After(), memos);
    AfterIsWeakOrder();
    SortSorts(After(), memos);
    SameElements(memos, ordered);
    if ordered != [] {
      forall m | m in memos ensures NoNewer(m, ordered[|ordered| - 1]) {
        var k :| 0 <= k < |ordered| && ordered[k] == m;
      }
      assert ordered[|ordered| - 1] in ordered;
    }
    if LastUseful(ordered, blank).Some? { LastUsefulIsNewest(ordered, blank); }
  }
}
