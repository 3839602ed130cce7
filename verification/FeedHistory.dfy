/** Merging a task's history pages into its live feed, and the paging state beside it (web/src/store.ts). */
module FeedHistory {
  import opened Collections
  import opened Feed

  datatype Cursor = Cursor(createdAt: int, id: string)

  /** What the console keeps for one open task. */
  datatype Thread = Thread(feed: seq<Item>, pages: nat, cursor: Option<Cursor>, hasMore: bool)

  /** A thread.history reply: its rows as feed items, its first message, whether it answers a request for
      older rows, and whether the server holds more. */
  datatype History = History(rows: seq<Item>, first: Option<Cursor>, before: bool, hasMore: bool)

  function NewThread(): Thread { Thread([], 0, None, false) }

  // ---- the merge -------------------------------------------------------------------------------

  function Later(): (Item, Item) -> bool { (a: Item, b: Item) => a.at > b.at }

  /** A history row carries the same message, or the same finding, as this item. */
  predicate InRows(x: Item, rows: seq<Item>) {
    if x.MessageId().Some? then exists i :: 0 <= i < |rows| && rows[i].MessageId() == x.MessageId()
    else x.Finding? && exists i :: 0 <= i < |rows| && rows[i].Finding? && rows[i].findingId == x.findingId
  }

  function LiveOnly(feed: seq<Item>, rows: seq<Item>): seq<Item> { Filter((x: Item) => !InRows(x, rows), feed) }

  /** The rows, and the live items they do not replace, in time order; rows first among equals. */
  function Merged(feed: seq<Item>, rows: seq<Item>): seq<Item> { Sort(Later(), rows + LiveOnly(feed, rows)) }

  predicate Older(a: Cursor, b: Cursor) {
    a.createdAt < b.createdAt || (a.createdAt == b.createdAt && Less(a.id, b.id))
  }

  function OlderCursor(current: Option<Cursor>, next: Cursor): Cursor {
    if current.None? then next else if Older(next, current.value) then next else current.value
  }

  function Apply(t: Thread, h: History): Thread {
    var pages := t.pages + (if h.before && h.first.Some? then 1 else 0);
    var cursor := if h.first.Some? then Some(OlderCursor(t.cursor, h.first.value)) else t.cursor;
    var replayed := !h.before && h.first.Some? && Older(cursor.value, h.first.value);
    Thread(CapFeed(Merged(t.feed, h.rows), pages), pages, cursor, if replayed then t.hasMore else h.hasMore)
  }

  datatype Event = Live(item: Item) | Page(history: History) | Reset

  function Step(t: Thread, e: Event): Thread {
    match e
    case Live(item) => t.(feed := Push(t.feed, item, t.pages))
    case Page(h) => Apply(t, h)
    case Reset => NewThread()
  }

  function Run(t: Thread, events: seq<Event>): Thread
    decreases |events|
  {
    if events == [] then t else Run(Step(t, events[0]), events[1..])
  }

  // ---- every feed stays bounded and free of doubles --------------------------------------------

  function HasId(id: string): Item -> bool { (x: Item) => x.MessageId() == Some(id) }

  ghost predicate IdsOnce(items: seq<Item>) { forall id :: CountIf(HasId(id), items) <= 1 }

  /** The database never returns one row twice in a page. */
  ghost predicate GoodEvent(e: Event) { e.Page? ==> IdsOnce(e.history.rows) }

  lemma {:induction false} CountKeepRuns(p: Item -> bool, items: seq<Item>, cap: nat)
    ensures CountIf(p, KeepRuns(items, cap)) <= CountIf(p, items)
  {
    if items != [] {
      CountKeepRuns(p, items[1..], cap);
      CountIfConcat(p, if CountIn(items[0].Bucket(), items[1..]) < cap then [items[0]] else [],
          KeepRuns(items[1..], cap));
    }
  }

  lemma CountCapped(p: Item -> bool, items: seq<Item>, pages: nat)
    ensures CountIf(p, CapFeed(items, pages)) <= CountIf(p, items)
  {
    var kept, out := KeepRuns(items, RunCap(pages)), CapFeed(items, pages);
    CountKeepRuns(p, items, RunCap(pages));
    assert kept == kept[..|kept| - |out|] + out;
    CountIfConcat(p, kept[..|kept| - |out|], out);
  }

  lemma {:induction false} CountNone(p: Item -> bool, items: seq<Item>)
    requires forall x :: x in items ==> !p(x)
    ensures CountIf(p, items) == 0
  {
    if items != [] { CountNone(p, items[1..]); }
  }

  lemma {:induction false} CountSome(p: Item -> bool, items: seq<Item>)
    requires CountIf(p, items) > 0
    ensures exists i :: 0 <= i < |items| && p(items[i])
  {
    if !p(items[0]) {
      CountSome(p, items[1..]);
      var i :| 0 <= i < |items[1..]| && p(items[1..][i]);
      assert p(items[i + 1]);
    }
  }

  lemma {:induction false} CountFilter(p: Item -> bool, keep: Item -> bool, items: seq<Item>)
    ensures CountIf(p, Filter(keep, items)) <= CountIf(p, items)
  {
    if items != [] {
      CountFilter(p, keep, items[1..]);
      CountIfConcat(p, if keep(items[0]) then [items[0]] else [], Filter(keep, items[1..]));
    }
  }

  lemma CapKeepsIdsOnce(items: seq<Item>, pages: nat)
    requires IdsOnce(items)
    ensures IdsOnce(CapFeed(items, pages))
  {
    forall id ensures CountIf(HasId(id), CapFeed(items, pages)) <= 1 {
      CountCapped(HasId(id), items, pages);
    }
  }

  lemma PushKeepsIdsOnce(feed: seq<Item>, item: Item, pages: nat)
    requires IdsOnce(feed)
    ensures IdsOnce(Push(feed, item, pages))
  {
    if item.MessageId().None? || forall i :: 0 <= i < |feed| ==> feed[i].MessageId() != item.MessageId() {
      forall id ensures CountIf(HasId(id), feed + [item]) <= 1 {
        CountIfConcat(HasId(id), feed, [item]);
        if item.MessageId() == Some(id) { CountNone(HasId(id), feed); }
      }
      CapKeepsIdsOnce(feed + [item], pages);
    }
  }

  lemma MergeKeepsIdsOnce(feed: seq<Item>, rows: seq<Item>)
    requires IdsOnce(feed) && IdsOnce(rows)
    ensures IdsOnce(Merged(feed, rows))
  {
    forall id ensures CountIf(HasId(id), Merged(feed, rows)) <= 1 {
      var live := LiveOnly(feed, rows);
      SortCounts(Later(), HasId(id), rows + live);
      CountIfConcat(HasId(id), rows, live);
      CountFilter(HasId(id), (x: Item) => !InRows(x, rows), feed);
      if CountIf(HasId(id), rows) > 0 {
        CountSome(HasId(id), rows);
        forall x | x in live ensures !HasId(id)(x) {}
        CountNone(HasId(id), live);
      }
    }
  }

  ghost predicate Good(t: Thread) { WithinCaps(t.feed, t.pages) && IdsOnce(t.feed) }

  lemma PushStaysWithin(feed: seq<Item>, item: Item, pages: nat)
    requires WithinCaps(feed, pages)
    ensures WithinCaps(Push(feed, item, pages), pages)
  {
    CapIsWithinCaps(feed + [item], pages);
  }

  lemma StepKeeps(t: Thread, e: Event)
    requires Good(t) && GoodEvent(e)
    ensures Good(Step(t, e))
  {
    match e
    case Live(item) =>
      PushStaysWithin(t.feed, item, t.pages);
      PushKeepsIdsOnce(t.feed, item, t.pages);
    case Page(h) =>
      var pages := Apply(t, h).pages;
      MergeKeepsIdsOnce(t.feed, h.rows);
      CapIsWithinCaps(Merged(t.feed, h.rows), pages);
      CapKeepsIdsOnce(Merged(t.feed, h.rows), pages);
    case Reset => NewIsGood();
  }

  lemma NewIsGood()
    ensures Good(NewThread())
  {
  }

  /** After any live items, pages and resets, in any order: within the caps for the pages loaded, and no
      message id twice. */
  lemma {:induction false} EveryRunIsGood(t: Thread, events: seq<Event>)
    requires Good(t) && forall i :: 0 <= i < |events| ==> GoodEvent(events[i])
    ensures Good(Run(t, events))
    decreases |events|
  {
    if events != [] {
      StepKeeps(t, events[0]);
      forall i | 0 <= i < |events[1..]| ensures GoodEvent(events[1..][i]) { assert events[1..][i] == events[i + 1]; }
      EveryRunIsGood(Step(t, events[0]), events[1..]);
    }
  }

  // ---- the merged feed is in time order --------------------------------------------------------

  ghost predicate InTimeOrder(feed: seq<Item>) { forall i, j :: 0 <= i < j < |feed| ==> feed[i].at <= feed[j].at }

  /** A history row stands for the live item: the same message, or the same finding. */
  ghost predicate Replaces(r: Item, x: Item) {
    || (x.MessageId().Some? && r.MessageId() == x.MessageId())
    || (x.Finding? && r.Finding? && r.findingId == x.findingId)
  }

  ghost predicate Replaced(x: Item, rows: seq<Item>) { exists r :: r in rows && Replaces(r, x) }

  lemma ReplacedMeansInRows(x: Item, rows: seq<Item>)
    ensures Replaced(x, rows) <==> InRows(x, rows)
  {
    if InRows(x, rows) {
      var i :| 0 <= i < |rows| && Replaces(rows[i], x);
      assert rows[i] in rows;
    }
    if Replaced(x, rows) {
      var r :| r in rows && Replaces(r, x);
      var i :| 0 <= i < |rows| && rows[i] == r;
    }
  }

  function At(at: int): Item -> bool { (x: Item) => x.at == at }
  ghost function LiveAt(at: int, rows: seq<Item>): Item -> bool { (x: Item) => x.at == at && !Replaced(x, rows) }

  lemma LaterIsWeakOrder()
    ensures WeakOrder(Later())
  {
  }

  /** The oldest first; of one moment, the rows before the live items they do not replace, each as they came. */
  lemma MergedIsInTimeOrder(feed: seq<Item>, rows: seq<Item>)
    ensures InTimeOrder(Merged(feed, rows))
    ensures forall at :: Filter(At(at), Merged(feed, rows)) == Filter(At(at), rows) + Filter(LiveAt(at, rows), feed)
  {
    var all := rows + LiveOnly(feed, rows);
    LaterIsWeakOrder();
    SortSorts(Later(), all);
    forall at ensures Filter(At(at), Merged(feed, rows)) == Filter(At(at), rows) + Filter(LiveAt(at, rows), feed) {
      SortIsStable(Later(), At(at), all);
      FilterAppends(At(at), rows, LiveOnly(feed, rows));
      forall x | x in feed ensures LiveAt(at, rows)(x) <==> !InRows(x, rows) && At(at)(x) {
        ReplacedMeansInRows(x, rows);
      }
      FilterTwice((x: Item) => !InRows(x, rows), At(at), LiveAt(at, rows), feed);
    }
  }

  lemma {:induction false} SubsequenceElements<T>(a: seq<T>, b: seq<T>)
    requires Subsequence(a, b)
    ensures forall x :: x in a ==> x in b
    decreases |b|
  {
    if a != [] {
      if a[0] == b[0] && Subsequence(a[1..], b[1..]) {
        SubsequenceElements(a[1..], b[1..]);
        assert a == [a[0]] + a[1..];
      } else {
        SubsequenceElements(a, b[1..]);
      }
    }
  }

  lemma {:induction false} LeavingOutKeepsOrder(a: seq<Item>, b: seq<Item>)
    requires InTimeOrder(b) && Subsequence(a, b)
    ensures InTimeOrder(a)
    decreases |b|
  {
    if a != [] {
      var rest := b[1..];
      forall i, j | 0 <= i < j < |rest| ensures rest[i].at <= rest[j].at { assert b[i + 1].at <= b[j + 1].at; }
      if a[0] == b[0] && Subsequence(a[1..], rest) {
        LeavingOutKeepsOrder(a[1..], rest);
        SubsequenceElements(a[1..], rest);
        forall k | 1 <= k < |a| ensures a[0].at <= a[k].at {
          assert a[k] == a[1..][k - 1] && a[k] in rest;
          var i :| 0 <= i < |rest| && rest[i] == a[k];
          assert b[0].at <= b[i + 1].at;
        }
        forall i, j | 0 <= i < j < |a| ensures a[i].at <= a[j].at {
          if i > 0 { assert a[1..][i - 1].at <= a[1..][j - 1].at; }
        }
      } else {
        LeavingOutKeepsOrder(a, rest);
      }
    }
  }

  /** After a page the feed is in time order, whatever it was before; and where the caps drop an item, every item
      they keep of its run is at least as new. */
  lemma PageKeepsTheNewest(t: Thread, h: History)
    ensures InTimeOrder(Apply(t, h).feed)
    ensures forall x, y ::
              x in Merged(t.feed, h.rows) && x !in Apply(t, h).feed && y in Apply(t, h).feed
              && x.Bucket() == y.Bucket() ==>
                x.at <= y.at
  {
    var merged, u := Merged(t.feed, h.rows), Apply(t, h);
    MergedIsInTimeOrder(t.feed, h.rows);
    CapKeepsOrder(merged, u.pages);
    LeavingOutKeepsOrder(u.feed, merged);
    forall x, y | x in merged && x !in u.feed && y in u.feed && x.Bucket() == y.Bucket() ensures x.at <= y.at {
      var b := x.Bucket();
      CapBounds(merged, u.pages, b);
      InRunKeepsOrder(b, merged);
      InRunElements(b, merged);
      InRunElements(b, u.feed);
      SuffixIsNewest(InRun(b, u.feed), InRun(b, merged), x, y);
    }
  }

  lemma SuffixIsNewest(kept: seq<Item>, all: seq<Item>, x: Item, y: Item)
    requires InTimeOrder(all) && IsSuffix(kept, all) && x in all && x !in kept && y in kept
    ensures x.at <= y.at
  {
    var i :| 0 <= i < |all| && all[i] == x;
    var j :| 0 <= j < |kept| && kept[j] == y;
    var n := |all| - |kept|;
    assert all[n + j] == y;
    forall k | n <= k < |all| ensures all[k] in kept { assert all[k] == kept[k - n]; }
  }

  lemma {:induction false} InRunElements(b: string, items: seq<Item>)
    ensures forall x :: x in InRun(b, items) <==> x in items && x.Bucket() == b
  {
    if items != [] { InRunElements(b, items[1..]); }
  }

  lemma {:induction false} InRunKeepsOrder(b: string, items: seq<Item>)
    requires InTimeOrder(items)
    ensures InTimeOrder(InRun(b, items))
  {
    InRunIsSubsequence(b, items);
    LeavingOutKeepsOrder(InRun(b, items), items);
  }

  lemma {:induction false} InRunIsSubsequence(b: string, items: seq<Item>)
    ensures Subsequence(InRun(b, items), items)
  {
    if items != [] {
      InRunIsSubsequence(b, items[1..]);
      var run := InRun(b, items);
      assert run[|run| - |InRun(b, items[1..])|..] == InRun(b, items[1..]);
    }
  }

  ghost predicate Known(feed: seq<Item>, item: Item) {
    exists x :: x in feed && x.MessageId().Some? && x.MessageId() == item.MessageId()
  }

  /** A live item whose message is shown already changes nothing; any other is the newest of the feed. */
  lemma LiveItemIsAddedOnce(t: Thread, item: Item)
    ensures Known(t.feed, item) ==> Step(t, Live(item)) == t
    ensures !Known(t.feed, item) ==>
              var u := Step(t, Live(item)); u == t.(feed := u.feed) && JoinsLast(t.feed, item, t.pages, u.feed)
  {
    KnownMeansFound(t.feed, item);
    if !Known(t.feed, item) { NewItemJoinsLast(t.feed, item, t.pages); }
  }

  lemma KnownMeansFound(feed: seq<Item>, item: Item)
    ensures Known(feed, item) <==>
              item.MessageId().Some? && exists i :: 0 <= i < |feed| && feed[i].MessageId() == item.MessageId()
  {
    if item.MessageId().Some? && exists i :: 0 <= i < |feed| && feed[i].MessageId() == item.MessageId() {
      var i :| 0 <= i < |feed| && feed[i].MessageId() == item.MessageId();
      assert feed[i] in feed;
    }
  }

  ghost predicate JoinsLast(feed: seq<Item>, item: Item, pages: nat, after: seq<Item>) {
    && after != [] && after[|after| - 1] == item && Subsequence(after, feed + [item])
    && (WithinCaps(feed + [item], pages) ==> after == feed + [item])
  }

  lemma NewItemJoinsLast(feed: seq<Item>, item: Item, pages: nat)
    ensures JoinsLast(feed, item, pages, CapFeed(feed + [item], pages))
  {
    CapKeepsOrder(feed + [item], pages);
    CapKeepsTheLast(feed, item, pages);
    CapDropsNothingIff(feed + [item], pages);
  }

  lemma {:induction false} LastIsKept(feed: seq<Item>, item: Item, cap: nat)
    requires cap >= 1
    ensures var kept := KeepRuns(feed + [item], cap); kept != [] && kept[|kept| - 1] == item
  {
    if feed == [] {
      assert feed + [item] == [item];
    } else {
      assert (feed + [item])[1..] == feed[1..] + [item];
      LastIsKept(feed[1..], item, cap);
    }
  }

  lemma CapKeepsTheLast(feed: seq<Item>, item: Item, pages: nat)
    ensures var out := CapFeed(feed + [item], pages); out != [] && out[|out| - 1] == item
  {
    LastIsKept(feed, item, RunCap(pages));
  }

  // ---- an older page survives its own merge ----------------------------------------------------

  lemma {:induction false} CountInIsCountIf(b: string, items: seq<Item>)
    ensures CountIn(b, items) == CountIf(InBucket(b), items)
  {
    if items != [] { CountInIsCountIf(b, items[1..]); }
  }

  function InBucket(b: string): Item -> bool { (x: Item) => x.Bucket() == b }

  lemma MergedCounts(feed: seq<Item>, rows: seq<Item>, b: string)
    ensures CountIn(b, Merged(feed, rows)) == CountIn(b, rows) + CountIn(b, LiveOnly(feed, rows))
    ensures CountIn(b, LiveOnly(feed, rows)) <= CountIn(b, feed)
  {
    var live := LiveOnly(feed, rows);
    SortCounts(Later(), InBucket(b), rows + live);
    CountIfConcat(InBucket(b), rows, live);
    CountFilter(InBucket(b), (x: Item) => !InRows(x, rows), feed);
    CountInIsCountIf(b, Merged(feed, rows));
    CountInIsCountIf(b, rows);
    CountInIsCountIf(b, live);
    CountInIsCountIf(b, feed);
  }

  /** The merge adds at most one page to the feed and to each run. */
  ghost predicate AddsAtMostOnePage(feed: seq<Item>, rows: seq<Item>) {
    && |Merged(feed, rows)| <= |feed| + THREAD_HISTORY_PAGE_SIZE
    && forall b :: CountIn(b, Merged(feed, rows)) <= CountIn(b, feed) + THREAD_HISTORY_PAGE_SIZE
  }

  lemma {:induction false} CountAtMost(b: string, items: seq<Item>)
    ensures CountIn(b, items) <= |items|
  {
    if items != [] { CountAtMost(b, items[1..]); }
  }

  /** A reply of no more rows than one page always does. */
  lemma OnePageOfRowsIsEnough(feed: seq<Item>, rows: seq<Item>)
    requires |rows| <= THREAD_HISTORY_PAGE_SIZE
    ensures AddsAtMostOnePage(feed, rows)
  {
    forall b ensures CountIn(b, Merged(feed, rows)) <= CountIn(b, feed) + THREAD_HISTORY_PAGE_SIZE {
      MergedCounts(feed, rows, b);
      CountAtMost(b, rows);
    }
  }

  /** An older page asked for is there afterwards, and so is everything that was: nothing is dropped. */
  lemma OlderPageSurvives(t: Thread, h: History)
    requires Good(t) && h.before && h.first.Some? && AddsAtMostOnePage(t.feed, h.rows)
    ensures Apply(t, h).feed == Merged(t.feed, h.rows)
    ensures forall x :: x in Apply(t, h).feed <==> x in h.rows || (x in t.feed && !Replaced(x, h.rows))
    ensures InTimeOrder(Apply(t, h).feed)
  {
    MergedIsInTimeOrder(t.feed, h.rows);
    RaisedCapsSuffice(t.feed, h.rows, t.pages);
    CapDropsNothingIff(Merged(t.feed, h.rows), t.pages + 1);
    MergedHolds(t.feed, h.rows);
  }

  lemma RaisedCapsSuffice(feed: seq<Item>, rows: seq<Item>, pages: nat)
    requires WithinCaps(feed, pages) && AddsAtMostOnePage(feed, rows)
    ensures WithinCaps(Merged(feed, rows), pages + 1)
  {
    var merged := Merged(feed, rows);
    assert RunCap(pages + 1) == RunCap(pages) + THREAD_HISTORY_PAGE_SIZE;
    forall b ensures CountIn(b, merged) <= RunCap(pages + 1) { assert CountIn(b, feed) <= RunCap(pages); }
  }

  lemma MergedHolds(feed: seq<Item>, rows: seq<Item>)
    ensures forall x :: x in Merged(feed, rows) <==> x in rows || (x in feed && !Replaced(x, rows))
  {
    SameElements(rows + LiveOnly(feed, rows), Merged(feed, rows));
    forall x ensures Replaced(x, rows) <==> InRows(x, rows) { ReplacedMeansInRows(x, rows); }
  }

  /** In general the merge drops nothing exactly when its result fits the raised caps. */
  lemma PageSurvivesIff(t: Thread, h: History)
    ensures Apply(t, h).feed == Merged(t.feed, h.rows) <==> WithinCaps(Merged(t.feed, h.rows), Apply(t, h).pages)
    ensures InTimeOrder(Merged(t.feed, h.rows))
  {
    MergedIsInTimeOrder(t.feed, h.rows);
    CapDropsNothingIff(Merged(t.feed, h.rows), Apply(t, h).pages);
  }

  // ---- the cursor is the running minimum -------------------------------------------------------

  lemma OlderIsTransitive(a: Cursor, b: Cursor, c: Cursor)
    requires !Older(b, a) && !Older(c, b)
    ensures !Older(c, a)
  {
    LessIsTotal(a.id, b.id);
    LessIsTotal(b.id, c.id);
    if a.createdAt == b.createdAt == c.createdAt {
      if Less(c.id, a.id) {
        if Less(a.id, b.id) { LessIsTransitive(c.id, a.id, b.id); }
      }
    }
  }

  /** First messages of the pages seen since the last reset. */
  function Firsts(events: seq<Event>): seq<Cursor> {
    if events == [] then []
    else
      var last := events[|events| - 1];
      var before := Firsts(events[..|events| - 1]);
      if last.Reset? then []
      else if last.Page? && last.history.first.Some? then before + [last.history.first.value]
      else before
  }

  ghost predicate IsOldest(c: Option<Cursor>, seen: seq<Cursor>) {
    (c.None? <==> seen == []) && (c.Some? ==> c.value in seen && forall x :: x in seen ==> !Older(x, c.value))
  }

  lemma {:induction false} RunOneMore(t: Thread, events: seq<Event>, e: Event)
    ensures Run(t, events + [e]) == Step(Run(t, events), e)
    decreases |events|
  {
    if events == [] {
      assert [] + [e] == [e];
      assert Run(Step(t, e), []) == Step(t, e);
    } else {
      assert (events + [e])[1..] == events[1..] + [e];
      RunOneMore(Step(t, events[0]), events[1..], e);
    }
  }

  lemma OldestOneMore(c: Option<Cursor>, seen: seq<Cursor>, next: Cursor)
    requires IsOldest(c, seen)
    ensures IsOldest(Some(OlderCursor(c, next)), seen + [next])
  {
    LessIsIrreflexive(next.id);
    forall x | x in seen + [next] ensures !Older(x, OlderCursor(c, next)) {
      if c.Some? && x in seen && Older(next, c.value) {
        LessIsTotal(next.id, c.value.id);
        if next.createdAt == c.value.createdAt { LessIsAsymmetric(next.id, c.value.id); }
        OlderIsTransitive(next, c.value, x);
      }
    }
  }

  /** However pages and reconnect replays interleave, the cursor is the oldest first message since the reset. */
  lemma {:induction false} CursorIsRunningMinimum(events: seq<Event>)
    ensures IsOldest(Run(NewThread(), events).cursor, Firsts(events))
    decreases |events|
  {
    if events != [] {
      var front, last := events[..|events| - 1], events[|events| - 1];
      assert events == front + [last];
      CursorIsRunningMinimum(front);
      RunOneMore(NewThread(), front, last);
      if last.Page? && last.history.first.Some? {
        OldestOneMore(Run(NewThread(), front).cursor, Firsts(front), last.history.first.value);
      } else if last.Live? || last.Page? {
        assert Firsts(front) + [] == Firsts(front);
      }
    }
  }

  /** A page counts when it was asked for and not empty; any page but a replay of newer rows says whether there
      are more. */
  lemma PageSetsPosition(t: Thread, h: History)
    ensures var u := Apply(t, h);
            && u.pages == t.pages + (if h.before && h.first.Some? then 1 else 0)
            && (h.before || h.first.None? || t.cursor.None? || !Older(t.cursor.value, h.first.value) ==>
                  u.hasMore == h.hasMore)
  {
    if h.first.Some? { LessIsIrreflexive(h.first.value.id); }
  }

  /** A reset forgets the feed and the position alike. */
  lemma ResetForgets(t: Thread)
    ensures var u := Step(t, Reset); u.feed == [] && u.pages == 0 && u.cursor.None? && !u.hasMore
  {
  }

  /** A reconnect that replays a newer page moves neither the cursor, the page count nor "has more". */
  lemma ReplayKeepsPosition(t: Thread, h: History)
    requires !h.before && h.first.Some? && t.cursor.Some? && Older(t.cursor.value, h.first.value)
    ensures var u := Apply(t, h); u.cursor == t.cursor && u.pages == t.pages && u.hasMore == t.hasMore
  {
    var a, b := t.cursor.value, h.first.value;
    if a.createdAt == b.createdAt { LessIsAsymmetric(a.id, b.id); }
  }
}
