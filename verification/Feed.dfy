/** The console's per-task activity feed: two retention caps kept up to date as items stream in, and the
    merge with authoritative history (web/src/store.ts). */
module Feed {
  import opened Collections

  const PER_RUN_CAP := 800
  const FEED_HARD_CAP := 5000
  const THREAD_HISTORY_PAGE_SIZE := 400

  /** A feed row. Text, thinking and tool rows belong to a run; a tool result may not know its message row
      yet; a finding may name the run it came from; system notes belong to none. */
  datatype Item =
    | Text(runId: string, id: string, at: int, body: string)
    | Thinking(runId: string, id: string, at: int, body: string)
    | Tool(runId: string, id: string, at: int, body: string)
    | ToolResult(runId: string, messageId: Option<string>, at: int, body: string)
    | Finding(findingId: string, fromRunId: Option<string>, at: int, body: string)
    | System(id: string, at: int, body: string)
  {
    /** feedBucket: the run whose retention the row counts against. */
    function Bucket(): string {
      match this
      case Text(runId, _, _, _) => runId
      case Thinking(runId, _, _, _) => runId
      case Tool(runId, _, _, _) => runId
      case ToolResult(runId, _, _, _) => runId
      case Finding(_, from, _, _) => if from.Some? then from.value else "other"
      case System(_, _, _) => "other"
    }

    /** feedMessageId: the stable row id a live row shares with its copy in history. */
    function MessageId(): Option<string> {
      match this
      case Text(_, id, _, _) => Some(id)
      case Thinking(_, id, _, _) => Some(id)
      case Tool(_, id, _, _) => Some(id)
      case System(id, _, _) => Some(id)
      case ToolResult(_, messageId, _, _) => messageId
      case Finding(_, _, _, _) => None
    }
  }

  /** A row counts against the run it carries; a finding against the run it came from; whatever has no run, against
      one bucket together. */
  lemma RowsCountAgainstTheirRun(x: Item, run: string)
    ensures x.Bucket() == run <==>
              || ((x.Text? || x.Thinking? || x.Tool? || x.ToolResult?) && x.runId == run)
              || (x.Finding? && x.fromRunId == Some(run))
              || (run == "other" && (x.System? || (x.Finding? && x.fromRunId.None?)))
  {
  }

  /** Every kind of row but a finding can be a message of its own. */
  lemma RowsAreMessages(x: Item, id: string)
    ensures x.MessageId() == Some(id) <==>
              || ((x.Text? || x.Thinking? || x.Tool? || x.System?) && x.id == id)
              || (x.ToolResult? && x.messageId == Some(id))
  {
  }

  // ---- the caps, as one definition over the whole list -----------------------------------------

  function CountIn(bucket: string, items: seq<Item>): nat {
    if items == [] then 0 else (if items[0].Bucket() == bucket then 1 else 0) + CountIn(bucket, items[1..])
  }

  /** An item survives its run's cap when fewer than `cap` items of its run come after it. */
  function KeepRuns(items: seq<Item>, cap: nat): (r: seq<Item>)
    ensures |r| <= |items|
    ensures forall x :: x in r ==> x in items
  {
    if items == [] then []
    else (if CountIn(items[0].Bucket(), items[1..]) < cap then [items[0]] else []) + KeepRuns(items[1..], cap)
  }

  function Grow(pages: nat): nat { pages * THREAD_HISTORY_PAGE_SIZE }
  function RunCap(pages: nat): (c: nat) ensures c >= 1 { PER_RUN_CAP + Grow(pages) }
  function HardCap(pages: nat): nat { FEED_HARD_CAP + Grow(pages) }

  function Capped(items: seq<Item>, runCap: nat, hardCap: nat): seq<Item> { LastN(KeepRuns(items, runCap), hardCap) }

  function CapFeed(items: seq<Item>, pages: nat): seq<Item> { Capped(items, RunCap(pages), HardCap(pages)) }

  /** The rows counted so far, run by run. */
  ghost predicate Tallied(m: map<string, nat>, items: seq<Item>, rest: seq<Item>) {
    forall b :: Get(m, b) + CountIn(b, rest) == CountIn(b, items)
  }

  lemma TallyOne(m: map<string, nat>, items: seq<Item>, rest: seq<Item>)
    requires rest != [] && Tallied(m, items, rest)
    ensures Tallied(m[rest[0].Bucket() := Get(m, rest[0].Bucket()) + 1], items, rest[1..])
  {
    var x := rest[0].Bucket();
    var next := m[x := Get(m, x) + 1];
    forall b ensures Get(next, b) + CountIn(b, rest[1..]) == CountIn(b, items) {
      assert Get(m, b) + CountIn(b, rest) == CountIn(b, items);
    }
  }

  /** What is kept so far, and what the caps would keep of the rest, make up the whole. */
  ghost predicate KeptSoFar(items: seq<Item>, kept: seq<Item>, rest: seq<Item>, cap: nat) {
    kept + KeepRuns(rest, cap) == KeepRuns(items, cap)
  }

  lemma KeepOne(items: seq<Item>, kept: seq<Item>, rest: seq<Item>, cap: nat)
    requires rest != [] && KeptSoFar(items, kept, rest, cap)
    ensures if CountIn(rest[0].Bucket(), rest[1..]) < cap then KeptSoFar(items, kept + [rest[0]], rest[1..], cap)
            else KeptSoFar(items, kept, rest[1..], cap)
  {
    Associate(kept, if CountIn(rest[0].Bucket(), rest[1..]) < cap then [rest[0]] else [], KeepRuns(rest[1..], cap));
    assert kept + [] == kept;
  }

  lemma KeptAll(items: seq<Item>, kept: seq<Item>, cap: nat)
    requires KeptSoFar(items, kept, [], cap)
    ensures kept == KeepRuns(items, cap)
  {
    assert kept + [] == kept;
  }

  method Totals(items: seq<Item>) returns (totals: map<string, nat>)
    ensures Tallied(totals, items, [])
  {
    totals := map[];
    var rest := items;
    while rest != []
      invariant Tallied(totals, items, rest)
      decreases |rest|
    {
      TallyOne(totals, items, rest);
      totals := totals[rest[0].Bucket() := Get(totals, rest[0].Bucket()) + 1];
      rest := rest[1..];
    }
  }

  /** Not among its run's oldest overflow: fewer than `cap` rows of the run still to come. */
  lemma NotOverflow(totals: map<string, nat>, seen: map<string, nat>, items: seq<Item>, rest: seq<Item>, cap: nat)
    requires Tallied(totals, items, []) && Tallied(seen, items, rest) && rest != []
    ensures var total, idx := Get(totals, rest[0].Bucket()), Get(seen, rest[0].Bucket());
            (total > cap && idx < total - cap) <==> CountIn(rest[0].Bucket(), rest[1..]) >= cap
  {
    var b := rest[0].Bucket();
    assert Get(totals, b) + CountIn(b, []) == CountIn(b, items) == Get(seen, b) + CountIn(b, rest);
  }

  lemma OneTurn(items: seq<Item>, kept: seq<Item>, totals: map<string, nat>, seen: map<string, nat>, rest: seq<Item>,
          cap: nat)
    requires rest != [] && Tallied(totals, items, []) && Tallied(seen, items, rest) && KeptSoFar(items, kept, rest, cap)
    ensures var b := rest[0].Bucket();
            var total, idx := Get(totals, b), Get(seen, b);
            && Tallied(seen[b := idx + 1], items, rest[1..])
            && KeptSoFar(items, if total > cap && idx < total - cap then kept else kept + [rest[0]], rest[1..], cap)
  {
    TallyOne(seen, items, rest);
    KeepOne(items, kept, rest, cap);
    NotOverflow(totals, seen, items, rest, cap);
  }

  /** Count each run, then walk forward skipping each run's oldest overflow. */
  method KeepRunsLoop(items: seq<Item>, cap: nat) returns (kept: seq<Item>)
    ensures kept == KeepRuns(items, cap)
  {
    var totals := Totals(items);
    var seen: map<string, nat> := map[];
    var rest := items;
    kept := [];
    while rest != []
      invariant Tallied(seen, items, rest)
      invariant KeptSoFar(items, kept, rest, cap)
      decreases |rest|
    {
      var b := rest[0].Bucket();
      var total, idx := Get(totals, b), Get(seen, b);
      OneTurn(items, kept, totals, seen, rest, cap);
      seen := seen[b := idx + 1];
      if !(total > cap && idx < total - cap) { kept := kept + [rest[0]]; }
      rest := rest[1..];
    }
    KeptAll(items, kept, cap);
  }

  /** capFeed as written: the run caps, then the newest of the whole. */
  method CapFeedLoop(items: seq<Item>, pages: nat) returns (kept: seq<Item>)
    ensures kept == CapFeed(items, pages)
  {
    var hardCap := HardCap(pages);
    kept := KeepRunsLoop(items, RunCap(pages));
    if |kept| > hardCap { kept := kept[|kept| - hardCap..]; }
  }

  function Get(m: map<string, nat>, k: string): nat { if k in m then m[k] else 0 }

  // ---- how the run cap behaves -----------------------------------------------------------------

  function Min(a: nat, b: nat): nat { if a <= b then a else b }

  lemma {:induction false} CountConcat(b: string, x: seq<Item>, y: seq<Item>)
    ensures CountIn(b, x + y) == CountIn(b, x) + CountIn(b, y)
  {
    if x == [] {
      assert x + y == y;
    } else {
      assert (x + y)[1..] == x[1..] + y;
      CountConcat(b, x[1..], y);
    }
  }

  lemma {:induction false} CountKept(b: string, items: seq<Item>, cap: nat)
    ensures CountIn(b, KeepRuns(items, cap)) == Min(CountIn(b, items), cap)
  {
    if items != [] {
      var head := if CountIn(items[0].Bucket(), items[1..]) < cap then [items[0]] else [];
      CountKept(b, items[1..], cap);
      CountConcat(b, head, KeepRuns(items[1..], cap));
    }
  }

  /** A suffix is capped on its own terms. */
  lemma {:induction false} KeepSplits(x: seq<Item>, y: seq<Item>, cap: nat) returns (front: seq<Item>)
    ensures KeepRuns(x + y, cap) == front + KeepRuns(y, cap)
    ensures |front| <= |x|
  {
    if x == [] {
      assert x + y == y;
      front := [];
      assert [] + KeepRuns(y, cap) == KeepRuns(y, cap);
    } else {
      assert (x + y)[1..] == x[1..] + y;
      var rest := KeepSplits(x[1..], y, cap);
      var head := if CountIn(x[0].Bucket(), (x + y)[1..]) < cap then [x[0]] else [];
      front := head + rest;
      Associate(head, rest, KeepRuns(y, cap));
    }
  }

  lemma KeepHead(x: Item, items: seq<Item>, cap: nat)
    ensures KeepRuns([x] + items, cap) == (if CountIn(x.Bucket(), items) < cap then [x] else []) + KeepRuns(items, cap)
  {
    assert ([x] + items)[1..] == items;
  }

  /** Dropping what the cap would drop, then appending, changes nothing for the cap. */
  lemma {:induction false} KeepEarly(x: seq<Item>, y: seq<Item>, cap: nat)
    ensures KeepRuns(KeepRuns(x, cap) + y, cap) == KeepRuns(x + y, cap)
  {
    if x == [] {
      assert [] + y == y && x + y == y;
    } else {
      var b, tail, kept := x[0].Bucket(), x[1..], KeepRuns(x[1..], cap);
      assert (x + y)[1..] == tail + y;
      KeepEarly(tail, y, cap);
      CountKept(b, tail, cap);
      CountConcat(b, tail, y);
      CountConcat(b, kept, y);
      if CountIn(b, tail) < cap {
        Associate([x[0]], kept, y);
        KeepHead(x[0], kept + y, cap);
      } else {
        assert KeepRuns(x, cap) == kept;
      }
    }
  }

  /** Appending one item costs its run at most one. */
  lemma {:induction false} KeepOneMore(items: seq<Item>, x: Item, cap: nat)
    requires cap >= 1
    ensures |KeepRuns(items + [x], cap)| == |KeepRuns(items, cap)| + (if CountIn(x.Bucket(), items) < cap then 1 else 0)
  {
    if items == [] {
      assert items + [x] == [x];
    } else {
      assert (items + [x])[1..] == items[1..] + [x];
      CountConcat(items[0].Bucket(), items[1..], [x]);
      CountConcat(x.Bucket(), items[1..], [x]);
      KeepOneMore(items[1..], x, cap);
    }
  }

  ghost predicate RunsWithin(items: seq<Item>, cap: nat) { forall b :: CountIn(b, items) <= cap }

  lemma {:induction false} WithinKeepsAll(items: seq<Item>, cap: nat)
    requires RunsWithin(items, cap)
    ensures KeepRuns(items, cap) == items
  {
    if items != [] {
      var tail := items[1..];
      forall b ensures CountIn(b, tail) <= cap { assert CountIn(b, items) <= cap; }
      assert CountIn(items[0].Bucket(), items) == 1 + CountIn(items[0].Bucket(), tail);
      WithinKeepsAll(tail, cap);
      assert items == [items[0]] + tail;
    }
  }

  lemma KeptIsWithin(items: seq<Item>, cap: nat)
    ensures RunsWithin(KeepRuns(items, cap), cap)
  {
    forall b ensures CountIn(b, KeepRuns(items, cap)) <= cap { CountKept(b, items, cap); }
  }

  // ---- streaming equals batch ------------------------------------------------------------------

  lemma LastNOfTail<T>(front: seq<T>, back: seq<T>, n: nat)
    requires |back| >= n
    ensures LastN(front + back, n) == LastN(back, n)
  {
  }

  /** What the hard cap cut off is not missed when one more item comes. */
  lemma CutOffIsNotMissed(u: seq<Item>, s: seq<Item>, x: Item, runCap: nat)
    requires runCap >= 1 && KeepRuns(u + s, runCap) == u + s
    ensures LastN(KeepRuns(u + s + [x], runCap), |s|) == LastN(KeepRuns(s + [x], runCap), |s|)
  {
    var after := KeepRuns(s + [x], runCap);
    Associate(u, s, [x]);
    var front := KeepSplits(u, s + [x], runCap);
    var f := KeepSplits(u, s, runCap);
    assert |f + KeepRuns(s, runCap)| == |u| + |s| && |f| <= |u|;
    KeepOneMore(s, x, runCap);
    LastNOfTail(front, after, |s|);
  }

  lemma KeptIsKept(items: seq<Item>, cap: nat)
    ensures KeepRuns(KeepRuns(items, cap), cap) == KeepRuns(items, cap)
  {
    KeepEarly(items, [], cap);
    assert items + [] == items && KeepRuns(items, cap) + [] == KeepRuns(items, cap);
  }

  /** Capping the capped list with one more item is capping the whole list. */
  lemma CapOneMore(items: seq<Item>, x: Item, runCap: nat, hardCap: nat)
    requires runCap >= 1
    ensures Capped(Capped(items, runCap, hardCap) + [x], runCap, hardCap) == Capped(items + [x], runCap, hardCap)
  {
    var kept := KeepRuns(items, runCap);
    var s := LastN(kept, hardCap);
    KeepEarly(items, [x], runCap);
    if |kept| > hardCap {
      var u := kept[..|kept| - hardCap];
      assert kept == u + s;
      KeptIsKept(items, runCap);
      CutOffIsNotMissed(u, s, x, runCap);
    }
  }

  /** Items that carry an id carry it alone. */
  ghost predicate DistinctIds(items: seq<Item>) {
    forall i, j :: 0 <= i < j < |items| && items[i].MessageId().Some? ==> items[i].MessageId() != items[j].MessageId()
  }

  /** pushFeed at a fixed page count: a known id is dropped, anything else is appended and the caps applied. */
  function Push(feed: seq<Item>, item: Item, pages: nat): seq<Item> {
    if item.MessageId().Some? && exists i :: 0 <= i < |feed| && feed[i].MessageId() == item.MessageId() then feed
    else CapFeed(feed + [item], pages)
  }

  function PushAll(feed: seq<Item>, items: seq<Item>, pages: nat): seq<Item>
    decreases |items|
  {
    if items == [] then feed else PushAll(Push(feed, items[0], pages), items[1..], pages)
  }

  lemma {:induction false} PushAllFrom(before: seq<Item>, items: seq<Item>, pages: nat)
    requires DistinctIds(before + items)
    ensures PushAll(CapFeed(before, pages), items, pages) == CapFeed(before + items, pages)
    decreases |items|
  {
    if items == [] {
      assert before + items == before;
    } else {
      var x, feed := items[0], CapFeed(before, pages);
      assert before + items == before + [x] + items[1..];
      forall i | 0 <= i < |feed| ensures x.MessageId().None? || feed[i].MessageId() != x.MessageId() {
        CapAddsNothing(before, pages);
        assert feed[i] in before;
        var k :| 0 <= k < |before| && before[k] == feed[i];
        assert (before + items)[k] == before[k] && (before + items)[|before|] == x;
      }
      CapOneMore(before, x, RunCap(pages), HardCap(pages));
      PushAllFrom(before + [x], items[1..], pages);
    }
  }

  lemma CapAddsNothing(items: seq<Item>, pages: nat)
    ensures forall x :: x in CapFeed(items, pages) ==> x in items
  {
  }

  /** Streaming a feed item by item leaves exactly what capping the whole list would. */
  lemma StreamingEqualsBatch(items: seq<Item>, pages: nat)
    requires DistinctIds(items)
    ensures PushAll([], items, pages) == CapFeed(items, pages)
  {
    assert [] + items == items;
    assert CapFeed([], pages) == [];
    PushAllFrom([], items, pages);
  }

  // ---- what capFeed keeps ----------------------------------------------------------------------

  function InRun(bucket: string, items: seq<Item>): seq<Item> {
    if items == [] then [] else (if items[0].Bucket() == bucket then [items[0]] else []) + InRun(bucket, items[1..])
  }

  lemma {:induction false} InRunConcat(bucket: string, x: seq<Item>, y: seq<Item>)
    ensures InRun(bucket, x + y) == InRun(bucket, x) + InRun(bucket, y)
  {
    if x == [] {
      assert x + y == y;
    } else {
      assert (x + y)[1..] == x[1..] + y;
      InRunConcat(bucket, x[1..], y);
      Associate(if x[0].Bucket() == bucket then [x[0]] else [], InRun(bucket, x[1..]), InRun(bucket, y));
    }
  }

  lemma {:induction false} InRunCount(bucket: string, items: seq<Item>)
    ensures |InRun(bucket, items)| == CountIn(bucket, items)
  {
    if items != [] { InRunCount(bucket, items[1..]); }
  }

  ghost predicate IsSuffix(a: seq<Item>, b: seq<Item>) { |a| <= |b| && a == b[|b| - |a|..] }

  /** The cap keeps each run's newest items, exactly as many as it allows. */
  lemma {:induction false} KeepsNewestOfRun(bucket: string, items: seq<Item>, cap: nat)
    ensures InRun(bucket, KeepRuns(items, cap)) == LastN(InRun(bucket, items), cap)
  {
    if items != [] {
      var x, tail := items[0], items[1..];
      KeepsNewestOfRun(bucket, tail, cap);
      InRunCount(bucket, tail);
      InRunHead(bucket, x, tail);
      assert items == [x] + tail;
      if CountIn(x.Bucket(), tail) < cap {
        InRunHead(bucket, x, KeepRuns(tail, cap));
      } else {
        assert KeepRuns(items, cap) == KeepRuns(tail, cap);
        if x.Bucket() == bucket { LastNOfMore(x, InRun(bucket, tail), cap); }
      }
    }
  }

  lemma InRunHead(bucket: string, x: Item, items: seq<Item>)
    ensures InRun(bucket, [x] + items) == if x.Bucket() == bucket then [x] + InRun(bucket, items)
        else InRun(bucket, items)
  {
    assert ([x] + items)[1..] == items;
  }

  lemma LastNOfMore(x: Item, items: seq<Item>, n: nat)
    requires |items| >= n
    ensures LastN([x] + items, n) == LastN(items, n)
  {
  }

  lemma {:induction false} KeepRunsInOrder(items: seq<Item>, cap: nat)
    ensures Subsequence(KeepRuns(items, cap), items)
  {
    if items != [] {
      var rest := KeepRuns(items[1..], cap);
      KeepRunsInOrder(items[1..], cap);
      assert ([items[0]] + rest)[1..] == rest && [] + rest == rest;
    }
  }

  /** Capping only leaves items out: what stays keeps its order, across runs as within them. */
  lemma CapKeepsOrder(items: seq<Item>, pages: nat)
    ensures Subsequence(CapFeed(items, pages), items)
  {
    var kept := KeepRuns(items, RunCap(pages));
    KeepRunsInOrder(items, RunCap(pages));
    SubsequenceDrop(kept, items, |kept| - |CapFeed(items, pages)|);
  }

  /** Both caps hold of the result, and each run is left with a suffix of its items. */
  lemma CapBounds(items: seq<Item>, pages: nat, bucket: string)
    ensures |CapFeed(items, pages)| <= 5000 + 400 * pages
    ensures CountIn(bucket, CapFeed(items, pages)) <= 800 + 400 * pages
    ensures IsSuffix(InRun(bucket, CapFeed(items, pages)), InRun(bucket, items))
  {
    var kept, out := KeepRuns(items, RunCap(pages)), CapFeed(items, pages);
    var u := kept[..|kept| - |out|];
    assert kept == u + out;
    CountKept(bucket, items, RunCap(pages));
    CountConcat(bucket, u, out);
    KeepsNewestOfRun(bucket, items, RunCap(pages));
    InRunConcat(bucket, u, out);
    SuffixOfSuffix(InRun(bucket, u), InRun(bucket, out), InRun(bucket, items), RunCap(pages));
  }

  lemma SuffixOfSuffix(a: seq<Item>, b: seq<Item>, all: seq<Item>, n: nat)
    requires a + b == LastN(all, n)
    ensures IsSuffix(b, all)
  {
    var k := |all| - |a + b|;
    assert all[k..] == a + b;
    assert all[|all| - |b|..] == (a + b)[|a|..] == b;
  }

  /** A feed within both caps is exactly a feed capFeed leaves alone. */
  ghost predicate WithinCaps(items: seq<Item>, pages: nat) {
    |items| <= 5000 + 400 * pages && RunsWithin(items, 800 + 400 * pages)
  }

  lemma CapDropsNothingIff(items: seq<Item>, pages: nat)
    ensures CapFeed(items, pages) == items <==> WithinCaps(items, pages)
  {
    var kept := KeepRuns(items, RunCap(pages));
    if WithinCaps(items, pages) { WithinKeepsAll(items, RunCap(pages)); }
    if CapFeed(items, pages) == items {
      assert |kept| <= |items| == |LastN(kept, HardCap(pages))|;
      assert LastN(kept, HardCap(pages)) == kept;
      KeptIsWithin(items, RunCap(pages));
    }
  }

  lemma CapIsWithinCaps(items: seq<Item>, pages: nat)
    ensures WithinCaps(CapFeed(items, pages), pages)
  {
    forall b ensures CountIn(b, CapFeed(items, pages)) <= RunCap(pages) { CapBounds(items, pages, b); }
  }

  lemma CapIsIdempotent(items: seq<Item>, pages: nat)
    ensures CapFeed(CapFeed(items, pages), pages) == CapFeed(items, pages)
  {
    CapIsWithinCaps(items, pages);
    CapDropsNothingIff(CapFeed(items, pages), pages);
  }
}
