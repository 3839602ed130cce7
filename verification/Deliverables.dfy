/** A task's durable file findings, merged by database identity so that a late reply never erases a live
    card (web/src/threadDeliverables.ts). */
module Deliverables {
  import opened Collections

  datatype Finding = Finding(id: string, threadId: string, deliverable: bool, createdAt: int, body: string)

  type Order = (Finding, Finding) -> bool

  /** The loop's rule: only deliverables, the latest row of an id wins. */
  function Put(byId: map<string, Finding>, f: Finding): map<string, Finding> {
    if f.deliverable then byId[f.id := f] else byId
  }

  function PutAll(byId: map<string, Finding>, findings: seq<Finding>): map<string, Finding>
    decreases |findings|
  {
    if findings == [] then byId else PutAll(Put(byId, findings[0]), findings[1..])
  }

  function Merged(existing: seq<Finding>, incoming: seq<Finding>): map<string, Finding> {
    PutAll(PutAll(map[], existing), incoming)
  }

  /** A list shows a map: each value once, in the display order. */
  ghost predicate Shows(after: Order, byId: map<string, Finding>, list: seq<Finding>) {
    && Sorted(after, list) && Distinct(list)
    && (forall f :: f in list <==> f.id in byId && byId[f.id] == f)
    && (forall id :: id in byId ==> byId[id].id == id && byId[id].deliverable)
  }

  /** `after` is the display order: creation time, then the locale's order of ids. */
  method MergeThreadDeliverables(after: Order, existing: seq<Finding>, incoming: seq<Finding>)
    returns (list: seq<Finding>)
    requires WeakOrder(after)
    ensures Shows(after, Merged(existing, incoming), list)
  {
    var byId: map<string, Finding> := map[];
    var order: seq<string> := [];
    byId, order := Gather(byId, order, existing);
    byId, order := Gather(byId, order, incoming);
    var values := seq(|order|, i requires 0 <= i < |order| => assert order[i] in order; byId[order[i]]);
    forall i, j | 0 <= i < j < |values| ensures values[i] != values[j] {
      assert values[i].id == order[i] && values[j].id == order[j];
    }
    list := Sort(after, values);
    SortSorts(after, values);
    SortDistinct(after, values);
    forall f ensures f in list <==> f.id in byId && byId[f.id] == f {
      if f.id in byId && byId[f.id] == f {
        var i :| 0 <= i < |order| && order[i] == f.id;
        assert values[i] == f;
      }
      if f in values {
        var i :| 0 <= i < |values| && values[i] == f;
        assert order[i] in order && f.id == order[i];
      }
    }
  }

  ghost predicate Filled(byId: map<string, Finding>, order: seq<string>) {
    && Distinct(order) && (forall k :: k in order <==> k in byId)
    && forall id :: id in byId ==> byId[id].id == id && byId[id].deliverable
  }

  method Gather(byId: map<string, Finding>, order: seq<string>, findings: seq<Finding>)
    returns (filled: map<string, Finding>, keys: seq<string>)
    requires Filled(byId, order)
    ensures Filled(filled, keys) && filled == PutAll(byId, findings)
  {
    filled, keys := byId, order;
    var rest := findings;
    while rest != []
      invariant Filled(filled, keys) && PutAll(filled, rest) == PutAll(byId, findings)
      decreases |rest|
    {
      var f := rest[0];
      if f.deliverable {
        if f.id !in filled { keys := keys + [f.id]; }
        filled := filled[f.id := f];
      }
      rest := rest[1..];
    }
  }

  // ---- what the merge promises -----------------------------------------------------------------

  lemma {:induction false} PutAllConcat(byId: map<string, Finding>, a: seq<Finding>, b: seq<Finding>)
    ensures PutAll(byId, a + b) == PutAll(PutAll(byId, a), b)
    decreases |a|
  {
    if a == [] {
      assert a + b == b;
    } else {
      assert (a + b)[1..] == a[1..] + b;
      PutAllConcat(Put(byId, a[0]), a[1..], b);
    }
  }

  lemma {:induction false} PutAllKeeps(byId: map<string, Finding>, findings: seq<Finding>)
    ensures forall id :: id in byId ==> id in PutAll(byId, findings)
    ensures forall f :: f in findings && f.deliverable ==> f.id in PutAll(byId, findings)
    ensures forall id :: id in PutAll(byId, findings) ==>
              (id in byId && PutAll(byId, findings)[id] == byId[id]) || PutAll(byId, findings)[id] in findings
    ensures forall id :: id in PutAll(byId, findings) && id in byId && PutAll(byId, findings)[id] !in findings ==>
              PutAll(byId, findings)[id] == byId[id]
    decreases |findings|
  {
    if findings != [] { PutAllKeeps(Put(byId, findings[0]), findings[1..]); }
  }

  /** No card already shown disappears, every delivered one appears, and what a card shows is one of the two. */
  lemma NothingIsErased(existing: seq<Finding>, incoming: seq<Finding>)
    ensures forall f :: f in existing && f.deliverable ==> f.id in Merged(existing, incoming)
    ensures forall f :: f in incoming && f.deliverable ==> f.id in Merged(existing, incoming)
    ensures forall id :: id in Merged(existing, incoming) ==>
              Merged(existing, incoming)[id] in existing || Merged(existing, incoming)[id] in incoming
  {
    PutAllKeeps(map[], existing);
    PutAllKeeps(PutAll(map[], existing), incoming);
  }

  /** The last deliverable row of this id. */
  ghost predicate IsLatest(findings: seq<Finding>, id: string, i: nat) {
    && i < |findings| && findings[i].deliverable && findings[i].id == id
    && forall j :: i < j < |findings| && findings[j].deliverable ==> findings[j].id != id
  }

  lemma {:induction false} LatestIsPut(byId: map<string, Finding>, findings: seq<Finding>, id: string, i: nat)
    requires IsLatest(findings, id, i)
    ensures id in PutAll(byId, findings) && PutAll(byId, findings)[id] == findings[i]
    decreases |findings|
  {
    var rest := findings[1..];
    if i > 0 {
      LatestIsPut(Put(byId, findings[0]), rest, id, i - 1);
    } else {
      PutAllLeavesTheRest(Put(byId, findings[0]), rest);
      forall f | f in rest && f.deliverable ensures f.id != id {
        var j :| 0 <= j < |rest| && rest[j] == f;
        assert findings[j + 1] == f;
      }
      assert !Delivers(rest, id);
    }
  }

  /** Of several rows of one deliverable the latest shows: the reply's if it has one, else the one already there. */
  lemma LatestRowShows(existing: seq<Finding>, incoming: seq<Finding>, id: string, i: nat)
    requires IsLatest(existing + incoming, id, i)
    ensures id in Merged(existing, incoming) && Merged(existing, incoming)[id] == (existing + incoming)[i]
  {
    PutAllConcat(map[], existing, incoming);
    LatestIsPut(map[], existing + incoming, id, i);
  }

  ghost predicate Delivers(findings: seq<Finding>, id: string) {
    exists f :: f in findings && f.deliverable && f.id == id
  }

  ghost predicate AgreeBeyond(a: map<string, Finding>, b: map<string, Finding>, findings: seq<Finding>) {
    forall id :: !Delivers(findings, id) ==> (id in a <==> id in b) && (id in a ==> a[id] == b[id])
  }

  /** What is delivered overrides whatever was there, so only the rest matters. */
  lemma {:induction false} PutAllOverrides(a: map<string, Finding>, b: map<string, Finding>, findings: seq<Finding>)
    requires AgreeBeyond(a, b, findings)
    ensures PutAll(a, findings) == PutAll(b, findings)
    decreases |findings|
  {
    if findings == [] {
      forall id ensures (id in a <==> id in b) && (id in a ==> a[id] == b[id]) { assert !Delivers(findings, id); }
    } else {
      var f, rest := findings[0], findings[1..];
      forall id | !Delivers(rest, id)
        ensures (id in Put(a, f) <==> id in Put(b, f)) && (id in Put(a, f) ==> Put(a, f)[id] == Put(b, f)[id])
      {
        if !(f.deliverable && f.id == id) { assert !Delivers(findings, id); }
      }
      PutAllOverrides(Put(a, f), Put(b, f), rest);
    }
  }

  lemma {:induction false} PutAllLeavesTheRest(byId: map<string, Finding>, findings: seq<Finding>)
    ensures AgreeBeyond(PutAll(byId, findings), byId, findings)
    decreases |findings|
  {
    if findings != [] {
      var f, rest := findings[0], findings[1..];
      PutAllLeavesTheRest(Put(byId, f), rest);
      forall id | !Delivers(findings, id) ensures !Delivers(rest, id) && !(f.deliverable && f.id == id) {
        assert f in findings;
        forall g | g in rest && g.deliverable ensures g.id != id { assert g in findings; }
      }
    }
  }

  /** A reply replayed after itself changes nothing. */
  lemma ReplayChangesNothing(existing: seq<Finding>, incoming: seq<Finding>)
    ensures PutAll(Merged(existing, incoming), incoming) == Merged(existing, incoming)
  {
    PutAllLeavesTheRest(PutAll(map[], existing), incoming);
    PutAllOverrides(Merged(existing, incoming), PutAll(map[], existing), incoming);
  }

  lemma {:induction false} ShownAgain(after: Order, byId: map<string, Finding>, list: seq<Finding>)
    requires Shows(after, byId, list)
    ensures PutAll(map[], list) == byId
  {
    forall i, j | 0 <= i < j < |list| ensures list[i].id != list[j].id {
      assert list[i] in list && list[j] in list && list[i] != list[j];
    }
    DistinctPutAll(map[], list);
    forall f | f in list ensures f.deliverable { assert byId[f.id].deliverable; }
    var again := PutAll(map[], list);
    forall id | id in byId ensures id in again && again[id] == byId[id] { assert byId[id] in list; }
    forall id | id in again ensures id in byId { assert again[id] in list; }
  }

  lemma {:induction false} DistinctPutAll(byId: map<string, Finding>, list: seq<Finding>)
    requires forall i, j :: 0 <= i < j < |list| ==> list[i].id != list[j].id
    ensures forall f :: f in list && f.deliverable ==> f.id in PutAll(byId, list) && PutAll(byId, list)[f.id] == f
    ensures forall id :: id in PutAll(byId, list) ==>
              (PutAll(byId, list)[id] in list && PutAll(byId, list)[id].id == id) || id in byId
    ensures forall id :: id in byId && (forall f :: f in list ==> f.id != id) ==>
              id in PutAll(byId, list) && PutAll(byId, list)[id] == byId[id]
    decreases |list|
  {
    if list != [] {
      var rest := list[1..];
      forall i, j | 0 <= i < j < |rest| ensures rest[i].id != rest[j].id { assert list[i + 1].id != list[j + 1].id; }
      forall k | 0 <= k < |rest| ensures rest[k].id != list[0].id { assert list[0].id != list[k + 1].id; }
      DistinctPutAll(Put(byId, list[0]), rest);
    }
  }

  /** The order of the cards: by creation, then as the locale orders ids. */
  function ByCreation(locale: (string, string) -> bool): Order {
    (a: Finding, b: Finding) => a.createdAt > b.createdAt || (a.createdAt == b.createdAt && locale(a.id, b.id))
  }

  /** Whatever the locale, that is an order to sort by, and cards shown in it stand oldest first. */
  lemma CardsStandOldestFirst(locale: (string, string) -> bool, byId: map<string, Finding>, list: seq<Finding>)
    requires WeakOrder(locale)
    ensures WeakOrder(ByCreation(locale))
    ensures Shows(ByCreation(locale), byId, list) ==>
              forall i, j :: 0 <= i < j < |list| ==>
                list[i].createdAt < list[j].createdAt
                || (list[i].createdAt == list[j].createdAt && !locale(list[i].id, list[j].id))
  {
    var after := ByCreation(locale);
    forall x, y | after(x, y) ensures !after(y, x) { assert locale(x.id, y.id) ==> !locale(y.id, x.id); }
    forall x, y, z | !after(x, y) && !after(y, z) ensures !after(x, z) {
      assert !locale(x.id, y.id) && !locale(y.id, z.id) ==> !locale(x.id, z.id);
    }
  }

  // ---- grouping a board's findings -------------------------------------------------------------

  function OfThread(findings: seq<Finding>, thread: string): seq<Finding> {
    if findings == [] then []
    else OfThread(findings[..|findings| - 1], thread)
         + (if findings[|findings| - 1].deliverable && findings[|findings| - 1].threadId == thread
            then [findings[|findings| - 1]] else [])
  }

  function Group(grouped: map<string, seq<Finding>>, thread: string): seq<Finding> {
    if thread in grouped then grouped[thread] else []
  }

  /** Merging the rows into their threads one at a time gives each thread what one merge of its rows would. */
  method DeliverablesByThread(after: Order, findings: seq<Finding>) returns (grouped: map<string, seq<Finding>>)
    requires WeakOrder(after)
    ensures forall thread :: Shows(after, PutAll(map[], OfThread(findings, thread)), Group(grouped, thread))
  {
    grouped := map[];
    for i := 0 to |findings|
      invariant forall thread :: Shows(after, PutAll(map[], OfThread(findings[..i], thread)), Group(grouped, thread))
    {
      var f := findings[i];
      assert findings[..i + 1][..i] == findings[..i];
      forall thread
        ensures OfThread(findings[..i + 1], thread) == OfThread(findings[..i], thread)
            + (if f.deliverable && f.threadId == thread then [f] else [])
      {}
      if f.deliverable {
        var list := MergeThreadDeliverables(after, Group(grouped, f.threadId), [f]);
        ShownAgain(after, PutAll(map[], OfThread(findings[..i], f.threadId)), Group(grouped, f.threadId));
        PutAllConcat(map[], OfThread(findings[..i], f.threadId), [f]);
        grouped := grouped[f.threadId := list];
      }
      forall thread | !(f.deliverable && f.threadId == thread)
        ensures OfThread(findings[..i + 1], thread) == OfThread(findings[..i], thread)
      {
        assert OfThread(findings[..i], thread) + [] == OfThread(findings[..i], thread);
      }
    }
    assert findings[..|findings|] == findings;
  }

  /** A bounded board snapshot goes into the open index: each thread it names is merged, every other kept. */
  method MergeDeliverableIndexes(after: Order, existing: map<string, seq<Finding>>, incoming: map<string, seq<Finding>>)
    returns (merged: map<string, seq<Finding>>)
    requires WeakOrder(after)
    ensures merged.Keys == existing.Keys + incoming.Keys
    ensures forall thread :: thread in incoming ==>
              Shows(after, Merged(Group(existing, thread), incoming[thread]), merged[thread])
    ensures forall thread :: thread in existing && thread !in incoming ==> merged[thread] == existing[thread]
  {
    merged := existing;
    var threads := incoming.Keys;
    while threads != {}
      invariant threads <= incoming.Keys && merged.Keys == existing.Keys + (incoming.Keys - threads)
      invariant forall thread :: thread in incoming && thread !in threads ==>
                  Shows(after, Merged(Group(existing, thread), incoming[thread]), merged[thread])
      invariant forall thread :: thread in existing && (thread in threads || thread !in incoming) ==>
                  merged[thread] == existing[thread]
      decreases threads
    {
      var thread :| thread in threads;
      assert Group(merged, thread) == Group(existing, thread);
      var list := MergeThreadDeliverables(after, Group(merged, thread), incoming[thread]);
      merged := merged[thread := list];
      threads := threads - {thread};
    }
  }
}
