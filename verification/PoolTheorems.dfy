/** Conservation, exactly-once answers and the scheduling guarantees of the pool, over every run. */
module PoolTheorems {
  import opened Collections
  import opened PoolSpec

  // ---- counting jobs ---------------------------------------------------------------------------

  function Here(tag: nat, job: Option<Job>): nat { if job.Some? && job.value.tag == tag then 1 else 0 }

  function Queued(jobs: seq<Job>, tag: nat): nat {
    if jobs == [] then 0 else Here(tag, Some(jobs[0])) + Queued(jobs[1..], tag)
  }

  function Running(slots: seq<Slot>, tag: nat): nat {
    if slots == [] then 0 else Here(tag, slots[0].busy) + Running(slots[1..], tag)
  }

  function AnsweredTimes(answers: seq<Answer>, tag: nat): nat {
    if answers == [] then 0
    else AnsweredTimes(answers[..|answers| - 1], tag) + (if answers[|answers| - 1].tag == tag then 1 else 0)
  }

  function OrdinaryBusy(slots: seq<Slot>): nat {
    if slots == [] then 0 else IsOrdinary(slots[0].busy) + OrdinaryBusy(slots[1..])
  }

  function IsOrdinary(job: Option<Job>): nat { if job.Some? && !job.value.urgent then 1 else 0 }

  /** How many places hold a job: the queue, the workers, the in-process fallback, the answers given. */
  function Places(s: State, tag: nat): nat {
    Queued(s.waiting, tag) + Running(s.slots, tag) + Queued(s.inProcess, tag) + AnsweredTimes(s.answers, tag)
  }

  lemma {:induction false} QueuedConcat(a: seq<Job>, b: seq<Job>, tag: nat)
    ensures Queued(a + b, tag) == Queued(a, tag) + Queued(b, tag)
  {
    if a == [] {
      assert a + b == b;
    } else {
      assert (a + b)[1..] == a[1..] + b;
      QueuedConcat(a[1..], b, tag);
    }
  }

  lemma QueuedOneMore(a: seq<Job>, job: Job, tag: nat)
    ensures Queued(a + [job], tag) == Queued(a, tag) + Here(tag, Some(job))
  {
    QueuedConcat(a, [job], tag);
  }

  lemma RemoveFirst<T>(xs: seq<T>, i: nat)
    requires i < |xs|
    ensures i == 0 ==> Remove(xs, i) == xs[1..]
    ensures i > 0 ==> Remove(xs, i) != [] && Remove(xs, i)[0] == xs[0] && Remove(xs, i)[1..] == Remove(xs[1..], i - 1)
  {
  }

  lemma {:induction false} QueuedRemove(jobs: seq<Job>, i: nat, tag: nat)
    requires i < |jobs|
    ensures Queued(jobs, tag) == Queued(Remove(jobs, i), tag) + Here(tag, Some(jobs[i]))
  {
    RemoveFirst(jobs, i);
    if i > 0 { QueuedRemove(jobs[1..], i - 1, tag); }
  }

  /** Replacing one slot changes each tally by that slot's job. */
  lemma {:induction false} SetSlot(slots: seq<Slot>, k: nat, x: Slot, tag: nat)
    requires k < |slots|
    ensures Running(slots[k := x], tag) + Here(tag, slots[k].busy) == Running(slots, tag) + Here(tag, x.busy)
    ensures OrdinaryBusy(slots[k := x]) + IsOrdinary(slots[k].busy) == OrdinaryBusy(slots) + IsOrdinary(x.busy)
  {
    if k == 0 {
      assert slots[0 := x][1..] == slots[1..];
    } else {
      assert slots[k := x][1..] == slots[1..][k - 1 := x];
      SetSlot(slots[1..], k - 1, x, tag);
    }
  }

  lemma {:induction false} RemoveSlot(slots: seq<Slot>, k: nat, tag: nat)
    requires k < |slots|
    ensures Running(Remove(slots, k), tag) + Here(tag, slots[k].busy) == Running(slots, tag)
    ensures OrdinaryBusy(Remove(slots, k)) + IsOrdinary(slots[k].busy) == OrdinaryBusy(slots)
  {
    RemoveFirst(slots, k);
    if k > 0 { RemoveSlot(slots[1..], k - 1, tag); }
  }

  lemma {:induction false} OneMoreSlot(slots: seq<Slot>, x: Slot, tag: nat)
    requires x.busy.None?
    ensures Running(slots + [x], tag) == Running(slots, tag)
    ensures OrdinaryBusy(slots + [x]) == OrdinaryBusy(slots)
    ensures BusyCount(slots + [x]) == BusyCount(slots)
  {
    if slots != [] {
      assert (slots + [x])[1..] == slots[1..] + [x];
      OneMoreSlot(slots[1..], x, tag);
    }
  }

  lemma {:induction false} OrdinaryAtMostBusy(slots: seq<Slot>)
    ensures OrdinaryBusy(slots) <= BusyCount(slots) <= |slots|
  {
    if slots != [] { OrdinaryAtMostBusy(slots[1..]); }
  }

  // ---- queue order -----------------------------------------------------------------------------

  function Class(jobs: seq<Job>, urgent: bool): seq<nat> {
    if jobs == [] then [] else (if jobs[0].urgent == urgent then [jobs[0].tag] else []) + Class(jobs[1..], urgent)
  }

  function Started(starts: seq<Start>, urgent: bool): seq<nat> {
    if starts == [] then []
    else Started(starts[..|starts| - 1], urgent)
         + (if starts[|starts| - 1].job.urgent == urgent then [starts[|starts| - 1].job.tag] else [])
  }

  lemma {:induction false} ClassConcat(a: seq<Job>, b: seq<Job>, urgent: bool)
    ensures Class(a + b, urgent) == Class(a, urgent) + Class(b, urgent)
  {
    if a == [] {
      assert a + b == b;
    } else {
      assert (a + b)[1..] == a[1..] + b;
      ClassConcat(a[1..], b, urgent);
      Associate(if a[0].urgent == urgent then [a[0].tag] else [], Class(a[1..], urgent), Class(b, urgent));
    }
  }

  lemma {:induction false} NoneOfClass(jobs: seq<Job>, urgent: bool)
    requires forall j :: j in jobs ==> j.urgent != urgent
    ensures Class(jobs, urgent) == []
  {
    if jobs != [] { NoneOfClass(jobs[1..], urgent); }
  }

  /** The job chosen is the first of its class, and no urgent job is ever passed over. */
  lemma ChoiceIsFirst(waiting: seq<Job>, urgent: bool)
    requires waiting != []
    ensures var i := Choice(waiting);
            && Class(waiting, urgent) == (if waiting[i].urgent == urgent then [waiting[i].tag] else [])
                + Class(Remove(waiting, i), urgent)
            && (!waiting[i].urgent ==> forall j :: j in waiting ==> !j.urgent)
  {
    var i := Choice(waiting);
    assert waiting == waiting[..i] + ([waiting[i]] + waiting[i + 1..]);
    ClassConcat(waiting[..i], [waiting[i]] + waiting[i + 1..], urgent);
    ClassConcat([waiting[i]], waiting[i + 1..], urgent);
    ClassConcat(waiting[..i], waiting[i + 1..], urgent);
    if waiting[i].urgent == urgent { NoneOfClass(waiting[..i], urgent); }
  }

  ghost predicate Rising(tags: seq<nat>) {
    forall i, j :: 0 <= i < j < |tags| ==> tags[i] < tags[j]
  }

  /** What has started, then what waits: one rising run of numbers already given out. */
  ghost predicate Ordered(started: seq<nat>, waiting: seq<nat>, bound: nat) {
    && Rising(started) && Rising(waiting)
    && (forall a, b :: a in started && b in waiting ==> a < b)
    && (forall a :: a in started ==> a < bound)
    && (forall b :: b in waiting ==> b < bound)
  }

  lemma OrderedMove(started: seq<nat>, x: nat, waiting: seq<nat>, bound: nat)
    requires Ordered(started, [x] + waiting, bound)
    ensures Ordered(started + [x], waiting, bound)
  {
    var all := [x] + waiting;
    forall b | b in waiting ensures x < b && b in all {
      var k :| 0 <= k < |waiting| && waiting[k] == b;
      assert all[0] < all[k + 1];
    }
    forall i, j | 0 <= i < j < |waiting| ensures waiting[i] < waiting[j] {
      assert all[i + 1] < all[j + 1];
    }
    var done := started + [x];
    forall i, j | 0 <= i < j < |done| ensures done[i] < done[j] {
      if j == |started| { assert started[i] in started && x in all; }
    }
    forall a, b | a in done && b in waiting ensures a < b { assert b in all; }
    assert x in all;
  }

  lemma OrderedQueue(started: seq<nat>, waiting: seq<nat>, bound: nat)
    requires Ordered(started, waiting, bound)
    ensures Ordered(started, waiting + [bound], bound + 1)
  {
    var all := waiting + [bound];
    forall i, j | 0 <= i < j < |all| ensures all[i] < all[j] {
      if j == |waiting| { assert waiting[i] in waiting; }
    }
  }

  // ---- the invariant ---------------------------------------------------------------------------

  /** A worker owes exactly the job its slot shows: still running it, or its one reply is on the way. */
  ghost predicate Owes(w: Worker, busy: Option<Job>) {
    match busy
    case None => w.outbox == [] && forall t :: t in w.jobs ==> w.jobs[t]
    case Some(job) =>
      && job.tag in w.jobs
      && w.outbox == (if w.jobs[job.tag] then [job.tag] else [])
      && forall t :: t in w.jobs && t != job.tag ==> w.jobs[t]
  }

  ghost predicate SlotsMatch(s: State) {
    && (forall i, j :: 0 <= i < j < |s.slots| ==> s.slots[i].id != s.slots[j].id)
    && (forall i :: 0 <= i < |s.slots| ==> s.slots[i].id < s.nextSlot && s.slots[i].armed == s.slots[i].busy.Some?)
    && (forall id: nat :: id in s.workers <==> id < s.nextSlot)
    && (forall i :: 0 <= i < |s.slots| ==>
          s.slots[i].id in s.workers && Owes(s.workers[s.slots[i].id], s.slots[i].busy))
  }

  ghost predicate Caps(c: Config, s: State) {
    |s.slots| <= c.size + URGENT_RESERVE && OrdinaryBusy(s.slots) <= c.size
  }

  /** Each class leaves the queue in submission order. */
  ghost predicate InOrder(s: State) {
    && Ordered(Started(s.starts, true), Class(s.waiting, true), s.nextTag)
    && Ordered(Started(s.starts, false), Class(s.waiting, false), s.nextTag)
  }

  ghost predicate UrgentFirst(s: State) {
    forall st :: st in s.starts && !st.job.urgent ==> forall j :: j in st.queue ==> !j.urgent
  }

  /** A reply answers the job it was posted for, though the handler never compares ids. */
  ghost predicate RepliesMatch(s: State) {
    forall a :: a in s.answers && a.how.Reply? ==> a.how.postedFor == a.tag
  }

  /** Every job submitted is in exactly one place; nothing else is anywhere. */
  ghost predicate Conserved(s: State) {
    forall tag: nat :: Places(s, tag) == if tag < s.nextTag then 1 else 0
  }

  ghost predicate Inv(c: Config, s: State) {
    && Conserved(s)
    && SlotsMatch(s) && Caps(c, s) && InOrder(s) && UrgentFirst(s) && RepliesMatch(s)
    && s.nextJobId == |s.starts| + 1
  }

  lemma SamePlaces(s: State, t: State)
    requires Conserved(s) && t.waiting == s.waiting && t.slots == s.slots && t.inProcess == s.inProcess
    requires t.answers == s.answers && t.nextTag == s.nextTag
    ensures Conserved(t)
  {
    forall tag: nat ensures Places(t, tag) == Places(s, tag) {}
  }

  // ---- pump ------------------------------------------------------------------------------------

  lemma DispatchPlaces(s: State, index: nat, k: nat)
    requires Conserved(s) && index < |s.waiting| && k < |s.slots| && s.slots[k].busy.None?
    ensures Conserved(Dispatch(s, index, k))
  {
    var t := Dispatch(s, index, k);
    forall tag: nat ensures Places(t, tag) == Places(s, tag) {
      QueuedRemove(s.waiting, index, tag);
      SetSlot(s.slots, k, t.slots[k], tag);
    }
  }

  lemma DispatchSlots(s: State, index: nat, k: nat)
    requires SlotsMatch(s) && index < |s.waiting| && k < |s.slots| && s.slots[k].busy.None?
    ensures SlotsMatch(Dispatch(s, index, k))
  {
    var t := Dispatch(s, index, k);
    forall i | 0 <= i < |t.slots|
      ensures t.slots[i].id in t.workers && Owes(t.workers[t.slots[i].id], t.slots[i].busy)
    {
      assert t.slots[i].id == s.slots[i].id;
      if i < k { assert s.slots[i].id != s.slots[k].id; } else if i > k { assert s.slots[k].id != s.slots[i].id; }
    }
  }

  lemma DispatchCaps(c: Config, s: State, index: nat, k: nat)
    requires Caps(c, s) && index < |s.waiting| && k < |s.slots| && s.slots[k].busy.None?
    requires BusyCount(s.slots) < Capacity(c, s.waiting[index])
    ensures Caps(c, Dispatch(s, index, k))
  {
    SetSlot(s.slots, k, s.slots[k].(busy := Some(s.waiting[index]), armed := true), 0);
    OrdinaryAtMostBusy(s.slots);
  }

  lemma DispatchOrder(s: State, k: nat)
    requires s.waiting != [] && k < |s.slots| && InOrder(s) && UrgentFirst(s)
    ensures InOrder(Dispatch(s, Choice(s.waiting), k)) && UrgentFirst(Dispatch(s, Choice(s.waiting), k))
  {
    var i := Choice(s.waiting);
    var t := Dispatch(s, i, k);
    var job := s.waiting[i];
    assert t.starts[..|s.starts|] == s.starts;
    ChoiceIsFirst(s.waiting, job.urgent);
    ChoiceIsFirst(s.waiting, !job.urgent);
    OrderedMove(Started(s.starts, job.urgent), job.tag, Class(t.waiting, job.urgent), s.nextTag);
    assert Started(s.starts, !job.urgent) + [] == Started(s.starts, !job.urgent);
    assert [] + Class(t.waiting, !job.urgent) == Class(t.waiting, !job.urgent);
  }

  lemma DispatchKeeps(c: Config, s: State, k: nat)
    requires Inv(c, s) && NextIndex(c, s).Some? && k < |s.slots| && s.slots[k].busy.None?
    ensures Inv(c, Dispatch(s, NextIndex(c, s).value, k))
  {
    var i := Choice(s.waiting);
    DispatchPlaces(s, i, k);
    DispatchSlots(s, i, k);
    DispatchCaps(c, s, i, k);
    DispatchOrder(s, k);
  }

  lemma SpawnKeeps(c: Config, s: State)
    requires Inv(c, s) && |s.slots| <= c.size
    ensures Inv(c, Spawned(s)) && NextIndex(c, Spawned(s)) == NextIndex(c, s)
  {
    forall tag: nat ensures Places(Spawned(s), tag) == Places(s, tag) {
      OneMoreSlot(s.slots, Slot(s.nextSlot, None, false), tag);
    }
    OneMoreSlot(s.slots, Slot(s.nextSlot, None, false), 0);
    SpawnMatches(s);
  }

  lemma SpawnMatches(s: State)
    requires SlotsMatch(s)
    ensures SlotsMatch(Spawned(s))
  {
  }

  lemma {:induction false} PumpKeeps(c: Config, s: State)
    requires Inv(c, s)
    ensures Inv(c, Pump(c, s))
    decreases |s.waiting|
  {
    var index, idle := NextIndex(c, s), FirstIdle(s.slots);
    if index.Some? {
      if idle < |s.slots| {
        DispatchKeeps(c, s, idle);
        PumpKeeps(c, Dispatch(s, index.value, idle));
      } else if |s.slots| < Capacity(c, s.waiting[index.value]) && c.canSpawn(s.attempts) {
        SpawnKeeps(c, s);
        DispatchKeeps(c, Spawned(s), |s.slots|);
        PumpKeeps(c, Dispatch(Spawned(s), index.value, |s.slots|));
      } else if |s.slots| < Capacity(c, s.waiting[index.value]) {
        SamePlaces(s, SpawnFailed(s));
      }
    }
  }

  /** Why pump may stop: nothing to do, the next job's class is at capacity, or a worker could not be made. */
  ghost predicate AtRest(c: Config, s: State, spawnFailed: bool) {
    || NextIndex(c, s).None?
    || (FirstIdle(s.slots) == |s.slots| && (spawnFailed || |s.slots| >= Capacity(c, s.waiting[NextIndex(c, s).value])))
  }

  /** How pump stopped, compared with where it began. */
  ghost predicate Stopped(c: Config, s: State, t: State) {
    s.attempts <= t.attempts && AtRest(c, t, t.attempts > s.attempts && !c.canSpawn(t.attempts - 1))
  }

  /** Pump goes round as long as there is a turn to take. */
  lemma PumpIsTurns(c: Config, s: State)
    ensures Pump(c, s) == if Turn(c, s).1 then Pump(c, Turn(c, s).0) else Turn(c, s).0
  {
  }

  lemma {:induction false} PumpStops(c: Config, s: State)
    ensures Stopped(c, s, Pump(c, s))
    decreases |s.waiting|
  {
    var t, index, idle := Pump(c, s), NextIndex(c, s), FirstIdle(s.slots);
    if index.Some? {
      if idle < |s.slots| {
        var d := Dispatch(s, index.value, idle);
        assert t == Pump(c, d) && d.attempts == s.attempts;
        PumpStops(c, d);
      } else if |s.slots| < Capacity(c, s.waiting[index.value]) && c.canSpawn(s.attempts) {
        var d := Dispatch(Spawned(s), index.value, |s.slots|);
        assert t == Pump(c, d) && d.attempts == s.attempts + 1;
        PumpStops(c, d);
        StoppedLater(c, s, d, t);
      }
    }
  }

  lemma StoppedLater(c: Config, s: State, d: State, t: State)
    requires Stopped(c, d, t) && d.attempts == s.attempts + 1 && c.canSpawn(s.attempts)
    ensures Stopped(c, s, t)
  {
  }

  /** The workers that have a job. */
  ghost function BusySlots(slots: seq<Slot>): set<nat> { set i: nat | i < |slots| && slots[i].busy.Some? }

  lemma {:induction false} BusyCountLast(slots: seq<Slot>, x: Slot)
    ensures BusyCount(slots + [x]) == BusyCount(slots) + (if x.busy.Some? then 1 else 0)
  {
    if slots != [] {
      assert (slots + [x])[1..] == slots[1..] + [x];
      BusyCountLast(slots[1..], x);
    }
  }

  lemma {:induction false} BusyCountIsTheBusy(slots: seq<Slot>)
    ensures |BusySlots(slots)| == BusyCount(slots)
  {
    if slots != [] {
      var front, last := slots[..|slots| - 1], slots[|slots| - 1];
      assert slots == front + [last];
      BusyCountIsTheBusy(front);
      BusyCountLast(front, last);
      assert BusySlots(slots) == BusySlots(front) + (if last.busy.Some? then {|front|} else {});
    }
  }

  /** Pump never leaves a startable job behind: unless its last attempt to make a worker failed, an ordinary job
      waits only behind as many busy workers as the pool has, and an urgent one behind one more. */
  lemma PumpIsWorkConserving(c: Config, s: State)
    ensures var t := Pump(c, s);
            || (t.attempts > s.attempts && !c.canSpawn(t.attempts - 1))
            || ((forall j :: j in t.waiting ==> |BusySlots(t.slots)| >= c.size)
                && (forall j :: j in t.waiting && j.urgent ==> |BusySlots(t.slots)| >= c.size + 1))
  {
    PumpStops(c, s);
    var t := Pump(c, s);
    if AtRest(c, t, false) { RestMeansFull(c, t); }
  }

  lemma RestMeansFull(c: Config, t: State)
    requires AtRest(c, t, false)
    ensures forall j :: j in t.waiting ==> |BusySlots(t.slots)| >= c.size
    ensures forall j :: j in t.waiting && j.urgent ==> |BusySlots(t.slots)| >= c.size + 1
  {
    BusyCountIsTheBusy(t.slots);
    if t.waiting != [] {
      ChoiceIsUrgentFirst(t.waiting);
      if FirstIdle(t.slots) == |t.slots| { NoneIdle(t.slots); }
    }
  }

  lemma ChoiceIsUrgentFirst(waiting: seq<Job>)
    requires waiting != []
    ensures !waiting[Choice(waiting)].urgent ==> forall j :: j in waiting ==> !j.urgent
  {
  }

  // ---- the handlers ----------------------------------------------------------------------------

  lemma OneMoreAnswer(answers: seq<Answer>, a: Answer, tag: nat)
    ensures AnsweredTimes(answers + [a], tag) == AnsweredTimes(answers, tag) + (if a.tag == tag then 1 else 0)
  {
    assert (answers + [a])[..|answers|] == answers;
  }

  /** Clearing a slot and answering its job moves the job from the slot to the answers. */
  ghost predicate Handed(s: State, t: State, k: nat, how: How)
    requires k < |s.slots|
  {
    && t.waiting == s.waiting && t.inProcess == s.inProcess && t.nextTag == s.nextTag
    && (t.slots == s.slots[k := s.slots[k].(busy := None, armed := false)] || t.slots == Remove(s.slots, k))
    && (s.slots[k].busy.Some? ==> t.answers == s.answers + [Answer(s.slots[k].busy.value.tag, how)])
    && (s.slots[k].busy.None? ==> t.answers == s.answers)
  }

  lemma HandedConserves(s: State, t: State, k: nat, how: How)
    requires Conserved(s) && k < |s.slots| && Handed(s, t, k, how)
    ensures Conserved(t) && OrdinaryBusy(t.slots) <= OrdinaryBusy(s.slots)
  {
    var cleared := s.slots[k].(busy := None, armed := false);
    forall tag: nat ensures Places(t, tag) == Places(s, tag) {
      SetSlot(s.slots, k, cleared, tag);
      RemoveSlot(s.slots, k, tag);
      if s.slots[k].busy.Some? { OneMoreAnswer(s.answers, Answer(s.slots[k].busy.value.tag, how), tag); }
    }
    SetSlot(s.slots, k, cleared, 0);
    RemoveSlot(s.slots, k, 0);
  }

  lemma SlotAtFinds(slots: seq<Slot>, i: nat)
    requires i < |slots| && forall a, b :: 0 <= a < b < |slots| ==> slots[a].id != slots[b].id
    ensures SlotAt(slots, slots[i].id) == i
  {
    var k := SlotAt(slots, slots[i].id);
    assert !(k < i) && !(i < k);
  }

  lemma LostKeeps(c: Config, s: State, id: nat, how: How)
    requires Inv(c, s) && !how.Reply?
    ensures Inv(c, Lost(s, id, how))
  {
    var k := SlotAt(s.slots, id);
    if k < |s.slots| {
      var r, t := Released(s, id), Lost(s, id, how);
      SlotAtFinds(s.slots, k);
      SlotAtFinds(r.slots, k);
      assert Remove(r.slots, k) == Remove(s.slots, k);
      HandedConserves(s, t, k, how);
      assert SlotsMatch(t) by { RemoveMatches(s, k, t); }
    }
  }

  lemma RemoveMatches(s: State, k: nat, t: State)
    requires SlotsMatch(s) && k < |s.slots|
    requires t.slots == Remove(s.slots, k) && t.workers == s.workers && t.nextSlot == s.nextSlot
    ensures SlotsMatch(t)
  {
    forall i | 0 <= i < |t.slots| ensures t.slots[i] == s.slots[if i < k then i else i + 1] {}
  }

  lemma DropKeeps(c: Config, s: State, id: nat)
    requires Inv(c, s) && JobOf(s, id).None?
    ensures Inv(c, Dropped(s, id))
  {
    var k := SlotAt(s.slots, id);
    if k < |s.slots| {
      HandedConserves(s, Dropped(s, id), k, WorkerDied);
      RemoveMatches(s, k, Dropped(s, id));
    }
  }

  /** The slot that was read is free, and every other is owed what it was. */
  lemma ReplyMatches(s: State, id: nat)
    requires SlotsMatch(s) && id in s.workers && s.workers[id].outbox != [] && SlotAt(s.slots, id) < |s.slots|
    ensures SlotsMatch(ReplyHandled(s, id))
  {
    var k, t := SlotAt(s.slots, id), ReplyHandled(s, id);
    assert Owes(s.workers[s.slots[k].id], s.slots[k].busy);
    forall i | 0 <= i < |t.slots| ensures t.slots[i].id in t.workers
        && Owes(t.workers[t.slots[i].id], t.slots[i].busy) {
      if i < k { assert s.slots[i].id != s.slots[k].id; } else if i > k { assert s.slots[k].id != s.slots[i].id; }
    }
  }

  lemma ReplyKeeps(c: Config, s: State, id: nat)
    requires Inv(c, s) && id in s.workers && s.workers[id].outbox != []
    ensures Inv(c, ReplyHandled(s, id))
  {
    var k, t := SlotAt(s.slots, id), ReplyHandled(s, id);
    if k < |s.slots| {
      assert Owes(s.workers[s.slots[k].id], s.slots[k].busy);
      var mid := TakeReply(s, id);
      assert mid.slots == s.slots;
      HandedConserves(s, t, k, Reply(s.workers[id].outbox[0]));
      ReplyMatches(s, id);
    } else {
      SamePlaces(s, t);
      assert SlotsMatch(t);
    }
  }

  lemma FinishKeeps(c: Config, s: State, id: nat, tag: nat)
    requires Inv(c, s) && id in s.workers
    ensures Inv(c, FinishStep(s, id, tag))
  {
    var t := FinishStep(s, id, tag);
    SamePlaces(s, t);
    forall i | 0 <= i < |t.slots| ensures t.slots[i].id in t.workers
        && Owes(t.workers[t.slots[i].id], t.slots[i].busy) {
      assert Owes(s.workers[s.slots[i].id], s.slots[i].busy);
    }
  }

  lemma QueueKeeps(c: Config, s: State, urgent: bool)
    requires Inv(c, s)
    ensures Inv(c, Enqueued(s, urgent))
  {
    var t, job := Enqueued(s, urgent), Job(s.nextTag, urgent);
    forall tag: nat ensures Places(t, tag) == Places(s, tag) + (if tag == s.nextTag then 1 else 0) {
      QueuedOneMore(s.waiting, job, tag);
    }
    QueueKeepsOrder(s, urgent);
  }

  lemma QueueKeepsOrder(s: State, urgent: bool)
    requires InOrder(s)
    ensures InOrder(Enqueued(s, urgent))
  {
    var job := Job(s.nextTag, urgent);
    ClassConcat(s.waiting, [job], urgent);
    ClassConcat(s.waiting, [job], !urgent);
    assert Class([job], urgent) == [s.nextTag] && Class([job], !urgent) == [];
    OrderedQueue(Started(s.starts, urgent), Class(s.waiting, urgent), s.nextTag);
    assert Class(s.waiting, !urgent) + [] == Class(s.waiting, !urgent);
  }

  lemma DrainKeeps(c: Config, s: State)
    requires Inv(c, s)
    ensures Inv(c, DrainIfBroken(s))
  {
    forall tag: nat ensures Places(DrainIfBroken(s), tag) == Places(s, tag) {
      QueuedConcat(s.inProcess, s.waiting, tag);
    }
  }

  lemma DirectKeeps(c: Config, s: State, urgent: bool)
    requires Inv(c, s)
    ensures Inv(c, s.(inProcess := s.inProcess + [Job(s.nextTag, urgent)], nextTag := s.nextTag + 1))
  {
    DirectConserves(s, urgent);
  }

  lemma DirectConserves(s: State, urgent: bool)
    requires Conserved(s)
    ensures Conserved(s.(inProcess := s.inProcess + [Job(s.nextTag, urgent)], nextTag := s.nextTag + 1))
  {
    var t := s.(inProcess := s.inProcess + [Job(s.nextTag, urgent)], nextTag := s.nextTag + 1);
    forall tag: nat ensures Places(t, tag) == Places(s, tag) + (if tag == s.nextTag then 1 else 0) {
      QueuedOneMore(s.inProcess, Job(s.nextTag, urgent), tag);
    }
  }

  lemma FallbackKeeps(c: Config, s: State, index: nat)
    requires Inv(c, s) && index < |s.inProcess|
    ensures Inv(c, s.(inProcess := Remove(s.inProcess, index),
        answers := s.answers + [Answer(s.inProcess[index].tag, InProcess)]))
  {
    var t := s.(inProcess := Remove(s.inProcess, index),
        answers := s.answers + [Answer(s.inProcess[index].tag, InProcess)]);
    forall tag: nat ensures Places(t, tag) == Places(s, tag) {
      QueuedRemove(s.inProcess, index, tag);
      OneMoreAnswer(s.answers, Answer(s.inProcess[index].tag, InProcess), tag);
    }
  }

  lemma StepKeeps(c: Config, s: State, e: Event)
    requires Inv(c, s) && Enabled(s, e)
    ensures Inv(c, Step(c, s, e))
  {
    match e
    case Submit(urgent) =>
      if s.broken {
        DirectKeeps(c, s, urgent);
      } else {
        QueueKeeps(c, s, urgent);
        PumpKeeps(c, Enqueued(s, urgent));
        DrainKeeps(c, Pump(c, Enqueued(s, urgent)));
      }
    case Finish(slot, tag) => FinishKeeps(c, s, slot, tag);
    case HandleReply(slot) =>
      ReplyKeeps(c, s, slot);
      PumpKeeps(c, ReplyHandled(s, slot));
    case WorkerError(slot) =>
      LostKeeps(c, s, slot, WorkerDied);
      PumpKeeps(c, Lost(s, slot, WorkerDied));
    case WorkerExit(slot) =>
      if JobOf(s, slot).Some? {
        LostKeeps(c, s, slot, WorkerDied);
        PumpKeeps(c, Lost(s, slot, WorkerDied));
      } else {
        DropKeeps(c, s, slot);
      }
    case Watchdog(slot) =>
      LostKeeps(c, s, slot, WatchdogFired);
      PumpKeeps(c, Lost(s, slot, WatchdogFired));
    case FallbackDone(index) => FallbackKeeps(c, s, index);
  }

  lemma {:induction false} RunKeeps(c: Config, s: State, events: seq<Event>)
    requires Inv(c, s) && LegalRun(c, s, events)
    ensures Inv(c, Run(c, s, events))
    decreases |events|
  {
    if events != [] {
      StepKeeps(c, s, events[0]);
      RunKeeps(c, Step(c, s, events[0]), events[1..]);
    }
  }

  lemma InitialHolds(c: Config)
    ensures Inv(c, Initial())
  {
  }

  /** Conservation, one reply per job and its own, queue order and the caps, after any legal run. */
  lemma EveryRun(c: Config, events: seq<Event>)
    requires LegalRun(c, Initial(), events)
    ensures var t := Run(c, Initial(), events);
            && Conserved(t) && RepliesMatch(t)
            && InOrder(t) && UrgentFirst(t)
            && |t.slots| <= c.size + URGENT_RESERVE && OrdinaryBusy(t.slots) <= c.size
  {
    InitialHolds(c);
    RunKeeps(c, Initial(), events);
  }

  // ---- exactly once ----------------------------------------------------------------------------

  lemma {:induction false} AnswersCount(answers: seq<Answer>, i: nat)
    requires i < |answers|
    ensures AnsweredTimes(answers, answers[i].tag) >= 1
    ensures forall j :: 0 <= j < |answers| && j != i && answers[j].tag == answers[i].tag ==>
              AnsweredTimes(answers, answers[i].tag) >= 2
    decreases |answers|
  {
    var last, front := |answers| - 1, answers[..|answers| - 1];
    if i < last {
      AnswersCount(front, i);
      forall j | 0 <= j < |answers| && j != i && answers[j].tag == answers[i].tag
          ensures AnsweredTimes(answers, answers[i].tag) >= 2 {
        if j < last { assert front[j] == answers[j]; }
      }
    } else {
      forall j | 0 <= j < last && answers[j].tag == answers[i].tag ensures AnsweredTimes(answers, answers[i].tag) >= 2 {
        AnswersCount(front, j);
      }
    }
  }

  lemma {:induction false} QueuedCounts(jobs: seq<Job>, i: nat)
    requires i < |jobs|
    ensures Queued(jobs, jobs[i].tag) >= 1
  {
    if i > 0 { QueuedCounts(jobs[1..], i - 1); }
  }

  /** No job is answered twice, and an answered job is neither waiting nor running anywhere. */
  lemma AnsweredAtMostOnce(c: Config, s: State, i: nat)
    requires Inv(c, s) && i < |s.answers|
    ensures s.answers[i].tag < s.nextTag
    ensures forall j :: 0 <= j < |s.answers| && s.answers[j].tag == s.answers[i].tag ==> j == i
    ensures forall job :: (job in s.waiting || job in s.inProcess) ==> job.tag != s.answers[i].tag
    ensures Running(s.slots, s.answers[i].tag) == 0
  {
    var tag := s.answers[i].tag;
    AnswersCount(s.answers, i);
    assert Places(s, tag) == if tag < s.nextTag then 1 else 0;
    forall k | 0 <= k < |s.waiting| ensures s.waiting[k].tag != tag { QueuedCounts(s.waiting, k); }
    forall k | 0 <= k < |s.inProcess| ensures s.inProcess[k].tag != tag { QueuedCounts(s.inProcess, k); }
  }

  // ---- who is answered, when, and how ----------------------------------------------------------

  /** The job this worker has, if any, is answered so; nobody else is answered. */
  ghost predicate AnswersItsJob(s: State, id: nat, how: How, t: State) {
    && (forall i :: 0 <= i < |s.slots| && s.slots[i].id == id && s.slots[i].busy.Some? ==>
          t.answers == s.answers + [Answer(s.slots[i].busy.value.tag, how)])
    && ((forall i :: 0 <= i < |s.slots| && s.slots[i].id == id ==> s.slots[i].busy.None?) ==> t.answers == s.answers)
  }

  lemma {:induction false} PumpAnswersNobody(c: Config, s: State)
    ensures Pump(c, s).answers == s.answers
    decreases |s.waiting|
  {
    PumpIsTurns(c, s);
    if Turn(c, s).1 { PumpAnswersNobody(c, Turn(c, s).0); }
  }

  lemma AnsweredIsItsJob(s: State, t: State, id: nat, how: How)
    requires SlotsMatch(s) && t.answers == Answered(s, JobOf(s, id), how).answers
    ensures AnswersItsJob(s, id, how, t)
  {
    forall i | 0 <= i < |s.slots| && s.slots[i].id == id ensures JobOf(s, id) == s.slots[i].busy {
      SlotAtFinds(s.slots, i);
    }
  }

  /** A reply, a death or a timeout answers the job of the worker it befell, and says which it was; an in-process
      command answers its own; no other event answers anybody. */
  lemma EveryEventAnswers(c: Config, s: State, e: Event)
    requires Inv(c, s) && Enabled(s, e)
    ensures var t := Step(c, s, e);
            match e
            case HandleReply(id) => AnswersItsJob(s, id, Reply(s.workers[id].outbox[0]), t)
            case WorkerError(id) => AnswersItsJob(s, id, WorkerDied, t)
            case WorkerExit(id) => AnswersItsJob(s, id, WorkerDied, t)
            case Watchdog(id) => AnswersItsJob(s, id, WatchdogFired, t)
            case FallbackDone(i) => t.answers == s.answers + [Answer(s.inProcess[i].tag, InProcess)]
            case Submit(_) => t.answers == s.answers
            case Finish(_, _) => t.answers == s.answers
  {
    match e
    case HandleReply(id) =>
      PumpAnswersNobody(c, ReplyHandled(s, id));
      AnsweredIsItsJob(s, Step(c, s, e), id, Reply(s.workers[id].outbox[0]));
    case WorkerError(id) => LossAnswers(c, s, id, WorkerDied);
    case WorkerExit(id) => ExitAnswers(c, s, id);
    case Watchdog(id) => LossAnswers(c, s, id, WatchdogFired);
    case Submit(urgent) => PumpAnswersNobody(c, Enqueued(s, urgent));
    case _ =>
  }

  lemma LossAnswers(c: Config, s: State, id: nat, how: How)
    requires SlotsMatch(s)
    ensures AnswersItsJob(s, id, how, Pump(c, Lost(s, id, how)))
  {
    PumpAnswersNobody(c, Lost(s, id, how));
    AnsweredIsItsJob(s, Pump(c, Lost(s, id, how)), id, how);
  }

  lemma ExitAnswers(c: Config, s: State, id: nat)
    requires SlotsMatch(s) && id in s.workers
    ensures AnswersItsJob(s, id, WorkerDied, Step(c, s, WorkerExit(id)))
  {
    if JobOf(s, id).Some? { LossAnswers(c, s, id, WorkerDied); } else {
      AnsweredIsItsJob(s, Dropped(s, id), id, WorkerDied);
    }
  }

  /** The first time a worker's child settles, its reply is on the way; later settlings of it are not heard. */
  lemma FinishPostsOneReply(s: State, id: nat, tag: nat)
    requires id in s.workers && tag in s.workers[id].jobs
    ensures var t := FinishStep(s, id, tag);
            && t.workers.Keys == s.workers.Keys && t.workers[id].jobs == s.workers[id].jobs[tag := true]
            && t.workers[id].outbox == s.workers[id].outbox + (if s.workers[id].jobs[tag] then [] else [tag])
            && FinishStep(t, id, tag) == t
  {
    if s.workers[id].jobs[tag] { assert s.workers[id].jobs == s.workers[id].jobs[tag := true]; }
  }

  /** In a broken pool a submitted job runs in-process and nothing else moves; the submit that finds the pool
      broken takes the whole queue in-process with it; otherwise the job is queued or started. */
  lemma SubmitLeavesNoneBehind(c: Config, s: State, urgent: bool)
    requires Inv(c, s)
    ensures var t := Step(c, s, Submit(urgent));
            && t.nextTag == s.nextTag + 1
            && (s.broken ==> t == s.(inProcess := s.inProcess + [Job(s.nextTag, urgent)], nextTag := t.nextTag))
            && (!s.broken && t.broken ==> t.waiting == [])
            && (!t.broken ==> t.inProcess == s.inProcess)
  {
    if !s.broken { PumpTakesNothingInProcess(c, Enqueued(s, urgent)); }
  }

  lemma {:induction false} PumpTakesNothingInProcess(c: Config, s: State)
    ensures Pump(c, s).inProcess == s.inProcess && Pump(c, s).nextTag == s.nextTag
    decreases |s.waiting|
  {
    PumpIsTurns(c, s);
    if Turn(c, s).1 { PumpTakesNothingInProcess(c, Turn(c, s).0); }
  }

  lemma {:induction false} PumpHearsNobody(c: Config, s: State)
    ensures forall id :: id in s.workers && id < s.nextSlot ==>
              id in Pump(c, s).workers && Pump(c, s).workers[id].outbox == s.workers[id].outbox
    decreases |s.waiting|
  {
    PumpIsTurns(c, s);
    if Turn(c, s).1 { PumpHearsNobody(c, Turn(c, s).0); }
  }

  /** The handler reads one reply, the oldest; any others wait their turn. */
  lemma HandlingTakesOneReply(c: Config, s: State, id: nat)
    requires Inv(c, s) && Enabled(s, HandleReply(id))
    ensures var t := Step(c, s, HandleReply(id));
            id in t.workers && t.workers[id].outbox == s.workers[id].outbox[1..]
  {
    PumpHearsNobody(c, ReplyHandled(s, id));
  }

  /** A run of pump marks the pool broken exactly when it ends with no worker although it tried to make one. */
  lemma {:induction false} PumpBreaksIff(c: Config, s: State)
    ensures var t := Pump(c, s);
            && |s.slots| <= |t.slots| && s.attempts <= t.attempts
            && (t.broken <==> s.broken || (t.slots == [] && t.attempts > s.attempts))
    decreases |s.waiting|
  {
    PumpIsTurns(c, s);
    if Turn(c, s).1 { PumpBreaksIff(c, Turn(c, s).0); }
  }

  /** So a pool that still has a worker never gives up on the rest, and one that is broken never recovers. */
  lemma BreaksOnlyWithoutWorkers(c: Config, s: State, e: Event)
    requires Inv(c, s) && Enabled(s, e)
    ensures var t := Step(c, s, e);
            (s.broken ==> t.broken) && (t.broken && !s.broken ==> t.slots == [] && t.attempts > s.attempts)
  {
    if BeforePump(s, e).Some? {
      BeforePumpQueue(s, e);
      NotBrokenYet(s, e);
      PumpBreaksIff(c, BeforePump(s, e).value);
    }
  }

  lemma NotBrokenYet(s: State, e: Event)
    requires Enabled(s, e) && BeforePump(s, e).Some?
    ensures BeforePump(s, e).value.broken == s.broken
  {
  }

  // ---- an urgent job does not wait behind ordinary ones ----------------------------------------

  lemma {:induction false} StartsGrow(c: Config, s: State)
    ensures s.starts <= Pump(c, s).starts
    decreases |s.waiting|
  {
    var t, index, idle := Pump(c, s), NextIndex(c, s), FirstIdle(s.slots);
    if index.Some? {
      if idle < |s.slots| {
        var d := Dispatch(s, index.value, idle);
        assert t == Pump(c, d);
        StartsGrow(c, d);
      } else if |s.slots| < Capacity(c, s.waiting[index.value]) && c.canSpawn(s.attempts) {
        var d := Dispatch(Spawned(s), index.value, |s.slots|);
        assert t == Pump(c, d);
        StartsGrow(c, d);
      }
    }
  }

  lemma {:induction false} AllOrdinary(slots: seq<Slot>)
    requires forall i :: 0 <= i < |slots| && slots[i].busy.Some? ==> !slots[i].busy.value.urgent
    ensures BusyCount(slots) == OrdinaryBusy(slots)
  {
    if slots != [] {
      forall i | 0 <= i < |slots[1..]| && slots[1..][i].busy.Some? ensures !slots[1..][i].busy.value.urgent {
        assert slots[1..][i] == slots[i + 1];
      }
      AllOrdinary(slots[1..]);
    }
  }

  lemma {:induction false} NoneIdle(slots: seq<Slot>)
    requires FirstIdle(slots) == |slots|
    ensures BusyCount(slots) == |slots|
  {
    if slots != [] { NoneIdle(slots[1..]); }
  }

  ghost predicate NoUrgentWork(s: State) {
    && (forall j :: j in s.waiting ==> !j.urgent)
    && (forall i :: 0 <= i < |s.slots| && s.slots[i].busy.Some? ==> !s.slots[i].busy.value.urgent)
  }

  /** However many ordinary jobs run or wait, an urgent job submitted when no other urgent one is about
      starts at once, if a worker is idle or can be made. */
  lemma UrgentStartsAtOnce(c: Config, s: State)
    requires Inv(c, s) && !s.broken && NoUrgentWork(s)
    requires FirstIdle(s.slots) < |s.slots| || c.canSpawn(s.attempts)
    ensures var t := Step(c, s, Submit(true));
            exists st :: st in t.starts && st.job == Job(s.nextTag, true) && st !in s.starts
  {
    var q := Enqueued(s, true);
    var job := Job(s.nextTag, true);
    var last := |s.waiting|;
    assert q.waiting[last] == job;
    forall i | 0 <= i < last ensures !q.waiting[i].urgent
        { assert q.waiting[i] == s.waiting[i] && s.waiting[i] in s.waiting; }
    assert FirstUrgent(q.waiting) == last;
    AllOrdinary(s.slots);
    assert NextIndex(c, q) == Some(last);
    var idle := FirstIdle(q.slots);
    if idle == |q.slots| { NoneIdle(q.slots); }
    var d := if idle < |q.slots| then Dispatch(q, last, idle) else Dispatch(Spawned(q), last, |q.slots|);
    var p := Pump(c, q);
    assert p == Pump(c, d);
    StartsGrow(c, d);
    var st := Start(job, q.waiting);
    assert st == d.starts[|s.starts|] && st in d.starts;
    assert d.starts <= p.starts && p.starts == Step(c, s, Submit(true)).starts;
    assert st !in s.starts by { NewJobNotStarted(s, st); }
  }

  lemma NewJobNotStarted(s: State, st: Start)
    requires InOrder(s) && st.job == Job(s.nextTag, true)
    ensures st !in s.starts
  {
    forall i | 0 <= i < |s.starts| ensures s.starts[i] != st {
      StartedHolds(s.starts, i);
      assert s.starts[i].job.urgent ==> s.starts[i].job.tag < s.nextTag;
    }
  }

  lemma {:induction false} StartedHolds(starts: seq<Start>, i: nat)
    requires i < |starts|
    ensures starts[i].job.tag in Started(starts, starts[i].job.urgent)
    decreases |starts|
  {
    if i < |starts| - 1 { StartedHolds(starts[..|starts| - 1], i); }
  }

  // ---- nobody is left waiting for nothing ------------------------------------------------------

  ghost predicate SomeoneBusy(slots: seq<Slot>) { exists i :: 0 <= i < |slots| && slots[i].busy.Some? }

  /** If anything waits, some worker is busy, so a reply, a death or at worst a watchdog will pump again. */
  ghost predicate Healthy(s: State) { s.waiting == [] || SomeoneBusy(s.slots) }

  /** The state each handler hands to pump, and whether it pumps at all. */
  function BeforePump(s: State, e: Event): Option<State>
    requires Enabled(s, e)
  {
    match e
    case Submit(urgent) => if s.broken then None else Some(Enqueued(s, urgent))
    case HandleReply(slot) => Some(ReplyHandled(s, slot))
    case WorkerError(slot) => Some(Lost(s, slot, WorkerDied))
    case WorkerExit(slot) => if JobOf(s, slot).Some? then Some(Lost(s, slot, WorkerDied)) else None
    case Watchdog(slot) => Some(Lost(s, slot, WatchdogFired))
    case Finish(_, _) => None
    case FallbackDone(_) => None
  }

  /** The one way to strand the queue: outside a submit, the pool has lost its last worker, jobs wait, and
      the next attempt to make a worker fails. */
  ghost predicate Strands(c: Config, s: State, e: Event)
    requires Enabled(s, e)
  {
    && !e.Submit? && BeforePump(s, e).Some?
    && BeforePump(s, e).value.slots == [] && s.waiting != [] && !c.canSpawn(s.attempts)
  }

  lemma {:induction false} BusyMeansSomeone(slots: seq<Slot>)
    ensures BusyCount(slots) > 0 <==> SomeoneBusy(slots)
  {
    if slots != [] {
      BusyMeansSomeone(slots[1..]);
      if SomeoneBusy(slots[1..]) {
        var i :| 0 <= i < |slots[1..]| && slots[1..][i].busy.Some?;
        assert slots[i + 1].busy.Some?;
      }
      if slots[0].busy.None? && SomeoneBusy(slots) {
        var i :| 0 <= i < |slots| && slots[i].busy.Some?;
        assert slots[1..][i - 1].busy.Some?;
      }
    }
  }

  /** Pump leaves the queue without a busy worker exactly when it finds no worker and cannot make one. */
  lemma PumpStrands(c: Config, s: State)
    requires GoodConfig(c)
    ensures !Healthy(Pump(c, s)) <==> s.slots == [] && s.waiting != [] && !c.canSpawn(s.attempts)
    ensures !Healthy(Pump(c, s)) ==> Pump(c, s).broken
  {
    var t := Pump(c, s);
    PumpStops(c, s);
    if s.slots == [] && s.waiting != [] && !c.canSpawn(s.attempts) {
      assert t == SpawnFailed(s);
    } else if t.waiting != [] {
      PumpKeepsSlots(c, s);
      BusyMeansSomeone(t.slots);
      if NextIndex(c, t).Some? {
        NoneIdle(t.slots);
        if s.slots == [] { PumpMakesOne(c, s); }
      }
    }
  }

  lemma {:induction false} PumpKeepsSlots(c: Config, s: State)
    ensures |s.slots| <= |Pump(c, s).slots|
    decreases |s.waiting|
  {
    var t, index, idle := Pump(c, s), NextIndex(c, s), FirstIdle(s.slots);
    if index.Some? {
      if idle < |s.slots| {
        var d := Dispatch(s, index.value, idle);
        assert t == Pump(c, d);
        PumpKeepsSlots(c, d);
      } else if |s.slots| < Capacity(c, s.waiting[index.value]) && c.canSpawn(s.attempts) {
        var d := Dispatch(Spawned(s), index.value, |s.slots|);
        assert t == Pump(c, d);
        PumpKeepsSlots(c, d);
      }
    }
  }

  lemma PumpMakesOne(c: Config, s: State)
    requires GoodConfig(c) && s.slots == [] && s.waiting != [] && c.canSpawn(s.attempts)
    ensures |Pump(c, s).slots| >= 1
  {
    assert NextIndex(c, s).Some?;
    var d := Dispatch(Spawned(s), NextIndex(c, s).value, 0);
    assert Pump(c, s) == Pump(c, d);
    PumpKeepsSlots(c, d);
  }

  /** A healthy pool stays healthy at every step, with exactly one exception. */
  lemma HealthIsLostOnlyByStranding(c: Config, s: State, e: Event)
    requires GoodConfig(c) && Enabled(s, e) && Healthy(s)
    ensures Healthy(Step(c, s, e)) <==> !Strands(c, s, e)
  {
    var before := BeforePump(s, e);
    if before.Some? {
      BeforePumpQueue(s, e);
      PumpStrands(c, before.value);
    } else if e.WorkerExit? {
      IdleExitKeepsHealth(c, s, e.slot);
    }
  }

  lemma BeforePumpQueue(s: State, e: Event)
    requires Enabled(s, e) && BeforePump(s, e).Some?
    ensures BeforePump(s, e).value.attempts == s.attempts
        && (!e.Submit? ==> BeforePump(s, e).value.waiting == s.waiting)
  {
    match e
    case HandleReply(slot) => ReplyQueue(s, slot);
    case WorkerError(slot) => LostQueue(s, slot, WorkerDied);
    case WorkerExit(slot) => LostQueue(s, slot, WorkerDied);
    case Watchdog(slot) => LostQueue(s, slot, WatchdogFired);
    case _ =>
  }

  lemma LostQueue(s: State, slot: nat, how: How)
    ensures Lost(s, slot, how).attempts == s.attempts && Lost(s, slot, how).waiting == s.waiting
  {
  }

  lemma ReplyQueue(s: State, slot: nat)
    requires Enabled(s, HandleReply(slot))
    ensures ReplyHandled(s, slot).attempts == s.attempts && ReplyHandled(s, slot).waiting == s.waiting
  {
  }

  lemma IdleExitKeepsHealth(c: Config, s: State, slot: nat)
    requires Enabled(s, WorkerExit(slot)) && Healthy(s) && BeforePump(s, WorkerExit(slot)).None?
    ensures Healthy(Step(c, s, WorkerExit(slot)))
  {
    var k := SlotAt(s.slots, slot);
    if k < |s.slots| && s.waiting != [] {
      var i :| 0 <= i < |s.slots| && s.slots[i].busy.Some?;
      assert Remove(s.slots, k)[if i < k then i else i - 1] == s.slots[i];
    }
  }

  ghost predicate NeverStrands(c: Config, s: State, events: seq<Event>)
    requires LegalRun(c, s, events)
    decreases |events|
  {
    events == [] || (!Strands(c, s, events[0]) && NeverStrands(c, Step(c, s, events[0]), events[1..]))
  }

  /** Over a run in which that never happens, a waiting job always has a worker's deadline ahead of it. */
  lemma {:induction false} NoJobIsStranded(c: Config, s: State, events: seq<Event>)
    requires GoodConfig(c) && Inv(c, s) && LegalRun(c, s, events) && Healthy(s) && NeverStrands(c, s, events)
    ensures var t := Run(c, s, events);
            t.waiting != [] ==>
              exists i :: 0 <= i < |t.slots| && t.slots[i].armed && Enabled(t, Watchdog(t.slots[i].id))
    decreases |events|
  {
    if events == [] {
      if s.waiting != [] {
        var i :| 0 <= i < |s.slots| && s.slots[i].busy.Some?;
        SlotAtFinds(s.slots, i);
        assert s.slots[i].armed && Enabled(s, Watchdog(s.slots[i].id));
      }
    } else {
      StepKeeps(c, s, events[0]);
      HealthIsLostOnlyByStranding(c, s, events[0]);
      NoJobIsStranded(c, Step(c, s, events[0]), events[1..]);
    }
  }

  lemma FirstJobRuns(c: Config) returns (s: State)
    requires c.size == 1 && c.canSpawn(0)
    ensures s == Step(c, Initial(), Submit(false))
    ensures s.slots == [Slot(0, Some(Job(0, false)), true)] && s.waiting == [] && !s.broken && s.inProcess == []
    ensures s.nextTag == 1 && s.attempts == 1 && s.nextSlot == 1 && 0 in s.workers
  {
    s := Step(c, Initial(), Submit(false));
    var q0 := Enqueued(Initial(), false);
    var d0 := Dispatch(Spawned(q0), 0, 0);
    assert Pump(c, q0) == Pump(c, d0) == d0;
  }

  lemma SecondJobQueues(c: Config, s: State) returns (t: State)
    requires c.size == 1 && s.slots == [Slot(0, Some(Job(0, false)), true)] && s.waiting == [] && !s.broken
        && s.nextTag == 1
    ensures t == Step(c, s, Submit(false))
    ensures t == s.(waiting := [Job(1, false)], nextTag := 2)
  {
    t := Step(c, s, Submit(false));
    var q := Enqueued(s, false);
    assert q.waiting == [Job(1, false)] && BusyCount(q.slots) == 1;
    assert Pump(c, q) == q;
  }

  lemma LastWorkerDies(c: Config, s: State) returns (t: State)
    requires s.slots == [Slot(0, Some(Job(0, false)), true)] && s.waiting == [Job(1, false)] && s.attempts == 1
        && !c.canSpawn(1)
    requires c.size == 1
    ensures Enabled(s, WorkerError(0)) ==> t == Step(c, s, WorkerError(0))
    ensures t.slots == [] && t.waiting == s.waiting && t.broken && t.inProcess == s.inProcess && t.nextTag == s.nextTag
  {
    var lost := Lost(s, 0, WorkerDied);
    assert lost.slots == [] && lost.waiting == [Job(1, false)] && lost.attempts == 1;
    assert Pump(c, lost) == SpawnFailed(lost);
    t := SpawnFailed(lost);
  }

  /** A job is left waiting in a broken pool without workers, while a later one runs in-process. */
  ghost predicate LeavesBehind(c: Config, events: seq<Event>, queued: Job, later: Job) {
    && LegalRun(c, Initial(), events)
    && var t := Run(c, Initial(), events);
       t.waiting == [queued] && t.slots == [] && t.broken && t.inProcess == [later] && queued.tag < later.tag
  }

  /** One worker, a second job queued behind the first, the worker dies and cannot be replaced. */
  lemma StrandingRun(c: Config, events: seq<Event>)
    requires c.size == 1 && c.canSpawn(0) && !c.canSpawn(1)
    requires |events| == 4 && events[0] == events[1] == events[3] == Submit(false) && events[2] == WorkerError(0)
    ensures LeavesBehind(c, events, Job(1, false), Job(2, false))
  {
    var s1 := FirstJobRuns(c);
    var s2 := SecondJobQueues(c, s1);
    assert Enabled(s2, WorkerError(0));
    var s3 := LastWorkerDies(c, s2);
    var t := ThirdJobPasses(c, s3);
    FourSteps(c, Initial(), s1, s2, s3, events);
  }

  lemma ThirdJobPasses(c: Config, s: State) returns (t: State)
    requires s.broken && s.inProcess == [] && s.nextTag == 2
    ensures t == Step(c, s, Submit(false)) && t == s.(inProcess := [Job(2, false)], nextTag := 3)
  {
    t := Step(c, s, Submit(false));
  }

  /** It can happen, and the queued job is still waiting after a later submit, which runs in-process around it. */
  lemma StrandingHappens()
    ensures exists c, events :: GoodConfig(c) && LeavesBehind(c, events, Job(1, false), Job(2, false))
  {
    var c, events := OneWorkerOnce();
    StrandingRun(c, events);
  }

  lemma OneWorkerOnce() returns (c: Config, events: seq<Event>)
    ensures GoodConfig(c) && c.size == 1 && c.canSpawn(0) && !c.canSpawn(1)
    ensures |events| == 4 && events[0] == events[1] == events[3] == Submit(false) && events[2] == WorkerError(0)
  {
    c := Config(1, (n: nat) => n == 0);
    events := [Submit(false), Submit(false), WorkerError(0), Submit(false)];
  }

  lemma FourSteps(c: Config, s: State, s1: State, s2: State, s3: State, events: seq<Event>)
    requires |events| == 4
    requires Enabled(s, events[0]) && s1 == Step(c, s, events[0]) && Enabled(s1, events[1])
        && s2 == Step(c, s1, events[1])
    requires Enabled(s2, events[2]) && s3 == Step(c, s2, events[2]) && Enabled(s3, events[3])
    ensures LegalRun(c, s, events) && Run(c, s, events) == Step(c, s3, events[3])
  {
    var three, two, one := events[1..], events[2..], events[3..];
    assert three[1..] == two && two[1..] == one && one[1..] == [];
    assert LegalRun(c, s3, one) && Run(c, s3, one) == Step(c, s3, events[3]);
    assert LegalRun(c, s2, two) && Run(c, s2, two) == Run(c, s3, one);
    assert LegalRun(c, s1, three) && Run(c, s1, three) == Run(c, s2, two);
  }

  // ---- a lost worker is never used again -------------------------------------------------------

  ghost predicate InPool(s: State, id: nat) { exists i :: 0 <= i < |s.slots| && s.slots[i].id == id }

  ghost predicate OnlyNew(s: State, t: State) {
    s.nextSlot <= t.nextSlot && forall id: nat :: InPool(t, id) ==> InPool(s, id) || s.nextSlot <= id
  }

  lemma SameIds(s: State, t: State)
    requires |t.slots| == |s.slots| && t.nextSlot == s.nextSlot
    requires forall i :: 0 <= i < |s.slots| ==> t.slots[i].id == s.slots[i].id
    ensures OnlyNew(s, t)
  {
  }

  lemma TurnAddsOnlyNew(c: Config, s: State)
    ensures OnlyNew(s, Turn(c, s).0) && (Turn(c, s).1 ==> |Turn(c, s).0.waiting| < |s.waiting|)
  {
    var t, index, idle := Turn(c, s), NextIndex(c, s), FirstIdle(s.slots);
    if index.Some? {
      if idle < |s.slots| {
        SameIds(s, t.0);
      } else if t.1 {
        var n := Spawned(s);
        assert OnlyNew(s, n);
        SameIds(n, t.0);
      }
    }
  }

  lemma OnlyNewThrough(s: State, t: State, u: State)
    requires OnlyNew(s, t) && OnlyNew(t, u)
    ensures OnlyNew(s, u)
  {
  }

  lemma {:induction false} PumpAddsOnlyNew(c: Config, s: State)
    ensures OnlyNew(s, Pump(c, s))
    decreases |s.waiting|
  {
    PumpIsTurns(c, s);
    TurnAddsOnlyNew(c, s);
    if Turn(c, s).1 {
      PumpAddsOnlyNew(c, Turn(c, s).0);
      OnlyNewThrough(s, Turn(c, s).0, Pump(c, s));
    }
  }

  lemma DroppedIsGone(s: State, id: nat, how: How)
    requires SlotsMatch(s)
    ensures OnlyNew(s, Lost(s, id, how)) && !InPool(Lost(s, id, how), id)
  {
    var k, r, t := SlotAt(s.slots, id), Released(s, id), Lost(s, id, how);
    if k < |s.slots| {
      SlotAtFinds(r.slots, k);
      assert t.slots == Remove(r.slots, k);
      forall i | 0 <= i < |t.slots| ensures t.slots[i].id != id && InPool(s, t.slots[i].id) {
        var j := if i < k then i else i + 1;
        assert t.slots[i].id == s.slots[j].id;
        assert s.slots[k].id == id && (if j < k then s.slots[j].id != s.slots[k].id
            else s.slots[k].id != s.slots[j].id);
      }
    }
  }

  /** After its watchdog fired, or its worker died, a slot is out of the pool as soon as the handler ends. */
  lemma LostSlotLeaves(c: Config, s: State, id: nat, how: How)
    requires SlotsMatch(s) && id < s.nextSlot
    ensures !InPool(Pump(c, Lost(s, id, how)), id)
  {
    DroppedIsGone(s, id, how);
    PumpAddsOnlyNew(c, Lost(s, id, how));
  }

  /** A worker that failed, exited or timed out is out of the pool when its handler ends, busy or idle. */
  lemma LostWorkerLeaves(c: Config, s: State, e: Event)
    requires Inv(c, s) && Enabled(s, e) && (e.WorkerError? || e.WorkerExit? || e.Watchdog?)
    ensures !InPool(Step(c, s, e), e.slot)
  {
    match e
    case WorkerError(id) => LostSlotLeaves(c, s, id, WorkerDied);
    case Watchdog(id) => LostSlotLeaves(c, s, id, WatchdogFired);
    case WorkerExit(id) => if JobOf(s, id).Some? { LostSlotLeaves(c, s, id, WorkerDied); } else { ExitedIsGone(s, id); }
    case _ =>
  }

  lemma ExitedIsGone(s: State, id: nat)
    requires SlotsMatch(s)
    ensures !InPool(Dropped(s, id), id)
  {
    var k, t := SlotAt(s.slots, id), Dropped(s, id);
    if k < |s.slots| {
      forall i | 0 <= i < |t.slots| ensures t.slots[i].id != id {
        assert t.slots[i] == s.slots[if i < k then i else i + 1];
      }
    }
  }

  lemma DropAddsNone(s: State, id: nat)
    ensures OnlyNew(s, Dropped(s, id))
  {
    var k, t := SlotAt(s.slots, id), Dropped(s, id);
    if k < |s.slots| {
      forall i | 0 <= i < |t.slots| ensures InPool(s, t.slots[i].id) {
        assert t.slots[i] == s.slots[if i < k then i else i + 1];
      }
    }
  }

  lemma StepAddsOnlyNew(c: Config, s: State, e: Event)
    requires SlotsMatch(s) && Enabled(s, e)
    ensures OnlyNew(s, Step(c, s, e))
  {
    match e
    case Submit(urgent) =>
      if !s.broken {
        PumpAddsOnlyNew(c, Enqueued(s, urgent));
        SameIds(s, Enqueued(s, urgent));
      }
    case Finish(slot, tag) => SameIds(s, FinishStep(s, slot, tag));
    case HandleReply(slot) =>
      SameIds(s, ReplyHandled(s, slot));
      PumpAddsOnlyNew(c, ReplyHandled(s, slot));
    case WorkerError(slot) =>
      DroppedIsGone(s, slot, WorkerDied);
      PumpAddsOnlyNew(c, Lost(s, slot, WorkerDied));
    case WorkerExit(slot) =>
      if JobOf(s, slot).Some? {
        DroppedIsGone(s, slot, WorkerDied);
        PumpAddsOnlyNew(c, Lost(s, slot, WorkerDied));
      } else {
        DropAddsNone(s, slot);
      }
    case Watchdog(slot) =>
      DroppedIsGone(s, slot, WatchdogFired);
      PumpAddsOnlyNew(c, Lost(s, slot, WatchdogFired));
    case FallbackDone(_) =>
  }

  /** A slot that has left never comes back, so nothing is ever posted to its worker again. */
  lemma {:induction false} GoneStaysGone(c: Config, s: State, id: nat, events: seq<Event>)
    requires Inv(c, s) && LegalRun(c, s, events) && id < s.nextSlot && !InPool(s, id)
    ensures !InPool(Run(c, s, events), id)
    decreases |events|
  {
    if events != [] {
      StepKeeps(c, s, events[0]);
      StepAddsOnlyNew(c, s, events[0]);
      GoneStaysGone(c, Step(c, s, events[0]), id, events[1..]);
    }
  }
}
