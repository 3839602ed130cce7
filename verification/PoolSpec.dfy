/** The child-command worker pool (server/src/childRunner.ts) as a function of its state. The workers' own
    side, the replies in flight and the operating system's failures are events in any order. */
module PoolSpec {
  import opened Collections

  const URGENT_RESERVE := 1

  /** Jobs are numbered in the order they were submitted. */
  datatype Job = Job(tag: nat, urgent: bool)

  /** A pool entry: the job in flight and whether the main thread's own deadline is running for it. */
  datatype Slot = Slot(id: nat, busy: Option<Job>, armed: bool)

  /** A worker thread's side: for each job it was posted, whether it has settled; and replies not yet read. */
  datatype Worker = Worker(jobs: map<nat, bool>, outbox: seq<nat>)

  /** How a caller was answered: by the reply to some posted job, or because its worker was lost, or in-process. */
  datatype How = Reply(postedFor: nat) | WorkerDied | WatchdogFired | InProcess
  datatype Answer = Answer(tag: nat, how: How)

  /** A job leaving the queue, and the queue it was chosen from. */
  datatype Start = Start(job: Job, queue: seq<Job>)

  /** `canSpawn(n)`: whether the n-th attempt to create a worker succeeds. */
  datatype Config = Config(size: nat, canSpawn: nat -> bool)

  predicate GoodConfig(c: Config) { 1 <= c.size <= 8 }

  datatype State = State(
    slots: seq<Slot>,
    waiting: seq<Job>,
    broken: bool,
    nextJobId: nat,
    // the world outside, and the record
    nextTag: nat,
    nextSlot: nat,
    attempts: nat,
    workers: map<nat, Worker>,
    inProcess: seq<Job>,
    answers: seq<Answer>,
    starts: seq<Start>
  )

  function Initial(): State { State([], [], false, 1, 0, 0, 0, map[], [], [], []) }

  // ---- choosing --------------------------------------------------------------------------------

  function BusyCount(slots: seq<Slot>): nat {
    if slots == [] then 0 else (if slots[0].busy.Some? then 1 else 0) + BusyCount(slots[1..])
  }

  function FirstUrgent(waiting: seq<Job>): (i: nat)
    ensures i <= |waiting| && (i < |waiting| ==> waiting[i].urgent)
    ensures forall j :: 0 <= j < i ==> !waiting[j].urgent
  {
    if waiting == [] || waiting[0].urgent then 0 else FirstUrgent(waiting[1..]) + 1
  }

  function FirstIdle(slots: seq<Slot>): (i: nat)
    ensures i <= |slots| && (i < |slots| ==> slots[i].busy.None?)
    ensures forall j :: 0 <= j < i ==> slots[j].busy.Some?
  {
    if slots == [] || slots[0].busy.None? then 0 else FirstIdle(slots[1..]) + 1
  }

  function Capacity(c: Config, job: Job): nat { c.size + (if job.urgent then URGENT_RESERVE else 0) }

  /** The oldest urgent job, else the oldest of all; the queue must not be empty. */
  function Choice(waiting: seq<Job>): (i: nat)
    requires waiting != []
    ensures i < |waiting|
  {
    if FirstUrgent(waiting) < |waiting| then FirstUrgent(waiting) else 0
  }

  function NextIndex(c: Config, s: State): (i: Option<nat>)
    ensures i.Some? ==> s.waiting != [] && i.value == Choice(s.waiting)
  {
    if s.waiting == [] then None
    else if BusyCount(s.slots) < Capacity(c, s.waiting[Choice(s.waiting)]) then Some(Choice(s.waiting))
    else None
  }

  function Remove<T>(xs: seq<T>, i: nat): (r: seq<T>)
    requires i < |xs|
    ensures |r| == |xs| - 1
  {
    xs[..i] + xs[i + 1..]
  }

  // ---- pump ------------------------------------------------------------------------------------

  function Spawned(s: State): State {
    s.(slots := s.slots + [Slot(s.nextSlot, None, false)], nextSlot := s.nextSlot + 1, attempts := s.attempts + 1,
       workers := s.workers[s.nextSlot := Worker(map[], [])])
  }

  function SpawnFailed(s: State): State {
    s.(broken := s.broken || s.slots == [], attempts := s.attempts + 1)
  }

  function Post(workers: map<nat, Worker>, id: nat, tag: nat): map<nat, Worker> {
    if id in workers then workers[id := workers[id].(jobs := workers[id].jobs[tag := false])] else workers
  }

  function Dispatch(s: State, index: nat, k: nat): State
    requires index < |s.waiting| && k < |s.slots|
  {
    var job := s.waiting[index];
    s.(waiting := Remove(s.waiting, index),
       slots := s.slots[k := s.slots[k].(busy := Some(job), armed := true)],
       nextJobId := s.nextJobId + 1,
       workers := Post(s.workers, s.slots[k].id, job.tag),
       starts := s.starts + [Start(job, s.waiting)])
  }

  function Pump(c: Config, s: State): State
    decreases |s.waiting|
  {
    var index := NextIndex(c, s);
    if index.None? then s
    else
      var idle := FirstIdle(s.slots);
      if idle < |s.slots| then Pump(c, Dispatch(s, index.value, idle))
      else if |s.slots| >= Capacity(c, s.waiting[index.value]) then s
      else if c.canSpawn(s.attempts) then Pump(c, Dispatch(Spawned(s), index.value, |s.slots|))
      else SpawnFailed(s)
  }

  /** One time round its loop, and whether a job was started. */
  function Turn(c: Config, s: State): (State, bool) {
    var index := NextIndex(c, s);
    if index.None? then (s, false)
    else
      var idle := FirstIdle(s.slots);
      if idle < |s.slots| then (Dispatch(s, index.value, idle), true)
      else if |s.slots| >= Capacity(c, s.waiting[index.value]) then (s, false)
      else if c.canSpawn(s.attempts) then (Dispatch(Spawned(s), index.value, |s.slots|), true)
      else (SpawnFailed(s), false)
  }

  // ---- events ----------------------------------------------------------------------------------

  datatype Event =
    | Submit(urgent: bool)
    | Finish(slot: nat, tag: nat)      // the worker's child closed, failed or outlived its grace period
    | HandleReply(slot: nat)           // the main thread reads a worker's next reply
    | WorkerError(slot: nat)
    | WorkerExit(slot: nat)
    | Watchdog(slot: nat)
    | FallbackDone(index: nat)         // an in-process command finished

  function SlotAt(slots: seq<Slot>, id: nat): (i: nat)
    ensures i <= |slots| && (i < |slots| ==> slots[i].id == id)
    ensures forall j :: 0 <= j < i ==> slots[j].id != id
  {
    if slots == [] || slots[0].id == id then 0 else SlotAt(slots[1..], id) + 1
  }

  predicate Enabled(s: State, e: Event) {
    match e
    case Submit(_) => true
    case Finish(slot, tag) => slot in s.workers
    case HandleReply(slot) => slot in s.workers && s.workers[slot].outbox != []
    case WorkerError(slot) => slot in s.workers
    case WorkerExit(slot) => slot in s.workers
    case Watchdog(slot) => SlotAt(s.slots, slot) < |s.slots| && s.slots[SlotAt(s.slots, slot)].armed
    case FallbackDone(index) => index < |s.inProcess|
  }

  function Answered(s: State, job: Option<Job>, how: How): State {
    if job.Some? then s.(answers := s.answers + [Answer(job.value.tag, how)]) else s
  }

  /** `release()`: the slot's job and deadline are cleared; a slot already out of the pool holds neither. */
  function Released(s: State, id: nat): State {
    var k := SlotAt(s.slots, id);
    if k < |s.slots| then s.(slots := s.slots[k := s.slots[k].(busy := None, armed := false)]) else s
  }

  function JobOf(s: State, id: nat): Option<Job> {
    var k := SlotAt(s.slots, id);
    if k < |s.slots| then s.slots[k].busy else None
  }

  function Dropped(s: State, id: nat): State {
    var k := SlotAt(s.slots, id);
    if k < |s.slots| then s.(slots := Remove(s.slots, k)) else s
  }

  function TakeReply(s: State, id: nat): State
    requires id in s.workers && s.workers[id].outbox != []
  {
    s.(workers := s.workers[id := s.workers[id].(outbox := s.workers[id].outbox[1..])])
  }

  /** The handlers up to their call of pump. */
  function ReplyHandled(s: State, id: nat): State
    requires id in s.workers && s.workers[id].outbox != []
  {
    Answered(Released(TakeReply(s, id), id), JobOf(s, id), Reply(s.workers[id].outbox[0]))
  }

  function Lost(s: State, id: nat, how: How): State {
    Answered(Dropped(Released(s, id), id), JobOf(s, id), how)
  }

  function Enqueued(s: State, urgent: bool): State {
    s.(waiting := s.waiting + [Job(s.nextTag, urgent)], nextTag := s.nextTag + 1)
  }

  function DrainIfBroken(s: State): State {
    if s.broken && s.waiting != [] then s.(waiting := [], inProcess := s.inProcess + s.waiting) else s
  }

  function SubmitStep(c: Config, s: State, urgent: bool): State {
    if s.broken then s.(inProcess := s.inProcess + [Job(s.nextTag, urgent)], nextTag := s.nextTag + 1)
    else DrainIfBroken(Pump(c, Enqueued(s, urgent)))
  }

  /** `finish`: the first trigger posts the reply, every later one returns at once. */
  function FinishStep(s: State, id: nat, tag: nat): State
    requires id in s.workers
  {
    var w := s.workers[id];
    if tag in w.jobs && !w.jobs[tag] then
      s.(workers := s.workers[id := Worker(w.jobs[tag := true], w.outbox + [tag])])
    else s
  }

  function Step(c: Config, s: State, e: Event): State
    requires Enabled(s, e)
  {
    match e
    case Submit(urgent) => SubmitStep(c, s, urgent)
    case Finish(slot, tag) => FinishStep(s, slot, tag)
    case HandleReply(slot) => Pump(c, ReplyHandled(s, slot))
    case WorkerError(slot) => Pump(c, Lost(s, slot, WorkerDied))
    case WorkerExit(slot) => if JobOf(s, slot).Some? then Pump(c, Lost(s, slot, WorkerDied)) else Dropped(s, slot)
    case Watchdog(slot) => Pump(c, Lost(s, slot, WatchdogFired))
    case FallbackDone(index) =>
      s.(inProcess := Remove(s.inProcess, index), answers := s.answers + [Answer(s.inProcess[index].tag, InProcess)])
  }

  ghost predicate LegalRun(c: Config, s: State, events: seq<Event>)
    decreases |events|
  {
    events == [] || (Enabled(s, events[0]) && LegalRun(c, Step(c, s, events[0]), events[1..]))
  }

  ghost function Run(c: Config, s: State, events: seq<Event>): State
    requires LegalRun(c, s, events)
    decreases |events|
  {
    if events == [] then s else Run(c, Step(c, s, events[0]), events[1..])
  }
}
