/** The pool as the server runs it (server/src/childRunner.ts): slots are objects the handlers keep hold of,
    in the pool or out of it. Each method is proved to perform its step of PoolSpec. */
module ChildRunner {
  import opened Collections
  import S = PoolSpec
  import T = PoolTheorems

  class Slot {
    const id: nat
    var busy: Option<S.Job>
    var watchdog: bool

    constructor (id: nat)
      ensures this.id == id && busy == None && !watchdog
    {
      this.id, busy, watchdog := id, None, false;
    }

    ghost function Value(): S.Slot reads this { S.Slot(id, busy, watchdog) }

    method Release() returns (job: Option<S.Job>)
      modifies this
      ensures job == old(busy) && busy == None && !watchdog
    {
      job := busy;
      busy := None;
      watchdog := false;
    }
  }

  class ChildPool {
    const config: S.Config
    var slots: seq<Slot>
    var waiting: seq<S.Job>
    var nextJobId: nat
    var poolBroken: bool

    /** Every slot ever made; one out of the pool holds no job. */
    ghost var made: set<Slot>

    // Numbers standing for the identity of jobs and workers, and for the system's next answer to `new Worker`.
    var nextTag: nat
    var nextSlot: nat
    var attempts: nat

    // The world outside, and the record.
    ghost var workers: map<nat, S.Worker>
    ghost var inProcess: seq<S.Job>
    ghost var answers: seq<S.Answer>
    ghost var starts: seq<S.Start>

    ghost function Values(): seq<S.Slot>
      reads this, made
    {
      seq(|slots|, i requires 0 <= i < |slots| reads this, made => if slots[i] in made then slots[i].Value()
          else S.Slot(0, None, false))
    }

    ghost function Now(): S.State
      reads this, made
    {
      S.State(Values(), waiting, poolBroken, nextJobId, nextTag, nextSlot, attempts, workers, inProcess, answers,
          starts)
    }

    /** The objects behind the state: distinct, numbered, and holding no job once out of the pool. */
    ghost predicate Shape()
      reads this, made
    {
      && (forall s :: s in slots ==> s in made)
      && (forall s :: s in made ==> s.id < nextSlot)
      && (forall s, t :: s in made && t in made && s.id == t.id ==> s == t)
      && (forall i, j :: 0 <= i < j < |slots| ==> slots[i] != slots[j])
      && (forall s :: s in made && s !in slots ==> s.busy == None)
    }

    ghost predicate Valid()
      reads this, made
    {
      Shape() && S.GoodConfig(config) && T.Inv(config, Now())
    }

    constructor (config: S.Config)
      requires S.GoodConfig(config)
      ensures Valid() && fresh(made) && this.config == config && Now() == S.Initial()
    {
      this.config := config;
      slots, waiting, nextJobId, poolBroken, made := [], [], 1, false, {};
      nextTag, nextSlot, attempts, workers, inProcess, answers, starts := 0, 0, 0, map[], [], [], [];
      new;
      T.InitialHolds(config);
    }

    /** The position of a slot object is the position of its number. */
    lemma Position(s: Slot)
      requires Shape() && s in made
      ensures S.SlotAt(Values(), s.id) < |slots| <==> s in slots
      ensures s in slots ==> slots[S.SlotAt(Values(), s.id)] == s
    {
      var k := S.SlotAt(Values(), s.id);
      if s in slots {
        var i :| 0 <= i < |slots| && slots[i] == s;
        assert Values()[i].id == s.id;
      }
      if k < |slots| { assert Values()[k].id == slots[k].id; }
    }

    method NextJobIndex() returns (index: Option<nat>)
      requires Shape()
      ensures index == S.NextIndex(config, Now())
    {
      if waiting == [] { return None; }
      var chosen := S.Choice(waiting);
      var busy := 0;
      var rest := slots;
      ghost var left := Values();
      while rest != []
        invariant |left| == |rest| && forall i :: 0 <= i < |rest| ==> rest[i] in made && left[i] == rest[i].Value()
        invariant busy + S.BusyCount(left) == S.BusyCount(Values())
        decreases |rest|
      {
        if rest[0].busy.Some? { busy := busy + 1; }
        rest, left := rest[1..], left[1..];
      }
      index := if busy < S.Capacity(config, waiting[chosen]) then Some(chosen) else None;
    }

    method FindIdle() returns (idle: nat)
      requires Shape()
      ensures idle == S.FirstIdle(Values())
    {
      idle := 0;
      while idle < |slots| && slots[idle].busy.Some?
        invariant idle <= |slots| && idle <= S.FirstIdle(Values())
      {
        assert Values()[idle].busy.Some?;
        idle := idle + 1;
      }
      if idle < |slots| { assert Values()[idle].busy.None?; }
    }

    method SpawnSlot() returns (ok: bool)
      requires Shape()
      modifies this
      ensures Shape() && fresh(made - old(made)) && old(made) <= made
      ensures ok == config.canSpawn(old(attempts))
      ensures Now() == if ok then S.Spawned(old(Now())) else S.SpawnFailed(old(Now()))
    {
      ok := config.canSpawn(attempts);
      attempts := attempts + 1;
      if !ok {
        if |slots| == 0 { poolBroken := true; }
        assert Values() == old(Values());
        return;
      }
      AddSlot();
    }

    method AddSlot()
      requires Shape()
      modifies this`slots, this`made, this`workers, this`nextSlot
      ensures Shape() && fresh(made - old(made)) && old(made) <= made
      ensures Now() == S.Spawned(old(Now())).(attempts := old(attempts))
    {
      var slot := new Slot(nextSlot);
      made := made + {slot};
      workers := workers[nextSlot := S.Worker(map[], [])];
      nextSlot := nextSlot + 1;
      slots := slots + [slot];
      assert Values() == old(Values()) + [S.Slot(old(nextSlot), None, false)];
    }

    method Dispatch(index: nat, k: nat)
      requires Shape() && index < |waiting| && k < |slots|
      modifies this, slots[k]
      ensures Shape() && made == old(made) && slots == old(slots)
      ensures Now() == S.Dispatch(old(Now()), index, k)
    {
      var slot, job := slots[k], waiting[index];
      waiting := waiting[..index] + waiting[index + 1..];
      slot.busy := Some(job);
      nextJobId := nextJobId + 1;
      workers := S.Post(workers, slot.id, job.tag);
      slot.watchdog := true;
      starts := starts + [S.Start(job, old(waiting))];
      assert Values() == old(Values())[k := slot.Value()] by {
        forall i | 0 <= i < |slots| ensures Values()[i] == (if i == k then slot.Value() else old(Values())[i]) {
          assert i < k ==> slots[i] != slots[k];
          assert i > k ==> slots[k] != slots[i];
        }
      }
    }

    method Pump()
      requires Shape()
      modifies this, made
      ensures Shape() && fresh(made - old(made)) && old(made) <= made
      ensures Now() == S.Pump(config, old(Now()))
    {
      ghost var goal := S.Pump(config, Now());
      while true
        invariant Shape() && fresh(made - old(made)) && old(made) <= made
        invariant S.Pump(config, Now()) == goal
        decreases |waiting|
      {
        T.PumpIsTurns(config, Now());
        var more := StartOne();
        if !more { return; }
      }
    }

    /** One turn of pump's loop: start the job chosen, or stop. */
    method StartOne() returns (more: bool)
      requires Shape()
      modifies this, made
      ensures Shape() && fresh(made - old(made)) && old(made) <= made
      ensures (Now(), more) == S.Turn(config, old(Now()))
      ensures more ==> |waiting| < |old(waiting)|
    {
      var index := NextJobIndex();
      if index.None? { return false; }
      var k := FindIdle();
      if k < |slots| {
        Dispatch(index.value, k);
        return true;
      }
      if |slots| >= S.Capacity(config, waiting[index.value]) { return false; }
      var ok := SpawnSlot();
      if !ok { return false; }
      assert k < |Now().slots| == |slots|;
      Dispatch(index.value, k);
      more := true;
    }

    method Answer(job: Option<S.Job>, ghost how: S.How)
      modifies this`answers
      ensures Now() == S.Answered(old(Now()), job, how)
    {
      if job.Some? { answers := answers + [S.Answer(job.value.tag, how)]; }
    }

    /** `slot.release()`, whether or not the slot is still in the pool. */
    method Release(slot: Slot) returns (job: Option<S.Job>)
      requires Shape() && slot in made
      modifies slot
      ensures Shape() && slot.busy == None
      ensures job == S.JobOf(old(Now()), slot.id) && Now() == S.Released(old(Now()), slot.id)
    {
      Position(slot);
      ghost var k := S.SlotAt(Values(), slot.id);
      job := slot.Release();
      assert Values() == if k < |slots| then old(Values())[k := slot.Value()] else old(Values()) by {
        forall i | 0 <= i < |slots| && i != k ensures Values()[i] == old(Values())[i] {
          if k < |slots| {
            assert i < k ==> slots[i] != slots[k];
            assert i > k ==> slots[k] != slots[i];
          }
        }
      }
    }

    /** `slot.drop()`: out of the list, if it is in it. */
    method Drop(slot: Slot)
      requires Shape() && slot in made && slot.busy == None
      modifies this`slots
      ensures Shape() && Now() == S.Dropped(old(Now()), slot.id)
    {
      Position(slot);
      var i := 0;
      while i < |slots| && slots[i] != slot
        invariant i <= |slots| && forall j :: 0 <= j < i ==> slots[j] != slot
      {
        i := i + 1;
      }
      if i < |slots| {
        assert i == S.SlotAt(Values(), slot.id);
        RemainingShape(i);
        slots := slots[..i] + slots[i + 1..];
        assert Values() == S.Remove(old(Values()), i);
      }
    }

    lemma RemainingShape(i: nat)
      requires Shape() && i < |slots|
      ensures var after := slots[..i] + slots[i + 1..];
              && (forall a, b :: 0 <= a < b < |after| ==> after[a] != after[b])
              && (forall s :: s in after <==> s in slots && s != slots[i])
    {
      var after := slots[..i] + slots[i + 1..];
      forall a | 0 <= a < |after| ensures after[a] == slots[if a < i then a else a + 1] && after[a] != slots[i] {
        if a < i { assert slots[a] != slots[i]; } else { assert slots[i] != slots[a + 1]; }
      }
      forall a, b | 0 <= a < b < |after| ensures after[a] != after[b] {
        assert slots[if a < i then a else a + 1] != slots[if b < i then b else b + 1];
      }
      forall s | s in slots && s != slots[i] ensures s in after {
        var k :| 0 <= k < |slots| && slots[k] == s;
        assert after[if k < i then k else k - 1] == s;
      }
    }

    // ---- the handlers --------------------------------------------------------------------------

    /** worker.on("message"): no id is compared. */
    method OnReply(slot: Slot)
      requires Valid() && slot in made && S.Enabled(Now(), S.HandleReply(slot.id))
      modifies this, made
      ensures Valid() && fresh(made - old(made)) && Now() == S.Step(config, old(Now()), S.HandleReply(slot.id))
    {
      T.StepKeeps(config, Now(), S.HandleReply(slot.id));
      ReadReply(slot);
    }

    method ReadReply(slot: Slot)
      requires Shape() && slot in made && slot.id in workers && workers[slot.id].outbox != []
      modifies this, made
      ensures Shape() && fresh(made - old(made))
      ensures Now() == S.Pump(config, S.ReplyHandled(old(Now()), slot.id))
    {
      ghost var reply := workers[slot.id].outbox[0];
      Read(slot.id);
      var job := Release(slot);
      Answer(job, S.Reply(reply));
      Pump();
    }

    ghost method Read(id: nat)
      requires id in workers && workers[id].outbox != []
      modifies this`workers
      ensures Now() == S.TakeReply(old(Now()), id)
    {
      workers := workers[id := workers[id].(outbox := workers[id].outbox[1..])];
    }

    method Die(slot: Slot, ghost how: S.How)
      requires Shape() && slot in made
      modifies this, made
      ensures Shape() && fresh(made - old(made))
      ensures Now() == S.Pump(config, S.Lost(old(Now()), slot.id, how))
    {
      var job := Release(slot);
      Drop(slot);
      Answer(job, how);
      Pump();
    }

    method OnError(slot: Slot)
      requires Valid() && slot in made && S.Enabled(Now(), S.WorkerError(slot.id))
      modifies this, made
      ensures Valid() && fresh(made - old(made)) && Now() == S.Step(config, old(Now()), S.WorkerError(slot.id))
    {
      T.StepKeeps(config, Now(), S.WorkerError(slot.id));
      Die(slot, S.WorkerDied);
    }

    method OnExit(slot: Slot)
      requires Valid() && slot in made && S.Enabled(Now(), S.WorkerExit(slot.id))
      modifies this, made
      ensures Valid() && fresh(made - old(made)) && Now() == S.Step(config, old(Now()), S.WorkerExit(slot.id))
    {
      T.StepKeeps(config, Now(), S.WorkerExit(slot.id));
      Position(slot);
      if slot.busy.Some? { Die(slot, S.WorkerDied); } else { Drop(slot); }
    }

    method OnWatchdog(slot: Slot)
      requires Valid() && slot in made && S.Enabled(Now(), S.Watchdog(slot.id))
      modifies this, made
      ensures Valid() && fresh(made - old(made)) && Now() == S.Step(config, old(Now()), S.Watchdog(slot.id))
    {
      T.StepKeeps(config, Now(), S.Watchdog(slot.id));
      Die(slot, S.WatchdogFired);
    }

    method RunChild(urgent: bool)
      requires Valid()
      modifies this, made
      ensures Valid() && fresh(made - old(made)) && Now() == S.Step(config, old(Now()), S.Submit(urgent))
    {
      T.StepKeeps(config, Now(), S.Submit(urgent));
      Accept(urgent);
    }

    method Accept(urgent: bool)
      requires Shape()
      modifies this, made
      ensures Shape() && fresh(made - old(made)) && Now() == S.SubmitStep(config, old(Now()), urgent)
    {
      if poolBroken {
        RunInProcess(urgent);
        return;
      }
      Enqueue(urgent);
      Pump();
      Drain();
    }

    method RunInProcess(urgent: bool)
      modifies this
      ensures made == old(made) && slots == old(slots)
      ensures Now() == old(Now()).(inProcess := old(inProcess) + [S.Job(old(nextTag), urgent)],
          nextTag := old(nextTag) + 1)
    {
      inProcess := inProcess + [S.Job(nextTag, urgent)];
      nextTag := nextTag + 1;
      assert Values() == old(Values());
    }

    method Enqueue(urgent: bool)
      modifies this`waiting, this`nextTag
      ensures Now() == S.Enqueued(old(Now()), urgent)
    {
      waiting := waiting + [S.Job(nextTag, urgent)];
      nextTag := nextTag + 1;
    }

    /** The very first worker failed to start: run in-process whatever nothing will ever take. */
    method Drain()
      modifies this`waiting, this`inProcess
      ensures Now() == S.DrainIfBroken(old(Now()))
    {
      if poolBroken && |waiting| > 0 {
        inProcess := inProcess + waiting;
        waiting := [];
      }
    }
  }
}
