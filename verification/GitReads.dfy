/** The generation-stamped single-flight caches over git reads (server/src/gitService.ts).
    Every cache of the server is bust at once, so one pair of maps keyed by (cache, key) stands for all of
    them. A load is a promise, numbered in the order it was begun; its reads are the loads it
    read from while running. Loads finish, publish and settle at any later steps, in any order. */
module GitReads {
  import opened Collections

  /** A cache and a key in it. resolveRepoRoot files its answers under the workspace but shares flights under
      a key that also names the caller's urgency, so the two keys of a read may differ. */
  datatype Key = Key(cache: nat, name: string)

  type Value = string

  datatype Entry = Entry(at: int, value: Value, source: nat)
  datatype Flight = Flight(gen: nat, promise: nat)

  /** `Resolved(None)` is an answer not worth keeping: a repo root that could not be determined. */
  datatype Status = Running | Resolved(value: Option<Value>) | Rejected

  /** `deps` are the loads it read from; `basis` those that had answered when it finished. */
  datatype Load = Load(
    key: Key, flight: Key, gen: nat, status: Status, published: bool, settled: bool, deps: set<nat>, basis: set<nat>
  )

  datatype State = State(
    generation: nat,
    entries: map<Key, Entry>,
    inflight: map<Key, Flight>,
    loads: seq<Load>,
    kept: set<nat>       // loads that finished in the generation they were begun in
  )

  function Initial(): State { State(0, map[], map[], [], {}) }

  datatype Outcome = Hit(entry: Entry) | Shared(promise: nat) | Begun(promise: nat)

  function SourceOf(o: Outcome): nat { if o.Hit? then o.entry.source else o.promise }

  // ---- transitions -----------------------------------------------------------------------------

  function Lookup(s: State, key: Key, flight: Key, ttl: int, now: int): Outcome {
    if key in s.entries && now - s.entries[key].at < ttl then Hit(s.entries[key])
    else if flight in s.inflight && s.inflight[flight].gen == s.generation then Shared(s.inflight[flight].promise)
    else Begun(|s.loads|)
  }

  function Started(s: State, key: Key, flight: Key, ttl: int, now: int): State {
    if Lookup(s, key, flight, ttl, now).Begun? then
      s.(loads := s.loads + [Load(key, flight, s.generation, Running, false, false, {}, {})],
         inflight := s.inflight[flight := Flight(s.generation, |s.loads|)])
    else s
  }

  predicate Finished(l: Load) { l.published || l.status.Rejected? }

  function Answered(loads: seq<Load>, deps: set<nat>): set<nat> {
    set d | d in deps && d < |loads| && Finished(loads[d])
  }

  /** A load may finish while something it read is still running, as when one of several awaited reads rejects. */
  function Finish(s: State, p: nat, status: Status): State
    requires p < |s.loads|
  {
    s.(loads := s.loads[p := s.loads[p].(status := status, basis := Answered(s.loads, s.loads[p].deps))],
       kept := if s.loads[p].gen == s.generation then s.kept + {p} else s.kept)
  }

  /** The first `.then`: keep the value unless a bust intervened. */
  function Published(s: State, p: nat, now: int): State
    requires p < |s.loads| && s.loads[p].status.Resolved?
  {
    var l := s.loads[p];
    var t := s.(loads := s.loads[p := l.(published := true)]);
    if l.status.value.Some? && l.gen == s.generation then
      t.(entries := t.entries[l.key := Entry(now, l.status.value.value, p)])
    else t
  }

  /** `settle`: the flight ends, if this promise is still the one in it. */
  function Settled(s: State, p: nat): State
    requires p < |s.loads|
  {
    var l := s.loads[p];
    var t := s.(loads := s.loads[p := l.(settled := true)]);
    if l.flight in s.inflight && s.inflight[l.flight].promise == p then t.(inflight := t.inflight - {l.flight}) else t
  }

  function Bust(s: State): State { s.(entries := map[], inflight := map[], generation := s.generation + 1) }

  function Depend(s: State, p: nat, d: nat): State
    requires p < |s.loads|
  {
    s.(loads := s.loads[p := s.loads[p].(deps := s.loads[p].deps + {d})])
  }

  datatype Event =
    | OuterRead(key: Key, flight: Key, ttl: int, now: int)
    | InnerRead(reader: nat, key: Key, flight: Key, ttl: int, now: int)   // a running load reads another cache
    | Resolve(promise: nat, value: Option<Value>)
    | Reject(promise: nat)
    | PublishStep(promise: nat, now: int)
    | SettleStep(promise: nat)
    | BustStep

  /** A running load may finish at any time; its callbacks run in their order. */
  ghost predicate Enabled(s: State, e: Event) {
    match e
    case OuterRead(_, _, _, _) => true
    case InnerRead(reader, _, _, _, _) => reader < |s.loads| && s.loads[reader].status.Running?
    case Resolve(p, _) => p < |s.loads| && s.loads[p].status.Running?
    case Reject(p) => p < |s.loads| && s.loads[p].status.Running?
    case PublishStep(p, _) => p < |s.loads| && s.loads[p].status.Resolved? && !s.loads[p].published
    case SettleStep(p) => p < |s.loads| && Finished(s.loads[p]) && !s.loads[p].settled
    case BustStep => true
  }

  function Step(s: State, e: Event): State
    requires Enabled(s, e)
  {
    match e
    case OuterRead(key, flight, ttl, now) => Started(s, key, flight, ttl, now)
    case InnerRead(reader, key, flight, ttl, now) =>
      Depend(Started(s, key, flight, ttl, now), reader, SourceOf(Lookup(s, key, flight, ttl, now)))
    case Resolve(p, value) => Finish(s, p, Resolved(value))
    case Reject(p) => Finish(s, p, Rejected)
    case PublishStep(p, now) => Published(s, p, now)
    case SettleStep(p) => Settled(s, p)
    case BustStep => Bust(s)
  }

  ghost predicate LegalRun(s: State, events: seq<Event>)
    decreases |events|
  {
    events == [] || (Enabled(s, events[0]) && LegalRun(Step(s, events[0]), events[1..]))
  }

  ghost function Run(s: State, events: seq<Event>): State
    requires LegalRun(s, events)
    decreases |events|
  {
    if events == [] then s else Run(Step(s, events[0]), events[1..])
  }

  // ---- the invariant ---------------------------------------------------------------------------

  /** Everything cached or in flight was begun in the present generation. */
  ghost predicate Current(s: State) {
    && (forall k :: k in s.entries ==>
          var e := s.entries[k];
          e.source < |s.loads| && s.loads[e.source].gen == s.generation && s.loads[e.source].key == k
          && s.loads[e.source].status == Resolved(Some(e.value)) && s.loads[e.source].published)
    && (forall f :: f in s.inflight ==>
          var l := s.inflight[f];
          l.gen == s.generation && l.promise < |s.loads| && s.loads[l.promise].gen == s.generation
          && s.loads[l.promise].flight == f && !s.loads[l.promise].settled)
    && (forall p :: 0 <= p < |s.loads| ==> s.loads[p].gen <= s.generation)
  }

  /** A load of the present generation that has not settled is the one its flight key shares. */
  ghost predicate SingleFlight(s: State) {
    forall p :: 0 <= p < |s.loads| && s.loads[p].gen == s.generation && !s.loads[p].settled
      ==> s.loads[p].flight in s.inflight && s.inflight[s.loads[p].flight].promise == p
  }

  /** What a load reads was begun no earlier than the generation it was begun in. */
  ghost predicate DepsNoOlder(s: State) {
    forall p :: 0 <= p < |s.loads| ==> NoOlder(s.loads, s.loads[p])
  }

  ghost predicate NoOlder(loads: seq<Load>, l: Load) {
    forall d :: d in l.deps ==> d < |loads| && loads[d].gen >= l.gen
  }

  /** A load that finished in its own generation had answers only from such loads, of that generation. */
  ghost predicate FreshRests(s: State) {
    && (forall p :: p in s.kept ==> p < |s.loads| && !s.loads[p].status.Running?)
    && (forall p :: 0 <= p < |s.loads| && !s.loads[p].status.Running? && s.loads[p].gen == s.generation ==> p in s.kept)
    && (forall p :: p in s.kept ==> SameGeneration(s, s.loads[p]))
  }

  ghost predicate SameGeneration(s: State, l: Load) {
    forall d :: d in l.basis ==> d < |s.loads| && d in s.kept && s.loads[d].gen == l.gen
  }

  /** Callbacks run after the load has finished. */
  ghost predicate InSequence(s: State) {
    forall p :: 0 <= p < |s.loads| ==>
      && (s.loads[p].published ==> s.loads[p].status.Resolved?)
      && (s.loads[p].settled ==> Finished(s.loads[p]))
  }

  ghost predicate Inv(s: State) {
    Current(s) && SingleFlight(s) && DepsNoOlder(s) && FreshRests(s) && InSequence(s)
  }

  lemma ReadKeeps(s: State, key: Key, flight: Key, ttl: int, now: int)
    requires Inv(s)
    ensures Inv(Started(s, key, flight, ttl, now))
    ensures var o := Lookup(s, key, flight, ttl, now);
            var t := Started(s, key, flight, ttl, now);
            SourceOf(o) < |t.loads| && t.loads[SourceOf(o)].gen == s.generation
  {
    var t := Started(s, key, flight, ttl, now);
    if Lookup(s, key, flight, ttl, now).Begun? {
      assert flight !in s.inflight;
      BeginKeeps(s, key, flight, t);
    }
  }

  ghost predicate IsBegun(s: State, key: Key, flight: Key, t: State) {
    && flight !in s.inflight
    && t == s.(loads := s.loads + [Load(key, flight, s.generation, Running, false, false, {}, {})],
               inflight := s.inflight[flight := Flight(s.generation, |s.loads|)])
  }

  lemma BeginKeeps(s: State, key: Key, flight: Key, t: State)
    requires Inv(s) && IsBegun(s, key, flight, t)
    ensures Inv(t)
  {
    BeginIsCurrent(s, key, flight, t);
    BeginIsSingle(s, key, flight, t);
    BeginRests(s, key, flight, t);
  }

  lemma BeginIsCurrent(s: State, key: Key, flight: Key, t: State)
    requires Current(s) && InSequence(s) && IsBegun(s, key, flight, t)
    ensures Current(t) && InSequence(t)
  {
    assert forall p :: 0 <= p < |s.loads| ==> t.loads[p] == s.loads[p];
  }

  lemma BeginIsSingle(s: State, key: Key, flight: Key, t: State)
    requires SingleFlight(s) && IsBegun(s, key, flight, t)
    ensures SingleFlight(t)
  {
    assert forall p :: 0 <= p < |s.loads| ==> t.loads[p] == s.loads[p];
    assert t.loads[|s.loads|].flight == flight;
  }

  lemma BeginRests(s: State, key: Key, flight: Key, t: State)
    requires DepsNoOlder(s) && FreshRests(s) && IsBegun(s, key, flight, t)
    ensures DepsNoOlder(t) && FreshRests(t)
  {
    var n := |s.loads|;
    assert forall p :: 0 <= p < n ==> t.loads[p] == s.loads[p];
    assert t.loads[n].deps == {} && t.loads[n].status.Running?;
    forall q | 0 <= q < n ensures NoOlder(t.loads, t.loads[q]) { assert NoOlder(s.loads, s.loads[q]); }
    forall q | q in s.kept ensures SameGeneration(t, t.loads[q]) { assert SameGeneration(s, s.loads[q]); }
  }

  /** One load's record changes; its key, flight and generation do not. */
  ghost predicate SameLoad(a: Load, b: Load) { a.key == b.key && a.flight == b.flight && a.gen == b.gen }

  lemma DependKeeps(s: State, p: nat, d: nat)
    requires Inv(s) && p < |s.loads| && s.loads[p].status.Running? && d < |s.loads| && s.loads[d].gen >= s.loads[p].gen
    ensures Inv(Depend(s, p, d))
  {
    var t := Depend(s, p, d);
    DependRests(s, p, d);
    DependIsCurrent(s, p, d);
    assert SingleFlight(t) by {
      assert forall i :: 0 <= i < |s.loads| ==>
               SameLoad(t.loads[i], s.loads[i]) && t.loads[i].settled == s.loads[i].settled;
    }
  }

  lemma DependIsCurrent(s: State, p: nat, d: nat)
    requires Current(s) && InSequence(s) && p < |s.loads|
    ensures Current(Depend(s, p, d)) && InSequence(Depend(s, p, d))
  {
    var t := Depend(s, p, d);
    assert forall i :: 0 <= i < |s.loads| ==> t.loads[i] == s.loads[i].(deps := t.loads[i].deps);
  }

  lemma DependRests(s: State, p: nat, d: nat)
    requires DepsNoOlder(s) && FreshRests(s)
    requires p < |s.loads| && s.loads[p].status.Running? && d < |s.loads| && s.loads[d].gen >= s.loads[p].gen
    ensures DepsNoOlder(Depend(s, p, d)) && FreshRests(Depend(s, p, d))
  {
    var t := Depend(s, p, d);
    assert forall i :: 0 <= i < |s.loads| ==> t.loads[i].gen == s.loads[i].gen && (i != p ==> t.loads[i] == s.loads[i]);
    forall q | 0 <= q < |t.loads| ensures NoOlder(t.loads, t.loads[q]) { assert NoOlder(s.loads, s.loads[q]); }
    forall q | q in s.kept ensures SameGeneration(t, t.loads[q]) { assert SameGeneration(s, s.loads[q]); }
  }

  lemma FinishKeeps(s: State, p: nat, status: Status)
    requires Inv(s) && p < |s.loads| && s.loads[p].status.Running? && !status.Running?
    ensures Inv(Finish(s, p, status))
  {
    FinishIsCurrent(s, p, status);
    FinishRests(s, p, status);
  }

  lemma FinishIsCurrent(s: State, p: nat, status: Status)
    requires Current(s) && SingleFlight(s) && InSequence(s)
    requires p < |s.loads| && s.loads[p].status.Running? && !status.Running?
    ensures var t := Finish(s, p, status); Current(t) && SingleFlight(t) && InSequence(t)
  {
    var t := Finish(s, p, status);
    assert forall i :: 0 <= i < |s.loads| ==>
             SameLoad(t.loads[i], s.loads[i]) && t.loads[i].settled == s.loads[i].settled
             && (i != p ==> t.loads[i] == s.loads[i]);
    assert !Finished(s.loads[p]);
  }

  lemma FinishRests(s: State, p: nat, status: Status)
    requires DepsNoOlder(s) && FreshRests(s) && InSequence(s)
    requires p < |s.loads| && s.loads[p].status.Running? && !status.Running?
    requires forall i :: 0 <= i < |s.loads| ==> s.loads[i].gen <= s.generation
    ensures DepsNoOlder(Finish(s, p, status)) && FreshRests(Finish(s, p, status))
  {
    var t := Finish(s, p, status);
    assert forall i :: 0 <= i < |s.loads| ==> t.loads[i].gen == s.loads[i].gen && t.loads[i].deps == s.loads[i].deps
                                              && (i != p ==> t.loads[i] == s.loads[i]);
    forall q | q in t.kept ensures SameGeneration(t, t.loads[q]) {
      if q in s.kept { assert SameGeneration(s, s.loads[q]); } else { AnswersAreFresh(s, p); }
    }
    forall q | 0 <= q < |t.loads| ensures NoOlder(t.loads, t.loads[q]) { assert NoOlder(s.loads, s.loads[q]); }
  }

  /** Whatever has answered a load of the present generation is itself of it, and finished in it. */
  lemma AnswersAreFresh(s: State, p: nat)
    requires DepsNoOlder(s) && FreshRests(s) && InSequence(s)
    requires p < |s.loads| && s.loads[p].gen == s.generation
    requires forall i :: 0 <= i < |s.loads| ==> s.loads[i].gen <= s.generation
    ensures forall d :: d in Answered(s.loads, s.loads[p].deps) ==> d in s.kept && s.loads[d].gen == s.generation
  {
    assert NoOlder(s.loads, s.loads[p]);
    forall d | d in Answered(s.loads, s.loads[p].deps) ensures d in s.kept && s.loads[d].gen == s.generation {
      assert s.loads[d].gen >= s.generation && Finished(s.loads[d]) && !s.loads[d].status.Running?;
    }
  }

  /** The dependency half of the invariant only looks at generations, dependencies and who still runs. */
  lemma RestsKeep(s: State, t: State)
    requires DepsNoOlder(s) && FreshRests(s)
    requires |t.loads| == |s.loads| && t.kept == s.kept && t.generation == s.generation
    requires forall i :: 0 <= i < |s.loads| ==> t.loads[i].gen == s.loads[i].gen && t.loads[i].deps == s.loads[i].deps
                                                && t.loads[i].basis == s.loads[i].basis
                                                && t.loads[i].status.Running? == s.loads[i].status.Running?
    ensures DepsNoOlder(t) && FreshRests(t)
  {
    forall q | 0 <= q < |t.loads| ensures NoOlder(t.loads, t.loads[q]) { assert NoOlder(s.loads, s.loads[q]); }
    forall q | q in s.kept ensures SameGeneration(t, t.loads[q]) { assert SameGeneration(s, s.loads[q]); }
  }

  lemma PublishKeeps(s: State, p: nat, now: int)
    requires Inv(s) && p < |s.loads| && s.loads[p].status.Resolved? && !s.loads[p].published
    ensures Inv(Published(s, p, now))
  {
    RestsKeep(s, Published(s, p, now));
    PublishedIsCurrent(s, p, now);
  }

  lemma PublishedIsCurrent(s: State, p: nat, now: int)
    requires Current(s) && SingleFlight(s) && InSequence(s)
    requires p < |s.loads| && s.loads[p].status.Resolved? && !s.loads[p].published
    ensures var t := Published(s, p, now); Current(t) && SingleFlight(t) && InSequence(t)
  {
    PublishedInSequence(s, p, now);
    PublishedEntries(s, p, now);
    assert SingleFlight(Published(s, p, now)) by {
      var t := Published(s, p, now);
      assert forall i :: 0 <= i < |s.loads| ==>
               SameLoad(t.loads[i], s.loads[i]) && t.loads[i].settled == s.loads[i].settled;
    }
  }

  lemma PublishedEntries(s: State, p: nat, now: int)
    requires Current(s) && p < |s.loads| && s.loads[p].status.Resolved?
    ensures Current(Published(s, p, now))
  {
    var t := Published(s, p, now);
    assert forall i :: 0 <= i < |s.loads| && i != p ==> t.loads[i] == s.loads[i];
    assert t.loads[p] == s.loads[p].(published := true);
    forall k | k in t.entries && (k !in s.entries || t.entries[k] != s.entries[k])
      ensures k == s.loads[p].key && t.entries[k].source == p && s.loads[p].gen == s.generation {}
  }

  lemma PublishedInSequence(s: State, p: nat, now: int)
    requires InSequence(s) && p < |s.loads| && s.loads[p].status.Resolved?
    ensures InSequence(Published(s, p, now))
  {
    var t := Published(s, p, now);
    assert forall i :: 0 <= i < |s.loads| && i != p ==> t.loads[i] == s.loads[i];
  }

  lemma SettleKeeps(s: State, p: nat)
    requires Inv(s) && p < |s.loads| && Finished(s.loads[p]) && !s.loads[p].settled
    ensures Inv(Settled(s, p))
  {
    RestsKeep(s, Settled(s, p));
    SettledIsCurrent(s, p);
  }

  lemma SettledIsCurrent(s: State, p: nat)
    requires Current(s) && SingleFlight(s) && InSequence(s)
    requires p < |s.loads| && Finished(s.loads[p]) && !s.loads[p].settled
    ensures var t := Settled(s, p); Current(t) && SingleFlight(t) && InSequence(t)
  {
    SettledInSequence(s, p);
    SettledFlights(s, p);
    SettledSingle(s, p);
  }

  lemma SettledFlights(s: State, p: nat)
    requires Current(s) && p < |s.loads|
    ensures Current(Settled(s, p))
  {
    var t := Settled(s, p);
    assert forall i :: 0 <= i < |s.loads| && i != p ==> t.loads[i] == s.loads[i];
    assert t.loads[p] == s.loads[p].(settled := true);
    forall f | f in t.inflight ensures t.inflight[f] == s.inflight[f] && t.inflight[f].promise != p {
      assert s.loads[s.inflight[f].promise].flight == f;
    }
  }

  lemma SettledSingle(s: State, p: nat)
    requires SingleFlight(s) && p < |s.loads|
    ensures SingleFlight(Settled(s, p))
  {
    var t := Settled(s, p);
    assert forall i :: 0 <= i < |s.loads| && i != p ==> t.loads[i] == s.loads[i];
    assert t.loads[p] == s.loads[p].(settled := true);
  }

  lemma SettledInSequence(s: State, p: nat)
    requires InSequence(s) && p < |s.loads| && Finished(s.loads[p])
    ensures InSequence(Settled(s, p))
  {
    var t := Settled(s, p);
    assert forall i :: 0 <= i < |s.loads| && i != p ==> t.loads[i] == s.loads[i];
  }

  lemma BustKeeps(s: State)
    requires Inv(s)
    ensures Inv(Bust(s))
  {
    var t := Bust(s);
    forall q | 0 <= q < |t.loads| ensures NoOlder(t.loads, t.loads[q]) { assert NoOlder(s.loads, s.loads[q]); }
    forall q | q in s.kept ensures SameGeneration(t, t.loads[q]) { assert SameGeneration(s, s.loads[q]); }
  }

  lemma StepKeeps(s: State, e: Event)
    requires Inv(s) && Enabled(s, e)
    ensures Inv(Step(s, e))
  {
    match e
    case OuterRead(key, flight, ttl, now) => ReadKeeps(s, key, flight, ttl, now);
    case InnerRead(reader, key, flight, ttl, now) =>
      ReadKeeps(s, key, flight, ttl, now);
      DependKeeps(Started(s, key, flight, ttl, now), reader, SourceOf(Lookup(s, key, flight, ttl, now)));
    case Resolve(p, value) => FinishKeeps(s, p, Resolved(value));
    case Reject(p) => FinishKeeps(s, p, Rejected);
    case PublishStep(p, now) => PublishKeeps(s, p, now);
    case SettleStep(p) => SettleKeeps(s, p);
    case BustStep => BustKeeps(s);
  }

  /** Loads are only added, and a load's generation never changes. */
  ghost predicate Extends(s: State, t: State) {
    && |s.loads| <= |t.loads| && s.generation <= t.generation && s.kept <= t.kept
    && forall p :: 0 <= p < |s.loads| ==> t.loads[p].gen == s.loads[p].gen
  }

  lemma StepExtends(s: State, e: Event)
    requires Enabled(s, e)
    ensures Extends(s, Step(s, e))
  {
  }

  lemma ExtendsThrough(s: State, t: State, u: State)
    requires Extends(s, t) && Extends(t, u)
    ensures Extends(s, u)
  {
  }

  lemma {:induction false} RunKeeps(s: State, events: seq<Event>)
    requires Inv(s) && LegalRun(s, events)
    ensures Inv(Run(s, events)) && Extends(s, Run(s, events))
    decreases |events|
  {
    if events != [] {
      StepKeeps(s, events[0]);
      StepExtends(s, events[0]);
      RunKeeps(Step(s, events[0]), events[1..]);
      ExtendsThrough(s, Step(s, events[0]), Run(s, events));
    }
  }

  lemma EveryRun(events: seq<Event>)
    requires LegalRun(Initial(), events)
    ensures Inv(Run(Initial(), events))
  {
    RunKeeps(Initial(), events);
  }

  // ---- single flight ---------------------------------------------------------------------------

  /** At most one load per flight key of the present generation is unfinished. */
  lemma OneUnfinishedLoad(s: State, p: nat, q: nat)
    requires Inv(s) && p < |s.loads| && q < |s.loads| && s.loads[p].flight == s.loads[q].flight
    requires s.loads[p].gen == s.loads[q].gen == s.generation
    requires !Finished(s.loads[p]) && !Finished(s.loads[q])
    ensures p == q
  {
  }

  // ---- freshness across busts ------------------------------------------------------------------

  /** Two ways a load rests on another: it read from it, or it had its answer when it finished. */
  datatype Edge = ReadFrom | AnsweredBy

  ghost predicate Joined(s: State, edge: Edge, p: nat, d: nat) {
    p < |s.loads| && d in if edge.ReadFrom? then s.loads[p].deps else s.loads[p].basis
  }

  ghost predicate Chain(s: State, edge: Edge, path: seq<nat>) {
    && |path| > 0
    && (forall i :: 0 <= i < |path| ==> path[i] < |s.loads|)
    && (forall i :: 0 <= i < |path| - 1 ==> Joined(s, edge, path[i], path[i + 1]))
  }

  /** p's result rests on q's: directly, or through the caches nested between them. */
  ghost predicate RestsOn(s: State, edge: Edge, p: nat, q: nat) {
    exists path :: Chain(s, edge, path) && path[0] == p && path[|path| - 1] == q
  }

  lemma ChainTail(s: State, edge: Edge, path: seq<nat>)
    requires Chain(s, edge, path) && |path| > 1
    ensures Chain(s, edge, path[1..]) && Joined(s, edge, path[0], path[1])
  {
    var rest := path[1..];
    assert Joined(s, edge, path[0], path[0 + 1]);
    forall i | 0 <= i < |rest| - 1 ensures Joined(s, edge, rest[i], rest[i + 1]) {
      assert Joined(s, edge, path[i + 1], path[i + 1 + 1]);
    }
  }

  lemma {:induction false} NoOlderAlong(s: State, path: seq<nat>)
    requires DepsNoOlder(s) && Chain(s, ReadFrom, path)
    ensures s.loads[path[|path| - 1]].gen >= s.loads[path[0]].gen
  {
    if |path| > 1 {
      ChainTail(s, ReadFrom, path);
      assert NoOlder(s.loads, s.loads[path[0]]);
      NoOlderAlong(s, path[1..]);
    }
  }

  lemma {:induction false} SameAlong(s: State, path: seq<nat>)
    requires FreshRests(s) && Chain(s, AnsweredBy, path) && path[0] in s.kept
    ensures path[|path| - 1] in s.kept && s.loads[path[|path| - 1]].gen == s.loads[path[0]].gen
  {
    if |path| > 1 {
      ChainTail(s, AnsweredBy, path);
      assert SameGeneration(s, s.loads[path[0]]);
      SameAlong(s, path[1..]);
    }
  }

  /** A value that resolved in the generation it was begun in rests, at any later state and after any later
      bust, only on loads of that generation. */
  lemma ResolvedValueRestsOnItsGeneration(s: State, p: nat, events: seq<Event>, q: nat)
    requires Inv(s) && p < |s.loads| && s.loads[p].status.Resolved? && s.loads[p].gen == s.generation
    requires LegalRun(s, events) && RestsOn(Run(s, events), AnsweredBy, p, q)
    ensures q < |Run(s, events).loads| && Run(s, events).loads[q].gen == s.loads[p].gen
  {
    RunKeeps(s, events);
    var t := Run(s, events);
    var path :| Chain(t, AnsweredBy, path) && path[0] == p && path[|path| - 1] == q;
    assert p in s.kept;
    SameAlong(t, path);
  }

  /** A cached value rests only on loads begun in the generation it was stored in, however deep the nesting,
      and counting even reads it did not wait for. */
  lemma StoredValueRestsOnItsGeneration(s: State, key: Key, q: nat)
    requires Inv(s) && key in s.entries && RestsOn(s, ReadFrom, s.entries[key].source, q)
    ensures q < |s.loads| && s.loads[q].gen == s.generation
  {
    var path :| Chain(s, ReadFrom, path) && path[0] == s.entries[key].source && path[|path| - 1] == q;
    NoOlderAlong(s, path);
  }

  /** After a bust, no read is answered from, joined to, or built on a load begun before it: not at once,
      not after any further events, not through any nested cache. */
  lemma ReadsAfterBustAreFresh(s: State, events: seq<Event>, read: Event, later: seq<Event>, q: nat)
    requires Inv(s) && LegalRun(Bust(s), events) && (read.OuterRead? || read.InnerRead?)
    requires Enabled(Run(Bust(s), events), read) && LegalRun(Step(Run(Bust(s), events), read), later)
    requires var t := Run(Bust(s), events);
             RestsOn(Run(Step(t, read), later), ReadFrom,
                 SourceOf(Lookup(t, read.key, read.flight, read.ttl, read.now)), q)
    ensures q >= |s.loads|
  {
    BustKeeps(s);
    RunKeeps(Bust(s), events);
    var t := Run(Bust(s), events);
    var u := Step(t, read);
    StepKeeps(t, read);
    StepExtends(t, read);
    ReadKeeps(t, read.key, read.flight, read.ttl, read.now);
    RunKeeps(u, later);
    var v, p := Run(u, later), SourceOf(Lookup(t, read.key, read.flight, read.ttl, read.now));
    BegunAfter(s, t, u, v, p, q);
  }

  lemma BegunAfter(s: State, t: State, u: State, v: State, p: nat, q: nat)
    requires Inv(s) && Inv(v) && Extends(Bust(s), t) && Extends(t, u) && Extends(u, v)
    requires p < |u.loads| && u.loads[p].gen == t.generation && RestsOn(v, ReadFrom, p, q)
    ensures q >= |s.loads|
  {
    var path :| Chain(v, ReadFrom, path) && path[0] == p && path[|path| - 1] == q;
    NoOlderAlong(v, path);
    ExtendsThrough(Bust(s), t, u);
    ExtendsThrough(Bust(s), u, v);
    forall i | 0 <= i < |s.loads| ensures v.loads[i].gen <= s.generation { assert v.loads[i].gen == s.loads[i].gen; }
    assert v.loads[q].gen > s.generation;
  }

  // ---- what a load rests on --------------------------------------------------------------------

  /** A load that reads another cache depends on the load it was answered from, and on no more than before besides. */
  lemma NestedReadsAreOnRecord(s: State, e: Event, p: nat)
    requires Enabled(s, e) && p < |s.loads|
    ensures p < |Step(s, e).loads|
    ensures Step(s, e).loads[p].deps ==
              if e.InnerRead? && e.reader == p
              then s.loads[p].deps + {SourceOf(Lookup(s, e.key, e.flight, e.ttl, e.now))} else s.loads[p].deps
  {
  }

  /** What it rests on when it finishes are those of them that have answered by then, for good. */
  lemma AnswersAreOnRecord(s: State, e: Event, p: nat)
    requires Enabled(s, e) && p < |s.loads|
    ensures p < |Step(s, e).loads|
    ensures if (e.Resolve? || e.Reject?) && e.promise == p then
              forall d :: d in Step(s, e).loads[p].basis <==>
                          d in s.loads[p].deps && d < |s.loads|
                          && (s.loads[d].published || s.loads[d].status == Rejected)
            else Step(s, e).loads[p].basis == s.loads[p].basis
  {
  }

  // ---- a load's outcome ------------------------------------------------------------------------

  /** A load that has finished keeps its outcome, whatever else happens. */
  lemma {:induction false} OutcomesStay(s: State, events: seq<Event>, p: nat)
    requires LegalRun(s, events) && p < |s.loads| && !s.loads[p].status.Running?
    ensures p < |Run(s, events).loads| && Run(s, events).loads[p].status == s.loads[p].status
    decreases |events|
  {
    if events != [] {
      assert p < |Step(s, events[0]).loads| && Step(s, events[0]).loads[p].status == s.loads[p].status;
      OutcomesStay(Step(s, events[0]), events[1..], p);
    }
  }

  /** And that outcome is the one it finished with. */
  lemma OutcomeIsWhatItFinishedWith(s: State, e: Event, events: seq<Event>)
    requires (e.Resolve? || e.Reject?) && Enabled(s, e) && LegalRun(Step(s, e), events)
    ensures var t := Run(Step(s, e), events);
            && e.promise < |t.loads|
            && t.loads[e.promise].status == if e.Resolve? then Resolved(e.value) else Rejected
  {
    OutcomesStay(Step(s, e), events, e.promise);
  }

  // ---- what a read is answered with ------------------------------------------------------------

  /** This event publishes a value under the key: its load resolved with one, and no bust came in between. */
  ghost predicate Stores(s: State, e: Event, key: Key) {
    && e.PublishStep? && e.promise < |s.loads| && s.loads[e.promise].key == key
    && s.loads[e.promise].gen == s.generation
    && s.loads[e.promise].status.Resolved? && s.loads[e.promise].status.value.Some?
  }

  ghost function ValueOf(s: State, e: Event, key: Key): Value
    requires Stores(s, e, key)
  {
    s.loads[e.promise].status.value.value
  }

  /** No bust, and nothing published under the key. */
  ghost predicate Quiet(s: State, events: seq<Event>, key: Key)
    requires LegalRun(s, events)
    decreases |events|
  {
    events == [] || (
      && !events[0].BustStep? && !Stores(s, events[0], key) && Quiet(Step(s, events[0]), events[1..], key))
  }

  /** `e` published the value, and nothing later in the run replaced it or threw it away. */
  ghost predicate StoredBy(events: seq<Event>, before: seq<Event>, e: Event, rest: seq<Event>, key: Key) {
    && events == before + [e] + rest && LegalRun(Initial(), before)
    && var s := Run(Initial(), before);
       && Enabled(s, e) && Stores(s, e, key) && LegalRun(Step(s, e), rest) && Quiet(Step(s, e), rest, key)
  }

  /** The value last published under the key is younger than ttl, and no bust has come since. */
  ghost predicate FreshlyStored(events: seq<Event>, key: Key, value: Value, ttl: int, now: int) {
    exists before, e, rest :: StoredBy(events, before, e, rest, key) && now - e.now < ttl
                           && ValueOf(Run(Initial(), before), e, key) == value
  }

  ghost predicate UnderWay(s: State, flight: Key, p: nat) {
    p < |s.loads| && s.loads[p].gen == s.generation && s.loads[p].flight == flight && !s.loads[p].settled
  }

  /** A read of a key published less than ttl ago, with no bust since, returns that value and begins nothing;
      else it joins the load of its flight key under way in this generation; else, and only then, it begins
      exactly one load. */
  lemma ReadsAreServed(events: seq<Event>, key: Key, flight: Key, ttl: int, now: int)
    requires LegalRun(Initial(), events)
    ensures var t := Run(Initial(), events);
            var o, after := Lookup(t, key, flight, ttl, now), Started(t, key, flight, ttl, now);
            && (forall value :: FreshlyStored(events, key, value, ttl, now) ==> o.Hit? && o.entry.value == value)
            && (o.Hit? ==> FreshlyStored(events, key, o.entry.value, ttl, now) && after == t)
            && (forall p :: UnderWay(t, flight, p) && !o.Hit? ==> o == Shared(p))
            && (o.Shared? ==> UnderWay(t, flight, o.promise) && after == t)
            && (o.Begun? ==>
                  && o.promise == |t.loads| && |after.loads| == |t.loads| + 1 && after.loads[..|t.loads|] == t.loads
                  && after.loads[o.promise].key == key && UnderWay(after, flight, o.promise)
                  && after.entries == t.entries && after.generation == t.generation)
  {
    EveryRun(events);
    var t := Run(Initial(), events);
    var o := Lookup(t, key, flight, ttl, now);
    EntriesAreStored(events, key);
    forall value | FreshlyStored(events, key, value, ttl, now) ensures o.Hit? && o.entry.value == value {
      var before, e, rest :| StoredBy(events, before, e, rest, key) && now - e.now < ttl
          && ValueOf(Run(Initial(), before), e, key) == value;
    }
    if o.Hit? { HitWasStored(events, key, ttl, now); }
  }

  ghost predicate IsEntryOf(t: State, before: seq<Event>, e: Event, key: Key) {
    && LegalRun(Initial(), before) && Stores(Run(Initial(), before), e, key) && key in t.entries
    && t.entries[key] == Entry(e.now, ValueOf(Run(Initial(), before), e, key), e.promise)
  }

  lemma HitWasStored(events: seq<Event>, key: Key, ttl: int, now: int)
    requires LegalRun(Initial(), events) && key in Run(Initial(), events).entries
    requires now - Run(Initial(), events).entries[key].at < ttl
    ensures FreshlyStored(events, key, Run(Initial(), events).entries[key].value, ttl, now)
  {
    EntriesAreStored(events, key);
    var before, e, rest :| StoredBy(events, before, e, rest, key) && IsEntryOf(Run(Initial(), events), before, e, key);
  }

  /** The cache holds, for each key, the value last published under it since the last bust, and when. */
  lemma {:induction false} EntriesAreStored(events: seq<Event>, key: Key)
    requires LegalRun(Initial(), events)
    ensures forall before, e, rest :: StoredBy(events, before, e, rest, key) ==>
              IsEntryOf(Run(Initial(), events), before, e, key)
    ensures key in Run(Initial(), events).entries ==>
              exists before, e, rest :: StoredBy(events, before, e, rest, key)
                                     && IsEntryOf(Run(Initial(), events), before, e, key)
    decreases |events|
  {
    forall before, e, rest | StoredBy(events, before, e, rest, key)
      ensures IsEntryOf(Run(Initial(), events), before, e, key)
    {
      var s := Run(Initial(), before);
      StateAfter(events, before, e, rest, key);
      QuietKeepsEntry(Step(s, e), rest, key);
    }
    if events != [] && key in Run(Initial(), events).entries { LastEventStored(events, key); }
  }

  lemma {:induction false} LastEventStored(events: seq<Event>, key: Key)
    requires LegalRun(Initial(), events) && events != [] && key in Run(Initial(), events).entries
    ensures exists before, e, rest :: StoredBy(events, before, e, rest, key)
                                   && IsEntryOf(Run(Initial(), events), before, e, key)
    decreases |events|, 0
  {
    var front, last := events[..|events| - 1], events[|events| - 1];
    assert events == front + [last];
    RunInTwo(Initial(), front, [last]);
    var s := Run(Initial(), front);
    assert Run(s, [last]) == Step(s, last) by { assert [last][1..] == []; }
    if Stores(s, last, key) {
      assert front + [last] + [] == events;
      assert StoredBy(events, front, last, [], key);
      assert IsEntryOf(Step(s, last), front, last, key);
    } else {
      assert !last.BustStep?;
      QuietKeepsEntry(s, [last], key);
      EntriesAreStored(front, key);
      var before, e, rest :| StoredBy(front, before, e, rest, key) && IsEntryOf(s, before, e, key);
      StoredStill(front, before, e, rest, last, key);
      assert IsEntryOf(Step(s, last), before, e, key);
    }
  }

  lemma StateAfter(events: seq<Event>, before: seq<Event>, e: Event, rest: seq<Event>, key: Key)
    requires StoredBy(events, before, e, rest, key)
    ensures LegalRun(Initial(), events) && Run(Initial(), events) == Run(Step(Run(Initial(), before), e), rest)
  {
    assert events == before + ([e] + rest) && ([e] + rest)[1..] == rest;
    assert LegalRun(Run(Initial(), before), [e] + rest);
    RunInTwo(Initial(), before, [e] + rest);
  }

  lemma StoredStill(front: seq<Event>, before: seq<Event>, e: Event, rest: seq<Event>, last: Event, key: Key)
    requires StoredBy(front, before, e, rest, key) && LegalRun(Initial(), front)
    requires Enabled(Run(Initial(), front), last) && !last.BustStep? && !Stores(Run(Initial(), front), last, key)
    ensures StoredBy(front + [last], before, e, rest + [last], key)
  {
    StateAfter(front, before, e, rest, key);
    OneMoreQuiet(Step(Run(Initial(), before), e), rest, last, key);
    assert before + [e] + (rest + [last]) == front + [last];
  }

  lemma {:induction false} RunInTwo(s: State, a: seq<Event>, b: seq<Event>)
    requires LegalRun(s, a + b) || (LegalRun(s, a) && LegalRun(Run(s, a), b))
    ensures LegalRun(s, a) && LegalRun(Run(s, a), b) && LegalRun(s, a + b) && Run(s, a + b) == Run(Run(s, a), b)
    decreases |a|
  {
    if a == [] {
      assert a + b == b;
    } else {
      assert (a + b)[1..] == a[1..] + b;
      RunInTwo(Step(s, a[0]), a[1..], b);
    }
  }

  lemma {:induction false} QuietKeepsEntry(s: State, events: seq<Event>, key: Key)
    requires LegalRun(s, events) && Quiet(s, events, key)
    ensures key in Run(s, events).entries <==> key in s.entries
    ensures key in s.entries ==> Run(s, events).entries[key] == s.entries[key]
    decreases |events|
  {
    if events != [] {
      var t := Step(s, events[0]);
      assert (key in t.entries <==> key in s.entries) && (key in s.entries ==> t.entries[key] == s.entries[key]);
      QuietKeepsEntry(t, events[1..], key);
    }
  }

  lemma {:induction false} OneMoreQuiet(s: State, rest: seq<Event>, last: Event, key: Key)
    requires LegalRun(s, rest) && Quiet(s, rest, key) && Enabled(Run(s, rest), last)
    requires !last.BustStep? && !Stores(Run(s, rest), last, key)
    ensures LegalRun(s, rest + [last]) && Quiet(s, rest + [last], key)
    decreases |rest|
  {
    if rest == [] {
      assert rest + [last] == [last] && [last][1..] == [];
    } else {
      assert (rest + [last])[1..] == rest[1..] + [last];
      OneMoreQuiet(Step(s, rest[0]), rest[1..], last, key);
    }
  }

  // ---- the caches as the server keeps them -----------------------------------------------------

  class GitCaches {
    var generation: nat
    var entries: map<Key, Entry>
    var inflight: map<Key, Flight>
    var loads: seq<Load>
    ghost var freshLoads: set<nat>

    ghost function Now(): State reads this { State(generation, entries, inflight, loads, freshLoads) }
    ghost predicate Valid() reads this { Inv(Now()) }

    constructor ()
      ensures Valid() && Now() == Initial()
    {
      generation, entries, inflight, loads, freshLoads := 0, map[], map[], [], {};
    }

    /** A fresh entry, else the load already under way, else a new load. */
    method Read(key: Key, flight: Key, ttl: int, now: int) returns (o: Outcome)
      requires Valid()
      modifies this
      ensures Valid() && Now() == Started(old(Now()), key, flight, ttl, now)
      ensures o == Lookup(old(Now()), key, flight, ttl, now)
      ensures SourceOf(o) < |loads| && loads[SourceOf(o)].gen == generation
    {
      ReadKeeps(Now(), key, flight, ttl, now);
      if key in entries && now - entries[key].at < ttl { return Hit(entries[key]); }
      if flight in inflight && inflight[flight].gen == generation { return Shared(inflight[flight].promise); }
      o := Begun(|loads|);
      inflight := inflight[flight := Flight(generation, |loads|)];
      loads := loads + [Load(key, flight, generation, Running, false, false, {}, {})];
    }

    /** A load's promise resolves or rejects. */
    method Complete(p: nat, status: Status)
      requires Valid() && p < |loads| && loads[p].status.Running? && !status.Running?
      modifies this`loads, this`freshLoads
      ensures Valid() && Now() == Finish(old(Now()), p, status)
    {
      FinishKeeps(Now(), p, status);
      freshLoads := if loads[p].gen == generation then freshLoads + {p} else freshLoads;
      loads := loads[p := loads[p].(status := status, basis := Answered(loads, loads[p].deps))];
    }

    method Publish(p: nat, now: int)
      requires Valid() && Enabled(Now(), PublishStep(p, now))
      modifies this
      ensures Valid() && Now() == Published(old(Now()), p, now)
    {
      PublishKeeps(Now(), p, now);
      var l := loads[p];
      if l.status.value.Some? && l.gen == generation {
        entries := entries[l.key := Entry(now, l.status.value.value, p)];
      }
      loads := loads[p := l.(published := true)];
    }

    method Settle(p: nat)
      requires Valid() && Enabled(Now(), SettleStep(p))
      modifies this
      ensures Valid() && Now() == Settled(old(Now()), p)
    {
      SettleKeeps(Now(), p);
      var l := loads[p];
      if l.flight in inflight && inflight[l.flight].promise == p { inflight := inflight - {l.flight}; }
      loads := loads[p := l.(settled := true)];
    }

    method BustGitCaches()
      requires Valid()
      modifies this
      ensures Valid() && Now() == Bust(old(Now())) && entries == map[] && inflight == map[]
    {
      BustKeeps(Now());
      entries := map[];
      inflight := map[];
      generation := generation + 1;
    }
  }
}
