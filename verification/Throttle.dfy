/** Wrong join codes counted per address over a rolling hour, in bounded memory (relay/src/access.ts). */
module Throttle {
  import opened Collections

  const HOUR := 3600000

  /** One entry of the insertion-ordered map. */
  datatype Hits = Hits(ip: string, times: seq<int>)

  // ---- the specification -----------------------------------------------------------------------

  function Since(times: seq<int>, cutoff: int): seq<int> {
    if times == [] then [] else (if times[0] > cutoff then [times[0]] else []) + Since(times[1..], cutoff)
  }

  function Find(table: seq<Hits>, ip: string): (i: nat)
    ensures i <= |table| && (i < |table| ==> table[i].ip == ip)
    ensures forall j :: 0 <= j < i ==> table[j].ip != ip
  {
    if table == [] || table[0].ip == ip then 0 else Find(table[1..], ip) + 1
  }

  function Times(table: seq<Hits>, ip: string): seq<int> {
    var i := Find(table, ip);
    if i < |table| then table[i].times else []
  }

  function Recent(table: seq<Hits>, ip: string, now: int): seq<int> { Since(Times(table, ip), now - HOUR) }

  function Put(table: seq<Hits>, ip: string, times: seq<int>): seq<Hits> {
    var i := Find(table, ip);
    if i < |table| then table[i := Hits(ip, times)] else table + [Hits(ip, times)]
  }

  function Live(table: seq<Hits>, cutoff: int): seq<Hits> {
    if table == [] then []
    else
      var times := Since(table[0].times, cutoff);
      (if times == [] then [] else [Hits(table[0].ip, times)]) + Live(table[1..], cutoff)
  }

  function LastHit(h: Hits): int { if h.times == [] then 0 else h.times[|h.times| - 1] }
  function Warmer(): (Hits, Hits) -> bool { (a: Hits, b: Hits) => LastHit(a) > LastHit(b) }

  function Sweep(table: seq<Hits>, now: int, maxKeys: nat): seq<Hits> {
    Capped(Live(table, now - HOUR), maxKeys)
  }

  function Capped(live: seq<Hits>, maxKeys: nat): seq<Hits> {
    if |live| <= maxKeys then live else DropColdest(Warmer(), live, |live| - maxKeys)
  }

  /** One wrong code. The clock is read three times while it is recorded, so it may tick in between. */
  datatype Miss = Miss(ip: string, looked: int, at: int, swept: int)

  function Stored(table: seq<Hits>, m: Miss): seq<Hits> {
    Put(table, m.ip, Recent(table, m.ip, m.looked) + [m.at])
  }

  function Record(table: seq<Hits>, m: Miss, maxKeys: nat): seq<Hits> {
    Sweep(Stored(table, m), m.swept, maxKeys)
  }

  // ---- the naive log it stands for -------------------------------------------------------------

  function Logged(log: seq<Miss>, ip: string): seq<int> {
    if log == [] then []
    else Logged(log[..|log| - 1], ip) + (if log[|log| - 1].ip == ip then [log[|log| - 1].at] else [])
  }

  /** Every wrong code of this address in the last hour. */
  function InLastHour(log: seq<Miss>, ip: string, now: int): seq<int> { Since(Logged(log, ip), now - HOUR) }

  /** A run of wrong codes; `shed` collects the addresses evicted for memory. */
  datatype State = State(table: seq<Hits>, log: seq<Miss>, clock: int, shed: set<string>)

  function Ips(table: seq<Hits>): set<string> { set h | h in table :: h.ip }

  function Shed(table: seq<Hits>, m: Miss, maxKeys: nat): set<string> {
    Ips(Live(Stored(table, m), m.swept - HOUR)) - Ips(Record(table, m, maxKeys))
  }

  function Step(s: State, m: Miss, maxKeys: nat): State {
    State(Record(s.table, m, maxKeys), s.log + [m], m.swept, s.shed + Shed(s.table, m, maxKeys))
  }

  function Start(clock: int): State { State([], [], clock, {}) }

  function Run(clock: int, misses: seq<Miss>, maxKeys: nat): State
    decreases |misses|
  {
    if misses == [] then Start(clock)
    else Step(Run(clock, misses[..|misses| - 1], maxKeys), misses[|misses| - 1], maxKeys)
  }

  predicate Timely(from: int, m: Miss) { from <= m.looked <= m.at <= m.swept }

  /** The clock never runs back, from one wrong code to the next or while one is recorded. */
  ghost predicate Ordered(clock: int, misses: seq<Miss>) {
    forall i :: 0 <= i < |misses| ==> Timely(Before(clock, misses, i), misses[i])
  }

  function Before(clock: int, misses: seq<Miss>, i: nat): int
    requires i <= |misses|
  {
    if i == 0 then clock else misses[i - 1].swept
  }

  // ---- filtering by time -----------------------------------------------------------------------

  lemma {:induction false} SinceConcat(a: seq<int>, b: seq<int>, cutoff: int)
    ensures Since(a + b, cutoff) == Since(a, cutoff) + Since(b, cutoff)
  {
    if a == [] {
      assert a + b == b;
    } else {
      assert (a + b)[1..] == a[1..] + b;
      SinceConcat(a[1..], b, cutoff);
    }
  }

  /** An older cut first changes nothing for a newer one. */
  lemma {:induction false} SinceTwice(times: seq<int>, early: int, late: int)
    requires early <= late
    ensures Since(Since(times, early), late) == Since(times, late)
  {
    if times != [] {
      SinceTwice(times[1..], early, late);
      SinceConcat(if times[0] > early then [times[0]] else [], Since(times[1..], early), late);
    }
  }

  lemma {:induction false} SinceElements(times: seq<int>, cutoff: int)
    ensures forall t :: t in Since(times, cutoff) <==> t in times && t > cutoff
  {
    if times != [] { SinceElements(times[1..], cutoff); }
  }

  // ---- the table -------------------------------------------------------------------------------

  ghost predicate IpsApart(table: seq<Hits>) {
    forall i, j :: 0 <= i < j < |table| ==> table[i].ip != table[j].ip
  }

  lemma TimesOf(table: seq<Hits>, h: Hits)
    requires IpsApart(table) && h in table
    ensures Times(table, h.ip) == h.times
  {
    var k :| 0 <= k < |table| && table[k] == h;
    var i := Find(table, h.ip);
    assert !(i < k) && !(k < i);
  }

  lemma TimesOfNone(table: seq<Hits>, ip: string)
    requires forall h :: h in table ==> h.ip != ip
    ensures Times(table, ip) == []
  {
    forall k | 0 <= k < |table| ensures table[k].ip != ip { assert table[k] in table; }
  }

  lemma PutTimes(table: seq<Hits>, ip: string, times: seq<int>)
    requires IpsApart(table)
    ensures IpsApart(Put(table, ip, times))
    ensures forall x :: Times(Put(table, ip, times), x) == if x == ip then times else Times(table, x)
  {
    var put := Put(table, ip, times);
    var i := Find(table, ip);
    forall x ensures Times(put, x) == if x == ip then times else Times(table, x) {
      if x == ip {
        assert put[i] in put;
        TimesOf(put, put[i]);
      } else if Find(table, x) < |table| {
        var k := Find(table, x);
        assert put[k] == table[k] && put[k] in put;
        TimesOf(put, put[k]);
      } else {
        forall h | h in put ensures h.ip != x { var k :| 0 <= k < |put| && put[k] == h; }
        TimesOfNone(put, x);
      }
    }
  }

  lemma {:induction false} LiveEntries(table: seq<Hits>, cutoff: int)
    requires IpsApart(table)
    ensures IpsApart(Live(table, cutoff)) && |Live(table, cutoff)| <= |table|
    ensures forall h :: h in Live(table, cutoff) ==>
              h.times != [] && exists g :: g in table && g.ip == h.ip && h.times == Since(g.times, cutoff)
    ensures forall g :: g in table && Since(g.times, cutoff) != [] ==>
              Hits(g.ip, Since(g.times, cutoff)) in Live(table, cutoff)
  {
    if table != [] {
      var rest := table[1..];
      forall i, j | 0 <= i < j < |rest| ensures rest[i].ip != rest[j].ip { assert table[i + 1].ip != table[j + 1].ip; }
      LiveEntries(rest, cutoff);
      forall h | h in Live(rest, cutoff) ensures h.ip != table[0].ip {
        var g :| g in rest && g.ip == h.ip;
        var k :| 0 <= k < |rest| && rest[k] == g;
        assert table[0].ip != table[k + 1].ip;
      }
    }
  }

  lemma LiveTimes(table: seq<Hits>, cutoff: int, x: string)
    requires IpsApart(table)
    ensures Times(Live(table, cutoff), x) == Since(Times(table, x), cutoff)
  {
    LiveEntries(table, cutoff);
    var live := Live(table, cutoff);
    var k := Find(table, x);
    if k < |table| && Since(table[k].times, cutoff) != [] {
      TimesOf(live, Hits(x, Since(table[k].times, cutoff)));
    } else {
      forall h | h in live ensures h.ip != x {
        var g :| g in table && g.ip == h.ip && h.times == Since(g.times, cutoff);
        TimesOf(table, g);
      }
      TimesOfNone(live, x);
    }
  }

  lemma KeptTimes(live: seq<Hits>, kept: seq<Hits>, x: string)
    requires IpsApart(live) && IpsApart(kept) && forall h :: h in kept ==> h in live
    ensures Times(kept, x) == if x in Ips(kept) then Times(live, x) else []
  {
    if x in Ips(kept) {
      var h :| h in kept && h.ip == x;
      TimesOf(kept, h);
      TimesOf(live, h);
    } else {
      forall h | h in kept ensures h.ip != x { assert h.ip in Ips(kept); }
      TimesOfNone(kept, x);
    }
  }

  lemma WarmerIsWeakOrder()
    ensures WeakOrder(Warmer())
  {
  }

  /** The address last seen earlier is the colder. */
  ghost predicate NoWarmer(gone: Hits, kept: Hits) {
    gone.times != [] && kept.times != [] ==> gone.times[|gone.times| - 1] <= kept.times[|kept.times| - 1]
  }

  lemma SweepShape(table: seq<Hits>, now: int, maxKeys: nat)
    requires IpsApart(table)
    ensures var out := Sweep(table, now, maxKeys);
            && IpsApart(out) && |out| <= maxKeys && forall h :: h in out ==> h in Live(table, now - HOUR)
  {
    var live, out := Live(table, now - HOUR), Sweep(table, now, maxKeys);
    LiveEntries(table, now - HOUR);
    if |live| > maxKeys {
      WarmerIsWeakOrder();
      DropColdestKeepsWarmest(Warmer(), live, |live| - maxKeys);
      forall i, j | 0 <= i < j < |out| ensures out[i].ip != out[j].ip {
        assert out[i] in live && out[j] in live && out[i] != out[j];
        TimesOf(live, out[i]);
        TimesOf(live, out[j]);
      }
    }
  }

  /** With room for all live addresses none is shed; otherwise as few as must be, and no warmer one than is kept. */
  lemma SweepShedsTheColdest(table: seq<Hits>, now: int, maxKeys: nat)
    requires IpsApart(table)
    ensures var live, out := Live(table, now - HOUR), Sweep(table, now, maxKeys);
            && |out| == (if |live| <= maxKeys then |live| else maxKeys) && (|live| <= maxKeys ==> out == live)
            && forall gone, kept :: gone in live && gone !in out && kept in out ==> NoWarmer(gone, kept)
  {
    LiveEntries(table, now - HOUR);
    CappedShedsTheColdest(Live(table, now - HOUR), maxKeys);
  }

  lemma CappedShedsTheColdest(live: seq<Hits>, maxKeys: nat)
    requires IpsApart(live)
    ensures var out := Capped(live, maxKeys);
            && |out| == (if |live| <= maxKeys then |live| else maxKeys) && (|live| <= maxKeys ==> out == live)
            && forall gone, kept :: gone in live && gone !in out && kept in out ==> NoWarmer(gone, kept)
  {
    if |live| > maxKeys {
      WarmerIsWeakOrder();
      assert Distinct(live);
      DropColdestKeepsWarmest(Warmer(), live, |live| - maxKeys);
      assert forall gone, kept :: !Warmer()(gone, kept) ==> NoWarmer(gone, kept);
    }
  }

  // ---- the refinement --------------------------------------------------------------------------

  function Own(m: Miss, ip: string, now: int): seq<int> { if ip == m.ip then Since([m.at], now - HOUR) else [] }

  lemma LiveRecent(table: seq<Hits>, m: Miss, ip: string, now: int)
    requires IpsApart(table) && m.looked <= now && m.swept <= now
    ensures Recent(Live(Stored(table, m), m.swept - HOUR), ip, now) == Recent(table, ip, now) + Own(m, ip, now)
  {
    var earlier := Recent(table, m.ip, m.looked);
    PutTimes(table, m.ip, earlier + [m.at]);
    LiveTimes(Stored(table, m), m.swept - HOUR, ip);
    SinceTwice(Times(Stored(table, m), ip), m.swept - HOUR, now - HOUR);
    if ip == m.ip {
      SinceConcat(earlier, [m.at], now - HOUR);
      SinceTwice(Times(table, ip), m.looked - HOUR, now - HOUR);
    }
  }

  lemma RecordShape(table: seq<Hits>, m: Miss, maxKeys: nat)
    requires IpsApart(table)
    ensures IpsApart(Live(Stored(table, m), m.swept - HOUR))
    ensures IpsApart(Record(table, m, maxKeys)) && |Record(table, m, maxKeys)| <= maxKeys
    ensures forall h :: h in Record(table, m, maxKeys) ==> h in Live(Stored(table, m), m.swept - HOUR)
  {
    PutTimes(table, m.ip, Recent(table, m.ip, m.looked) + [m.at]);
    LiveEntries(Stored(table, m), m.swept - HOUR);
    SweepShape(Stored(table, m), m.swept, maxKeys);
  }

  /** Eviction drops whole addresses and alters nothing else. */
  lemma RecordRecent(table: seq<Hits>, m: Miss, maxKeys: nat, live: seq<Hits>, after: seq<Hits>, ip: string, now: int)
    requires IpsApart(table) && m.looked <= now && m.swept <= now
    requires live == Live(Stored(table, m), m.swept - HOUR) && after == Record(table, m, maxKeys)
    ensures Recent(after, ip, now) == [] || Recent(after, ip, now) == Recent(table, ip, now) + Own(m, ip, now)
    ensures ip !in Ips(live) - Ips(after) ==> Recent(after, ip, now) == Recent(table, ip, now) + Own(m, ip, now)
  {
    LiveRecent(table, m, ip, now);
    RecordShape(table, m, maxKeys);
    KeptRecent(live, after, ip, now);
  }

  lemma KeptRecent(live: seq<Hits>, kept: seq<Hits>, ip: string, now: int)
    requires IpsApart(live) && IpsApart(kept) && forall h :: h in kept ==> h in live
    ensures Recent(kept, ip, now) == [] || Recent(kept, ip, now) == Recent(live, ip, now)
    ensures ip !in Ips(live) - Ips(kept) ==> Recent(kept, ip, now) == Recent(live, ip, now)
  {
    KeptTimes(live, kept, ip);
    if ip !in Ips(live) {
      forall h | h in live ensures h.ip != ip { assert h.ip in Ips(live); }
      TimesOfNone(live, ip);
    }
  }

  lemma LogGrows(log: seq<Miss>, m: Miss, ip: string, now: int)
    ensures InLastHour(log + [m], ip, now) == InLastHour(log, ip, now) + Own(m, ip, now)
  {
    assert (log + [m])[..|log|] == log;
    SinceConcat(Logged(log, ip), if ip == m.ip then [m.at] else [], now - HOUR);
  }

  /** At any later moment: never more than the log holds, and exactly the log for an address never shed. */
  ghost predicate Agrees(s: State, ip: string, now: int) {
    && |Recent(s.table, ip, now)| <= |InLastHour(s.log, ip, now)|
    && (ip !in s.shed ==> Recent(s.table, ip, now) == InLastHour(s.log, ip, now))
  }

  /** No stored time lies in the future. */
  ghost predicate Past(table: seq<Hits>, clock: int) { forall h, t :: h in table && t in h.times ==> t <= clock }

  ghost predicate AgreesFromNow(s: State) { forall ip, now :: now >= s.clock ==> Agrees(s, ip, now) }

  ghost predicate Good(s: State, maxKeys: nat) {
    && IpsApart(s.table) && |s.table| <= maxKeys && Past(s.table, s.clock) && AgreesFromNow(s)
  }

  lemma AgreesAfter(s: State, m: Miss, after: seq<Hits>, gone: set<string>, ip: string, now: int)
    requires Agrees(s, ip, now)
    requires Recent(after, ip, now) == [] || Recent(after, ip, now) == Recent(s.table, ip, now) + Own(m, ip, now)
    requires ip !in gone ==> Recent(after, ip, now) == Recent(s.table, ip, now) + Own(m, ip, now)
    ensures Agrees(State(after, s.log + [m], m.swept, s.shed + gone), ip, now)
  {
    LogGrows(s.log, m, ip, now);
  }

  lemma StepAgrees(s: State, m: Miss, maxKeys: nat, live: seq<Hits>, after: seq<Hits>, ip: string, now: int)
    requires IpsApart(s.table) && Timely(s.clock, m) && m.swept <= now && Agrees(s, ip, now)
    requires live == Live(Stored(s.table, m), m.swept - HOUR) && after == Record(s.table, m, maxKeys)
    ensures Agrees(State(after, s.log + [m], m.swept, s.shed + (Ips(live) - Ips(after))), ip, now)
  {
    RecordRecent(s.table, m, maxKeys, live, after, ip, now);
    AgreesAfter(s, m, after, Ips(live) - Ips(after), ip, now);
  }

  lemma StoredPast(table: seq<Hits>, clock: int, m: Miss)
    requires IpsApart(table) && Past(table, clock) && Timely(clock, m)
    ensures Past(Stored(table, m), m.at)
  {
    var put := Stored(table, m);
    forall h, t | h in put && t in h.times ensures t <= m.at {
      if h !in table {
        SinceElements(Times(table, m.ip), m.looked - HOUR);
        var i := Find(table, m.ip);
        assert i < |table| ==> table[i] in table;
        assert h == Hits(m.ip, Recent(table, m.ip, m.looked) + [m.at]);
      }
    }
  }

  lemma LivePast(table: seq<Hits>, cutoff: int, clock: int)
    requires IpsApart(table) && Past(table, clock)
    ensures Past(Live(table, cutoff), clock)
  {
    LiveEntries(table, cutoff);
    forall h, t | h in Live(table, cutoff) && t in h.times ensures t <= clock {
      var g :| g in table && g.ip == h.ip && h.times == Since(g.times, cutoff);
      SinceElements(g.times, cutoff);
    }
  }

  lemma RecordPast(table: seq<Hits>, clock: int, m: Miss, maxKeys: nat)
    requires IpsApart(table) && Past(table, clock) && Timely(clock, m)
    ensures Past(Record(table, m, maxKeys), m.swept)
  {
    RecordShape(table, m, maxKeys);
    StoredPast(table, clock, m);
    assert IpsApart(Stored(table, m)) by { PutTimes(table, m.ip, Recent(table, m.ip, m.looked) + [m.at]); }
    LivePast(Stored(table, m), m.swept - HOUR, m.at);
  }

  lemma StepGood(s: State, m: Miss, maxKeys: nat)
    requires Good(s, maxKeys) && Timely(s.clock, m)
    ensures Good(Step(s, m, maxKeys), maxKeys)
  {
    StepKeepsTable(s, m, maxKeys);
    StepKeepsAgreement(s, m, maxKeys);
    GoodTogether(Step(s, m, maxKeys), maxKeys);
  }

  lemma StepKeepsTable(s: State, m: Miss, maxKeys: nat)
    requires IpsApart(s.table) && Past(s.table, s.clock) && Timely(s.clock, m)
    ensures var t := Step(s, m, maxKeys); IpsApart(t.table) && |t.table| <= maxKeys && Past(t.table, t.clock)
  {
    RecordShape(s.table, m, maxKeys);
    RecordPast(s.table, s.clock, m, maxKeys);
  }

  lemma StepKeepsAgreement(s: State, m: Miss, maxKeys: nat)
    requires IpsApart(s.table) && AgreesFromNow(s) && Timely(s.clock, m)
    ensures AgreesFromNow(Step(s, m, maxKeys))
  {
    var live, after := Live(Stored(s.table, m), m.swept - HOUR), Record(s.table, m, maxKeys);
    AllAgree(s, m, maxKeys, live, after);
    StepIs(s, m, maxKeys, live, after);
  }

  lemma StepIs(s: State, m: Miss, maxKeys: nat, live: seq<Hits>, after: seq<Hits>)
    requires live == Live(Stored(s.table, m), m.swept - HOUR) && after == Record(s.table, m, maxKeys)
    ensures Step(s, m, maxKeys) == State(after, s.log + [m], m.swept, s.shed + (Ips(live) - Ips(after)))
  {
  }

  lemma AllAgree(s: State, m: Miss, maxKeys: nat, live: seq<Hits>, after: seq<Hits>)
    requires IpsApart(s.table) && AgreesFromNow(s) && Timely(s.clock, m)
    requires live == Live(Stored(s.table, m), m.swept - HOUR) && after == Record(s.table, m, maxKeys)
    ensures AgreesFromNow(State(after, s.log + [m], m.swept, s.shed + (Ips(live) - Ips(after))))
  {
    var t := State(after, s.log + [m], m.swept, s.shed + (Ips(live) - Ips(after)));
    forall ip, now | now >= t.clock ensures Agrees(t, ip, now) { StepAgrees(s, m, maxKeys, live, after, ip, now); }
  }

  lemma GoodTogether(t: State, maxKeys: nat)
    requires IpsApart(t.table) && |t.table| <= maxKeys && Past(t.table, t.clock) && AgreesFromNow(t)
    ensures Good(t, maxKeys)
  {
  }

  lemma {:induction false} RunClock(clock: int, misses: seq<Miss>, maxKeys: nat)
    ensures Run(clock, misses, maxKeys).clock == if misses == [] then clock else misses[|misses| - 1].swept
    ensures Run(clock, misses, maxKeys).log == misses
  {
    if misses != [] {
      RunClock(clock, misses[..|misses| - 1], maxKeys);
      assert misses == misses[..|misses| - 1] + [misses[|misses| - 1]];
    }
  }

  lemma {:induction false} RunGood(clock: int, misses: seq<Miss>, maxKeys: nat)
    requires Ordered(clock, misses)
    ensures Good(Run(clock, misses, maxKeys), maxKeys)
  {
    if misses != [] {
      var front, m := misses[..|misses| - 1], misses[|misses| - 1];
      forall i | 0 <= i < |front| ensures Timely(Before(clock, front, i), front[i]) {
        assert Timely(Before(clock, misses, i), misses[i]);
      }
      RunGood(clock, front, maxKeys);
      RunClock(clock, front, maxKeys);
      assert Timely(Before(clock, misses, |front|), misses[|front|]);
      StepGood(Run(clock, front, maxKeys), m, maxKeys);
    }
  }

  /** The wrong codes of one address within the hour before `now`. */
  ghost function WithinTheHour(log: seq<Miss>, ip: string, now: int): set<nat> {
    set i: nat | i < |log| && log[i].ip == ip && now - log[i].at < 3600000
  }

  lemma {:induction false} LastHourIsWithinTheHour(log: seq<Miss>, ip: string, now: int)
    ensures |InLastHour(log, ip, now)| == |WithinTheHour(log, ip, now)|
    decreases |log|
  {
    if log != [] {
      var front, m := log[..|log| - 1], log[|log| - 1];
      assert log == front + [m];
      LastHourIsWithinTheHour(front, ip, now);
      LogGrows(front, m, ip, now);
      OwnIsOne(m, ip, now);
      assert WithinTheHour(log, ip, now) == WithinTheHour(front, ip, now)
             + (if m.ip == ip && now - m.at < 3600000 then {|front|} else {});
    }
  }

  lemma OwnIsOne(m: Miss, ip: string, now: int)
    ensures |Own(m, ip, now)| == if m.ip == ip && now - m.at < 3600000 then 1 else 0
  {
    var one := [m.at];
    assert one[1..] == [] && Since(one[1..], now - HOUR) == [];
  }

  /** After any wrong codes, at any later moment: an address is refused only if it has used its allowance in
      the last hour, and always if it has and was never shed. */
  lemma LimitedRefinesTheLog(clock: int, misses: seq<Miss>, maxKeys: nat, perHour: nat, ip: string, now: int)
    requires Ordered(clock, misses)
    requires now >= Run(clock, misses, maxKeys).clock
    ensures var t := Run(clock, misses, maxKeys);
            var refused := |Recent(t.table, ip, now)| >= perHour;
            && (refused ==> |WithinTheHour(misses, ip, now)| >= perHour)
            && (ip !in t.shed ==> (refused <==> |WithinTheHour(misses, ip, now)| >= perHour))
  {
    RunGood(clock, misses, maxKeys);
    RunClock(clock, misses, maxKeys);
    LastHourIsWithinTheHour(misses, ip, now);
    assert Agrees(Run(clock, misses, maxKeys), ip, now);
  }

  // ---- the bound -------------------------------------------------------------------------------

  lemma {:induction false} LiveConcat(a: seq<Hits>, b: seq<Hits>, cutoff: int)
    ensures Live(a + b, cutoff) == Live(a, cutoff) + Live(b, cutoff)
  {
    if a == [] {
      assert a + b == b;
    } else {
      assert (a + b)[1..] == a[1..] + b;
      LiveConcat(a[1..], b, cutoff);
    }
  }

  lemma NewcomerIsLast(table: seq<Hits>, m: Miss)
    requires m.at > m.swept - HOUR && Find(table, m.ip) == |table|
    ensures Live(Stored(table, m), m.swept - HOUR) == Live(table, m.swept - HOUR) + [Hits(m.ip, [m.at])]
  {
    var cutoff, e := m.swept - HOUR, Hits(m.ip, [m.at]);
    assert Recent(table, m.ip, m.looked) + [m.at] == [m.at];
    assert Stored(table, m) == table + [e];
    LiveConcat(table, [e], cutoff);
    assert Live([e], cutoff) == [e] by { assert [e][1..] == [] && Since([m.at], cutoff) == [m.at]; }
  }

  lemma OthersAreOlder(table: seq<Hits>, cutoff: int, clock: int)
    requires IpsApart(table) && Past(table, clock)
    ensures forall h :: h in Live(table, cutoff) ==> LastHit(h) <= clock
  {
    LiveEntries(table, cutoff);
    LivePast(table, cutoff, clock);
    forall h | h in Live(table, cutoff) ensures LastHit(h) <= clock { assert h.times[|h.times| - 1] in h.times; }
  }

  lemma RecordIsCapped(table: seq<Hits>, m: Miss, maxKeys: nat)
    ensures Record(table, m, maxKeys) == Capped(Live(Stored(table, m), m.swept - HOUR), maxKeys)
  {
  }

  lemma NewestIsKept(live: seq<Hits>, front: seq<Hits>, e: Hits, maxKeys: nat)
    requires live == front + [e] && IpsApart(live) && maxKeys >= 1
    requires forall h :: h in front ==> LastHit(h) <= LastHit(e)
    ensures e in Capped(live, maxKeys)
  {
    WarmerIsWeakOrder();
    forall i, j | 0 <= i < j < |live| ensures live[i] != live[j] { assert live[i].ip != live[j].ip; }
    if |live| > maxKeys { DropColdestKeepsNewest(Warmer(), front, e, |live| - maxKeys); }
  }

  lemma NewcomerStays(table: seq<Hits>, clock: int, m: Miss, maxKeys: nat)
    requires IpsApart(table) && Past(table, clock) && maxKeys >= 1 && Timely(clock, m) && m.at > m.swept - HOUR
    requires Find(table, m.ip) == |table|
    ensures m.ip in Ips(Record(table, m, maxKeys))
  {
    var live, front, e := Live(Stored(table, m), m.swept - HOUR), Live(table, m.swept - HOUR), Hits(m.ip, [m.at]);
    OthersAreOlder(table, m.swept - HOUR, clock);
    assert IpsApart(live) by { RecordShape(table, m, maxKeys); }
    NewcomerIsLast(table, m);
    NewestIsKept(live, front, e, maxKeys);
    RecordIsCapped(table, m, maxKeys);
    assert e in Record(table, m, maxKeys) && e.ip == m.ip;
  }

  lemma JustCountedStays(table: seq<Hits>, clock: int, m: Miss, maxKeys: nat)
    requires IpsApart(table) && Past(table, clock) && |table| <= maxKeys && maxKeys >= 1
    requires Timely(clock, m) && m.at > m.swept - HOUR
    ensures m.ip !in Shed(table, m, maxKeys)
  {
    if Find(table, m.ip) == |table| {
      NewcomerStays(table, clock, m, maxKeys);
    } else {
      LiveIsNoLonger(Stored(table, m), m.swept - HOUR);
    }
  }

  /** Memory stays bounded, and the address just counted is never the one forgotten: all it did in the last
      hour, this wrong code included, is still there. */
  lemma MissIsRemembered(clock: int, misses: seq<Miss>, m: Miss, maxKeys: nat)
    requires Ordered(clock, misses) && Timely(Run(clock, misses, maxKeys).clock, m)
    requires m.at > m.swept - HOUR && maxKeys >= 1
    ensures var s, t := Run(clock, misses, maxKeys).table, Run(clock, misses + [m], maxKeys).table;
            && |t| <= maxKeys
            && Recent(t, m.ip, m.swept) == Recent(s, m.ip, m.swept) + [m.at]
  {
    RunGood(clock, misses, maxKeys);
    RunAppend(clock, misses, m, maxKeys);
    var s := Run(clock, misses, maxKeys);
    RecordRemembers(s.table, s.clock, m, maxKeys);
  }

  lemma OwnIsRecent(m: Miss)
    requires m.at > m.swept - HOUR
    ensures Own(m, m.ip, m.swept) == [m.at]
  {
    var one := [m.at];
    assert one[1..] == [] && Since(one[1..], m.swept - HOUR) == [];
    assert one + [] == one;
  }

  lemma RecordRemembers(table: seq<Hits>, clock: int, m: Miss, maxKeys: nat)
    requires IpsApart(table) && Past(table, clock) && |table| <= maxKeys && maxKeys >= 1
    requires Timely(clock, m) && m.at > m.swept - HOUR
    ensures |Record(table, m, maxKeys)| <= maxKeys
    ensures Recent(Record(table, m, maxKeys), m.ip, m.swept) == Recent(table, m.ip, m.swept) + [m.at]
  {
    JustCountedStays(table, clock, m, maxKeys);
    RecordRecent(table, m, maxKeys, Live(Stored(table, m), m.swept - HOUR), Record(table, m, maxKeys), m.ip, m.swept);
    assert |Record(table, m, maxKeys)| <= maxKeys by { RecordShape(table, m, maxKeys); }
    OwnIsRecent(m);
  }

  lemma RunAppend(clock: int, misses: seq<Miss>, m: Miss, maxKeys: nat)
    ensures Run(clock, misses + [m], maxKeys).table == Record(Run(clock, misses, maxKeys).table, m, maxKeys)
  {
    assert (misses + [m])[..|misses|] == misses;
  }

  lemma {:induction false} LiveIsNoLonger(table: seq<Hits>, cutoff: int)
    ensures |Live(table, cutoff)| <= |table|
  {
    if table != [] { LiveIsNoLonger(table[1..], cutoff); }
  }

  // ---- who is shed -----------------------------------------------------------------------------

  ghost function Addresses(misses: seq<Miss>): set<string> { set m | m in misses :: m.ip }

  lemma {:induction false} TableNamesAddresses(clock: int, misses: seq<Miss>, maxKeys: nat)
    ensures IpsApart(Run(clock, misses, maxKeys).table) && Ips(Run(clock, misses, maxKeys).table) <= Addresses(misses)
    decreases |misses|
  {
    if misses != [] {
      var front, m := misses[..|misses| - 1], misses[|misses| - 1];
      assert misses == front + [m];
      TableNamesAddresses(clock, front, maxKeys);
      var table := Run(clock, front, maxKeys).table;
      assert Addresses(misses) == Addresses(front) + {m.ip};
      RecordNames(table, m, maxKeys);
    }
  }

  lemma RecordNames(table: seq<Hits>, m: Miss, maxKeys: nat)
    requires IpsApart(table)
    ensures IpsApart(Record(table, m, maxKeys)) && Ips(Record(table, m, maxKeys)) <= Ips(table) + {m.ip}
  {
    RecordShape(table, m, maxKeys);
    StoredNames(table, m);
    FewerNames(Record(table, m, maxKeys), Live(Stored(table, m), m.swept - HOUR));
  }

  lemma FewerNames(some: seq<Hits>, all: seq<Hits>)
    requires forall h :: h in some ==> h in all
    ensures Ips(some) <= Ips(all)
  {
  }

  lemma StoredNames(table: seq<Hits>, m: Miss)
    requires IpsApart(table)
    ensures Ips(Live(Stored(table, m), m.swept - HOUR)) <= Ips(table) + {m.ip}
  {
    PutTimes(table, m.ip, Recent(table, m.ip, m.looked) + [m.at]);
    LiveEntries(Stored(table, m), m.swept - HOUR);
    forall h | h in Live(Stored(table, m), m.swept - HOUR) ensures h.ip in Ips(table) + {m.ip} {
      var g :| g in Stored(table, m) && g.ip == h.ip;
      if g.ip != m.ip { assert g in table; }
    }
  }

  lemma {:induction false} IpsCount(table: seq<Hits>)
    requires IpsApart(table)
    ensures |Ips(table)| == |table|
  {
    if table != [] {
      var rest := table[1..];
      forall i, j | 0 <= i < j < |rest| ensures rest[i].ip != rest[j].ip { assert table[i + 1].ip != table[j + 1].ip; }
      IpsCount(rest);
      forall k | 0 <= k < |rest| ensures rest[k].ip != table[0].ip { assert table[0].ip != table[k + 1].ip; }
      assert table == [table[0]] + rest;
      assert Ips(table) == Ips(rest) + {table[0].ip};
    }
  }

  /** While no more addresses than the table may hold have sent wrong codes, none is ever forgotten, so the
      throttle and the log agree on every one of them. */
  lemma {:induction false} FewAddressesAreNeverShed(clock: int, misses: seq<Miss>, maxKeys: nat)
    requires |Addresses(misses)| <= maxKeys
    ensures Run(clock, misses, maxKeys).shed == {}
    decreases |misses|
  {
    if misses != [] {
      var front, m := misses[..|misses| - 1], misses[|misses| - 1];
      assert misses == front + [m];
      assert Addresses(misses) == Addresses(front) + {m.ip};
      Fewer(Addresses(front), Addresses(misses));
      FewAddressesAreNeverShed(clock, front, maxKeys);
      TableNamesAddresses(clock, front, maxKeys);
      NoneIsShed(Run(clock, front, maxKeys).table, m, maxKeys, Addresses(misses));
    }
  }

  lemma NoneIsShed(table: seq<Hits>, m: Miss, maxKeys: nat, all: set<string>)
    requires IpsApart(table) && Ips(table) + {m.ip} <= all && |all| <= maxKeys
    ensures Shed(table, m, maxKeys) == {}
  {
    var live := Live(Stored(table, m), m.swept - HOUR);
    RecordShape(table, m, maxKeys);
    StoredNames(table, m);
    IpsCount(live);
    Fewer(Ips(live), all);
  }

  lemma Fewer(a: set<string>, b: set<string>)
    requires a <= b
    ensures |a| <= |b|
  {
    assert b == a + (b - a);
  }

  // ---- the throttle as the relay keeps it ------------------------------------------------------

  class JoinThrottle {
    const perHour: nat
    const maxKeys: nat
    var hits: seq<Hits>
    /** Every wrong code there was, the addresses evicted so far, and whether the clock ever ran back. */
    ghost var log: seq<Miss>
    ghost var clock: int
    ghost var shed: set<string>
    ghost var steady: bool

    ghost function Abs(): State reads this { State(hits, log, clock, shed) }

    ghost predicate Valid() reads this {
      IpsApart(hits) && |hits| <= maxKeys && (steady ==> Good(Abs(), maxKeys))
    }

    constructor (perHour: nat, maxKeys: nat, ghost now: int)
      ensures Valid() && steady && Abs() == Start(now) && this.perHour == perHour && this.maxKeys == maxKeys
    {
      this.perHour, this.maxKeys, hits := perHour, maxKeys, [];
      log, clock, shed, steady := [], now, {}, true;
    }

    /** While the clock has not run back: a refused address has used its allowance of the last hour, and one
        that was never evicted is refused exactly then. */
    function Limited(ip: string, now: int): (refused: bool)
      requires Valid()
      reads this
      ensures steady && now >= clock ==>
                && (refused ==> |WithinTheHour(log, ip, now)| >= perHour)
                && (ip !in shed ==> (refused <==> |WithinTheHour(log, ip, now)| >= perHour))
    {
      assert steady && now >= clock ==> Agrees(Abs(), ip, now);
      LastHourIsWithinTheHour(log, ip, now);
      |Recent(hits, ip, now)| >= perHour
    }

    method RecordMiss(m: Miss)
      requires Valid()
      modifies this
      ensures Valid() && Abs() == Step(old(Abs()), m, maxKeys)
      ensures steady == (old(steady) && Timely(old(clock), m))
    {
      ghost var before := Abs();
      if steady && Timely(clock, m) { StepGood(before, m, maxKeys); }
      PutTimes(hits, m.ip, Recent(hits, m.ip, m.looked) + [m.at]);
      hits := Put(hits, m.ip, Recent(hits, m.ip, m.looked) + [m.at]);
      SweepTable(m.swept);
      steady := steady && Timely(clock, m);
      log, clock, shed := log + [m], m.swept, shed + Shed(before.table, m, maxKeys);
    }

    method SweepTable(now: int)
      requires IpsApart(hits)
      modifies this`hits
      ensures IpsApart(hits) && |hits| <= maxKeys && hits == Sweep(old(hits), now, maxKeys)
    {
      SweepShape(hits, now, maxKeys);
      var cutoff := now - HOUR;
      var stored := hits;
      var rest := stored;
      var live: seq<Hits> := [];
      while rest != []
        invariant live + Live(rest, cutoff) == Live(stored, cutoff)
        decreases |rest|
      {
        var times := Since(rest[0].times, cutoff);
        Associate(live, if times == [] then [] else [Hits(rest[0].ip, times)], Live(rest[1..], cutoff));
        assert live + [] == live;
        if times != [] { live := live + [Hits(rest[0].ip, times)]; }
        rest := rest[1..];
      }
      assert live == Live(stored, cutoff) by { assert live + [] == live; }
      if |live| > maxKeys {
        SameElements(live, Sort(Warmer(), live));
        live := RemoveAll(live, Sort(Warmer(), live)[..|live| - maxKeys]);
      }
      assert live == Capped(Live(stored, cutoff), maxKeys);
      hits := live;
    }
  }
}
