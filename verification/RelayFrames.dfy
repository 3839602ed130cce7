/** What the fields of a raw frame come to mean once the relay has read it (relay/src/core.ts): which frames
    post, which are chunks and of what, and what a presence frame makes of its sender. */
module RelayFrames {
  import opened Collections
  import opened Protocol
  import opened Roster
  import opened RoomHistory
  import opened RelaySpec

  // ---- text fields -----------------------------------------------------------------------------

  /** `out` is the field clipped to n, or the default where that leaves nothing. */
  ghost predicate Reads(rules: TextRules, raw: Raw, n: nat, default: string, out: string) {
    if raw.Text? && rules.clip(raw.text, n) != "" then out == rules.clip(raw.text, n) else out == default
  }

  ghost predicate ReadsLowered(rules: TextRules, raw: Raw, n: nat, out: string) {
    exists text :: Reads(rules, raw, n, "", text) && out == rules.lower(text)
  }

  // ---- lists of names --------------------------------------------------------------------------

  ghost predicate Admissible(c: string, fits: string -> bool, exclude: string) {
    c != "" && c != exclude && fits(c)
  }

  /** `out` are the first eight different admissible candidates, in order; `at` is where each first stands. */
  ghost predicate PicksFirst(candidates: seq<string>, fits: string -> bool, exclude: string, out: seq<string>,
          at: seq<nat>)
  {
    && |at| == |out| <= 8 && Distinct(out)
    && (forall k :: 0 <= k < |at| ==>
          at[k] < |candidates| && out[k] == candidates[at[k]] && Admissible(out[k], fits, exclude))
    && (forall k, l :: 0 <= k < l < |at| ==> at[k] < at[l])
    && (forall i :: 0 <= i < |candidates| && Admissible(candidates[i], fits, exclude) && (|out| == 8 ==> i <= at[7]) ==>
          FoundBy(candidates[i], out, at, i))
  }

  ghost predicate FirstEight(candidates: seq<string>, fits: string -> bool, exclude: string, out: seq<string>) {
    exists at :: PicksFirst(candidates, fits, exclude, out, at)
  }

  ghost predicate FoundBy(c: string, out: seq<string>, at: seq<nat>, i: nat) {
    exists k :: 0 <= k < |at| && k < |out| && at[k] <= i && out[k] == c
  }

  /** The same of the candidates read so far. */
  ghost predicate PickedSoFar(candidates: seq<string>, done: nat, fits: string -> bool, exclude: string,
          out: seq<string>, at: seq<nat>)
  {
    && |at| == |out| < 8 && Distinct(out)
    && (forall k :: 0 <= k < |at| ==>
          at[k] < done <= |candidates| && out[k] == candidates[at[k]] && Admissible(out[k], fits, exclude))
    && (forall k, l :: 0 <= k < l < |at| ==> at[k] < at[l])
    && (forall i :: 0 <= i < done <= |candidates| && Admissible(candidates[i], fits, exclude) ==>
          FoundBy(candidates[i], out, at, i))
  }

  lemma {:induction false} GatherFrom(candidates: seq<string>, done: nat, fits: string -> bool, exclude: string,
          out: seq<string>, at: seq<nat>)
    requires done <= |candidates| && PickedSoFar(candidates, done, fits, exclude, out, at)
    ensures FirstEight(candidates, fits, exclude, Gather(candidates[done..], fits, exclude, out))
    decreases |candidates| - done
  {
    if done == |candidates| {
      assert PicksFirst(candidates, fits, exclude, out, at);
    } else {
      var c := candidates[done];
      assert candidates[done..][1..] == candidates[done + 1..];
      if !Admissible(c, fits, exclude) || c in out {
        assert Gather(candidates[done..], fits, exclude, out) == Gather(candidates[done + 1..], fits, exclude, out);
        SkipOne(candidates, done, fits, exclude, out, at);
        GatherFrom(candidates, done + 1, fits, exclude, out, at);
      } else {
        TakeOne(candidates, done, fits, exclude, out, at);
        if |out| + 1 < 8 {
          GatherFrom(candidates, done + 1, fits, exclude, out + [c], at + [done]);
        } else {
          assert PicksFirst(candidates, fits, exclude, out + [c], at + [done]);
        }
      }
    }
  }

  lemma SkipOne(candidates: seq<string>, done: nat, fits: string -> bool, exclude: string, out: seq<string>,
          at: seq<nat>)
    requires done < |candidates| && PickedSoFar(candidates, done, fits, exclude, out, at)
    requires !Admissible(candidates[done], fits, exclude) || candidates[done] in out
    ensures PickedSoFar(candidates, done + 1, fits, exclude, out, at)
  {
    forall i | 0 <= i < done + 1 && Admissible(candidates[i], fits, exclude)
      ensures FoundBy(candidates[i], out, at, i)
    {
      if i == done { var k :| 0 <= k < |out| && out[k] == candidates[i]; }
    }
  }

  lemma TakeOne(candidates: seq<string>, done: nat, fits: string -> bool, exclude: string, out: seq<string>,
          at: seq<nat>)
    requires done < |candidates| && PickedSoFar(candidates, done, fits, exclude, out, at)
    requires Admissible(candidates[done], fits, exclude) && candidates[done] !in out
    ensures var more, places := out + [candidates[done]], at + [done];
            if |out| == 7 then PicksFirst(candidates, fits, exclude, more, places)
            else PickedSoFar(candidates, done + 1, fits, exclude, more, places)
  {
    var more, places := out + [candidates[done]], at + [done];
    forall i | 0 <= i < done + 1 && Admissible(candidates[i], fits, exclude)
      ensures FoundBy(candidates[i], more, places, i)
    {
      if i == done { assert places[|out|] == i && more[|out|] == candidates[i]; } else {
        StillFound(candidates[i], out, at, i, candidates[done], done);
      }
    }
    assert Distinct(more);
  }

  lemma StillFound(c: string, out: seq<string>, at: seq<nat>, i: nat, next: string, place: nat)
    requires |at| == |out| && FoundBy(c, out, at, i)
    ensures FoundBy(c, out + [next], at + [place], i)
  {
    var k :| 0 <= k < |at| && k < |out| && at[k] <= i && out[k] == c;
    assert (at + [place])[k] <= i && (out + [next])[k] == c;
  }

  /** The loop of cleanRooms and cleanKeys takes the first eight different admissible names and no other. */
  lemma GatherTakesTheFirst(candidates: seq<string>, fits: string -> bool, exclude: string)
    ensures FirstEight(candidates, fits, exclude, Gather(candidates, fits, exclude, []))
  {
    assert candidates[0..] == candidates;
    GatherFrom(candidates, 0, fits, exclude, [], []);
  }

  // ---- chat ------------------------------------------------------------------------------------

  /** The other rooms a line declares: the first eight repository rooms it lists besides its own. */
  ghost predicate ListsRooms(rules: TextRules, raw: RawList, own: string, rooms: seq<string>) {
    if raw.NotAList? then rooms == []
    else exists candidates :: CandidateRooms(rules, raw.items, candidates)
                           && FirstEight(candidates, (r: string) => rules.IsRepoRoom(r), own, rooms)
  }

  ghost predicate CandidateRooms(rules: TextRules, items: seq<Raw>, candidates: seq<string>) {
    |candidates| == |items| && forall i :: 0 <= i < |items| ==> Reads(rules, items[i], 220, "", candidates[i])
  }

  lemma RoomsAreListed(rules: TextRules, raw: RawList, own: string)
    ensures ListsRooms(rules, raw, own, CleanRooms(rules, raw, own))
  {
    if raw.Items? {
      assert CandidateRooms(rules, raw.items, RoomCandidates(rules, raw));
      GatherTakesTheFirst(RoomCandidates(rules, raw), (r: string) => rules.IsRepoRoom(r), own);
    }
  }

  /** The rooms one frame speaks to: its own, then those it declares the same repository. */
  function GroupOf(rules: TextRules, frame: ClientFrame): (group: seq<string>)
    requires frame.ChatFrame?
    ensures group != []
  {
    var room := if frame.room.Text? then rules.clip(frame.room.text, 220) else "";
    if room == "office" || room == "directors" then [room] else [room] + CleanRooms(rules, frame.rooms, room)
  }

  /** What a chat frame says about its line besides the body, field by field. */
  ghost predicate SaysOf(rules: TextRules, frame: ClientFrame, clean: Clean)
    requires frame.ChatFrame?
  {
    && [clean.room] + clean.rooms == GroupOf(rules, frame)
    && Reads(rules, frame.senderName, 40, "agent", clean.senderName)
    && Reads(rules, frame.role, 24, "implementor", clean.role)
    && Reads(rules, frame.repoLabel, 120, "", if clean.repoLabel.Some? then clean.repoLabel.value else "")
    && clean.repoLabel != Some("")
  }

  /** Anyone may post to the office and to a repository's room; to the directors' room, who declared a director. */
  ghost predicate MayPost(rules: TextRules, p: Peer, room: Raw) {
    && room.Text?
    && (var name := rules.clip(room.text, 220);
        || name == "office" || (name == "directors" && p.director.Some?)
        || ("repo:" <= name && rules.roomTail(name[5..])))
  }

  predicate Plain(frame: ClientFrame) {
    frame.ChatFrame? && frame.messageId.None? && frame.chunkIndex.None? && frame.chunkCount.None?
  }

  /** A frame that is a whole line. */
  ghost predicate IsLine(rules: TextRules, p: Peer, frame: ClientFrame) {
    && Plain(frame) && MayPost(rules, p, frame.room)
    && frame.body.Text? && |frame.body.text| <= 2000 && rules.trim(frame.body.text) != ""
  }

  /** A frame that is one chunk of a longer line: the place it names, out of as many as it says. */
  ghost predicate IsChunk(rules: TextRules, p: Peer, frame: ClientFrame) {
    && frame.ChatFrame? && MayPost(rules, p, frame.room)
    && frame.body.Text? && 1 <= |frame.body.text| <= 2000
    && frame.messageId.Some? && rules.messageId(frame.messageId.value)
    && frame.chunkCount.Some? && frame.chunkCount.value.Integer? && 2 <= frame.chunkCount.value.value <= 64
    && frame.chunkIndex.Some? && frame.chunkIndex.value.Integer?
    && 0 <= frame.chunkIndex.value.value < frame.chunkCount.value.value
  }

  lemma MayPostRooms(rules: TextRules, p: Peer, frame: ClientFrame)
    requires frame.ChatFrame?
    ensures var room := rules.Clip(frame.room, 220);
            MayPost(rules, p, frame.room) <==>
              if room == DIRECTORS_ROOM then p.director.Some? else room == OFFICE_ROOM || rules.IsRepoRoom(room)
  {
    assert OFFICE_ROOM[0] == 'o' && DIRECTORS_ROOM[0] == 'd' && "repo:"[0] == 'r';
  }

  lemma CleanSaysSo(rules: TextRules, frame: ClientFrame)
    requires frame.ChatFrame?
    ensures forall clean :: clean == CleanChat(rules, frame, rules.Clip(frame.room, 220)) <==>
              SaysOf(rules, frame, clean)
  {
    var c := CleanChat(rules, frame, rules.Clip(frame.room, 220));
    assert SaysOf(rules, frame, c) by { assert GroupOf(rules, frame) == [c.room] + c.rooms; }
    forall clean | SaysOf(rules, frame, clean) ensures clean == c {
      assert [clean.room] + clean.rooms == [c.room] + c.rooms;
      assert clean.room == ([clean.room] + clean.rooms)[0] && clean.rooms == ([clean.room] + clean.rooms)[1..];
      assert c.rooms == ([c.room] + c.rooms)[1..];
    }
  }

  /** Decoding is reading the fields: what is a line, what is a chunk and of what, and that nothing else is either. */
  lemma DecodeReadsTheFields(rules: TextRules, p: Peer, frame: ClientFrame)
    requires frame.ChatFrame?
    ensures var d := Decode(rules, p, frame);
            && (d.Whole? <==> IsLine(rules, p, frame))
            && (d.Whole? ==> d.body == rules.trim(frame.body.text))
            && (d.Chunk? <==> IsChunk(rules, p, frame))
            && (d.Chunk? ==>
                  && d.messageId == frame.messageId.value && d.body == frame.body.text
                  && d.index == frame.chunkIndex.value.value && d.count == frame.chunkCount.value.value)
            && (!d.Refused? ==> forall clean :: clean == d.clean <==> SaysOf(rules, frame, clean))
  {
    MayPostRooms(rules, p, frame);
    CleanSaysSo(rules, frame);
  }

  // ---- filing ----------------------------------------------------------------------------------

  ghost function Members(group: seq<string>): set<string> { set r | r in group }

  /** A line joins the backlog of every room of its group, stamped with it, and no other backlog changes, as
      long as the office keeps no more than 200 rooms; beyond that rooms may go, but still nothing else comes. */
  ghost predicate IsFiled(rooms: seq<Room>, group: seq<string>, msg: Chat, after: seq<Room>) {
    && (forall r, m :: m in RecentLines(after, r) ==>
          m in RecentLines(rooms, r) || (r in group && m == msg.(room := r)))
    && (|RoomNames(rooms) + Members(group)| <= 200 ==>
          forall r :: RecentLines(after, r) ==
                      if r in group then LastN(RecentLines(rooms, r) + [msg.(room := r)], 60)
                      else RecentLines(rooms, r))
  }

  lemma FilingIsExact(rooms: seq<Room>, group: seq<string>, msg: Chat)
    requires NamesApart(rooms) && Distinct(group)
    ensures NamesApart(FileAll(rooms, group, msg)) && IsFiled(rooms, group, msg, FileAll(rooms, group, msg))
    decreases |group|
  {
    if group != [] {
      var g, line := group[0], msg.(room := group[0]);
      var next := PushLine(rooms, g, line);
      PushKeepsApart(rooms, g, line);
      forall r, m | m in RecentLines(next, r) ensures m in RecentLines(rooms, r) || (r == g && m == line) {
        PushAddsOneLine(rooms, g, line, r, m);
      }
      DistinctTail(group);
      FilingIsExact(next, group[1..], msg);
      if |RoomNames(rooms) + Members(group)| <= 200 { FilingFits(rooms, group, msg); }
    }
  }

  lemma FilingFits(rooms: seq<Room>, group: seq<string>, msg: Chat)
    requires NamesApart(rooms) && Distinct(group) && group != [] && |RoomNames(rooms) + Members(group)| <= 200
    requires IsFiled(PushLine(rooms, group[0], msg.(room := group[0])), group[1..], msg, FileAll(rooms, group, msg))
    ensures forall r :: RecentLines(FileAll(rooms, group, msg), r) ==
                        if r in group then LastN(RecentLines(rooms, r) + [msg.(room := r)], 60)
                        else RecentLines(rooms, r)
  {
    var g, line := group[0], msg.(room := group[0]);
    var next := PushLine(rooms, g, line);
    OneRoomOfTheGroup(RoomNames(rooms), group);
    PushWhereThereIsPlace(rooms, g, line);
    FilingStep(rooms, next, FileAll(rooms, group, msg), group, msg);
  }

  lemma FilingStep(rooms: seq<Room>, next: seq<Room>, after: seq<Room>, group: seq<string>, msg: Chat)
    requires Distinct(group) && group != []
    requires forall r :: RecentLines(next, r) ==
                         if r == group[0] then LastN(RecentLines(rooms, r) + [msg.(room := r)], 60)
                         else RecentLines(rooms, r)
    requires forall r :: RecentLines(after, r) ==
                         if r in group[1..] then LastN(RecentLines(next, r) + [msg.(room := r)], 60)
                         else RecentLines(next, r)
    ensures forall r :: RecentLines(after, r) ==
                        if r in group then LastN(RecentLines(rooms, r) + [msg.(room := r)], 60)
                        else RecentLines(rooms, r)
  {
  }

  lemma OneRoomOfTheGroup(names: set<string>, group: seq<string>)
    requires group != []
    ensures names + {group[0]} + Members(group[1..]) == names + Members(group)
    ensures |names + {group[0]}| <= |names + Members(group)|
  {
    assert group == [group[0]] + group[1..];
    var some, all := names + {group[0]}, names + Members(group);
    assert all == some + Members(group[1..]);
    assert all == some + (all - some);
  }

  lemma GroupIsDistinct(rules: TextRules, frame: ClientFrame)
    requires frame.ChatFrame?
    ensures Distinct(GroupOf(rules, frame))
  {
    var room := if frame.room.Text? then rules.clip(frame.room.text, 220) else "";
    if frame.rooms.Items? {
      GatherTakesTheFirst(RoomCandidates(rules, frame.rooms), (r: string) => rules.IsRepoRoom(r), room);
      FirstEightApart(RoomCandidates(rules, frame.rooms), (r: string) => rules.IsRepoRoom(r), room,
          CleanRooms(rules, frame.rooms, room));
    }
  }

  lemma FirstEightApart(candidates: seq<string>, fits: string -> bool, exclude: string, out: seq<string>)
    requires FirstEight(candidates, fits, exclude, out)
    ensures Distinct([exclude] + out)
  {
    var at :| PicksFirst(candidates, fits, exclude, out, at);
    AllAdmissible(candidates, fits, exclude, out, at);
    OneMoreApart(exclude, out);
  }

  lemma AllAdmissible(candidates: seq<string>, fits: string -> bool, exclude: string, out: seq<string>, at: seq<nat>)
    requires PicksFirst(candidates, fits, exclude, out, at)
    ensures Distinct(out) && exclude !in out
  {
    forall k | 0 <= k < |out| ensures out[k] != exclude { assert Admissible(out[k], fits, exclude); }
  }

  lemma OneMoreApart(x: string, names: seq<string>)
    requires Distinct(names) && x !in names
    ensures Distinct([x] + names)
  {
    var all := [x] + names;
    forall i, j | 0 <= i < j < |all| ensures all[i] != all[j] {
      if i > 0 { assert names[i - 1] != names[j - 1]; }
    }
  }

  // ---- presence --------------------------------------------------------------------------------

  /** The other keys a checkout answers to: the first eight well-formed ones listed besides its own. */
  ghost predicate ListsAliases(rules: TextRules, raw: RawList, own: string, aliases: seq<string>) {
    if raw.NotAList? then aliases == []
    else exists candidates :: CandidateKeys(rules, raw.items, candidates)
                           && FirstEight(candidates, rules.repoKey, own, aliases)
  }

  ghost predicate CandidateKeys(rules: TextRules, items: seq<Raw>, candidates: seq<string>) {
    |candidates| == |items| && forall i :: 0 <= i < |items| ==> ReadsLowered(rules, items[i], 200, candidates[i])
  }

  ghost predicate ReadsAgent(rules: TextRules, raw: RawAgent, a: Agent) {
    && Reads(rules, raw.key, 200, "", a.key) && Reads(rules, raw.name, 40, "agent", a.name)
    && Reads(rules, raw.role, 24, "implementor", a.role) && Reads(rules, raw.title, 160, "", a.title)
    && ReadsLowered(rules, raw.repoKey, 200, a.repoKey) && Reads(rules, raw.repoLabel, 120, "", a.repoLabel)
    && ListsAliases(rules, raw.repoAliases, a.repoKey, a.repoAliases)
  }

  ghost function AgentReading(rules: TextRules): (RawAgent, Agent) -> bool {
    (raw: RawAgent, a: Agent) => ReadsAgent(rules, raw, a)
  }

  /** Rows without a key or without a repository are passed over. */
  ghost function Named(rules: TextRules): RawAgent -> bool {
    (raw: RawAgent) => !Reads(rules, raw.key, 200, "", "") && !ReadsLowered(rules, raw.repoKey, 200, "")
  }

  /** One agent for each named row among the first sixty-four, in order. */
  ghost predicate ListsReported(rules: TextRules, raw: seq<RawAgent>, agents: seq<Agent>) {
    Picks(if |raw| <= 64 then raw else raw[..64], agents, Named(rules), AgentReading(rules))
  }

  lemma AgentIsRead(rules: TextRules, raw: RawAgent)
    ensures ReadsAgent(rules, raw, CleanAgent(rules, raw))
    ensures Named(rules)(raw) <==> CleanAgent(rules, raw).key != "" && CleanAgent(rules, raw).repoKey != ""
  {
    var a := CleanAgent(rules, raw);
    assert Reads(rules, raw.repoKey, 200, "", rules.Clip(raw.repoKey, 200));
    assert ReadsLowered(rules, raw.repoKey, 200, a.repoKey);
    AliasesAreListed(rules, raw.repoAliases, a.repoKey);
  }

  lemma AliasesAreListed(rules: TextRules, raw: RawList, own: string)
    ensures ListsAliases(rules, raw, own, CleanKeys(rules, raw, own))
  {
    if raw.Items? {
      var candidates := KeyCandidates(rules, raw);
      forall i | 0 <= i < |candidates| ensures ReadsLowered(rules, raw.items[i], 200, candidates[i]) {
        assert Reads(rules, raw.items[i], 200, "", rules.Clip(raw.items[i], 200));
      }
      GatherTakesTheFirst(candidates, rules.repoKey, own);
    }
  }

  lemma {:induction false} EachIsRead(rules: TextRules, raw: seq<RawAgent>)
    ensures Picks(raw, CleanEach(rules, raw), Named(rules), AgentReading(rules))
    decreases |raw|
  {
    if raw != [] {
      AgentIsRead(rules, raw[0]);
      EachIsRead(rules, raw[1..]);
      var all, rest := CleanEach(rules, raw), CleanEach(rules, raw[1..]);
      assert all[|all| - |rest|..] == rest;
    }
  }

  lemma ReportIsRead(rules: TextRules, raw: seq<RawAgent>)
    ensures ListsReported(rules, raw, CleanAgents(rules, raw))
  {
    EachIsRead(rules, if |raw| <= 64 then raw else raw[..64]);
  }

  /** A room is entered for every key the agents' checkouts answer to. */
  ghost predicate AnswersTo(agents: seq<Agent>, key: string) {
    exists a :: a in agents && (key == a.repoKey || key in a.repoAliases)
  }

  /** The office, the directors' room for who declared a director, and a room for each well-formed key. */
  ghost predicate BelongsIn(rules: TextRules, agents: seq<Agent>, director: Option<Director>, room: string) {
    || room == "office" || (room == "directors" && director.Some?)
    || ("repo:" <= room && rules.roomTail(room[5..]) && AnswersTo(agents, room[5..]))
  }

  ghost predicate AddsRooms(rules: TextRules, before: seq<string>, keys: set<string>, after: seq<string>) {
    forall r :: r in after <==> r in before || ("repo:" <= r && rules.roomTail(r[5..]) && r[5..] in keys)
  }

  lemma {:induction false} RoomsForKeys(rules: TextRules, rooms: seq<string>, keys: seq<string>)
    requires Distinct(rooms)
    ensures Distinct(AddRooms(rules, rooms, keys))
    ensures AddsRooms(rules, rooms, Members(keys), AddRooms(rules, rooms, keys))
    decreases |keys|
  {
    if keys != [] {
      assert RepoRoom(keys[0])[5..] == keys[0];
      RoomsForKeys(rules, AddRoom(rules, rooms, keys[0]), keys[1..]);
      assert Members(keys) == {keys[0]} + Members(keys[1..]) by { assert keys == [keys[0]] + keys[1..]; }
      forall r | "repo:" <= r && r[5..] == keys[0] ensures r == RepoRoom(keys[0]) { assert r == r[..5] + r[5..]; }
    }
  }

  ghost function KeysOf(agents: seq<Agent>): set<string> {
    (set a | a in agents :: a.repoKey) + (set a, key | a in agents && key in a.repoAliases :: key)
  }

  lemma {:induction false} RoomsForAgents(rules: TextRules, rooms: seq<string>, agents: seq<Agent>)
    requires Distinct(rooms)
    ensures Distinct(AgentRooms(rules, rooms, agents))
    ensures AddsRooms(rules, rooms, KeysOf(agents), AgentRooms(rules, rooms, agents))
    decreases |agents|
  {
    if agents != [] {
      var a := agents[0];
      var next := AddRooms(rules, rooms, AgentKeys(a));
      RoomsForKeys(rules, rooms, AgentKeys(a));
      RoomsForAgents(rules, next, agents[1..]);
      OneMoreAgentsKeys(agents);
    }
  }

  lemma OneMoreAgentsKeys(agents: seq<Agent>)
    requires agents != []
    ensures KeysOf(agents) == Members(AgentKeys(agents[0])) + KeysOf(agents[1..])
  {
    assert agents == [agents[0]] + agents[1..];
  }

  /** Membership is exactly that, each room once. */
  lemma RoomsAreThoseDeclared(rules: TextRules, agents: seq<Agent>, director: Option<Director>)
    ensures Distinct(RoomsOf(rules, agents, director))
    ensures forall room :: room in RoomsOf(rules, agents, director) <==> BelongsIn(rules, agents, director, room)
  {
    var first := [OFFICE_ROOM] + (if director.Some? then [DIRECTORS_ROOM] else []);
    assert OFFICE_ROOM[0] == 'o' && DIRECTORS_ROOM[0] == 'd';
    RoomsForAgents(rules, first, agents);
    forall key ensures key in KeysOf(agents) <==> AnswersTo(agents, key) {}
  }
}
