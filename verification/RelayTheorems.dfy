/** The relay's promises, over every run: who hears what, and that chunked messages arrive whole and once. */
module RelayTheorems {
  import opened Collections
  import opened Protocol
  import opened Roster
  import opened RoomHistory
  import opened RelaySpec
  import opened RelayFrames
  import opened RelayInvariants

  /** A state some legal run leads to, from an empty office over backlogs saved earlier. */
  ghost predicate Reachable(rules: TextRules, s: State) {
    exists saved, events :: Filed(saved) && LegalRun(rules, Initial(saved), events)
        && Run(rules, Initial(saved), events) == s
  }

  lemma {:induction false} RunOneMore(rules: TextRules, s: State, events: seq<Event>, e: Event)
    requires LegalRun(rules, s, events) && Legal(Run(rules, s, events), e)
    ensures LegalRun(rules, s, events + [e])
    ensures Run(rules, s, events + [e]) == Step(rules, Run(rules, s, events), e)
    decreases |events|
  {
    if events == [] {
      assert [] + [e] == [e];
      var t := Step(rules, s, e);
      assert LegalRun(rules, t, []) && Run(rules, t, []) == t;
    } else {
      assert (events + [e])[1..] == events[1..] + [e];
      RunOneMore(rules, Step(rules, s, events[0]), events[1..], e);
    }
  }

  lemma ReachableNext(rules: TextRules, s: State, e: Event)
    requires Reachable(rules, s) && Legal(s, e)
    ensures Reachable(rules, Step(rules, s, e))
  {
    var saved, events :| Filed(saved) && LegalRun(rules, Initial(saved), events)
        && Run(rules, Initial(saved), events) == s;
    RunOneMore(rules, Initial(saved), events, e);
    assert Run(rules, Initial(saved), events + [e]) == Step(rules, s, e);
  }

  lemma ReachableHolds(rules: TextRules, s: State)
    requires Reachable(rules, s)
    ensures Inv(rules, s)
  {
    var saved, events :| Filed(saved) && LegalRun(rules, Initial(saved), events)
        && Run(rules, Initial(saved), events) == s;
    InitialHolds(rules, saved);
    RunKeeps(rules, Initial(saved), events);
  }

  /** Backlog coverage, current rosters, no echo and bounded consistent buffers, in every reachable state. */
  lemma EveryReachableState(rules: TextRules, s: State)
    requires Reachable(rules, s)
    ensures Covered(s) && RostersCurrent(s) && NoEcho(s) && OnePerInstance(s.peers)
    ensures Buffers(s) && Window(s) && |s.completed| <= 2048
    ensures forall inst: InstanceId :: |OwnedBy(s.pending, inst)| <= 32
  {
    ReachableHolds(rules, s);
    forall inst: InstanceId ensures |OwnedBy(s.pending, inst)| <= 32 { HeldIsOwned(s, inst); }
  }

  /** The half-sent messages of one instance. */
  ghost function OwnedBy(pending: map<string, Pending>, inst: InstanceId): set<string> {
    set k | k in pending && KeyOwner(k) == inst
  }

  lemma HeldIsOwned(s: State, inst: InstanceId)
    requires Buffers(s)
    ensures Held(s.pending, inst) == |OwnedBy(s.pending, inst)|
  {
    forall k | k in s.pending ensures Prefix(inst) <= k <==> KeyOwner(k) == inst { PrefixMeansOwner(k, inst); }
    assert OwnedBy(s.pending, inst) == set k | k in s.pending && Prefix(inst) <= k;
  }

  // ---- stale connections -----------------------------------------------------------------------

  /** Connections a step leaves are the ones it found, and the one it attached. */
  ghost predicate Known(s: State, e: Event, p: Peer) {
    (e.Attach? && p.conn == e.conn) || exists q :: q in s.peers && q.conn == p.conn
  }

  lemma StepConnections(rules: TextRules, s: State, e: Event)
    requires Legal(s, e)
    ensures forall p :: p in Step(rules, s, e).peers ==> Known(s, e, p)
    ensures s.sent.Keys <= Step(rules, s, e).sent.Keys
  {
    match e
    case Attach(_, _, _, _) =>
    case Detach(_) =>
    case Frame(conn, _, _, _) =>
      if Lookup(s.peers, conn).Some? { FrameConnections(rules, s, Lookup(s.peers, conn).value, e); }
  }

  lemma FrameConnections(rules: TextRules, s: State, p: Peer, e: Event)
    requires e.Frame? && Lookup(s.peers, e.conn) == Some(p)
    ensures var t := FrameStep(rules, s, e.conn, e.frame, e.now, e.id).0;
            (forall q :: q in t.peers ==> Known(s, e, q)) && t.sent.Keys == s.sent.Keys
  {
    match e.frame
    case PresenceFrame(raw, rawDirector) =>
      DeclareConnections(rules, s, p, CleanAgents(rules, raw), CleanDirector(rules, rawDirector), e);
    case ChatFrame(_, _, _, _, _, _, _, _, _) =>
      ChatKeepsPeers(rules, s, p, e.frame, e.now, e.id);
      ChatKeepsConnections(rules, s, p, e.frame, e.now, e.id);
    case Ping =>
    case UnknownFrame =>
  }

  lemma DeclareConnections(rules: TextRules, s: State, p: Peer, agents: seq<Agent>, director: Option<Director>,
          e: Event)
    requires p in s.peers
    ensures var t := Declare(rules, s, p, agents, director);
            (forall q :: q in t.peers ==> Known(s, e, q)) && t.sent.Keys == s.sent.Keys
  {
    var t := Declare(rules, s, p, agents, director);
    ReplaceKnows(s, p.(agents := agents, rooms := RoomsOf(rules, agents, director), director := director), e);
    assert t.sent.Keys == Moved(rules, s, p, agents, director).sent.Keys == s.sent.Keys;
  }

  lemma ReplaceKnows(s: State, p: Peer, e: Event)
    ensures forall q :: q in Replace(s.peers, p) ==> Known(s, e, q)
  {
    var peers := Replace(s.peers, p);
    forall q | q in peers ensures Known(s, e, q) {
      var k :| 0 <= k < |peers| && peers[k] == q;
      assert s.peers[k] in s.peers && s.peers[k].conn == q.conn;
    }
  }

  lemma ChatKeepsConnections(rules: TextRules, s: State, p: Peer, frame: ClientFrame, now: int, id: string)
    requires frame.ChatFrame?
    ensures ChatStep(rules, s, p, frame, now, id).0.sent.Keys == s.sent.Keys
  {
    var d := Decode(rules, p, frame);
    if d.Chunk? { ChunkKeepsConnections(rules, s, p, d, now, id); }
  }

  lemma ChunkKeepsConnections(rules: TextRules, s: State, p: Peer, d: Decoded, now: int, id: string)
    requires d.Chunk? && d.index < d.count
    ensures ChunkStep(rules, s, p, d, now, id).0.sent.Keys == s.sent.Keys
  {
  }

  /** Once a connection is gone it stays gone, so its late events are inert for the rest of the run. */
  lemma {:induction false} GoneStaysGone(rules: TextRules, s: State, conn: string, events: seq<Event>)
    requires LegalRun(rules, s, events) && conn in s.sent && Lookup(s.peers, conn).None?
    ensures Lookup(Run(rules, s, events).peers, conn).None?
    decreases |events|
  {
    if events != [] {
      var t := Step(rules, s, events[0]);
      StepConnections(rules, s, events[0]);
      forall p | p in t.peers ensures p.conn != conn { assert Known(s, events[0], p); }
      assert Lookup(t.peers, conn).None?;
      GoneStaysGone(rules, t, conn, events[1..]);
    }
  }

  /** A connection that closed, or that its instance replaced, is out of the office: after any further run, a
      late close of it or frame from it changes nothing. */
  lemma LateEventsAreInert(rules: TextRules, s: State, p: Peer, e: Event, events: seq<Event>, late: Event)
    requires Reachable(rules, s) && p in s.peers && Legal(s, e) && LegalRun(rules, Step(rules, s, e), events)
    requires e == Detach(p.conn) || (e.Attach? && e.inst == p.inst)
    requires late == Detach(p.conn) || (late.Frame? && late.conn == p.conn)
    ensures var t := Run(rules, Step(rules, s, e), events);
            && Step(rules, t, late) == t
            && (late.Frame? ==>
                  FrameStep(rules, t, p.conn, late.frame, late.now, late.id).1 == Some(UnknownConnection))
  {
    ReachableHolds(rules, s);
    LeavesTheOffice(rules, s, p, e);
    GoneStaysGone(rules, Step(rules, s, e), p.conn, events);
  }

  lemma LeavesTheOffice(rules: TextRules, s: State, p: Peer, e: Event)
    requires Connected(s) && p in s.peers && Legal(s, e)
    requires e == Detach(p.conn) || (e.Attach? && e.inst == p.inst)
    ensures p.conn in Step(rules, s, e).sent && Lookup(Step(rules, s, e).peers, p.conn).None?
  {
    StepConnections(rules, s, e);
    LookupFinds(s.peers, p);
    if e.Attach? { ReplacedIsGone(s, p, e.conn, e.name, e.now); }
  }

  lemma ReplacedIsGone(s: State, p: Peer, conn: string, name: string, now: int)
    requires Connected(s) && p in s.peers && conn !in s.sent
    ensures forall q :: q in AttachStep(s, conn, p.inst, name, now).peers ==> q.conn != p.conn
  {
    forall q | q in WithoutInstance(s.peers, p.inst) ensures q.conn != p.conn {
      if q.conn == p.conn { OnePerInstanceAt(s.peers, p, q); }
    }
  }

  // ---- fan-out ---------------------------------------------------------------------------------

  ghost predicate ShouldHear(peers: seq<Peer>, conn: string, group: seq<string>, sender: InstanceId) {
    exists q, r :: q in peers && q.conn == conn && q.inst != sender && r in group && r in q.rooms
  }

  /** The copy for one peer names the first room of the group that peer is in. */
  ghost predicate IsCopyFor(peers: seq<Peer>, conn: string, group: seq<string>, msg: Chat, frame: ServerFrame) {
    exists q, k :: q in peers && q.conn == conn && 0 <= k < |group| && group[k] in q.rooms
                   && (forall j :: 0 <= j < k ==> group[j] !in q.rooms)
                   && frame == ChatLine(msg.(room := group[k]))
  }

  /** The line a frame becomes: each field from the frame, its sender, the clock or the id source. */
  ghost predicate SpokenBy(rules: TextRules, p: Peer, frame: ClientFrame, body: string, now: int, id: string,
          line: Chat)
    requires frame.ChatFrame?
  {
    && line.id == id && line.at == now && line.body == body && line.room == GroupOf(rules, frame)[0]
    && line.instanceId == p.inst && line.instanceName == p.name
    && Reads(rules, frame.senderName, 40, "agent", line.senderName)
    && Reads(rules, frame.role, 24, "implementor", line.role)
    && Reads(rules, frame.repoLabel, 120, "", if line.repoLabel.Some? then line.repoLabel.value else "")
    && line.repoLabel != Some("")
  }

  /** One line more: on record, filed under every room of its frame's group, and sent to exactly that group. */
  ghost predicate Posts(rules: TextRules, s: State, p: Peer, frame: ClientFrame, key: Option<string>, body: string,
          now: int, id: string, t: State)
    requires frame.ChatFrame?
  {
    exists line :: SpokenBy(rules, p, frame, body, now, id, line) && Reaches(s, GroupOf(rules, frame), key, line, t)
  }

  ghost predicate PostsSome(rules: TextRules, s: State, p: Peer, frame: ClientFrame, key: Option<string>, now: int,
          id: string, t: State)
    requires frame.ChatFrame?
  {
    exists body :: Posts(rules, s, p, frame, key, body, now, id, t)
  }

  ghost predicate Reaches(s: State, group: seq<string>, key: Option<string>, line: Chat, t: State) {
    && t.posted == s.posted + [Posted(key, line)] && t.peers == s.peers && t.sent.Keys == s.sent.Keys
    && (forall c :: c in s.sent ==> Spread(s.peers, s.sent[c], group, line, c, t.sent[c]))
    && IsFiled(s.rooms, group, line, t.rooms)
  }

  ghost predicate SendsNothing(s: State, t: State) {
    t.posted == s.posted && t.sent == s.sent && t.rooms == s.rooms && t.peers == s.peers
  }

  /** What a chat frame does, by its own fields. A whole line is posted, trimmed. A chunk posts nothing, or, as
      the last one missing, the whole message under the name of its id. Any other frame is refused. */
  lemma FanOutIsExact(rules: TextRules, s: State, p: Peer, frame: ClientFrame, now: int, id: string)
    requires OnePerInstance(s.peers) && NamesApart(s.rooms) && frame.ChatFrame?
    ensures var (t, why) := ChatStep(rules, s, p, frame, now, id);
            && (IsLine(rules, p, frame) ==>
                  why.None? && Posts(rules, s, p, frame, None, rules.trim(frame.body.text), now, id, t))
            && (IsChunk(rules, p, frame) ==>
                  || SendsNothing(s, t)
                  || (why.None? && PostsSome(rules, s, p, frame, Some(Key(p.inst, frame.messageId.value)), now, id, t)))
            && (!IsLine(rules, p, frame) && !IsChunk(rules, p, frame) ==> t == s && why.Some?)
  {
    DecodeReadsTheFields(rules, p, frame);
    var d := Decode(rules, p, frame);
    if d.Whole? {
      PostSpreads(rules, s, p, frame, None, d.clean, d.body, now, id);
    } else if d.Chunk? {
      ChunkFansOut(rules, s, p, frame, d, now, id);
    }
  }

  lemma ChunkFansOut(rules: TextRules, s: State, p: Peer, frame: ClientFrame, d: Decoded, now: int, id: string)
    requires OnePerInstance(s.peers) && NamesApart(s.rooms) && frame.ChatFrame?
    requires d.Chunk? && d.index < d.count && SaysOf(rules, frame, d.clean)
    ensures var (t, why) := ChunkStep(rules, s, p, d, now, id);
            || SendsNothing(s, t)
            || (why.None? && PostsSome(rules, s, p, frame, Some(Key(p.inst, d.messageId)), now, id, t))
  {
    var stored, pend := ChunkForms(rules, s, p, d, now, id);
    var key := Key(p.inst, d.messageId);
    if stored && Full(pend.chunks) && rules.trim(Join(pend.chunks)) != "" {
      PostSpreads(rules, Complete(s, key), p, frame, Some(key), d.clean, Join(pend.chunks), now, id);
      var t := Post(Complete(s, key), p, Some(key), d.clean, Join(pend.chunks), now, id);
      PostsOverCompletion(rules, s, p, frame, key, Join(pend.chunks), now, id, t);
    }
  }

  /** Completing touches neither the peers, the frames sent, the lines posted nor the backlogs. */
  lemma PostsOverCompletion(rules: TextRules, s: State, p: Peer, frame: ClientFrame, key: string, body: string,
          now: int, id: string, t: State)
    requires frame.ChatFrame? && Posts(rules, Complete(s, key), p, frame, Some(key), body, now, id, t)
    ensures Posts(rules, s, p, frame, Some(key), body, now, id, t)
  {
    var line :| SpokenBy(rules, p, frame, body, now, id, line)
        && Reaches(Complete(s, key), GroupOf(rules, frame), Some(key), line, t);
    assert Reaches(s, GroupOf(rules, frame), Some(key), line, t);
  }

  ghost predicate Spread(peers: seq<Peer>, before: seq<ServerFrame>, group: seq<string>, msg: Chat, c: string,
          after: seq<ServerFrame>) {
    && (ShouldHear(peers, c, group, msg.instanceId) ==>
          exists f :: after == before + [f] && IsCopyFor(peers, c, group, msg, f))
    && (!ShouldHear(peers, c, group, msg.instanceId) ==> after == before)
  }

  lemma PostSpreads(rules: TextRules, s: State, p: Peer, frame: ClientFrame, key: Option<string>, clean: Clean,
          body: string, now: int, id: string)
    requires OnePerInstance(s.peers) && NamesApart(s.rooms) && frame.ChatFrame? && SaysOf(rules, frame, clean)
    ensures Posts(rules, s, p, frame, key, body, now, id, Post(s, p, key, clean, body, now, id))
  {
    var t, line := Post(s, p, key, clean, body, now, id), LineOf(p, clean, body, now, id);
    assert SpokenBy(rules, p, frame, body, now, id, line);
    GroupIsDistinct(rules, frame);
    FilingIsExact(s.rooms, GroupOf(rules, frame), line);
    forall c | c in s.sent ensures Spread(s.peers, s.sent[c], GroupOf(rules, frame), line, c, t.sent[c]) {
      CopySpreads(s, GroupOf(rules, frame), line, c);
    }
    assert Reaches(s, GroupOf(rules, frame), key, line, t);
  }

  lemma CopySpreads(s: State, group: seq<string>, msg: Chat, c: string)
    requires OnePerInstance(s.peers) && c in s.sent
    ensures Spread(s.peers, s.sent[c], group, msg, c, s.sent[c] + ChatFor(s.peers, c, group, msg))
  {
    var out := ChatFor(s.peers, c, group, msg);
    if out != [] {
      var q := Lookup(s.peers, c).value;
      assert out == [out[0]];
      var k :| 0 <= k < |group| && out[0] == ChatLine(msg.(room := group[k])) && group[k] in q.rooms
               && forall j :: 0 <= j < k ==> group[j] !in q.rooms;
      assert ShouldHear(s.peers, c, group, msg.instanceId) by { assert group[k] in group; }
      assert IsCopyFor(s.peers, c, group, msg, out[0]);
    } else {
      assert s.sent[c] + out == s.sent[c];
      forall q, r | q in s.peers && q.conn == c && q.inst != msg.instanceId && r in group ensures r !in q.rooms {
        LookupFinds(s.peers, q);
      }
    }
  }

  // ---- the directors' room ---------------------------------------------------------------------

  /** Being in the directors' room and having declared a director are the same thing. */
  lemma DirectorsRoomIsOptIn(rules: TextRules, agents: seq<Agent>, director: Option<Director>)
    ensures DIRECTORS_ROOM in RoomsOf(rules, agents, director) <==> director.Some?
  {
    RoomsAreThoseDeclared(rules, agents, director);
    assert OFFICE_ROOM[0] == 'o' && DIRECTORS_ROOM[0] == 'd' && "repo:"[0] == 'r';
  }

  ghost predicate DeclaredDirector(s: State, conn: string) {
    exists p :: p in s.peers && p.conn == conn && p.director.Some?
  }

  /** Frames a step adds to a connection's record. */
  ghost predicate NewFrame(s: State, t: State, c: string, f: ServerFrame) {
    c in t.sent && exists k :: (if c in s.sent then |s.sent[c]| else 0) <= k < |t.sent[c]| && t.sent[c][k] == f
  }

  ghost predicate HasDirectorsLine(f: ServerFrame) {
    exists m :: m in LinesOf(f) && m.room == DIRECTORS_ROOM
  }

  /** A line of the directors' room only ever goes to a connection that has declared a director by then. */
  lemma DirectorsLinesReachDirectors(rules: TextRules, s: State, e: Event, c: string, f: ServerFrame)
    requires Reachable(rules, s) && Legal(s, e)
    requires NewFrame(s, Step(rules, s, e), c, f) && HasDirectorsLine(f)
    ensures DeclaredDirector(Step(rules, s, e), c)
  {
    ReachableHolds(rules, s);
    match e
    case Attach(conn, inst, name, now) =>
      NewByBroadcast(s, Joined(s, conn, inst, name, now), c, f);
      NoDirectorsLineOnJoining(s, conn, inst, name, now, c, f);
    case Detach(conn) =>
      if Lookup(s.peers, conn).Some? { NewByBroadcast(s, Left(s, Lookup(s.peers, conn).value), c, f); }
    case Frame(conn, frame, now, id) =>
      if Lookup(s.peers, conn).Some? { FrameLines(rules, s, Lookup(s.peers, conn).value, e, Step(rules, s, e), c, f); }
  }

  lemma NoDirectorsLineOnJoining(s: State, conn: string, inst: InstanceId, name: string, now: int, c: string,
          f: ServerFrame)
    requires Filed(s.rooms) && conn !in s.sent && HasDirectorsLine(f)
    ensures !NewFrame(s, Joined(s, conn, inst, name, now), c, f)
  {
    var m :| m in LinesOf(f) && m.room == DIRECTORS_ROOM;
    assert OFFICE_ROOM[0] == 'o' && DIRECTORS_ROOM[0] == 'd';
    var j := Joined(s, conn, inst, name, now);
    assert m !in LinesOf(j.sent[conn][0]);
    assert f !in j.sent[conn];
  }

  lemma PongIsNoLine(s: State, conn: string, c: string, f: ServerFrame)
    requires HasDirectorsLine(f)
    ensures !NewFrame(s, s.(sent := SendTo(s.sent, conn, [Pong])), c, f)
  {
    assert LinesOf(Pong) == [];
  }

  lemma FrameLines(rules: TextRules, s: State, p: Peer, e: Event, t: State, c: string, f: ServerFrame)
    requires Connected(s) && RoomsFollow(rules, s) && Filed(s.rooms) && e.Frame? && Lookup(s.peers, e.conn) == Some(p)
    requires t == FrameStep(rules, s, e.conn, e.frame, e.now, e.id).0 && NewFrame(s, t, c, f) && HasDirectorsLine(f)
    ensures DeclaredDirector(t, c)
  {
    match e.frame
    case Ping => PongIsNoLine(s, e.conn, c, f);
    case UnknownFrame =>
    case PresenceFrame(raw, rawDirector) =>
      DeclaredLines(rules, s, p, CleanAgents(rules, raw), CleanDirector(rules, rawDirector), c, f);
    case ChatFrame(_, _, _, _, _, _, _, _, _) =>
      ChatLines(rules, s, p, e.frame, e.now, e.id, c, f);
  }

  lemma NewByBroadcast(s: State, j: State, c: string, f: ServerFrame)
    requires NewFrame(s, Broadcast(j), c, f) && HasDirectorsLine(f)
    ensures NewFrame(s, j, c, f)
  {
    var t := Broadcast(j);
    var extra := PresenceFor(j.peers, c);
    assert t.sent[c] == j.sent[c] + extra;
    assert f !in extra;
    var k :| (if c in s.sent then |s.sent[c]| else 0) <= k < |t.sent[c]| && t.sent[c][k] == f;
    forall i | |j.sent[c]| <= i < |t.sent[c]| ensures t.sent[c][i] != f {
      assert t.sent[c][i] == extra[i - |j.sent[c]|];
    }
    assert j.sent[c][k] == f;
  }

  lemma DeclaredLines(rules: TextRules, s: State, p: Peer, agents: seq<Agent>, director: Option<Director>, c: string,
          f: ServerFrame)
    requires Connected(s) && Filed(s.rooms) && p in s.peers
    requires NewFrame(s, Declare(rules, s, p, agents, director), c, f) && HasDirectorsLine(f)
    ensures DeclaredDirector(Declare(rules, s, p, agents, director), c)
  {
    var j := Moved(rules, s, p, agents, director);
    if Declare(rules, s, p, agents, director) != j { NewByBroadcast(s, j, c, f); }
    MovedLines(rules, s, p, agents, director, c, f);
  }

  lemma MovedLines(rules: TextRules, s: State, p: Peer, agents: seq<Agent>, director: Option<Director>, c: string,
          f: ServerFrame)
    requires Connected(s) && Filed(s.rooms) && p in s.peers
    requires NewFrame(s, Moved(rules, s, p, agents, director), c, f) && HasDirectorsLine(f)
    ensures DeclaredDirector(Moved(rules, s, p, agents, director), c)
  {
    var t := Moved(rules, s, p, agents, director);
    var rooms := RoomsOf(rules, agents, director);
    var q := p.(agents := agents, rooms := rooms, director := director);
    var frames := Backlogs(s.rooms, Entered(rooms, p.rooms), p.inst);
    var k :| |s.sent[c]| <= k < |t.sent[c]| && t.sent[c][k] == f;
    assert c == p.conn && f == frames[k - |s.sent[c]|];
    assert f in frames;
    BacklogOfDirectors(s.rooms, Entered(rooms, p.rooms), p.inst, f);
    DirectorsRoomIsOptIn(rules, agents, director);
    ReplaceKeeps(s, p, q);
  }

  lemma BacklogOfDirectors(rooms: seq<Room>, entered: seq<string>, inst: InstanceId, f: ServerFrame)
    requires Filed(rooms) && f in Backlogs(rooms, entered, inst) && HasDirectorsLine(f)
    ensures DIRECTORS_ROOM in entered
  {
    BacklogsCarry(rooms, entered, inst);
    var m :| m in LinesOf(f) && m.room == DIRECTORS_ROOM;
    assert m in RecentLines(rooms, f.room);
  }

  lemma ChatLines(rules: TextRules, s: State, p: Peer, frame: ClientFrame, now: int, id: string, c: string,
          f: ServerFrame)
    requires Connected(s) && RoomsFollow(rules, s) && Filed(s.rooms) && p in s.peers && frame.ChatFrame?
    requires NewFrame(s, ChatStep(rules, s, p, frame, now, id).0, c, f) && HasDirectorsLine(f)
    ensures DeclaredDirector(ChatStep(rules, s, p, frame, now, id).0, c)
  {
    var t := ChatStep(rules, s, p, frame, now, id).0;
    FanOutIsExact(rules, s, p, frame, now, id);
    if IsLine(rules, p, frame) {
      PostedLines(rules, s, p, frame, None, now, id, t, c, f);
    } else if IsChunk(rules, p, frame) && !SendsNothing(s, t) {
      PostedLines(rules, s, p, frame, Some(Key(p.inst, frame.messageId.value)), now, id, t, c, f);
    }
  }

  lemma PostedLines(rules: TextRules, s: State, p: Peer, frame: ClientFrame, key: Option<string>, now: int, id: string,
          t: State, c: string, f: ServerFrame)
    requires RoomsFollow(rules, s) && frame.ChatFrame? && PostsSome(rules, s, p, frame, key, now, id, t)
    requires NewFrame(s, t, c, f) && HasDirectorsLine(f)
    ensures DeclaredDirector(t, c)
  {
    var body :| Posts(rules, s, p, frame, key, body, now, id, t);
    var line :| SpokenBy(rules, p, frame, body, now, id, line) && Reaches(s, GroupOf(rules, frame), key, line, t);
    CopiedLines(rules, s, t, GroupOf(rules, frame), line, c, f);
  }

  lemma CopiedLines(rules: TextRules, s: State, t: State, group: seq<string>, msg: Chat, c: string, f: ServerFrame)
    requires RoomsFollow(rules, s) && t.peers == s.peers && c in s.sent && c in t.sent
        && Spread(s.peers, s.sent[c], group, msg, c, t.sent[c])
    requires NewFrame(s, t, c, f) && HasDirectorsLine(f)
    ensures DeclaredDirector(t, c)
  {
    var g :| t.sent[c] == s.sent[c] + [g] && IsCopyFor(s.peers, c, group, msg, g);
    assert f == g;
    var q, k :| q in s.peers && q.conn == c && 0 <= k < |group| && group[k] in q.rooms
        && g == ChatLine(msg.(room := group[k]));
    DirectorsRoomIsOptIn(rules, q.agents, q.director);
  }

  lemma ChatKeepsPeers(rules: TextRules, s: State, p: Peer, frame: ClientFrame, now: int, id: string)
    requires frame.ChatFrame?
    ensures var t := ChatStep(rules, s, p, frame, now, id).0;
            t.peers == s.peers && s.finished <= t.finished
  {
    var d := Decode(rules, p, frame);
    if d.Chunk? { ChunkKeepsPeers(rules, s, p, d, now, id); }
  }

  lemma ChunkKeepsPeers(rules: TextRules, s: State, p: Peer, d: Decoded, now: int, id: string)
    requires d.Chunk? && d.index < d.count
    ensures var t := ChunkStep(rules, s, p, d, now, id).0;
            t.peers == s.peers && s.finished <= t.finished
  {
  }

  // ---- a chunked message in transit ------------------------------------------------------------

  /** A chunked message as the relay knows it: who sends it, its id, and the fields its first chunk fixed. */
  datatype Message = Message(conn: string, inst: InstanceId, name: string, id: string, clean: Clean)
  {
    function Key(): string { RelaySpec.Key(inst, id) }
  }

  ghost predicate Sender(m: Message, p: Peer) { p.conn == m.conn && p.inst == m.inst && p.name == m.name }
  ghost predicate Present(s: State, m: Message) { exists p :: p in s.peers && Sender(m, p) }

  function Deliveries(posted: seq<Posted>, key: string): seq<Chat> {
    if posted == [] then []
    else Deliveries(posted[..|posted| - 1], key)
         + (if posted[|posted| - 1].key == Some(key) then [posted[|posted| - 1].msg] else [])
  }

  /** The event is a chunk of this very message, by its own fields. */
  ghost predicate Carries(rules: TextRules, s: State, m: Message, e: Event) {
    && e.Frame? && e.conn == m.conn && Lookup(s.peers, e.conn).Some?
    && IsChunk(rules, Lookup(s.peers, e.conn).value, e.frame) && e.frame.messageId == Some(m.id)
  }

  /** The sender keeps its connection. It may send anything on it, and everyone else is free to do anything. */
  predicate StaysConnected(m: Message, e: Event) {
    !(e.Detach? && e.conn == m.conn) && !(e.Attach? && e.inst == m.inst)
  }

  /** The body goes to the place the frame names, unless one is there already, the frame counts another number
      of places, or it says anything else than the first chunk said. */
  ghost function Put(rules: TextRules, p: Peer, m: Message, chunks: seq<Option<string>>, frame: ClientFrame)
    : (r: seq<Option<string>>)
    requires IsChunk(rules, p, frame)
    ensures |r| == |chunks|
  {
    var i, n := frame.chunkIndex.value.value, frame.chunkCount.value.value;
    if n == |chunks| && SaysOf(rules, frame, m.clean) && chunks[i].None? then chunks[i := Some(frame.body.text)]
    else chunks
  }

  ghost function PutBy(rules: TextRules, s: State, m: Message, chunks: seq<Option<string>>, e: Event)
    : seq<Option<string>>
  {
    if Carries(rules, s, m, e) then Put(rules, Lookup(s.peers, e.conn).value, m, chunks, e.frame) else chunks
  }

  /** The chunks after a run, as the sender's frames alone decide them. */
  ghost function Gathered(rules: TextRules, s: State, m: Message, chunks: seq<Option<string>>,
          events: seq<Event>): seq<Option<string>>
    requires LegalRun(rules, s, events)
    decreases |events|
  {
    if events == [] then chunks
    else Gathered(rules, Step(rules, s, events[0]), m, PutBy(rules, s, m, chunks, events[0]), events[1..])
  }

  /** Exactly these chunks are held. */
  ghost predicate InTransit(s: State, m: Message, chunks: seq<Option<string>>) {
    Present(s, m) && m.Key() in s.pending && s.pending[m.Key()] == Pending(m.clean, chunks)
  }

  ghost predicate Untouched(s: State, t: State, m: Message) {
    && Present(t, m)
    && (m.Key() in t.pending <==> m.Key() in s.pending)
    && (m.Key() in s.pending ==> t.pending[m.Key()] == s.pending[m.Key()])
    && Deliveries(t.posted, m.Key()) == Deliveries(s.posted, m.Key())
  }

  lemma DistinctKeys(inst: InstanceId, id: string, other: InstanceId, otherId: string)
    requires inst != other || id != otherId
    ensures Key(inst, id) != Key(other, otherId)
  {
    KeyNamesItsOwner(inst, id);
    KeyNamesItsOwner(other, otherId);
    assert Key(inst, id)[|inst| + 1..] == id && Key(other, otherId)[|other| + 1..] == otherId;
  }

  lemma DropKeepsOthers(pending: map<string, Pending>, inst: InstanceId, m: Message)
    requires inst != m.inst
    ensures m.Key() in DropPending(pending, inst) <==> m.Key() in pending
    ensures m.Key() in pending ==> DropPending(pending, inst)[m.Key()] == pending[m.Key()]
  {
    PrefixMeansOwner(m.Key(), inst);
    KeyNamesItsOwner(m.inst, m.id);
  }

  lemma OneMorePost(posted: seq<Posted>, p: Posted, key: string)
    ensures Deliveries(posted + [p], key) == Deliveries(posted, key) + (if p.key == Some(key) then [p.msg] else [])
  {
    assert (posted + [p])[..|posted|] == posted;
  }

  lemma PostLeaves(s: State, p: Peer, key: Option<string>, clean: Clean, body: string, now: int, id: string, m: Message)
    requires Present(s, m) && key != Some(m.Key())
    ensures Untouched(s, Post(s, p, key, clean, body, now, id), m)
  {
    OneMorePost(s.posted, Posted(key, LineOf(p, clean, body, now, id)), m.Key());
  }

  lemma UntouchedThrough(s: State, t: State, u: State, m: Message)
    requires Untouched(s, t, m) && Untouched(t, u, m)
    ensures Untouched(s, u, m)
  {
  }

  lemma FilledLeaves(rules: TextRules, s: State, p: Peer, key: string, pend: Pending, now: int, id: string, m: Message)
    requires Present(s, m) && key != m.Key()
    ensures Untouched(s, Filled(rules, s, p, key, pend, now, id).0, m)
  {
    if Full(pend.chunks) {
      var t := Complete(s, key);
      assert Untouched(s, t, m);
      if rules.trim(Join(pend.chunks)) != "" {
        PostLeaves(t, p, Some(key), pend.clean, Join(pend.chunks), now, id, m);
        UntouchedThrough(s, t, Post(t, p, Some(key), pend.clean, Join(pend.chunks), now, id), m);
      }
    }
  }

  lemma ChunkLeaves(rules: TextRules, s: State, p: Peer, d: Decoded, now: int, id: string, m: Message)
    requires d.Chunk? && d.index < d.count && Present(s, m) && (p.inst != m.inst || d.messageId != m.id)
    ensures Untouched(s, ChunkStep(rules, s, p, d, now, id).0, m)
  {
    DistinctKeys(p.inst, d.messageId, m.inst, m.id);
    var key := Key(p.inst, d.messageId);
    var pend := Opened(s, key, d.count, d.clean);
    if |pend.chunks| == d.count {
      FilledLeaves(rules, s, p, key, Pending(pend.clean, pend.chunks[d.index := Some(d.body)]), now, id, m);
    }
  }

  lemma OtherChatLeaves(rules: TextRules, s: State, p: Peer, frame: ClientFrame, now: int, id: string, m: Message)
    requires frame.ChatFrame? && Present(s, m)
    requires Decode(rules, p, frame).Chunk? ==> p.inst != m.inst || Decode(rules, p, frame).messageId != m.id
    ensures Untouched(s, ChatStep(rules, s, p, frame, now, id).0, m)
  {
    var d := Decode(rules, p, frame);
    if d.Whole? {
      PostLeaves(s, p, None, d.clean, d.body, now, id, m);
    } else if d.Chunk? {
      ChunkLeaves(rules, s, p, d, now, id, m);
    }
  }

  lemma OtherFrameLeaves(rules: TextRules, s: State, me: Peer, p: Peer, e: Event, m: Message)
    requires Connected(s) && p in s.peers && me in s.peers && Sender(m, me)
    requires e.Frame? && Lookup(s.peers, e.conn) == Some(p)
    requires !Carries(rules, s, m, e)
    ensures Untouched(s, FrameStep(rules, s, e.conn, e.frame, e.now, e.id).0, m)
  {
    match e.frame
    case Ping =>
      var t := FrameStep(rules, s, e.conn, e.frame, e.now, e.id).0;
      assert me in t.peers;
    case UnknownFrame =>
    case PresenceFrame(raw, rawDirector) =>
      DeclareLeaves(rules, s, me, p, CleanAgents(rules, raw), CleanDirector(rules, rawDirector), m);
    case ChatFrame(_, _, _, _, _, _, _, _, _) =>
      if p.inst == m.inst { OnePerInstanceAt(s.peers, p, me); }
      OtherChatLeaves(rules, s, p, e.frame, e.now, e.id, m);
  }

  lemma DeclareLeaves(rules: TextRules, s: State, me: Peer, p: Peer, agents: seq<Agent>, director: Option<Director>,
          m: Message)
    requires Connected(s) && p in s.peers && me in s.peers && Sender(m, me)
    ensures Untouched(s, Declare(rules, s, p, agents, director), m)
  {
    var q := p.(agents := agents, rooms := RoomsOf(rules, agents, director), director := director);
    ReplaceKeeps(s, p, q);
    if me.conn == p.conn { OnePerInstanceAt(s.peers, me, p); }
    var t := Declare(rules, s, p, agents, director);
    assert t.peers == Replace(s.peers, q) && t.pending == s.pending && t.posted == s.posted;
  }

  lemma OthersLeaveUntouched(rules: TextRules, s: State, m: Message, e: Event)
    requires Reachable(rules, s) && Legal(s, e) && Present(s, m)
    requires StaysConnected(m, e) && !Carries(rules, s, m, e)
    ensures Untouched(s, Step(rules, s, e), m)
  {
    ReachableHolds(rules, s);
    OtherStepLeaves(rules, s, m, e);
  }

  lemma OtherStepLeaves(rules: TextRules, s: State, m: Message, e: Event)
    requires Connected(s) && Legal(s, e) && Present(s, m)
    requires StaysConnected(m, e) && !Carries(rules, s, m, e)
    ensures Untouched(s, Step(rules, s, e), m)
  {
    var me :| me in s.peers && Sender(m, me);
    match e
    case Attach(conn, inst, name, now) =>
      DropKeepsOthers(s.pending, inst, m);
      assert me in WithoutInstance(s.peers, inst);
      var t := Step(rules, s, e);
      assert me in t.peers;
    case Detach(conn) =>
      if Lookup(s.peers, conn).Some? {
        var p := Lookup(s.peers, conn).value;
        if p.inst == m.inst { OnePerInstanceAt(s.peers, p, me); }
        DropKeepsOthers(s.pending, p.inst, m);
        assert me in WithoutConn(s.peers, conn);
        var t := Step(rules, s, e);
        assert me in t.peers;
      }
    case Frame(conn, frame, now, id) =>
      if Lookup(s.peers, conn).Some? { OtherFrameLeaves(rules, s, me, Lookup(s.peers, conn).value, e, m); }
  }

  /** `body` is the chunks in index order, end to end: it can be cut into exactly them. */
  ghost predicate IsJoined(chunks: seq<Option<string>>, body: string) {
    exists cuts :: CutsInto(chunks, body, cuts)
  }

  ghost predicate CutsInto(chunks: seq<Option<string>>, body: string, cuts: seq<nat>) {
    && |cuts| == |chunks| + 1 && cuts[0] == 0 && cuts[|chunks|] == |body|
    && forall i :: 0 <= i < |chunks| ==> Between(chunks[i], body, cuts[i], cuts[i + 1])
  }

  ghost predicate Between(chunk: Option<string>, body: string, from: nat, to: nat) {
    from <= to <= |body| && chunk == Some(body[from..to])
  }

  lemma {:induction false} JoinIsJoined(chunks: seq<Option<string>>)
    requires None !in chunks
    ensures IsJoined(chunks, Join(chunks))
  {
    if chunks == [] {
      assert CutsInto([], "", [0]);
    } else {
      var head, rest := chunks[0].value, Join(chunks[1..]);
      JoinIsJoined(chunks[1..]);
      var cuts :| CutsInto(chunks[1..], rest, cuts);
      var all: seq<nat> := [0] + seq(|cuts|, k requires 0 <= k < |cuts| => cuts[k] + |head|);
      var body := head + rest;
      forall i | 0 <= i < |chunks| ensures Between(chunks[i], body, all[i], all[i + 1]) {
        if i == 0 {
          assert body[0..|head|] == head;
        } else {
          assert Between(chunks[1..][i - 1], rest, cuts[i - 1], cuts[i]);
          assert body[all[i]..all[i + 1]] == rest[cuts[i - 1]..cuts[i]];
        }
      }
      assert CutsInto(chunks, body, all);
    }
  }

  /** The line a completed message becomes. */
  ghost predicate IsWholeMessage(m: Message, body: string, line: Chat) {
    && line.body == body && line.room == m.clean.room && line.instanceId == m.inst && line.instanceName == m.name
    && line.senderName == m.clean.senderName && line.role == m.clean.role && line.repoLabel == m.clean.repoLabel
  }

  /** The joined chunks went out as one line; or, blank, as none. */
  ghost predicate DeliveredOnce(rules: TextRules, before: seq<Chat>, after: seq<Chat>, m: Message,
          chunks: seq<Option<string>>)
  {
    exists body :: IsJoined(chunks, body) && DeliveredAs(rules, before, after, m, body)
  }

  ghost predicate DeliveredAs(rules: TextRules, before: seq<Chat>, after: seq<Chat>, m: Message, body: string) {
    if rules.trim(body) == "" then after == before
    else |after| == |before| + 1 && after[..|before|] == before && IsWholeMessage(m, body, after[|before|])
  }

  /** What a chunk frame does, read through its decoding. */
  function PutDecoded(m: Message, chunks: seq<Option<string>>, d: Decoded): (r: seq<Option<string>>)
    requires d.Chunk? && d.index < d.count
    ensures |r| == |chunks|
  {
    if d.count == |chunks| && d.clean == m.clean && chunks[d.index].None? then chunks[d.index := Some(d.body)]
        else chunks
  }

  lemma CarriedStep(rules: TextRules, s: State, m: Message, e: Event)
    requires Connected(s) && Legal(s, e) && Present(s, m) && Carries(rules, s, m, e)
    ensures var p := Lookup(s.peers, e.conn).value;
            var d := Decode(rules, p, e.frame);
            && p in s.peers && Sender(m, p) && d.Chunk? && d.messageId == m.id
            && FrameStep(rules, s, e.conn, e.frame, e.now, e.id) == ChunkStep(rules, s, p, d, e.now, e.id)
            && Step(rules, s, e) == ChunkStep(rules, s, p, d, e.now, e.id).0
            && forall chunks :: Put(rules, p, m, chunks, e.frame) == PutDecoded(m, chunks, d)
  {
    var p := Lookup(s.peers, e.conn).value;
    var me :| me in s.peers && Sender(m, me);
    OnePerInstanceAt(s.peers, p, me);
    DecodeReadsTheFields(rules, p, e.frame);
  }

  /** One chunk's effect: held while something is missing, the whole line the moment nothing is. */
  ghost predicate ChunkEffect(rules: TextRules, s: State, t: State, m: Message, chunks: seq<Option<string>>, now: int,
          id: string)
  {
    var before, after := Deliveries(s.posted, m.Key()), Deliveries(t.posted, m.Key());
    && Present(t, m)
    && (None in chunks ==> InTransit(t, m, chunks) && t.finished == s.finished && after == before)
    && (None !in chunks ==>
          && t.finished == s.finished + [m.Key()] && DeliveredOnce(rules, before, after, m, chunks)
          && forall k :: |before| <= k < |after| ==> after[k].id == id && after[k].at == now)
  }

  lemma FilledArrives(rules: TextRules, s: State, p: Peer, m: Message, chunks: seq<Option<string>>, now: int,
          id: string)
    requires p in s.peers && Sender(m, p)
    ensures ChunkEffect(rules, s, Filled(rules, s, p, m.Key(), Pending(m.clean, chunks), now, id).0, m, chunks, now, id)
  {
    var t := Filled(rules, s, p, m.Key(), Pending(m.clean, chunks), now, id).0;
    assert t.peers == s.peers;
    if None !in chunks {
      JoinIsJoined(chunks);
      WholeArrives(rules, s, p, m, chunks, now, id);
    } else {
      MissingIsNotFull(chunks);
    }
  }

  lemma WholeArrives(rules: TextRules, s: State, p: Peer, m: Message, chunks: seq<Option<string>>, now: int, id: string)
    requires Sender(m, p) && None !in chunks
    ensures var t := Filled(rules, s, p, m.Key(), Pending(m.clean, chunks), now, id).0;
            var before, after := Deliveries(s.posted, m.Key()), Deliveries(t.posted, m.Key());
            && t.finished == s.finished + [m.Key()] && DeliveredAs(rules, before, after, m, Join(chunks))
            && forall k :: |before| <= k < |after| ==> after[k].id == id && after[k].at == now
  {
    var line := LineOf(p, m.clean, Join(chunks), now, id);
    OneMorePost(s.posted, Posted(Some(m.Key()), line), m.Key());
  }

  lemma MissingIsNotFull(chunks: seq<Option<string>>)
    requires None in chunks
    ensures !Full(chunks)
  {
  }

  lemma ChunkStepArrives(rules: TextRules, s: State, p: Peer, m: Message, chunks: seq<Option<string>>, d: Decoded,
          now: int, id: string)
    requires p in s.peers && Sender(m, p) && InTransit(s, m, chunks) && None in chunks
    requires m.Key() !in s.completed && d.Chunk? && d.index < d.count && d.messageId == m.id
    ensures ChunkEffect(rules, s, ChunkStep(rules, s, p, d, now, id).0, m, PutDecoded(m, chunks, d), now, id)
    ensures PutDecoded(m, chunks, d) == chunks ==> ChunkStep(rules, s, p, d, now, id).0 == s
  {
    if d.count == |chunks| && d.clean == m.clean && (chunks[d.index].None? || chunks[d.index].value == d.body) {
      var put := chunks[d.index := Some(d.body)];
      assert put == PutDecoded(m, chunks, d);
      FilledArrives(rules, s, p, m, put, now, id);
      if put == chunks { MissingIsNotFull(put); }
    }
  }

  /** A chunk of a message under way goes to the place it names, or changes nothing at all. */
  lemma ChunkArrives(rules: TextRules, s: State, m: Message, chunks: seq<Option<string>>, e: Event)
    requires Reachable(rules, s) && Legal(s, e) && InTransit(s, m, chunks) && None in chunks && Carries(rules, s, m, e)
    ensures ChunkEffect(rules, s, Step(rules, s, e), m, PutBy(rules, s, m, chunks, e), e.now, e.id)
    ensures PutBy(rules, s, m, chunks, e) == chunks ==> Step(rules, s, e) == s
  {
    ReachableHolds(rules, s);
    CarriedStep(rules, s, m, e);
    var p := Lookup(s.peers, e.conn).value;
    ChunkStepArrives(rules, s, p, m, chunks, Decode(rules, p, e.frame), e.now, e.id);
  }

  lemma StepGrows(rules: TextRules, s: State, e: Event)
    requires Legal(s, e)
    ensures s.finished <= Step(rules, s, e).finished
  {
    if e.Frame? && Lookup(s.peers, e.conn).Some? && e.frame.ChatFrame? {
      ChatKeepsPeers(rules, s, Lookup(s.peers, e.conn).value, e.frame, e.now, e.id);
    } else {
      OthersFinishNothing(rules, s, e);
    }
  }

  lemma OthersFinishNothing(rules: TextRules, s: State, e: Event)
    requires Legal(s, e) && !(e.Frame? && Lookup(s.peers, e.conn).Some? && e.frame.ChatFrame?)
    ensures Step(rules, s, e).finished == s.finished && Step(rules, s, e).posted == s.posted
  {
    match e
    case Attach(conn, inst, name, now) => AttachFinishesNothing(s, conn, inst, name, now);
    case Detach(_) =>
    case Frame(conn, frame, _, _) =>
      if Lookup(s.peers, conn).Some? && frame.PresenceFrame? {
        PresenceFinishesNothing(rules, s, Lookup(s.peers, conn).value, frame);
      }
  }

  lemma AttachFinishesNothing(s: State, conn: string, inst: InstanceId, name: string, now: int)
    ensures var t := AttachStep(s, conn, inst, name, now); t.finished == s.finished && t.posted == s.posted
  {
  }

  lemma PresenceFinishesNothing(rules: TextRules, s: State, p: Peer, frame: ClientFrame)
    requires frame.PresenceFrame?
    ensures var t := PresenceStep(rules, s, p, frame); t.finished == s.finished && t.posted == s.posted
  {
  }

  lemma {:induction false} FinishedGrows(rules: TextRules, s: State, events: seq<Event>)
    requires LegalRun(rules, s, events)
    ensures s.finished <= Run(rules, s, events).finished
    decreases |events|
  {
    if events != [] {
      StepGrows(rules, s, events[0]);
      FinishedGrows(rules, Step(rules, s, events[0]), events[1..]);
    }
  }

  lemma StillCompleted(s: State, key: string, at: nat)
    requires Window(s) && at < |s.finished| <= at + COMPLETED_CHAT_IDS && s.finished[at] == key
    ensures key in s.completed
  {
    assert s.completed[at - (|s.finished| - |s.completed|)] == key;
  }

  lemma PostDelivers(s: State, p: Peer, k: Option<string>, clean: Clean, body: string, now: int, id: string,
          key: string)
    requires k != Some(key)
    ensures Deliveries(Post(s, p, k, clean, body, now, id).posted, key) == Deliveries(s.posted, key)
  {
    OneMorePost(s.posted, Posted(k, LineOf(p, clean, body, now, id)), key);
  }

  lemma FilledDelivers(rules: TextRules, s: State, p: Peer, k: string, pend: Pending, now: int, id: string, key: string)
    requires k != key
    ensures Deliveries(Filled(rules, s, p, k, pend, now, id).0.posted, key) == Deliveries(s.posted, key)
  {
    PostDelivers(Complete(s, k), p, Some(k), pend.clean, Join(pend.chunks), now, id, key);
  }

  lemma CompletedStaysSilent(rules: TextRules, s: State, key: string, e: Event)
    requires Legal(s, e) && key in s.completed
    ensures Deliveries(Step(rules, s, e).posted, key) == Deliveries(s.posted, key)
  {
    if e.Frame? && Lookup(s.peers, e.conn).Some? && e.frame.ChatFrame? {
      var p := Lookup(s.peers, e.conn).value;
      match Decode(rules, p, e.frame)
      case Refused(_) =>
      case Whole(clean, body) => PostDelivers(s, p, None, clean, body, e.now, e.id, key);
      case Chunk(_, _, _, _, _) => ChunkDelivers(rules, s, p, Decode(rules, p, e.frame), e.now, e.id, key);
    } else {
      OthersFinishNothing(rules, s, e);
    }
  }

  lemma ChunkDelivers(rules: TextRules, s: State, p: Peer, d: Decoded, now: int, id: string, key: string)
    requires d.Chunk? && d.index < d.count && key in s.completed
    ensures Deliveries(ChunkStep(rules, s, p, d, now, id).0.posted, key) == Deliveries(s.posted, key)
  {
    var k := Key(p.inst, d.messageId);
    var pend := Opened(s, k, d.count, d.clean);
    if k !in s.completed && |pend.chunks| == d.count {
      FilledDelivers(rules, s, p, k, Pending(pend.clean, pend.chunks[d.index := Some(d.body)]), now, id, key);
    }
  }

  /** An id that completed delivers nothing more, from any connection, whoever replaces whom and whatever is
      sent under it, until 2048 further chunked messages have completed. */
  lemma {:induction false} NeverTwiceEver(rules: TextRules, s: State, key: string, at: nat, events: seq<Event>)
    requires Reachable(rules, s) && LegalRun(rules, s, events)
    requires at < |s.finished| && s.finished[at] == key
    requires |Run(rules, s, events).finished| <= at + 2048
    ensures Deliveries(Run(rules, s, events).posted, key) == Deliveries(s.posted, key)
    decreases |events|
  {
    if events != [] {
      var e, t := events[0], Step(rules, s, events[0]);
      ReachableNext(rules, s, e);
      FinishedGrows(rules, s, events);
      FinishedGrows(rules, t, events[1..]);
      StepGrows(rules, s, e);
      CompletedIsRemembered(rules, s, key, at);
      CompletedStaysSilent(rules, s, key, e);
      NeverTwiceEver(rules, t, key, at, events[1..]);
    }
  }

  lemma CompletedIsRemembered(rules: TextRules, s: State, key: string, at: nat)
    requires Reachable(rules, s) && at < |s.finished| <= at + COMPLETED_CHAT_IDS && s.finished[at] == key
    ensures key in s.completed
  {
    ReachableHolds(rules, s);
    StillCompleted(s, key, at);
  }

  /** Where a message stands once these chunks have come in. */
  ghost predicate Standing(rules: TextRules, s: State, t: State, m: Message, chunks: seq<Option<string>>) {
    && (None in chunks ==> InTransit(t, m, chunks) && Deliveries(t.posted, m.Key()) == Deliveries(s.posted, m.Key()))
    && (None !in chunks ==>
          DeliveredOnce(rules, Deliveries(s.posted, m.Key()), Deliveries(t.posted, m.Key()), m, chunks))
  }

  ghost predicate Sends(m: Message, events: seq<Event>) { forall e :: e in events ==> StaysConnected(m, e) }

  /** A chunked message under way, followed through any run its sender stays connected for: whatever the
      sender repeats or changes and however others interleave, nothing is delivered until the last missing
      index arrives; then one line is, its body the first chunk to arrive at each index, joined in index
      order; and nothing delivers it again while the run completes at most 2048 chunked messages. */
  lemma {:induction false} ReassemblyIsExact(rules: TextRules, s: State, m: Message, chunks: seq<Option<string>>,
          events: seq<Event>)
    requires Reachable(rules, s) && LegalRun(rules, s, events) && Sends(m, events)
    requires InTransit(s, m, chunks) && None in chunks
    requires |Run(rules, s, events).finished| <= |s.finished| + 2048
    ensures Standing(rules, s, Run(rules, s, events), m, Gathered(rules, s, m, chunks, events))
    decreases |events|, 1
  {
    if events != [] {
      assert events[0] in events;
      if Carries(rules, s, m, events[0]) {
        OwnChunkFirst(rules, s, m, chunks, events);
      } else {
        OthersFirst(rules, s, m, chunks, events);
      }
    }
  }

  lemma {:induction false} OwnChunkFirst(rules: TextRules, s: State, m: Message, chunks: seq<Option<string>>,
          events: seq<Event>)
    requires Reachable(rules, s) && LegalRun(rules, s, events) && Sends(m, events)
    requires InTransit(s, m, chunks) && None in chunks && events != [] && Carries(rules, s, m, events[0])
    requires |Run(rules, s, events).finished| <= |s.finished| + 2048
    ensures Standing(rules, s, Run(rules, s, events), m, Gathered(rules, s, m, chunks, events))
    decreases |events|, 0
  {
    ReachableNext(rules, s, events[0]);
    ChunkArrives(rules, s, m, chunks, events[0]);
    AfterOwnChunk(rules, s, Step(rules, s, events[0]), m, PutBy(rules, s, m, chunks, events[0]), events[1..]);
  }

  lemma {:induction false} OthersFirst(rules: TextRules, s: State, m: Message, chunks: seq<Option<string>>,
          events: seq<Event>)
    requires Reachable(rules, s) && LegalRun(rules, s, events) && Sends(m, events)
    requires InTransit(s, m, chunks) && None in chunks && events != [] && !Carries(rules, s, m, events[0])
    requires |Run(rules, s, events).finished| <= |s.finished| + 2048
    ensures Standing(rules, s, Run(rules, s, events), m, Gathered(rules, s, m, chunks, events))
    decreases |events|, 0
  {
    var t := Step(rules, s, events[0]);
    ReachableNext(rules, s, events[0]);
    StepGrows(rules, s, events[0]);
    assert events[0] in events;
    OthersLeaveUntouched(rules, s, m, events[0]);
    ReassemblyIsExact(rules, t, m, chunks, events[1..]);
    StandingFrom(rules, s, t, Run(rules, t, events[1..]), m, Gathered(rules, t, m, chunks, events[1..]));
  }

  lemma {:induction false} AfterOwnChunk(rules: TextRules, s: State, t: State, m: Message, chunks: seq<Option<string>>,
          rest: seq<Event>)
    requires Reachable(rules, t) && LegalRun(rules, t, rest) && Sends(m, rest)
    requires exists now, id :: ChunkEffect(rules, s, t, m, chunks, now, id)
    requires |Run(rules, t, rest).finished| <= |s.finished| + COMPLETED_CHAT_IDS
    ensures Standing(rules, s, Run(rules, t, rest), m, Gathered(rules, t, m, chunks, rest))
    decreases |rest|, 2
  {
    if None !in chunks {
      NeverTwiceEver(rules, t, m.Key(), |s.finished|, rest);
      FullStaysFull(rules, t, m, chunks, rest);
    } else {
      ReassemblyIsExact(rules, t, m, chunks, rest);
      StandingFrom(rules, s, t, Run(rules, t, rest), m, Gathered(rules, t, m, chunks, rest));
    }
  }

  lemma StandingFrom(rules: TextRules, s: State, mid: State, t: State, m: Message, chunks: seq<Option<string>>)
    requires Standing(rules, mid, t, m, chunks) && Deliveries(mid.posted, m.Key()) == Deliveries(s.posted, m.Key())
    ensures Standing(rules, s, t, m, chunks)
  {
  }

  lemma {:induction false} FullStaysFull(rules: TextRules, s: State, m: Message, chunks: seq<Option<string>>,
          events: seq<Event>)
    requires LegalRun(rules, s, events) && None !in chunks
    ensures Gathered(rules, s, m, chunks, events) == chunks
    decreases |events|
  {
    if events != [] { FullStaysFull(rules, Step(rules, s, events[0]), m, chunks, events[1..]); }
  }

  function Nothing(count: nat): seq<Option<string>> { seq(count, _ => None) }

  /** The first chunk of an unknown id opens its buffer, unless the sender already has 32 open. */
  lemma FirstChunkOpens(rules: TextRules, s: State, m: Message, e: Event)
    requires Reachable(rules, s) && Legal(s, e) && Present(s, m) && Carries(rules, s, m, e)
    requires m.Key() !in s.pending && m.Key() !in s.completed && SaysOf(rules, e.frame, m.clean)
    ensures var i, n := e.frame.chunkIndex.value.value, e.frame.chunkCount.value.value;
            var begun := Nothing(n)[i := Some(e.frame.body.text)];
            if |OwnedBy(s.pending, m.inst)| < 32 then InTransit(Step(rules, s, e), m, begun) && None in begun
            else FrameStep(rules, s, e.conn, e.frame, e.now, e.id) == (s, Some(TooManyPending))
  {
    ReachableHolds(rules, s);
    HeldIsOwned(s, m.inst);
    CarriedStep(rules, s, m, e);
    var p := Lookup(s.peers, e.conn).value;
    DecodeReadsTheFields(rules, p, e.frame);
    OpeningChunk(rules, s, p, m, Decode(rules, p, e.frame), e.now, e.id);
  }

  lemma OpeningChunk(rules: TextRules, s: State, p: Peer, m: Message, d: Decoded, now: int, id: string)
    requires p in s.peers && Sender(m, p)
    requires m.Key() !in s.pending && m.Key() !in s.completed
    requires d.Chunk? && d.index < d.count && 2 <= d.count && d.messageId == m.id && d.clean == m.clean
    ensures var begun := Nothing(d.count)[d.index := Some(d.body)];
            if Held(s.pending, m.inst) < MAX_PENDING_CHAT
                then InTransit(ChunkStep(rules, s, p, d, now, id).0, m, begun) && None in begun
            else ChunkStep(rules, s, p, d, now, id) == (s, Some(TooManyPending))
  {
    var begun := Nothing(d.count)[d.index := Some(d.body)];
    assert begun == Opened(s, m.Key(), d.count, d.clean).chunks[d.index := Some(d.body)];
    assert begun[if d.index == 0 then 1 else 0].None?;
    FilledArrives(rules, s, p, m, begun, now, id);
  }
}
