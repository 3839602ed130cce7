/** Joining, declaring and leaving the office, exactly: who is there afterwards, as what, and what each
    connection is sent on account of it (relay/src/core.ts). */
module RelayOffice {
  import opened Collections
  import opened Protocol
  import opened Roster
  import opened RoomHistory
  import opened RelaySpec
  import opened RelayFrames
  import opened RelayInvariants

  function NotOf(inst: InstanceId): Peer -> bool { (p: Peer) => p.inst != inst }
  function WrittenElsewhere(inst: InstanceId): Chat -> bool { (m: Chat) => m.instanceId != inst }

  /** A room's backlog as one instance may see it: every line of the others, in order. */
  ghost predicate IsBacklog(rooms: seq<Room>, room: string, inst: InstanceId, lines: seq<Chat>) {
    Picks(RecentLines(rooms, room), lines, WrittenElsewhere(inst), Same())
  }

  lemma OthersAreTheBacklog(rooms: seq<Room>, room: string, inst: InstanceId)
    ensures IsBacklog(rooms, room, inst, OthersOnly(RecentLines(rooms, room), inst))
  {
    FilterPicks(WrittenElsewhere(inst), RecentLines(rooms, room));
  }

  /** Half-sent messages of one instance are gone, everyone else's are as they were. */
  ghost predicate ForgetsPending(before: map<string, Pending>, inst: InstanceId, after: map<string, Pending>) {
    && (forall k :: k in after <==> k in before && KeyOwner(k) != inst)
    && (forall k :: k in after ==> after[k] == before[k])
  }

  lemma DroppingForgets(s: State, inst: InstanceId)
    requires Buffers(s)
    ensures ForgetsPending(s.pending, inst, DropPending(s.pending, inst))
  {
    forall k | k in s.pending ensures Prefix(inst) <= k <==> KeyOwner(k) == inst { PrefixMeansOwner(k, inst); }
  }

  /** Nothing but the peers, the half-sent messages and the frames sent has changed. */
  ghost predicate SameRecord(s: State, t: State) {
    t.rooms == s.rooms && t.posted == s.posted && t.completed == s.completed && t.finished == s.finished
  }

  /** Each of these peers is told once who is there now. */
  ghost predicate TellsEach(peers: seq<Peer>, s: State, t: State) {
    forall p :: p in peers ==>
      p.conn in s.sent && p.conn in t.sent && OneTrueFrame(t, p, s.sent[p.conn], t.sent[p.conn])
  }

  // ---- joining ---------------------------------------------------------------------------------

  ghost predicate IsWelcome(s: State, t: State, inst: InstanceId, name: string, f: ServerFrame) {
    && f.Welcome? && f.protocol == 1 && f.instanceId == inst && f.instanceName == name
    && ListsAgents(t.peers, inst, f.presence) && ListsDirectors(t.peers, inst, f.directors)
    && IsBacklog(s.rooms, "office", inst, f.recent)
  }

  /** A newcomer comes last, in the office alone, with nothing reported; an older connection of its instance goes,
      and its half-sent messages with it. It is welcomed with the office as it is, then everyone is told. */
  lemma AttachWelcomes(rules: TextRules, s: State, conn: string, inst: InstanceId, name: string, now: int)
    requires Inv(rules, s) && conn !in s.sent
    ensures var t := AttachStep(s, conn, inst, name, now);
            var others := t.peers[..|t.peers| - 1];
            && t.peers == others + [Peer(conn, inst, name, [], ["office"], None, now)]
            && Picks(s.peers, others, NotOf(inst), Same()) && TellsEach(others, s, t)
            && Welcomed(s, t, t.peers[|t.peers| - 1])
            && ForgetsPending(s.pending, inst, t.pending) && SameRecord(s, t)
  {
    var j := Joined(s, conn, inst, name, now);
    var others := WithoutInstance(s.peers, inst);
    FilterPicks(NotOf(inst), s.peers);
    assert j.peers[..|j.peers| - 1] == others;
    JoiningForgets(s, conn, inst, name, now);
    JoiningTells(rules, s, conn, inst, name, now);
  }

  /** Two frames: the welcome, and the presence of the broadcast that follows. */
  ghost predicate Welcomed(s: State, t: State, p: Peer) {
    && p.conn in t.sent && |t.sent[p.conn]| == 2 && IsWelcome(s, t, p.inst, p.name, t.sent[p.conn][0])
    && OneTrueFrame(t, p, [t.sent[p.conn][0]], t.sent[p.conn])
  }

  lemma JoiningTells(rules: TextRules, s: State, conn: string, inst: InstanceId, name: string, now: int)
    requires Connected(s) && RoomsFollow(rules, s) && conn !in s.sent
    ensures var t := AttachStep(s, conn, inst, name, now);
            TellsEach(WithoutInstance(s.peers, inst), s, t) && Welcomed(s, t, t.peers[|t.peers| - 1])
  {
    var j := Joined(s, conn, inst, name, now);
    JoinedConnected(rules, s, conn, inst, name, now);
    BroadcastMakesCurrent(j);
    OthersAreTold(s, j, WithoutInstance(s.peers, inst), conn);
    NewcomerIsTold(s, j, j.peers[|j.peers| - 1], now);
  }

  lemma NewcomerIsTold(s: State, j: State, p: Peer, now: int)
    requires j == Joined(s, p.conn, p.inst, p.name, now) && p == j.peers[|j.peers| - 1]
    requires OneTrueFrame(j, p, j.sent[p.conn], Broadcast(j).sent[p.conn])
    ensures Welcomed(s, Broadcast(j), p)
  {
    RosterListsAgents(j.peers, p.inst);
    DirectorsListDirectors(j.peers, p.inst);
    OthersAreTheBacklog(s.rooms, OFFICE_ROOM, p.inst);
    assert j.sent[p.conn] == [j.sent[p.conn][0]];
    assert Broadcast(j).sent[p.conn][..1] == j.sent[p.conn];
  }

  lemma JoiningForgets(s: State, conn: string, inst: InstanceId, name: string, now: int)
    requires Buffers(s)
    ensures ForgetsPending(s.pending, inst, Joined(s, conn, inst, name, now).pending)
  {
    DroppingForgets(s, inst);
    FilterDropsSome((q: Peer) => q.inst != inst, s.peers);
    if forall p :: p in s.peers ==> p.inst != inst {
      forall k | k in s.pending ensures KeyOwner(k) != inst { assert Online(s.peers, KeyOwner(k)); }
    }
  }

  lemma OthersAreTold(s: State, j: State, others: seq<Peer>, conn: string)
    requires Connected(s) && Connected(j)
    requires forall p :: p in others ==> p in j.peers && p in s.peers && p.conn != conn
    requires forall p :: p in j.peers ==> OneTrueFrame(j, p, j.sent[p.conn], Broadcast(j).sent[p.conn])
    requires forall c :: c in s.sent && c != conn ==> c in j.sent && j.sent[c] == s.sent[c]
    ensures TellsEach(others, s, Broadcast(j))
  {
  }

  // ---- leaving ---------------------------------------------------------------------------------

  function NotOn(conn: string): Peer -> bool { (p: Peer) => p.conn != conn }

  /** A connection that closes is gone with its half-sent messages, and everyone left is told. */
  lemma DetachLeaves(rules: TextRules, s: State, p: Peer)
    requires Inv(rules, s) && p in s.peers
    ensures var t := DetachStep(s, p.conn);
            && Picks(s.peers, t.peers, NotOn(p.conn), Same()) && TellsEach(t.peers, s, t)
            && t.sent.Keys == s.sent.Keys && t.sent[p.conn] == s.sent[p.conn]
            && ForgetsPending(s.pending, p.inst, t.pending) && SameRecord(s, t)
  {
    LookupFinds(s.peers, p);
    var l := Left(s, p);
    FilterPicks(NotOn(p.conn), s.peers);
    LeftKeeps(rules, s, p);
    DroppingForgets(s, p.inst);
    BroadcastMakesCurrent(l);
  }

  // ---- frames that change nobody ---------------------------------------------------------------

  /** A ping is answered to its sender alone; a frame of no known kind, or from no known connection, is refused. */
  lemma OtherFramesAreAnswered(rules: TextRules, s: State, conn: string, frame: ClientFrame, now: int, id: string)
    requires Inv(rules, s) && (frame.Ping? || frame.UnknownFrame?)
    ensures var (t, why) := FrameStep(rules, s, conn, frame, now, id);
            if (exists p :: p in s.peers && p.conn == conn) && frame.Ping? then
              why.None? && conn in s.sent && t == s.(sent := s.sent[conn := s.sent[conn] + [Pong]])
            else t == s && why.Some?
  {
    if exists p :: p in s.peers && p.conn == conn {
      var p :| p in s.peers && p.conn == conn;
      LookupFinds(s.peers, p);
    }
  }

  // ---- declaring -------------------------------------------------------------------------------

  /** The same connection with what the frame declares. */
  ghost predicate IsDeclared(rules: TextRules, p: Peer, frame: ClientFrame, q: Peer)
    requires frame.PresenceFrame?
  {
    && q.conn == p.conn && q.inst == p.inst && q.name == p.name && q.since == p.since
    && ListsReported(rules, frame.agents, q.agents)
    && (q.director.Some? <==> frame.director.Some?)
    && (q.director.Some? ==>
          && Reads(rules, frame.director.value.name, 40, "director", q.director.value.name)
          && q.director.value.busy == frame.director.value.busy)
    && Distinct(q.rooms) && (forall r :: r in q.rooms <==> BelongsIn(rules, q.agents, q.director, r))
  }

  /** The rooms newly entered that hold lines of others. */
  ghost function NewsFor(rooms: seq<Room>, p: Peer): string -> bool {
    (r: string) => r !in p.rooms && exists m :: m in RecentLines(rooms, r) && m.instanceId != p.inst
  }

  ghost predicate Replays(rooms: seq<Room>, inst: InstanceId, r: string, f: ServerFrame) {
    f.History? && f.room == r && IsBacklog(rooms, r, inst, f.messages)
  }

  ghost function Replay(rooms: seq<Room>, inst: InstanceId): (string, ServerFrame) -> bool {
    (r: string, f: ServerFrame) => Replays(rooms, inst, r, f)
  }

  /** The sender gets the backlog of each room it newly enters, and no other; everyone is told who is there if,
      and only if, its agents or its director changed. */
  ghost predicate Declares(s: State, p: Peer, q: Peer, t: State) {
    && p.conn in s.sent && q.conn in t.sent
    && exists replay :: Picks(q.rooms, replay, NewsFor(s.rooms, p), Replay(s.rooms, p.inst))
                     && SentOn(s, p, q, replay, t)
  }

  ghost predicate SentOn(s: State, p: Peer, q: Peer, replay: seq<ServerFrame>, t: State)
    requires p.conn in s.sent && q.conn in t.sent
  {
    if q.agents == p.agents && q.director == p.director then
      t.sent == s.sent[p.conn := s.sent[p.conn] + replay]
    else
      && t.sent.Keys == s.sent.Keys && OneTrueFrame(t, q, s.sent[p.conn] + replay, t.sent[p.conn])
      && TellsEach(Filter(NotOn(p.conn), s.peers), s, t)
  }

  lemma {:induction false} BacklogsReplay(rooms: seq<Room>, p: Peer, entering: seq<string>)
    ensures Picks(entering, Backlogs(rooms, Entered(entering, p.rooms), p.inst), NewsFor(rooms, p),
        Replay(rooms, p.inst))
    decreases |entering|
  {
    if entering != [] {
      var r := entering[0];
      BacklogsReplay(rooms, p, entering[1..]);
      OthersAreTheBacklog(rooms, r, p.inst);
      var head := Filter((x: string) => x !in p.rooms, [r]);
      assert entering == [r] + entering[1..];
      FilterAppends((x: string) => x !in p.rooms, [r], entering[1..]);
      var all, rest := Entered(entering, p.rooms), Entered(entering[1..], p.rooms);
      assert all == if r in p.rooms then rest else [r] + rest;
      var lines := OthersOnly(RecentLines(rooms, r), p.inst);
      assert NewsFor(rooms, p)(r) <==> r !in p.rooms && lines != [] by {
        if lines != [] { assert lines[0] in lines; }
      }
      if r !in p.rooms {
        assert all[1..] == rest;
        var frames := Backlogs(rooms, all, p.inst);
        assert frames[if lines == [] then 0 else 1..] == Backlogs(rooms, rest, p.inst);
      }
    }
  }

  lemma PresenceDeclares(rules: TextRules, s: State, p: Peer, frame: ClientFrame)
    requires Inv(rules, s) && p in s.peers && frame.PresenceFrame?
    ensures var t := PresenceStep(rules, s, p, frame);
            && |t.peers| == |s.peers| && SameRecord(s, t) && t.pending == s.pending
            && exists q :: IsDeclared(rules, p, frame, q) && Declares(s, p, q, t)
                        && forall i :: 0 <= i < |s.peers| ==> t.peers[i] == if s.peers[i] == p then q else s.peers[i]
  {
    var agents, director := CleanAgents(rules, frame.agents), CleanDirector(rules, frame.director);
    var q := p.(agents := agents, director := director, rooms := RoomsOf(rules, agents, director));
    DeclaredPeer(rules, p, frame, q);
    PeersDeclared(rules, s, p, q);
    var replay := Backlogs(s.rooms, Entered(q.rooms, p.rooms), p.inst);
    DeclaredFrames(rules, s, p, q, replay);
    RepliesDeclare(s, p, q, replay, PresenceStep(rules, s, p, frame));
  }

  lemma DeclaredPeer(rules: TextRules, p: Peer, frame: ClientFrame, q: Peer)
    requires frame.PresenceFrame?
    requires q == p.(agents := CleanAgents(rules, frame.agents), director := CleanDirector(rules, frame.director),
                     rooms := RoomsOf(rules, q.agents, q.director))
    ensures IsDeclared(rules, p, frame, q)
  {
    ReportIsRead(rules, frame.agents);
    RoomsAreThoseDeclared(rules, q.agents, q.director);
  }

  lemma PeersDeclared(rules: TextRules, s: State, p: Peer, q: Peer)
    requires OnePerInstance(s.peers) && p in s.peers
    requires q == p.(agents := q.agents, director := q.director, rooms := RoomsOf(rules, q.agents, q.director))
    ensures var t := Declare(rules, s, p, q.agents, q.director);
            && |t.peers| == |s.peers| && SameRecord(s, t) && t.pending == s.pending && t.sent.Keys == s.sent.Keys
            && forall i :: 0 <= i < |s.peers| ==> t.peers[i] == if s.peers[i] == p then q else s.peers[i]
  {
    var t := Declare(rules, s, p, q.agents, q.director);
    assert t.peers == Replace(s.peers, q);
    forall i | 0 <= i < |s.peers| ensures t.peers[i] == if s.peers[i] == p then q else s.peers[i] {
      if s.peers[i].conn == p.conn { OnePerInstanceAt(s.peers, s.peers[i], p); }
    }
  }

  lemma RepliesDeclare(s: State, p: Peer, q: Peer, replay: seq<ServerFrame>, t: State)
    requires p.conn in s.sent && q.conn in t.sent && SentOn(s, p, q, replay, t)
    requires replay == Backlogs(s.rooms, Entered(q.rooms, p.rooms), p.inst)
    ensures Declares(s, p, q, t)
  {
    BacklogsReplay(s.rooms, p, q.rooms);
  }

  lemma DeclaredFrames(rules: TextRules, s: State, p: Peer, q: Peer, replay: seq<ServerFrame>)
    requires Connected(s) && RoomsFollow(rules, s) && Buffers(s) && p in s.peers
    requires q == p.(agents := q.agents, director := q.director, rooms := RoomsOf(rules, q.agents, q.director))
    requires replay == Backlogs(s.rooms, Entered(q.rooms, p.rooms), p.inst)
    ensures SentOn(s, p, q, replay, Declare(rules, s, p, q.agents, q.director))
  {
    var m := Moved(rules, s, p, q.agents, q.director);
    assert m.sent == s.sent[p.conn := s.sent[p.conn] + replay];
    if p.agents != q.agents || p.director != q.director {
      MovedKeeps(rules, s, p, q.agents, q.director);
      BroadcastDeclares(s, m, p, q, replay);
    }
  }

  lemma BroadcastDeclares(s: State, m: State, p: Peer, q: Peer, replay: seq<ServerFrame>)
    requires Connected(s) && Connected(m) && p in s.peers && q.conn == p.conn && q.inst == p.inst
    requires m.peers == Replace(s.peers, q) && m.sent == s.sent[p.conn := s.sent[p.conn] + replay]
    ensures OneTrueFrame(Broadcast(m), q, s.sent[p.conn] + replay, Broadcast(m).sent[p.conn])
    ensures TellsEach(Filter(NotOn(p.conn), s.peers), s, Broadcast(m))
  {
    ReplaceKeeps(s, p, q);
    BroadcastMakesCurrent(m);
    OthersAreTold(s, m, Filter(NotOn(p.conn), s.peers), p.conn);
  }
}
