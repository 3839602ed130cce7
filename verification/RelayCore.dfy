/** The relay's routing core as the process runs it (relay/src/core.ts): fields updated step by step, each
    method proved to perform exactly its transition of RelaySpec. */
module RelayCoreClass {
  import opened Collections
  import opened Protocol
  import opened Roster
  import opened RoomHistory
  import opened RelaySpec
  import opened RelayInvariants
  import RepoGroups

  // ---- one frame to each of several peers ------------------------------------------------------

  function SendEach(sent: map<string, seq<ServerFrame>>, peers: seq<Peer>, out: Peer -> seq<ServerFrame>)
    : map<string, seq<ServerFrame>>
    decreases |peers|
  {
    if peers == [] then sent else SendEach(SendTo(sent, peers[0].conn, out(peers[0])), peers[1..], out)
  }

  function ForConn(peers: seq<Peer>, conn: string, out: Peer -> seq<ServerFrame>): seq<ServerFrame> {
    match Lookup(peers, conn)
    case None => []
    case Some(p) => out(p)
  }

  /** Going through the peers one by one sends each connection its own frames and no others. */
  lemma {:induction false} EachOnce(sent: map<string, seq<ServerFrame>>, peers: seq<Peer>,
          out: Peer -> seq<ServerFrame>)
    requires forall i, j :: 0 <= i < j < |peers| ==> peers[i].conn != peers[j].conn
    ensures SendEach(sent, peers, out).Keys == sent.Keys
    ensures forall c :: c in sent ==> SendEach(sent, peers, out)[c] == sent[c] + ForConn(peers, c, out)
    decreases |peers|
  {
    if peers == [] {
      forall c | c in sent ensures sent[c] == sent[c] + ForConn(peers, c, out) {}
    } else {
      var rest, next := peers[1..], SendTo(sent, peers[0].conn, out(peers[0]));
      forall i, j | 0 <= i < j < |rest| ensures rest[i].conn != rest[j].conn {
        assert peers[i + 1].conn != peers[j + 1].conn;
      }
      forall k | 0 <= k < |rest| ensures rest[k].conn != peers[0].conn {
        assert peers[0].conn != peers[k + 1].conn;
      }
      assert Lookup(rest, peers[0].conn).None?;
      EachOnce(next, rest, out);
      forall c | c in sent ensures SendEach(sent, peers, out)[c] == sent[c] + ForConn(peers, c, out) {
        assert next[c] == sent[c] + (if c == peers[0].conn then out(peers[0]) else []);
      }
    }
  }

  lemma SendNothing(sent: map<string, seq<ServerFrame>>, conn: string)
    ensures SendTo(sent, conn, []) == sent
  {
    if conn in sent { assert sent[conn] + [] == sent[conn]; }
  }

  lemma SendInTurn(sent: map<string, seq<ServerFrame>>, conn: string, a: seq<ServerFrame>, b: seq<ServerFrame>)
    ensures SendTo(SendTo(sent, conn, a), conn, b) == SendTo(sent, conn, a + b)
  {
    if conn in sent { assert sent[conn] + a + b == sent[conn] + (a + b); }
  }

  lemma DropTwice(pending: map<string, Pending>, inst: InstanceId)
    ensures DropPending(DropPending(pending, inst), inst) == DropPending(pending, inst)
  {
  }

  // ---- the cleaning loops ----------------------------------------------------------------------

  /** The loop shared by cleanRooms and cleanKeys. */
  method GatherNames(candidates: seq<string>, fits: string -> bool, exclude: string) returns (out: seq<string>)
    ensures out == Gather(candidates, fits, exclude, [])
  {
    out := [];
    var rest := candidates;
    while rest != []
      invariant |out| < MAX_REPO_ALIASES
      invariant Gather(rest, fits, exclude, out) == Gather(candidates, fits, exclude, [])
      decreases |rest|
    {
      var c := rest[0];
      rest := rest[1..];
      if c == "" || c == exclude || c in out || !fits(c) { continue; }
      out := out + [c];
      if |out| >= MAX_REPO_ALIASES { return; }
    }
  }

  /** The room set of a presence frame, built up as the agents are read. */
  method BuildRooms(rules: TextRules, agents: seq<Agent>, director: Option<Director>) returns (rooms: seq<string>)
    ensures rooms == RoomsOf(rules, agents, director)
  {
    rooms := [OFFICE_ROOM];
    if director.Some? { rooms := rooms + [DIRECTORS_ROOM]; }
    assert rooms == [OFFICE_ROOM] + (if director.Some? then [DIRECTORS_ROOM] else []);
    var rest := agents;
    while rest != []
      invariant AgentRooms(rules, rooms, rest) == RoomsOf(rules, agents, director)
      decreases |rest|
    {
      ghost var start := rooms;
      var keys := AgentKeys(rest[0]);
      while keys != []
        invariant AddRooms(rules, rooms, keys) == AddRooms(rules, start, AgentKeys(rest[0]))
        decreases |keys|
      {
        var room := RepoRoom(keys[0]);
        if rules.IsRepoRoom(room) && room !in rooms { rooms := rooms + [room]; }
        keys := keys[1..];
      }
      rest := rest[1..];
    }
  }

  class RelayCore {
    var peers: seq<Peer>
    var pendingChat: map<string, Pending>
    var completedChat: seq<string>
    const history: PersistedHistory
    const rules: TextRules

    // What went out, and what was accepted: the record the promises are about.
    ghost var sent: map<string, seq<ServerFrame>>
    ghost var owner: map<string, InstanceId>
    ghost var finished: seq<string>
    ghost var posted: seq<Posted>

    ghost function Now(): State
      reads this, history
    {
      State(peers, pendingChat, completedChat, history.rooms, sent, owner, finished, posted)
    }

    ghost predicate Valid()
      reads this, history
    {
      Inv(rules, Now())
    }

    constructor (rules: TextRules, history: PersistedHistory)
      requires Filed(history.rooms)
      ensures Valid() && this.rules == rules && this.history == history && Now() == Initial(history.rooms)
    {
      this.rules, this.history := rules, history;
      peers, pendingChat, completedChat := [], map[], [];
      sent, owner, finished, posted := map[], map[], [], [];
      new;
      InitialHolds(rules, history.rooms);
    }

    ghost method Send(conn: string, frame: ServerFrame)
      modifies this`sent
      ensures sent == SendTo(old(sent), conn, [frame])
    {
      sent := SendTo(sent, conn, [frame]);
    }

    method BroadcastPresence()
      requires OnePerInstance(peers)
      modifies this`sent
      ensures Now() == Broadcast(old(Now()))
    {
      var all, rest := peers, peers;
      ghost var before := sent;
      ghost var out := (p: Peer) => [PresenceTo(all, p)];
      while rest != []
        invariant SendEach(sent, rest, out) == SendEach(before, all, out)
        decreases |rest|
      {
        Send(rest[0].conn, Presence(RosterFor(all, rest[0].inst), DirectorsFor(all, rest[0].inst)));
        rest := rest[1..];
      }
      EachOnce(before, all, out);
      assert sent == Broadcast(old(Now())).sent;
    }

    method ClearPendingChat(inst: InstanceId)
      modifies this`pendingChat
      ensures pendingChat == DropPending(old(pendingChat), inst)
    {
      var prefix := Prefix(inst);
      pendingChat := map k | k in pendingChat && !(prefix <= k) :: pendingChat[k];
    }

    method Attach(conn: string, inst: InstanceId, name: string, now: int)
      requires Valid() && conn !in sent
      modifies this
      ensures Valid() && Now() == AttachStep(old(Now()), conn, inst, name, now)
    {
      AttachKeeps(rules, Now(), conn, inst, name, now);
      JoinedConnected(rules, Now(), conn, inst, name, now);
      Admit(conn, inst, name, now);
      BroadcastPresence();
    }

    method Admit(conn: string, inst: InstanceId, name: string, now: int)
      requires NamesApart(history.rooms)
      modifies this
      ensures Now() == Joined(old(Now()), conn, inst, name, now)
    {
      peers, pendingChat := DropReplaced(peers, pendingChat, inst);
      peers := peers + [Peer(conn, inst, name, [], [OFFICE_ROOM], None, now)];
      var backlog := history.Recent(OFFICE_ROOM);
      sent := sent[conn := [Welcome(RELAY_PROTOCOL, inst, name, RosterFor(peers, inst), OthersOnly(backlog, inst),
                                    DirectorsFor(peers, inst))]];
      owner := owner[conn := inst];
    }

    /** The older connections of an instance make way, and its half-sent messages go with them. */
    static method DropReplaced(peers: seq<Peer>, pending: map<string, Pending>, inst: InstanceId)
      returns (kept: seq<Peer>, left: map<string, Pending>)
      ensures kept == WithoutInstance(peers, inst)
      ensures left == if |kept| < |peers| then DropPending(pending, inst) else pending
    {
      ghost var keep := (q: Peer) => q.inst != inst;
      var rest := peers;
      kept, left := [], pending;
      while rest != []
        invariant kept + Filter(keep, rest) == Filter(keep, peers)
        invariant |kept| + |rest| <= |peers|
        invariant left == if |kept| + |rest| < |peers| then DropPending(pending, inst) else pending
        decreases |rest|
      {
        FilterStep(keep, peers, kept, rest);
        assert kept + [] == kept;
        if rest[0].inst == inst {
          DropTwice(pending, inst);
          left := DropPending(left, inst);
        } else {
          kept := kept + [rest[0]];
        }
        rest := rest[1..];
      }
    }

    method Detach(conn: string)
      requires Valid()
      modifies this
      ensures Valid() && Now() == DetachStep(old(Now()), conn)
    {
      DetachKeeps(rules, Now(), conn);
      var found := Lookup(peers, conn);
      if found.None? { return; }
      LeftKeeps(rules, Now(), found.value);
      Release(found.value);
      BroadcastPresence();
    }

    method Release(p: Peer)
      modifies this
      ensures Now() == Left(old(Now()), p)
    {
      peers := WithoutConn(peers, p.conn);
      ClearPendingChat(p.inst);
    }

    method OnFrame(conn: string, frame: ClientFrame, now: int, id: string) returns (why: Option<Rejection>)
      requires Valid()
      modifies this, history
      ensures Valid() && (Now(), why) == FrameStep(rules, old(Now()), conn, frame, now, id)
    {
      ghost var before := Now();
      StepKeeps(rules, before, Frame(conn, frame, now, id));
      var found := Lookup(peers, conn);
      if found.None? { return Some(UnknownConnection); }
      why := None;
      match frame
      case Ping => Send(conn, Pong);
      case PresenceFrame(agents, director) =>
        ApplyPresence(found.value, CleanAgents(rules, agents), CleanDirector(rules, director));
      case ChatFrame(_, _, _, _, _, _, _, _, _) => why := ApplyChat(found.value, frame, now, id);
      case UnknownFrame => why := Some(UnrecognisedFrame);
    }

    method ApplyPresence(p: Peer, agents: seq<Agent>, director: Option<Director>)
      requires Valid() && p in peers
      modifies this
      ensures Valid() && Now() == Declare(rules, old(Now()), p, agents, director)
    {
      DeclareKeeps(rules, Now(), p, agents, director);
      MovedKeeps(rules, Now(), p, agents, director);
      var changed := p.agents != agents || p.director != director;
      Move(p, agents, director);
      if changed { BroadcastPresence(); }
    }

    method Move(p: Peer, agents: seq<Agent>, director: Option<Director>)
      requires NamesApart(history.rooms)
      modifies this
      ensures Now() == Moved(rules, old(Now()), p, agents, director)
    {
      var rooms := BuildRooms(rules, agents, director);
      var entered := Entered(rooms, p.rooms);
      peers := Replace(peers, p.(agents := agents, rooms := rooms, director := director));
      ReplayBacklogs(p, entered);
    }

    method ReplayBacklogs(p: Peer, entered: seq<string>)
      requires NamesApart(history.rooms)
      modifies this`sent
      ensures sent == SendTo(old(sent), p.conn, Backlogs(history.rooms, entered, p.inst))
    {
      var rest := entered;
      while rest != []
        invariant SendTo(sent, p.conn, Backlogs(history.rooms, rest, p.inst))
               == SendTo(old(sent), p.conn, Backlogs(history.rooms, entered, p.inst))
        decreases |rest|
      {
        var lines := history.Recent(rest[0]);
        var messages := OthersOnly(lines, p.inst);
        SendInTurn(sent, p.conn, [History(rest[0], messages)], Backlogs(history.rooms, rest[1..], p.inst));
        assert [] + Backlogs(history.rooms, rest[1..], p.inst) == Backlogs(history.rooms, rest[1..], p.inst);
        if messages != [] { Send(p.conn, History(rest[0], messages)); }
        rest := rest[1..];
      }
      SendNothing(sent, p.conn);
    }

    method ApplyChat(p: Peer, frame: ClientFrame, now: int, id: string) returns (why: Option<Rejection>)
      requires Valid() && p in peers && frame.ChatFrame?
      modifies this, history
      ensures Valid() && (Now(), why) == ChatStep(rules, old(Now()), p, frame, now, id)
    {
      ChatKeeps(rules, Now(), p, frame, now, id);
      var d := Decode(rules, p, frame);
      match d
      case Refused(reason) => why := Some(reason);
      case Whole(clean, body) =>
        why := None;
        PostLine(p, None, clean, body, now, id);
      case Chunk(_, _, _, _, _) => why := AcceptChunk(p, d, now, id);
    }

    /** Fit one chunk into its buffer; the last one to arrive releases the whole line. */
    method AcceptChunk(p: Peer, d: Decoded, now: int, id: string) returns (why: Option<Rejection>)
      requires Valid() && p in peers && d.Chunk? && d.index < d.count && 2 <= d.count <= CHAT_MAX_CHUNKS
      modifies this, history
      ensures (Now(), why) == ChunkStep(rules, old(Now()), p, d, now, id)
    {
      ghost var before := Now();
      var key := Key(p.inst, d.messageId);
      if key in completedChat { return None; }
      if key !in pendingChat && Held(pendingChat, p.inst) >= MAX_PENDING_CHAT { return Some(TooManyPending); }
      var pend := if key in pendingChat then pendingChat[key] else Pending(d.clean, seq(d.count, _ => None));
      assert pend == Opened(before, key, d.count, d.clean);
      if |pend.chunks| != d.count || pend.clean != d.clean { return Some(ChunkDataChanged); }
      var prior := pend.chunks[d.index];
      if prior.Some? && prior.value != d.body { return Some(ChunkPayloadChanged); }
      why := StoreChunk(p, key, Pending(pend.clean, pend.chunks[d.index := Some(d.body)]), now, id);
    }

    method StoreChunk(p: Peer, key: string, pend: Pending, now: int, id: string) returns (why: Option<Rejection>)
      requires OnePerInstance(peers) && Filed(history.rooms)
      modifies this, history
      ensures (Now(), why) == Filled(rules, old(Now()), p, key, pend, now, id)
    {
      if !Full(pend.chunks) {
        pendingChat := pendingChat[key := pend];
        return None;
      }
      CompleteMessage(key);
      var body := Join(pend.chunks);
      if rules.trim(body) == "" { return Some(EmptyMessage); }
      why := None;
      PostLine(p, Some(key), pend.clean, body, now, id);
    }

    method CompleteMessage(key: string)
      modifies this
      ensures Now() == Complete(old(Now()), key)
    {
      pendingChat := pendingChat - {key};
      RememberCompletedChat(key);
      finished := finished + [key];
    }

    method RememberCompletedChat(key: string)
      modifies this`completedChat
      ensures completedChat == Remember(old(completedChat), key)
    {
      if key !in completedChat { completedChat := completedChat + [key]; }
      if |completedChat| <= COMPLETED_CHAT_IDS { return; }
      var oldest := completedChat[0];
      if oldest != "" { completedChat := completedChat[1..]; }
    }

    /** File the line under every room of its group, then deliver it once to each peer that shares one. */
    method PostLine(p: Peer, key: Option<string>, clean: Clean, body: string, now: int, id: string)
      requires OnePerInstance(peers) && Filed(history.rooms)
      modifies this, history
      ensures Now() == Post(old(Now()), p, key, clean, body, now, id)
    {
      var msg := LineOf(p, clean, body, now, id);
      var group := if clean.rooms != [] then [clean.room] + clean.rooms else [clean.room];
      assert group == Group(clean);
      FileUnder(group, msg);
      Deliver(group, msg);
      posted := posted + [Posted(key, msg)];
    }

    method Deliver(group: seq<string>, msg: Chat)
      requires OnePerInstance(peers)
      modifies this`sent
      ensures sent == map c | c in old(sent) :: old(sent)[c] + ChatFor(peers, c, group, msg)
    {
      var all, rest := peers, peers;
      ghost var before := sent;
      ghost var out := (q: Peer) => CopyFor(q, group, msg);
      while rest != []
        invariant SendEach(sent, rest, out) == SendEach(before, all, out)
        decreases |rest|
      {
        var other := rest[0];
        SendNothing(sent, other.conn);
        rest := rest[1..];
        if other.inst == msg.instanceId { continue; }
        var seenAs := FirstIn(group, other.rooms);
        if seenAs.Some? { Send(other.conn, ChatLine(msg.(room := seenAs.value))); }
      }
      EachOnce(before, all, out);
    }

    method FileUnder(group: seq<string>, msg: Chat)
      requires Filed(history.rooms)
      modifies history
      ensures history.rooms == FileAll(old(history.rooms), group, msg)
    {
      ghost var all := FileAll(history.rooms, group, msg);
      var rest := group;
      while rest != []
        invariant NamesApart(history.rooms)
        invariant FileAll(history.rooms, rest, msg) == all
        decreases |rest|
      {
        history.Push(rest[0], msg.(room := rest[0]));
        rest := rest[1..];
      }
    }

    /** The status page's headline: repositories two or more connected instances are in right now. */
    method SharedRepos() returns (shared: seq<RepoGroups.Shared>)
      ensures RepoGroups.IsReport(RepoGroups.Sightings(peers), shared)
    {
      shared := RepoGroups.SharedRepos(peers);
    }
  }
}
