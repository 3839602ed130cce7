/** What every reachable state of the relay satisfies, and why each transition keeps it. */
module RelayInvariants {
  import opened Collections
  import opened Protocol
  import opened Roster
  import opened RoomHistory
  import opened RelaySpec

  // ---- the parts -------------------------------------------------------------------------------

  /** One connection per instance; every connection's record belongs to one instance for good. */
  ghost predicate Connected(s: State) {
    && OnePerInstance(s.peers)
    && s.sent.Keys == s.owner.Keys
    && forall p :: p in s.peers ==> p.conn in s.sent && s.owner[p.conn] == p.inst
  }

  ghost predicate RoomsFollow(rules: TextRules, s: State) {
    forall p :: p in s.peers ==> p.rooms == RoomsOf(rules, p.agents, p.director)
  }

  /** The same line, whichever room of its group it is stamped with. */
  ghost predicate SameLine(a: Chat, b: Chat) { a.(room := b.room) == b }

  function LinesOf(f: ServerFrame): seq<Chat> {
    match f
    case Welcome(_, _, _, _, recent, _) => recent
    case Presence(_, _) => []
    case History(_, messages) => messages
    case ChatLine(msg) => [msg]
    case Pong => []
  }

  ghost predicate Heard(frames: seq<ServerFrame>, m: Chat) {
    exists f, x :: f in frames && x in LinesOf(f) && SameLine(x, m)
  }

  /** Every line now kept for a room, written elsewhere, has reached every peer in that room on its
      present connection. */
  ghost predicate Covered(s: State) {
    forall p, r, m :: p in s.peers && p.conn in s.sent && r in p.rooms && m in RecentLines(s.rooms, r)
                      && m.instanceId != p.inst
                      ==> Heard(s.sent[p.conn], m)
  }

  function RosterIn(f: ServerFrame): Option<(seq<PresentAgent>, seq<PresentDirector>)> {
    match f
    case Welcome(_, _, _, presence, _, directors) => Some((presence, directors))
    case Presence(agents, directors) => Some((agents, directors))
    case _ => None
  }

  /** What a client that applies each roster frame believes now. */
  function LastRoster(frames: seq<ServerFrame>): Option<(seq<PresentAgent>, seq<PresentDirector>)> {
    if frames == [] then None
    else if RosterIn(frames[|frames| - 1]).Some? then RosterIn(frames[|frames| - 1])
    else LastRoster(frames[..|frames| - 1])
  }

  /** A client's belief holds every other instance's agents and directors as they are, and nothing else. */
  ghost predicate IsTrueOf(peers: seq<Peer>, inst: InstanceId,
          belief: Option<(seq<PresentAgent>, seq<PresentDirector>)>)
  {
    belief.Some? && ListsAgents(peers, inst, belief.value.0) && ListsDirectors(peers, inst, belief.value.1)
  }

  ghost predicate RostersCurrent(s: State) {
    forall p :: p in s.peers && p.conn in s.sent ==> IsTrueOf(s.peers, p.inst, LastRoster(s.sent[p.conn]))
  }

  /** Nothing in a frame was said, run or directed by the instance it goes to. */
  ghost predicate FromOthers(f: ServerFrame, inst: InstanceId) {
    && (forall m :: m in LinesOf(f) ==> m.instanceId != inst)
    && (RosterIn(f).Some? ==>
          && (forall a :: a in RosterIn(f).value.0 ==> a.instanceId != inst)
          && (forall d :: d in RosterIn(f).value.1 ==> d.instanceId != inst))
  }

  ghost predicate NoEcho(s: State) {
    forall c, f :: c in s.sent && c in s.owner && f in s.sent[c] ==> FromOthers(f, s.owner[c])
  }

  /** A room's backlog holds lines stamped with that room. */
  ghost predicate Filed(rooms: seq<Room>) {
    NamesApart(rooms) && forall r, m :: m in RecentLines(rooms, r) ==> m.room == r
  }

  /** The instance half of a chunk key. */
  function KeyOwner(key: string): string {
    if key == "" || key[0] == ':' then "" else [key[0]] + KeyOwner(key[1..])
  }

  ghost predicate Online(peers: seq<Peer>, inst: string) { exists p :: p in peers && p.inst == inst }

  /** Pending messages belong to connected instances, are incomplete, were not completed lately, and are
      at most 32 to an instance. */
  ghost predicate Buffers(s: State) {
    && (forall k :: k in s.pending ==>
          && ':' in k && Online(s.peers, KeyOwner(k))
          && 2 <= |s.pending[k].chunks| <= CHAT_MAX_CHUNKS
          && !Full(s.pending[k].chunks)
          && k !in s.completed)
    && (forall inst: InstanceId :: Held(s.pending, inst) <= MAX_PENDING_CHAT)
  }

  /** The completed window is the last 2048 completions, so a repeat is at least 2048 others apart. */
  ghost predicate Window(s: State) {
    && s.completed == LastN(s.finished, COMPLETED_CHAT_IDS)
    && (forall k :: k in s.finished ==> ':' in k)
    && (forall i, j :: 0 <= i < j < |s.finished| && s.finished[i] == s.finished[j] ==> j - i > COMPLETED_CHAT_IDS)
  }

  ghost predicate Inv(rules: TextRules, s: State) {
    && Connected(s) && RoomsFollow(rules, s) && Covered(s) && RostersCurrent(s) && NoEcho(s) && Filed(s.rooms)
    && Buffers(s) && Window(s)
  }

  // ---- frames appended to a record -------------------------------------------------------------

  lemma HeardLater(frames: seq<ServerFrame>, more: seq<ServerFrame>, m: Chat)
    ensures Heard(frames, m) ==> Heard(frames + more, m)
    ensures Heard(more, m) ==> Heard(frames + more, m)
  {
    if Heard(frames, m) {
      var f, x :| f in frames && x in LinesOf(f) && SameLine(x, m);
      assert f in frames + more;
    }
    if Heard(more, m) {
      var f, x :| f in more && x in LinesOf(f) && SameLine(x, m);
      assert f in frames + more;
    }
  }

  ghost predicate NoRoster(frames: seq<ServerFrame>) {
    forall f :: f in frames ==> RosterIn(f).None?
  }

  lemma {:induction false} LastRosterSurvives(frames: seq<ServerFrame>, more: seq<ServerFrame>)
    requires NoRoster(more)
    ensures LastRoster(frames + more) == LastRoster(frames)
  {
    if more == [] {
      assert frames + more == frames;
    } else {
      var all := frames + more;
      assert all[|all| - 1] == more[|more| - 1] && all[..|all| - 1] == frames + more[..|more| - 1];
      LastRosterSurvives(frames, more[..|more| - 1]);
    }
  }

  lemma LookupFinds(peers: seq<Peer>, p: Peer)
    requires OnePerInstance(peers) && p in peers
    ensures Lookup(peers, p.conn) == Some(p)
  {
    OnePerInstanceAt(peers, p, Lookup(peers, p.conn).value);
  }

  // ---- broadcasting ----------------------------------------------------------------------------

  ghost predicate OneTrueFrame(s: State, p: Peer, before: seq<ServerFrame>, after: seq<ServerFrame>) {
    && |after| == |before| + 1 && after[..|before|] == before && after[|before|].Presence?
    && IsTrueOf(s.peers, p.inst, RosterIn(after[|before|]))
  }

  /** A broadcast brings every roster up to date, whatever they were before, with one frame to each peer and
      none to anyone else. */
  lemma BroadcastMakesCurrent(s: State)
    requires Connected(s)
    ensures RostersCurrent(Broadcast(s))
    ensures forall p :: p in s.peers ==> OneTrueFrame(s, p, s.sent[p.conn], Broadcast(s).sent[p.conn])
    ensures forall c :: c in s.sent && (forall p :: p in s.peers ==> p.conn != c) ==> Broadcast(s).sent[c] == s.sent[c]
  {
    forall p | p in s.peers
      ensures OneTrueFrame(s, p, s.sent[p.conn], Broadcast(s).sent[p.conn])
      ensures IsTrueOf(s.peers, p.inst, LastRoster(Broadcast(s).sent[p.conn]))
    {
      BroadcastTells(s, p);
    }
    forall c | c in s.sent && forall p :: p in s.peers ==> p.conn != c ensures Broadcast(s).sent[c] == s.sent[c] {
      assert Lookup(s.peers, c).None?;
      assert s.sent[c] + [] == s.sent[c];
    }
  }

  lemma BroadcastTells(s: State, p: Peer)
    requires Connected(s) && p in s.peers
    ensures OneTrueFrame(s, p, s.sent[p.conn], Broadcast(s).sent[p.conn])
    ensures IsTrueOf(s.peers, p.inst, LastRoster(Broadcast(s).sent[p.conn]))
  {
    LookupFinds(s.peers, p);
    RosterListsAgents(s.peers, p.inst);
    DirectorsListDirectors(s.peers, p.inst);
    var frame, after := PresenceTo(s.peers, p), Broadcast(s).sent[p.conn];
    assert after == s.sent[p.conn] + [frame];
    assert RosterIn(frame) == Some((RosterFor(s.peers, p.inst), DirectorsFor(s.peers, p.inst)));
    assert IsTrueOf(s.peers, p.inst, RosterIn(frame));
    assert after[|after| - 1] == frame;
  }

  /** The rest of the invariant does not notice a broadcast. */
  lemma BroadcastKeeps(s: State)
    requires Connected(s) && Covered(s) && NoEcho(s)
    ensures Connected(Broadcast(s)) && Covered(Broadcast(s)) && NoEcho(Broadcast(s))
  {
    var t := Broadcast(s);
    forall p, r, m | p in t.peers && p.conn in t.sent && r in p.rooms && m in RecentLines(t.rooms, r)
        && m.instanceId != p.inst
      ensures Heard(t.sent[p.conn], m)
    {
      HeardLater(s.sent[p.conn], PresenceFor(s.peers, p.conn), m);
    }
    forall c, f | c in t.sent && f in t.sent[c] ensures FromOthers(f, t.owner[c]) {
      if f !in s.sent[c] {
        assert f in PresenceFor(s.peers, c);
        assert Lookup(s.peers, c).value in s.peers;
      }
    }
  }

  // ---- keeping some peers ----------------------------------------------------------------------

  lemma {:induction false} FilterKeepsOnePerInstance(keep: Peer -> bool, peers: seq<Peer>)
    requires OnePerInstance(peers)
    ensures OnePerInstance(Filter(keep, peers))
  {
    if peers != [] {
      OnePerInstanceTail(peers);
      FilterKeepsOnePerInstance(keep, peers[1..]);
    }
  }

  lemma OnePerInstanceTail(peers: seq<Peer>)
    requires OnePerInstance(peers) && peers != []
    ensures OnePerInstance(peers[1..])
    ensures forall q :: q in peers[1..] ==> q.conn != peers[0].conn && q.inst != peers[0].inst
  {
    var rest := peers[1..];
    forall i, j | 0 <= i < j < |rest| ensures rest[i].conn != rest[j].conn && rest[i].inst != rest[j].inst {
      assert peers[i + 1].conn != peers[j + 1].conn && peers[i + 1].inst != peers[j + 1].inst;
    }
    forall q | q in rest ensures q.conn != peers[0].conn && q.inst != peers[0].inst {
      var k :| 0 <= k < |rest| && rest[k] == q;
      assert peers[0].conn != peers[k + 1].conn && peers[0].inst != peers[k + 1].inst;
    }
  }

  lemma {:induction false} FilterDropsSome<T>(keep: T -> bool, s: seq<T>)
    ensures |Filter(keep, s)| == |s| <==> forall x :: x in s ==> keep(x)
  {
    if s != [] {
      FilterDropsSome(keep, s[1..]);
      assert s == [s[0]] + s[1..];
    }
  }

  // ---- chunk keys ------------------------------------------------------------------------------

  lemma {:induction false} KeyOwnerOf(inst: string, tail: string)
    requires ':' !in inst
    ensures KeyOwner(inst + ":" + tail) == inst
  {
    var key := inst + ":" + tail;
    if inst == "" {
      assert key[0] == ':';
    } else {
      assert key[1..] == inst[1..] + ":" + tail;
      KeyOwnerOf(inst[1..], tail);
    }
  }

  lemma {:induction false} KeyOwnerIsPrefix(key: string)
    requires ':' in key
    ensures Prefix(KeyOwner(key)) <= key
  {
    if key[0] != ':' {
      assert key == [key[0]] + key[1..];
      KeyOwnerIsPrefix(key[1..]);
      assert Prefix(KeyOwner(key)) == [key[0]] + Prefix(KeyOwner(key[1..]));
    }
  }

  /** `startsWith` picks out exactly one instance's keys, because ids hold no ':'. */
  lemma PrefixMeansOwner(key: string, inst: InstanceId)
    ensures Prefix(inst) <= key <==> ':' in key && KeyOwner(key) == inst
  {
    if Prefix(inst) <= key {
      assert key == inst + ":" + key[|inst| + 1..];
      KeyOwnerOf(inst, key[|inst| + 1..]);
      assert key[|inst|] == ':';
    }
    if ':' in key { KeyOwnerIsPrefix(key); }
  }

  lemma KeyNamesItsOwner(inst: InstanceId, messageId: string)
    ensures ':' in Key(inst, messageId) && KeyOwner(Key(inst, messageId)) == inst
  {
    KeyOwnerOf(inst, messageId);
    assert Key(inst, messageId)[|inst|] == ':';
  }

  lemma HeldShrinks(pending: map<string, Pending>, fewer: map<string, Pending>, inst: string)
    requires fewer.Keys <= pending.Keys
    ensures Held(fewer, inst) <= Held(pending, inst)
  {
    var a, b := set k | k in fewer && Prefix(inst) <= k, set k | k in pending && Prefix(inst) <= k;
    assert a <= b;
    assert b == a + (b - a);
  }

  lemma DropBuffers(s: State, inst: InstanceId, t: State)
    requires Buffers(s) && t.completed == s.completed
    requires t.pending == DropPending(s.pending, inst)
    requires forall p :: p in s.peers && p.inst != inst ==> Online(t.peers, p.inst)
    ensures Buffers(t)
  {
    forall k | k in t.pending ensures Online(t.peers, KeyOwner(k)) {
      PrefixMeansOwner(k, inst);
    }
    forall i: InstanceId ensures Held(t.pending, i) <= MAX_PENDING_CHAT {
      HeldShrinks(s.pending, t.pending, i);
    }
  }

  lemma SameBuffers(s: State, t: State)
    requires Buffers(s) && t.completed == s.completed && t.pending == s.pending
    requires forall p :: p in s.peers ==> Online(t.peers, p.inst)
    ensures Buffers(t)
  {
  }

  // ---- attach ----------------------------------------------------------------------------------

  lemma JoinedConnected(rules: TextRules, s: State, conn: string, inst: InstanceId, name: string, now: int)
    requires Connected(s) && RoomsFollow(rules, s) && conn !in s.sent
    ensures Connected(Joined(s, conn, inst, name, now)) && RoomsFollow(rules, Joined(s, conn, inst, name, now))
  {
    var kept := WithoutInstance(s.peers, inst);
    var newcomer := Peer(conn, inst, name, [], [OFFICE_ROOM], None, now);
    FilterKeepsOnePerInstance((q: Peer) => q.inst != inst, s.peers);
    forall q | q in kept ensures q in s.peers && q.conn != conn && q.inst != inst {}
    OnePerInstanceMore(kept, newcomer);
    assert Connected(Joined(s, conn, inst, name, now));
    assert RoomsOf(rules, [], None) == [OFFICE_ROOM];
  }

  lemma OnePerInstanceMore(peers: seq<Peer>, p: Peer)
    requires OnePerInstance(peers) && forall q :: q in peers ==> q.conn != p.conn && q.inst != p.inst
    ensures OnePerInstance(peers + [p])
  {
    assert forall i :: 0 <= i < |peers| ==> peers[i] in peers;
  }

  lemma JoinedCovered(s: State, conn: string, inst: InstanceId, name: string, now: int)
    requires Connected(s) && Covered(s) && conn !in s.sent
    ensures Covered(Joined(s, conn, inst, name, now))
  {
    var t := Joined(s, conn, inst, name, now);
    var welcome := t.sent[conn][0];
    forall q, r, m | q in t.peers && q.conn in t.sent && r in q.rooms && m in RecentLines(t.rooms, r)
        && m.instanceId != q.inst
      ensures Heard(t.sent[q.conn], m)
    {
      if q.conn == conn {
        assert r == OFFICE_ROOM;
        assert welcome in t.sent[conn] && m in LinesOf(welcome) && SameLine(m, m);
      } else {
        assert q in s.peers;
      }
    }
  }

  lemma JoinedNoEcho(s: State, conn: string, inst: InstanceId, name: string, now: int)
    requires NoEcho(s)
    ensures NoEcho(Joined(s, conn, inst, name, now))
  {
    var t := Joined(s, conn, inst, name, now);
    forall c, f | c in t.sent && c in t.owner && f in t.sent[c] ensures FromOthers(f, t.owner[c]) {
      if c == conn { assert f == t.sent[conn][0]; }
    }
  }

  lemma JoinedBuffers(s: State, conn: string, inst: InstanceId, name: string, now: int)
    requires Buffers(s)
    ensures Buffers(Joined(s, conn, inst, name, now))
  {
    var kept := WithoutInstance(s.peers, inst);
    var t := Joined(s, conn, inst, name, now);
    FilterDropsSome((q: Peer) => q.inst != inst, s.peers);
    forall q | q in s.peers && q.inst != inst ensures Online(t.peers, q.inst) {
      assert q in kept;
      assert q in t.peers;
    }
    if |kept| < |s.peers| { DropBuffers(s, inst, t); } else { SameBuffers(s, t); }
  }

  lemma BroadcastKeepsInv(rules: TextRules, t: State)
    requires Connected(t) && RoomsFollow(rules, t) && Covered(t) && NoEcho(t) && Filed(t.rooms) && Buffers(t)
        && Window(t)
    ensures Inv(rules, Broadcast(t))
  {
    BroadcastMakesCurrent(t);
    BroadcastKeeps(t);
  }

  lemma AttachKeeps(rules: TextRules, s: State, conn: string, inst: InstanceId, name: string, now: int)
    requires Inv(rules, s) && conn !in s.sent
    ensures Inv(rules, AttachStep(s, conn, inst, name, now))
  {
    JoinedConnected(rules, s, conn, inst, name, now);
    JoinedCovered(s, conn, inst, name, now);
    JoinedNoEcho(s, conn, inst, name, now);
    JoinedBuffers(s, conn, inst, name, now);
    BroadcastKeepsInv(rules, Joined(s, conn, inst, name, now));
  }

  // ---- detach ----------------------------------------------------------------------------------

  lemma LeftKeeps(rules: TextRules, s: State, p: Peer)
    requires Connected(s) && RoomsFollow(rules, s) && Covered(s) && Buffers(s) && p in s.peers
    ensures var t := Left(s, p); Connected(t) && RoomsFollow(rules, t) && Covered(t) && Buffers(t)
  {
    var t := Left(s, p);
    FilterKeepsOnePerInstance((q: Peer) => q.conn != p.conn, s.peers);
    forall q | q in s.peers && q.inst != p.inst ensures Online(t.peers, q.inst) {
      if q.conn == p.conn { OnePerInstanceAt(s.peers, p, q); }
      assert q in t.peers;
    }
    DropBuffers(s, p.inst, t);
  }

  lemma DetachKeeps(rules: TextRules, s: State, conn: string)
    requires Inv(rules, s)
    ensures Inv(rules, DetachStep(s, conn))
  {
    if Lookup(s.peers, conn).Some? {
      var p := Lookup(s.peers, conn).value;
      LeftKeeps(rules, s, p);
      BroadcastKeepsInv(rules, Left(s, p));
    }
  }

  // ---- presence --------------------------------------------------------------------------------

  lemma {:induction false} BacklogsCarry(rooms: seq<Room>, entered: seq<string>, inst: InstanceId)
    ensures NoRoster(Backlogs(rooms, entered, inst))
    ensures forall f :: f in Backlogs(rooms, entered, inst) ==>
              f.History? && f.room in entered && f.messages == OthersOnly(RecentLines(rooms, f.room), inst)
    ensures forall r, m :: r in entered && m in RecentLines(rooms, r) && m.instanceId != inst ==>
              Heard(Backlogs(rooms, entered, inst), m)
  {
    if entered != [] {
      BacklogsCarry(rooms, entered[1..], inst);
      var lines := OthersOnly(RecentLines(rooms, entered[0]), inst);
      var head := if lines == [] then [] else [History(entered[0], lines)];
      var all := Backlogs(rooms, entered, inst);
      assert all == head + Backlogs(rooms, entered[1..], inst);
      forall r, m | r in entered && m in RecentLines(rooms, r) && m.instanceId != inst ensures Heard(all, m) {
        if r == entered[0] {
          assert m in lines;
          assert head[0] in all && m in LinesOf(head[0]) && SameLine(m, m);
        } else {
          HeardLater(head, Backlogs(rooms, entered[1..], inst), m);
        }
      }
    }
  }

  lemma ReplaceKeeps(s: State, p: Peer, q: Peer)
    requires Connected(s) && p in s.peers && q.conn == p.conn && q.inst == p.inst
    ensures OnePerInstance(Replace(s.peers, q))
    ensures q in Replace(s.peers, q)
    ensures forall x :: x in Replace(s.peers, q) ==> x == q || (x in s.peers && x.conn != q.conn)
    ensures forall x :: x in s.peers && x != p ==> x in Replace(s.peers, q)
    ensures forall x :: x in s.peers ==> Online(Replace(s.peers, q), x.inst)
  {
    var after := Replace(s.peers, q);
    forall i | 0 <= i < |s.peers| ensures after[i].conn == s.peers[i].conn && after[i].inst == s.peers[i].inst {
      if s.peers[i].conn == q.conn { OnePerInstanceAt(s.peers, s.peers[i], p); }
    }
    forall i, j | 0 <= i < j < |after| ensures after[i].conn != after[j].conn && after[i].inst != after[j].inst {
      assert s.peers[i].conn != s.peers[j].conn && s.peers[i].inst != s.peers[j].inst;
    }
    var k :| 0 <= k < |s.peers| && s.peers[k] == p;
    assert after[k] == q;
    forall x | x in s.peers ensures (x != p ==> x in after) && Online(after, x.inst) {
      var i :| 0 <= i < |s.peers| && s.peers[i] == x;
      assert after[i] in after && after[i].inst == x.inst;
      if x != p && x.conn == p.conn { OnePerInstanceAt(s.peers, x, p); }
    }
  }

  lemma MovedKeeps(rules: TextRules, s: State, p: Peer, agents: seq<Agent>, director: Option<Director>)
    requires Connected(s) && RoomsFollow(rules, s) && Buffers(s) && p in s.peers
    ensures var t := Moved(rules, s, p, agents, director); Connected(t) && RoomsFollow(rules, t) && Buffers(t)
  {
    var t := Moved(rules, s, p, agents, director);
    ReplaceKeeps(s, p, p.(agents := agents, rooms := RoomsOf(rules, agents, director), director := director));
    SameBuffers(s, t);
  }

  lemma MovedNoEcho(rules: TextRules, s: State, p: Peer, agents: seq<Agent>, director: Option<Director>)
    requires Connected(s) && NoEcho(s) && p in s.peers
    ensures NoEcho(Moved(rules, s, p, agents, director))
  {
    var t := Moved(rules, s, p, agents, director);
    var entered := Entered(RoomsOf(rules, agents, director), p.rooms);
    BacklogsCarry(s.rooms, entered, p.inst);
    BacklogsAreFromOthers(s.rooms, entered, p.inst);
    NoEchoMore(s, t, Backlogs(s.rooms, entered, p.inst), p.conn);
  }

  lemma BacklogsAreFromOthers(rooms: seq<Room>, entered: seq<string>, inst: InstanceId)
    ensures forall f :: f in Backlogs(rooms, entered, inst) ==> FromOthers(f, inst)
  {
    BacklogsCarry(rooms, entered, inst);
  }

  /** Frames of others added for one connection echo nothing. */
  lemma NoEchoMore(s: State, t: State, frames: seq<ServerFrame>, conn: string)
    requires NoEcho(s) && conn in s.sent && conn in s.owner && t.owner == s.owner
        && t.sent == SendTo(s.sent, conn, frames)
    requires forall f :: f in frames ==> FromOthers(f, s.owner[conn])
    ensures NoEcho(t)
  {
    forall c, f | c in t.sent && c in t.owner && f in t.sent[c] ensures FromOthers(f, t.owner[c]) {
      if c == conn && f !in s.sent[c] { assert f in frames; }
    }
  }

  lemma MovedCovered(rules: TextRules, s: State, p: Peer, agents: seq<Agent>, director: Option<Director>)
    requires Connected(s) && Covered(s) && p in s.peers
    ensures Covered(Moved(rules, s, p, agents, director))
  {
    var t := Moved(rules, s, p, agents, director);
    var q := p.(agents := agents, rooms := RoomsOf(rules, agents, director), director := director);
    var entered := Entered(q.rooms, p.rooms);
    var frames := Backlogs(s.rooms, entered, p.inst);
    BacklogsCarry(s.rooms, entered, p.inst);
    ReplaceKeeps(s, p, q);
    forall x, r, m | x in t.peers && x.conn in t.sent && r in x.rooms && m in RecentLines(t.rooms, r)
        && m.instanceId != x.inst
      ensures Heard(t.sent[x.conn], m)
    {
      HeardLater(s.sent[p.conn], frames, m);
      if x == q && r !in p.rooms { assert r in entered; }
    }
  }

  /** Declaring the same agents and director again changes and sends nothing at all. */
  lemma RepeatIsSilent(rules: TextRules, s: State, p: Peer)
    requires Connected(s) && RoomsFollow(rules, s) && p in s.peers
    ensures Declare(rules, s, p, p.agents, p.director) == s
  {
    var t := Moved(rules, s, p, p.agents, p.director);
    var q := p.(agents := p.agents, rooms := RoomsOf(rules, p.agents, p.director), director := p.director);
    assert q == p;
    forall i | 0 <= i < |s.peers| ensures Replace(s.peers, p)[i] == s.peers[i] {
      if s.peers[i].conn == p.conn { OnePerInstanceAt(s.peers, s.peers[i], p); }
    }
    assert t.peers == s.peers;
    FilterKeepsNone((r: string) => r !in p.rooms, p.rooms);
    assert s.sent[p.conn] + [] == s.sent[p.conn];
    assert t.sent == s.sent;
  }

  lemma DeclareKeeps(rules: TextRules, s: State, p: Peer, agents: seq<Agent>, director: Option<Director>)
    requires Inv(rules, s) && p in s.peers
    ensures Inv(rules, Declare(rules, s, p, agents, director))
  {
    if p.agents == agents && p.director == director {
      RepeatIsSilent(rules, s, p);
    } else {
      MovedKeeps(rules, s, p, agents, director);
      MovedNoEcho(rules, s, p, agents, director);
      MovedCovered(rules, s, p, agents, director);
      BroadcastKeepsInv(rules, Moved(rules, s, p, agents, director));
    }
  }

  // ---- chat ------------------------------------------------------------------------------------

  lemma {:induction false} FilingAddsTheLine(rooms: seq<Room>, group: seq<string>, msg: Chat)
    requires Filed(rooms)
    ensures Filed(FileAll(rooms, group, msg))
    ensures forall r, m :: m in RecentLines(FileAll(rooms, group, msg), r) ==>
              m in RecentLines(rooms, r) || (r in group && m == msg.(room := r))
    decreases |group|
  {
    if group != [] {
      var g, line := group[0], msg.(room := group[0]);
      var next := PushLine(rooms, g, line);
      PushKeepsApart(rooms, g, line);
      forall r, m | m in RecentLines(next, r) ensures m in RecentLines(rooms, r) || (r == g && m == line) {
        PushAddsOneLine(rooms, g, line, r, m);
      }
      FilingAddsTheLine(next, group[1..], msg);
    }
  }

  lemma PostCovered(s: State, p: Peer, key: Option<string>, clean: Clean, body: string, now: int, id: string)
    requires Connected(s) && Covered(s) && Filed(s.rooms)
    ensures Covered(Post(s, p, key, clean, body, now, id)) && Filed(Post(s, p, key, clean, body, now, id).rooms)
  {
    var t, msg, group := Post(s, p, key, clean, body, now, id), LineOf(p, clean, body, now, id), Group(clean);
    FilingAddsTheLine(s.rooms, group, msg);
    forall q, r, m | q in t.peers && q.conn in t.sent && r in q.rooms && m in RecentLines(t.rooms, r)
        && m.instanceId != q.inst
      ensures Heard(t.sent[q.conn], m)
    {
      var out := ChatFor(s.peers, q.conn, group, msg);
      HeardLater(s.sent[q.conn], out, m);
      if m !in RecentLines(s.rooms, r) { CopyIsHeard(s, q, group, msg, r); }
    }
  }

  lemma CopyIsHeard(s: State, q: Peer, group: seq<string>, msg: Chat, r: string)
    requires Connected(s) && q in s.peers && q.inst != msg.instanceId && r in group && r in q.rooms
    ensures Heard(ChatFor(s.peers, q.conn, group, msg), msg.(room := r))
  {
    LookupFinds(s.peers, q);
    var copy := ChatFor(s.peers, q.conn, group, msg)[0];
    assert copy.msg in LinesOf(copy) && SameLine(copy.msg, msg.(room := r));
  }

  lemma PostNoEcho(s: State, p: Peer, key: Option<string>, clean: Clean, body: string, now: int, id: string)
    requires Connected(s) && NoEcho(s)
    ensures NoEcho(Post(s, p, key, clean, body, now, id))
  {
    var t, msg := Post(s, p, key, clean, body, now, id), LineOf(p, clean, body, now, id);
    forall c, f | c in t.sent && c in t.owner && f in t.sent[c] ensures FromOthers(f, t.owner[c]) {
      if f !in s.sent[c] {
        assert f in ChatFor(s.peers, c, Group(clean), msg);
        CopyIsFromOthers(s, c, Group(clean), msg);
      }
    }
  }

  lemma CopyIsFromOthers(s: State, c: string, group: seq<string>, msg: Chat)
    requires Connected(s) && c in s.owner
    ensures forall f :: f in ChatFor(s.peers, c, group, msg) ==> FromOthers(f, s.owner[c])
  {
    if Lookup(s.peers, c).Some? { assert Lookup(s.peers, c).value in s.peers; }
  }

  lemma PostRosters(s: State, p: Peer, key: Option<string>, clean: Clean, body: string, now: int, id: string)
    requires Connected(s) && RostersCurrent(s)
    ensures RostersCurrent(Post(s, p, key, clean, body, now, id))
  {
    var t := Post(s, p, key, clean, body, now, id);
    forall x | x in t.peers ensures LastRoster(t.sent[x.conn]) == LastRoster(s.sent[x.conn]) {
      ChatForIsNoRoster(s.peers, x.conn, Group(clean), LineOf(p, clean, body, now, id));
      LastRosterSurvives(s.sent[x.conn], ChatFor(s.peers, x.conn, Group(clean), LineOf(p, clean, body, now, id)));
    }
  }

  lemma ChatForIsNoRoster(peers: seq<Peer>, conn: string, group: seq<string>, msg: Chat)
    ensures NoRoster(ChatFor(peers, conn, group, msg))
  {
  }

  lemma SamePeersBuffers(s: State, t: State)
    requires Buffers(s) && t.peers == s.peers && t.completed == s.completed && t.pending == s.pending
    ensures Buffers(t)
  {
  }

  lemma PostKeeps(rules: TextRules, s: State, p: Peer, key: Option<string>, clean: Clean, body: string, now: int,
          id: string)
    requires Inv(rules, s) && p in s.peers
    ensures Inv(rules, Post(s, p, key, clean, body, now, id))
  {
    PostCovered(s, p, key, clean, body, now, id);
    PostNoEcho(s, p, key, clean, body, now, id);
    PostRosters(s, p, key, clean, body, now, id);
    SamePeersBuffers(s, Post(s, p, key, clean, body, now, id));
  }

  lemma HoldingOneMore(pending: map<string, Pending>, key: string, pend: Pending, inst: InstanceId)
    requires key in pending || Held(pending, inst) < MAX_PENDING_CHAT || !(Prefix(inst) <= key)
    requires Held(pending, inst) <= MAX_PENDING_CHAT
    ensures Held(pending[key := pend], inst) <= MAX_PENDING_CHAT
  {
    var more := pending[key := pend];
    var a, b := set k | k in pending && Prefix(inst) <= k, set k | k in more && Prefix(inst) <= k;
    assert b == if Prefix(inst) <= key then a + {key} else a;
  }

  lemma CompletionKeeps(rules: TextRules, s: State, key: string)
    requires Inv(rules, s) && key !in s.completed && ':' in key
    ensures Inv(rules, Complete(s, key))
  {
    CompletionSlides(s, key);
    CompletionDropsPending(s, key);
  }

  lemma CompletionSlides(s: State, key: string)
    requires Window(s) && key !in s.completed && ':' in key
    ensures Window(Complete(s, key))
  {
    var t := Complete(s, key);
    assert t.completed == LastN(t.finished, COMPLETED_CHAT_IDS)
        && s.completed + [key] == LastN(s.finished, COMPLETED_CHAT_IDS) + [key] by {
      WindowSlides(s.finished, s.completed, key);
    }
    forall i, j | 0 <= i < j < |t.finished| && t.finished[i] == t.finished[j] ensures j - i > COMPLETED_CHAT_IDS {
      if j == |s.finished| {
        var skipped := |s.finished| - |s.completed|;
        forall m | skipped <= m < |s.finished| ensures s.finished[m] != key {
          assert s.finished[m] == s.completed[m - skipped];
        }
      }
    }
  }

  lemma CompletionDropsPending(s: State, key: string)
    requires Buffers(s)
    ensures Buffers(Complete(s, key))
  {
    var t := Complete(s, key);
    forall inst: InstanceId ensures Held(t.pending, inst) <= MAX_PENDING_CHAT {
      HeldShrinks(s.pending, t.pending, inst);
    }
    forall k | k in t.pending ensures k !in t.completed {
      assert k in s.pending && k != key;
    }
  }

  lemma WindowSlides(finished: seq<string>, completed: seq<string>, key: string)
    requires completed == LastN(finished, COMPLETED_CHAT_IDS) && key !in completed && key != ""
    requires forall k :: k in finished ==> ':' in k
    ensures Remember(completed, key) == LastN(finished + [key], COMPLETED_CHAT_IDS)
  {
    var c := completed + [key];
    if |c| > COMPLETED_CHAT_IDS {
      assert c[0] in completed;
    }
  }

  lemma StoredChunkBuffers(s: State, p: Peer, key: string, pend: Pending)
    requires Buffers(s) && p in s.peers && ':' in key && KeyOwner(key) == p.inst && key !in s.completed
    requires key in s.pending || Held(s.pending, p.inst) < MAX_PENDING_CHAT
    requires 2 <= |pend.chunks| <= CHAT_MAX_CHUNKS && !Full(pend.chunks)
    ensures Buffers(s.(pending := s.pending[key := pend]))
  {
    var t := s.(pending := s.pending[key := pend]);
    forall inst: InstanceId ensures Held(t.pending, inst) <= MAX_PENDING_CHAT {
      PrefixMeansOwner(key, inst);
      HoldingOneMore(s.pending, key, pend, inst);
    }
    assert Online(t.peers, KeyOwner(key));
  }

  lemma StoredChunkKeeps(rules: TextRules, s: State, pending: map<string, Pending>)
    requires Inv(rules, s) && Buffers(s.(pending := pending))
    ensures Inv(rules, s.(pending := pending))
  {
    var t := s.(pending := pending);
    assert Connected(t) && RoomsFollow(rules, t) && RostersCurrent(t) && Window(t);
    assert Covered(t) && NoEcho(t);
  }

  lemma FilledKeeps(rules: TextRules, s: State, p: Peer, key: string, pend: Pending, now: int, id: string)
    requires Inv(rules, s) && p in s.peers && ':' in key && KeyOwner(key) == p.inst && key !in s.completed
    requires key in s.pending || Held(s.pending, p.inst) < MAX_PENDING_CHAT
    requires 2 <= |pend.chunks| <= CHAT_MAX_CHUNKS
    ensures Inv(rules, Filled(rules, s, p, key, pend, now, id).0)
  {
    if Full(pend.chunks) {
      CompletionKeeps(rules, s, key);
      if rules.trim(Join(pend.chunks)) != "" {
        PostKeeps(rules, Complete(s, key), p, Some(key), pend.clean, Join(pend.chunks), now, id);
      }
    } else {
      StoredChunkBuffers(s, p, key, pend);
      StoredChunkKeeps(rules, s, s.pending[key := pend]);
    }
  }

  lemma ChunkKeeps(rules: TextRules, s: State, p: Peer, d: Decoded, now: int, id: string)
    requires Inv(rules, s) && p in s.peers && d.Chunk? && d.index < d.count && 2 <= d.count <= CHAT_MAX_CHUNKS
    ensures Inv(rules, ChunkStep(rules, s, p, d, now, id).0)
  {
    KeyNamesItsOwner(p.inst, d.messageId);
    var stored, pend := ChunkForms(rules, s, p, d, now, id);
    if stored { FilledKeeps(rules, s, p, Key(p.inst, d.messageId), pend, now, id); }
  }

  /** A chunk is refused, changing nothing, or stored in a buffer of its own count. */
  lemma ChunkForms(rules: TextRules, s: State, p: Peer, d: Decoded, now: int, id: string)
    returns (stored: bool, pend: Pending)
    requires d.Chunk? && d.index < d.count
    ensures !stored ==> ChunkStep(rules, s, p, d, now, id).0 == s
    ensures stored ==>
              var key := Key(p.inst, d.messageId);
              && ChunkStep(rules, s, p, d, now, id) == Filled(rules, s, p, key, pend, now, id)
              && |pend.chunks| == d.count && pend.clean == d.clean && key !in s.completed
              && (key in s.pending || Held(s.pending, p.inst) < MAX_PENDING_CHAT)
  {
    var key := Key(p.inst, d.messageId);
    var was := Opened(s, key, d.count, d.clean);
    stored := && key !in s.completed && (key in s.pending || Held(s.pending, p.inst) < MAX_PENDING_CHAT)
              && |was.chunks| == d.count && was.clean == d.clean
              && (was.chunks[d.index].Some? ==> was.chunks[d.index].value == d.body);
    pend := if stored then Pending(was.clean, was.chunks[d.index := Some(d.body)]) else was;
  }

  // ---- every step, every run -------------------------------------------------------------------

  lemma StepKeeps(rules: TextRules, s: State, e: Event)
    requires Inv(rules, s) && Legal(s, e)
    ensures Inv(rules, Step(rules, s, e))
  {
    match e
    case Attach(conn, inst, name, now) => AttachKeeps(rules, s, conn, inst, name, now);
    case Detach(conn) => DetachKeeps(rules, s, conn);
    case Frame(conn, frame, now, id) =>
      if Lookup(s.peers, conn).Some? { FrameKeeps(rules, s, conn, Lookup(s.peers, conn).value, frame, now, id); }
  }

  lemma FrameKeeps(rules: TextRules, s: State, conn: string, p: Peer, frame: ClientFrame, now: int, id: string)
    requires Inv(rules, s) && Lookup(s.peers, conn) == Some(p)
    ensures Inv(rules, FrameStep(rules, s, conn, frame, now, id).0)
  {
    match frame
    case Ping => PongKeeps(rules, s, p);
    case PresenceFrame(agents, director) =>
      DeclareKeeps(rules, s, p, CleanAgents(rules, agents), CleanDirector(rules, director));
    case ChatFrame(_, _, _, _, _, _, _, _, _) => ChatKeeps(rules, s, p, frame, now, id);
    case UnknownFrame =>
  }

  lemma PongKeeps(rules: TextRules, s: State, p: Peer)
    requires Inv(rules, s) && p in s.peers
    ensures Inv(rules, s.(sent := SendTo(s.sent, p.conn, [Pong])))
  {
    var t := s.(sent := SendTo(s.sent, p.conn, [Pong]));
    LastRosterSurvives(s.sent[p.conn], [Pong]);
    forall q, r, m | q in t.peers && q.conn in t.sent && r in q.rooms && m in RecentLines(t.rooms, r)
        && m.instanceId != q.inst
      ensures Heard(t.sent[q.conn], m)
    {
      HeardLater(s.sent[p.conn], [Pong], m);
    }
    forall c, f | c in t.sent && f in t.sent[c] ensures FromOthers(f, t.owner[c]) {}
    SamePeersBuffers(s, t);
  }

  lemma ChatKeeps(rules: TextRules, s: State, p: Peer, frame: ClientFrame, now: int, id: string)
    requires Inv(rules, s) && p in s.peers && frame.ChatFrame?
    ensures Inv(rules, ChatStep(rules, s, p, frame, now, id).0)
  {
    var d := Decode(rules, p, frame);
    if d.Whole? {
      PostKeeps(rules, s, p, None, d.clean, d.body, now, id);
    } else if d.Chunk? {
      ChunkKeeps(rules, s, p, d, now, id);
    }
  }

  lemma InitialHolds(rules: TextRules, rooms: seq<Room>)
    requires Filed(rooms)
    ensures Inv(rules, Initial(rooms))
  {
  }

  /** Whatever arrives, in whatever order: the invariant holds after every legal run. */
  lemma {:induction false} RunKeeps(rules: TextRules, s: State, events: seq<Event>)
    requires Inv(rules, s) && LegalRun(rules, s, events)
    ensures Inv(rules, Run(rules, s, events))
    decreases |events|
  {
    if events != [] {
      StepKeeps(rules, s, events[0]);
      RunKeeps(rules, Step(rules, s, events[0]), events[1..]);
    }
  }
}
