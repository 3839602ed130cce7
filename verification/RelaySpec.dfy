/** What the office relay does, as a function of its state: every transition of relay/src/core.ts.
    Frames leave through `sent`, one list per connection; it and the other logs only record. */
module RelaySpec {
  import opened Collections
  import opened Protocol
  import opened Roster
  import opened RoomHistory

  datatype Clean = Clean(room: string, rooms: seq<string>, senderName: string, role: string, repoLabel: Option<string>)
  datatype Pending = Pending(clean: Clean, chunks: seq<Option<string>>)

  /** A line that was accepted; `key` names the chunked message it came from, if any. */
  datatype Posted = Posted(key: Option<string>, msg: Chat)

  datatype State = State(
    peers: seq<Peer>,                        // insertion-ordered by connection
    pending: map<string, Pending>,
    completed: seq<string>,                  // insertion-ordered set
    rooms: seq<Room>,
    sent: map<string, seq<ServerFrame>>,     // every frame each connection was ever sent
    owner: map<string, InstanceId>,          // whose connection each one is
    finished: seq<string>,                   // every chunked message completed, in order
    posted: seq<Posted>                      // every line accepted, in order
  )

  function Initial(rooms: seq<Room>): State { State([], map[], [], rooms, map[], map[], [], []) }

  // ---- cleaning what a client reports ----------------------------------------------------------

  /** The shared loop of cleanRooms and cleanKeys: skip blanks, the excluded one, repeats and misfits; stop at eight. */
  function Gather(candidates: seq<string>, fits: string -> bool, exclude: string, out: seq<string>): seq<string>
    decreases |candidates|
  {
    if candidates == [] then out
    else
      var c := candidates[0];
      if c == "" || c == exclude || c in out || !fits(c) then Gather(candidates[1..], fits, exclude, out)
      else if |out| + 1 >= MAX_REPO_ALIASES then out + [c]
      else Gather(candidates[1..], fits, exclude, out + [c])
  }

  function RoomCandidates(rules: TextRules, raw: RawList): seq<string> {
    if raw.NotAList? then []
    else seq(|raw.items|, i requires 0 <= i < |raw.items| => rules.Clip(raw.items[i], 220))
  }

  function KeyCandidates(rules: TextRules, raw: RawList): seq<string> {
    if raw.NotAList? then []
    else seq(|raw.items|, i requires 0 <= i < |raw.items| => rules.lower(rules.Clip(raw.items[i], 200)))
  }

  function CleanRooms(rules: TextRules, raw: RawList, exclude: string): seq<string> {
    Gather(RoomCandidates(rules, raw), (r: string) => rules.IsRepoRoom(r), exclude, [])
  }

  function CleanKeys(rules: TextRules, raw: RawList, exclude: string): seq<string> {
    Gather(KeyCandidates(rules, raw), rules.repoKey, exclude, [])
  }

  function CleanAgent(rules: TextRules, a: RawAgent): Agent {
    var repoKey := rules.lower(rules.Clip(a.repoKey, 200));
    Agent(rules.Clip(a.key, 200), rules.ClipOr(a.name, 40, "agent"), rules.ClipOr(a.role, 24, "implementor"),
          rules.Clip(a.title, 160), repoKey, rules.Clip(a.repoLabel, 120), CleanKeys(rules, a.repoAliases, repoKey))
  }

  function CleanEach(rules: TextRules, raw: seq<RawAgent>): seq<Agent> {
    if raw == [] then []
    else
      var a := CleanAgent(rules, raw[0]);
      (if a.key != "" && a.repoKey != "" then [a] else []) + CleanEach(rules, raw[1..])
  }

  function CleanAgents(rules: TextRules, raw: seq<RawAgent>): seq<Agent> {
    CleanEach(rules, if |raw| <= PRESENCE_MAX_AGENTS then raw else raw[..PRESENCE_MAX_AGENTS])
  }

  function CleanDirector(rules: TextRules, raw: Option<RawDirector>): Option<Director> {
    if raw.None? then None else Some(Director(rules.ClipOr(raw.value.name, 40, "director"), raw.value.busy))
  }

  // ---- rooms -----------------------------------------------------------------------------------

  function AddRoom(rules: TextRules, rooms: seq<string>, key: string): seq<string> {
    var room := RepoRoom(key);
    if rules.IsRepoRoom(room) && room !in rooms then rooms + [room] else rooms
  }

  function AddRooms(rules: TextRules, rooms: seq<string>, keys: seq<string>): seq<string>
    decreases |keys|
  {
    if keys == [] then rooms else AddRooms(rules, AddRoom(rules, rooms, keys[0]), keys[1..])
  }

  function AgentKeys(a: Agent): seq<string> { [a.repoKey] + a.repoAliases }

  function AgentRooms(rules: TextRules, rooms: seq<string>, agents: seq<Agent>): seq<string>
    decreases |agents|
  {
    if agents == [] then rooms else AgentRooms(rules, AddRooms(rules, rooms, AgentKeys(agents[0])), agents[1..])
  }

  /** Membership is a function of what was declared: the office, the directors' room for a console that
      named its director, and a room per identity of each agent's checkout. */
  function RoomsOf(rules: TextRules, agents: seq<Agent>, director: Option<Director>): seq<string> {
    AgentRooms(rules, [OFFICE_ROOM] + (if director.Some? then [DIRECTORS_ROOM] else []), agents)
  }

  // ---- sending ---------------------------------------------------------------------------------

  function SendTo(sent: map<string, seq<ServerFrame>>, conn: string, frames: seq<ServerFrame>)
    : map<string, seq<ServerFrame>>
  {
    if conn in sent then sent[conn := sent[conn] + frames] else sent
  }

  function PresenceTo(peers: seq<Peer>, p: Peer): ServerFrame {
    Presence(RosterFor(peers, p.inst), DirectorsFor(peers, p.inst))
  }

  function PresenceFor(peers: seq<Peer>, conn: string): seq<ServerFrame> {
    match Lookup(peers, conn)
    case None => []
    case Some(p) => [PresenceTo(peers, p)]
  }

  function Broadcast(s: State): State {
    s.(sent := map c | c in s.sent :: s.sent[c] + PresenceFor(s.peers, c))
  }

  // ---- attach and detach -----------------------------------------------------------------------

  function Prefix(inst: string): string { inst + ":" }
  function Key(inst: string, messageId: string): string { Prefix(inst) + messageId }

  function DropPending(pending: map<string, Pending>, inst: string): map<string, Pending> {
    map k | k in pending && !(Prefix(inst) <= k) :: pending[k]
  }

  function WithoutInstance(peers: seq<Peer>, inst: InstanceId): seq<Peer> {
    Filter((p: Peer) => p.inst != inst, peers)
  }

  function WithoutConn(peers: seq<Peer>, conn: string): seq<Peer> {
    Filter((p: Peer) => p.conn != conn, peers)
  }

  /** The newcomer replaces its instance's older connection and is welcomed with the office as it now is. */
  function Joined(s: State, conn: string, inst: InstanceId, name: string, now: int): State {
    var kept := WithoutInstance(s.peers, inst);
    var pending := if |kept| < |s.peers| then DropPending(s.pending, inst) else s.pending;
    var peers := kept + [Peer(conn, inst, name, [], [OFFICE_ROOM], None, now)];
    var welcome := Welcome(RELAY_PROTOCOL, inst, name, RosterFor(peers, inst),
                           OthersOnly(RecentLines(s.rooms, OFFICE_ROOM), inst), DirectorsFor(peers, inst));
    s.(peers := peers, pending := pending, sent := s.sent[conn := [welcome]], owner := s.owner[conn := inst])
  }

  function AttachStep(s: State, conn: string, inst: InstanceId, name: string, now: int): State {
    Broadcast(Joined(s, conn, inst, name, now))
  }

  function Left(s: State, p: Peer): State {
    s.(peers := WithoutConn(s.peers, p.conn), pending := DropPending(s.pending, p.inst))
  }

  function DetachStep(s: State, conn: string): State {
    match Lookup(s.peers, conn)
    case None => s
    case Some(p) => Broadcast(Left(s, p))
  }

  // ---- presence --------------------------------------------------------------------------------

  /** The backlog of each room just entered, unless it holds nobody else's lines. */
  function Backlogs(rooms: seq<Room>, entered: seq<string>, inst: InstanceId): seq<ServerFrame> {
    if entered == [] then []
    else
      var lines := OthersOnly(RecentLines(rooms, entered[0]), inst);
      (if lines == [] then [] else [History(entered[0], lines)]) + Backlogs(rooms, entered[1..], inst)
  }

  function Entered(rooms: seq<string>, before: seq<string>): seq<string> {
    Filter((r: string) => r !in before, rooms)
  }

  function Moved(rules: TextRules, s: State, p: Peer, agents: seq<Agent>, director: Option<Director>): State {
    var rooms := RoomsOf(rules, agents, director);
    s.(peers := Replace(s.peers, p.(agents := agents, rooms := rooms, director := director)),
       sent := SendTo(s.sent, p.conn, Backlogs(s.rooms, Entered(rooms, p.rooms), p.inst)))
  }

  function Declare(rules: TextRules, s: State, p: Peer, agents: seq<Agent>, director: Option<Director>): State {
    var moved := Moved(rules, s, p, agents, director);
    if p.agents != agents || p.director != director then Broadcast(moved) else moved
  }

  function PresenceStep(rules: TextRules, s: State, p: Peer, frame: ClientFrame): State
    requires frame.PresenceFrame?
  {
    Declare(rules, s, p, CleanAgents(rules, frame.agents), CleanDirector(rules, frame.director))
  }

  // ---- chat ------------------------------------------------------------------------------------

  datatype Decoded =
    | Refused(why: Rejection)
    | Whole(clean: Clean, body: string)
    | Chunk(messageId: string, index: nat, count: nat, clean: Clean, body: string)

  function CleanChat(rules: TextRules, frame: ClientFrame, room: string): Clean
    requires frame.ChatFrame?
  {
    var rooms := if room == OFFICE_ROOM || room == DIRECTORS_ROOM then [] else CleanRooms(rules, frame.rooms, room);
    var repoLabel := rules.Clip(frame.repoLabel, 120);
    Clean(room, rooms, rules.ClipOr(frame.senderName, 40, "agent"), rules.ClipOr(frame.role, 24, "implementor"),
          if repoLabel == "" then None else Some(repoLabel))
  }

  /** Everything a chat frame is checked for before the buffers are touched. */
  function Decode(rules: TextRules, p: Peer, frame: ClientFrame): (d: Decoded)
    requires frame.ChatFrame?
    ensures d.Chunk? ==> d.index < d.count && 2 <= d.count <= CHAT_MAX_CHUNKS
  {
    var room := rules.Clip(frame.room, 220);
    if room == DIRECTORS_ROOM && p.director.None? then Refused(NoDirector)
    else if room != OFFICE_ROOM && room != DIRECTORS_ROOM && !rules.IsRepoRoom(room) then Refused(BadRoom)
    else if frame.body.NotText? then Refused(BodyNotText)
    else
      var clean := CleanChat(rules, frame, room);
      var body := frame.body.text;
      if frame.messageId.None? && frame.chunkIndex.None? && frame.chunkCount.None? then
        if |body| > CHAT_MAX_CHARS then Refused(TooLong)
        else if rules.trim(body) == "" then Refused(EmptyMessage)
        else Whole(clean, rules.trim(body))
      else if frame.messageId.None? || frame.chunkIndex.None? || frame.chunkCount.None? then Refused(PartialChunkData)
      else
        var count, index := frame.chunkCount.value, frame.chunkIndex.value;
        if !rules.messageId(frame.messageId.value) then Refused(BadMessageId)
        else if count.NotInteger? || count.value < 2 || count.value > CHAT_MAX_CHUNKS then Refused(BadChunkCount)
        else if index.NotInteger? || index.value < 0 || index.value >= count.value then Refused(BadChunkIndex)
        else if body == "" || |body| > CHAT_MAX_CHARS then Refused(BadChunkBody)
        else Chunk(frame.messageId.value, index.value, count.value, clean, body)
  }

  function Held(pending: map<string, Pending>, inst: string): nat {
    |set k | k in pending && Prefix(inst) <= k|
  }

  predicate Full(chunks: seq<Option<string>>) {
    forall i :: 0 <= i < |chunks| ==> chunks[i].Some?
  }

  function Join(chunks: seq<Option<string>>): string {
    if chunks == [] then "" else (if chunks[0].Some? then chunks[0].value else "") + Join(chunks[1..])
  }

  function Remember(completed: seq<string>, key: string): seq<string> {
    var c := if key in completed then completed else completed + [key];
    if |c| <= COMPLETED_CHAT_IDS || c[0] == "" then c else c[1..]
  }

  function FirstIn(group: seq<string>, rooms: seq<string>): (r: Option<string>)
    ensures r.Some? ==> exists k :: 0 <= k < |group| && group[k] == r.value && r.value in rooms
                                    && forall j :: 0 <= j < k ==> group[j] !in rooms
    ensures r.None? ==> forall g :: g in group ==> g !in rooms
  {
    if group == [] then None
    else if group[0] in rooms then Some(group[0])
    else
      var rest := FirstIn(group[1..], rooms);
      assert rest.Some? ==> exists k :: 0 <= k < |group| && group[k] == rest.value && rest.value in rooms
                                        && forall j :: 0 <= j < k ==> group[j] !in rooms by {
        if rest.Some? {
          var k :| 0 <= k < |group[1..]| && group[1..][k] == rest.value
                   && forall j :: 0 <= j < k ==> group[1..][j] !in rooms;
          assert group[k + 1] == rest.value;
          forall j | 0 <= j < k + 1 ensures group[j] !in rooms { if j > 0 { assert group[1..][j - 1] !in rooms; } }
        }
      }
      rest
  }

  /** The one copy of a line a connection gets: stamped with the first room of the group its peer is in. */
  function ChatFor(peers: seq<Peer>, conn: string, group: seq<string>, msg: Chat): seq<ServerFrame> {
    match Lookup(peers, conn)
    case None => []
    case Some(q) => CopyFor(q, group, msg)
  }

  function CopyFor(q: Peer, group: seq<string>, msg: Chat): seq<ServerFrame> {
    if q.inst == msg.instanceId then []
    else match FirstIn(group, q.rooms)
      case None => []
      case Some(r) => [ChatLine(msg.(room := r))]
  }

  function FileAll(rooms: seq<Room>, group: seq<string>, msg: Chat): seq<Room>
    decreases |group|
  {
    if group == [] then rooms else FileAll(PushLine(rooms, group[0], msg.(room := group[0])), group[1..], msg)
  }

  function LineOf(p: Peer, clean: Clean, body: string, now: int, id: string): Chat {
    Chat(id, clean.room, clean.repoLabel, body, clean.senderName, clean.role, p.inst, p.name, now)
  }

  function Group(clean: Clean): seq<string> { [clean.room] + clean.rooms }

  function Post(s: State, p: Peer, key: Option<string>, clean: Clean, body: string, now: int, id: string): State {
    var msg := LineOf(p, clean, body, now, id);
    s.(rooms := FileAll(s.rooms, Group(clean), msg),
       sent := map c | c in s.sent :: s.sent[c] + ChatFor(s.peers, c, Group(clean), msg),
       posted := s.posted + [Posted(key, msg)])
  }

  function Opened(s: State, key: string, count: nat, clean: Clean): Pending {
    if key in s.pending then s.pending[key] else Pending(clean, seq(count, _ => None))
  }

  function ChunkStep(rules: TextRules, s: State, p: Peer, d: Decoded, now: int, id: string): (State, Option<Rejection>)
    requires d.Chunk? && d.index < d.count
  {
    var key := Key(p.inst, d.messageId);
    if key in s.completed then (s, None)
    else if key !in s.pending && Held(s.pending, p.inst) >= MAX_PENDING_CHAT then (s, Some(TooManyPending))
    else
      var pend := Opened(s, key, d.count, d.clean);
      if |pend.chunks| != d.count || pend.clean != d.clean then (s, Some(ChunkDataChanged))
      else if pend.chunks[d.index].Some? && pend.chunks[d.index].value != d.body then (s, Some(ChunkPayloadChanged))
      else
        Filled(rules, s, p, key, Pending(pend.clean, pend.chunks[d.index := Some(d.body)]), now, id)
  }

  /** A chunk has been put in its place: keep waiting, or the message is whole. */
  function Filled(rules: TextRules, s: State, p: Peer, key: string, pend: Pending, now: int, id: string)
    : (State, Option<Rejection>)
  {
    if !Full(pend.chunks) then (s.(pending := s.pending[key := pend]), None)
    else
      var t := Complete(s, key);
      if rules.trim(Join(pend.chunks)) == "" then (t, Some(EmptyMessage))
      else (Post(t, p, Some(key), pend.clean, Join(pend.chunks), now, id), None)
  }

  function Complete(s: State, key: string): State {
    s.(pending := s.pending - {key}, completed := Remember(s.completed, key), finished := s.finished + [key])
  }

  function ChatStep(rules: TextRules, s: State, p: Peer, frame: ClientFrame, now: int, id: string)
    : (State, Option<Rejection>)
    requires frame.ChatFrame?
  {
    match Decode(rules, p, frame)
    case Refused(why) => (s, Some(why))
    case Whole(clean, body) => (Post(s, p, None, clean, body, now, id), None)
    case Chunk(_, _, _, _, _) => ChunkStep(rules, s, p, Decode(rules, p, frame), now, id)
  }

  // ---- one frame, one event, one run -----------------------------------------------------------

  function FrameStep(rules: TextRules, s: State, conn: string, frame: ClientFrame, now: int, id: string)
    : (State, Option<Rejection>)
  {
    match Lookup(s.peers, conn)
    case None => (s, Some(UnknownConnection))
    case Some(p) =>
      match frame
      case Ping => (s.(sent := SendTo(s.sent, conn, [Pong])), None)
      case PresenceFrame(_, _) => (PresenceStep(rules, s, p, frame), None)
      case ChatFrame(_, _, _, _, _, _, _, _, _) => ChatStep(rules, s, p, frame, now, id)
      case UnknownFrame => (s, Some(UnrecognisedFrame))
  }

  /** What can reach the relay, in any order: `now` and `id` are the clock and the id source at that moment. */
  datatype Event =
    | Attach(conn: string, inst: InstanceId, name: string, now: int)
    | Detach(conn: string)
    | Frame(conn: string, frame: ClientFrame, now: int, id: string)

  /** Connection ids are numbered by the server and never reused. */
  predicate Legal(s: State, e: Event) { e.Attach? ==> e.conn !in s.sent }

  function Step(rules: TextRules, s: State, e: Event): State
    requires Legal(s, e)
  {
    match e
    case Attach(conn, inst, name, now) => AttachStep(s, conn, inst, name, now)
    case Detach(conn) => DetachStep(s, conn)
    case Frame(conn, frame, now, id) => FrameStep(rules, s, conn, frame, now, id).0
  }

  ghost predicate LegalRun(rules: TextRules, s: State, events: seq<Event>)
    decreases |events|
  {
    events == [] || (Legal(s, events[0]) && LegalRun(rules, Step(rules, s, events[0]), events[1..]))
  }

  ghost function Run(rules: TextRules, s: State, events: seq<Event>): State
    requires LegalRun(rules, s, events)
    decreases |events|
  {
    if events == [] then s else Run(rules, Step(rules, s, events[0]), events[1..])
  }
}
