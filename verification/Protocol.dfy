/** The wire contract of the office relay: what peers send, what they receive, and the fixed bounds. */
module Protocol {
  import opened Collections

  const RELAY_PROTOCOL := 1
  const OFFICE_ROOM := "office"
  const DIRECTORS_ROOM := "directors"
  const CHAT_MAX_CHARS := 2000
  const CHAT_MAX_CHUNKS := 64
  const PRESENCE_MAX_AGENTS := 64
  const ROOM_HISTORY := 60
  const MAX_REPO_ALIASES := 8
  const MAX_PENDING_CHAT := 32
  const COMPLETED_CHAT_IDS := 2048

  function RepoRoom(repoKey: string): string { "repo:" + repoKey }

  /** Instance ids are issued as hex text, so the ':' that separates the two halves of a chunk key never
      occurs in one. */
  type InstanceId = s: string | ':' !in s witness ""

  datatype Agent = Agent(key: string, name: string, role: string, title: string,
                         repoKey: string, repoLabel: string, repoAliases: seq<string>)
  datatype Director = Director(name: string, busy: Option<bool>)

  datatype PresentAgent = PresentAgent(agent: Agent, instanceId: InstanceId, instanceName: string)
  datatype PresentDirector = PresentDirector(instanceId: InstanceId, instanceName: string, name: string,
                                             agents: nat, since: int, busy: Option<bool>)

  datatype Chat = Chat(id: string, room: string, repoLabel: Option<string>, body: string, senderName: string,
                       role: string, instanceId: InstanceId, instanceName: string, at: int)

  datatype ServerFrame =
    | Welcome(protocol: int, instanceId: InstanceId, instanceName: string, presence: seq<PresentAgent>,
              recent: seq<Chat>, directors: seq<PresentDirector>)
    | Presence(agents: seq<PresentAgent>, directors: seq<PresentDirector>)
    | History(room: string, messages: seq<Chat>)
    | ChatLine(msg: Chat)
    | Pong

  // ---- what a client may put in a frame: any JSON where text was expected ----------------------

  datatype Raw = Text(text: string) | NotText
  datatype RawList = Items(items: seq<Raw>) | NotAList
  datatype RawNumber = Integer(value: int) | NotInteger
  datatype RawAgent = RawAgent(key: Raw, name: Raw, role: Raw, title: Raw, repoKey: Raw, repoLabel: Raw,
                               repoAliases: RawList)
  datatype RawDirector = RawDirector(name: Raw, busy: Option<bool>)

  datatype ClientFrame =
    | Ping
    | PresenceFrame(agents: seq<RawAgent>, director: Option<RawDirector>)
    | ChatFrame(room: Raw, rooms: RawList, body: Raw, senderName: Raw, role: Raw, repoLabel: Raw,
                messageId: Option<string>, chunkIndex: Option<RawNumber>, chunkCount: Option<RawNumber>)
    | UnknownFrame

  datatype Rejection =
    | UnknownConnection | UnrecognisedFrame | NoDirector | BadRoom | BodyNotText | TooLong | EmptyMessage
    | PartialChunkData | BadMessageId | BadChunkCount | BadChunkIndex | BadChunkBody | TooManyPending
    | ChunkDataChanged | ChunkPayloadChanged

  /** The text handling the relay takes from the language: clipping and trimming, case folding, and the
      three patterns. Everything proved holds whatever these functions are. `roomTail` is the room pattern
      behind its literal `repo:` head. */
  datatype TextRules = TextRules(
    clip: (string, nat) -> string,
    lower: string -> string,
    trim: string -> string,
    roomTail: string -> bool,
    repoKey: string -> bool,
    messageId: string -> bool
  )
  {
    predicate IsRepoRoom(room: string) { "repo:" <= room && roomTail(room[5..]) }
    function Clip(raw: Raw, n: nat): string { if raw.Text? then clip(raw.text, n) else "" }
    function ClipOr(raw: Raw, n: nat, default: string): string {
      if Clip(raw, n) == "" then default else Clip(raw, n)
    }
  }
}
