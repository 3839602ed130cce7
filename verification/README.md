# A verified model of the office relay, the command pool, the git caches, the console feed and the desktop controller

This project models the stateful cores of the orchestrator and proves what they promise over every run.
Each core is written twice. A specification gives the state as a datatype and every transition as a
function; its theorems quantify over all legal event sequences, in any interleaving. Beside it, a class (or
a method with the source's own loops) holds the same fields the source updates in place, and each method
is proved to make exactly the transition the specification names.

| file | part of the program |
|---|---|
| `Collections.dfy` | options, JavaScript's string order, the stable sort, shedding the coldest entries |
| `Protocol.dfy`, `Roster.dfy` | frames, agents and peers of the relay; who is told about whom |
| `RepoGroups.dfy` | the union-find over repository names and the shared-repository report |
| `RoomHistory.dfy` | bounded room backlogs |
| `RelaySpec.dfy`, `RelayInvariants.dfy`, `RelayTheorems.dfy`, `RelayCore.dfy` | the relay: transitions, invariant, theorems, and the class |
| `RelayFrames.dfy`, `RelayOffice.dfy` | what the fields of a raw frame come to mean; joining, declaring and leaving |
| `PoolSpec.dfy`, `PoolTheorems.dfy`, `ChildRunner.dfy` | the child-command worker pool |
| `GitReads.dfy` | generation-stamped single-flight caches |
| `Records.dfy`, `Numstat.dfy` | readers of git's NUL-delimited output against its printers |
| `Feed.dfy`, `FeedHistory.dfy`, `Outbox.dfy`, `Memos.dfy`, `Deliverables.dfy` | the console's retention, merges and outbox |
| `Throttle.dfy` | the join throttle against a naive log |
| `ControllerSpec.dfy`, `ControllerTheorems.dfy`, `ControllerScreen.dfy`, `Controller.dfy` | the desktop connection controller |

`dafny verify dfyconfig.toml` checks everything.

## How the world is modelled

- What leaves a program is appended to a log in its state: frames per connection (`sent`), answers per job,
  commands that reached a socket, pages loaded and servers launched. Theorems about what was sent are
  theorems about these logs.
- Promises, timers, worker threads and sockets are events. They may happen in any order that the platform
  allows; `Legal`, `Enabled` and `LegalRun` say which. Connection ids and outbox ids are fresh, as their
  random sources make them, and instance ids hold no `:` (they are hexadecimal).
- Regular expressions, trimming, clipping, lower-casing, URL tests and the locale's order are
  function-valued parameters, so every theorem holds for all of them.

## What the proofs found

- A queued command can be stranded. If the last worker dies, jobs are waiting and the replacement cannot be
  created, they stay queued while later commands run in-process around them: the pool is then marked broken,
  a submit to a broken pool does not look at the queue (server/src/childRunner.ts:229, 357), and only the
  submit during which the pool breaks drains it (server/src/childRunner.ts:371-378). `PoolTheorems.HealthIsLostOnlyByStranding` proves
  that this is the only way, and `PoolTheorems.StrandingHappens` gives the run.
- `git status` prints a source path for copies too, but only codes holding an `R` consume one
  (server/src/gitService.ts:303), so a copy's source is read as another row. `Records.PorcelainRoundTrip`
  is an if-and-only-if; `Records.CopiesAreMisread` gives the input. The function's own comment speaks of a
  leading `R`; the code looks at either column, and the model follows the code.
- A plain numstat row whose path holds a line terminator is dropped, because `.` in the pattern
  (server/src/gitService.ts:322) does not match one. `Numstat.CountedExactlyWhenLegible` says exactly when.
- An older history page survives its own merge when it adds at most one page of new items to any run and in
  all; a reply also carries findings and the brief, which are not paged, and `FeedHistory.PageSurvivesIff`
  gives the exact condition for every reply.

## Model

| member | source | states |
|---|---|---|
| RelayTheorems.EveryReachableState | relay/src/core.ts:123-343 | in every reachable state of the relay: each connected peer has been sent, on this connection, every line now in the backlog of each of its rooms that another instance wrote; by the last roster and directors list it was sent it knows every agent of every other connected instance, each once and in order, and every director of the others with its name, busy flag, arrival and number of agents, and nothing else; no frame carries the recipient's own agents, director or lines; one connection per instance; pending buffers belong to connected instances, are incomplete, at most 32 to an instance and disjoint from the completed window of at most 2048 |
| RelayInvariants.RunKeeps | relay/src/core.ts:140-343 | every legal sequence of attaches, detaches and frames keeps the whole relay invariant |
| RelayInvariants.StepKeeps | relay/src/core.ts:140-189 | so does each single event |
| RelayInvariants.AttachKeeps | relay/src/core.ts:140-158 | an attach keeps the invariant, whichever older connection of the instance it replaces |
| RelayInvariants.DetachKeeps | relay/src/core.ts:160-166 | a detach keeps the invariant and takes the instance's half-sent messages with it |
| RelayInvariants.DeclareKeeps | relay/src/core.ts:191-233 | a presence frame keeps the invariant although it broadcasts only when something changed |
| RelayInvariants.RepeatIsSilent | relay/src/core.ts:224-232 | an identical presence frame changes nothing and sends nothing, because rooms are a function of agents and director |
| Roster.RosterListsAgents | relay/src/core.ts:345-359 | the roster for an instance holds, place by place, every agent of every other peer, stamped with its instance, in connection order and in each peer's own order, once |
| Roster.DirectorsListDirectors | relay/src/core.ts:371-393 | the directors list for an instance holds one entry for each other peer that declared a director, in connection order, with its name, busy flag, arrival and number of agents |
| RelayOffice.AttachWelcomes | relay/src/core.ts:140-158 | a newcomer comes last, in the office alone, with nothing reported; an older connection of its instance and its half-sent messages go, all others stay; it gets a welcome with the office as it is and the others' backlog lines in order, then everyone gets one frame listing who is there |
| RelayOffice.DetachLeaves | relay/src/core.ts:160-166 | a connection that closes is gone with its half-sent messages, everyone else stays and is told once |
| RelayOffice.PresenceDeclares | relay/src/core.ts:191-233 | the sender reports one agent, field by field, for each named row of the first 64, and its director; it gets the others' backlog of each room it newly enters, once; everyone is told who is there if, and only if, its agents or director changed |
| RelayOffice.OtherFramesAreAnswered | relay/src/core.ts:170-185 | a ping is answered to its sender alone; a frame of no known kind or from no known connection is refused and changes nothing |
| RelayFrames.ReportIsRead | relay/src/core.ts:193-206 | the agents reported are, in order, one for each of the first 64 rows with a key and a repository, each field clipped to its own length or defaulted and the keys lower-cased |
| RelayFrames.RoomsAreThoseDeclared | relay/src/core.ts:213-223 | a peer is in the office, in the directors' room if it declared a director, and in `repo:` plus k for exactly the well-formed k that is the key or an alias of one of its agents; each once |
| RelayInvariants.BroadcastMakesCurrent | relay/src/core.ts:456-465 | a broadcast sends each peer one frame, listing exactly the other instances' agents and directors, and nobody else anything, whatever they were told before |
| RelayInvariants.PostKeeps | relay/src/core.ts:242-266 | filing and delivering a line keeps the whole relay invariant, coverage of trimmed backlogs and no-echo included |
| RelayInvariants.ChunkKeeps | relay/src/core.ts:290-329 | one chunk, stored, refused or completing its message, keeps the whole relay invariant |
| RelayInvariants.PrefixMeansOwner | relay/src/core.ts:338-343 | a pending key starts with an instance's prefix exactly when that instance owns it |
| RelayTheorems.LateEventsAreInert | relay/src/core.ts:140-173 | once a connection has closed or its instance has attached again, then after any further run a late close of it, or a frame from it, changes nothing and the frame is rejected |
| RelayTheorems.FanOutIsExact | relay/src/core.ts:235-267 | a frame without chunk data whose room its sender may post to and whose text is at most 2000 characters and not blank becomes one line with that text trimmed and every other field from the frame, the sender, the clock and the id source; a chunk becomes none, or the whole message if it was the last one missing; every other chat frame is refused and changes nothing. A line is filed under every room of its group and reaches exactly the other-instance peers whose rooms meet the group, one frame each, stamped with the first group room the peer is in |
| RelayFrames.DecodeReadsTheFields | relay/src/core.ts:235-300 | by its own fields, which frame is a line and which a chunk, of what message, at which place out of how many, with which text and sender fields; and that no other frame is either |
| RelayFrames.RoomsAreListed | relay/src/core.ts:86-97 | the rooms a line declares are the first eight different repository rooms it lists, clipped, besides its own |
| RelayFrames.FilingIsExact | relay/src/core.ts:256-256 | a line joins the last sixty of every room of its group, stamped with that room, and no other backlog changes while at most 200 rooms are in use; beyond that rooms may go but nothing else comes |
| RelayTheorems.DirectorsRoomIsOptIn | relay/src/core.ts:207-223 | a peer is in the directors' room if and only if it declared a director |
| RelayTheorems.DirectorsLinesReachDirectors | relay/src/core.ts:207-267 | in every run, a frame holding a directors' line is only ever sent to a connection that has a declared director |
| RelayFrames.GatherTakesTheFirst | relay/src/core.ts:86-112 | of any list the loop takes the first eight different admissible names, in their order, and no other |
| RelayTheorems.ReassemblyIsExact | relay/src/core.ts:273-336 | over any run its sender stays connected for, whatever that sender repeats or changes and however others interleave, a chunked message is not delivered before its last missing place is filled; then once, its body the first text to arrive for each place, end to end in the order of the places |
| RelayTheorems.FirstChunkOpens | relay/src/core.ts:302-310 | the first chunk of an unknown id opens its buffer with its text at the place the frame names, unless the sender has 32 open, in which case it is refused and nothing changes |
| RelayTheorems.ChunkArrives | relay/src/core.ts:302-328 | a further chunk of the message puts its text at the place it names if that place is free and its other fields agree, else it changes nothing at all; it releases the whole line, with this frame's moment and id, exactly when no place is left |
| RelayTheorems.JoinIsJoined | relay/src/core.ts:326-326 | the joined body can be cut into exactly the chunks, in index order |
| RelayTheorems.NeverTwiceEver | relay/src/core.ts:302-343 | from any connection and through any reconnect, no run delivers the id of a completed message again until 2048 further chunked messages have completed |
| RelayCoreClass.RelayCore.Attach | relay/src/core.ts:140-158 | the class method makes exactly the attach transition and keeps the invariant |
| RelayCoreClass.RelayCore.Detach | relay/src/core.ts:160-166 | the class method makes exactly the detach transition |
| RelayCoreClass.RelayCore.OnFrame | relay/src/core.ts:170-185 | the class method makes exactly the frame transition and returns the same rejection |
| RelayCoreClass.RelayCore.ApplyPresence | relay/src/core.ts:191-233 | the class method makes exactly the presence transition |
| RelayCoreClass.RelayCore.ApplyChat | relay/src/core.ts:235-267 | the class method makes exactly the chat transition |
| RelayCoreClass.RelayCore.AcceptChunk | relay/src/core.ts:273-329 | the class method stores, refuses or completes a chunk exactly as the specification |
| RelayCoreClass.RelayCore.Deliver | relay/src/core.ts:257-264 | the delivery loop gives each connection exactly its own copy and leaves the other logs alone |
| RelayCoreClass.RelayCore.BroadcastPresence | relay/src/core.ts:456-465 | the broadcast loop sends each connection its own presence frame and no other |
| RelayCoreClass.GatherNames | relay/src/core.ts:86-112 | the loop shared by cleanRooms and cleanKeys computes the function whose bounds are proved |
| RelayCoreClass.BuildRooms | relay/src/core.ts:213-223 | the loop building a room set computes the rooms of the agents and the director |
| RelayCoreClass.EachOnce | relay/src/core.ts:456-465 | sending peer by peer gives every connection its own frames and no others |
| RepoGroups.Find | relay/src/core.ts:433-439 | find returns the root of its key, terminates because parents strictly decrease, and compression moves no root |
| RepoGroups.Union | relay/src/core.ts:440-443 | union adds exactly one edge to the equivalence |
| RepoGroups.RepoGroups | relay/src/core.ts:431-454 | each key is mapped to the smallest key of its class in the least equivalence generated by all key-alias pairs |
| RepoGroups.GroupingIsUnique | relay/src/core.ts:421-454 | that mapping is determined by who works on what, never by connection order |
| RepoGroups.CompressionKeepsRoots | relay/src/core.ts:433-439 | pointing a key at its root changes no root |
| RepoGroups.JoinedPartition | relay/src/core.ts:440-443 | hanging the larger root under the smaller adds one edge and keeps the smallest key as representative |
| RepoGroups.GroupingSettles | relay/src/core.ts:431-454 | a representative represents itself |
| RepoGroups.SharedRepos | relay/src/core.ts:405-422 | the report lists exactly the groups two or more distinct instance names are in |
| RepoGroups.SharedReposIgnoresConnectionOrder | relay/src/core.ts:405-454 | two offices with the same peers in any order report the same groups with the same names |
| RoomHistory.PushAddsOneLine | relay/src/history.ts:25-36 | after a push every line of every room was there before or is the one pushed |
| RoomHistory.PushBounds | relay/src/history.ts:25-61 | at most 200 rooms and sixty lines after every push, other rooms untouched, and the last line of a dropped room is no later than that of any kept |
| RoomHistory.PushWhereThereIsPlace | relay/src/history.ts:25-36 | while at most 200 rooms are in use a push appends to its room, trimmed to sixty, and leaves every other room as it was |
| RoomHistory.PushKeepsItsOwnLine | relay/src/history.ts:25-61 | under a clock that never runs back the room just written keeps its backlog |
| RoomHistory.AppendAllIsTail | relay/src/history.ts:25-31 | trimming after every push leaves what one trim at the end would |
| RoomHistory.PersistedHistory.Push | relay/src/history.ts:25-32 | the class method makes exactly the specified push |
| RoomHistory.PersistedHistory.EvictColdRooms | relay/src/history.ts:54-60 | the deletion loop drops exactly the coldest rooms in stable order |
| PoolTheorems.EveryRun | server/src/childRunner.ts:222-380 | after any legal run each submitted job is in exactly one of the queue, one worker, the in-process set or the answers; each reply answers the job it was posted for; each class starts in submission order and no ordinary job starts past a waiting urgent one; at most POOL_SIZE + 1 workers and POOL_SIZE running ordinary jobs |
| PoolTheorems.AnsweredAtMostOnce | server/src/childRunner.ts:232-278 | no job is answered twice, and an answered job is neither waiting nor running |
| PoolTheorems.EveryEventAnswers | server/src/childRunner.ts:250-343 | a reply, a death or a timeout answers the job of the worker it befell and says which it was; an in-process command answers its own; no other event answers anybody |
| PoolTheorems.HandlingTakesOneReply | server/src/childRunner.ts:252-257 | the message handler reads exactly the oldest reply of its worker |
| PoolTheorems.FinishPostsOneReply | server/src/childRunner.ts:91-131 | the first time a worker's child settles its reply is posted; later settlings of it are not heard |
| PoolTheorems.RunKeeps | server/src/childRunner.ts:222-380 | every event in any order keeps the pool's invariant |
| PoolTheorems.ReplyKeeps | server/src/childRunner.ts:252-257 | handling a reply without comparing ids keeps it, so the reply read is the one the slot's job is owed |
| PoolTheorems.PumpIsWorkConserving | server/src/childRunner.ts:302-352 | after pump, unless its last attempt to make a worker failed, an ordinary job waits only while at least as many workers are busy as the pool has, and an urgent one only while one more is |
| PoolTheorems.ChoiceIsFirst | server/src/childRunner.ts:282-288 | the job chosen is the first of its class, and is ordinary only if no urgent job waits |
| PoolTheorems.UrgentStartsAtOnce | server/src/childRunner.ts:282-352 | an urgent job submitted when no urgent job waits or runs starts at once if a worker is idle or can be made |
| PoolTheorems.PumpStrands | server/src/childRunner.ts:302-308 | pump leaves a queue without a busy worker if and only if no worker is left, jobs wait and the spawn fails |
| PoolTheorems.SubmitLeavesNoneBehind | server/src/childRunner.ts:354-380 | in a broken pool a job runs in-process and nothing else moves; a submit that finds the pool broken takes the whole queue in-process; else nothing runs in-process |
| PoolTheorems.BreaksOnlyWithoutWorkers | server/src/childRunner.ts:222-231 | an event marks the pool broken only if it ends without a worker after trying to make one; broken is for good |
| PoolTheorems.HealthIsLostOnlyByStranding | server/src/childRunner.ts:222-380 | a healthy pool becomes unhealthy at a step if and only if, outside a submit, it lost its last worker with jobs waiting and the next spawn fails |
| PoolTheorems.NoJobIsStranded | server/src/childRunner.ts:260-380 | over a run without that, a waiting job always has some worker's deadline running ahead of it |
| PoolTheorems.StrandingHappens | server/src/childRunner.ts:260-266 | a concrete legal run with one worker and no replacement, after which a job is still queued while a job submitted later runs in-process |
| PoolTheorems.LostSlotLeaves | server/src/childRunner.ts:236-272 | a slot whose worker died or timed out is out of the pool when the handler ends |
| PoolTheorems.LostWorkerLeaves | server/src/childRunner.ts:258-343 | a worker that failed, exited or timed out, busy or idle, is out of the pool when its handler ends |
| PoolTheorems.GoneStaysGone | server/src/childRunner.ts:222-278 | a slot that left the pool never returns, so nothing is posted to its worker again |
| ChildRunner.ChildPool.Pump | server/src/childRunner.ts:302-352 | the dispatch loop computes exactly the specified pump |
| ChildRunner.ChildPool.NextJobIndex | server/src/childRunner.ts:282-288 | the choice as the source makes it is the specified one |
| ChildRunner.ChildPool.SpawnSlot | server/src/childRunner.ts:222-278 | a new slot joins the pool, or the pool is marked broken only when no slot is left |
| ChildRunner.ChildPool.OnReply | server/src/childRunner.ts:252-257 | the message handler makes exactly the reply transition |
| ChildRunner.ChildPool.OnError | server/src/childRunner.ts:260-266 | the error handler answers, drops and pumps as specified |
| ChildRunner.ChildPool.OnExit | server/src/childRunner.ts:270-273 | the exit handler also drops an idle slot |
| ChildRunner.ChildPool.OnWatchdog | server/src/childRunner.ts:330-343 | the watchdog answers, drops and pumps as specified |
| ChildRunner.ChildPool.RunChild | server/src/childRunner.ts:354-380 | a submit queues and pumps, or runs in-process, and drains the queue when the first worker cannot start |
| GitReads.EveryRun | server/src/gitService.ts:72-135 | however loads interleave, and with a load free to fail before the reads it began have finished, each cached or shared load belongs to the current generation and dependencies are no older than what rests on them |
| GitReads.OneUnfinishedLoad | server/src/gitService.ts:76-92 | at most one load per flight key of the current generation is unfinished |
| GitReads.StoredValueRestsOnItsGeneration | server/src/gitService.ts:72-98 | a cached value rests, through any nesting of caches, only on loads begun in the generation it was stored in |
| GitReads.ResolvedValueRestsOnItsGeneration | server/src/gitService.ts:72-98 | a value that resolved in the generation it was begun in rests, after any further run and any later bust, only on the answers of loads of that generation |
| GitReads.ReadsAfterBustAreFresh | server/src/gitService.ts:993-1010 | no read issued after a bust, by a caller or by a running load, is answered from, joined to or built on a load begun before it, in any later run and through any nesting |
| GitReads.ReadsAreServed | server/src/gitService.ts:76-92 | after any run, a read of a key whose value was published less than ttl before, with no bust since, returns that value and begins nothing, and only such a value is ever returned from the cache; else it joins the load of its flight key under way in this generation; else, and only then, it begins exactly one load |
| GitReads.EntriesAreStored | server/src/gitService.ts:82-85 | after any run the cache holds, for exactly the keys published under since the last bust, the last value published and its moment |
| GitReads.OutcomeIsWhatItFinishedWith | server/src/gitService.ts:81-91 | a load keeps for good the value or the failure it finished with |
| GitReads.NestedReadsAreOnRecord | server/src/gitService.ts:76-92 | a load that reads another cache depends on exactly the load it was answered from, besides those it depended on before |
| GitReads.ReadKeeps | server/src/gitService.ts:76-92 | a read keeps the caches' invariant and is always answered by a load of the current generation |
| GitReads.GitCaches.Read | server/src/gitService.ts:76-92 | a fresh entry, else the load under way in this generation, else a new load; what that means over runs is ReadsAreServed |
| GitReads.GitCaches.Publish | server/src/gitService.ts:82-85 | a value is stored only if its load began in the current generation |
| GitReads.GitCaches.Settle | server/src/gitService.ts:86-89 | a flight ends only if its own promise is still the one in it |
| GitReads.GitCaches.Complete | server/src/gitService.ts:80-91 | a load that finishes, with a value or an error and at any moment, changes only its own promise |
| GitReads.GitCaches.BustGitCaches | server/src/gitService.ts:993-1003 | a bust empties every cache and starts a new generation |
| Records.ParsePorcelain | server/src/gitService.ts:296-310 | the index loop reads exactly the specified rows |
| Records.PorcelainRoundTrip | server/src/gitService.ts:294-310 | reading printed rows gives them back if and only if every rename, and nothing else, has a source (a final rename may lack it) |
| Records.CopiesAreMisread | server/src/gitService.ts:303-307 | a copy row that is not read back |
| Records.ParseNameStatus | server/src/gitService.ts:759-772 | the index loop reads exactly the specified rows |
| Records.NameStatusRoundTrip | server/src/gitService.ts:757-772 | reading printed rows gives them back if and only if every rename or copy, and nothing else, has a source |
| Records.SplitPrinted | server/src/gitService.ts:297-297 | splitting NUL-terminated records gives them back, with the empty text after the last NUL |
| Numstat.ParseNumstat | server/src/gitService.ts:314-336 | the token loop computes exactly the specified table |
| Numstat.HeadMatchesThePattern | server/src/gitService.ts:322-322 | one greedy pass matches a token if and only if the pattern has some match, and its parts are one |
| Numstat.NumstatRoundTrip | server/src/gitService.ts:312-336 | for all printed rows the table read is that of the rows, last row winning, less exactly the plain rows whose path holds a line terminator |
| Numstat.NumstatInverts | server/src/gitService.ts:312-336 | with one-line paths the table read is exactly the rows' own |
| Numstat.CountedExactlyWhenLegible | server/src/gitService.ts:322-333 | a path has counts if and only if some legible row names it |
| Numstat.DecimalReadsBack | server/src/gitService.ts:325-326 | a printed count reads back as itself |
| Feed.CapFeedLoop | web/src/store.ts:2276-2296 | the counting and skipping loops keep, per run, all but the oldest overflow, then the newest of the whole |
| Feed.CapKeepsOrder | web/src/store.ts:2276-2296 | the capped feed is a subsequence of the feed: nothing is added, repeated or moved, within a run or across runs |
| Feed.StreamingEqualsBatch | web/src/store.ts:2276-2311 | at a fixed page count, pushing any items with distinct ids one at a time gives exactly capFeed of the whole list |
| Feed.CapOneMore | web/src/store.ts:2276-2308 | capping the capped list with one more item is capping the whole list |
| Feed.KeepsNewestOfRun | web/src/store.ts:2286-2294 | the per-run cap keeps exactly the newest items of each run |
| Feed.CapBounds | web/src/store.ts:2276-2296 | at most 800 rows of a run and 5000 in all, 400 more for each older page, and each run keeps a suffix of its items |
| Feed.CapDropsNothingIff | web/src/store.ts:2276-2296 | capFeed drops nothing if and only if the list is within both caps |
| Feed.CapIsIdempotent | web/src/store.ts:2276-2296 | capping twice is capping once |
| Feed.RowsCountAgainstTheirRun | web/src/store.ts:2246-2250 | which rows count against a run's cap: those it carries, the findings that came from it, and the rows of no run together |
| Feed.RowsAreMessages | web/src/store.ts:2254-2258 | which rows are a given message |
| FeedHistory.EveryRunIsGood | web/src/store.ts:2298-2311 | after any live items, pages and resets the feed is within the caps for its pages and holds no message id twice |
| FeedHistory.OlderPageSurvives | web/src/store.ts:2848-2912 | a requested older page adding at most one page of new items is kept whole, and so is every live item no row replaces; the feed is in time order, oldest first |
| FeedHistory.MergedIsInTimeOrder | web/src/store.ts:2875-2890 | the merged feed stands oldest first; of one moment, the rows come before the live items that no row replaces, by message or by finding, and each keep their own order |
| FeedHistory.PageKeepsTheNewest | web/src/store.ts:2875-2890 | after any page the feed is in time order, and an item the caps drop is no newer than any they keep of its run |
| FeedHistory.LiveItemIsAddedOnce | web/src/store.ts:2298-2311 | a live item whose message is shown already leaves the feed unchanged; any other stands last, and nothing goes while the caps hold |
| FeedHistory.PageSurvivesIff | web/src/store.ts:2888-2890 | any merge drops nothing if and only if its result, which is in time order, fits the raised caps |
| FeedHistory.OnePageOfRowsIsEnough | web/src/store.ts:2848-2890 | a reply of at most one page of rows always meets that condition |
| FeedHistory.CursorIsRunningMinimum | web/src/store.ts:2262-2266 | the history cursor is the oldest first message, by time then id, since the last reset |
| FeedHistory.ReplayKeepsPosition | web/src/store.ts:2891-2909 | a reconnect that replays a newer page moves neither cursor, page count nor "has more" |
| FeedHistory.PageSetsPosition | web/src/store.ts:2888-2909 | a page counts when it was asked for and not empty, and any reply but a replay of newer rows says whether there are more |
| Outbox.EveryRun | web/src/store.ts:1163-1251 | in every run each message shown as sending or accepted has its command held, and an id that failed is never sent again |
| Outbox.ReplayLosesNothing | web/src/store.ts:1241-1251 | a reconnect replays every pending message and never reaches the "lost" branch |
| Outbox.ReplaySends | web/src/store.ts:1241-1251 | a reconnect sends every pending message the socket takes, once each, in the order shown, and nothing else, and each waits for its answer again |
| Outbox.PendingUntilAnswered | web/src/store.ts:1163-1251 | through any run without its failure, its receipt or its own event, a message stays pending with its command as it was written, across retries, reconnects and reloads that stored it |
| Outbox.EveryReconnectSendsIt | web/src/store.ts:1241-1251 | so every reconnect that reaches the socket sends it again, whatever happened in between |
| Outbox.SilenceIsNotFailure | web/src/store.ts:1155-1239 | a message sent is shown, held and, if it can be, stored; while no answer comes its timer sends it again and waits on |
| Outbox.RetryReplaysThePending | web/src/store.ts:1200-1205 | retrying a message that has not failed sends it once more under the id it has |
| Outbox.AcceptanceIsShown | web/src/store.ts:1190-1196 | an accepted message stops being shown as sending, and nothing else changes |
| Outbox.ReplacedIsHeld | web/src/store.ts:2298-2311 | a message's own event takes its place on screen while its command is held until the receipt |
| Outbox.ReceiptsEndIt | web/src/store.ts:1218-1226 | after a receipt nothing of the message is shown, held, stored or waited for |
| Outbox.FailedIsResent | web/src/store.ts:1176-1216 | a failed message's command is kept for the owner, and a resend sends the same body under the new id, in its place |
| Outbox.DiscardTakesTheFailed | web/src/store.ts:1799-1802 | discarding takes a failed message and its command and nothing still on its way |
| Outbox.ReloadRestoresTheStored | web/src/store.ts:1123-1127 | after a reload exactly what was stored is on its way again, in the stored order |
| Outbox.ResendIsANewMessage | web/src/store.ts:1207-1216 | a resend carries the failed message's body under a fresh id that never failed, and replaces it on screen |
| Outbox.Console.Send | web/src/store.ts:1228-1239 | sending shows, holds, stores and transmits exactly as specified |
| Outbox.Console.Fail | web/src/store.ts:1176-1187 | a failure moves the command to the resendable ones and marks the message |
| Outbox.Console.Receive | web/src/store.ts:1218-1226 | receipts drop commands, timers and stored copies of exactly their ids |
| Outbox.Console.Resend | web/src/store.ts:1207-1216 | the method makes exactly the resend transition |
| Outbox.Console.ReplaySending | web/src/store.ts:1241-1251 | the loop replays message by message and changes neither messages nor commands |
| Memos.MergeImplementationMemos | web/src/implementationMemos.ts:5-18 | the list returned holds the merged memos once each, by revision and within one revision by creation |
| Memos.MergeConverges | web/src/implementationMemos.ts:9-16 | into any list already there, when id and clock determine content, any order, grouping and repetition of the same deliveries gives the same memos |
| Memos.ListsConverge | web/src/implementationMemos.ts:5-18 | the same of the shown lists: replies merged list by list, in any order, grouping and repetition, end in the same sorted list when no two memos tie in the sort |
| Memos.MergeCommutes | web/src/implementationMemos.ts:9-16 | into any list already there, history then live events equals live events then history, when id and clock determine content |
| Memos.MergeIsIdempotent | web/src/implementationMemos.ts:12-15 | merging the same delivery again into what it was merged into changes nothing, with no assumption on clocks |
| Memos.MergeAssociates | web/src/implementationMemos.ts:9-16 | merging two replies in turn equals merging them joined, with no assumption on clocks |
| Memos.ListRoundTrips | web/src/implementationMemos.ts:9-17 | the stored list reads back into the map it came from |
| Memos.ListIsDetermined | web/src/implementationMemos.ts:17-17 | with distinct sort keys the shown list is determined by the memos |
| Memos.FeaturedIsNewestUseful | web/src/implementationMemos.ts:28-33 | the report featured is the completed one that is not blank with the greatest revision, then creation, whenever one exists, whatever the newest attempt was; else the newest attempt |
| Deliverables.MergeThreadDeliverables | web/src/threadDeliverables.ts:8-13 | the list shows exactly the merged deliverables in display order |
| Deliverables.NothingIsErased | web/src/threadDeliverables.ts:3-13 | no card shown or delivered is lost, and what a card shows is one of the two |
| Deliverables.LatestRowShows | web/src/threadDeliverables.ts:8-13 | of several rows of one deliverable the latest shows, the reply's if it has one |
| Deliverables.CardsStandOldestFirst | web/src/threadDeliverables.ts:12-12 | cards stand by creation and then as the locale orders ids, whatever the locale |
| Deliverables.ReplayChangesNothing | web/src/threadDeliverables.ts:8-13 | merging the same reply again changes nothing, whatever was there before it |
| Deliverables.MergeDeliverableIndexes | web/src/threadDeliverables.ts:25-34 | each thread a snapshot names shows the merge of both its lists, and every other thread keeps its list |
| Deliverables.DeliverablesByThread | web/src/threadDeliverables.ts:15-22 | grouping row by row gives each thread what one merge of its rows would |
| Throttle.LimitedRefinesTheLog | relay/src/access.ts:80-97 | with a clock that never runs back, an address is refused only if at least its allowance of wrong codes lies within the last hour of the full log, and exactly then if it was never evicted |
| Throttle.FewAddressesAreNeverShed | relay/src/access.ts:99-110 | while no more addresses than the table may hold have sent wrong codes, none is ever evicted |
| Throttle.MissIsRemembered | relay/src/access.ts:84-110 | after each wrong code at most maxKeys addresses remain and the one just recorded keeps its whole last hour |
| Throttle.RecordRecent | relay/src/access.ts:94-110 | recording and sweeping add the new time to its address, age nothing early, and otherwise only drop whole addresses |
| Throttle.SweepShape | relay/src/access.ts:99-110 | a sweep leaves at most maxKeys addresses, each with exactly its live times |
| Throttle.SweepShedsTheColdest | relay/src/access.ts:99-110 | with room for all live addresses none goes; otherwise as few as must, and the last wrong code of one that goes is no later than that of any that stays |
| Throttle.JoinThrottle.Limited | relay/src/access.ts:80-82 | the method refuses an address only if the log of its wrong codes shows the allowance used within the hour, and exactly then if the address was never shed |
| Throttle.JoinThrottle.RecordMiss | relay/src/access.ts:84-87 | the method makes exactly the specified update and keeps the bound |
| Throttle.JoinThrottle.SweepTable | relay/src/access.ts:99-110 | the loop and the eviction compute exactly the specified sweep |
| ControllerTheorems.OneLiveActivity | desktop/src/controller.ts:179-243 | in every run at most one suspended call or pending timer belongs to the current attempt, and a pending timer always does |
| ControllerTheorems.SupersededCallsAreInert | desktop/src/controller.ts:107-247 | a call superseded once resumes, after any run, without changing view, page, timer, resume target or launches |
| ControllerTheorems.FiringAlwaysProbes | desktop/src/controller.ts:198-224 | a timer that fires always starts one probe under the attempt that set it |
| ControllerTheorems.OneLaunchPerAttempt | desktop/src/controller.ts:107-128 | servers are launched at most once per attempt, in attempt order |
| ControllerTheorems.LaunchesExactlyOnFreeCheck | desktop/src/controller.ts:107-128 | in any state and for any event, a server is launched exactly when a port check of the current attempt resumes and finds the port free, and for the checkout that check was made for |
| ControllerTheorems.StartingTwiceIsNothing | desktop/src/controller.ts:107-112 | Start does nothing at any stage of a start under way |
| ControllerTheorems.ClosingIsQuiet | desktop/src/controller.ts:308-321 | after the window closes nothing in flight changes the view, sets a timer, loads a page or launches a server |
| ControllerTheorems.RetriesBackOff | desktop/src/controller.ts:198-208 | after connecting and n failed probes the next failure waits the n-th of 1.5, 3, 5, 8, 12 and 15 seconds, the last repeating, and the screen shows that moment |
| ControllerTheorems.RunKeeps | desktop/src/controller.ts:99-247 | every event in any order keeps the controller's invariant |
| ControllerScreen.ConsoleLoadsExactlyWhenFound | desktop/src/controller.ts:179-290 | when a current probe finds the console exactly one page is loaded, the one to resume if it is on this server and its root otherwise; nothing else loads any page but the connection screen; and after any other event an open window has been given the view as it now is, dated when its phase began, with a retry's moment only while that retry is scheduled |
| ControllerScreen.ConnectingLandsOnItsPage | desktop/src/controller.ts:179-229 | after connecting, and however many probes failed meanwhile, the probe that finds the server loads the page connecting was for, else the one to resume, else the root |
| ControllerScreen.LostPageComesBack | desktop/src/controller.ts:221-238 | a page of this server that stopped loading is the one loaded when the server answers again |
| ControllerScreen.ConnectingPaintsUnlessLive | desktop/src/controller.ts:179-186 | connecting leaves a live console page on screen and paints any other window at once |
| ControllerScreen.PagesAreLostExactly | desktop/src/controller.ts:308-322 | a page is lost exactly when it is of this server and answers with a server error or its main frame fails; a dead renderer is a crash with its page to return to |
| ControllerScreen.ScreenIsTrue | desktop/src/controller.ts:251-268 | in every reachable state the screen says rightly whether its address is local and Node is there, and shows a checkout's port exactly when it is not the address's |
| ControllerScreen.StartNeedsItsConditions | desktop/src/controller.ts:107-114 | Start acts only for a local address, with a checkout configured for its port or none, with Node, and not while a start is under way |
| ControllerScreen.StartSaysHowItWent | desktop/src/controller.ts:112-127 | a port another program holds or a server that will not start ends the start and says why; a launched one shows its log |
| ControllerScreen.StartGivesUpInTime | desktop/src/controller.ts:209-219 | a launched server is polled until three minutes after its launch |
| ControllerScreen.FailedProbeSaysWhy | desktop/src/controller.ts:188-196 | a probe that does not find the console says whether another program answers; a lost page stays lost |
| ControllerScreen.RequestsLead | desktop/src/controller.ts:66-137 | opening and retrying lead to the page to resume, going back to the root, a new address to its own root |
| ControllerScreen.LinksLead | desktop/src/controller.ts:80-97 | a link for this server signs in with its ticket or opens its task, on the live console if there is one; any other only makes sure there is something to see |
| ControllerScreen.ChoiceIsShown | desktop/src/controller.ts:139-153 | a folder chosen is shown and remembered if it is a checkout, and refused on screen if not |
| Controller.DesktopController.OnStart | desktop/src/controller.ts:107-112 | the click keeps the controller's invariant and makes the transition the theorems quantify over |
| Controller.DesktopController.OnResume | desktop/src/controller.ts:107-224 | resuming any suspended call, wherever it was suspended, keeps the invariant and makes the specified step |
| Controller.DesktopController.OnTimer | desktop/src/controller.ts:203-216 | a firing timer keeps the invariant and leaves one new call, under the attempt that was current |
| Controller.DesktopController.OnDeepLink | desktop/src/controller.ts:80-97 | a deep link keeps the invariant and makes the specified step |
| Controller.DesktopController.OnClosed | desktop/src/controller.ts:308-321 | closing the window keeps the invariant and makes the specified step |
| Collections.SortSorts | web/src/implementationMemos.ts:17-17 | the stable sort the source relies on orders its input |
| Collections.SortedIsUnique | web/src/implementationMemos.ts:17-17 | two sorted arrangements of the same elements under a strict order are equal |
| Collections.SortIsStable | web/src/store.ts:2890-2890 | elements the order does not tell apart keep their places among themselves |
| Collections.LessAtTheFirstDifference | relay/src/core.ts:442-442 | the first character at which two strings differ decides their order, or else where one of them ends |
| Collections.DropColdestKeepsWarmest | relay/src/history.ts:54-60 | shedding n entries in sorted order removes exactly n, none warmer than any kept |
| Collections.DropColdestKeepsNewest | relay/src/access.ts:107-109 | an entry appended last and no colder than the rest survives |

## Left out

- Transport, HTTP routes, TLS, authentication, cookies, and the relay's choice of instance ids: only the facts the core assumes of them are kept.
- MemoryHistory (relay/src/core.ts:20-36): an unbounded-room variant of the persisted history used without a state file.
- Writing and reading the history file, and activeRooms, roster and online of the status page: storage and display.
- Frames whose agents are null, which make the relay throw, and frames whose agents are not a list, which read as an empty one; the model takes a list.
- Agent fields other than key, repository key, label and aliases are compared structurally; JSON text is not built.
- String lengths and order count characters, where JavaScript counts UTF-16 units; the two differ outside the basic plane.
- FilingIsExact: says what every backlog holds while at most 200 rooms are in use; past that, filing under the later rooms of a group may evict an earlier one, and only PushBounds and PushKeepsItsOwnLine speak of it.
- ReassemblyIsExact: follows a sender that stays connected; a reconnect discards the unfinished message, as DetachKeeps says.
- childRunner's process spawning, output decoding, keeping the process alive, slow-wait reports and test hooks: outcomes of a job are events, and a non-integer CHILD_WORKER_POOL is not modelled.
- The git caches stand in one pair of maps keyed by cache and key; what a load runs is not modelled, only which loads it read. Rows of status are not classified into display verbs.
- Numstat counts above 2^53, which JavaScript would round, are exact in the model.
- The message-to-item conversion, the brief row's text and run indexes of a history reply: the merge takes its rows as given, and a message id is its text or absent.
- Write failures of localStorage, attachments, and the order in which stored messages are restored: whether a command survives a reload is a flag of the command.
- Of the hello frame only its receipts are modelled; finalReportFor only guards the featured memo whose choice is proved.
- The controller's window placement, title bar, log opening, external links and address validation; the file-system search for a checkout is a fixed function of the chosen folder.
- AdminSessions, normalizeIp, clientIp and sanitizeName (relay/src/access.ts): small independent helpers.
- The React interface, settings, patch notes, updates and the server-side handlers behind the console's commands.
