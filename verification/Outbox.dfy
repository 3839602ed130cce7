/** The console's outbox: optimistic messages, the commands behind them, and what may be sent when
    (web/src/store.ts). */
module Outbox {
  import opened Collections

  datatype Status = Sending | Accepted | Failed
  datatype Message = Message(id: string, status: Status, resendable: bool)

  /** The wire command beside a message; `storable` is whether it survives a reload (text only). */
  datatype Command = Command(clientId: string, body: string, storable: bool)

  datatype Entry = Sent(id: string) | FailedAt(id: string)

  datatype State = State(
    messages: seq<Message>,
    commands: map<string, Command>,     // replayed until answered
    failed: map<string, Command>,       // kept only for the owner's resend
    timers: set<string>,
    stored: map<string, Command>,       // what a reload restores
    log: seq<Entry>,                    // every command that reached a socket, every failure
    used: set<string>                   // every id the console has seen
  )

  function Initial(): State { State([], map[], map[], {}, map[], [], {}) }

  // ---- transitions -----------------------------------------------------------------------------

  /** sendCommand: false while the socket cannot take it. */
  function Transmit(s: State, id: string, online: bool): State
    requires id in s.commands
  {
    if online then s.(log := s.log + [Sent(s.commands[id].clientId)], timers := s.timers + {id}) else s
  }

  function SendOutbound(s: State, command: Command, online: bool): State {
    var id := command.clientId;
    Transmit(s.(messages := s.messages + [Message(id, Sending, false)],
                commands := s.commands[id := command],
                stored := if command.storable then s.stored[id := command] else s.stored,
                used := s.used + {id}), id, online)
  }

  function Mark(messages: seq<Message>, id: string, resendable: bool): seq<Message> {
    seq(|messages|, i requires 0 <= i < |messages| =>
      if messages[i].id == id then Message(id, Failed, resendable) else messages[i])
  }

  function FailOutbound(s: State, id: string): State {
    var held := id in s.commands;
    s.(messages := Mark(s.messages, id, held),
       commands := s.commands - {id},
       failed := if held then s.failed[id := s.commands[id]] else s.failed,
       timers := s.timers - {id},
       stored := s.stored - {id},
       log := s.log + [FailedAt(id)],
       used := s.used + {id})
  }

  function AcceptOutbound(s: State, id: string): State {
    s.(messages := seq(|s.messages|, i requires 0 <= i < |s.messages| =>
         if s.messages[i].id == id && s.messages[i].status == Sending then s.messages[i].(status := Accepted)
             else s.messages[i]))
  }

  function Except(messages: seq<Message>, ids: set<string>): seq<Message> {
    Filter((m: Message) => m.id !in ids, messages)
  }

  /** Receipts: the commands are done with, and their messages give way to the real ones. */
  function Acknowledge(s: State, ids: set<string>): State {
    s.(messages := Except(s.messages, ids), commands := s.commands - ids, timers := s.timers - ids,
        stored := s.stored - ids)
  }

  /** A live event that replaces the shown message but is no receipt for the command. */
  function Shown(s: State, id: string): State {
    s.(messages := Except(s.messages, {id}), timers := s.timers - {id})
  }

  function ConfirmationTick(s: State, id: string, online: bool): State {
    if id !in s.commands then s else Transmit(s, id, online).(timers := s.timers + {id})
  }

  function ReplayNow(s: State, id: string, online: bool): State {
    if id !in s.commands then s else Transmit(s, id, online)
  }

  function ReplayOne(s: State, m: Message, online: bool): State {
    if m.status == Failed then s
    else if m.id !in s.commands then FailOutbound(s, m.id)   // "the console lost this message"
    else Transmit(s, m.id, online)
  }

  function ReplayAll(s: State, shown: seq<Message>, online: string -> bool): State
    decreases |shown|
  {
    if shown == [] then s else ReplayAll(ReplayOne(s, shown[0], online(shown[0].id)), shown[1..], online)
  }

  function Find(messages: seq<Message>, id: string): (i: nat)
    ensures i <= |messages| && (i < |messages| ==> messages[i].id == id)
    ensures forall j :: 0 <= j < i ==> messages[j].id != id
  {
    if messages == [] || messages[0].id == id then 0 else Find(messages[1..], id) + 1
  }

  function ResendFailed(s: State, id: string, newId: string, online: bool): State {
    var i := Find(s.messages, id);
    if i == |s.messages| || s.messages[i].status != Failed || id !in s.failed then s
    else
      SendOutbound(s.(failed := s.failed - {id}, messages := Except(s.messages, {id})),
                   s.failed[id].(clientId := newId), online)
  }

  function Dismiss(s: State, id: string): State {
    s.(failed := s.failed - {id}, messages := Filter((m: Message) => m.id != id || m.status != Failed, s.messages))
  }

  /** A reload keeps only what was stored; `order` is the stored list's order. */
  function Reload(s: State, order: seq<string>): State {
    s.(messages := seq(|order|, i requires 0 <= i < |order| => Message(order[i], Sending, false)),
       commands := s.stored, failed := map[], timers := {})
  }

  datatype Event =
    | Send(command: Command, online: bool)
    | Fail(id: string)
    | Accept(id: string)
    | Receipts(ids: set<string>)
    | Replaced(id: string)
    | Tick(id: string, online: bool)
    | Retry(id: string, newId: string, online: bool)
    | Reconnect(reach: string -> bool)
    | Discard(id: string)
    | Restart(order: seq<string>)

  /** A new id is a new random UUID; a confirmation timer fires only if set; a reload finds what was stored. */
  ghost predicate Enabled(s: State, e: Event) {
    match e
    case Send(command, _) => command.clientId !in s.used
    case Tick(id, _) => id in s.timers
    case Retry(_, newId, _) => newId !in s.used
    case Restart(order) => Distinct(order) && forall id :: id in order <==> id in s.stored
    case _ => true
  }

  function Step(s: State, e: Event): State {
    match e
    case Send(command, online) => SendOutbound(s, command, online)
    case Fail(id) => FailOutbound(s, id)
    case Accept(id) => AcceptOutbound(s, id)
    case Receipts(ids) => Acknowledge(s, ids)
    case Replaced(id) => Shown(s, id)
    case Tick(id, online) => ConfirmationTick(s, id, online)
    case Retry(id, newId, online) =>
      var i := Find(s.messages, id);
      if i < |s.messages| && s.messages[i].status == Failed then ResendFailed(s, id, newId, online)
          else ReplayNow(s, id, online)
    case Reconnect(reach) => ReplayAll(s, s.messages, reach)
    case Discard(id) => Dismiss(s, id)
    case Restart(order) => Reload(s, order)
  }

  ghost predicate LegalRun(s: State, events: seq<Event>)
    decreases |events|
  {
    events == [] || (Enabled(s, events[0]) && LegalRun(Step(s, events[0]), events[1..]))
  }

  ghost function Run(s: State, events: seq<Event>): State
    requires LegalRun(s, events)
    decreases |events|
  {
    if events == [] then s else Run(Step(s, events[0]), events[1..])
  }

  // ---- the invariant ---------------------------------------------------------------------------

  ghost predicate HasFailed(s: State, id: string) { FailedAt(id) in s.log }

  /** Whatever is shown as on its way is held, so it will be replayed. */
  ghost predicate Held(s: State) {
    forall i :: 0 <= i < |s.messages| && s.messages[i].status != Failed ==> s.messages[i].id in s.commands
  }

  /** Nothing that failed is held or stored any more. */
  ghost predicate FailedIsOver(s: State) {
    && (forall id :: id in s.commands ==> !HasFailed(s, id) && s.commands[id].clientId == id && id in s.used)
    && (forall id :: id in s.stored ==> !HasFailed(s, id) && s.stored[id].clientId == id && id in s.used)
    && (forall id :: HasFailed(s, id) ==> id in s.used)
    && (forall id :: id in s.failed ==> HasFailed(s, id))
  }

  /** Once an id has failed, it is never sent again. */
  ghost predicate NeverAfterFailure(log: seq<Entry>) {
    forall i, j :: 0 <= i < j < |log| && log[i].FailedAt? ==> log[j] != Sent(log[i].id)
  }

  ghost predicate Inv(s: State) { Held(s) && FailedIsOver(s) && NeverAfterFailure(s.log) }

  lemma SendExtendsLog(log: seq<Entry>, id: string)
    requires NeverAfterFailure(log) && FailedAt(id) !in log
    ensures NeverAfterFailure(log + [Sent(id)])
  {
    var all := log + [Sent(id)];
    forall i, j | 0 <= i < j < |all| && all[i].FailedAt? ensures all[j] != Sent(all[i].id) {
      if j == |log| { assert log[i] in log && log[i] == FailedAt(log[i].id); }
    }
  }

  lemma TransmitKeeps(s: State, id: string, online: bool)
    requires Inv(s) && id in s.commands
    ensures Inv(Transmit(s, id, online))
    ensures forall x :: HasFailed(Transmit(s, id, online), x) <==> HasFailed(s, x)
  {
    SendExtendsLog(s.log, id);
  }

  lemma SendKeeps(s: State, command: Command, online: bool)
    requires Inv(s) && command.clientId !in s.used
    ensures Inv(SendOutbound(s, command, online))
  {
    var id := command.clientId;
    var t := s.(messages := s.messages + [Message(id, Sending, false)], commands := s.commands[id := command],
                stored := if command.storable then s.stored[id := command] else s.stored, used := s.used + {id});
    assert !HasFailed(s, id);
    assert Inv(t);
    TransmitKeeps(t, id, online);
  }

  lemma FailKeeps(s: State, id: string)
    requires Inv(s)
    ensures Inv(FailOutbound(s, id))
  {
    var t := FailOutbound(s, id);
    forall i | 0 <= i < |t.messages| && t.messages[i].status != Failed ensures t.messages[i].id in t.commands {
      assert t.messages[i] == s.messages[i] && t.messages[i].id != id;
    }
    forall i, j | 0 <= i < j < |t.log| && t.log[i].FailedAt? ensures t.log[j] != Sent(t.log[i].id) {}
  }

  lemma FewerMessagesHeld(s: State, t: State)
    requires Held(s)
    requires forall m :: m in t.messages ==> m in s.messages && (m.id in s.commands ==> m.id in t.commands)
    ensures Held(t)
  {
    forall i | 0 <= i < |t.messages| && t.messages[i].status != Failed ensures t.messages[i].id in t.commands {
      var k :| 0 <= k < |s.messages| && s.messages[k] == t.messages[i];
    }
  }

  /** In a reachable state a reconnect replays every pending message and declares none lost. */
  lemma {:induction false} ReplayLosesNothing(s: State, shown: seq<Message>, online: string -> bool)
    requires Inv(s) && forall i :: 0 <= i < |shown| && shown[i].status != Failed ==> shown[i].id in s.commands
    ensures var t := ReplayAll(s, shown, online);
            && Inv(t) && t.messages == s.messages && t.commands == s.commands && t.stored == s.stored
                && t.failed == s.failed
            && forall x :: HasFailed(t, x) <==> HasFailed(s, x)
    decreases |shown|
  {
    if shown != [] {
      var t := ReplayOne(s, shown[0], online(shown[0].id));
      if shown[0].status != Failed { TransmitKeeps(s, shown[0].id, online(shown[0].id)); }
      forall i | 0 <= i < |shown[1..]| && shown[1..][i].status != Failed ensures shown[1..][i].id in t.commands {
        assert shown[1..][i] == shown[i + 1];
      }
      ReplayLosesNothing(t, shown[1..], online);
    }
  }

  lemma ResendKeeps(s: State, id: string, newId: string, online: bool)
    requires Inv(s) && newId !in s.used
    ensures Inv(ResendFailed(s, id, newId, online))
  {
    var i := Find(s.messages, id);
    if i < |s.messages| && s.messages[i].status == Failed && id in s.failed {
      var t := s.(failed := s.failed - {id}, messages := Except(s.messages, {id}));
      FewerMessagesHeld(s, t);
      SendKeeps(t, s.failed[id].(clientId := newId), online);
    }
  }

  lemma StepKeeps(s: State, e: Event)
    requires Inv(s) && Enabled(s, e)
    ensures Inv(Step(s, e))
  {
    match e
    case Send(command, online) => SendKeeps(s, command, online);
    case Fail(id) => FailKeeps(s, id);
    case Accept(id) =>
    case Receipts(ids) => FewerMessagesHeld(s, Step(s, e));
    case Replaced(id) => FewerMessagesHeld(s, Step(s, e));
    case Tick(id, online) => if id in s.commands { TransmitKeeps(s, id, online); }
    case Retry(id, newId, online) =>
      var i := Find(s.messages, id);
      if i < |s.messages| && s.messages[i].status == Failed {
        ResendKeeps(s, id, newId, online);
      } else if id in s.commands {
        TransmitKeeps(s, id, online);
      }
    case Reconnect(reach) => ReplayLosesNothing(s, s.messages, reach);
    case Discard(id) => FewerMessagesHeld(s, Step(s, e));
    case Restart(order) =>
  }

  lemma {:induction false} RunKeeps(s: State, events: seq<Event>)
    requires Inv(s) && LegalRun(s, events)
    ensures Inv(Run(s, events))
    decreases |events|
  {
    if events != [] {
      StepKeeps(s, events[0]);
      RunKeeps(Step(s, events[0]), events[1..]);
    }
  }

  /** Over every run: what is shown as sending or accepted is held; what failed is over, for good. */
  lemma EveryRun(events: seq<Event>)
    requires LegalRun(Initial(), events)
    ensures var t := Run(Initial(), events);
            && Held(t) && FailedIsOver(t) && NeverAfterFailure(t.log)
  {
    RunKeeps(Initial(), events);
  }

  /** A resend goes out under an id that never failed, in place of the one that did. */
  lemma ResendIsANewMessage(s: State, id: string, newId: string, online: bool)
    requires Inv(s) && newId !in s.used
    requires Find(s.messages, id) < |s.messages| && s.messages[Find(s.messages, id)].status == Failed && id in s.failed
    ensures var t := ResendFailed(s, id, newId, online);
            && newId != id && HasFailed(t, id)
            && newId in t.commands && !HasFailed(t, newId)
            && t.commands[newId].body == s.failed[id].body
            && t.messages == Except(s.messages, {id}) + [Message(newId, Sending, false)]
  {
    ResendKeeps(s, id, newId, online);
  }

  // ---- what goes out, and when -----------------------------------------------------------------

  function Reached(online: string -> bool): Message -> bool { (m: Message) => m.status != Failed && online(m.id) }
  function SentFor(): (Message, Entry) -> bool { (m: Message, e: Entry) => e == Sent(m.id) }

  /** A reconnect sends every pending message the socket takes, once each, in the order shown, and nothing else;
      each waits for its answer again. */
  lemma {:induction false} ReplaySends(s: State, shown: seq<Message>, online: string -> bool)
    requires Inv(s) && forall i :: 0 <= i < |shown| && shown[i].status != Failed ==> shown[i].id in s.commands
    ensures var t := ReplayAll(s, shown, online);
            && s.log <= t.log && Picks(shown, t.log[|s.log|..], Reached(online), SentFor())
            && forall id :: id in t.timers <==>
                 id in s.timers || exists m :: m in shown && m.id == id && Reached(online)(m)
    decreases |shown|
  {
    if shown == [] {
      assert s.log[|s.log|..] == [];
    } else {
      var m, rest := shown[0], shown[1..];
      var mid, t := ReplayOne(s, m, online(m.id)), ReplayAll(s, shown, online);
      if m.status != Failed { TransmitKeeps(s, m.id, online(m.id)); }
      forall i | 0 <= i < |rest| && rest[i].status != Failed ensures rest[i].id in mid.commands {
        assert rest[i] == shown[i + 1];
      }
      ReplaySends(mid, rest, online);
      assert mid.log == if Reached(online)(m) then s.log + [Sent(m.id)] else s.log;
      var added := t.log[|s.log|..];
      assert t.log[|mid.log|..] == if Reached(online)(m) then added[1..] else added;
      assert shown == [m] + rest;
    }
  }

  /** The message is shown as on its way, and what it says is held. */
  ghost predicate Pending(s: State, id: string, command: Command) {
    && id in s.commands && s.commands[id] == command && (id in s.stored ==> s.stored[id] == command)
    && exists m :: m in s.messages && m.id == id && m.status != Failed
  }

  /** An answer to the message: its failure, its receipt, or the event that shows it for good. */
  predicate Answers(e: Event, id: string) { e == Fail(id) || (e.Receipts? && id in e.ids) || e == Replaced(id) }

  lemma UnansweredStaysPending(s: State, e: Event, id: string, command: Command)
    requires Inv(s) && Enabled(s, e) && Pending(s, id, command) && !Answers(e, id) && (e.Restart? ==> id in s.stored)
    ensures Pending(Step(s, e), id, command) && (id in s.stored ==> id in Step(s, e).stored)
  {
    var t := Step(s, e);
    var m :| m in s.messages && m.id == id && m.status != Failed;
    match e
    case Reconnect(reach) => ReplayLosesNothing(s, s.messages, reach);
    case Retry(other, newId, online) => RetryLeaves(s, other, newId, online, id, m);
    case Restart(order) =>
      assert id in order;
      var i :| 0 <= i < |order| && order[i] == id;
      assert t.messages[i] in t.messages;
    case Fail(other) => StaysInPlace(s, e, m);
    case Accept(other) => StaysInPlace(s, e, m);
    case Send(_, _) => StaysInPlace(s, e, m);
    case _ => assert m in t.messages;
  }

  lemma StaysInPlace(s: State, e: Event, m: Message)
    requires m in s.messages && m.status != Failed && (e.Fail? || e.Accept? || e.Send?) && e != Fail(m.id)
    ensures exists n :: n in Step(s, e).messages && n.id == m.id && n.status != Failed
  {
    var k :| 0 <= k < |s.messages| && s.messages[k] == m;
    assert Step(s, e).messages[k].id == m.id && Step(s, e).messages[k] in Step(s, e).messages;
  }

  lemma RetryLeaves(s: State, other: string, newId: string, online: bool, id: string, m: Message)
    requires Inv(s) && newId !in s.used && m in s.messages && m.id == id && m.status != Failed
    requires id in s.commands
    ensures var t := Step(s, Retry(other, newId, online));
            && m in t.messages && id in t.commands && t.commands[id] == s.commands[id]
            && (id in s.stored <==> id in t.stored) && (id in s.stored ==> t.stored[id] == s.stored[id])
  {
    if other in s.failed { assert HasFailed(s, other) && other != id; }
  }

  /** Until it is answered, a message is held as it was written, through reconnects, retries and reloads. */
  lemma {:induction false} PendingUntilAnswered(s: State, events: seq<Event>, id: string, command: Command)
    requires Inv(s) && LegalRun(s, events) && Pending(s, id, command)
    requires forall e :: e in events ==> !Answers(e, id) && (e.Restart? ==> id in s.stored)
    ensures Inv(Run(s, events)) && Pending(Run(s, events), id, command)
    decreases |events|
  {
    if events != [] {
      assert events[0] in events;
      UnansweredStaysPending(s, events[0], id, command);
      StepKeeps(s, events[0]);
      PendingUntilAnswered(Step(s, events[0]), events[1..], id, command);
    }
  }

  /** So each reconnect sends it again, whatever happened in between. */
  lemma EveryReconnectSendsIt(s: State, events: seq<Event>, id: string, command: Command, reach: string -> bool)
    requires Inv(s) && LegalRun(s, events) && Pending(s, id, command) && reach(id)
    requires forall e :: e in events ==> !Answers(e, id) && (e.Restart? ==> id in s.stored)
    ensures var t := Run(s, events);
            var u := Step(t, Reconnect(reach));
            t.log <= u.log && Sent(id) in u.log[|t.log|..] && id in u.timers && Pending(u, id, command)
  {
    PendingUntilAnswered(s, events, id, command);
    var t := Run(s, events);
    var u := Step(t, Reconnect(reach));
    ReplaySends(t, t.messages, reach);
    ReplayLosesNothing(t, t.messages, reach);
    var m :| m in t.messages && m.id == id && m.status != Failed;
    PickedIsThere(t.messages, u.log[|t.log|..], reach, m);
  }

  lemma {:induction false} PickedIsThere(shown: seq<Message>, added: seq<Entry>, online: string -> bool, m: Message)
    requires Picks(shown, added, Reached(online), SentFor()) && m in shown && Reached(online)(m)
    ensures Sent(m.id) in added
    decreases |shown|
  {
    if shown[0] != m { PickedIsThere(shown[1..], if Reached(online)(shown[0]) then added[1..] else added, online, m); }
  }

  /** A failure keeps the command for the owner alone: the message says it can be resent, and resending it sends
      the same body under the new id. */
  lemma FailedIsResent(s: State, id: string, newId: string, online: bool, k: nat)
    requires Inv(s) && id in s.commands && newId !in s.used
    requires k < |s.messages| && s.messages[k].id == id
    ensures var t := FailOutbound(s, id);
            var u := Step(t, Retry(id, newId, online));
            && t.messages[k] == Message(id, Failed, true) && t.failed == s.failed[id := s.commands[id]]
            && id !in t.commands && id !in t.stored && id !in t.timers
            && newId in u.commands && u.commands[newId].body == s.commands[id].body && id !in u.failed
            && u.log == s.log + [FailedAt(id)] + (if online then [Sent(newId)] else [])
  {
    var t := FailOutbound(s, id);
    assert t.messages[k].id == id;
    var i := Find(t.messages, id);
    assert t.messages[i] == Message(id, Failed, true);
    assert t.log + [] == t.log;
  }

  /** A message sent is shown, held and, if it can be, stored; it is sent now if the socket takes it. While no
      answer comes, its timer sends it again and waits on. */
  lemma SilenceIsNotFailure(s: State, command: Command, online: bool, later: bool)
    requires Inv(s) && command.clientId !in s.used
    ensures var id := command.clientId;
            var t := Step(s, Send(command, online));
            var u := Step(t, Tick(id, later));
            && t.messages == s.messages + [Message(id, Sending, false)] && Pending(t, id, command)
            && (id in t.stored <==> command.storable) && (id in t.timers <==> id in s.timers || online)
            && t.log == s.log + (if online then [Sent(id)] else [])
            && u.messages == t.messages && id in u.timers && u.log == t.log + (if later then [Sent(id)] else [])
  {
    var t := Step(s, Send(command, online));
    assert t.messages[|s.messages|] in t.messages;
    assert s.log + [] == s.log && t.log + [] == t.log;
  }

  /** Retrying a message that has not failed sends it once more, at once, under the id it has. */
  lemma RetryReplaysThePending(s: State, id: string, newId: string, online: bool, command: Command)
    requires Inv(s) && Pending(s, id, command)
    ensures var t := Step(s, Retry(id, newId, online));
            && t.messages == s.messages && t.commands == s.commands && Pending(t, id, command)
            && t.log == s.log + (if online && s.messages[Find(s.messages, id)].status != Failed then [Sent(id)] else [])
  {
    var m :| m in s.messages && m.id == id && m.status != Failed;
    var k :| 0 <= k < |s.messages| && s.messages[k] == m;
    assert !HasFailed(s, id) && s.log + [] == s.log;
  }

  /** A receipt ends it: nothing of the message is shown, held, stored or waited for any more. */
  lemma ReceiptsEndIt(s: State, ids: set<string>)
    ensures var t := Step(s, Receipts(ids));
            && Picks(s.messages, t.messages, NotAmong(ids), Same())
            && t.commands.Keys == s.commands.Keys - ids && t.stored.Keys == s.stored.Keys - ids
            && t.timers == s.timers - ids
            && (forall id :: id in t.commands ==> t.commands[id] == s.commands[id])
            && t.failed == s.failed && t.log == s.log
  {
    FilterPicks(NotAmong(ids), s.messages);
  }

  /** The server holds the message: it stops being shown as on its way out, and nothing else changes. */
  lemma AcceptanceIsShown(s: State, id: string)
    ensures var t := Step(s, Accept(id));
            && t == s.(messages := t.messages) && |t.messages| == |s.messages|
            && forall i :: 0 <= i < |s.messages| ==>
                 t.messages[i] == if s.messages[i].id == id && s.messages[i].status == Sending
                                  then s.messages[i].(status := Accepted) else s.messages[i]
  {
  }

  /** The message's own event takes its place on screen; its command is held until the receipt. */
  lemma ReplacedIsHeld(s: State, id: string)
    ensures var t := Step(s, Replaced(id));
            && Picks(s.messages, t.messages, NotAmong({id}), Same())
            && t == s.(messages := t.messages, timers := s.timers - {id})
  {
    FilterPicks(NotAmong({id}), s.messages);
  }

  /** After a reload what was stored is on its way again, in the stored order, and nothing else is there. */
  lemma ReloadRestoresTheStored(s: State, order: seq<string>)
    requires Inv(s) && Enabled(s, Restart(order))
    ensures var t := Step(s, Restart(order));
            && t.commands == s.stored && t.stored == s.stored && t.failed == map[] && t.timers == {} && t.log == s.log
            && |t.messages| == |order|
            && forall i :: 0 <= i < |order| ==> t.messages[i] == Message(order[i], Sending, false)
  {
  }

  function NotAmong(ids: set<string>): Message -> bool { (m: Message) => m.id !in ids }
  function NotDiscarded(id: string): Message -> bool { (m: Message) => m.id != id || m.status != Failed }

  /** Discarding takes a failed message and its command, and nothing that is still on its way. */
  lemma DiscardTakesTheFailed(s: State, id: string)
    requires Inv(s)
    ensures var t := Step(s, Discard(id));
            && Picks(s.messages, t.messages, NotDiscarded(id), Same()) && id !in t.failed
            && t.commands == s.commands && t.stored == s.stored && t.log == s.log
  {
    FilterPicks(NotDiscarded(id), s.messages);
  }

  // ---- the outbox as the console keeps it ------------------------------------------------------

  class Console {
    var messages: seq<Message>
    var commands: map<string, Command>
    var failed: map<string, Command>
    var timers: set<string>
    var stored: map<string, Command>
    ghost var log: seq<Entry>
    ghost var used: set<string>

    ghost function Now(): State reads this { State(messages, commands, failed, timers, stored, log, used) }
    ghost predicate Valid() reads this { Inv(Now()) }

    constructor ()
      ensures Valid() && Now() == Initial()
    {
      messages, commands, failed, timers, stored := [], map[], map[], {}, map[];
      log, used := [], {};
    }

    method Post(id: string, online: bool)
      requires id in commands
      modifies this`log, this`timers
      ensures Now() == Transmit(old(Now()), id, online)
    {
      if online {
        log := log + [Sent(commands[id].clientId)];
        timers := timers + {id};
      }
    }

    method Submit(command: Command, online: bool)
      modifies this
      ensures Now() == SendOutbound(old(Now()), command, online)
    {
      var id := command.clientId;
      messages := messages + [Message(id, Sending, false)];
      commands := commands[id := command];
      if command.storable { stored := stored[id := command]; }
      used := used + {id};
      Post(id, online);
    }

    method Send(command: Command, online: bool)
      requires Valid() && command.clientId !in used
      modifies this
      ensures Valid() && Now() == SendOutbound(old(Now()), command, online)
    {
      SendKeeps(Now(), command, online);
      Submit(command, online);
    }

    method Fail(id: string)
      requires Valid()
      modifies this
      ensures Valid() && Now() == FailOutbound(old(Now()), id)
    {
      FailKeeps(Now(), id);
      timers := timers - {id};
      var held := id in commands;
      if held { failed := failed[id := commands[id]]; }
      commands := commands - {id};
      stored := stored - {id};
      messages := Mark(messages, id, held);
      log := log + [FailedAt(id)];
      used := used + {id};
    }

    method Receive(ids: set<string>)
      requires Valid()
      modifies this
      ensures Valid() && Now() == Acknowledge(old(Now()), ids)
    {
      StepKeeps(Now(), Receipts(ids));
      timers := timers - ids;
      commands := commands - ids;
      stored := stored - ids;
      messages := Except(messages, ids);
    }

    method Resend(id: string, newId: string, online: bool)
      requires Valid() && newId !in used
      modifies this
      ensures Valid() && Now() == ResendFailed(old(Now()), id, newId, online)
    {
      ResendKeeps(Now(), id, newId, online);
      var i := Find(messages, id);
      if i == |messages| || messages[i].status != Failed || id !in failed { return; }
      var command := failed[id];
      failed := failed - {id};
      messages := Except(messages, {id});
      Submit(command.(clientId := newId), online);
    }

    /** The loop run on reconnect; its "lost" branch is shown dead, as the message's command is always held. */
    method ReplaySending(online: string -> bool)
      requires Valid()
      modifies this
      ensures Valid() && Now() == ReplayAll(old(Now()), old(messages), online)
      ensures messages == old(messages) && commands == old(commands)
    {
      ReplayLosesNothing(Now(), messages, online);
      ghost var goal := ReplayAll(Now(), messages, online);
      var rest := messages;
      while rest != []
        invariant ReplayAll(Now(), rest, online) == goal
        invariant messages == old(messages) && commands == old(commands)
        invariant forall i :: 0 <= i < |rest| && rest[i].status != Failed ==> rest[i].id in commands
        decreases |rest|
      {
        var m := rest[0];
        rest := rest[1..];
        if m.status == Failed { continue; }
        Post(m.id, online(m.id));
      }
    }
  }
}
