/** The rooms' bounded backlogs (relay/src/history.ts). */
module RoomHistory {
  import opened Collections
  import opened Protocol

  const MAX_ROOMS := 200

  /** One entry of the insertion-ordered room map. */
  datatype Room = Room(name: string, lines: seq<Chat>)

  // ---- the specification -----------------------------------------------------------------------

  ghost predicate NamesApart(rooms: seq<Room>) {
    forall i, j :: 0 <= i < j < |rooms| ==> rooms[i].name != rooms[j].name
  }

  function Find(rooms: seq<Room>, name: string): (i: nat)
    ensures i <= |rooms| && (i < |rooms| ==> rooms[i].name == name)
    ensures forall j :: 0 <= j < i ==> rooms[j].name != name
  {
    if rooms == [] || rooms[0].name == name then 0 else Find(rooms[1..], name) + 1
  }

  function RecentLines(rooms: seq<Room>, name: string): seq<Chat> {
    var i := Find(rooms, name);
    if i < |rooms| then rooms[i].lines else []
  }

  function Append(lines: seq<Chat>, msg: Chat, cap: nat): seq<Chat> {
    LastN(lines + [msg], cap)
  }

  /** `rooms.set(name, lines)`: in place when the room is known, at the end otherwise. */
  function Put(rooms: seq<Room>, name: string, lines: seq<Chat>): seq<Room> {
    var i := Find(rooms, name);
    if i < |rooms| then rooms[i := Room(name, lines)] else rooms + [Room(name, lines)]
  }

  function LastAt(room: Room): int {
    if room.lines == [] then 0 else room.lines[|room.lines| - 1].at
  }

  function Warmer(): (Room, Room) -> bool { (a: Room, b: Room) => LastAt(a) > LastAt(b) }

  function EvictCold(rooms: seq<Room>, maxRooms: nat): (r: seq<Room>)
    ensures forall x :: x in r ==> x in rooms
  {
    if |rooms| <= maxRooms then rooms else DropColdest(Warmer(), rooms, |rooms| - maxRooms)
  }

  function PushLine(rooms: seq<Room>, name: string, msg: Chat): seq<Room> {
    EvictCold(Put(rooms, name, Append(RecentLines(rooms, name), msg, ROOM_HISTORY)), MAX_ROOMS)
  }

  // ---- what a push may change ------------------------------------------------------------------

  lemma PutEntries(rooms: seq<Room>, name: string, lines: seq<Chat>)
    requires NamesApart(rooms)
    ensures NamesApart(Put(rooms, name, lines))
    ensures forall r :: r in Put(rooms, name, lines) <==> r == Room(name, lines) || (r in rooms && r.name != name)
  {
    var i, put := Find(rooms, name), Put(rooms, name, lines);
    assert put[i] in put;
    forall r | r in rooms && r.name != name ensures r in put {
      var k :| 0 <= k < |rooms| && rooms[k] == r;
      assert put[k] == r;
    }
  }

  lemma RecentFromEntry(rooms: seq<Room>, r: Room)
    requires NamesApart(rooms) && r in rooms
    ensures RecentLines(rooms, r.name) == r.lines
  {
    var k :| 0 <= k < |rooms| && rooms[k] == r;
    var i := Find(rooms, r.name);
    assert !(i < k) && !(k < i);
  }

  lemma EntriesApart(rooms: seq<Room>, kept: seq<Room>)
    requires NamesApart(rooms) && Distinct(kept) && forall r :: r in kept ==> r in rooms
    ensures NamesApart(kept)
  {
    forall i, j | 0 <= i < j < |kept| ensures kept[i].name != kept[j].name {
      RecentFromEntry(rooms, kept[i]);
      RecentFromEntry(rooms, kept[j]);
    }
  }

  lemma NamesApartDistinct(rooms: seq<Room>)
    requires NamesApart(rooms)
    ensures Distinct(rooms)
  {
  }

  lemma EvictKeepsApart(rooms: seq<Room>, maxRooms: nat)
    requires NamesApart(rooms)
    ensures NamesApart(EvictCold(rooms, maxRooms))
  {
    NamesApartDistinct(rooms);
    WarmerIsWeakOrder();
    if |rooms| > maxRooms {
      DropColdestKeepsWarmest(Warmer(), rooms, |rooms| - maxRooms);
      EntriesApart(rooms, EvictCold(rooms, maxRooms));
    }
  }

  lemma WarmerIsWeakOrder()
    ensures WeakOrder(Warmer())
  {
  }

  lemma PushKeepsApart(rooms: seq<Room>, name: string, msg: Chat)
    requires NamesApart(rooms)
    ensures NamesApart(PushLine(rooms, name, msg))
  {
    var lines := Append(RecentLines(rooms, name), msg, ROOM_HISTORY);
    PutEntries(rooms, name, lines);
    EvictKeepsApart(Put(rooms, name, lines), MAX_ROOMS);
  }

  /** A push adds its own line to its own room; trimming and eviction only take lines away. */
  lemma PushAddsOneLine(rooms: seq<Room>, name: string, msg: Chat, room: string, m: Chat)
    requires NamesApart(rooms) && m in RecentLines(PushLine(rooms, name, msg), room)
    ensures m in RecentLines(rooms, room) || (room == name && m == msg)
  {
    var lines := Append(RecentLines(rooms, name), msg, ROOM_HISTORY);
    var put := Put(rooms, name, lines);
    PutEntries(rooms, name, lines);
    var e := Room(room, RecentLines(PushLine(rooms, name, msg), room));
    assert e in put;
    if e.name != name { RecentFromEntry(rooms, e); }
  }

  lemma EvictBounds(rooms: seq<Room>, maxRooms: nat)
    requires NamesApart(rooms)
    ensures |EvictCold(rooms, maxRooms)| == if |rooms| <= maxRooms then |rooms| else maxRooms
    ensures forall gone, kept ::
              gone in rooms && gone !in EvictCold(rooms, maxRooms) && kept in EvictCold(rooms, maxRooms) ==>
                LastAt(gone) <= LastAt(kept)
  {
    NamesApartDistinct(rooms);
    WarmerIsWeakOrder();
    if |rooms| > maxRooms { DropColdestKeepsWarmest(Warmer(), rooms, |rooms| - maxRooms); }
  }

  /** Both bounds after every push, whatever was loaded from disk; the rooms dropped are the coldest. */
  lemma PushBounds(rooms: seq<Room>, name: string, msg: Chat)
    requires NamesApart(rooms)
    ensures |PushLine(rooms, name, msg)| <= 200
    ensures forall r :: r in PushLine(rooms, name, msg) ==>
              if r.name == name then |r.lines| <= 60 else r in rooms
    ensures forall gone, kept ::
              gone in rooms && gone.name != name && gone !in PushLine(rooms, name, msg)
              && kept in PushLine(rooms, name, msg)
              && gone.lines != [] && kept.lines != [] ==>
                gone.lines[|gone.lines| - 1].at <= kept.lines[|kept.lines| - 1].at
  {
    var lines := Append(RecentLines(rooms, name), msg, ROOM_HISTORY);
    PutEntries(rooms, name, lines);
    EvictBounds(Put(rooms, name, lines), MAX_ROOMS);
  }

  /** The room just written keeps its backlog: under a clock that never runs back, eviction takes another. */
  lemma PushKeepsItsOwnLine(rooms: seq<Room>, name: string, msg: Chat)
    requires NamesApart(rooms) && |rooms| <= MAX_ROOMS
    requires forall r :: r in rooms ==> LastAt(r) <= msg.at
    ensures RecentLines(PushLine(rooms, name, msg), name) == LastN(RecentLines(rooms, name) + [msg], ROOM_HISTORY)
  {
    var lines := Append(RecentLines(rooms, name), msg, ROOM_HISTORY);
    var put, e := Put(rooms, name, lines), Room(name, lines);
    PutEntries(rooms, name, lines);
    EvictKeepsApart(put, MAX_ROOMS);
    if |put| > MAX_ROOMS {
      assert put == rooms + [e];
      EvictSparesNewest(rooms, e, MAX_ROOMS);
    }
    RecentFromEntry(PushLine(rooms, name, msg), e);
  }

  lemma EvictSparesNewest(rooms: seq<Room>, e: Room, maxRooms: nat)
    requires NamesApart(rooms + [e]) && |rooms| == maxRooms > 0
    requires forall r :: r in rooms ==> LastAt(r) <= LastAt(e)
    ensures e in EvictCold(rooms + [e], maxRooms)
  {
    NamesApartDistinct(rooms + [e]);
    WarmerIsWeakOrder();
    DropColdestKeepsNewest(Warmer(), rooms, e, 1);
  }

  ghost function RoomNames(rooms: seq<Room>): set<string> { set r | r in rooms :: r.name }

  lemma {:induction false} NamesCount(rooms: seq<Room>)
    requires NamesApart(rooms)
    ensures |RoomNames(rooms)| == |rooms|
  {
    if rooms != [] {
      var rest := rooms[1..];
      forall i, j | 0 <= i < j < |rest| ensures rest[i].name != rest[j].name {
        assert rooms[i + 1].name != rooms[j + 1].name;
      }
      NamesCount(rest);
      forall k | 0 <= k < |rest| ensures rest[k].name != rooms[0].name { assert rooms[0].name != rooms[k + 1].name; }
      assert rooms == [rooms[0]] + rest;
      assert RoomNames(rooms) == RoomNames(rest) + {rooms[0].name};
    }
  }

  /** While there is place for the room, a push appends to it and leaves every other room as it was. */
  lemma PushWhereThereIsPlace(rooms: seq<Room>, name: string, msg: Chat)
    requires NamesApart(rooms) && |RoomNames(rooms) + {name}| <= 200
    ensures RoomNames(PushLine(rooms, name, msg)) == RoomNames(rooms) + {name}
    ensures forall x :: RecentLines(PushLine(rooms, name, msg), x) ==
                        if x == name then LastN(RecentLines(rooms, x) + [msg], 60) else RecentLines(rooms, x)
  {
    var lines := Append(RecentLines(rooms, name), msg, ROOM_HISTORY);
    var put := Put(rooms, name, lines);
    PutEntries(rooms, name, lines);
    NamesCount(put);
    assert RoomNames(put) == RoomNames(rooms) + {name} by { PutNames(rooms, name, lines); }
    forall x ensures RecentLines(put, x) == if x == name then lines else RecentLines(rooms, x) {
      PutRecent(rooms, name, lines, x);
    }
  }

  lemma PutNames(rooms: seq<Room>, name: string, lines: seq<Chat>)
    requires NamesApart(rooms)
    ensures RoomNames(Put(rooms, name, lines)) == RoomNames(rooms) + {name}
  {
    PutEntries(rooms, name, lines);
    forall n | n in RoomNames(rooms) && n != name ensures n in RoomNames(Put(rooms, name, lines)) {
      var r :| r in rooms && r.name == n;
      assert r in Put(rooms, name, lines);
    }
    assert Room(name, lines) in Put(rooms, name, lines);
  }

  lemma PutRecent(rooms: seq<Room>, name: string, lines: seq<Chat>, x: string)
    requires NamesApart(rooms)
    ensures RecentLines(Put(rooms, name, lines), x) == if x == name then lines else RecentLines(rooms, x)
  {
    var put := Put(rooms, name, lines);
    PutEntries(rooms, name, lines);
    if x == name {
      RecentFromEntry(put, Room(name, lines));
    } else if Find(rooms, x) < |rooms| {
      assert rooms[Find(rooms, x)] in put;
      RecentFromEntry(put, rooms[Find(rooms, x)]);
    }
  }

  // ---- a run of pushes to one room -------------------------------------------------------------

  function AppendAll(lines: seq<Chat>, msgs: seq<Chat>, cap: nat): seq<Chat>
    decreases |msgs|
  {
    if msgs == [] then lines else AppendAll(Append(lines, msgs[0], cap), msgs[1..], cap)
  }

  /** Trimming after every push leaves what one trim at the end would: the last `cap` lines. */
  lemma {:induction false} AppendAllIsTail(lines: seq<Chat>, msgs: seq<Chat>, cap: nat)
    requires |lines| <= cap
    ensures AppendAll(lines, msgs, cap) == LastN(lines + msgs, cap)
    decreases |msgs|
  {
    if msgs == [] {
      assert lines + msgs == lines;
    } else {
      AppendAllIsTail(Append(lines, msgs[0], cap), msgs[1..], cap);
      TailOfTail(lines + [msgs[0]], msgs[1..], cap);
      assert lines + msgs == lines + [msgs[0]] + msgs[1..];
    }
  }

  lemma TailOfTail<T>(front: seq<T>, back: seq<T>, n: nat)
    ensures LastN(LastN(front, n) + back, n) == LastN(front + back, n)
  {
  }

  // ---- the store -------------------------------------------------------------------------------

  class PersistedHistory {
    var rooms: seq<Room>

    ghost predicate Valid() reads this { NamesApart(rooms) }

    /** `saved` is the state file: any number of rooms, each cut to its newest lines. */
    constructor (saved: seq<Room>)
      requires NamesApart(saved)
      ensures Valid() && |rooms| == |saved|
      ensures forall i :: 0 <= i < |saved| ==> rooms[i] == Room(saved[i].name, LastN(saved[i].lines, ROOM_HISTORY))
    {
      rooms := seq(|saved|, i requires 0 <= i < |saved| => Room(saved[i].name, LastN(saved[i].lines, ROOM_HISTORY)));
    }

    method Recent(name: string) returns (lines: seq<Chat>)
      requires Valid()
      ensures lines == RecentLines(rooms, name)
    {
      var i := IndexOf(name);
      lines := if i < |rooms| then rooms[i].lines else [];
    }

    method IndexOf(name: string) returns (i: nat)
      ensures i == Find(rooms, name)
    {
      i := 0;
      while i < |rooms| && rooms[i].name != name
        invariant i <= |rooms| && i <= Find(rooms, name)
      {
        i := i + 1;
      }
    }

    method Push(name: string, msg: Chat)
      requires Valid()
      modifies this
      ensures Valid() && rooms == PushLine(old(rooms), name, msg)
    {
      var list := Recent(name);
      list := list + [msg];
      if |list| > ROOM_HISTORY { list := list[|list| - ROOM_HISTORY..]; }
      Store(name, list);
      EvictColdRooms();
    }

    method Store(name: string, list: seq<Chat>)
      requires Valid()
      modifies this
      ensures Valid() && rooms == Put(old(rooms), name, list)
    {
      PutEntries(rooms, name, list);
      var i := IndexOf(name);
      rooms := if i < |rooms| then rooms[i := Room(name, list)] else rooms + [Room(name, list)];
    }

    method EvictColdRooms()
      requires Valid()
      modifies this
      ensures Valid() && rooms == EvictCold(old(rooms), MAX_ROOMS)
    {
      if |rooms| <= MAX_ROOMS { return; }
      EvictKeepsApart(rooms, MAX_ROOMS);
      var cold := Sort(Warmer(), rooms)[..|rooms| - MAX_ROOMS];
      var kept := RemoveAll(rooms, cold);
      rooms := kept;
    }
  }
}
