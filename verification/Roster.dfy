/** The connected peers and the views of them the relay hands out (relay/src/core.ts). */
module Roster {
  import opened Collections
  import opened Protocol

  /** One live connection. `rooms` is an insertion-ordered set. */
  datatype Peer = Peer(conn: string, inst: InstanceId, name: string, agents: seq<Agent>, rooms: seq<string>,
                       director: Option<Director>, since: int)

  function Stamp(agents: seq<Agent>, p: Peer): (r: seq<PresentAgent>)
    ensures |r| == |agents|
  {
    seq(|agents|, i requires 0 <= i < |agents| => PresentAgent(agents[i], p.inst, p.name))
  }

  function Roster(peers: seq<Peer>): seq<PresentAgent> {
    if peers == [] then [] else Stamp(peers[0].agents, peers[0]) + Roster(peers[1..])
  }

  function RosterFor(peers: seq<Peer>, inst: InstanceId): (r: seq<PresentAgent>)
    ensures forall a :: a in r ==> a.instanceId != inst
  {
    Filter((a: PresentAgent) => a.instanceId != inst, Roster(peers))
  }

  function DirectorOf(p: Peer): seq<PresentDirector> {
    if p.director.None? then []
    else [PresentDirector(p.inst, p.name, p.director.value.name, |p.agents|, p.since, p.director.value.busy)]
  }

  function Directors(peers: seq<Peer>): seq<PresentDirector> {
    if peers == [] then [] else DirectorOf(peers[0]) + Directors(peers[1..])
  }

  function DirectorsFor(peers: seq<Peer>, inst: InstanceId): (r: seq<PresentDirector>)
    ensures forall d :: d in r ==> d.instanceId != inst
  {
    Filter((d: PresentDirector) => d.instanceId != inst, Directors(peers))
  }

  // ---- what each instance is told, place by place ----------------------------------------------

  /** Where an agent is reported: which peer, and where in that peer's list. */
  datatype Place = Place(peer: nat, agent: nat)

  ghost predicate Precedes(a: Place, b: Place) { a.peer < b.peer || (a.peer == b.peer && a.agent < b.agent) }

  ghost predicate ElsewhereAt(peers: seq<Peer>, inst: InstanceId, at: Place) {
    at.peer < |peers| && peers[at.peer].inst != inst && at.agent < |peers[at.peer].agents|
  }

  ghost predicate IsAgentAt(peers: seq<Peer>, inst: InstanceId, at: Place, a: PresentAgent) {
    && ElsewhereAt(peers, inst, at)
    && a.agent == peers[at.peer].agents[at.agent]
    && a.instanceId == peers[at.peer].inst && a.instanceName == peers[at.peer].name
  }

  /** Every agent of every other instance, each reported once, in connection order and in its own list's order. */
  ghost predicate ListsAgents(peers: seq<Peer>, inst: InstanceId, roster: seq<PresentAgent>) {
    exists at :: AgentsAt(peers, inst, roster, at)
  }

  ghost predicate AgentsAt(peers: seq<Peer>, inst: InstanceId, roster: seq<PresentAgent>, at: seq<Place>) {
    && |at| == |roster|
    && (forall k :: 0 <= k < |at| ==> IsAgentAt(peers, inst, at[k], roster[k]))
    && (forall k, l :: 0 <= k < l < |at| ==> Precedes(at[k], at[l]))
    && (forall a :: ElsewhereAt(peers, inst, a) ==> a in at)
  }

  ghost predicate IsDirectorOf(p: Peer, d: PresentDirector) {
    && p.director.Some? && d.name == p.director.value.name && d.busy == p.director.value.busy
    && d.instanceId == p.inst && d.instanceName == p.name && d.since == p.since && d.agents == |p.agents|
  }

  /** One entry for every other instance that declared a director, in connection order. */
  ghost predicate ListsDirectors(peers: seq<Peer>, inst: InstanceId, list: seq<PresentDirector>) {
    Picks(peers, list, DirectedElsewhere(inst), Directs())
  }

  function DirectedElsewhere(inst: InstanceId): Peer -> bool { (p: Peer) => p.inst != inst && p.director.Some? }
  ghost function Directs(): (Peer, PresentDirector) -> bool { (p: Peer, d: PresentDirector) => IsDirectorOf(p, d) }

  lemma {:induction false} RosterListsAgents(peers: seq<Peer>, inst: InstanceId)
    ensures ListsAgents(peers, inst, RosterFor(peers, inst))
  {
    if peers == [] {
      assert AgentsAt(peers, inst, [], []);
    } else {
      RosterListsAgents(peers[1..], inst);
      var rest :| AgentsAt(peers[1..], inst, RosterFor(peers[1..], inst), rest);
      OwnAgents(peers[0], inst);
      FilterAppends((a: PresentAgent) => a.instanceId != inst, Stamp(peers[0].agents, peers[0]), Roster(peers[1..]));
      FirstPeersAgents(peers, inst, RosterFor(peers[1..], inst), rest);
    }
  }

  lemma OwnAgents(p: Peer, inst: InstanceId)
    ensures Filter((a: PresentAgent) => a.instanceId != inst, Stamp(p.agents, p)) ==
              if p.inst == inst then [] else Stamp(p.agents, p)
  {
    var keep := (a: PresentAgent) => a.instanceId != inst;
    if p.inst == inst { FilterKeepsNone(keep, Stamp(p.agents, p)); } else { FilterKeepsAll(keep, Stamp(p.agents, p)); }
  }

  /** The first peer's agents, then the others' as they were, one peer further on. */
  lemma FirstPeersAgents(peers: seq<Peer>, inst: InstanceId, tail: seq<PresentAgent>, rest: seq<Place>)
    requires peers != [] && AgentsAt(peers[1..], inst, tail, rest)
    ensures ListsAgents(peers, inst, (if peers[0].inst == inst then [] else Stamp(peers[0].agents, peers[0])) + tail)
  {
    var p := peers[0];
    var own := if p.inst == inst then [] else seq(|p.agents|, j requires 0 <= j < |p.agents| => Place(0, j));
    var later := seq(|rest|, k requires 0 <= k < |rest| => Place(rest[k].peer + 1, rest[k].agent));
    forall k | 0 <= k < |rest| ensures IsAgentAt(peers, inst, later[k], tail[k]) {
      assert IsAgentAt(peers[1..], inst, rest[k], tail[k]);
    }
    forall k, l | 0 <= k < l < |rest| ensures Precedes(later[k], later[l]) { assert Precedes(rest[k], rest[l]); }
    forall a | ElsewhereAt(peers, inst, a) ensures a in own + later { PlaceIsListed(peers, inst, own, rest, later, a); }
    PlacesAppend(peers, inst, if p.inst == inst then [] else Stamp(p.agents, p), own, tail, later);
  }

  lemma PlacesAppend(peers: seq<Peer>, inst: InstanceId, head: seq<PresentAgent>, own: seq<Place>,
          tail: seq<PresentAgent>, later: seq<Place>)
    requires |own| == |head|
    requires forall k :: 0 <= k < |own| ==> own[k].peer == 0 && IsAgentAt(peers, inst, own[k], head[k])
    requires |later| == |tail|
    requires forall k :: 0 <= k < |later| ==> later[k].peer > 0 && IsAgentAt(peers, inst, later[k], tail[k])
    requires forall k, l :: 0 <= k < l < |own| ==> Precedes(own[k], own[l])
    requires forall k, l :: 0 <= k < l < |later| ==> Precedes(later[k], later[l])
    requires forall a :: ElsewhereAt(peers, inst, a) ==> a in own + later
    ensures ListsAgents(peers, inst, head + tail)
  {
    var roster, at, n := head + tail, own + later, |own|;
    forall k | 0 <= k < |at| ensures IsAgentAt(peers, inst, at[k], roster[k]) {
      if k < n { assert IsAgentAt(peers, inst, own[k], head[k]); } else {
        assert IsAgentAt(peers, inst, later[k - n], tail[k - n]);
      }
    }
    forall k, l | 0 <= k < l < |at| ensures Precedes(at[k], at[l]) {
      if l < n { assert Precedes(own[k], own[l]); } else if k >= n { assert Precedes(later[k - n], later[l - n]); }
    }
    assert AgentsAt(peers, inst, roster, at);
  }

  lemma PlaceIsListed(peers: seq<Peer>, inst: InstanceId, own: seq<Place>, rest: seq<Place>, later: seq<Place>,
          a: Place)
    requires ElsewhereAt(peers, inst, a) && forall b :: ElsewhereAt(peers[1..], inst, b) ==> b in rest
    requires peers[0].inst != inst ==>
               |own| == |peers[0].agents| && forall j :: 0 <= j < |own| ==> own[j] == Place(0, j)
    requires |later| == |rest| && forall k :: 0 <= k < |rest| ==> later[k] == Place(rest[k].peer + 1, rest[k].agent)
    ensures a in own + later
  {
    if a.peer == 0 {
      assert own[a.agent] == a;
    } else {
      var b := Place(a.peer - 1, a.agent);
      assert ElsewhereAt(peers[1..], inst, b);
      var k :| 0 <= k < |rest| && rest[k] == b;
      assert later[k] == a;
    }
  }

  lemma {:induction false} DirectorsListDirectors(peers: seq<Peer>, inst: InstanceId)
    ensures ListsDirectors(peers, inst, DirectorsFor(peers, inst))
  {
    if peers != [] {
      DirectorsListDirectors(peers[1..], inst);
      FilterAppends((d: PresentDirector) => d.instanceId != inst, DirectorOf(peers[0]), Directors(peers[1..]));
      OwnDirector(peers[0], inst);
      var list, rest := DirectorsFor(peers, inst), DirectorsFor(peers[1..], inst);
      assert list[|list| - |rest|..] == rest;
    }
  }

  lemma OwnDirector(p: Peer, inst: InstanceId)
    ensures Filter((d: PresentDirector) => d.instanceId != inst, DirectorOf(p)) ==
              if p.inst == inst then [] else DirectorOf(p)
  {
    var keep := (d: PresentDirector) => d.instanceId != inst;
    if p.inst == inst { FilterKeepsNone(keep, DirectorOf(p)); } else { FilterKeepsAll(keep, DirectorOf(p)); }
  }

  function OthersOnly(messages: seq<Chat>, inst: InstanceId): (r: seq<Chat>)
    ensures forall m :: m in r <==> m in messages && m.instanceId != inst
  {
    Filter((m: Chat) => m.instanceId != inst, messages)
  }

  // ---- finding peers ---------------------------------------------------------------------------

  function Lookup(peers: seq<Peer>, conn: string): (r: Option<Peer>)
    ensures r.Some? ==> r.value in peers && r.value.conn == conn
    ensures r.None? ==> forall p :: p in peers ==> p.conn != conn
  {
    if peers == [] then None else if peers[0].conn == conn then Some(peers[0]) else Lookup(peers[1..], conn)
  }

  /** At most one entry per connection and at most one connection per instance. */
  ghost predicate OnePerInstance(peers: seq<Peer>) {
    && (forall i, j :: 0 <= i < j < |peers| ==> peers[i].conn != peers[j].conn)
    && (forall i, j :: 0 <= i < j < |peers| ==> peers[i].inst != peers[j].inst)
  }

  lemma OnePerInstanceAt(peers: seq<Peer>, p: Peer, q: Peer)
    requires OnePerInstance(peers) && p in peers && q in peers
    requires p.conn == q.conn || p.inst == q.inst
    ensures p == q
  {
    var i :| 0 <= i < |peers| && peers[i] == p;
    var j :| 0 <= j < |peers| && peers[j] == q;
    assert !(i < j) && !(j < i);
  }

  function Replace(peers: seq<Peer>, p: Peer): (r: seq<Peer>)
    ensures |r| == |peers|
    ensures forall i :: 0 <= i < |peers| ==> r[i] == (if peers[i].conn == p.conn then p else peers[i])
  {
    seq(|peers|, i requires 0 <= i < |peers| => if peers[i].conn == p.conn then p else peers[i])
  }
}
