/** Which repository keys name one repository: the union-find behind the status page (relay/src/core.ts).
    The parent map always points a key at a lexicographically smaller one, so every walk ends, and the root
    of a class is its smallest key. */
module RepoGroups {
  import opened Collections
  import opened Protocol
  import opened Roster

  type Parents = map<string, string>

  // ---- the relation the declarations generate --------------------------------------------------

  /** Every (instance name, agent) pair the office can see; connection order is forgotten here. */
  ghost function Sightings(peers: seq<Peer>): set<(string, Agent)> {
    set p, a | p in peers && a in p.agents :: (p.name, a)
  }

  ghost function Edges(seen: set<(string, Agent)>): set<(string, string)> {
    set s, alias | s in seen && alias in s.1.repoAliases :: (s.1.repoKey, alias)
  }

  ghost function Mentioned(seen: set<(string, Agent)>): set<string> {
    (set s | s in seen :: s.1.repoKey) + (set e | e in Edges(seen) :: e.1)
  }

  ghost predicate Step(edges: set<(string, string)>, a: string, b: string) {
    (a, b) in edges || (b, a) in edges
  }

  ghost predicate Walk(edges: set<(string, string)>, p: seq<string>) {
    |p| > 0 && forall i :: 0 <= i < |p| - 1 ==> Step(edges, p[i], p[i + 1])
  }

  /** The least equivalence holding every declared pair: joined by a path of declarations read either way. */
  ghost predicate Linked(edges: set<(string, string)>, a: string, b: string) {
    exists p :: Walk(edges, p) && p[0] == a && p[|p| - 1] == b
  }

  lemma LinkedToItself(edges: set<(string, string)>, a: string)
    ensures Linked(edges, a, a)
  {
    assert Walk(edges, [a]);
  }

  lemma LinkedByStep(edges: set<(string, string)>, a: string, b: string)
    requires Step(edges, a, b)
    ensures Linked(edges, a, b)
  {
    assert Walk(edges, [a, b]) && [a, b][0] == a && [a, b][|[a, b]| - 1] == b;
  }

  lemma LinkedBackwards(edges: set<(string, string)>, a: string, b: string)
    requires Linked(edges, a, b)
    ensures Linked(edges, b, a)
  {
    var p :| Walk(edges, p) && p[0] == a && p[|p| - 1] == b;
    var q := seq(|p|, i requires 0 <= i < |p| => p[|p| - 1 - i]);
    forall i | 0 <= i < |q| - 1 ensures Step(edges, q[i], q[i + 1]) {
      assert Step(edges, p[|p| - 2 - i], p[|p| - 2 - i + 1]);
    }
    assert Walk(edges, q) && q[0] == b && q[|q| - 1] == a;
  }

  lemma LinkedThrough(edges: set<(string, string)>, a: string, b: string, c: string)
    requires Linked(edges, a, b) && Linked(edges, b, c)
    ensures Linked(edges, a, c)
  {
    var p :| Walk(edges, p) && p[0] == a && p[|p| - 1] == b;
    var q :| Walk(edges, q) && q[0] == b && q[|q| - 1] == c;
    var r := p + q[1..];
    forall i | 0 <= i < |r| - 1 ensures Step(edges, r[i], r[i + 1]) {
      if i < |p| - 1 {
        assert Step(edges, p[i], p[i + 1]);
      } else {
        assert r[i] == q[i - |p| + 1] && r[i + 1] == q[i - |p| + 2];
        assert Step(edges, q[i - |p| + 1], q[i - |p| + 1 + 1]);
      }
    }
    assert Walk(edges, r) && r[0] == a && r[|r| - 1] == c;
  }

  lemma LinkedWithMore(edges: set<(string, string)>, more: set<(string, string)>, a: string, b: string)
    requires Linked(edges, a, b) && edges <= more
    ensures Linked(more, a, b)
  {
    var p :| Walk(edges, p) && p[0] == a && p[|p| - 1] == b;
    forall i | 0 <= i < |p| - 1 ensures Step(more, p[i], p[i + 1]) {
      assert Step(edges, p[i], p[i + 1]);
    }
    assert Walk(more, p);
  }

  // ---- the forest ------------------------------------------------------------------------------

  /** `parent.get(k) ?? k` */
  function Up(parent: Parents, k: string): string { if k in parent then parent[k] else k }

  ghost predicate Forest(parent: Parents) {
    forall k {:trigger Up(parent, k)} :: k in parent ==>
      Up(parent, k) in parent && (Up(parent, k) == k || Less(Up(parent, k), k))
  }

  lemma ForestWith(parent: Parents, k: string, up: string)
    requires Forest(parent) && (up == k || (up in parent && Less(up, k)))
    ensures Forest(parent[k := up])
  {
    var more := parent[k := up];
    forall j {:trigger Up(more, j)} | j in more
      ensures Up(more, j) in more && (Up(more, j) == j || Less(Up(more, j), j))
    {
      assert j != k ==> Up(more, j) == Up(parent, j);
    }
  }

  ghost function Below(parent: Parents, k: string): set<string> {
    set j | j in parent && Less(j, k)
  }

  lemma BelowShrinks(parent: Parents, up: string, k: string)
    requires up in parent && Less(up, k)
    ensures |Below(parent, up)| < |Below(parent, k)|
  {
    forall j | j in Below(parent, up) ensures j in Below(parent, k) {
      LessIsTransitive(j, up, k);
    }
    LessIsIrreflexive(up);
    var lower, upper := Below(parent, up), Below(parent, k);
    assert up in upper && up !in lower;
    assert lower + (upper - lower) == upper;
    assert |upper - lower| > 0;
  }

  ghost function Root(parent: Parents, k: string): string
    requires Forest(parent) && k in parent
    decreases |Below(parent, k)|
  {
    if Up(parent, k) == k then k
    else
      BelowShrinks(parent, Up(parent, k), k);
      Root(parent, Up(parent, k))
  }

  lemma {:induction false} RootIsLeast(parent: Parents, k: string)
    requires Forest(parent) && k in parent
    ensures Root(parent, k) in parent && Up(parent, Root(parent, k)) == Root(parent, k)
    ensures Root(parent, k) == k || Less(Root(parent, k), k)
    decreases |Below(parent, k)|
  {
    var up := Up(parent, k);
    if up != k {
      BelowShrinks(parent, up, k);
      RootIsLeast(parent, up);
      if Root(parent, up) != up { LessIsTransitive(Root(parent, up), up, k); }
    }
  }

  /** Pointing a key straight at its root moves no root. */
  lemma {:induction false} CompressionKeepsRoots(parent: Parents, k: string, j: string)
    requires Forest(parent) && k in parent && j in parent
    requires Root(parent, k) in parent && (Root(parent, k) == k || Less(Root(parent, k), k))
    ensures Forest(parent[k := Root(parent, k)])
    ensures Root(parent[k := Root(parent, k)], j) == Root(parent, j)
    decreases |Below(parent, j)|
  {
    var r := Root(parent, k);
    var after := parent[k := r];
    RootIsLeast(parent, k);
    ForestWith(parent, k, r);
    if j == k {
      assert Up(after, r) == r;
      assert Root(after, r) == r;
    } else if Up(parent, j) != j {
      BelowShrinks(parent, Up(parent, j), j);
      CompressionKeepsRoots(parent, k, Up(parent, j));
    }
  }

  /** Hanging one root under a smaller one moves exactly that class. */
  lemma {:induction false} HangingMovesOneClass(parent: Parents, lo: string, hi: string, j: string)
    requires Forest(parent) && lo in parent && hi in parent && j in parent
    requires Up(parent, lo) == lo && Up(parent, hi) == hi && Less(lo, hi)
    ensures Forest(parent[hi := lo])
    ensures Root(parent[hi := lo], j) == (if Root(parent, j) == hi then lo else Root(parent, j))
    decreases |Below(parent, j)|
  {
    var after := parent[hi := lo];
    LessIsAsymmetric(lo, hi);
    ForestWith(parent, hi, lo);
    assert Root(after, lo) == lo;
    if j != hi && Up(parent, j) != j {
      BelowShrinks(parent, Up(parent, j), j);
      HangingMovesOneClass(parent, lo, hi, Up(parent, j));
    }
  }

  /** A key mentioned for the first time is a class of its own. */
  lemma {:induction false} NewKeyMovesNothing(parent: Parents, k: string, j: string)
    requires Forest(parent) && k !in parent && j in parent
    ensures Forest(parent[k := k]) && Root(parent[k := k], j) == Root(parent, j)
    decreases |Below(parent, j)|
  {
    ForestWith(parent, k, k);
    if Up(parent, j) != j {
      BelowShrinks(parent, Up(parent, j), j);
      NewKeyMovesNothing(parent, k, Up(parent, j));
    }
  }

  /** Two forests over the same keys that agree on every root. */
  ghost predicate SameRoots(p: Parents, q: Parents) {
    && Forest(p) && Forest(q) && p.Keys == q.Keys
    && forall j {:trigger Root(p, j)} {:trigger Root(q, j)} :: j in p ==> Root(p, j) == Root(q, j)
  }

  lemma SameRootsThrough(p: Parents, q: Parents, r: Parents)
    requires SameRoots(p, q) && SameRoots(q, r)
    ensures SameRoots(p, r)
  {
  }

  lemma CompressedRoots(parent: Parents, k: string, flat: Parents)
    requires Forest(parent) && k in parent && flat == parent[k := Root(parent, k)]
    ensures SameRoots(parent, flat)
  {
    RootIsLeast(parent, k);
    ForestWith(parent, k, Root(parent, k));
    forall j {:trigger Root(flat, j)} {:trigger Root(parent, j)} | j in parent
        ensures Root(flat, j) == Root(parent, j) {
      CompressionKeepsRoots(parent, k, j);
    }
  }

  lemma RootOfParent(parent: Parents, k: string)
    requires Forest(parent) && k in parent
    ensures Up(parent, k) in parent && Root(parent, Up(parent, k)) == Root(parent, k)
  {
  }

  method Find(parent: Parents, k: string) returns (root: string, compressed: Parents)
    requires Forest(parent) && k in parent
    ensures root == Root(parent, k)
    ensures SameRoots(parent, compressed)
    decreases |Below(parent, k)|
  {
    var up := Up(parent, k);
    if up == k { return k, parent; }
    BelowShrinks(parent, up, k);
    var mid;
    root, mid := Find(parent, up);
    RootOfParent(parent, k);
    compressed := mid[k := root];
    CompressedRoots(mid, k, compressed);
    SameRootsThrough(parent, mid, compressed);
  }

  // ---- the partition the loops maintain --------------------------------------------------------

  /** The forest's classes are exactly those of the edges read so far. */
  ghost predicate Partition(parent: Parents, edges: set<(string, string)>) {
    && Forest(parent)
    && (forall e :: e in edges ==> e.0 in parent && e.1 in parent && Root(parent, e.0) == Root(parent, e.1))
    && (forall k {:trigger Root(parent, k)} :: k in parent ==> Linked(edges, k, Root(parent, k)))
  }

  lemma {:induction false} PathKeepsRoot(parent: Parents, edges: set<(string, string)>, p: seq<string>)
    requires Partition(parent, edges) && Walk(edges, p) && p[0] in parent
    ensures p[|p| - 1] in parent && Root(parent, p[|p| - 1]) == Root(parent, p[0])
  {
    if |p| > 1 {
      assert Step(edges, p[0], p[0 + 1]);
      forall i | 0 <= i < |p[1..]| - 1 ensures Step(edges, p[1..][i], p[1..][i + 1]) {
        assert Step(edges, p[i + 1], p[i + 1 + 1]);
      }
      PathKeepsRoot(parent, edges, p[1..]);
    }
  }

  lemma LinkedKeepsRoot(parent: Parents, edges: set<(string, string)>, a: string, b: string)
    requires Partition(parent, edges) && Linked(edges, a, b) && a in parent
    ensures b in parent && Root(parent, a) == Root(parent, b)
  {
    var p :| Walk(edges, p) && p[0] == a && p[|p| - 1] == b;
    PathKeepsRoot(parent, edges, p);
  }

  /** Hanging the larger root under the smaller one adds exactly the one edge. */
  lemma JoinedPartition(parent: Parents, edges: set<(string, string)>, a: string, b: string, lo: string, hi: string)
    requires Partition(parent, edges) && a in parent && b in parent && Less(lo, hi)
    requires (lo == Root(parent, a) && hi == Root(parent, b)) || (lo == Root(parent, b) && hi == Root(parent, a))
    ensures Partition(parent[hi := lo], edges + {(a, b)})
    ensures parent[hi := lo].Keys == parent.Keys
  {
    var joined, more := parent[hi := lo], edges + {(a, b)};
    RootIsLeast(parent, a);
    RootIsLeast(parent, b);
    ForestWith(parent, hi, lo);
    LinkedWithMore(edges, more, a, Root(parent, a));
    LinkedWithMore(edges, more, b, Root(parent, b));
    LinkedByStep(more, a, b);
    LinkedAcross(more, a, b, Root(parent, a), Root(parent, b));
    forall k {:trigger Root(joined, k)} {:trigger Root(parent, k)} | k in joined
      ensures Root(joined, k) == (if Root(parent, k) == hi then lo else Root(parent, k))
      ensures Linked(more, k, Root(joined, k))
    {
      JoinedRoot(parent, edges, more, lo, hi, k);
    }
  }

  lemma JoinedRoot(parent: Parents, edges: set<(string, string)>, more: set<(string, string)>, lo: string, hi: string,
          k: string)
    requires Partition(parent, edges) && edges <= more && lo in parent && hi in parent && k in parent
    requires Up(parent, lo) == lo && Up(parent, hi) == hi && Less(lo, hi) && Linked(more, hi, lo)
    ensures Forest(parent[hi := lo]) && Root(parent[hi := lo], k)
        == (if Root(parent, k) == hi then lo else Root(parent, k))
    ensures Linked(more, k, Root(parent[hi := lo], k))
  {
    HangingMovesOneClass(parent, lo, hi, k);
    LinkedWithMore(edges, more, k, Root(parent, k));
    if Root(parent, k) == hi { LinkedThrough(more, k, hi, lo); }
  }

  lemma CompressedPartition(parent: Parents, flat: Parents, edges: set<(string, string)>)
    requires Partition(parent, edges) && SameRoots(parent, flat)
    ensures Partition(flat, edges)
  {
    forall k {:trigger Root(flat, k)} | k in flat ensures Linked(edges, k, Root(flat, k)) {
      assert Linked(edges, k, Root(parent, k));
    }
  }

  lemma EdgeWithin(parent: Parents, edges: set<(string, string)>, a: string, b: string)
    requires Partition(parent, edges) && a in parent && b in parent && Root(parent, a) == Root(parent, b)
    ensures Partition(parent, edges + {(a, b)})
  {
    forall k {:trigger Root(parent, k)} | k in parent ensures Linked(edges + {(a, b)}, k, Root(parent, k)) {
      LinkedWithMore(edges, edges + {(a, b)}, k, Root(parent, k));
    }
  }

  method Union(parent: Parents, a: string, b: string, ghost edges: set<(string, string)>) returns (joined: Parents)
    requires Partition(parent, edges) && a in parent && b in parent
    ensures Partition(joined, edges + {(a, b)}) && joined.Keys == parent.Keys
  {
    var ra, mid := Find(parent, a);
    var rb, flat := Find(mid, b);
    SameRootsThrough(parent, mid, flat);
    CompressedPartition(parent, flat, edges);
    if ra == rb {
      EdgeWithin(flat, edges, a, b);
      return flat;
    }
    LessIsTotal(ra, rb);
    if Less(ra, rb) {
      JoinedPartition(flat, edges, a, b, ra, rb);
      joined := flat[rb := ra];
    } else {
      JoinedPartition(flat, edges, a, b, rb, ra);
      joined := flat[ra := rb];
    }
  }

  lemma LinkedAcross(edges: set<(string, string)>, a: string, b: string, ra: string, rb: string)
    requires Linked(edges, a, b) && Linked(edges, a, ra) && Linked(edges, b, rb)
    ensures Linked(edges, ra, rb) && Linked(edges, rb, ra)
  {
    LinkedBackwards(edges, a, ra);
    LinkedThrough(edges, ra, a, b);
    LinkedThrough(edges, ra, b, rb);
    LinkedBackwards(edges, ra, rb);
  }

  /** `if (!parent.has(k)) parent.set(k, k)` */
  method Mention(parent: Parents, k: string, ghost edges: set<(string, string)>) returns (more: Parents)
    requires Partition(parent, edges)
    ensures Partition(more, edges) && more.Keys == parent.Keys + {k}
  {
    if k in parent { return parent; }
    more := parent[k := k];
    ForestWith(parent, k, k);
    forall j {:trigger Root(more, j)} {:trigger Root(parent, j)} | j in parent
        ensures Root(more, j) == Root(parent, j) {
      NewKeyMovesNothing(parent, k, j);
    }
    assert Root(more, k) == k;
    LinkedToItself(edges, k);
    forall j {:trigger Root(more, j)} | j in more ensures Linked(edges, j, Root(more, j)) {
      assert j != k ==> Linked(edges, j, Root(parent, j));
    }
  }

  /** One agent's declarations. */
  method AddAgent(parent: Parents, a: Agent, ghost edges: set<(string, string)>)
    returns (grown: Parents, ghost more: set<(string, string)>)
    requires Partition(parent, edges)
    ensures Partition(grown, more)
    ensures more == edges + Declared(a.repoKey, a.repoAliases)
    ensures grown.Keys == parent.Keys + {a.repoKey} + Elements(a.repoAliases)
  {
    grown := Mention(parent, a.repoKey, edges);
    more := edges;
    for i := 0 to |a.repoAliases|
      invariant Partition(grown, more) && a.repoKey in grown
      invariant more == edges + Declared(a.repoKey, a.repoAliases[..i])
      invariant grown.Keys == parent.Keys + {a.repoKey} + Elements(a.repoAliases[..i])
    {
      var alias := a.repoAliases[i];
      OneMoreAlias(a.repoKey, a.repoAliases, i);
      grown := Mention(grown, alias, more);
      grown := Union(grown, a.repoKey, alias, more);
      more := more + {(a.repoKey, alias)};
    }
    assert a.repoAliases[..|a.repoAliases|] == a.repoAliases;
  }

  ghost function Declared(key: string, aliases: seq<string>): set<(string, string)> {
    set alias | alias in aliases :: (key, alias)
  }

  ghost function Elements(aliases: seq<string>): set<string> { set alias | alias in aliases }

  lemma OneMoreAlias(key: string, aliases: seq<string>, i: nat)
    requires i < |aliases|
    ensures Declared(key, aliases[..i + 1]) == Declared(key, aliases[..i]) + {(key, aliases[i])}
    ensures Elements(aliases[..i + 1]) == Elements(aliases[..i]) + {aliases[i]}
  {
    assert aliases[..i + 1] == aliases[..i] + [aliases[i]];
  }

  // ---- the groups ------------------------------------------------------------------------------

  /** Each mentioned key is mapped to the smallest key of its class. */
  ghost predicate IsGrouping(seen: set<(string, Agent)>, groups: map<string, string>) {
    && groups.Keys == Mentioned(seen)
    && forall k {:trigger groups[k]} :: k in groups ==> IsLeastLinked(Edges(seen), k, groups[k])
  }

  ghost predicate IsLeastLinked(edges: set<(string, string)>, k: string, least: string) {
    Linked(edges, k, least) && forall j :: Linked(edges, k, j) ==> least == j || Less(least, j)
  }

  method RepoGroups(peers: seq<Peer>) returns (groups: map<string, string>)
    ensures IsGrouping(Sightings(peers), groups)
  {
    var parent: Parents := map[];
    for i := 0 to |peers|
      invariant Tracks(parent, Sightings(peers[..i]))
    {
      OneMorePeer(peers, i);
      parent := AddPeer(parent, peers[i], Sightings(peers[..i]));
    }
    assert peers[..|peers|] == peers;
    groups := RootOfEach(parent);
    RootsGroup(parent, Sightings(peers), groups);
  }

  /** The forest holds exactly the sightings read so far. */
  ghost predicate Tracks(parent: Parents, seen: set<(string, Agent)>) {
    Partition(parent, Edges(seen)) && parent.Keys == Mentioned(seen)
  }

  method AddPeer(parent: Parents, p: Peer, ghost seen: set<(string, Agent)>) returns (grown: Parents)
    requires Tracks(parent, seen)
    ensures Tracks(grown, seen + SightingsOf(p, |p.agents|))
  {
    grown := parent;
    assert seen + SightingsOf(p, 0) == seen;
    for j := 0 to |p.agents|
      invariant Tracks(grown, seen + SightingsOf(p, j))
    {
      ghost var before := seen + SightingsOf(p, j);
      ghost var more;
      OneMoreAgent(p, j);
      OneMoreSighting(before, (p.name, p.agents[j]));
      assert seen + SightingsOf(p, j + 1) == before + {(p.name, p.agents[j])};
      grown, more := AddAgent(grown, p.agents[j], Edges(before));
    }
  }

  ghost function SightingsOf(p: Peer, n: nat): set<(string, Agent)>
    requires n <= |p.agents|
  {
    set a | a in p.agents[..n] :: (p.name, a)
  }

  lemma OneMoreAgent(p: Peer, n: nat)
    requires n < |p.agents|
    ensures SightingsOf(p, n + 1) == SightingsOf(p, n) + {(p.name, p.agents[n])}
  {
    assert p.agents[..n + 1] == p.agents[..n] + [p.agents[n]];
  }

  lemma OneMorePeer(peers: seq<Peer>, i: nat)
    requires i < |peers|
    ensures Sightings(peers[..i + 1]) == Sightings(peers[..i]) + SightingsOf(peers[i], |peers[i].agents|)
  {
    assert peers[..i + 1] == peers[..i] + [peers[i]];
    assert peers[i].agents[..|peers[i].agents|] == peers[i].agents;
  }

  lemma OneMoreSighting(seen: set<(string, Agent)>, s: (string, Agent))
    ensures Edges(seen + {s}) == Edges(seen) + Declared(s.1.repoKey, s.1.repoAliases)
    ensures Mentioned(seen + {s}) == Mentioned(seen) + {s.1.repoKey} + Elements(s.1.repoAliases)
  {
    var added := set alias | alias in s.1.repoAliases :: (s.1.repoKey, alias);
    assert Edges(seen + {s}) == Edges(seen) + added;
    assert (set e | e in added :: e.1) == (set alias | alias in s.1.repoAliases) by {
      forall alias | alias in s.1.repoAliases ensures exists e :: e in added && e.1 == alias {
        assert (s.1.repoKey, alias) in added;
      }
    }
    assert (set e | e in Edges(seen + {s}) :: e.1) == (set e | e in Edges(seen) :: e.1) + (set e | e in added :: e.1);
  }

  /** The closing pass: `find` every key, compressing as it goes. */
  method RootOfEach(parent: Parents) returns (groups: map<string, string>)
    requires Forest(parent)
    ensures groups.Keys == parent.Keys
    ensures forall k {:trigger groups[k]} :: k in groups ==> groups[k] == Root(parent, k)
  {
    groups := map[];
    var todo := parent.Keys;
    var current := parent;
    while todo != {}
      invariant todo <= parent.Keys && groups.Keys == parent.Keys - todo
      invariant SameRoots(parent, current)
      invariant forall k {:trigger groups[k]} :: k in groups ==> groups[k] == Root(parent, k)
      decreases todo
    {
      var k :| k in todo;
      var root, flat := Find(current, k);
      SameRootsThrough(parent, current, flat);
      current := flat;
      groups := groups[k := root];
      todo := todo - {k};
    }
  }

  lemma RootsGroup(parent: Parents, seen: set<(string, Agent)>, groups: map<string, string>)
    requires Partition(parent, Edges(seen)) && parent.Keys == Mentioned(seen) && groups.Keys == parent.Keys
    requires forall k {:trigger groups[k]} :: k in groups ==> groups[k] == Root(parent, k)
    ensures IsGrouping(seen, groups)
  {
    forall k {:trigger groups[k]} | k in groups ensures IsLeastLinked(Edges(seen), k, groups[k]) {
      RootIsLeastLinked(parent, Edges(seen), k);
    }
  }

  lemma RootIsLeastLinked(parent: Parents, edges: set<(string, string)>, k: string)
    requires Partition(parent, edges) && k in parent
    ensures IsLeastLinked(edges, k, Root(parent, k))
  {
    forall j | Linked(edges, k, j) ensures Root(parent, k) == j || Less(Root(parent, k), j) {
      LinkedKeepsRoot(parent, edges, k, j);
      RootIsLeast(parent, j);
    }
  }

  /** The grouping is a function of who is working on what, never of who connected first. */
  lemma GroupingIsUnique(seen: set<(string, Agent)>, g: map<string, string>, h: map<string, string>)
    requires IsGrouping(seen, g) && IsGrouping(seen, h)
    ensures g == h
  {
    forall k | k in g ensures g[k] == h[k] {
      assert IsLeastLinked(Edges(seen), k, g[k]) && IsLeastLinked(Edges(seen), k, h[k]);
      if g[k] != h[k] { LessIsAsymmetric(g[k], h[k]); }
    }
  }

  // ---- repositories two or more instances share ------------------------------------------------

  datatype Shared = Shared(repoKey: string, repoLabel: string, instances: seq<string>)

  ghost function Names(seen: set<(string, Agent)>, groups: map<string, string>, group: string): set<string>
    requires Mentioned(seen) <= groups.Keys
  {
    set s | s in seen && MapsTo(groups, s.1.repoKey, group) :: s.0
  }

  ghost predicate MapsTo(groups: map<string, string>, key: string, group: string) {
    key in groups && groups[key] == group
  }

  /** Some agent speaks for this group under the group's own key. */
  ghost predicate OwnLabel(seen: set<(string, Agent)>, group: string, name: string) {
    name != "" && exists s :: s in seen && s.1.repoKey == group && s.1.repoLabel == name
  }

  /** One entry per group seen, naming exactly the instances in it; its label comes from the
      representative key whenever an agent under that key carries one. */
  ghost predicate Tally(seen: set<(string, Agent)>, groups: map<string, string>, entries: seq<Shared>)
  {
    && Mentioned(seen) <= groups.Keys
    && KeysApart(entries)
    && (forall e :: e in entries ==> GoodEntry(seen, groups, e))
    && (forall s :: s in seen ==> exists e :: e in entries && MapsTo(groups, s.1.repoKey, e.repoKey))
  }

  ghost predicate GoodEntry(seen: set<(string, Agent)>, groups: map<string, string>, e: Shared)
    requires Mentioned(seen) <= groups.Keys
  {
    && e.repoKey in groups && groups[e.repoKey] == e.repoKey
    && Distinct(e.instances)
    && (set n | n in e.instances) == Names(seen, groups, e.repoKey)
    && ((exists l :: OwnLabel(seen, e.repoKey, l)) ==> OwnLabel(seen, e.repoKey, e.repoLabel))
  }

  /** What the status page reports: exactly the groups with two or more distinct instance names. */
  ghost predicate IsShared(seen: set<(string, Agent)>, groups: map<string, string>, shared: seq<Shared>) {
    && Mentioned(seen) <= groups.Keys
    && KeysApart(shared)
    && (forall e :: e in shared ==> |e.instances| >= 2 && GoodEntry(seen, groups, e))
    && (forall g :: |Names(seen, groups, g)| >= 2 ==> exists e :: e in shared && e.repoKey == g)
  }

  ghost predicate IsOwnGroup(groups: map<string, string>, g: string) {
    g in groups && groups[g] == g
  }

  ghost predicate SelfRepresented(groups: map<string, string>) {
    forall k {:trigger groups[k]} :: k in groups ==> IsOwnGroup(groups, groups[k])
  }

  /** A representative represents itself. */
  lemma GroupingSettles(seen: set<(string, Agent)>, groups: map<string, string>)
    requires IsGrouping(seen, groups)
    ensures SelfRepresented(groups)
  {
    var edges := Edges(seen);
    forall k | k in groups ensures IsOwnGroup(groups, groups[k]) {
      assert IsLeastLinked(edges, k, groups[k]);
      var r := groups[k];
      LinkStaysMentioned(seen, k, r);
      assert IsLeastLinked(edges, r, groups[r]);
      LinkedThrough(edges, k, r, groups[r]);
      LinkedToItself(edges, r);
      if groups[r] != r { LessIsAsymmetric(r, groups[r]); }
    }
  }

  lemma LinkStaysMentioned(seen: set<(string, Agent)>, a: string, b: string)
    requires a in Mentioned(seen) && Linked(Edges(seen), a, b)
    ensures b in Mentioned(seen)
  {
    var p :| Walk(Edges(seen), p) && p[0] == a && p[|p| - 1] == b;
    if |p| > 1 {
      var n := |p| - 2;
      assert Step(Edges(seen), p[n], p[n + 1]);
      if (p[n + 1], p[n]) in Edges(seen) {
        var s :| s in seen && s.1.repoKey == p[n + 1] && p[n] in s.1.repoAliases;
      }
    }
  }

  /** The groups at least two distinct names are in, under the least equivalence of what was sighted. */
  ghost predicate IsReport(seen: set<(string, Agent)>, shared: seq<Shared>) {
    exists groups :: IsGrouping(seen, groups) && IsShared(seen, groups, shared)
  }

  method SharedRepos(peers: seq<Peer>) returns (shared: seq<Shared>)
    ensures IsReport(Sightings(peers), shared)
  {
    var canonical := RepoGroups(peers);
    GroupingSettles(Sightings(peers), canonical);
    var byRepo: seq<Shared> := [];
    for i := 0 to |peers|
      invariant Tally(Sightings(peers[..i]), canonical, byRepo)
    {
      OneMorePeer(peers, i);
      assert Sightings(peers[..i + 1]) <= Sightings(peers);
      MentionedGrows(Sightings(peers[..i + 1]), Sightings(peers));
      byRepo := CountPeer(canonical, byRepo, peers[i], Sightings(peers[..i]));
    }
    assert peers[..|peers|] == peers;
    shared := Filter((e: Shared) => |e.instances| >= 2, byRepo);
    OnlyShared(Sightings(peers), canonical, byRepo, shared);
  }

  lemma NextAgent(p: Peer, j: nat, seen: set<(string, Agent)>)
    requires j < |p.agents|
    ensures var now := seen + SightingsOf(p, j) + {(p.name, p.agents[j])};
            && now == seen + SightingsOf(p, j + 1) && p.agents[j].repoKey in Mentioned(now)
            && Mentioned(now) <= Mentioned(seen + SightingsOf(p, |p.agents|))
  {
    OneMoreAgent(p, j);
    var now := seen + SightingsOf(p, j) + {(p.name, p.agents[j])};
    assert (p.name, p.agents[j]) in now;
    assert now <= seen + SightingsOf(p, |p.agents|);
    MentionedGrows(now, seen + SightingsOf(p, |p.agents|));
  }

  method CountPeer(canonical: map<string, string>, byRepo: seq<Shared>, p: Peer, ghost seen: set<(string, Agent)>)
    returns (entries: seq<Shared>)
    requires Tally(seen, canonical, byRepo) && SelfRepresented(canonical)
    requires Mentioned(seen + SightingsOf(p, |p.agents|)) <= canonical.Keys
    ensures Tally(seen + SightingsOf(p, |p.agents|), canonical, entries)
  {
    entries := byRepo;
    assert seen + SightingsOf(p, 0) == seen;
    for j := 0 to |p.agents|
      invariant Tally(seen + SightingsOf(p, j), canonical, entries)
    {
      var a := p.agents[j];
      ghost var before := seen + SightingsOf(p, j);
      NextAgent(p, j, seen);
      entries := Count(canonical, entries, p.name, a, before);
    }
  }

  lemma OnlyShared(seen: set<(string, Agent)>, groups: map<string, string>, entries: seq<Shared>, shared: seq<Shared>)
    requires Tally(seen, groups, entries) && shared == Filter((e: Shared) => |e.instances| >= 2, entries)
    ensures IsShared(seen, groups, shared)
  {
    FilterKeepsKeysApart((e: Shared) => |e.instances| >= 2, entries);
    forall g | |Names(seen, groups, g)| >= 2 ensures exists e :: e in shared && e.repoKey == g {
      var n :| n in Names(seen, groups, g);
      var s :| s in seen && MapsTo(groups, s.1.repoKey, g) && s.0 == n;
      var e :| e in entries && MapsTo(groups, s.1.repoKey, e.repoKey);
      assert GoodEntry(seen, groups, e);
      ToSet(e.instances);
    }
  }

  /** `byRepo` updated for one agent of one instance. */
  method Count(canonical: map<string, string>, byRepo: seq<Shared>, name: string, a: Agent,
          ghost seen: set<(string, Agent)>)
    returns (entries: seq<Shared>)
    requires Tally(seen, canonical, byRepo) && a.repoKey in canonical && SelfRepresented(canonical)
    requires Mentioned(seen + {(name, a)}) <= canonical.Keys
    ensures Tally(seen + {(name, a)}, canonical, entries)
  {
    var group := canonical[a.repoKey];
    var at := 0;
    while at < |byRepo| && byRepo[at].repoKey != group
      invariant 0 <= at <= |byRepo|
      invariant forall i :: 0 <= i < at ==> byRepo[i].repoKey != group
    {
      at := at + 1;
    }
    var e := if at < |byRepo| then byRepo[at] else Shared(group, if a.repoLabel != "" then a.repoLabel else group, []);
    if a.repoKey == group && a.repoLabel != "" { e := e.(repoLabel := a.repoLabel); }
    if name !in e.instances { e := e.(instances := e.instances + [name]); }
    ghost var before := if at < |byRepo| then byRepo[at] else Shared(group, e.repoLabel, []);
    if at == |byRepo| { NothingYet(seen, canonical, byRepo, before); }
    entries := if at < |byRepo| then byRepo[at := e] else byRepo + [e];
    OneMoreName(seen, canonical, name, a, before, e);
    Recounted(seen, canonical, byRepo, name, a, at, entries);
  }

  /** A group without an entry has not been seen at all. */
  lemma NothingYet(seen: set<(string, Agent)>, groups: map<string, string>, entries: seq<Shared>, e: Shared)
    requires Tally(seen, groups, entries) && SelfRepresented(groups) && e.instances == []
    requires forall x :: x in entries ==> x.repoKey != e.repoKey
    requires e.repoKey in groups && groups[e.repoKey] == e.repoKey
    ensures GoodEntry(seen, groups, e)
  {
    forall s | s in seen ensures !MapsTo(groups, s.1.repoKey, e.repoKey) {
      var x :| x in entries && MapsTo(groups, s.1.repoKey, x.repoKey);
    }
    assert Names(seen, groups, e.repoKey) == {};
    assert forall l :: !OwnLabel(seen, e.repoKey, l);
  }

  lemma OneMoreName(seen: set<(string, Agent)>, groups: map<string, string>, name: string, a: Agent, before: Shared,
          e: Shared)
    requires Mentioned(seen) <= groups.Keys && Mentioned(seen + {(name, a)}) <= groups.Keys
    requires GoodEntry(seen, groups, before) && MapsTo(groups, a.repoKey, before.repoKey)
    requires e.repoKey == before.repoKey
    requires e.repoLabel == if a.repoKey == e.repoKey && a.repoLabel != "" then a.repoLabel else before.repoLabel
    requires e.instances == if name in before.instances then before.instances else before.instances + [name]
    ensures GoodEntry(seen + {(name, a)}, groups, e)
  {
    NamesGrow(seen, groups, name, a);
    OwnLabelGrows(seen, name, a);
    assert (set n | n in e.instances) == (set n | n in before.instances) + {name};
  }

  lemma OtherEntry(seen: set<(string, Agent)>, groups: map<string, string>, name: string, a: Agent, e: Shared)
    requires Mentioned(seen) <= groups.Keys && Mentioned(seen + {(name, a)}) <= groups.Keys && SelfRepresented(groups)
    requires GoodEntry(seen, groups, e) && a.repoKey in groups && groups[a.repoKey] != e.repoKey
    ensures GoodEntry(seen + {(name, a)}, groups, e)
  {
    NamesGrow(seen, groups, name, a);
    OwnLabelGrows(seen, name, a);
  }

  lemma OthersRecounted(seen: set<(string, Agent)>, groups: map<string, string>, byRepo: seq<Shared>, name: string,
          a: Agent, at: nat, entries: seq<Shared>)
    requires Tally(seen, groups, byRepo) && SelfRepresented(groups) && Mentioned(seen + {(name, a)}) <= groups.Keys
    requires a.repoKey in groups && at <= |byRepo| && at < |entries|
    requires entries[at].repoKey == groups[a.repoKey] && GoodEntry(seen + {(name, a)}, groups, entries[at])
    requires entries == if at < |byRepo| then byRepo[at := entries[at]] else byRepo + [entries[at]]
    requires at < |byRepo| ==> byRepo[at].repoKey == entries[at].repoKey
    requires at == |byRepo| ==> forall i :: 0 <= i < |byRepo| ==> byRepo[i].repoKey != entries[at].repoKey
    ensures forall x :: x in entries ==> GoodEntry(seen + {(name, a)}, groups, x)
  {
    forall x | x in entries ensures GoodEntry(seen + {(name, a)}, groups, x) {
      var k :| 0 <= k < |entries| && entries[k] == x;
      if k != at {
        assert byRepo[k] == x && x in byRepo;
        OtherEntry(seen, groups, name, a, x);
      }
    }
  }

  lemma Recounted(seen: set<(string, Agent)>, groups: map<string, string>, byRepo: seq<Shared>, name: string, a: Agent,
                  at: nat, entries: seq<Shared>)
    requires Tally(seen, groups, byRepo) && SelfRepresented(groups) && Mentioned(seen + {(name, a)}) <= groups.Keys
    requires a.repoKey in groups && at <= |byRepo| && at < |entries|
    requires entries[at].repoKey == groups[a.repoKey] && GoodEntry(seen + {(name, a)}, groups, entries[at])
    requires entries == if at < |byRepo| then byRepo[at := entries[at]] else byRepo + [entries[at]]
    requires at < |byRepo| ==> byRepo[at].repoKey == entries[at].repoKey
    requires at == |byRepo| ==> forall i :: 0 <= i < |byRepo| ==> byRepo[i].repoKey != entries[at].repoKey
    ensures Tally(seen + {(name, a)}, groups, entries)
  {
    OthersRecounted(seen, groups, byRepo, name, a, at, entries);
    StaysApart(byRepo, at, entries);
    EveryoneCovered(seen, groups, byRepo, name, a, entries[at], entries);
  }

  lemma StaysApart(byRepo: seq<Shared>, at: nat, entries: seq<Shared>)
    requires KeysApart(byRepo) && at <= |byRepo| && at < |entries|
    requires entries == if at < |byRepo| then byRepo[at := entries[at]] else byRepo + [entries[at]]
    requires at < |byRepo| ==> byRepo[at].repoKey == entries[at].repoKey
    requires at == |byRepo| ==> forall i :: 0 <= i < |byRepo| ==> byRepo[i].repoKey != entries[at].repoKey
    ensures KeysApart(entries)
  {
  }

  lemma EveryoneCovered(seen: set<(string, Agent)>, groups: map<string, string>, byRepo: seq<Shared>, name: string,
          a: Agent, own: Shared, entries: seq<Shared>)
    requires Tally(seen, groups, byRepo) && own in entries && MapsTo(groups, a.repoKey, own.repoKey)
    requires |byRepo| <= |entries| && forall i :: 0 <= i < |byRepo| ==> entries[i].repoKey == byRepo[i].repoKey
    ensures forall s :: s in seen + {(name, a)} ==> exists x :: x in entries && MapsTo(groups, s.1.repoKey, x.repoKey)
  {
    forall s | s in seen ensures exists x :: x in entries && MapsTo(groups, s.1.repoKey, x.repoKey) {
      StillCovered(groups, byRepo, entries, s.1.repoKey);
    }
  }

  /** Entries are only added or brought up to date, so what had one still has it. */
  lemma StillCovered(groups: map<string, string>, byRepo: seq<Shared>, entries: seq<Shared>, key: string)
    requires |byRepo| <= |entries| && forall i :: 0 <= i < |byRepo| ==> entries[i].repoKey == byRepo[i].repoKey
    requires exists x :: x in byRepo && MapsTo(groups, key, x.repoKey)
    ensures exists x :: x in entries && MapsTo(groups, key, x.repoKey)
  {
    var x :| x in byRepo && MapsTo(groups, key, x.repoKey);
    var k :| 0 <= k < |byRepo| && byRepo[k] == x;
    assert entries[k] in entries;
  }

  ghost predicate KeysApart(entries: seq<Shared>) {
    forall i, j :: 0 <= i < j < |entries| ==> entries[i].repoKey != entries[j].repoKey
  }

  lemma {:induction false} FilterKeepsKeysApart(keep: Shared -> bool, entries: seq<Shared>)
    requires KeysApart(entries)
    ensures KeysApart(Filter(keep, entries))
  {
    if entries != [] {
      var rest := entries[1..];
      forall i, j | 0 <= i < j < |rest| ensures rest[i].repoKey != rest[j].repoKey {
        assert entries[i + 1].repoKey != entries[j + 1].repoKey;
      }
      FilterKeepsKeysApart(keep, rest);
      forall e | e in Filter(keep, rest) ensures e.repoKey != entries[0].repoKey {
        var k :| 0 <= k < |rest| && rest[k] == e;
        assert entries[0].repoKey != entries[k + 1].repoKey;
      }
    }
  }

  /** The report as a set of (representative, instance names). */
  ghost function Report(shared: seq<Shared>): set<(string, set<string>)> {
    set e | e in shared :: (e.repoKey, set n | n in e.instances)
  }

  /** Two offices holding the same sightings report the same collaborations, in whatever order their
      peers connected. */
  lemma SharedReposIgnoresConnectionOrder(p: seq<Peer>, q: seq<Peer>, r: seq<Shared>, t: seq<Shared>)
    requires multiset(p) == multiset(q) && IsReport(Sightings(p), r) && IsReport(Sightings(q), t)
    ensures Report(r) == Report(t)
  {
    SameElements(p, q);
    assert Sightings(p) == Sightings(q);
    ReportIsUnique(Sightings(p), r, t);
  }

  lemma ReportIsUnique(seen: set<(string, Agent)>, r: seq<Shared>, t: seq<Shared>)
    requires IsReport(seen, r) && IsReport(seen, t)
    ensures Report(r) == Report(t)
  {
    var g :| IsGrouping(seen, g) && IsShared(seen, g, r);
    var h :| IsGrouping(seen, h) && IsShared(seen, h, t);
    GroupingIsUnique(seen, g, h);
    ReportsAgree(seen, g, r, t);
  }

  lemma ReportsAgree(seen: set<(string, Agent)>, g: map<string, string>, r: seq<Shared>, t: seq<Shared>)
    requires IsShared(seen, g, r) && IsShared(seen, g, t)
    ensures Report(r) == Report(t)
  {
    ReportWithin(seen, g, r, t);
    ReportWithin(seen, g, t, r);
  }

  lemma ReportWithin(seen: set<(string, Agent)>, g: map<string, string>, r: seq<Shared>, t: seq<Shared>)
    requires IsShared(seen, g, r) && IsShared(seen, g, t)
    ensures Report(r) <= Report(t)
  {
    forall e | e in r ensures (e.repoKey, set n | n in e.instances) in Report(t) {
      ToSet(e.instances);
      var f :| f in t && f.repoKey == e.repoKey;
      assert (f.repoKey, set n | n in f.instances) in Report(t);
    }
  }

  lemma MentionedGrows(seen: set<(string, Agent)>, more: set<(string, Agent)>)
    requires seen <= more
    ensures Edges(seen) <= Edges(more) && Mentioned(seen) <= Mentioned(more)
  {
  }

  lemma NamesGrow(seen: set<(string, Agent)>, groups: map<string, string>, name: string, a: Agent)
    requires Mentioned(seen + {(name, a)}) <= groups.Keys && Mentioned(seen) <= groups.Keys && a.repoKey in groups
    ensures forall g :: Names(seen + {(name, a)}, groups, g)
                     == Names(seen, groups, g) + (if groups[a.repoKey] == g then {name} else {})
  {
    forall g ensures Names(seen + {(name, a)}, groups, g)
                  == Names(seen, groups, g) + (if groups[a.repoKey] == g then {name} else {})
    {
      if groups[a.repoKey] == g { assert (name, a) in seen + {(name, a)} && MapsTo(groups, a.repoKey, g); }
    }
  }

  lemma OwnLabelGrows(seen: set<(string, Agent)>, name: string, a: Agent)
    ensures forall g, l :: OwnLabel(seen + {(name, a)}, g, l) <==>
                           OwnLabel(seen, g, l) || (l != "" && a.repoKey == g && a.repoLabel == l)
  {
    var more := seen + {(name, a)};
    forall g, l ensures OwnLabel(more, g, l)
        <==> OwnLabel(seen, g, l) || (l != "" && a.repoKey == g && a.repoLabel == l) {
      if l != "" && a.repoKey == g && a.repoLabel == l { assert (name, a) in more; }
      if OwnLabel(seen, g, l) {
        var s :| s in seen && s.1.repoKey == g && s.1.repoLabel == l;
        assert s in more;
      }
    }
  }
}
