/** The typed edge table of assoc/graph.py and the bounded search of assoc/infer.py over it. */
module Graph {
  import opened Common

  datatype Node = Node(name: string)

  /** An edge type is a base such as `about`, or a base with a predicate such as `rel:knows`. */
  datatype EdgeType = EdgeType(base: string, pred: Option<string>)

  datatype Edge = Edge(other: Node, etype: EdgeType, evidence: string)
  datatype Added = Added(a: Node, b: Node, etype: EdgeType, evidence: string)

  type Adjacency = map<Node, seq<Edge>>

  function EdgesOf(adj: Adjacency, n: Node): seq<Edge> {
    if n in adj then adj[n] else []
  }

  // ----- the table as the history of what was added ----------------------------------------

  /** The table ignores an addition with an unnamed end or with equal ends. */
  predicate Accepted(e: Added) {
    e.a.name != "" && e.b.name != "" && e.a != e.b
  }

  /** The edges an addition puts at node n. */
  function EndAt(e: Added, n: Node): seq<Edge> {
    if !Accepted(e) then []
    else if n == e.a then [Edge(e.b, e.etype, e.evidence)]
    else if n == e.b then [Edge(e.a, e.etype, e.evidence)]
    else []
  }

  function Incident(log: seq<Added>, n: Node): seq<Edge> {
    if log == [] then [] else Incident(log[..|log| - 1], n) + EndAt(log[|log| - 1], n)
  }

  /** The true degree: how many of a node's edges carry the type. */
  function Degree(edges: seq<Edge>, t: EdgeType): nat {
    if edges == [] then 0
    else Degree(edges[..|edges| - 1], t) + if edges[|edges| - 1].etype == t then 1 else 0
  }

  lemma DegreeAppend(edges: seq<Edge>, e: Edge, t: EdgeType)
    ensures Degree(edges + [e], t) == Degree(edges, t) + if e.etype == t then 1 else 0
  {
    assert (edges + [e])[..|edges|] == edges;
  }

  /** Every edge is recorded at both of its ends, equally often. */
  lemma {:induction false} AdjacencySymmetric(log: seq<Added>, a: Node, b: Node, t: EdgeType, evidence: string)
    ensures multiset(Incident(log, a))[Edge(b, t, evidence)] == multiset(Incident(log, b))[Edge(a, t, evidence)]
  {
    if log != [] {
      var front, e := log[..|log| - 1], log[|log| - 1];
      AdjacencySymmetric(front, a, b, t, evidence);
      EndsAgree(e, a, b, t, evidence);
      assert multiset(Incident(log, a)) == multiset(Incident(front, a)) + multiset(EndAt(e, a));
      assert multiset(Incident(log, b)) == multiset(Incident(front, b)) + multiset(EndAt(e, b));
    }
  }

  lemma EndsAgree(e: Added, a: Node, b: Node, t: EdgeType, evidence: string)
    ensures multiset(EndAt(e, a))[Edge(b, t, evidence)] == multiset(EndAt(e, b))[Edge(a, t, evidence)]
  {
    if Accepted(e) {
      var there, back := Edge(b, t, evidence), Edge(a, t, evidence);
      assert there in EndAt(e, a) <==> back in EndAt(e, b);
    }
  }

  lemma {:induction false} AdjacencyLoopFree(log: seq<Added>, n: Node, e: Edge)
    requires e in Incident(log, n)
    ensures e.other != n && e.other.name != "" && n.name != ""
  {
    var front := log[..|log| - 1];
    if e in Incident(front, n) {
      AdjacencyLoopFree(front, n, e);
    }
  }

  lemma IncidentAppend(log: seq<Added>, e: Added, n: Node)
    ensures Incident(log + [e], n) == Incident(log, n) + EndAt(e, n)
  {
    assert (log + [e])[..|log|] == log;
  }

  type Fans = map<(Node, EdgeType), nat>

  function FanAt(fan: Fans, n: Node, t: EdgeType): nat {
    if (n, t) in fan then fan[(n, t)] else 0
  }

  ghost predicate Records(log: seq<Added>, adj: Adjacency, fan: Fans, n: Node) {
    EdgesOf(adj, n) == Incident(log, n) && forall t :: FanAt(fan, n, t) == Degree(Incident(log, n), t)
  }

  /** One more end at one node: the node records it, the others are as before. */
  lemma RecordsEnd(log: seq<Added>, adj: Adjacency, fan: Fans, e: Added, n: Node, adj': Adjacency, fan': Fans)
    requires Records(log, adj, fan, n)
    requires EdgesOf(adj', n) == EdgesOf(adj, n) + EndAt(e, n)
    requires forall t :: FanAt(fan', n, t) == FanAt(fan, n, t) + Degree(EndAt(e, n), t)
    ensures Records(log + [e], adj', fan', n)
  {
    IncidentAppend(log, e, n);
    forall t ensures FanAt(fan', n, t) == Degree(Incident(log + [e], n), t) {
      DegreeOfEnd(Incident(log, n), EndAt(e, n), t);
    }
  }

  lemma {:induction false} DegreeOfEnd(edges: seq<Edge>, ends: seq<Edge>, t: EdgeType)
    ensures Degree(edges + ends, t) == Degree(edges, t) + Degree(ends, t)
  {
    if ends == [] {
      assert edges + ends == edges;
    } else {
      var front, last := ends[..|ends| - 1], ends[|ends| - 1];
      assert edges + ends == (edges + front) + [last];
      DegreeOfEnd(edges, front, t);
      DegreeAppend(edges + front, last, t);
    }
  }

  class EdgeTable {
    var adj: Adjacency
    var fan: Fans
    var weight: map<(Node, Node, EdgeType), real>
    ghost var log: seq<Added>

    ghost predicate Valid()
      reads this
    {
      forall n :: Records(log, adj, fan, n)
    }

    constructor ()
      ensures Valid() && log == [] && weight == map[]
    {
      adj, fan, weight, log := map[], map[], map[], [];
    }

    method Add(a: Node, b: Node, etype: EdgeType, evidence: string)
      requires Valid()
      modifies this
      ensures Valid() && weight == old(weight)
      ensures log == old(log) + [Added(a, b, etype, evidence)]
    {
      ghost var e := Added(a, b, etype, evidence);
      if a.name != "" && b.name != "" && a != b {
        adj := adj[a := EdgesOf(adj, a) + [Edge(b, etype, evidence)]];
        adj := adj[b := EdgesOf(adj, b) + [Edge(a, etype, evidence)]];
        Bump(a, etype);
        Bump(b, etype);
      }
      forall n ensures Records(log + [e], adj, fan, n) {
        assert Records(log, old(adj), old(fan), n);
        RecordsEnd(log, old(adj), old(fan), e, n, adj, fan);
      }
      log := log + [e];
    }

    method Bump(n: Node, t: EdgeType)
      modifies this`fan
      ensures fan == old(fan)[(n, t) := (if (n, t) in old(fan) then old(fan)[(n, t)] else 0) + 1]
    {
      fan := fan[(n, t) := (if (n, t) in fan then fan[(n, t)] else 0) + 1];
    }

    function Edges(n: Node): (es: seq<Edge>)
      requires Valid()
      reads this
      ensures es == Incident(log, n)
    {
      assert Records(log, adj, fan, n);
      EdgesOf(adj, n)
    }

    function Net(): (net: Network)
      reads this
    {
      Network(adj, fan, weight)
    }

    /** The fan count is the true per-type degree, floored at one. */
    function FanOf(n: Node, t: EdgeType): (f: nat)
      requires Valid()
      reads this
      ensures f == Max(Degree(Edges(n), t), 1)
    {
      assert Records(log, adj, fan, n);
      FanIn(Net(), n, t)
    }
  }

  /** The table as a value: what a search reads while nobody adds to it. */
  datatype Network = Network(adj: Adjacency, fan: Fans, weight: map<(Node, Node, EdgeType), real>)

  /** The learned multiplier of an edge, read in either direction. */
  function WeightOf(net: Network, a: Node, b: Node, t: EdgeType): real {
    if (a, b, t) in net.weight then net.weight[(a, b, t)]
    else if (b, a, t) in net.weight then net.weight[(b, a, t)]
    else 1.0
  }

  /** What was learned of an edge from one end is found from the other, and an edge nothing was learned of counts in
      full. */
  lemma WeightEitherWay(net: Network, a: Node, b: Node, t: EdgeType)
    ensures (a, b, t) in net.weight ==> WeightOf(net, a, b, t) == net.weight[(a, b, t)]
    ensures (a, b, t) in net.weight && (b, a, t) !in net.weight ==> WeightOf(net, b, a, t) == net.weight[(a, b, t)]
    ensures (a, b, t) !in net.weight && (b, a, t) !in net.weight ==> WeightOf(net, a, b, t) == 1.0
  {
  }

  function FanIn(net: Network, n: Node, t: EdgeType): nat {
    Max(if (n, t) in net.fan then net.fan[(n, t)] else 1, 1)
  }

  // ----- walks -----------------------------------------------------------------------------

  predicate Adjacent(adj: Adjacency, a: Node, b: Node) {
    b in Others(EdgesOf(adj, a))
  }

  function Others(es: seq<Edge>): set<Node> {
    set i | 0 <= i < |es| :: es[i].other
  }

  ghost predicate StepAt(adj: Adjacency, walk: seq<Node>, i: nat)
    requires i + 1 < |walk|
  {
    Adjacent(adj, walk[i], walk[i + 1])
  }

  ghost predicate IsWalk(adj: Adjacency, walk: seq<Node>, a: Node, b: Node) {
    && |walk| > 0 && walk[0] == a && walk[|walk| - 1] == b
    && forall i {:trigger StepAt(adj, walk, i)} :: 0 <= i < |walk| - 1 ==> StepAt(adj, walk, i)
  }

  lemma WalkExtend(adj: Adjacency, walk: seq<Node>, a: Node, m: Node, b: Node)
    requires IsWalk(adj, walk, a, m) && Adjacent(adj, m, b)
    ensures IsWalk(adj, walk + [b], a, b)
  {
    var more := walk + [b];
    forall i | 0 <= i < |more| - 1 ensures StepAt(adj, more, i) {
      assert i < |walk| - 1 ==> StepAt(adj, walk, i);
    }
  }

  lemma WalkShorten(adj: Adjacency, walk: seq<Node>, a: Node, b: Node)
    requires IsWalk(adj, walk, a, b) && |walk| > 1
    ensures IsWalk(adj, walk[..|walk| - 1], a, walk[|walk| - 2]) && Adjacent(adj, walk[|walk| - 2], b)
  {
    assert StepAt(adj, walk, |walk| - 2);
    var less := walk[..|walk| - 1];
    forall i | 0 <= i < |less| - 1 ensures StepAt(adj, less, i) {
      assert StepAt(adj, walk, i);
    }
  }

  /** Some walk of at least one and at most k edges leads from a to b. */
  ghost predicate WalkWithin(adj: Adjacency, a: Node, b: Node, k: int) {
    exists walk :: IsWalk(adj, walk, a, b) && 1 <= |walk| - 1 <= k
  }

  ghost function Neighbours(adj: Adjacency, s: set<Node>): set<Node> {
    set n, o | n in s && o in Others(EdgesOf(adj, n)) :: o
  }

  /** Everything a walk of at most d edges reaches. */
  ghost function Ball(adj: Adjacency, a: Node, d: nat): set<Node> {
    if d == 0 then {a} else Ball(adj, a, d - 1) + Neighbours(adj, Ball(adj, a, d - 1))
  }

  lemma {:induction false} BallHasWalks(adj: Adjacency, a: Node, d: nat, n: Node) returns (walk: seq<Node>)
    requires n in Ball(adj, a, d)
    ensures IsWalk(adj, walk, a, n) && |walk| - 1 <= d
  {
    if d == 0 {
      walk := [a];
    } else if n in Ball(adj, a, d - 1) {
      walk := BallHasWalks(adj, a, d - 1, n);
    } else {
      var m :| m in Ball(adj, a, d - 1) && n in Others(EdgesOf(adj, m));
      walk := BallHasWalks(adj, a, d - 1, m);
      WalkExtend(adj, walk, a, m, n);
      walk := walk + [n];
    }
  }

  lemma {:induction false} WalkStaysInBall(adj: Adjacency, walk: seq<Node>, a: Node, b: Node, d: nat)
    requires IsWalk(adj, walk, a, b) && |walk| - 1 <= d
    ensures b in Ball(adj, a, d)
    decreases d
  {
    if |walk| > 1 {
      var n := |walk| - 1;
      WalkShorten(adj, walk, a, b);
      WalkStaysInBall(adj, walk[..n], a, walk[n - 1], d - 1);
    } else if d > 0 {
      WalkStaysInBall(adj, walk, a, b, d - 1);
    }
  }

  lemma {:induction false} BallGrows(adj: Adjacency, a: Node, d: nat, e: nat)
    requires d <= e
    ensures Ball(adj, a, d) <= Ball(adj, a, e)
    decreases e
  {
    if d < e {
      BallGrows(adj, a, d, e - 1);
    }
  }

  lemma {:induction false} BallSaturates(adj: Adjacency, a: Node, d: nat, e: nat)
    requires d <= e && Ball(adj, a, d + 1) == Ball(adj, a, d)
    ensures Ball(adj, a, e) == Ball(adj, a, d)
    decreases e
  {
    if d < e {
      BallSaturates(adj, a, d, e - 1);
    }
  }

  lemma WalkEndsNextToBall(adj: Adjacency, walk: seq<Node>, a: Node, b: Node, k: nat)
    requires IsWalk(adj, walk, a, b) && 1 <= |walk| - 1 <= k
    ensures b in Neighbours(adj, Ball(adj, a, k - 1))
  {
    var n := |walk| - 1;
    WalkShorten(adj, walk, a, b);
    WalkStaysInBall(adj, walk[..n], a, walk[n - 1], k - 1);
  }

  lemma NeighbourOf(adj: Adjacency, s: set<Node>, b: Node) returns (m: Node)
    requires b in Neighbours(adj, s)
    ensures m in s && Adjacent(adj, m, b)
  {
    m :| m in s && b in Others(EdgesOf(adj, m));
  }

  lemma NextToBallHasWalk(adj: Adjacency, a: Node, b: Node, k: nat)
    requires k >= 1 && b in Neighbours(adj, Ball(adj, a, k - 1))
    ensures WalkWithin(adj, a, b, k)
  {
    var m := NeighbourOf(adj, Ball(adj, a, k - 1), b);
    var walk := BallHasWalks(adj, a, k - 1, m);
    WalkExtend(adj, walk, a, m, b);
    var longer := walk + [b];
    assert 1 <= |longer| - 1 <= k;
  }

  /** A walk of 1 to k edges ends at b exactly when b is next to something within k - 1 edges. */
  lemma WalkWithinIffNextToBall(adj: Adjacency, a: Node, b: Node, k: nat)
    requires k >= 1
    ensures WalkWithin(adj, a, b, k) <==> b in Neighbours(adj, Ball(adj, a, k - 1))
  {
    if WalkWithin(adj, a, b, k) {
      var walk :| IsWalk(adj, walk, a, b) && 1 <= |walk| - 1 <= k;
      WalkEndsNextToBall(adj, walk, a, b, k);
    }
    if b in Neighbours(adj, Ball(adj, a, k - 1)) {
      NextToBallHasWalk(adj, a, b, k);
    }
  }

  lemma NeighboursUnion(adj: Adjacency, s: set<Node>, t: set<Node>)
    ensures Neighbours(adj, s + t) == Neighbours(adj, s) + Neighbours(adj, t)
  {
  }

  lemma FoundAtLevel(adj: Adjacency, a: Node, b: Node, d: nat, k: int)
    requires d < k && b in Neighbours(adj, Ball(adj, a, d))
    ensures WalkWithin(adj, a, b, k)
  {
    NextToBallHasWalk(adj, a, b, d + 1);
    var walk :| IsWalk(adj, walk, a, b) && 1 <= |walk| - 1 <= d + 1;
    assert 1 <= |walk| - 1 <= k;
  }

  lemma NeverFound(adj: Adjacency, a: Node, b: Node, k: int)
    requires k >= 1 ==> b !in Neighbours(adj, Ball(adj, a, k - 1))
    ensures !WalkWithin(adj, a, b, k)
  {
    if WalkWithin(adj, a, b, k) {
      WalkWithinIffNextToBall(adj, a, b, k);
    }
  }

  /** One level of the search: stops at b, else collects what the level sees for the first time. */
  method ExpandLevel(table: EdgeTable, frontier: set<Node>, seen0: set<Node>, b: Node)
    returns (hit: bool, nxt: set<Node>, seen: set<Node>)
    requires table.Valid()
    ensures hit <==> b in Neighbours(table.adj, frontier)
    ensures !hit ==> nxt == Neighbours(table.adj, frontier) - seen0 && seen == seen0 + nxt
  {
    ghost var adj := table.adj;
    nxt, seen := {}, seen0;
    var todo := frontier;
    while todo != {}
      invariant todo <= frontier
      invariant nxt == Neighbours(adj, frontier - todo) - seen0 && seen == seen0 + nxt
      invariant b !in Neighbours(adj, frontier - todo)
    {
      var n :| n in todo;
      ghost var done := frontier - todo;
      ghost var nxt0 := nxt;
      todo := todo - {n};
      var es := table.Edges(n);
      for i := 0 to |es|
        invariant seen == seen0 + nxt
        invariant nxt == nxt0 + (Others(es[..i]) - seen0)
        invariant b !in Others(es[..i])
      {
        var o := es[i].other;
        OthersAppend(es, i);
        if o == b {
          assert Others(es[..i + 1]) <= Others(es);
          return true, {}, {};
        }
        if o !in seen {
          seen := seen + {o};
          nxt := nxt + {o};
        }
      }
      assert es[..|es|] == es;
      assert frontier - todo == done + {n};
      assert Neighbours(adj, done + {n}) == Neighbours(adj, done) + Others(es);
    }
    assert frontier - todo == frontier;
    hit := false;
  }

  lemma OthersAppend(es: seq<Edge>, i: nat)
    requires i < |es|
    ensures Others(es[..i + 1]) == Others(es[..i]) + {es[i].other}
    ensures es[i].other in Others(es)
  {
    var more, less := es[..i + 1], es[..i];
    assert forall j :: 0 <= j < i ==> less[j] == more[j];
    assert more[i] == es[i];
  }

  /** What the search knows after d levels: `inner` is what it has expanded. */
  ghost predicate Searched(adj: Adjacency, a: Node, b: Node, d: nat, inner: set<Node>, frontier: set<Node>,
                           seen: set<Node>)
  {
    && seen == Ball(adj, a, d) == inner + frontier
    && Neighbours(adj, inner) <= seen
    && b !in Neighbours(adj, inner)
    && (d > 0 ==> inner == Ball(adj, a, d - 1))
  }

  lemma SearchedStep(adj: Adjacency, a: Node, b: Node, d: nat, inner: set<Node>, frontier: set<Node>, seen: set<Node>)
    requires Searched(adj, a, b, d, inner, frontier, seen)
    requires b !in Neighbours(adj, frontier)
    ensures var nxt := Neighbours(adj, frontier) - seen;
            Searched(adj, a, b, d + 1, inner + frontier, nxt, seen + nxt)
  {
    NeighboursUnion(adj, inner, frontier);
  }

  lemma HitIsWalk(adj: Adjacency, a: Node, b: Node, d: nat, k: int, inner: set<Node>, frontier: set<Node>,
                  seen: set<Node>)
    requires Searched(adj, a, b, d, inner, frontier, seen) && d < k && b in Neighbours(adj, frontier)
    ensures WalkWithin(adj, a, b, k)
  {
    NeighboursUnion(adj, inner, frontier);
    FoundAtLevel(adj, a, b, d, k);
  }

  lemma EmptyFrontier(adj: Adjacency, a: Node, b: Node, d: nat, inner: set<Node>, seen: set<Node>)
    requires Searched(adj, a, b, d + 1, inner, {}, seen)
    ensures Ball(adj, a, d + 1) == Ball(adj, a, d) == inner && b !in Neighbours(adj, inner)
  {
    assert inner + {} == inner;
  }

  /** With an empty frontier every further level is as the last. */
  lemma NothingLeft(adj: Adjacency, a: Node, b: Node, d: nat, k: int, inner: set<Node>, seen: set<Node>)
    requires Searched(adj, a, b, d + 1, inner, {}, seen) && d < k
    ensures !WalkWithin(adj, a, b, k)
  {
    EmptyFrontier(adj, a, b, d, inner, seen);
    NoMore(adj, a, b, d, k, inner);
  }

  lemma NoMore(adj: Adjacency, a: Node, b: Node, d: nat, k: int, inner: set<Node>)
    requires d < k && Ball(adj, a, d + 1) == Ball(adj, a, d) == inner && b !in Neighbours(adj, inner)
    ensures !WalkWithin(adj, a, b, k)
  {
    BallSaturates(adj, a, d, k - 1);
    NeverAfter(adj, a, b, k, inner);
  }

  lemma NeverAfter(adj: Adjacency, a: Node, b: Node, k: int, inner: set<Node>)
    requires k >= 1 && Ball(adj, a, k - 1) == inner && b !in Neighbours(adj, inner)
    ensures !WalkWithin(adj, a, b, k)
  {
    NeverFound(adj, a, b, k);
  }

  lemma AllLevelsMissed(adj: Adjacency, a: Node, b: Node, k: int, inner: set<Node>, frontier: set<Node>,
                        seen: set<Node>)
    requires Searched(adj, a, b, Max(k, 0), inner, frontier, seen)
    ensures !WalkWithin(adj, a, b, k)
  {
    NeverFound(adj, a, b, k);
  }

  /** Breadth first, level by level: true exactly when a walk of 1 to k edges leads from a to b. */
  method HasPath(table: EdgeTable, a: Node, b: Node, k: int) returns (found: bool)
    requires table.Valid()
    ensures found <==> WalkWithin(table.adj, a, b, k)
  {
    ghost var adj := table.adj;
    var frontier, seen := {a}, {a};
    ghost var inner := {};
    for d := 0 to Max(k, 0)
      invariant Searched(adj, a, b, d, inner, frontier, seen)
    {
      var hit, nxt, seen' := ExpandLevel(table, frontier, seen, b);
      if hit {
        HitIsWalk(adj, a, b, d, k, inner, frontier, seen);
        return true;
      }
      SearchedStep(adj, a, b, d, inner, frontier, seen);
      inner := inner + frontier;
      frontier, seen := nxt, seen';
      if frontier == {} {
        NothingLeft(adj, a, b, d, k, inner, seen);
        return false;
      }
    }
    AllLevelsMissed(adj, a, b, k, inner, frontier, seen);
    found := false;
  }
}
