/** Spreading activation (assoc/spread.py): a beam expansion over the edge table. The method
    scatters activation edge by edge into dictionaries; the specification gathers, for every
    node, what arrives there. */
module Spreading {
  import opened Common
  import opened Graph

  const SELF_NODE := Node("person:_self")
  const MULT_CEILING := 0.999
  const DEFAULT_STRENGTH := 0.5
  const TOP_PATHS := 3

  datatype Step = Step(src: Node, etype: EdgeType, dst: Node, strength: real)
  datatype Path = Path(a: real, edges: seq<Step>)
  datatype Warm = Warm(node: Node, a: real)

  /** `penalty` stands for f^(-alpha), the soft fan penalty. */
  datatype Params = Params(gamma: real, eps: real, beam: nat, sType: map<EdgeType, real>, penalty: nat -> real)

  // ----- one edge --------------------------------------------------------------------------

  predicate Expandable(src: Node, t: EdgeType) {
    t.base !in {"in_doc", "same_cell"} && !(src == SELF_NODE && t.base in {"mentions", "about"})
  }

  function TypeStrength(prm: Params, t: EdgeType): real {
    var base := EdgeType(t.base, None);
    if base in prm.sType then prm.sType[base] else if t in prm.sType then prm.sType[t] else DEFAULT_STRENGTH
  }

  function Multiplier(net: Network, prm: Params, j: Node, e: Edge): (m: real)
    ensures m <= MULT_CEILING
  {
    var s := TypeStrength(prm, e.etype) * WeightOf(net, j, e.other, e.etype);
    var m := s * prm.gamma * prm.penalty(FanIn(net, j, e.etype));
    if m < MULT_CEILING then m else MULT_CEILING
  }

  /** A plain type's strength goes before that of the qualified one, and a half stands in for both. */
  lemma StrengthExactly(prm: Params, t: EdgeType)
    ensures var plain := EdgeType(t.base, None);
            && (plain in prm.sType ==> TypeStrength(prm, t) == prm.sType[plain])
            && (plain !in prm.sType && t in prm.sType ==> TypeStrength(prm, t) == prm.sType[t])
            && (plain !in prm.sType && t !in prm.sType ==> TypeStrength(prm, t) == 0.5)
  {
  }

  /** Strength, weight, damping and fan penalty multiplied, but never more than the ceiling. */
  lemma CarriesExactly(net: Network, prm: Params, j: Node, e: Edge)
    ensures var whole := TypeStrength(prm, e.etype) * WeightOf(net, j, e.other, e.etype) * prm.gamma
                         * prm.penalty(FanIn(net, j, e.etype));
            Multiplier(net, prm, j, e) <= 0.999 && Multiplier(net, prm, j, e) in {whole, 0.999}
            && Multiplier(net, prm, j, e) <= whole
  {
  }

  /** Over edges of one type and weight, a node of greater fan passes on no larger a part of what it has. */
  lemma HubsCarryLess(net: Network, prm: Params, j: Node, k: Node, e: Edge, f: Edge)
    requires e.etype == f.etype && WeightOf(net, j, e.other, e.etype) == WeightOf(net, k, f.other, f.etype)
    requires TypeStrength(prm, e.etype) * WeightOf(net, j, e.other, e.etype) * prm.gamma >= 0.0
    requires prm.penalty(FanIn(net, j, e.etype)) <= prm.penalty(FanIn(net, k, f.etype))
    ensures Multiplier(net, prm, j, e) <= Multiplier(net, prm, k, f)
  {
    var x := TypeStrength(prm, e.etype) * WeightOf(net, j, e.other, e.etype) * prm.gamma;
    var y, z := prm.penalty(FanIn(net, j, e.etype)), prm.penalty(FanIn(net, k, f.etype));
    CappedLeq(x, y, z);
    assert Multiplier(net, prm, j, e) == if x * y < MULT_CEILING then x * y else MULT_CEILING;
    assert Multiplier(net, prm, k, f) == if x * z < MULT_CEILING then x * z else MULT_CEILING;
  }

  lemma CappedLeq(x: real, y: real, z: real)
    requires x >= 0.0 && y <= z
    ensures (if x * y < MULT_CEILING then x * y else MULT_CEILING)
         <= (if x * z < MULT_CEILING then x * z else MULT_CEILING)
  {
    assert x * y <= x * z;
  }

  function OnPath(j: Node, via: seq<Step>): set<Node> {
    {j} + set i | 0 <= i < |via| :: via[i].src
  }

  function Part(w: Warm, m: real): real {
    w.a * m
  }

  /** What one edge carries: nothing if a path rule forbids it or the floor swallows it. */
  function Emit(net: Network, prm: Params, w: Warm, via: seq<Step>, e: Edge): seq<Path> {
    if !Expandable(w.node, e.etype) || e.other in OnPath(w.node, via) then []
    else
      var m := Multiplier(net, prm, w.node, e);
      if Part(w, m) < prm.eps then [] else [Path(Part(w, m), via + [Step(w.node, e.etype, e.other, m)])]
  }

  function EmitAll(net: Network, prm: Params, w: Warm, via: seq<Step>, es: seq<Edge>): seq<Path> {
    if es == [] then []
    else EmitAll(net, prm, w, via, es[..|es| - 1]) + Emit(net, prm, w, via, es[|es| - 1])
  }

  type Best = map<Node, seq<Step>>

  function Via(best: Best, n: Node): seq<Step> {
    if n in best then best[n] else []
  }

  /** Every arrival of one hop, in the order the source records them. */
  function Arrivals(net: Network, prm: Params, frontier: seq<Warm>, best: Best): seq<Path> {
    if frontier == [] then []
    else
      var w := frontier[|frontier| - 1];
      Arrivals(net, prm, frontier[..|frontier| - 1], best)
      + EmitAll(net, prm, w, Via(best, w.node), EdgesOf(net.adj, w.node))
  }

  function Target(p: Path): Node {
    if p.edges == [] then SELF_NODE else p.edges[|p.edges| - 1].dst
  }

  function To(log: seq<Path>, n: Node): seq<Path> {
    Filter(log, (p: Path) => Target(p) == n)
  }

  function Targets(log: seq<Path>): seq<Node> {
    seq(|log|, i requires 0 <= i < |log| => Target(log[i]))
  }

  function Mass(ps: seq<Path>): real {
    Sum(ps, (p: Path) => p.a)
  }

  // ----- the scatter loop computes the gather -------------------------------------------

  ghost predicate TallyAt(log: seq<Path>, nxt: map<Node, real>, arrivals: map<Node, seq<Path>>, n: Node) {
    if n in Targets(log) then
      n in nxt && n in arrivals && arrivals[n] == To(log, n) && nxt[n] == Mass(To(log, n))
    else
      n !in nxt && n !in arrivals
  }

  /** The dictionaries hold, for every node something arrived at, exactly its arrivals. */
  ghost predicate Tally(log: seq<Path>, order: seq<Node>, nxt: map<Node, real>, arrivals: map<Node, seq<Path>>) {
    && order == Dedup(Targets(log))
    && forall n {:trigger TallyAt(log, nxt, arrivals, n)} :: TallyAt(log, nxt, arrivals, n)
  }

  lemma TargetsAppend(log: seq<Path>, p: Path)
    ensures Targets(log + [p]) == Targets(log) + [Target(p)]
    ensures Dedup(Targets(log + [p])) ==
            if Target(p) in Targets(log) then Dedup(Targets(log)) else Dedup(Targets(log)) + [Target(p)]
  {
    var ts := Targets(log);
    assert Targets(log + [p]) == ts + [Target(p)];
    assert (ts + [Target(p)])[..|ts|] == ts;
  }

  lemma ToAppend(log: seq<Path>, p: Path, n: Node)
    ensures To(log + [p], n) == if n == Target(p) then To(log, n) + [p] else To(log, n)
    ensures Mass(To(log, n) + [p]) == Mass(To(log, n)) + p.a
  {
    FilterSnoc(log, p, (q: Path) => Target(q) == n);
    SumSnoc(To(log, n), p, (q: Path) => q.a);
  }

  lemma {:induction false} NoArrivals(log: seq<Path>, n: Node)
    requires n !in Targets(log)
    ensures To(log, n) == [] && Mass(To(log, n)) == 0.0
  {
    if log != [] {
      var front, last := log[..|log| - 1], log[|log| - 1];
      assert log == front + [last];
      TargetsAppend(front, last);
      NoArrivals(front, n);
      ToAppend(front, last, n);
    }
  }

  /** One more arrival, on dictionaries that supply missing entries. */
  method Record(ghost log: seq<Path>, order0: seq<Node>, nxt0: map<Node, real>, arrivals0: map<Node, seq<Path>>,
                p: Path)
    returns (order: seq<Node>, nxt: map<Node, real>, arrivals: map<Node, seq<Path>>)
    requires Tally(log, order0, nxt0, arrivals0)
    ensures Tally(log + [p], order, nxt, arrivals)
  {
    var i := Target(p);
    order, nxt, arrivals := order0, nxt0, arrivals0;
    if i !in nxt {
      order, nxt, arrivals := order + [i], nxt[i := 0.0], arrivals[i := []];
    }
    NewEntry(log, order0, nxt0, arrivals0, i);
    nxt := nxt[i := nxt[i] + p.a];
    arrivals := arrivals[i := arrivals[i] + [p]];
    Recorded(log, order0, nxt0, arrivals0, p, order, nxt, arrivals);
  }

  /** What the dictionaries hold of a node, or supply for a missing one. */
  lemma NewEntry(log: seq<Path>, order: seq<Node>, nxt: map<Node, real>, arrivals: map<Node, seq<Path>>, n: Node)
    requires Tally(log, order, nxt, arrivals)
    ensures n in nxt <==> n in arrivals
    ensures n in nxt <==> n in Targets(log)
    ensures Mass(To(log, n)) == (if n in nxt then nxt[n] else 0.0)
    ensures To(log, n) == if n in arrivals then arrivals[n] else []
  {
    assert TallyAt(log, nxt, arrivals, n);
    if n !in nxt {
      NoArrivals(log, n);
    }
  }

  lemma Recorded(log: seq<Path>, order0: seq<Node>, nxt0: map<Node, real>, arrivals0: map<Node, seq<Path>>, p: Path,
                 order: seq<Node>, nxt: map<Node, real>, arrivals: map<Node, seq<Path>>)
    requires Tally(log, order0, nxt0, arrivals0)
    requires order == if Target(p) in Targets(log) then order0 else order0 + [Target(p)]
    requires forall n :: n != Target(p) ==> (n in nxt <==> n in nxt0) && (n in nxt ==> nxt[n] == nxt0[n])
    requires forall n :: n != Target(p) ==>
               (n in arrivals <==> n in arrivals0) && (n in arrivals ==> arrivals[n] == arrivals0[n])
    requires Target(p) in nxt && nxt[Target(p)] == Mass(To(log, Target(p))) + p.a
    requires Target(p) in arrivals && arrivals[Target(p)] == To(log, Target(p)) + [p]
    ensures Tally(log + [p], order, nxt, arrivals)
  {
    TargetsAppend(log, p);
    forall n ensures TallyAt(log + [p], nxt, arrivals, n) {
      assert TallyAt(log, nxt0, arrivals0, n);
      TallyStep(log, nxt0, arrivals0, p, nxt, arrivals, n);
    }
  }

  lemma TallyStep(log: seq<Path>, nxt0: map<Node, real>, arrivals0: map<Node, seq<Path>>, p: Path,
                  nxt: map<Node, real>, arrivals: map<Node, seq<Path>>, n: Node)
    requires TallyAt(log, nxt0, arrivals0, n)
    requires n != Target(p) ==> (n in nxt <==> n in nxt0) && (n in nxt ==> nxt[n] == nxt0[n])
    requires n != Target(p) ==> (n in arrivals <==> n in arrivals0) && (n in arrivals ==> arrivals[n] == arrivals0[n])
    requires n == Target(p) ==> n in nxt && nxt[n] == Mass(To(log, n)) + p.a
    requires n == Target(p) ==> n in arrivals && arrivals[n] == To(log, n) + [p]
    ensures TallyAt(log + [p], nxt, arrivals, n)
  {
    TargetsAppend(log, p);
    ToAppend(log, p, n);
    assert n in Targets(log + [p]) <==> n in Targets(log) || n == Target(p);
  }

  lemma EmitAllNext(before: seq<Path>, net: Network, prm: Params, w: Warm, via: seq<Step>, es: seq<Edge>, x: nat)
    requires x < |es|
    ensures before + EmitAll(net, prm, w, via, es[..x + 1])
         == before + EmitAll(net, prm, w, via, es[..x]) + Emit(net, prm, w, via, es[x])
    ensures Emit(net, prm, w, via, es[x]) == [] ==>
              before + EmitAll(net, prm, w, via, es[..x + 1]) == before + EmitAll(net, prm, w, via, es[..x])
  {
    assert es[..x + 1][..x] == es[..x];
  }

  /** The path rules and the floor, for one edge. */
  method FollowEdge(net: Network, prm: Params, w: Warm, via: seq<Step>, e: Edge) returns (p: Option<Path>)
    ensures Emit(net, prm, w, via, e) == if p.None? then [] else [p.value]
  {
    if !Expandable(w.node, e.etype) {
      return None;
    }
    if e.other in OnPath(w.node, via) {
      return None;
    }
    var mult := Multiplier(net, prm, w.node, e);
    var a := Part(w, mult);
    if a < prm.eps {
      return None;
    }
    p := Some(Path(a, via + [Step(w.node, e.etype, e.other, mult)]));
  }

  /** All the edges of one frontier node. */
  method ExpandNode(table: EdgeTable, prm: Params, w: Warm, via: seq<Step>, ghost before: seq<Path>,
                    order0: seq<Node>, nxt0: map<Node, real>, arrivals0: map<Node, seq<Path>>)
    returns (order: seq<Node>, nxt: map<Node, real>, arrivals: map<Node, seq<Path>>)
    requires Tally(before, order0, nxt0, arrivals0)
    ensures Tally(before + EmitAll(table.Net(), prm, w, via, EdgesOf(table.adj, w.node)), order, nxt, arrivals)
  {
    var net := table.Net();
    order, nxt, arrivals := order0, nxt0, arrivals0;
    var es := EdgesOf(net.adj, w.node);
    ghost var log := before;
    for x := 0 to |es|
      invariant log == before + EmitAll(net, prm, w, via, es[..x])
      invariant Tally(log, order, nxt, arrivals)
    {
      var e := es[x];
      EmitAllNext(before, net, prm, w, via, es, x);
      var p := FollowEdge(net, prm, w, via, e);
      if p.None? {
        continue;
      }
      order, nxt, arrivals := Record(log, order, nxt, arrivals, p.value);
      log := log + [p.value];
    }
    assert es[..|es|] == es;
  }

  lemma ArrivalsNext(net: Network, prm: Params, frontier: seq<Warm>, best: Best, f: nat)
    requires f < |frontier|
    ensures var w := frontier[f];
            Arrivals(net, prm, frontier[..f + 1], best) ==
            Arrivals(net, prm, frontier[..f], best) + EmitAll(net, prm, w, Via(best, w.node), EdgesOf(net.adj, w.node))
  {
    assert frontier[..f + 1][..f] == frontier[..f];
  }

  /** The source's two nested loops over the frontier and its edges. */
  method ExpandHop(table: EdgeTable, prm: Params, frontier: seq<Warm>, best: Best)
    returns (order: seq<Node>, nxt: map<Node, real>, arrivals: map<Node, seq<Path>>)
    ensures Tally(Arrivals(table.Net(), prm, frontier, best), order, nxt, arrivals)
  {
    ghost var log := [];
    order, nxt, arrivals := [], map[], map[];
    for f := 0 to |frontier|
      invariant log == Arrivals(table.Net(), prm, frontier[..f], best)
      invariant Tally(log, order, nxt, arrivals)
    {
      var w := frontier[f];
      ArrivalsNext(table.Net(), prm, frontier, best, f);
      order, nxt, arrivals := ExpandNode(table, prm, w, Via(best, w.node), log, order, nxt, arrivals);
      log := Arrivals(table.Net(), prm, frontier[..f + 1], best);
    }
    assert frontier[..|frontier|] == frontier;
  }

  // ----- one hop, gathered ----------------------------------------------------------------

  datatype State = State(frontier: seq<Warm>, best: Best, r: map<Node, real>, paths: map<Node, seq<Path>>,
                         hops: map<Node, nat>)

  function Weaker(w: Warm): real { -w.a }
  function Fainter(p: Path): real { -p.a }

  function Take<T>(s: seq<T>, n: nat): seq<T> {
    if |s| <= n then s else s[..n]
  }

  /** Each node something arrived at, with all that arrived there. */
  function Gathered(log: seq<Path>): seq<Warm> {
    var order := Dedup(Targets(log));
    seq(|order|, i requires 0 <= i < |order| => Warm(order[i], Mass(To(log, order[i]))))
  }

  /** The strongest nodes of a hop, at most a beam of them. */
  function Top(prm: Params, log: seq<Path>): seq<Warm> {
    Take(StableSort(Gathered(log), Weaker), prm.beam)
  }

  function Strongest(ps: seq<Path>): seq<Path> {
    Take(StableSort(ps, Fainter), TOP_PATHS)
  }

  function Nodes(frontier: seq<Warm>): set<Node> {
    set i | 0 <= i < |frontier| :: frontier[i].node
  }

  function Share(frontier: seq<Warm>, n: Node): real {
    if frontier == [] then 0.0
    else if frontier[|frontier| - 1].node == n then frontier[|frontier| - 1].a
    else Share(frontier[..|frontier| - 1], n)
  }

  function Lookup<V>(m: map<Node, V>, n: Node, default: V): V {
    if n in m then m[n] else default
  }

  function FirstEdges(ps: seq<Path>): seq<Step> {
    if ps == [] then [] else ps[0].edges
  }

  // What a hop's beam adds to every map, node by node.

  function BestAfter(best: Best, log: seq<Path>, top: seq<Warm>): Best {
    map n | n in best.Keys + Nodes(top) :: if n in Nodes(top) then FirstEdges(Strongest(To(log, n))) else best[n]
  }

  function RAfter(r: map<Node, real>, top: seq<Warm>): map<Node, real> {
    map n | n in r.Keys + Nodes(top) :: Lookup(r, n, 0.0) + if n in Nodes(top) then Share(top, n) else 0.0
  }

  function PathsAfter(paths: map<Node, seq<Path>>, log: seq<Path>, top: seq<Warm>): map<Node, seq<Path>> {
    PathsAfterBy(Strongest, paths, log, top)
  }

  function PathsAfterBy(cut: seq<Path> -> seq<Path>, paths: map<Node, seq<Path>>, log: seq<Path>,
                        top: seq<Warm>): map<Node, seq<Path>>
  {
    map n | n in paths.Keys + Nodes(top) :: if n in Nodes(top) then cut(Lookup(paths, n, []) + cut(To(log, n)))
      else paths[n]
  }

  function HopsAfter(hops: map<Node, nat>, top: seq<Warm>, h: nat): map<Node, nat> {
    map n | n in hops.Keys + Nodes(top) :: Lookup(hops, n, h)
  }

  function Absorbed(st: State, log: seq<Path>, top: seq<Warm>, h: nat): State {
    State(top, BestAfter(st.best, log, top), RAfter(st.r, top), PathsAfter(st.paths, log, top),
          HopsAfter(st.hops, top, h))
  }

  function Hop(net: Network, prm: Params, st: State, h: nat): State {
    var log := Arrivals(net, prm, st.frontier, st.best);
    Absorbed(st, log, Top(prm, log), h)
  }

  // ----- which nodes and which paths a hop keeps ---------------------------------------------

  lemma TakeLeast<T(!new)>(s: seq<T>, n: nat, key: T -> real)
    ensures var r := Take(StableSort(s, key), n);
            && |r| == Min(n, |s|) && multiset(r) <= multiset(s)
            && forall x, y :: x in r && multiset(r)[y] < multiset(s)[y] ==> key(x) <= key(y)
  {
    SortedCut(s, n, key);
    assert |s| <= n ==> StableSort(s, key)[..|s|] == StableSort(s, key);
  }

  /** Among all that arrived, what the beam lets through: every node with exactly its arrived mass, once; and a node
      is left out only when the beam is full of nodes with at least as much. */
  ghost predicate BeamOf(log: seq<Path>, beam: nat, frontier: seq<Warm>) {
    && DistinctNodes(frontier) && |frontier| <= beam
    && (forall w :: w in frontier ==> To(log, w.node) != [] && w.a == Mass(To(log, w.node)))
    && forall n :: To(log, n) != [] && n !in Nodes(frontier) ==>
                     |frontier| == beam && forall w :: w in frontier ==> w.a >= Mass(To(log, n))
  }

  lemma BeamKeepsStrongest(net: Network, prm: Params, st: State, h: nat)
    ensures BeamOf(Arrivals(net, prm, st.frontier, st.best), prm.beam, Hop(net, prm, st, h).frontier)
  {
    var log := Arrivals(net, prm, st.frontier, st.best);
    var top := Top(prm, log);
    TopDistinct(prm, log);
    forall w | w in top ensures To(log, w.node) != [] && w.a == Mass(To(log, w.node)) {
      TopElem(prm, log, w);
    }
    forall n | To(log, n) != [] && n !in Nodes(top)
      ensures |top| == prm.beam && forall w :: w in top ==> w.a >= Mass(To(log, n))
    {
      LeftOut(prm, log, n);
    }
    TakeLeast(Gathered(log), prm.beam, Weaker);
  }

  lemma LeftOut(prm: Params, log: seq<Path>, n: Node)
    requires To(log, n) != [] && n !in Nodes(Top(prm, log))
    ensures |Top(prm, log)| == prm.beam && forall w :: w in Top(prm, log) ==> w.a >= Mass(To(log, n))
  {
    var top, all := Top(prm, log), Gathered(log);
    var out := InGathered(log, n);
    TakeLeast(all, prm.beam, Weaker);
    InNodes(top);
    assert multiset(top)[out] == 0 < multiset(all)[out];
    StableSortElems(all, Weaker);
    assert |all| > prm.beam;
  }

  lemma InNodes(top: seq<Warm>)
    ensures forall w :: w in top ==> w.node in Nodes(top)
  {
    forall w | w in top ensures w.node in Nodes(top) {
      var i :| 0 <= i < |top| && top[i] == w;
      assert top[i].node in Nodes(top);
    }
  }

  lemma InGathered(log: seq<Path>, n: Node) returns (w: Warm)
    requires To(log, n) != []
    ensures w in Gathered(log) && w.node == n && w.a == Mass(To(log, n))
  {
    var p := To(log, n)[0];
    assert p in To(log, n);
    var x :| 0 <= x < |log| && log[x] == p;
    assert Targets(log)[x] == n;
    var order := Dedup(Targets(log));
    assert n in order;
    var i :| 0 <= i < |order| && order[i] == n;
    w := Gathered(log)[i];
  }

  /** ps is a choice from the pool, and what it leaves out is no stronger than any of the three it keeps. */
  ghost predicate ThreeStrongest(pool: multiset<Path>, ps: seq<Path>) {
    && |ps| <= TOP_PATHS && multiset(ps) <= pool
    && forall p, q :: multiset(ps)[p] < pool[p] && q in ps ==> |ps| == TOP_PATHS && q.a >= p.a
  }

  lemma StrongestThree(ps: seq<Path>)
    ensures ThreeStrongest(multiset(ps), Strongest(ps)) && |Strongest(ps)| == Min(TOP_PATHS, |ps|)
  {
    TakeLeast(ps, TOP_PATHS, Fainter);
    forall p, q | multiset(Strongest(ps))[p] < multiset(ps)[p] && q in Strongest(ps)
      ensures |Strongest(ps)| == TOP_PATHS && q.a >= p.a
    {
      assert Fainter(q) <= Fainter(p);
      assert |ps| > TOP_PATHS;
    }
  }

  /** Cutting the new arrivals first, then old and new together, keeps the three strongest of them all. */
  lemma CutTwice(older: seq<Path>, newer: seq<Path>)
    ensures ThreeStrongest(multiset(older + newer), Strongest(older + Strongest(newer)))
  {
    var cut := Strongest(newer);
    var ps, pool := Strongest(older + cut), multiset(older + newer);
    StrongestThree(newer);
    StrongestThree(older + cut);
    assert multiset(older + cut) == multiset(older) + multiset(cut);
    assert pool == multiset(older) + multiset(newer);
    forall p, q | multiset(ps)[p] < pool[p] && q in ps ensures |ps| == TOP_PATHS && q.a >= p.a {
      if multiset(cut)[p] < multiset(newer)[p] && cut != [] {
        CutFull(older, newer, p, q);
      }
    }
  }

  lemma AllOfIt<T>(a: multiset<T>, b: multiset<T>)
    requires a <= b && |a| == |b|
    ensures a == b
  {
    assert b == a + (b - a);
    assert |b - a| == 0;
  }

  lemma CutFull(older: seq<Path>, newer: seq<Path>, p: Path, q: Path)
    requires multiset(Strongest(newer))[p] < multiset(newer)[p] && q in Strongest(older + Strongest(newer))
    ensures |Strongest(older + Strongest(newer))| == TOP_PATHS && q.a >= p.a
  {
    var cut := Strongest(newer);
    StrongestThree(newer);
    assert p in newer;
    StrongestElems(newer);
    assert cut[0] in cut;
    StrongestThree(older + cut);
    CutFullAmong(older, cut, Strongest(older + cut), p, q);
  }

  lemma CutFullAmong(older: seq<Path>, cut: seq<Path>, ps: seq<Path>, p: Path, q: Path)
    requires |cut| == TOP_PATHS && forall t :: t in cut ==> t.a >= p.a
    requires ThreeStrongest(multiset(older + cut), ps) && |ps| == Min(TOP_PATHS, |older + cut|) && q in ps
    ensures |ps| == TOP_PATHS && q.a >= p.a
  {
    if multiset(cut) <= multiset(ps) {
      AllOfIt(multiset(cut), multiset(ps));
      assert q in multiset(cut);
    } else {
      var t :| multiset(ps)[t] < multiset(cut)[t];
      assert t in cut;
      assert multiset(older + cut) == multiset(older) + multiset(cut);
    }
  }

  /** Of all paths to a node of the beam, old and just arrived, the three strongest are kept; the next hop goes on
      from the strongest arrival. */
  lemma PathsKeepStrongest(net: Network, prm: Params, st: State, h: nat, n: Node)
    requires n in Nodes(Hop(net, prm, st, h).frontier)
    ensures var here, now := To(Arrivals(net, prm, st.frontier, st.best), n), Hop(net, prm, st, h);
            && n in now.paths && ThreeStrongest(multiset(Lookup(st.paths, n, []) + here), now.paths[n])
            && n in now.best
            && exists p :: p in here && p.edges == now.best[n] && forall q :: q in here ==> q.a <= p.a
  {
    var log := Arrivals(net, prm, st.frontier, st.best);
    var here := To(log, n);
    CutTwice(Lookup(st.paths, n, []), here);
    var w := ShareOfTop(Top(prm, log), n);
    TopElem(prm, log, w);
    var p := FirstIsStrongest(here);
  }

  lemma FirstIsStrongest(ps: seq<Path>) returns (p: Path)
    requires ps != []
    ensures p in ps && FirstEdges(Strongest(ps)) == p.edges && forall q :: q in ps ==> q.a <= p.a
  {
    var sorted := StableSort(ps, Fainter);
    StableSortElems(ps, Fainter);
    p := sorted[0];
    assert p in sorted;
    forall q | q in ps ensures q.a <= p.a {
      var i :| 0 <= i < |sorted| && sorted[i] == q;
      assert Fainter(sorted[0]) <= Fainter(sorted[i]);
    }
  }

  /** A node of the beam gains exactly the mass that arrived, and no other node changes. */
  lemma HopGains(net: Network, prm: Params, st: State, h: nat, n: Node)
    ensures var log, now := Arrivals(net, prm, st.frontier, st.best), Hop(net, prm, st, h);
            && Lookup(now.r, n, 0.0)
               == Lookup(st.r, n, 0.0) + (if n in Nodes(now.frontier) then Mass(To(log, n)) else 0.0)
            && (n in now.hops ==> now.hops[n] == if n in st.hops then st.hops[n] else h)
  {
    var log := Arrivals(net, prm, st.frontier, st.best);
    if n in Nodes(Top(prm, log)) {
      var w := ShareOfTop(Top(prm, log), n);
      TopElem(prm, log, w);
    }
  }

  // ----- trails: the walks the path rules allow ---------------------------------------------

  ghost predicate LegalStep(net: Network, s: Step) {
    && Expandable(s.src, s.etype)
    && exists e :: e in EdgesOf(net.adj, s.src) && e.other == s.dst && e.etype == s.etype
  }

  /** t leads from a seed to n over legal steps and never enters a node twice. */
  ghost predicate Trail(net: Network, seeds: set<Node>, t: seq<Step>, n: Node)
    decreases |t|
  {
    if t == [] then n in seeds
    else
      var last, front := t[|t| - 1], t[..|t| - 1];
      last.dst == n && LegalStep(net, last) && Trail(net, seeds, front, last.src) && n !in OnPath(last.src, front)
  }

  function TrailNodes(t: seq<Step>, n: Node): seq<Node> {
    seq(|t| + 1, i requires 0 <= i <= |t| => if i < |t| then t[i].src else n)
  }

  /** A trail is a genuine simple walk of the edge table that starts at a seed. */
  lemma {:induction false} TrailIsSimpleWalk(net: Network, seeds: set<Node>, t: seq<Step>, n: Node)
    requires Trail(net, seeds, t, n)
    ensures var walk := TrailNodes(t, n);
            IsWalk(net.adj, walk, walk[0], n) && Distinct(walk) && |walk| == |t| + 1 && walk[0] in seeds
    decreases |t|
  {
    if t != [] {
      var last, front := t[|t| - 1], t[..|t| - 1];
      TrailIsSimpleWalk(net, seeds, front, last.src);
      var walk := TrailNodes(front, last.src);
      var e :| e in EdgesOf(net.adj, last.src) && e.other == last.dst && e.etype == last.etype;
      WalkExtend(net.adj, walk, walk[0], last.src, n);
      assert TrailNodes(t, n) == walk + [n];
      forall i | 0 <= i < |walk| ensures walk[i] != n {
        assert walk[i] in OnPath(last.src, front);
      }
    }
  }

  // ----- what one hop's arrivals are --------------------------------------------------------

  /** p came along one edge of a frontier node: at least the floor, and below its source. */
  ghost predicate ArrivedFrom(net: Network, prm: Params, best: Best, p: Path, w: Warm) {
    exists e :: e in EdgesOf(net.adj, w.node) && Emit(net, prm, w, Via(best, w.node), e) == [p]
  }

  lemma {:induction false} EmittedFrom(net: Network, prm: Params, w: Warm, via: seq<Step>, es: seq<Edge>, p: Path)
    requires p in EmitAll(net, prm, w, via, es)
    ensures exists e :: e in es && Emit(net, prm, w, via, e) == [p]
    decreases |es|
  {
    var front, last := es[..|es| - 1], es[|es| - 1];
    if p in EmitAll(net, prm, w, via, front) {
      EmittedFrom(net, prm, w, via, front, p);
      var e :| e in front && Emit(net, prm, w, via, e) == [p];
      assert e in es;
    } else {
      assert last in es && Emit(net, prm, w, via, last) == [p];
    }
  }

  lemma {:induction false} ArrivalSource(net: Network, prm: Params, frontier: seq<Warm>, best: Best, p: Path)
    returns (w: Warm)
    requires p in Arrivals(net, prm, frontier, best)
    ensures w in frontier && ArrivedFrom(net, prm, best, p, w)
    decreases |frontier|
  {
    var front, last := frontier[..|frontier| - 1], frontier[|frontier| - 1];
    if p in Arrivals(net, prm, front, best) {
      w := ArrivalSource(net, prm, front, best, p);
    } else {
      w := last;
      EmittedFrom(net, prm, w, Via(best, w.node), EdgesOf(net.adj, w.node), p);
    }
  }

  /** Every arrival is at least the floor, and strictly below the activation it comes from. */
  lemma ArrivalAttenuates(net: Network, prm: Params, best: Best, p: Path, w: Warm)
    requires ArrivedFrom(net, prm, best, p, w)
    ensures p.a >= prm.eps
    ensures w.a > 0.0 ==> p.a < w.a
  {
    var e :| e in EdgesOf(net.adj, w.node) && Emit(net, prm, w, Via(best, w.node), e) == [p];
    var m := Multiplier(net, prm, w.node, e);
    assert p.a == w.a * m;
    if w.a > 0.0 {
      assert w.a * m <= w.a * MULT_CEILING;
    }
  }

  /** Over an edge that only files or equates nothing goes, from the self node nothing over mere mentions, and nothing
      back onto the path. */
  ghost predicate Passable(w: Warm, via: seq<Step>, e: Edge) {
    && e.etype.base != "in_doc" && e.etype.base != "same_cell"
    && (w.node == SELF_NODE ==> e.etype.base != "mentions" && e.etype.base != "about")
    && e.other != w.node && forall s :: s in via ==> s.src != e.other
  }

  lemma PassableExactly(w: Warm, via: seq<Step>, e: Edge)
    ensures Passable(w, via, e) <==> Expandable(w.node, e.etype) && e.other !in OnPath(w.node, via)
  {
    OnPathExactly(w.node, via, e.other);
  }

  /** Otherwise an edge carries its part of the source, if that is at least the floor. */
  lemma EmitExactly(net: Network, prm: Params, w: Warm, via: seq<Step>, e: Edge)
    ensures var m := Multiplier(net, prm, w.node, e);
            var carried := Path(Part(w, m), via + [Step(w.node, e.etype, e.other, m)]);
            && (Passable(w, via, e) && carried.a >= prm.eps ==> Emit(net, prm, w, via, e) == [carried])
            && (!Passable(w, via, e) || carried.a < prm.eps ==> Emit(net, prm, w, via, e) == [])
  {
    PassableExactly(w, via, e);
  }

  lemma OnPathExactly(j: Node, via: seq<Step>, n: Node)
    ensures n in OnPath(j, via) <==> n == j || exists s :: s in via && s.src == n
  {
    if s :| s in via && s.src == n {
      var i :| 0 <= i < |via| && via[i] == s;
      assert via[i].src in OnPath(j, via);
    }
  }

  /** It extends the trail of its source by one legal step to a node the trail has not entered. */
  lemma ArrivalExtendsTrail(net: Network, prm: Params, seeds: set<Node>, best: Best, p: Path, w: Warm)
    requires ArrivedFrom(net, prm, best, p, w)
    requires Trail(net, seeds, Via(best, w.node), w.node)
    ensures Trail(net, seeds, p.edges, Target(p)) && |p.edges| == |Via(best, w.node)| + 1
  {
    var via := Via(best, w.node);
    var e :| e in EdgesOf(net.adj, w.node) && Emit(net, prm, w, via, e) == [p];
    var s := Step(w.node, e.etype, e.other, Multiplier(net, prm, w.node, e));
    assert p.edges == via + [s];
    assert p.edges[..|p.edges| - 1] == via;
    assert LegalStep(net, s);
  }

  // ----- the invariant of the hop loop --------------------------------------------------------

  ghost predicate PathOk(net: Network, prm: Params, shares: map<Node, real>, p: Path, n: Node, lo: nat, hi: nat) {
    && Trail(net, shares.Keys, p.edges, n)
    && lo <= |p.edges| <= hi
    && (if p.edges == [] then n in shares && p.a == shares[n] else p.a >= prm.eps)
  }

  ghost predicate HasTrail(net: Network, seeds: set<Node>, n: Node, len: nat) {
    exists t :: Trail(net, seeds, t, n) && |t| == len
  }

  ghost predicate SameKeys(st: State) {
    st.r.Keys == st.paths.Keys == st.hops.Keys
  }

  /** Nothing below a floor of zero is passed on, and nothing but positive amounts above a positive floor. */
  ghost predicate Above(eps: real, x: real) {
    (eps >= 0.0 ==> x >= 0.0) && (eps > 0.0 ==> x > 0.0)
  }

  /** Everything recorded about a reached node. */
  ghost predicate NodeOk(net: Network, prm: Params, shares: map<Node, real>, st: State, h: nat, n: Node)
    requires SameKeys(st) && n in st.r
  {
    && st.hops[n] <= h
    && (st.hops[n] == 0 <==> n in shares)
    && HasTrail(net, shares.Keys, n, st.hops[n])
    && 1 <= |st.paths[n]| <= TOP_PATHS
    && SortedBy(st.paths[n], Fainter)
    && (forall p :: p in st.paths[n] ==> PathOk(net, prm, shares, p, n, st.hops[n], h))
    && Above(prm.eps, st.r[n]) && (prm.eps >= 0.0 && n in shares ==> st.r[n] >= shares[n])
  }

  ghost predicate WarmOk(net: Network, prm: Params, shares: map<Node, real>, best: Best, h: nat, w: Warm) {
    && Trail(net, shares.Keys, Via(best, w.node), w.node)
    && |Via(best, w.node)| == h
    && (Above(prm.eps, w.a))
  }

  ghost predicate Inv(net: Network, prm: Params, shares: map<Node, real>, st: State, h: nat) {
    && SameKeys(st)
    && shares.Keys <= st.r.Keys
    && (forall w {:trigger WarmOk(net, prm, shares, st.best, h, w)} :: w in st.frontier ==>
        WarmOk(net, prm, shares, st.best, h, w))
    && (forall n {:trigger NodeOk(net, prm, shares, st, h, n)} :: n in st.r ==> NodeOk(net, prm, shares, st, h, n))
  }

  lemma TakeElems<T>(s: seq<T>, n: nat, x: T)
    requires x in Take(s, n)
    ensures x in s
  {
  }

  lemma StrongestElems(ps: seq<Path>)
    ensures forall p :: p in Strongest(ps) ==> p in ps
    ensures |Strongest(ps)| <= TOP_PATHS && (ps != [] ==> Strongest(ps) != [])
    ensures SortedBy(Strongest(ps), Fainter)
  {
    StableSortElems(ps, Fainter);
    forall p | p in Strongest(ps) ensures p in ps {
      TakeElems(StableSort(ps, Fainter), TOP_PATHS, p);
    }
  }

  /** A node of the beam carries exactly the mass of its arrivals, and something arrived there. */
  lemma TopElem(prm: Params, log: seq<Path>, w: Warm)
    requires w in Top(prm, log)
    ensures w.a == Mass(To(log, w.node)) && To(log, w.node) != []
  {
    var order := Dedup(Targets(log));
    var all := seq(|order|, i requires 0 <= i < |order| => Warm(order[i], Mass(To(log, order[i]))));
    StableSortElems(all, Weaker);
    TakeElems(StableSort(all, Weaker), prm.beam, w);
    var i :| 0 <= i < |all| && all[i] == w;
    assert order[i] in Targets(log);
    var x :| 0 <= x < |log| && Targets(log)[x] == order[i];
    assert log[x] in To(log, w.node);
  }

  lemma {:induction false} ShareOfTop(top: seq<Warm>, n: Node) returns (w: Warm)
    requires n in Nodes(top)
    ensures w in top && w.node == n && Share(top, n) == w.a
    decreases |top|
  {
    var last := top[|top| - 1];
    if last.node == n {
      w := last;
    } else {
      var i :| 0 <= i < |top| && top[i].node == n;
      assert top[..|top| - 1][i].node == n;
      w := ShareOfTop(top[..|top| - 1], n);
    }
  }

  lemma {:induction false} MassAbove(ps: seq<Path>, eps: real)
    requires eps >= 0.0 && ps != [] && forall p :: p in ps ==> p.a >= eps
    ensures Above(eps, Mass(ps))
  {
    SumNonNegative(ps[..|ps| - 1], (p: Path) => p.a);
    assert ps[|ps| - 1] in ps;
  }

  /** All that arrives at n in a hop: trails of one more step, none below the floor. */
  lemma ArrivalsOk(net: Network, prm: Params, shares: map<Node, real>, st: State, h: nat, n: Node)
    requires Inv(net, prm, shares, st, h)
    ensures var log := Arrivals(net, prm, st.frontier, st.best);
            forall p :: p in To(log, n) ==> PathOk(net, prm, shares, p, n, h + 1, h + 1)
  {
    var log := Arrivals(net, prm, st.frontier, st.best);
    forall p | p in To(log, n) ensures PathOk(net, prm, shares, p, n, h + 1, h + 1) {
      var w := ArrivalSource(net, prm, st.frontier, st.best, p);
      assert WarmOk(net, prm, shares, st.best, h, w);
      ArrivalAttenuates(net, prm, st.best, p, w);
      ArrivalExtendsTrail(net, prm, shares.Keys, st.best, p, w);
    }
  }

  /** The first of what arrived at a node of the beam: the trail the next hop extends. */
  lemma BeamNode(net: Network, prm: Params, shares: map<Node, real>, st: State, h: nat, w: Warm)
    requires Inv(net, prm, shares, st, h)
    requires var log := Arrivals(net, prm, st.frontier, st.best); w in Top(prm, log)
    ensures var ps := Strongest(To(Arrivals(net, prm, st.frontier, st.best), w.node));
            && ps != []
            && (forall p :: p in ps ==> PathOk(net, prm, shares, p, w.node, h + 1, h + 1))
            && (Above(prm.eps, w.a))
            && HasTrail(net, shares.Keys, w.node, h + 1)
  {
    var log := Arrivals(net, prm, st.frontier, st.best);
    TopElem(prm, log, w);
    ArrivalsOk(net, prm, shares, st, h, w.node);
    StrongestElems(To(log, w.node));
    if prm.eps >= 0.0 {
      MassAbove(To(log, w.node), prm.eps);
    }
    var ps := Strongest(To(log, w.node));
    assert ps[0] in ps;
  }

  /** The old and the new paths of a node together, cut to the three strongest. */
  lemma PathsStayOk(net: Network, prm: Params, shares: map<Node, real>, older: seq<Path>, newer: seq<Path>, n: Node,
                    lo: nat, h: nat)
    requires lo <= h + 1 && newer != []
    requires forall p :: p in older ==> PathOk(net, prm, shares, p, n, lo, h)
    requires forall p :: p in newer ==> PathOk(net, prm, shares, p, n, h + 1, h + 1)
    ensures var ps := Strongest(older + newer);
            && 1 <= |ps| <= TOP_PATHS && SortedBy(ps, Fainter)
            && forall p :: p in ps ==> PathOk(net, prm, shares, p, n, lo, h + 1)
  {
    StrongestElems(older + newer);
    forall p | p in Strongest(older + newer) ensures PathOk(net, prm, shares, p, n, lo, h + 1) {
      assert p in older || p in newer;
    }
  }

  lemma HopKeepsNode(net: Network, prm: Params, shares: map<Node, real>, st: State, h: nat, n: Node)
    requires Inv(net, prm, shares, st, h)
    requires var st' := Hop(net, prm, st, h + 1); SameKeys(st') && n in st'.r
    ensures NodeOk(net, prm, shares, Hop(net, prm, st, h + 1), h + 1, n)
  {
    var log := Arrivals(net, prm, st.frontier, st.best);
    var top := Top(prm, log);
    assert n in st.r ==> NodeOk(net, prm, shares, st, h, n);
    if n in Nodes(top) {
      var w := ShareOfTop(top, n);
      BeamNode(net, prm, shares, st, h, w);
      HopReaches(net, prm, shares, st, h, n, w, log, top);
    } else {
      HopLeaves(net, prm, shares, st, h, n, log, top);
    }
  }

  lemma HopLeaves(net: Network, prm: Params, shares: map<Node, real>, st: State, h: nat, n: Node, log: seq<Path>,
                  top: seq<Warm>)
    requires SameKeys(st) && SameKeys(Absorbed(st, log, top, h + 1))
    requires n in st.r && NodeOk(net, prm, shares, st, h, n) && n !in Nodes(top)
    ensures NodeOk(net, prm, shares, Absorbed(st, log, top, h + 1), h + 1, n)
  {
    forall p | p in st.paths[n] ensures PathOk(net, prm, shares, p, n, st.hops[n], h + 1) {
      assert PathOk(net, prm, shares, p, n, st.hops[n], h);
    }
  }

  /** What absorbing the beam makes of a node in it. */
  lemma AbsorbedAt(st: State, log: seq<Path>, top: seq<Warm>, h: nat, n: Node)
    requires n in Nodes(top) && SameKeys(st) && SameKeys(Absorbed(st, log, top, h))
    ensures var after := Absorbed(st, log, top, h);
            && n in after.r && after.r[n] == Lookup(st.r, n, 0.0) + Share(top, n)
            && after.hops[n] == Lookup(st.hops, n, h)
            && after.paths[n] == Strongest(Lookup(st.paths, n, []) + Strongest(To(log, n)))
  {
  }

  lemma HopReaches(net: Network, prm: Params, shares: map<Node, real>, st: State, h: nat, n: Node, w: Warm,
                   log: seq<Path>, top: seq<Warm>)
    requires SameKeys(st) && shares.Keys <= st.r.Keys && SameKeys(Absorbed(st, log, top, h + 1))
    requires n in st.r ==> NodeOk(net, prm, shares, st, h, n)
    requires n in Nodes(top) && Share(top, n) == w.a
    requires Strongest(To(log, n)) != []
    requires forall p :: p in Strongest(To(log, n)) ==> PathOk(net, prm, shares, p, n, h + 1, h + 1)
    requires Above(prm.eps, w.a)
    requires HasTrail(net, shares.Keys, n, h + 1)
    ensures NodeOk(net, prm, shares, Absorbed(st, log, top, h + 1), h + 1, n)
  {
    AbsorbedAt(st, log, top, h + 1, n);
    var older, newer := Lookup(st.paths, n, []), Strongest(To(log, n));
    PathsStayOk(net, prm, shares, older, newer, n, Lookup(st.hops, n, h + 1), h);
    NodeReached(net, prm, shares, st, Absorbed(st, log, top, h + 1), h, n, w.a);
  }

  lemma NodeReached(net: Network, prm: Params, shares: map<Node, real>, st: State, after: State, h: nat, n: Node,
                    more: real)
    requires SameKeys(st) && SameKeys(after) && shares.Keys <= st.r.Keys && n in after.r
    requires n in st.r ==> NodeOk(net, prm, shares, st, h, n)
    requires after.r[n] == Lookup(st.r, n, 0.0) + more && after.hops[n] == Lookup(st.hops, n, h + 1)
    requires 1 <= |after.paths[n]| <= TOP_PATHS && SortedBy(after.paths[n], Fainter)
    requires forall p :: p in after.paths[n] ==> PathOk(net, prm, shares, p, n, after.hops[n], h + 1)
    requires Above(prm.eps, more)
    requires HasTrail(net, shares.Keys, n, h + 1)
    ensures NodeOk(net, prm, shares, after, h + 1, n)
  {
  }

  lemma HopKeepsWarm(net: Network, prm: Params, shares: map<Node, real>, st: State, h: nat, w: Warm)
    requires Inv(net, prm, shares, st, h)
    requires w in Hop(net, prm, st, h + 1).frontier
    ensures WarmOk(net, prm, shares, Hop(net, prm, st, h + 1).best, h + 1, w)
  {
    var log := Arrivals(net, prm, st.frontier, st.best);
    BeamNode(net, prm, shares, st, h, w);
    BestOfBeam(st.best, log, Top(prm, log), w);
    FirstIsWarm(net, prm, shares, Hop(net, prm, st, h + 1).best, h, w, Strongest(To(log, w.node)));
  }

  lemma BestOfBeam(best: Best, log: seq<Path>, top: seq<Warm>, w: Warm)
    requires w in top
    ensures Via(BestAfter(best, log, top), w.node) == FirstEdges(Strongest(To(log, w.node)))
  {
    InNodes(top);
  }

  lemma FirstIsWarm(net: Network, prm: Params, shares: map<Node, real>, best: Best, h: nat, w: Warm, ps: seq<Path>)
    requires ps != [] && Via(best, w.node) == FirstEdges(ps) && Above(prm.eps, w.a)
    requires forall p :: p in ps ==> PathOk(net, prm, shares, p, w.node, h + 1, h + 1)
    ensures WarmOk(net, prm, shares, best, h + 1, w)
  {
    assert ps[0] in ps;
  }

  lemma HopKeepsInv(net: Network, prm: Params, shares: map<Node, real>, st: State, h: nat)
    requires Inv(net, prm, shares, st, h)
    ensures Inv(net, prm, shares, Hop(net, prm, st, h + 1), h + 1)
  {
    var st' := Hop(net, prm, st, h + 1);
    assert SameKeys(st');
    forall n | n in st'.r ensures NodeOk(net, prm, shares, st', h + 1, n) {
      HopKeepsNode(net, prm, shares, st, h, n);
    }
    forall w | w in st'.frontier ensures WarmOk(net, prm, shares, st'.best, h + 1, w) {
      HopKeepsWarm(net, prm, shares, st, h, w);
    }
  }

  // ----- the whole run ----------------------------------------------------------------------

  function Positive(seeds: seq<Warm>): seq<Warm> {
    Filter(seeds, (w: Warm) => w.a > 0.0)
  }

  function Total(seeds: seq<Warm>): real {
    var t := Sum(Positive(seeds), (w: Warm) => w.a);
    if t == 0.0 then 1.0 else t
  }

  /** The positive seeds, scaled to a total of one. */
  function Shares(seeds: seq<Warm>): map<Node, real> {
    map n | n in Nodes(Positive(seeds)) :: Share(Positive(seeds), n) / Total(seeds)
  }

  function Scaled(seeds: seq<Warm>): seq<Warm> {
    var pos := Positive(seeds);
    seq(|pos|, i requires 0 <= i < |pos| => Warm(pos[i].node, pos[i].a / Total(seeds)))
  }

  function Start(seeds: seq<Warm>): State {
    var shares := Shares(seeds);
    State(Scaled(seeds), map n | n in shares :: [], shares, map n | n in shares :: [Path(shares[n], [])],
          map n | n in shares :: 0)
  }

  /** Hops h + 1 to k, stopping as soon as nothing arrives anywhere. */
  function Run(net: Network, prm: Params, st: State, h: nat, k: nat): State
    decreases k - h
  {
    if h >= k || Arrivals(net, prm, st.frontier, st.best) == [] then st
    else Run(net, prm, Hop(net, prm, st, h + 1), h + 1, k)
  }

  /** All hops h + 1 to k, come what may. */
  function AllHops(net: Network, prm: Params, st: State, h: nat, k: nat): State
    decreases k - h
  {
    if h >= k then st else AllHops(net, prm, Hop(net, prm, st, h + 1), h + 1, k)
  }

  /** Stopping as soon as nothing arrives changes nothing that is recorded. */
  lemma {:induction false} EarlyStopHarmless(net: Network, prm: Params, st: State, h: nat, k: nat)
    requires SameKeys(st)
    ensures var a, b := Run(net, prm, st, h, k), AllHops(net, prm, st, h, k);
            a.r == b.r && a.paths == b.paths && a.hops == b.hops
    decreases k - h
  {
    if h < k {
      var next := Hop(net, prm, st, h + 1);
      if Arrivals(net, prm, st.frontier, st.best) == [] {
        NothingArrives(net, prm, st, h + 1);
        EarlyStopHarmless(net, prm, next, h + 1, k);
      } else {
        EarlyStopHarmless(net, prm, next, h + 1, k);
      }
    }
  }

  lemma NothingArrives(net: Network, prm: Params, st: State, h: nat)
    requires SameKeys(st) && Arrivals(net, prm, st.frontier, st.best) == []
    ensures var next := Hop(net, prm, st, h);
            && next.r == st.r && next.paths == st.paths && next.hops == st.hops && SameKeys(next)
            && Arrivals(net, prm, next.frontier, next.best) == []
  {
    var top := Top(prm, []);
    assert Targets([]) == [];
    assert Gathered([]) == [];
    StableSortElems(Gathered([]), Weaker);
    assert top == [] && Nodes(top) == {};
  }

  lemma {:induction false} InvWidens(net: Network, prm: Params, shares: map<Node, real>, st: State, h: nat, k: nat)
    requires Inv(net, prm, shares, st, h) && h <= k
    ensures forall n :: n in st.r ==> NodeOk(net, prm, shares, st, k, n)
  {
    forall n | n in st.r ensures NodeOk(net, prm, shares, st, k, n) {
      assert NodeOk(net, prm, shares, st, h, n);
      forall p | p in st.paths[n] ensures PathOk(net, prm, shares, p, n, st.hops[n], k) {
        assert PathOk(net, prm, shares, p, n, st.hops[n], h);
      }
    }
  }

  lemma {:induction false} RunKeepsInv(net: Network, prm: Params, shares: map<Node, real>, st: State, h: nat, k: nat)
    requires Inv(net, prm, shares, st, h) && h <= k
    ensures var out := Run(net, prm, st, h, k);
            && SameKeys(out) && shares.Keys <= out.r.Keys
            && forall n :: n in out.r ==> NodeOk(net, prm, shares, out, k, n)
    decreases k - h
  {
    if h >= k || Arrivals(net, prm, st.frontier, st.best) == [] {
      InvWidens(net, prm, shares, st, h, k);
    } else {
      HopKeepsInv(net, prm, shares, st, h);
      RunKeepsInv(net, prm, shares, Hop(net, prm, st, h + 1), h + 1, k);
    }
  }

  lemma ScaledSum(seeds: seq<Warm>)
    ensures Sum(Scaled(seeds), (w: Warm) => w.a) == Sum(Positive(seeds), (w: Warm) => w.a) / Total(seeds)
  {
    var pos := Positive(seeds);
    ScaledPrefix(seeds, |pos|);
    assert Scaled(seeds)[..|pos|] == Scaled(seeds) && pos[..|pos|] == pos;
  }

  lemma TotalIsSum(seeds: seq<Warm>)
    requires Positive(seeds) != []
    ensures Total(seeds) == Sum(Positive(seeds), (w: Warm) => w.a) > 0.0
  {
    SumPositive(Positive(seeds));
  }

  lemma WholeOverWhole(m: real)
    requires m > 0.0
    ensures m / m == 1.0
  {
  }

  /** The scaled seeds share out exactly one unit of activation. */
  lemma SharesSumToOne(seeds: seq<Warm>)
    requires Positive(seeds) != []
    ensures Sum(Scaled(seeds), (w: Warm) => w.a) == 1.0
  {
    ScaledSum(seeds);
    TotalIsSum(seeds);
    WholeOverWhole(Total(seeds));
  }

  /** Exactly the positive seeds take part, each with its own part of their total. */
  lemma SharesProportional(seeds: seq<Warm>, w: Warm)
    requires DistinctNodes(seeds) && w in seeds
    ensures w.node in Shares(seeds) <==> w.a > 0.0
    ensures w.a > 0.0 ==> Shares(seeds)[w.node] * Total(seeds) == w.a
  {
    var pos := Positive(seeds);
    TotalPositive(seeds);
    InNodes(pos);
    if w.node in Shares(seeds) {
      var x := ShareOfTop(pos, w.node);
      SameNodeSameWarm(seeds, x, w);
      PartOfWhole(w.a, Total(seeds));
    }
  }

  lemma PartOfWhole(x: real, t: real)
    requires t > 0.0
    ensures x / t * t == x
  {
  }

  lemma SumPositive(ps: seq<Warm>)
    requires ps != [] && forall w :: w in ps ==> w.a > 0.0
    ensures Sum(ps, (w: Warm) => w.a) > 0.0
  {
    SumAtLeastMember(ps, (w: Warm) => w.a, ps[0]);
  }

  lemma {:induction false} ScaledPrefix(seeds: seq<Warm>, n: nat)
    requires n <= |Positive(seeds)|
    ensures Sum(Scaled(seeds)[..n], (w: Warm) => w.a) == Sum(Positive(seeds)[..n], (w: Warm) => w.a) / Total(seeds)
  {
    if n > 0 {
      var pos, scaled := Positive(seeds), Scaled(seeds);
      ScaledPrefix(seeds, n - 1);
      assert scaled[..n][..n - 1] == scaled[..n - 1] && pos[..n][..n - 1] == pos[..n - 1];
      TotalPositive(seeds);
      DivideSum(Sum(pos[..n - 1], (w: Warm) => w.a), pos[n - 1].a, Total(seeds));
    }
  }

  lemma DivideSum(x: real, y: real, t: real)
    requires t > 0.0
    ensures (x + y) / t == x / t + y / t
  {
  }

  lemma TotalPositive(seeds: seq<Warm>)
    ensures Total(seeds) > 0.0
  {
    SumNonNegative(Positive(seeds), (w: Warm) => w.a);
  }

  lemma StartInv(net: Network, prm: Params, seeds: seq<Warm>)
    ensures Inv(net, prm, Shares(seeds), Start(seeds), 0)
  {
    var shares, st := Shares(seeds), Start(seeds);
    forall n | n in st.r ensures NodeOk(net, prm, shares, st, 0, n) {
      StartNode(net, prm, seeds, n);
    }
    forall w | w in st.frontier ensures WarmOk(net, prm, shares, st.best, 0, w) {
      StartWarm(net, prm, seeds, w);
    }
  }

  lemma StartNode(net: Network, prm: Params, seeds: seq<Warm>, n: Node)
    requires n in Shares(seeds)
    ensures SameKeys(Start(seeds)) && NodeOk(net, prm, Shares(seeds), Start(seeds), 0, n)
  {
    var shares := Shares(seeds);
    TotalPositive(seeds);
    var w := ShareOfTop(Positive(seeds), n);
    assert w.a / Total(seeds) > 0.0;
    assert Trail(net, shares.Keys, [], n);
    assert HasTrail(net, shares.Keys, n, 0);
    assert Start(seeds).paths[n] == [Path(shares[n], [])];
  }

  lemma StartWarm(net: Network, prm: Params, seeds: seq<Warm>, w: Warm)
    requires w in Start(seeds).frontier
    ensures WarmOk(net, prm, Shares(seeds), Start(seeds).best, 0, w)
  {
    var pos := Positive(seeds);
    TotalPositive(seeds);
    var i :| 0 <= i < |pos| && Scaled(seeds)[i] == w;
    assert pos[i] in pos && pos[i].node in Nodes(pos);
    assert w.a == pos[i].a / Total(seeds) > 0.0;
  }

  /** Whatever the table, the parameters and the seeds: all that k hops record is sound. */
  lemma SpreadSound(net: Network, prm: Params, seeds: seq<Warm>, k: nat)
    ensures var out := Run(net, prm, Start(seeds), 0, k);
            && SameKeys(out) && Shares(seeds).Keys <= out.r.Keys
            && forall n :: n in out.r ==> NodeOk(net, prm, Shares(seeds), out, k, n)
  {
    StartInv(net, prm, seeds);
    RunKeepsInv(net, prm, Shares(seeds), Start(seeds), 0, k);
  }

  // ----- the dictionaries the caller gets ------------------------------------------------------

  class Reached {
    var r: map<Node, real>
    var paths: map<Node, seq<Path>>
    var hops: map<Node, nat>

    constructor ()
      ensures r == map[] && paths == map[] && hops == map[]
    {
      r, paths, hops := map[], map[], map[];
    }

    ghost predicate Shows(st: State)
      reads this
    {
      r == st.r && paths == st.paths && hops == st.hops
    }

    method AbsorbNode(i: Node, a: real, arrived: seq<Path>, best0: Best, h: nat) returns (best: Best)
      modifies this
      ensures Plus(old(Maps(r, paths, hops, best0)), Maps(r, paths, hops, best), i, a, arrived, h)
    {
      r := RPlus(r, i, a);
      hops := HopsPlus(hops, i, h);
      paths := PathsPlus(paths, i, arrived);
      best := BestPlus(best0, i, arrived);
    }

    /** Adds what the beam carries, node by node, and hands back the updated best paths. */
    method Absorb(ghost log: seq<Path>, top: seq<Warm>, arrivals: map<Node, seq<Path>>, best0: Best, h: nat)
      returns (best: Best)
      requires DistinctNodes(top)
      requires forall w :: w in top ==> w.node in arrivals && arrivals[w.node] == To(log, w.node)
      modifies this
      ensures r == RAfter(old(r), top) && hops == HopsAfter(old(hops), top, h)
      ensures paths == PathsAfter(old(paths), log, top) && best == BestAfter(best0, log, top)
    {
      ghost var was, now := Maps(r, paths, hops, best0), Maps(r, paths, hops, best0);
      best := best0;
      NoneAbsorbed(was, log, top, h);
      for x := 0 to |top|
        invariant now == Maps(r, paths, hops, best) == MapsAfter(was, log, top[..x], h)
      {
        assert top[x] in top;
        MapsNext(was, log, top, x, h);
        best := AbsorbNode(top[x].node, top[x].a, arrivals[top[x].node], best, h);
        now := Maps(r, paths, hops, best);
      }
      assert top[..|top|] == top;
    }
  }

  /** The dictionaries of the result, and the best paths, as one value. */
  datatype Maps = Maps(r: map<Node, real>, paths: map<Node, seq<Path>>, hops: map<Node, nat>, best: Best)

  ghost function MapsAfter(m: Maps, log: seq<Path>, top: seq<Warm>, h: nat): Maps {
    Maps(RAfter(m.r, top), PathsAfter(m.paths, log, top), HopsAfter(m.hops, top, h), BestAfter(m.best, log, top))
  }

  function RPlus(r: map<Node, real>, i: Node, a: real): map<Node, real> {
    r[i := Lookup(r, i, 0.0) + a]
  }

  function PathsPlus(paths: map<Node, seq<Path>>, i: Node, arrived: seq<Path>): map<Node, seq<Path>> {
    PathsPlusBy(Strongest, paths, i, arrived)
  }

  function PathsPlusBy(cut: seq<Path> -> seq<Path>, paths: map<Node, seq<Path>>, i: Node,
                       arrived: seq<Path>): map<Node, seq<Path>>
  {
    paths[i := cut(Lookup(paths, i, []) + cut(arrived))]
  }

  function HopsPlus(hops: map<Node, nat>, i: Node, h: nat): map<Node, nat> {
    hops[i := Lookup(hops, i, h)]
  }

  function BestPlus(best: Best, i: Node, arrived: seq<Path>): Best {
    best[i := FirstEdges(Strongest(arrived))]
  }

  ghost predicate Plus(m: Maps, n: Maps, i: Node, a: real, arrived: seq<Path>, h: nat) {
    n.r == RPlus(m.r, i, a) && n.paths == PathsPlus(m.paths, i, arrived) && n.hops == HopsPlus(m.hops, i, h)
      && n.best == BestPlus(m.best, i, arrived)
  }

  lemma NoneAbsorbed(m: Maps, log: seq<Path>, top: seq<Warm>, h: nat)
    ensures MapsAfter(m, log, top[..0], h) == m
  {
    assert Nodes(top[..0]) == {};
  }

  lemma MapsNext(m: Maps, log: seq<Path>, top: seq<Warm>, x: nat, h: nat)
    requires x < |top| && DistinctNodes(top)
    ensures Plus(MapsAfter(m, log, top[..x], h), MapsAfter(m, log, top[..x + 1], h), top[x].node, top[x].a,
                 To(log, top[x].node), h)
  {
    RNext(m.r, top, x);
    HopsNext(m.hops, top, x, h);
    PathsNext(m.paths, log, top, x);
    BestNext(m.best, log, top, x);
  }

  ghost predicate DistinctNodes(top: seq<Warm>) {
    forall i, j :: 0 <= i < j < |top| ==> top[i].node != top[j].node
  }

  lemma NodesNext(top: seq<Warm>, x: nat)
    requires x < |top| && DistinctNodes(top)
    ensures Nodes(top[..x + 1]) == Nodes(top[..x]) + {top[x].node} && top[x].node !in Nodes(top[..x])
    ensures forall n :: Share(top[..x + 1], n) == if n == top[x].node then top[x].a else Share(top[..x], n)
  {
    var less, more := top[..x], top[..x + 1];
    assert more[..x] == less && more == less + [top[x]];
    forall i | 0 <= i < |more| ensures more[i].node in Nodes(less) + {top[x].node} {
      assert i < x ==> more[i] == less[i];
    }
    forall i | 0 <= i < |less| ensures less[i].node in Nodes(more) && less[i].node != top[x].node {
      assert more[i] == less[i];
    }
    assert more[x].node in Nodes(more);
    forall n ensures Share(more, n) == if n == top[x].node then top[x].a else Share(less, n) {
      assert more[..|more| - 1] == less && more[|more| - 1] == top[x];
    }
  }

  lemma RNext(r: map<Node, real>, top: seq<Warm>, x: nat)
    requires x < |top| && DistinctNodes(top)
    ensures RAfter(r, top[..x + 1]) == RPlus(RAfter(r, top[..x]), top[x].node, top[x].a)
  {
    NodesNext(top, x);
  }

  lemma HopsNext(hops: map<Node, nat>, top: seq<Warm>, x: nat, h: nat)
    requires x < |top| && DistinctNodes(top)
    ensures HopsAfter(hops, top[..x + 1], h) == HopsPlus(HopsAfter(hops, top[..x], h), top[x].node, h)
  {
    NodesNext(top, x);
  }

  lemma PathsNext(paths: map<Node, seq<Path>>, log: seq<Path>, top: seq<Warm>, x: nat)
    requires x < |top| && DistinctNodes(top)
    ensures PathsAfter(paths, log, top[..x + 1])
            == PathsPlus(PathsAfter(paths, log, top[..x]), top[x].node, To(log, top[x].node))
  {
    PathsNextBy(Strongest, paths, log, top, x);
  }

  lemma PathsNextBy(cut: seq<Path> -> seq<Path>, paths: map<Node, seq<Path>>, log: seq<Path>, top: seq<Warm>, x: nat)
    requires x < |top| && DistinctNodes(top)
    ensures PathsAfterBy(cut, paths, log, top[..x + 1])
         == PathsPlusBy(cut, PathsAfterBy(cut, paths, log, top[..x]), top[x].node, To(log, top[x].node))
  {
    NodesNext(top, x);
  }

  lemma BestNext(best: Best, log: seq<Path>, top: seq<Warm>, x: nat)
    requires x < |top| && DistinctNodes(top)
    ensures BestAfter(best, log, top[..x + 1])
            == BestPlus(BestAfter(best, log, top[..x]), top[x].node, To(log, top[x].node))
  {
    NodesNext(top, x);
  }

  lemma TopDistinct(prm: Params, log: seq<Path>)
    ensures DistinctNodes(Top(prm, log))
    ensures forall w :: w in Top(prm, log) ==> w.node in Targets(log)
  {
    var all := Gathered(log);
    NodesAre(Dedup(Targets(log)), all);
    SortedDistinct(all);
    StableSortElems(all, Weaker);
    forall w | w in Top(prm, log) ensures w.node in Targets(log) {
      TakeElems(StableSort(all, Weaker), prm.beam, w);
      GatheredFrom(log, w);
    }
  }

  lemma GatheredFrom(log: seq<Path>, w: Warm)
    requires w in Gathered(log)
    ensures w.node in Targets(log)
  {
    var order := Dedup(Targets(log));
    var x :| 0 <= x < |order| && Gathered(log)[x] == w;
    assert order[x] in order;
  }

  lemma NodesAre(order: seq<Node>, all: seq<Warm>)
    requires Distinct(order) && |all| == |order| && forall i :: 0 <= i < |all| ==> all[i].node == order[i]
    ensures DistinctNodes(all)
  {
  }

  lemma SameNodeSameWarm(all: seq<Warm>, u: Warm, v: Warm)
    requires DistinctNodes(all) && u in all && v in all && u.node == v.node
    ensures u == v
  {
    var x :| 0 <= x < |all| && all[x] == u;
    var y :| 0 <= y < |all| && all[y] == v;
    assert x == y;
  }

  lemma SortedDistinct(all: seq<Warm>)
    requires DistinctNodes(all)
    ensures DistinctNodes(StableSort(all, Weaker))
  {
    DistinctNodesDistinct(all);
    StableSortElems(all, Weaker);
    OrderedDistinct(all, StableSort(all, Weaker));
  }

  lemma DistinctNodesDistinct(all: seq<Warm>)
    requires DistinctNodes(all)
    ensures Distinct(all)
  {
  }

  lemma OrderedDistinct(all: seq<Warm>, sorted: seq<Warm>)
    requires DistinctNodes(all) && Distinct(sorted) && forall w :: w in sorted <==> w in all
    ensures DistinctNodes(sorted)
  {
    forall i, j | 0 <= i < j < |sorted| ensures sorted[i].node != sorted[j].node {
      assert sorted[i] in sorted && sorted[j] in sorted;
      if sorted[i].node == sorted[j].node {
        SameNodeSameWarm(all, sorted[i], sorted[j]);
      }
    }
  }

  /** One round of the source's loop: scatter over the edges, cut to the beam, absorb. */
  method OneHop(table: EdgeTable, prm: Params, out: Reached, frontier0: seq<Warm>, best0: Best, h: nat, ghost st: State)
    returns (stop: bool, frontier: seq<Warm>, best: Best)
    requires st.frontier == frontier0 && st.best == best0 && out.Shows(st)
    modifies out
    ensures stop <==> Arrivals(table.Net(), prm, frontier0, best0) == []
    ensures stop ==> out.Shows(st)
    ensures !stop ==> var now := Hop(table.Net(), prm, st, h + 1);
                      out.Shows(now) && frontier == now.frontier && best == now.best
    ensures !stop ==> BeamOf(Arrivals(table.Net(), prm, frontier0, best0), prm.beam, frontier)
  {
    BeamKeepsStrongest(table.Net(), prm, st, h + 1);
    frontier, best := frontier0, best0;
    ghost var log := Arrivals(table.Net(), prm, frontier, best);
    var order, nxt, arrivals := ExpandHop(table, prm, frontier, best);
    OrderEmpty(log, order);
    stop := order == [];
    if !stop {
      BeamFromTally(prm, log, order, nxt, arrivals);
      TopDistinct(prm, log);
      frontier := Take(StableSort(Entries(order, nxt), Weaker), prm.beam);
      best := out.Absorb(log, frontier, arrivals, best, h + 1);
    }
  }

  /** The seeds, scaled to one unit of activation, before the first hop. */
  method Seeded(seeds: seq<Warm>) returns (out: Reached, frontier: seq<Warm>, best: Best)
    ensures fresh(out) && out.Shows(Start(seeds)) && frontier == Start(seeds).frontier && best == Start(seeds).best
  {
    out := new Reached();
    frontier := Scaled(seeds);
    out.r := Shares(seeds);
    best := map n | n in out.r :: [];
    out.paths := map n | n in out.r :: [Path(out.r[n], [])];
    out.hops := map n | n in out.r :: 0;
  }

  /** The hops of the source, scattering into dictionaries, end with exactly what the gathered
      specification says; `SpreadSound` is what that specification guarantees. */
  method Spread(table: EdgeTable, prm: Params, seeds: seq<Warm>, k: nat) returns (out: Reached)
    requires DistinctNodes(seeds)
    ensures fresh(out) && out.Shows(Run(table.Net(), prm, Start(seeds), 0, k))
  {
    ghost var net, st := table.Net(), Start(seeds);
    var frontier, best;
    out, frontier, best := Seeded(seeds);
    for h := 0 to k
      invariant st.frontier == frontier && st.best == best && out.Shows(st)
      invariant Run(net, prm, Start(seeds), 0, k) == Run(net, prm, st, h, k)
    {
      var stop;
      stop, frontier, best := OneHop(table, prm, out, frontier, best, h, st);
      if stop {
        return;
      }
      st := Hop(net, prm, st, h + 1);
    }
  }

  function Entries(order: seq<Node>, nxt: map<Node, real>): seq<Warm> {
    seq(|order|, i requires 0 <= i < |order| => Warm(order[i], Lookup(nxt, order[i], 0.0)))
  }

  lemma OrderEmpty(log: seq<Path>, order: seq<Node>)
    requires order == Dedup(Targets(log))
    ensures order == [] <==> log == []
  {
    if log != [] {
      assert Targets(log)[0] in Targets(log);
    }
  }

  lemma BeamFromTally(prm: Params, log: seq<Path>, order: seq<Node>, nxt: map<Node, real>,
                      arrivals: map<Node, seq<Path>>)
    requires Tally(log, order, nxt, arrivals)
    ensures forall n :: n in order ==> n in nxt && n in arrivals && arrivals[n] == To(log, n)
    ensures forall n :: n in Targets(log) ==> n in arrivals && arrivals[n] == To(log, n)
    ensures Top(prm, log) == Take(StableSort(Entries(order, nxt), Weaker), prm.beam)
  {
    forall n | n in Targets(log)
      ensures n in nxt && n in arrivals && arrivals[n] == To(log, n) && nxt[n] == Mass(To(log, n))
    {
      assert TallyAt(log, nxt, arrivals, n);
    }
    assert Entries(order, nxt) == Gathered(log);
  }
}
