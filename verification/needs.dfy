/** Standing needs, the search that offers resources for them, and the ledger of verdicts (assoc/aha.py,
    and the needs state machine of assoc/library.py). */
module Needs {
  import opened Common

  datatype ClaimId = ClaimId(name: string)

  datatype Node = ClaimNode(claim: ClaimId) | OtherNode(name: string)

  type Scope = map<string, string>

  /** A need raised by a claim of the build, or registered by the application: its id then is a hash of
      its text and scope. */
  datatype NeedId = Raised(node: string) | Registered(text: string, scope: Scope)

  datatype NeedInfo = NeedInfo(need: NeedId, claim: Option<ClaimId>, text: string, subject: string, scope: Scope)

  datatype Verdict = Connect | Satisfies | No | Stale

  // ----- the ledger ------------------------------------------------------------------------------------

  datatype LedgerKey = LedgerKey(need: NeedId, resource: ClaimId, types: set<string>)

  datatype Entry = Entry(key: LedgerKey, verdict: Verdict)

  predicate Settling(v: Verdict) {
    v == Satisfies || v == Stale
  }

  predicate Bars(e: Entry, k: LedgerKey) {
    e.key == k || (e.key.need == k.need && e.key.resource == k.resource && Settling(e.verdict))
  }

  /** The triple has a verdict, or the need and resource a settling one. */
  ghost predicate IsBlocked(entries: seq<Entry>, k: LedgerKey) {
    exists e :: e in entries && Bars(e, k)
  }

  method Blocked(entries: seq<Entry>, k: LedgerKey) returns (b: bool)
    ensures b <==> IsBlocked(entries, k)
  {
    b := false;
    for n := 0 to |entries|
      invariant b <==> exists i :: 0 <= i < n && Bars(entries[i], k)
    {
      if Bars(entries[n], k) {
        b := true;
      }
    }
  }

  // ----- candidates --------------------------------------------------------------------------------------

  /** An edge of a recorded path: whether it was inferred, and the type it counts as. */
  datatype Label = Label(inferred: bool, kind: string)

  type Path = seq<Label>

  /** One side's spread: activation, hops and paths per node. */
  datatype Reach = Reach(r: map<Node, real>, hops: map<Node, nat>, paths: map<Node, seq<Path>>)

  /** The stimulus side also has an order its nodes are visited in. */
  datatype Stimulus = Stimulus(nodes: seq<Node>, reach: Reach)

  datatype Candidate = Candidate(need: NeedId, resource: ClaimId, strength: real, types: set<string>)

  function KeyOf(c: Candidate): LedgerKey {
    LedgerKey(c.need, c.resource, c.types)
  }

  /** A need in play: what is known of it, its own anchors, its side of the spread. */
  datatype Side = Side(info: NeedInfo, anchors: set<Node>, reach: Reach)

  const FAR := 99

  function Activation(reach: Reach, n: Node): real {
    if n in reach.r then reach.r[n] else 0.0
  }

  function HopsTo(reach: Reach, n: Node): nat {
    if n in reach.hops then reach.hops[n] else FAR
  }

  function PathsTo(reach: Reach, n: Node): seq<Path> {
    if n in reach.paths then reach.paths[n] else []
  }

  function Kinds(paths: seq<Path>): set<string> {
    set p, e | p in paths && e in p :: e.kind
  }

  ghost predicate InferredOnly(paths: seq<Path>) {
    && (exists p :: p in paths && p != [])
    && (forall p, e :: p in paths && e in p ==> e.inferred)
  }

  method CheckInferred(paths: seq<Path>) returns (only: bool)
    ensures only <==> InferredOnly(paths)
  {
    var some, all := false, true;
    for i := 0 to |paths|
      invariant some <==> exists x :: 0 <= x < i && paths[x] != []
      invariant all <==> forall x, e :: 0 <= x < i && e in paths[x] ==> e.inferred
    {
      for j := 0 to |paths[i]|
        invariant some <==> (j > 0 || exists x :: 0 <= x < i && paths[x] != [])
        invariant all <==> (forall x, e :: 0 <= x < i && e in paths[x] ==> e.inferred) && forall y :: 0 <= y < j ==>
                  paths[i][y].inferred
      {
        some := true;
        all := all && paths[i][j].inferred;
      }
    }
    assert all <==> forall p, e :: p in paths && e in p ==> e.inferred;
    assert some <==> exists p :: p in paths && p != [] by {
      if some {
        var x :| 0 <= x < |paths| && paths[x] != [];
        assert paths[x] in paths;
      }
    }
    only := some && all;
  }

  function Smaller(a: real, b: real): real {
    if b < a then b else a
  }

  /** What makes a node a resource for a need: a known claim that is not the need's own material, active on
      both sides, new to the need (two or more hops off, and nearer to the stimulus), strong enough, and
      not reached by inferred edges alone on either side. */
  ghost predicate IsResource(side: Side, stim: Stimulus, claims: set<ClaimId>, ahaMin: real, n: Node) {
    && n.ClaimNode? && side.info.claim != Some(n.claim)
    && (side.info.claim == None ==> n !in side.anchors)
    && Activation(side.reach, n) > 0.0 && Activation(stim.reach, n) > 0.0
    && HopsTo(side.reach, n) >= 2 && HopsTo(stim.reach, n) < HopsTo(side.reach, n)
    && Smaller(Activation(side.reach, n), Activation(stim.reach, n)) >= ahaMin
    && n.claim in claims
    && !InferredOnly(PathsTo(side.reach, n)) && !InferredOnly(PathsTo(stim.reach, n))
  }

  function CandidateAt(side: Side, stim: Stimulus, n: Node): Candidate
    requires n.ClaimNode?
  {
    Candidate(side.info.need, n.claim, Smaller(Activation(side.reach, n), Activation(stim.reach, n)),
              Kinds(PathsTo(side.reach, n) + PathsTo(stim.reach, n)))
  }

  /** The pair of a side and a visited node yields this candidate, and the ledger does not bar it. */
  ghost predicate Yields(side: Side, stim: Stimulus, claims: set<ClaimId>, ahaMin: real, entries: seq<Entry>, n: Node,
                         c: Candidate)
  {
    IsResource(side, stim, claims, ahaMin, n) && c == CandidateAt(side, stim, n) && !IsBlocked(entries, KeyOf(c))
  }

  /** Some path of either side to n has an edge of this kind. */
  ghost predicate Reaching(side: Side, stim: Stimulus, n: Node, kind: string) {
    || (n in side.reach.paths && exists p, e :: p in side.reach.paths[n] && e in p && e.kind == kind)
    || (n in stim.reach.paths && exists p, e :: p in stim.reach.paths[n] && e in p && e.kind == kind)
  }

  lemma KindsExactly(side: Side, stim: Stimulus, n: Node, kind: string)
    ensures kind in Kinds(PathsTo(side.reach, n) + PathsTo(stim.reach, n)) <==> Reaching(side, stim, n, kind)
  {
    var a, b := PathsTo(side.reach, n), PathsTo(stim.reach, n);
    assert forall p :: p in a + b <==> p in a || p in b;
  }

  /** Both sides reach n, the stimulus in fewer hops and the need in two or more, an unrecorded count being far. */
  ghost predicate NewToNeed(side: Side, stim: Stimulus, n: Node) {
    && n in side.reach.r && side.reach.r[n] > 0.0 && n in stim.reach.r && stim.reach.r[n] > 0.0
    && (n in side.reach.hops ==> side.reach.hops[n] >= 2)
    && (if n in stim.reach.hops then stim.reach.hops[n] else FAR)
       < (if n in side.reach.hops then side.reach.hops[n] else FAR)
  }

  /** The ledger has a verdict on the very triple, or one that settled the pair. */
  ghost predicate OnRecord(entries: seq<Entry>, need: NeedId, resource: ClaimId, types: set<string>) {
    exists e :: e in entries && e.key.need == need && e.key.resource == resource
      && (e.key.types == types || e.verdict in {Satisfies, Stale})
  }

  lemma BlockedExactly(entries: seq<Entry>, c: Candidate)
    ensures IsBlocked(entries, KeyOf(c)) <==> OnRecord(entries, c.need, c.resource, c.types)
  {
    forall e
      ensures Bars(e, KeyOf(c)) <==> (&& e.key.need == c.need && e.key.resource == c.resource
                                      && (e.key.types == c.types || e.verdict in {Satisfies, Stale}))
    {
    }
  }

  /** A candidate in plain terms: a claim of the build, not the need's own claim or anchor, new to the need, as strong
      as the weaker side and strong enough, typed by the edges of its paths, which on neither side are inferred
      throughout, and not on record. */
  lemma YieldsExactly(side: Side, stim: Stimulus, claims: set<ClaimId>, ahaMin: real, entries: seq<Entry>, n: Node,
                      c: Candidate)
    ensures Yields(side, stim, claims, ahaMin, entries, n, c) <==>
            && n == ClaimNode(c.resource) && c.need == side.info.need && c.resource in claims
            && (if side.info.claim.Some? then side.info.claim.value != c.resource else n !in side.anchors)
            && NewToNeed(side, stim, n)
            && ahaMin <= c.strength <= side.reach.r[n] && c.strength <= stim.reach.r[n]
            && c.strength in {side.reach.r[n], stim.reach.r[n]}
            && (forall kind :: kind in c.types <==> Reaching(side, stim, n, kind))
            && !InferredOnly(PathsTo(side.reach, n)) && !InferredOnly(PathsTo(stim.reach, n))
            && !OnRecord(entries, c.need, c.resource, c.types)
  {
    BlockedExactly(entries, c);
    if n.ClaimNode? {
      forall kind ensures kind in CandidateAt(side, stim, n).types <==> Reaching(side, stim, n, kind) {
        KindsExactly(side, stim, n, kind);
      }
      if forall kind :: kind in c.types <==> Reaching(side, stim, n, kind) {
        assert c.types == CandidateAt(side, stim, n).types;
      }
    }
  }

  method Consider(side: Side, stim: Stimulus, claims: set<ClaimId>, ahaMin: real, entries: seq<Entry>, n: Node)
    returns (c: Option<Candidate>)
    ensures c.Some? ==> Yields(side, stim, claims, ahaMin, entries, n, c.value)
    ensures c.None? ==> forall d :: !Yields(side, stim, claims, ahaMin, entries, n, d)
  {
    c := None;
    if !n.ClaimNode? || side.info.claim == Some(n.claim) || (side.info.claim == None && n in side.anchors) {
      return;
    }
    var rn, rs := Activation(side.reach, n), Activation(stim.reach, n);
    if rn <= 0.0 || rs <= 0.0 {
      return;
    }
    var hn, hs := HopsTo(side.reach, n), HopsTo(stim.reach, n);
    if hn < 2 || hs >= hn {
      return;
    }
    if Smaller(rn, rs) < ahaMin {
      return;
    }
    if n.claim !in claims {
      return;
    }
    var needOnly := CheckInferred(PathsTo(side.reach, n));
    var stimOnly := CheckInferred(PathsTo(stim.reach, n));
    if needOnly || stimOnly {
      return;
    }
    var found := CandidateAt(side, stim, n);
    var barred := Blocked(entries, KeyOf(found));
    if barred {
      return;
    }
    c := Some(found);
  }

  function StrengthKey(): Candidate -> real {
    (c: Candidate) => -c.strength
  }

  ghost predicate OnePerPair(out: seq<Candidate>) {
    forall i, j :: 0 <= i < j < |out| ==> out[i].need != out[j].need || out[i].resource != out[j].resource
  }

  ghost predicate DistinctNeeds(sides: seq<Side>) {
    forall i, j :: 0 <= i < j < |sides| ==> sides[i].info.need != sides[j].info.need
  }

  /** Some side and visited node yield the candidate. */
  ghost predicate Found(sides: seq<Side>, stim: Stimulus, claims: set<ClaimId>, ahaMin: real, entries: seq<Entry>,
                        c: Candidate)
  {
    exists i, n :: 0 <= i < |sides| && n in stim.nodes && Yields(sides[i], stim, claims, ahaMin, entries, n, c)
  }

  /** The search lists exactly what is found, one candidate per need and resource, the strongest first. */
  method FindCandidates(sides: seq<Side>, stim: Stimulus, claims: set<ClaimId>, ahaMin: real, entries: seq<Entry>)
    returns (out: seq<Candidate>)
    requires DistinctNeeds(sides) && Distinct(stim.nodes)
    ensures forall c :: c in out <==> Found(sides, stim, claims, ahaMin, entries, c)
    ensures OnePerPair(out) && SortedBy(out, StrengthKey())
    ensures forall c :: c in out ==> !IsBlocked(entries, KeyOf(c))
  {
    var found: seq<Candidate> := [];
    for i := 0 to |sides|
      invariant forall c :: c in found <==> Found(sides[..i], stim, claims, ahaMin, entries, c)
      invariant OnePerPair(found)
    {
      var more := ForSide(sides[i], stim, claims, ahaMin, entries);
      FoundMore(sides, i, stim, claims, ahaMin, entries, more);
      PairsMore(sides, i, stim, claims, ahaMin, entries, found, more);
      found := found + more;
    }
    assert sides[..|sides|] == sides;
    out := StableSort(found, StrengthKey());
    StableSortElems(found, StrengthKey());
    PairsSorted(found, out);
  }

  ghost predicate SideFound(side: Side, stim: Stimulus, claims: set<ClaimId>, ahaMin: real, entries: seq<Entry>,
                            upto: nat, c: Candidate)
  {
    exists x :: 0 <= x < upto && x < |stim.nodes| && Yields(side, stim, claims, ahaMin, entries, stim.nodes[x], c)
  }

  /** One side's candidates: one per visited resource. */
  method ForSide(side: Side, stim: Stimulus, claims: set<ClaimId>, ahaMin: real, entries: seq<Entry>)
    returns (out: seq<Candidate>)
    requires Distinct(stim.nodes)
    ensures forall c :: c in out <==> SideFound(side, stim, claims, ahaMin, entries, |stim.nodes|, c)
    ensures OnePerPair(out)
  {
    out := [];
    for x := 0 to |stim.nodes|
      invariant forall c :: c in out <==> SideFound(side, stim, claims, ahaMin, entries, x, c)
      invariant OnePerPair(out)
    {
      var n := stim.nodes[x];
      var c := Consider(side, stim, claims, ahaMin, entries, n);
      ghost var before := out;
      if c.Some? {
        forall d | d in out ensures d.resource != c.value.resource {
          var y :| 0 <= y < x && Yields(side, stim, claims, ahaMin, entries, stim.nodes[y], d);
          assert stim.nodes[y] != n;
        }
        out := out + [c.value];
      }
      forall d ensures d in out <==> SideFound(side, stim, claims, ahaMin, entries, x + 1, d) {
        assert SideFound(side, stim, claims, ahaMin, entries, x + 1, d)
          <==> (|| SideFound(side, stim, claims, ahaMin, entries, x, d)
                || Yields(side, stim, claims, ahaMin, entries, n, d));
      }
    }
  }

  lemma FoundMore(sides: seq<Side>, i: nat, stim: Stimulus, claims: set<ClaimId>, ahaMin: real, entries: seq<Entry>,
                  more: seq<Candidate>)
    requires i < |sides| && forall c :: c in more <==>
             SideFound(sides[i], stim, claims, ahaMin, entries, |stim.nodes|, c)
    ensures forall c :: Found(sides[..i + 1], stim, claims, ahaMin, entries, c) <==>
            Found(sides[..i], stim, claims, ahaMin, entries, c) || c in more
  {
    forall c
      ensures Found(sides[..i + 1], stim, claims, ahaMin, entries, c) <==>
              Found(sides[..i], stim, claims, ahaMin, entries, c) || c in more
    {
      if Found(sides[..i + 1], stim, claims, ahaMin, entries, c) {
        var k, n :| 0 <= k < i + 1 && n in stim.nodes && Yields(sides[..i + 1][k], stim, claims, ahaMin, entries, n, c);
        if k < i {
          assert sides[..i][k] == sides[..i + 1][k];
        } else {
          var x :| 0 <= x < |stim.nodes| && stim.nodes[x] == n;
          assert SideFound(sides[i], stim, claims, ahaMin, entries, |stim.nodes|, c);
        }
      }
      if Found(sides[..i], stim, claims, ahaMin, entries, c) {
        var k, n :| 0 <= k < i && n in stim.nodes && Yields(sides[..i][k], stim, claims, ahaMin, entries, n, c);
        assert sides[..i][k] == sides[..i + 1][k];
      }
      if c in more {
        var x :| 0 <= x < |stim.nodes| && Yields(sides[i], stim, claims, ahaMin, entries, stim.nodes[x], c);
        assert sides[..i + 1][i] == sides[i] && stim.nodes[x] in stim.nodes;
      }
    }
  }

  lemma PairsMore(sides: seq<Side>, i: nat, stim: Stimulus, claims: set<ClaimId>, ahaMin: real, entries: seq<Entry>,
                  found: seq<Candidate>, more: seq<Candidate>)
    requires i < |sides| && DistinctNeeds(sides) && OnePerPair(found) && OnePerPair(more)
    requires forall c :: c in found <==> Found(sides[..i], stim, claims, ahaMin, entries, c)
    requires forall c :: c in more <==> SideFound(sides[i], stim, claims, ahaMin, entries, |stim.nodes|, c)
    ensures OnePerPair(found + more)
  {
    forall c, d | c in found && d in more ensures c.need != d.need {
      assert Found(sides[..i], stim, claims, ahaMin, entries, c);
      var k, n :| 0 <= k < i && n in stim.nodes && Yields(sides[..i][k], stim, claims, ahaMin, entries, n, c);
      assert SideFound(sides[i], stim, claims, ahaMin, entries, |stim.nodes|, d);
      assert sides[k].info.need != sides[i].info.need;
    }
    var all := found + more;
    forall x, y | 0 <= x < y < |all| ensures all[x].need != all[y].need || all[x].resource != all[y].resource {
      if x < |found| <= y {
        assert all[x] in found && all[y] in more;
      }
    }
  }

  /** One candidate per pair is a matter of counting, so sorting keeps it. */
  lemma PairsSorted(a: seq<Candidate>, b: seq<Candidate>)
    requires OnePerPair(a) && multiset(a) == multiset(b)
    ensures OnePerPair(b)
  {
    DistinctMultiset(a, b);
    SameElems(a, b);
    forall i, j | 0 <= i < j < |b| ensures b[i].need != b[j].need || b[i].resource != b[j].resource {
      assert b[i] in a && b[j] in a;
      var x :| 0 <= x < |a| && a[x] == b[i];
      var y :| 0 <= y < |a| && a[y] == b[j];
      assert x != y;
    }
  }

  // ----- the needs record ------------------------------------------------------------------------------------

  datatype Closure = Closure(need: NeedId, reason: string)

  /** What the library keeps between calls. */
  datatype State = State(registered: seq<NeedInfo>, closed: seq<Closure>, entries: seq<Entry>)

  /** What a build and the documents visible in a scope contribute to a call: the needs the build's claims
      raise, which claims can be seen, and the spread and retrieval results, taken as given. */
  datatype World = World(raised: seq<NeedInfo>, visible: ClaimId -> bool, claims: set<ClaimId>,
                         anchors: NeedId -> set<Node>, reach: NeedId -> Reach)

  predicate IsClosed(closed: seq<Closure>, need: NeedId) {
    exists i :: 0 <= i < |closed| && closed[i].need == need
  }

  predicate SeenIn(w: World, info: NeedInfo) {
    info.claim.Some? && w.visible(info.claim.value)
  }

  predicate ScopeFits(info: NeedInfo, scope: Scope) {
    forall k :: k in scope && k in info.scope ==> info.scope[k] == scope[k]
  }

  function StandsRaised(w: World, closed: seq<Closure>): NeedInfo -> bool {
    (info: NeedInfo) => !IsClosed(closed, info.need) && SeenIn(w, info)
  }

  function StandsRegistered(closed: seq<Closure>, scope: Scope): NeedInfo -> bool {
    (info: NeedInfo) => !IsClosed(closed, info.need) && ScopeFits(info, scope)
  }

  /** The standing needs: raised ones in sight and registered ones of the scope, minus the closed. */
  function NeedsOf(w: World, s: State, scope: Scope): seq<NeedInfo> {
    Filter(w.raised, StandsRaised(w, s.closed)) + Filter(s.registered, StandsRegistered(s.closed, scope))
  }

  ghost predicate NeedsDistinct(infos: seq<NeedInfo>) {
    forall i, j :: 0 <= i < j < |infos| ==> infos[i].need != infos[j].need
  }

  /** The build's need nodes are the keys of a table, and none carries a registered id. */
  ghost predicate WorldOk(w: World) {
    NeedsDistinct(w.raised) && forall info :: info in w.raised ==> info.need.Raised?
  }

  ghost predicate RegisteredOk(s: State) {
    NeedsDistinct(s.registered) && forall info :: info in s.registered ==>
      info.need == Registered(info.text, info.scope) && info.claim == None
  }

  lemma {:induction false} FilterNeeds(infos: seq<NeedInfo>, keep: NeedInfo -> bool)
    requires NeedsDistinct(infos)
    ensures NeedsDistinct(Filter(infos, keep))
  {
    if infos != [] {
      var front, last := infos[..|infos| - 1], infos[|infos| - 1];
      assert infos == front + [last];
      FilterNeeds(front, keep);
      FilterSnoc(front, last, keep);
      forall x | x in front ensures x.need != last.need {
        var i :| 0 <= i < |front| && front[i] == x;
        assert infos[i].need != infos[|infos| - 1].need;
      }
      NeedsSnoc(Filter(front, keep), last);
    }
  }

  lemma NeedsSnoc(infos: seq<NeedInfo>, last: NeedInfo)
    requires NeedsDistinct(infos)
    ensures (forall x :: x in infos ==> x.need != last.need) ==> NeedsDistinct(infos + [last])
  {
  }

  /** No need stands twice, and no closed one stands. */
  lemma StandingNeeds(w: World, s: State, scope: Scope)
    requires WorldOk(w) && RegisteredOk(s)
    ensures NeedsDistinct(NeedsOf(w, s, scope))
    ensures forall info :: info in NeedsOf(w, s, scope) ==> !IsClosed(s.closed, info.need)
  {
    FilterNeeds(w.raised, StandsRaised(w, s.closed));
    FilterNeeds(s.registered, StandsRegistered(s.closed, scope));
  }

  /** A need stands exactly when it is not closed and either its claim raises it and is in sight, or it is registered
      and no scope both name sets it apart. */
  lemma StandsExactly(w: World, s: State, scope: Scope, info: NeedInfo)
    ensures info in NeedsOf(w, s, scope) <==>
            && (forall c :: c in s.closed ==> c.need != info.need)
            && (|| (info in w.raised && info.claim.Some? && w.visible(info.claim.value))
                || (info in s.registered && forall k :: k in info.scope && k in scope ==> info.scope[k] == scope[k]))
  {
    var raised, registered := Filter(w.raised, StandsRaised(w, s.closed)),
                              Filter(s.registered, StandsRegistered(s.closed, scope));
    assert info in raised + registered <==> info in raised || info in registered;
    assert IsClosed(s.closed, info.need) <==> exists c :: c in s.closed && c.need == info.need;
  }

  // ----- the sides a search takes ------------------------------------------------------------------------------

  /** The need's side: a need with a claim has one; one known by its text alone has one when something in
      the corpus anchors it or it has a subject. */
  function SideOf(w: World, info: NeedInfo): Option<Side> {
    if info.claim.Some? then Some(Side(info, {}, w.reach(info.need)))
    else if info.text != "" && (w.anchors(info.need) != {} || info.subject != "")
    then Some(Side(info, w.anchors(info.need), w.reach(info.need)))
    else None
  }

  function SidesOf(w: World, needs: seq<NeedInfo>): seq<Side> {
    if needs == [] then []
    else
      var front, last := SidesOf(w, needs[..|needs| - 1]), SideOf(w, needs[|needs| - 1]);
      if last.Some? then front + [last.value] else front
  }

  /** Exactly the needs that have a side, each once. */
  lemma {:induction false} SidesExact(w: World, needs: seq<NeedInfo>)
    requires NeedsDistinct(needs)
    ensures DistinctNeeds(SidesOf(w, needs))
    ensures forall x :: x in SidesOf(w, needs) <==> x.info in needs && SideOf(w, x.info) == Some(x)
  {
    if needs != [] {
      var front, last := needs[..|needs| - 1], needs[|needs| - 1];
      assert needs == front + [last];
      SidesExact(w, front);
      forall x | x in SidesOf(w, front) ensures x.info.need != last.need {
        var i :| 0 <= i < |front| && front[i] == x.info;
        assert needs[i].need != last.need;
      }
    }
  }

  /** What stands in the scope and takes part in a search. */
  function SearchSides(w: World, s: State, scope: Scope): seq<Side> {
    SidesOf(w, NeedsOf(w, s, scope))
  }

  // ----- what a search may return ------------------------------------------------------------------------------

  const MAX_FOUND := 6

  ghost predicate OnePerResource(out: seq<Candidate>) {
    forall i, j :: 0 <= i < j < |out| ==> out[i].resource != out[j].resource
  }

  /** A search never offers anything for a closed need, nor what the ledger bars; at most six candidates,
      one per resource. */
  ghost predicate SearchOk(s: State, out: seq<Candidate>) {
    && |out| <= MAX_FOUND && OnePerResource(out)
    && forall c :: c in out ==> !IsClosed(s.closed, c.need) && !IsBlocked(s.entries, KeyOf(c))
  }

  /** What is offered for c: something at least as strong for its resource, or six things at least as strong. */
  ghost predicate Served(out: seq<Candidate>, c: Candidate) {
    || (exists d :: d in out && d.resource == c.resource && d.strength >= c.strength)
    || (|out| == MAX_FOUND && forall d :: d in out ==> d.strength >= c.strength)
  }

  /** The first candidate of each resource in sight, up to six: as the list is sorted, the strongest. */
  method Unique(cands: seq<Candidate>, w: World) returns (out: seq<Candidate>)
    requires SortedBy(cands, StrengthKey())
    ensures |out| <= MAX_FOUND && OnePerResource(out) && SortedBy(out, StrengthKey())
    ensures forall c :: c in out ==> Leads(cands, w, c)
    ensures forall c :: c in cands && w.visible(c.resource) ==> Served(out, c)
  {
    var uniq: seq<Candidate> := [];
    for n := 0 to |cands|
      invariant OnePerResource(uniq) && SortedBy(uniq, StrengthKey())
      invariant forall c :: c in uniq ==> Leads(cands, w, c)
      invariant forall c, i :: c in uniq && n <= i < |cands| ==> cands[i].strength <= c.strength
      invariant Covered(cands, w, n, uniq)
    {
      var c := cands[n];
      forall i | n <= i < |cands| ensures cands[i].strength <= c.strength {
        assert StrengthKey()(cands[n]) <= StrengthKey()(cands[i]);
      }
      if !w.visible(c.resource) || HasResource(uniq, c.resource) {
        CoveredStep(cands, w, n, uniq, uniq);
        continue;
      }
      FirstLeads(cands, w, n, uniq);
      CoveredMore(uniq, c);
      CoveredStep(cands, w, n, uniq, uniq + [c]);
      uniq := uniq + [c];
    }
    out := uniq[..Min(MAX_FOUND, |uniq|)];
    forall c | c in out ensures Leads(cands, w, c) {
      assert c in uniq;
    }
    forall c | c in cands && w.visible(c.resource) ensures Served(out, c) {
      CutServes(cands, w, uniq, c);
    }
  }

  lemma CutServes(cands: seq<Candidate>, w: World, uniq: seq<Candidate>, c: Candidate)
    requires SortedBy(uniq, StrengthKey()) && Covered(cands, w, |cands|, uniq)
    requires forall d :: d in uniq ==> Leads(cands, w, d)
    requires c in cands && w.visible(c.resource)
    ensures Served(uniq[..Min(MAX_FOUND, |uniq|)], c)
  {
    var out := uniq[..Min(MAX_FOUND, |uniq|)];
    var i :| 0 <= i < |cands| && cands[i] == c;
    var j :| 0 <= j < |uniq| && uniq[j].resource == c.resource;
    assert uniq[j] in uniq && Leads(cands, w, uniq[j]);
    if j < |out| {
      assert out[j] in out;
    } else {
      forall d | d in out ensures d.strength >= c.strength {
        var k :| 0 <= k < |out| && out[k] == d;
        assert StrengthKey()(uniq[k]) <= StrengthKey()(uniq[j]);
      }
    }
  }

  /** A listed candidate in sight, and the strongest one listed for its resource. */
  ghost predicate Leads(cands: seq<Candidate>, w: World, c: Candidate) {
    && c in cands && w.visible(c.resource)
    && forall i :: 0 <= i < |cands| && cands[i].resource == c.resource ==> cands[i].strength <= c.strength
  }

  /** Every resource in sight among the first n has a candidate kept. */
  ghost predicate Covered(cands: seq<Candidate>, w: World, n: nat, uniq: seq<Candidate>) {
    forall i :: 0 <= i < n && i < |cands| && w.visible(cands[i].resource) ==> HasResource(uniq, cands[i].resource)
  }

  lemma CoveredMore(uniq: seq<Candidate>, c: Candidate)
    ensures HasResource(uniq + [c], c.resource)
    ensures forall r :: HasResource(uniq, r) ==> HasResource(uniq + [c], r)
  {
    assert (uniq + [c])[|uniq|] == c;
    forall r | HasResource(uniq, r) ensures HasResource(uniq + [c], r) {
      var i :| 0 <= i < |uniq| && uniq[i].resource == r;
      assert (uniq + [c])[i].resource == r;
    }
  }

  lemma CoveredStep(cands: seq<Candidate>, w: World, n: nat, uniq: seq<Candidate>, more: seq<Candidate>)
    requires n < |cands| && Covered(cands, w, n, uniq)
    requires forall r :: HasResource(uniq, r) ==> HasResource(more, r)
    requires w.visible(cands[n].resource) ==> HasResource(more, cands[n].resource)
    ensures Covered(cands, w, n + 1, more)
  {
  }

  /** In a list sorted by strength the first candidate of a resource is its strongest. */
  lemma FirstLeads(cands: seq<Candidate>, w: World, n: nat, uniq: seq<Candidate>)
    requires SortedBy(cands, StrengthKey()) && n < |cands| && Covered(cands, w, n, uniq)
    requires w.visible(cands[n].resource) && !HasResource(uniq, cands[n].resource)
    ensures Leads(cands, w, cands[n])
  {
    forall i | 0 <= i < |cands| && cands[i].resource == cands[n].resource
      ensures cands[i].strength <= cands[n].strength
    {
      if i >= n {
        assert StrengthKey()(cands[n]) <= StrengthKey()(cands[i]);
      }
    }
  }

  predicate HasResource(out: seq<Candidate>, resource: ClaimId) {
    exists i :: 0 <= i < |out| && out[i].resource == resource
  }

  // ----- steps and runs ---------------------------------------------------------------------------------------

  datatype Step =
    | Register(info: NeedInfo)
    | Close(need: NeedId, reason: string)
    | Search(found: seq<Candidate>)
    | Judge(cand: Candidate, verdict: Option<Verdict>)

  ghost predicate IsRegistered(registered: seq<NeedInfo>, need: NeedId) {
    exists i :: 0 <= i < |registered| && registered[i].need == need
  }

  /** One step of the library; an unparseable judgement changes nothing. */
  ghost predicate StepOk(s: State, step: Step, t: State) {
    match step
    case Register(info) => t == if IsRegistered(s.registered, info.need) then s
      else s.(registered := s.registered + [info])
    case Close(need, reason) => t == s.(closed := s.closed + [Closure(need, reason)])
    case Search(found) => t == s && SearchOk(s, found)
    case Judge(c, verdict) =>
      t.registered == s.registered
      && (verdict == None ==> t == s)
      && (verdict.Some? ==> t.entries == s.entries + [Entry(KeyOf(c), verdict.value)])
      && (verdict.Some? && Settling(verdict.value) ==> exists why :: t.closed == s.closed + [Closure(c.need, why)])
      && (verdict.Some? && !Settling(verdict.value) ==> t.closed == s.closed)
  }

  class Library {
    var registered: seq<NeedInfo>
    var closed: seq<Closure>
    var entries: seq<Entry>

    constructor ()
      ensures Contents() == State([], [], []) && RegisteredOk(Contents())
    {
      registered, closed, entries := [], [], [];
    }

    function Contents(): State
      reads this
    {
      State(registered, closed, entries)
    }

    /** Registering a text in a scope again changes nothing, closed or not. */
    method RegisterNeed(text: string, scope: Scope, subject: string) returns (need: NeedId, ghost info: NeedInfo)
      requires RegisteredOk(Contents())
      modifies this
      ensures need == info.need == Registered(text, scope)
      ensures StepOk(old(Contents()), Register(info), Contents()) && RegisteredOk(Contents())
    {
      need := Registered(text, scope);
      var entry := NeedInfo(need, None, text, subject, scope);
      info := entry;
      var known := false;
      for i := 0 to |registered|
        invariant known <==> exists j :: 0 <= j < i && registered[j].need == need
      {
        if registered[i].need == need {
          known := true;
        }
      }
      if !known {
        registered := registered + [entry];
      }
    }

    method CloseNeed(need: NeedId, reason: string)
      modifies this`closed
      ensures StepOk(old(Contents()), Close(need, reason), Contents())
    {
      closed := closed + [Closure(need, reason)];
    }

    method StandingSides(w: World, scope: Scope) returns (sides: seq<Side>)
      ensures sides == SearchSides(w, Contents(), scope)
    {
      var needs := NeedsOf(w, Contents(), scope);
      sides := [];
      for n := 0 to |needs|
        invariant sides == SidesOf(w, needs[..n])
      {
        assert needs[..n + 1][..n] == needs[..n];
        var info := needs[n];
        if info.claim.Some? {
          sides := sides + [Side(info, {}, w.reach(info.need))];
        } else if info.text != "" {
          var anchors := w.anchors(info.need);
          if anchors == {} && info.subject == "" {
            continue;
          }
          sides := sides + [Side(info, anchors, w.reach(info.need))];
        }
      }
      assert needs[..|needs|] == needs;
    }

    /** The arithmetic search over the standing needs: what it offers was found for one of them and is in
        sight, one candidate a resource, the strongest first; and every resource in sight that was found is
        offered, unless six at least as strong are. */
    method Aha(w: World, scope: Scope, stim: Stimulus, ahaMin: real) returns (out: seq<Candidate>)
      requires WorldOk(w) && RegisteredOk(Contents()) && Distinct(stim.nodes)
      ensures StepOk(Contents(), Search(out), Contents()) && SortedBy(out, StrengthKey())
      ensures var sides := SearchSides(w, Contents(), scope);
              && (forall c :: c in out ==> Found(sides, stim, w.claims, ahaMin, entries, c) && w.visible(c.resource))
              && (forall c :: Found(sides, stim, w.claims, ahaMin, entries, c) && w.visible(c.resource) ==>
                  Served(out, c))
    {
      var sides := StandingSides(w, scope);
      StandingNeeds(w, Contents(), scope);
      SidesExact(w, NeedsOf(w, Contents(), scope));
      var cands := FindCandidates(sides, stim, w.claims, ahaMin, entries);
      out := Unique(cands, w);
      forall c | c in out ensures !IsClosed(closed, c.need) {
        assert Found(sides, stim, w.claims, ahaMin, entries, c);
        var i, n :| 0 <= i < |sides| && n in stim.nodes && Yields(sides[i], stim, w.claims, ahaMin, entries, n, c);
        assert sides[i] in sides;
      }
    }

    /** The model is asked at most twice. Without a parseable verdict nothing is recorded; a settling
        verdict also closes the need. */
    method JudgeCandidate(cand: Candidate, ask: nat -> Option<Verdict>) returns (verdict: Option<Verdict>)
      modifies this
      ensures StepOk(old(Contents()), Judge(cand, verdict), Contents())
      ensures verdict == if ask(0).Some? then ask(0) else ask(1)
      ensures verdict in {Some(Satisfies), Some(Stale)} ==>
                exists why :: closed == old(closed) + [Closure(cand.need, why)]
      ensures verdict !in {Some(Satisfies), Some(Stale)} ==> closed == old(closed)
    {
      verdict := ask(0);
      if verdict.None? {
        verdict := ask(1);
      }
      if verdict.None? {
        return;
      }
      entries := entries + [Entry(KeyOf(cand), verdict.value)];
      if Settling(verdict.value) {
        var why := if verdict.value == Satisfies then "satisfies" else "stale";
        ghost var before := closed;
        CloseNeed(cand.need, why);
        assert closed == before + [Closure(cand.need, why)];
      }
    }
  }

  ghost predicate Run(states: seq<State>, steps: seq<Step>) {
    && |states| == |steps| + 1
    && forall i :: 0 <= i < |steps| ==> StepOk(states[i], steps[i], states[i + 1])
  }

  lemma {:induction false} RecordsGrow(states: seq<State>, steps: seq<Step>, i: nat, j: nat)
    requires Run(states, steps) && i <= j < |states|
    ensures states[i].closed <= states[j].closed && states[i].entries <= states[j].entries
    decreases j - i
  {
    if i < j {
      assert StepOk(states[i], steps[i], states[i + 1]);
      RecordsGrow(states, steps, i + 1, j);
    }
  }

  /** Once closed, a need never stands again and no later search offers anything for it, though it be
      registered anew. */
  lemma ClosedForGood(states: seq<State>, steps: seq<Step>, i: nat, j: nat, need: NeedId, w: World, scope: Scope)
    requires Run(states, steps) && i <= j < |steps| && IsClosed(states[i].closed, need)
    ensures forall info :: info in NeedsOf(w, states[j], scope) ==> info.need != need
    ensures steps[j].Search? ==> forall c :: c in steps[j].found ==> c.need != need
  {
    RecordsGrow(states, steps, i, j);
    var k :| 0 <= k < |states[i].closed| && states[i].closed[k].need == need;
    assert states[j].closed[k] == states[i].closed[k];
    assert IsClosed(states[j].closed, need);
    assert StepOk(states[j], steps[j], states[j + 1]);
  }

  /** A judged triple is never offered again, and after a settling verdict neither is its need with its
      resource, nor anything for its need. */
  lemma JudgedForGood(states: seq<State>, steps: seq<Step>, i: nat, j: nat)
    requires Run(states, steps) && i < j < |steps|
    requires steps[i].Judge? && steps[i].verdict.Some? && steps[j].Search?
    ensures forall d :: d in steps[j].found ==> KeyOf(d) != KeyOf(steps[i].cand)
    ensures steps[i].verdict.value in {Satisfies, Stale} ==>
              forall d :: d in steps[j].found ==> d.need != steps[i].cand.need
  {
    var c := steps[i].cand;
    assert StepOk(states[i], steps[i], states[i + 1]);
    RecordsGrow(states, steps, i + 1, j);
    var e := Entry(KeyOf(c), steps[i].verdict.value);
    var n := |states[i].entries|;
    assert states[i + 1].entries[n] == e && states[j].entries[n] == e;
    assert e in states[j].entries;
    assert StepOk(states[j], steps[j], states[j + 1]);
    forall d | d in steps[j].found ensures KeyOf(d) != KeyOf(c) {
      assert !IsBlocked(states[j].entries, KeyOf(d));
      assert !Bars(e, KeyOf(d));
    }
    if Settling(steps[i].verdict.value) {
      var m := |states[i].closed|;
      assert states[i + 1].closed[m].need == c.need && states[j].closed[m].need == c.need;
      assert IsClosed(states[j].closed, c.need);
    }
  }

  // ----- when ledger keys stay unique ----------------------------------------------------------------------

  function OtherThan(c: Candidate): Candidate -> bool {
    (d: Candidate) => d != c
  }

  /** Found by the last search and not judged since. */
  function Pending(steps: seq<Step>): seq<Candidate> {
    if steps == [] then []
    else
      var front := Pending(steps[..|steps| - 1]);
      match steps[|steps| - 1]
      case Search(found) => found
      case Judge(c, _) => Filter(front, OtherThan(c))
      case _ => front
  }

  /** Step i is the last search, it found c, and c was not judged since. */
  ghost predicate LastFound(steps: seq<Step>, c: Candidate, i: int) {
    && 0 <= i < |steps| && steps[i].Search? && c in steps[i].found
    && forall j :: i < j < |steps| ==> !steps[j].Search? && !(steps[j].Judge? && steps[j].cand == c)
  }

  lemma {:induction false} PendingExactly(steps: seq<Step>, c: Candidate)
    ensures c in Pending(steps) <==> exists i :: LastFound(steps, c, i)
  {
    if steps != [] {
      var front, last := steps[..|steps| - 1], steps[|steps| - 1];
      PendingExactly(front, c);
      if last.Search? {
        assert c in last.found ==> LastFound(steps, c, |front|);
        assert forall i :: LastFound(steps, c, i) ==> i == |front|;
      } else {
        assert forall i :: LastFound(steps, c, i) <==>
                 LastFound(front, c, i) && !(last.Judge? && last.cand == c);
      }
    }
  }

  /** Each found candidate is judged at most once before the next search. */
  ghost predicate Disciplined(steps: seq<Step>) {
    forall i :: 0 <= i < |steps| && steps[i].Judge? ==> steps[i].cand in Pending(steps[..i])
  }

  ghost predicate KeysUnique(entries: seq<Entry>) {
    forall i, j :: 0 <= i < j < |entries| ==> entries[i].key != entries[j].key
  }

  ghost predicate KeyFree(entries: seq<Entry>, k: LedgerKey) {
    forall e :: e in entries ==> e.key != k
  }

  ghost predicate PendingOk(entries: seq<Entry>, pending: seq<Candidate>) {
    && (forall c :: c in pending ==> KeyFree(entries, KeyOf(c)))
    && (forall c, d :: c in pending && d in pending && c != d ==> KeyOf(c) != KeyOf(d))
  }

  lemma SearchPending(s: State, found: seq<Candidate>)
    requires SearchOk(s, found)
    ensures PendingOk(s.entries, found)
  {
    forall c | c in found ensures KeyFree(s.entries, KeyOf(c)) {
      forall e | e in s.entries ensures e.key != KeyOf(c) {
        assert !Bars(e, KeyOf(c));
      }
    }
    forall c, d | c in found && d in found && c != d ensures KeyOf(c) != KeyOf(d) {
      var i :| 0 <= i < |found| && found[i] == c;
      var j :| 0 <= j < |found| && found[j] == d;
      assert found[Min(i, j)].resource != found[Max(i, j)].resource;
    }
  }

  /** In a disciplined run the ledger never holds one key twice. */
  lemma {:induction false} KeysStayUnique(states: seq<State>, steps: seq<Step>, n: nat)
    requires Run(states, steps) && Disciplined(steps) && n <= |steps| && states[0].entries == []
    ensures KeysUnique(states[n].entries) && PendingOk(states[n].entries, Pending(steps[..n]))
  {
    if n > 0 {
      KeysStayUnique(states, steps, n - 1);
      var s, step, t := states[n - 1], steps[n - 1], states[n];
      assert StepOk(s, step, t);
      assert steps[..n][..n - 1] == steps[..n - 1];
      match step {
        case Search(found) => SearchPending(s, found);
        case Judge(c, verdict) =>
          assert c in Pending(steps[..n - 1]);
          assert KeyFree(s.entries, KeyOf(c));
        case Register(_) =>
        case Close(_, _) =>
      }
    }
  }
}
