/** The codebook (assoc/codebook.py): leader clustering of terms into cells, their soft assignment, and the
    fast path that files new terms into the old cells while measuring drift. */
module Codebooks {
  import opened Common
  import opened Grouping
  import opened Vectors

  datatype Term = Term(text: string)

  datatype CellRecord = CellRecord(id: nat, members: seq<Term>, centroid: Vec)

  datatype Drift = Drift(forced: nat, filed: nat, doubled: nat, sinceRecluster: nat)

  /** The embedding of a term, normalization, the dot product, and the order numpy's argsort puts
      similarities in (any descending one): taken as given. */
  datatype Geometry = Geometry(vec: Term -> Vec, unit: Vec -> Vec, dot: (Vec, Vec) -> real,
                               descending: seq<real> -> seq<nat>)

  ghost predicate Descends(order: seq<nat>, sims: seq<real>) {
    && |order| == |sims| && Distinct(order)
    && (forall x :: 0 <= x < |order| ==> order[x] < |sims|) && (forall i :: 0 <= i < |sims| ==> i in order)
    && (forall x, y :: 0 <= x < y < |order| && order[x] < |sims| && order[y] < |sims| ==>
        sims[order[x]] >= sims[order[y]])
  }

  ghost predicate GeometryOk(geo: Geometry) {
    forall sims {:trigger geo.descending(sims)} :: Descends(geo.descending(sims), sims)
  }

  function UnitOf(geo: Geometry): Term -> Vec {
    t => geo.unit(geo.vec(t))
  }

  function Sims(cents: seq<Vec>, v: Vec, geo: Geometry): seq<real> {
    seq(|cents|, i requires 0 <= i < |cents| => geo.dot(cents[i], v))
  }

  /** numpy's argmax: the first index of a greatest value. */
  function FirstMax(s: seq<real>): (m: nat)
    requires s != []
    ensures m < |s| && forall i :: 0 <= i < |s| ==> s[i] <= s[m]
    ensures forall i :: 0 <= i < m ==> s[i] < s[m]
  {
    if |s| == 1 then 0
    else
      var m := FirstMax(s[..|s| - 1]);
      if s[|s| - 1] > s[m] then |s| - 1 else m
  }

  // ----- leader clustering -----------------------------------------------------------------------

  /** The cells under construction: members, running sums of unit vectors, normalized sums. */
  datatype Leaders = Leaders(groups: seq<seq<Term>>, sums: seq<Vec>, cents: seq<Vec>)

  predicate Aligned(ls: Leaders) {
    |ls.groups| == |ls.sums| == |ls.cents|
  }

  function Join(ls: Leaders, t: Term, best: nat, geo: Geometry): Leaders
    requires Aligned(ls) && best < |ls.groups|
  {
    var sum := AddVec(ls.sums[best], UnitOf(geo)(t));
    Leaders(ls.groups[best := ls.groups[best] + [t]], ls.sums[best := sum], ls.cents[best := geo.unit(sum)])
  }

  function Lead(ls: Leaders, t: Term, geo: Geometry): Leaders {
    Leaders(ls.groups + [[t]], ls.sums + [UnitOf(geo)(t)], ls.cents + [UnitOf(geo)(t)])
  }

  /** A term joins the nearest cell if that is near enough, else it leads a new one. */
  function Place(ls: Leaders, t: Term, geo: Geometry, threshold: real): (r: Leaders)
    requires Aligned(ls)
    ensures Aligned(r)
  {
    var sims := Sims(ls.cents, UnitOf(geo)(t), geo);
    if sims != [] && sims[FirstMax(sims)] >= threshold then Join(ls, t, FirstMax(sims), geo) else Lead(ls, t, geo)
  }

  type Cells = ls: Leaders | Aligned(ls) witness Leaders([], [], [])

  function Placer(geo: Geometry, threshold: real): (Cells, Term) -> Cells {
    (ls, t) => Place(ls, t, geo, threshold)
  }

  function PlaceAll(place: (Cells, Term) -> Cells, terms: seq<Term>): Cells {
    if terms == [] then Leaders([], [], []) else place(PlaceAll(place, terms[..|terms| - 1]), terms[|terms| - 1])
  }

  /** The cells after every term, in order, has been placed. */
  function Led(terms: seq<Term>, geo: Geometry, threshold: real): Cells {
    PlaceAll(Placer(geo, threshold), terms)
  }

  lemma LedAppend(terms: seq<Term>, t: Term, geo: Geometry, threshold: real)
    ensures Led(terms + [t], geo, threshold) == Placer(geo, threshold)(Led(terms, geo, threshold), t)
  {
    assert (terms + [t])[..|terms|] == terms;
  }

  ghost predicate CellOk(ls: Leaders, i: nat, geo: Geometry)
    requires Aligned(ls) && i < |ls.groups|
  {
    && ls.groups[i] != []
    && ls.sums[i] == Total(ls.groups[i], UnitOf(geo))
    && ls.cents[i] == if |ls.groups[i]| == 1 then ls.sums[i] else geo.unit(ls.sums[i])
  }

  ghost predicate CellsHold(ls: Leaders, terms: seq<Term>, geo: Geometry)
    requires Aligned(ls)
  {
    && Bag(ls.groups) == multiset(terms)
    && forall i {:trigger CellOk(ls, i, geo)} :: 0 <= i < |ls.groups| ==> CellOk(ls, i, geo)
  }

  lemma JoinKeeps(ls: Leaders, terms: seq<Term>, t: Term, best: nat, geo: Geometry)
    requires Aligned(ls) && CellsHold(ls, terms, geo) && best < |ls.groups|
    ensures CellsHold(Join(ls, t, best, geo), terms + [t], geo)
  {
    BagUpdate(ls.groups, best, [t]);
    forall i | 0 <= i < |ls.groups| ensures CellOk(Join(ls, t, best, geo), i, geo) {
      JoinedCell(ls, t, best, geo, i);
    }
  }

  lemma JoinedCell(ls: Leaders, t: Term, best: nat, geo: Geometry, i: nat)
    requires Aligned(ls) && best < |ls.groups| && i < |ls.groups|
    requires forall i {:trigger CellOk(ls, i, geo)} :: 0 <= i < |ls.groups| ==> CellOk(ls, i, geo)
    ensures CellOk(Join(ls, t, best, geo), i, geo)
  {
    assert CellOk(ls, i, geo);
    TotalAppend(ls.groups[best], t, UnitOf(geo));
  }

  lemma LeadKeeps(ls: Leaders, terms: seq<Term>, t: Term, geo: Geometry)
    requires Aligned(ls) && CellsHold(ls, terms, geo)
    ensures CellsHold(Lead(ls, t, geo), terms + [t], geo)
  {
    var next := Lead(ls, t, geo);
    BagAppend(ls.groups, [t]);
    TotalOne(t, UnitOf(geo));
    forall i | 0 <= i < |next.groups| ensures CellOk(next, i, geo) {
      assert i < |ls.groups| ==> CellOk(ls, i, geo);
    }
  }

  lemma PlaceKeeps(ls: Leaders, terms: seq<Term>, t: Term, geo: Geometry, threshold: real)
    requires Aligned(ls) && CellsHold(ls, terms, geo)
    ensures CellsHold(Place(ls, t, geo, threshold), terms + [t], geo)
  {
    var sims := Sims(ls.cents, UnitOf(geo)(t), geo);
    if sims != [] && sims[FirstMax(sims)] >= threshold {
      JoinKeeps(ls, terms, t, FirstMax(sims), geo);
    } else {
      LeadKeeps(ls, terms, t, geo);
    }
  }

  /** Placing one more term keeps what the cells hold. */
  ghost predicate KeepsCells(place: (Cells, Term) -> Cells, geo: Geometry) {
    forall ls: Cells, terms, t {:trigger place(ls, t), CellsHold(ls, terms, geo)} ::
      CellsHold(ls, terms, geo) ==> CellsHold(place(ls, t), terms + [t], geo)
  }

  lemma {:induction false} AllPlacedHold(place: (Cells, Term) -> Cells, terms: seq<Term>, geo: Geometry)
    requires KeepsCells(place, geo)
    ensures CellsHold(PlaceAll(place, terms), terms, geo)
  {
    if terms != [] {
      var front, last := terms[..|terms| - 1], terms[|terms| - 1];
      AllPlacedHold(place, front, geo);
      assert CellsHold(place(PlaceAll(place, front), last), front + [last], geo);
      assert terms == front + [last];
    }
  }

  /** Leader clustering files every given term once, into cells none of which is empty; a cell's
      running sum is the sum of its members' unit vectors. */
  lemma LedHolds(terms: seq<Term>, geo: Geometry, threshold: real)
    ensures CellsHold(Led(terms, geo, threshold), terms, geo)
  {
    var place := Placer(geo, threshold);
    forall ls: Cells, before, t | CellsHold(ls, before, geo) ensures CellsHold(place(ls, t), before + [t], geo) {
      PlaceKeeps(ls, before, t, geo, threshold);
    }
    AllPlacedHold(place, terms, geo);
  }

  // ----- soft assignment -----------------------------------------------------------------------------

  const SOFT_DISCOUNT := 0.6

  type Assignment = seq<(nat, real)>

  predicate WithinMargin(sims: seq<real>, best: nat, threshold: real, margin: real, j: nat) {
    best < |sims| && j < |sims| && sims[best] - sims[j] <= margin && sims[j] >= threshold - margin
  }

  /** A nearest cell in full, then at most three others within the margin, at a discount. */
  ghost predicate SoftOk(a: Assignment, sims: seq<real>, threshold: real, margin: real) {
    && 1 <= |a| <= 4
    && sims != [] && a[0] == (FirstMax(sims), 1.0)
    && (forall x :: 1 <= x < |a| ==> a[x].1 == SOFT_DISCOUNT && WithinMargin(sims, a[0].0, threshold, margin, a[x].0))
    && (forall x, y :: 1 <= x < y < |a| ==> a[x].0 != a[y].0)
  }

  /** Cell j is one of the three the scan looks at after the first of the order, and near enough. */
  ghost predicate Runner(order: seq<nat>, sims: seq<real>, threshold: real, margin: real, upto: nat, j: nat) {
    exists z :: 1 <= z < upto && z < |order| && order[z] == j
      && WithinMargin(sims, if sims == [] then 0 else FirstMax(sims), threshold, margin, j)
  }

  ghost predicate Reached(a: Assignment, j: nat) {
    exists x :: 1 <= x < |a| && a[x].0 == j
  }

  lemma RunnerStep(order: seq<nat>, sims: seq<real>, threshold: real, margin: real, x: nat, j: nat)
    requires sims != [] && 1 <= x < |order|
    ensures Runner(order, sims, threshold, margin, x + 1, j)
       <==> (|| Runner(order, sims, threshold, margin, x, j)
             || (order[x] == j && WithinMargin(sims, FirstMax(sims), threshold, margin, j)))
  {
  }

  lemma ReachedStep(a: Assignment, k: nat, w: real, j: nat)
    requires |a| >= 1
    ensures Reached(a + [(k, w)], j) <==> Reached(a, j) || j == k
  {
    assert (a + [(k, w)])[|a|].0 == k;
    if Reached(a, j) {
      var x :| 1 <= x < |a| && a[x].0 == j;
      assert (a + [(k, w)])[x].0 == j;
    }
  }

  /** The nearest cell, then exactly the near enough ones among the second to fourth of the order. */
  ghost predicate SoftList(out: Assignment, order: seq<nat>, sims: seq<real>, threshold: real, margin: real) {
    SoftOk(out, sims, threshold, margin) && forall j :: Reached(out, j) <==>
      Runner(order, sims, threshold, margin, 4, j)
  }

  /** The cell is one of the first four of the order. */
  ghost predicate InFront(order: seq<nat>, j: nat) {
    exists z :: 0 <= z < 4 && z < |order| && order[z] == j
  }

  /** What is meant: besides the nearest, listed are exactly the other near enough cells among the first four. */
  ghost predicate Faithful(out: Assignment, order: seq<nat>, sims: seq<real>, threshold: real, margin: real)
    requires sims != []
  {
    var best := FirstMax(sims);
    forall j :: Reached(out, j) <==> j != best && InFront(order, j) && WithinMargin(sims, best, threshold, margin, j)
  }

  lemma RunnerInFront(order: seq<nat>, sims: seq<real>, threshold: real, margin: real, j: nat)
    requires sims != [] && Descends(order, sims)
    ensures Runner(order, sims, threshold, margin, 4, j)
       <==> j != order[0] && InFront(order, j) && WithinMargin(sims, FirstMax(sims), threshold, margin, j)
  {
    if InFront(order, j) && j != order[0] {
      var z :| 0 <= z < 4 && z < |order| && order[z] == j;
      assert z >= 1;
    }
  }

  /** However ties are broken, the order begins with a cell as near as the nearest. */
  lemma FrontIsNearest(order: seq<nat>, sims: seq<real>)
    requires sims != [] && Descends(order, sims)
    ensures order[0] < |sims| && sims[order[0]] == sims[FirstMax(sims)]
  {
    var best := FirstMax(sims);
    assert best in order;
    var z :| 0 <= z < |order| && order[z] == best;
    assert z > 0 ==> sims[order[0]] >= sims[order[z]];
  }

  /** The assignment lists what is meant if and only if the order begins with the first of the nearest cells,
      or no cell is near enough to be listed beside it. */
  lemma SoftFaithful(out: Assignment, order: seq<nat>, sims: seq<real>, threshold: real, margin: real)
    requires sims != [] && Descends(order, sims) && SoftList(out, order, sims, threshold, margin)
    ensures Faithful(out, order, sims, threshold, margin)
       <==> order[0] == FirstMax(sims) || margin < 0.0 || sims[FirstMax(sims)] < threshold - margin
  {
    var best, first := FirstMax(sims), order[0];
    FrontIsNearest(order, sims);
    forall j ensures Runner(order, sims, threshold, margin, 4, j)
                <==> j != first && InFront(order, j) && WithinMargin(sims, best, threshold, margin, j)
    {
      RunnerInFront(order, sims, threshold, margin, j);
    }
    assert InFront(order, first);
    if first != best && margin >= 0.0 && sims[best] >= threshold - margin {
      assert WithinMargin(sims, best, threshold, margin, first) && !Reached(out, first);
    }
  }

  /** The nearest cell is listed a second time exactly when it is near enough and stands second to fourth in
      the order; then the cell that stands first is not listed at all. */
  lemma NearestTwice(out: Assignment, order: seq<nat>, sims: seq<real>, threshold: real, margin: real)
    requires sims != [] && Descends(order, sims) && SoftList(out, order, sims, threshold, margin)
    ensures var best := FirstMax(sims);
            Reached(out, best) <==> margin >= 0.0 && sims[best] >= threshold - margin
                                    && exists z :: 1 <= z < 4 && z < |order| && order[z] == best
    ensures Reached(out, FirstMax(sims)) ==> out[0].0 != order[0] && !Reached(out, order[0])
  {
    RunnerInFront(order, sims, threshold, margin, FirstMax(sims));
    RunnerInFront(order, sims, threshold, margin, order[0]);
  }

  lemma OnlyRunner(out: Assignment, sims: seq<real>, threshold: real, margin: real, x: nat)
    requires |sims| == 2 && SoftList(out, [1, 0], sims, threshold, margin) && 1 <= x < |out|
    ensures out[x] == (0, SOFT_DISCOUNT)
  {
    assert Reached(out, out[x].0);
    var z :| 1 <= z < 4 && z < |[1, 0]| && [1, 0][z] == out[x].0;
  }

  /** Two cells equally near, put in the other order: the first is listed twice, the second not at all. */
  lemma TiedCells(out: Assignment, s: real, threshold: real, margin: real)
    requires margin >= 0.0 && s >= threshold - margin
    requires SoftList(out, [1, 0], [s, s], threshold, margin)
    ensures Descends([1, 0], [s, s]) && out == [(0, 1.0), (0, SOFT_DISCOUNT)]
  {
    var sims := [s, s];
    assert FirstMax(sims) == 0 by {
      assert sims[FirstMax(sims)] == s;
    }
    assert Descends([1, 0], sims);
    NearestTwice(out, [1, 0], sims, threshold, margin);
    assert [1, 0][1] == 0;
    assert Reached(out, 0) && !Reached(out, 1);
    forall x | 1 <= x < |out| ensures out[x] == (0, SOFT_DISCOUNT) {
      OnlyRunner(out, sims, threshold, margin, x);
    }
    assert |out| >= 2;
    assert |out| > 2 ==> out[1].0 != out[2].0;
  }

  ghost predicate SoftFor(out: Assignment, v: Vec, cents: seq<Vec>, geo: Geometry, threshold: real, margin: real) {
    var sims := Sims(cents, v, geo);
    SoftList(out, geo.descending(sims), sims, threshold, margin)
  }

  /** The cells a term of this unit vector belongs to. */
  method Soft(v: Vec, cents: seq<Vec>, geo: Geometry, threshold: real, margin: real) returns (out: Assignment)
    requires cents != [] && GeometryOk(geo)
    ensures SoftFor(out, v, cents, geo, threshold, margin)
  {
    var sims := Sims(cents, v, geo);
    var best := FirstMax(sims);
    var order := geo.descending(sims);
    assert Descends(order, sims);
    out := [(best, 1.0)];
    var x := 1;
    while x < |order| && x < 4
      invariant 1 <= x <= 4 && |out| <= x <= |order|
      invariant SoftOk(out, sims, threshold, margin)
      invariant forall j :: Reached(out, j) <==> Runner(order, sims, threshold, margin, x, j)
    {
      var j := order[x];
      ghost var before := out;
      forall y | 1 <= y < |out| ensures out[y].0 != j {
        assert Reached(out, out[y].0);
        var z :| 1 <= z < x && z < |order| && order[z] == out[y].0;
      }
      if WithinMargin(sims, best, threshold, margin, j) {
        out := out + [(j, SOFT_DISCOUNT)];
      }
      forall i ensures Reached(out, i) <==> Runner(order, sims, threshold, margin, x + 1, i) {
        ReachedStep(before, j, SOFT_DISCOUNT, i);
        RunnerStep(order, sims, threshold, margin, x, i);
      }
      x := x + 1;
    }
    forall j ensures Runner(order, sims, threshold, margin, x, j) <==> Runner(order, sims, threshold, margin, 4, j) {
    }
  }

  // ----- the codebook ------------------------------------------------------------------------------

  function GroupsOf(cells: seq<CellRecord>): seq<seq<Term>> {
    seq(|cells|, i requires 0 <= i < |cells| => cells[i].members)
  }

  function CentroidsOf(cells: seq<CellRecord>): seq<Vec> {
    seq(|cells|, i requires 0 <= i < |cells| => cells[i].centroid)
  }

  function Records(ls: Leaders): seq<CellRecord>
    requires Aligned(ls)
  {
    seq(|ls.groups|, i requires 0 <= i < |ls.groups| => CellRecord(i, ls.groups[i], ls.cents[i]))
  }

  function SizesOf(cells: seq<CellRecord>): seq<nat> {
    seq(|cells|, i requires 0 <= i < |cells| => |cells[i].members|)
  }

  /** Every assigned term sits in exactly one cell, once. */
  ghost predicate FiledOnce(cells: seq<CellRecord>, assign: map<Term, Assignment>) {
    NoneTwice(GroupsOf(cells)) && forall t :: t in assign <==> t in Bag(GroupsOf(cells))
  }

  /** The terms not yet known, each once, in order. */
  function Fresh(terms: seq<Term>, known: set<Term>): (r: seq<Term>)
    ensures forall t :: t in r <==> t in terms && t !in known
    ensures Distinct(r)
  {
    if terms == [] then []
    else
      var front, last := Fresh(terms[..|terms| - 1], known), terms[|terms| - 1];
      assert terms == terms[..|terms| - 1] + [last];
      if last in known || last in front then front else front + [last]
  }

  lemma FreshAppend(terms: seq<Term>, t: Term, known: set<Term>)
    ensures Fresh(terms + [t], known)
         == if t in known || t in Fresh(terms, known) then Fresh(terms, known) else Fresh(terms, known) + [t]
  {
    assert (terms + [t])[..|terms|] == terms;
  }

  function NearestOf(cents: seq<Vec>, geo: Geometry, t: Term): (i: nat)
    requires cents != []
    ensures i < |cents|
  {
    FirstMax(Sims(cents, UnitOf(geo)(t), geo))
  }

  function InCell(cents: seq<Vec>, geo: Geometry, i: nat): Term -> bool {
    t => cents != [] && NearestOf(cents, geo, t) == i
  }

  function TooFar(cents: seq<Vec>, geo: Geometry, threshold: real): Term -> bool {
    t => cents != [] && Sims(cents, UnitOf(geo)(t), geo)[NearestOf(cents, geo, t)] < threshold
  }

  /** Cell i holds what it held and, after it, the novel terms nearest to it. */
  ghost predicate Extended(cells0: seq<CellRecord>, cells: seq<CellRecord>, novel: seq<Term>, geo: Geometry, i: nat)
    requires i < |cells0| == |cells|
  {
    && cells[i].id == cells0[i].id && cells[i].centroid == cells0[i].centroid
    && cells[i].members == cells0[i].members + Filter(novel, InCell(CentroidsOf(cells0), geo, i))
  }

  ghost predicate AllExtended(cells0: seq<CellRecord>, cells: seq<CellRecord>, novel: seq<Term>, geo: Geometry) {
    && |cells| == |cells0| && CentroidsOf(cells) == CentroidsOf(cells0)
    && forall i {:trigger Extended(cells0, cells, novel, geo, i)} :: 0 <= i < |cells0| ==>
       Extended(cells0, cells, novel, geo, i)
  }

  function Filing(cells: seq<CellRecord>, t: Term, i: nat): seq<CellRecord>
    requires i < |cells|
  {
    cells[i := cells[i].(members := cells[i].members + [t])]
  }

  lemma ExtendStep(cells0: seq<CellRecord>, cells: seq<CellRecord>, novel: seq<Term>, geo: Geometry, t: Term)
    requires AllExtended(cells0, cells, novel, geo) && cells0 != []
    ensures AllExtended(cells0, Filing(cells, t, NearestOf(CentroidsOf(cells0), geo, t)), novel + [t], geo)
  {
    var next := Filing(cells, t, NearestOf(CentroidsOf(cells0), geo, t));
    forall i | 0 <= i < |cells0| ensures Extended(cells0, next, novel + [t], geo, i) {
      assert Extended(cells0, cells, novel, geo, i);
      FilterSnoc(novel, t, InCell(CentroidsOf(cells0), geo, i));
    }
    assert CentroidsOf(next) == CentroidsOf(cells);
  }

  lemma FilingBag(cells: seq<CellRecord>, t: Term, i: nat)
    requires i < |cells|
    ensures Bag(GroupsOf(Filing(cells, t, i))) == Bag(GroupsOf(cells)) + multiset{t}
  {
    assert GroupsOf(Filing(cells, t, i)) == GroupsOf(cells)[i := GroupsOf(cells)[i] + [t]];
    BagUpdate(GroupsOf(cells), i, [t]);
  }

  const DOUBLED_MIN := 6

  predicate HasDoubled(now: nat, before: nat) {
    now >= 2 * Max(before, 1) && now >= DOUBLED_MIN
  }

  function CountDoubled(now: seq<nat>, before: seq<nat>): nat {
    if now == [] then 0
    else
      var n := |now| - 1;
      CountDoubled(now[..n], before) + if HasDoubled(now[n], if n < |before| then before[n] else 1) then 1 else 0
  }

  /** A cell of six terms or more that has at least twice what it had at the last clustering, where it had one if it was
      not there. */
  ghost predicate Outgrown(cells: seq<CellRecord>, before: seq<nat>, i: int) {
    0 <= i < |cells| && var size := |cells[i].members|;
                        size >= 6 && size >= 2 && (i < |before| ==> size >= 2 * before[i])
  }

  ghost function OutgrownBelow(cells: seq<CellRecord>, before: seq<nat>, n: nat): set<int> {
    set i | 0 <= i < n && Outgrown(cells, before, i)
  }

  /** The drift counts exactly these cells. */
  lemma {:induction false} DoubledExactly(cells: seq<CellRecord>, before: seq<nat>, n: nat)
    requires n <= |cells|
    ensures CountDoubled(SizesOf(cells)[..n], before) == |OutgrownBelow(cells, before, n)|
  {
    if n > 0 {
      DoubledExactly(cells, before, n - 1);
      assert SizesOf(cells)[..n][..n - 1] == SizesOf(cells)[..n - 1];
      var less := OutgrownBelow(cells, before, n - 1);
      assert n - 1 !in less;
      assert OutgrownBelow(cells, before, n) == if Outgrown(cells, before, n - 1) then less + {n - 1} else less;
    }
  }

  /** The term's cells are those its vector belongs to, over these centroids. */
  ghost predicate Assigned(assign: map<Term, Assignment>, cents: seq<Vec>, geo: Geometry, threshold: real, margin: real,
                           t: Term)
  {
    t in assign && SoftFor(assign[t], UnitOf(geo)(t), cents, geo, threshold, margin)
  }

  ghost predicate AllAssigned(assign: map<Term, Assignment>, terms: seq<Term>, cents: seq<Vec>, geo: Geometry,
                              threshold: real, margin: real)
  {
    forall t {:trigger Assigned(assign, cents, geo, threshold, margin, t)} ::
      t in terms ==> Assigned(assign, cents, geo, threshold, margin, t)
  }

  /** The leader loop, over one preallocated row per leader. */
  method LeaderLoop(terms: seq<Term>, geo: Geometry, threshold: real) returns (ls: Leaders)
    ensures ls == Led(terms, geo, threshold)
  {
    var groups: seq<seq<Term>>, totals: seq<Vec>, cents: seq<Vec>;
    groups, totals, cents := [], [], [];
    for n := 0 to |terms|
      invariant Leaders(groups, totals, cents) == Led(terms[..n], geo, threshold)
    {
      var term := terms[n];
      var v := geo.unit(geo.vec(term));
      assert terms[..n + 1] == terms[..n] + [term];
      LedAppend(terms[..n], term, geo, threshold);
      var sims := Sims(cents, v, geo);
      if sims != [] && sims[FirstMax(sims)] >= threshold {
        var best := FirstMax(sims);
        var sum := AddInto(totals[best], v);
        groups := groups[best := groups[best] + [term]];
        totals := totals[best := sum];
        cents := cents[best := geo.unit(sum)];
        continue;
      }
      groups, cents, totals := groups + [[term]], cents + [v], totals + [v];
    }
    assert terms[..|terms|] == terms;
    ls := Leaders(groups, totals, cents);
  }

  method SoftPass(terms: seq<Term>, cents: seq<Vec>, geo: Geometry, threshold: real, margin: real)
    returns (assign: map<Term, Assignment>)
    requires GeometryOk(geo) && (terms != [] ==> cents != [])
    ensures forall t :: t in assign <==> t in terms
    ensures AllAssigned(assign, terms, cents, geo, threshold, margin)
  {
    assign := map[];
    for n := 0 to |terms|
      invariant forall t :: t in assign <==> t in terms[..n]
      invariant AllAssigned(assign, terms[..n], cents, geo, threshold, margin)
    {
      var soft := Soft(UnitOf(geo)(terms[n]), cents, geo, threshold, margin);
      assert terms[..n + 1] == terms[..n] + [terms[n]];
      ghost var before := assign;
      assign := assign[terms[n] := soft];
      forall t | t in terms[..n + 1] ensures Assigned(assign, cents, geo, threshold, margin, t) {
        assert t in terms[..n] ==> Assigned(before, cents, geo, threshold, margin, t);
      }
    }
    assert terms[..|terms|] == terms;
  }

  lemma LedRecords(terms: seq<Term>, geo: Geometry, threshold: real)
    ensures CellsHold(Led(terms, geo, threshold), terms, geo)
    ensures GroupsOf(Records(Led(terms, geo, threshold))) == Led(terms, geo, threshold).groups
    ensures CentroidsOf(Records(Led(terms, geo, threshold))) == Led(terms, geo, threshold).cents
    ensures terms != [] ==> Led(terms, geo, threshold).cents != []
    ensures RecordsOk(Records(Led(terms, geo, threshold)))
  {
    var ls := Led(terms, geo, threshold);
    LedHolds(terms, geo, threshold);
    if terms != [] {
      assert terms[0] in multiset(terms);
    }
    forall i | 0 <= i < |ls.groups| ensures ls.groups[i] != [] {
      assert CellOk(ls, i, geo);
    }
  }

  ghost predicate RecordsOk(cells: seq<CellRecord>) {
    forall i :: 0 <= i < |cells| ==> cells[i].id == i && cells[i].members != []
  }

  /** Clustered cells partition the terms exactly when no term is given twice. */
  lemma FiledOnceExactly(ls: Leaders, terms: seq<Term>, geo: Geometry, assign: map<Term, Assignment>)
    requires Aligned(ls) && CellsHold(ls, terms, geo) && forall t :: t in assign <==> t in terms
    ensures FiledOnce(Records(ls), assign) <==> Distinct(terms)
  {
    assert GroupsOf(Records(ls)) == ls.groups;
    forall t ensures t in assign <==> t in Bag(ls.groups) {
      assert t in terms <==> t in multiset(terms);
    }
    if Distinct(terms) {
      BagOfDistinct(ls.groups, terms);
    }
    if NoneTwice(ls.groups) {
      forall t ensures multiset(terms)[t] <= 1 {
        assert Bag(ls.groups)[t] <= 1;
      }
      CountedOnce(terms);
    }
  }

  // ----- filing new terms ---------------------------------------------------------------------------

  datatype Book = Book(cells: seq<CellRecord>, assign: map<Term, Assignment>, drift: Drift)

  /** What filing these novel terms has made of the book b0. */
  ghost predicate FiledSoFar(b0: Book, b: Book, novel: seq<Term>, geo: Geometry, threshold: real, margin: real) {
    && CellsSoFar(b0, b, novel, geo)
    && AssignedSoFar(b0, b, novel, geo, threshold, margin)
    && DriftSoFar(b0, b, novel, geo, threshold)
  }

  ghost predicate CellsSoFar(b0: Book, b: Book, novel: seq<Term>, geo: Geometry) {
    AllExtended(b0.cells, b.cells, novel, geo) && Bag(GroupsOf(b.cells)) == Bag(GroupsOf(b0.cells)) + multiset(novel)
  }

  ghost predicate AssignedSoFar(b0: Book, b: Book, novel: seq<Term>, geo: Geometry, threshold: real, margin: real) {
    && b.assign.Keys == b0.assign.Keys + Elems(novel)
    && (forall t :: t in b0.assign ==> b.assign[t] == b0.assign[t])
    && AllAssigned(b.assign, novel, CentroidsOf(b0.cells), geo, threshold, margin)
  }

  ghost predicate DriftSoFar(b0: Book, b: Book, novel: seq<Term>, geo: Geometry, threshold: real) {
    && b.drift.filed == b0.drift.filed + |novel|
    && b.drift.sinceRecluster == b0.drift.sinceRecluster + |novel|
    && b.drift.forced == b0.drift.forced + |Filter(novel, TooFar(CentroidsOf(b0.cells), geo, threshold))|
  }

  function FileTerm(b: Book, t: Term, cents: seq<Vec>, geo: Geometry, threshold: real, soft: Assignment): Book
    requires cents != [] && |cents| == |b.cells|
  {
    var best := NearestOf(cents, geo, t);
    Book(Filing(b.cells, t, best), b.assign[t := soft],
         Placed(b.drift, TooFar(cents, geo, threshold)(t)))
  }

  function Placed(d: Drift, tooFar: bool): Drift {
    d.(filed := d.filed + 1, sinceRecluster := d.sinceRecluster + 1, forced := d.forced + if tooFar then 1 else 0)
  }

  lemma FileTermIs(b: Book, t: Term, cents: seq<Vec>, geo: Geometry, threshold: real, soft: Assignment)
    requires cents != [] && |cents| == |b.cells|
    ensures var sims := Sims(cents, UnitOf(geo)(t), geo);
            FileTerm(b, t, cents, geo, threshold, soft) ==
            Book(Filing(b.cells, t, FirstMax(sims)), b.assign[t := soft],
                 Placed(b.drift, sims[FirstMax(sims)] < threshold))
  {
  }

  lemma FileStep(b0: Book, b: Book, novel: seq<Term>, geo: Geometry, threshold: real, margin: real, t: Term,
                 soft: Assignment)
    requires b0.cells != [] && FiledSoFar(b0, b, novel, geo, threshold, margin) && t !in b.assign
    requires SoftFor(soft, UnitOf(geo)(t), CentroidsOf(b0.cells), geo, threshold, margin)
    ensures FiledSoFar(b0, FileTerm(b, t, CentroidsOf(b0.cells), geo, threshold, soft), novel + [t], geo, threshold,
                       margin)
  {
    var cents := CentroidsOf(b0.cells);
    var next := FileTerm(b, t, cents, geo, threshold, soft);
    assert CellsSoFar(b0, next, novel + [t], geo) by {
      ExtendStep(b0.cells, b.cells, novel, geo, t);
      FilingBag(b.cells, t, NearestOf(cents, geo, t));
    }
    assert DriftSoFar(b0, next, novel + [t], geo, threshold) by {
      FilterSnoc(novel, t, TooFar(cents, geo, threshold));
    }
    AssignStep(b0, b, novel, geo, threshold, margin, t, soft);
  }

  lemma AssignStep(b0: Book, b: Book, novel: seq<Term>, geo: Geometry, threshold: real, margin: real, t: Term,
                   soft: Assignment)
    requires b0.cells != [] && |b.cells| == |b0.cells| && AssignedSoFar(b0, b, novel, geo, threshold, margin)
             && t !in b.assign
    requires SoftFor(soft, UnitOf(geo)(t), CentroidsOf(b0.cells), geo, threshold, margin)
    ensures AssignedSoFar(b0, FileTerm(b, t, CentroidsOf(b0.cells), geo, threshold, soft), novel + [t], geo, threshold,
                          margin)
  {
    var cents := CentroidsOf(b0.cells);
    var next := FileTerm(b, t, cents, geo, threshold, soft);
    assert Elems(novel + [t]) == Elems(novel) + {t};
    forall x | x in novel + [t] ensures Assigned(next.assign, cents, geo, threshold, margin, x) {
      assert x in novel ==> Assigned(b.assign, cents, geo, threshold, margin, x);
    }
  }

  lemma NothingFiled(b0: Book, geo: Geometry, threshold: real, margin: real)
    ensures FiledSoFar(b0, b0, [], geo, threshold, margin)
  {
    forall i | 0 <= i < |b0.cells| ensures Extended(b0.cells, b0.cells, [], geo, i) {
    }
  }

  lemma KnownTerms(b0: Book, b: Book, novel: seq<Term>, geo: Geometry, threshold: real, margin: real, t: Term)
    requires FiledSoFar(b0, b, novel, geo, threshold, margin)
    ensures t in b.assign <==> t in b0.assign.Keys || t in novel
  {
    assert t in b.assign <==> t in b.assign.Keys;
  }

  lemma RecountKeeps(b0: Book, b: Book, novel: seq<Term>, geo: Geometry, threshold: real, margin: real, doubled: nat)
    requires FiledSoFar(b0, b, novel, geo, threshold, margin)
    ensures FiledSoFar(b0, b.(drift := b.drift.(doubled := doubled)), novel, geo, threshold, margin)
  {
  }

  lemma StillFiledOnce(b0: Book, b: Book, novel: seq<Term>, geo: Geometry, threshold: real, margin: real)
    requires FiledSoFar(b0, b, novel, geo, threshold, margin)
    requires FiledOnce(b0.cells, b0.assign) && Distinct(novel) && forall t :: t in novel ==> t !in b0.assign
    ensures FiledOnce(b.cells, b.assign)
  {
    forall t
      ensures Bag(GroupsOf(b.cells))[t] <= 1
      ensures t in b.assign <==> t in Bag(GroupsOf(b.cells))
    {
      DistinctCount(novel, t);
      assert t in b0.assign <==> t in Bag(GroupsOf(b0.cells));
      assert t in b.assign <==> t in b.assign.Keys;
      assert t in novel <==> t in multiset(novel);
    }
  }

  class Codebook {
    const geo: Geometry
    const threshold: real
    const margin: real
    var cells: seq<CellRecord>
    var assign: map<Term, Assignment>
    var atRecluster: seq<nat>
    var drift: Drift

    constructor (geo: Geometry, threshold: real, margin: real)
      ensures cells == [] && assign == map[] && this.geo == geo && this.threshold == threshold && this.margin == margin
      ensures FiledOnce(cells, assign)
    {
      this.geo, this.threshold, this.margin := geo, threshold, margin;
      cells, assign, atRecluster, drift := [], map[], [], Drift(0, 0, 0, 0);
    }

    function Contents(): Book
      reads this
    {
      Book(cells, assign, drift)
    }

    /** Clustering from scratch. The cells partition the terms exactly when no term is given twice. */
    method Cluster(terms: seq<Term>)
      requires GeometryOk(geo)
      modifies this
      ensures cells == Records(Led(terms, geo, threshold)) && Bag(GroupsOf(cells)) == multiset(terms)
      ensures RecordsOk(cells)
      ensures forall t :: t in assign <==> t in terms
      ensures AllAssigned(assign, terms, CentroidsOf(cells), geo, threshold, margin)
      ensures FiledOnce(cells, assign) <==> Distinct(terms)
      ensures drift == Drift(0, 0, 0, 0) && atRecluster == SizesOf(cells)
    {
      var ls := LeaderLoop(terms, geo, threshold);
      LedRecords(terms, geo, threshold);
      cells := Records(ls);
      assign := SoftPass(terms, ls.cents, geo, threshold, margin);
      FiledOnceExactly(ls, terms, geo, assign);
      atRecluster, drift := SizesOf(cells), Drift(0, 0, 0, 0);
    }

    /** A term not yet assigned goes to its nearest cell; the drift notices when that is too far. */
    method FileNew(term: Term, cents: seq<Vec>, ghost b0: Book, ghost novel: seq<Term>)
      requires GeometryOk(geo) && b0.cells != [] && cents == CentroidsOf(b0.cells) && term !in assign
      requires FiledSoFar(b0, Contents(), novel, geo, threshold, margin)
      modifies this
      ensures FiledSoFar(b0, Contents(), novel + [term], geo, threshold, margin) && atRecluster == old(atRecluster)
    {
      var soft := Soft(UnitOf(geo)(term), cents, geo, threshold, margin);
      FileStep(b0, Contents(), novel, geo, threshold, margin, term, soft);
      FileTermIs(Contents(), term, cents, geo, threshold, soft);
      var sims := Sims(cents, UnitOf(geo)(term), geo);
      var best := FirstMax(sims);
      drift := Placed(drift, sims[best] < threshold);
      cells := Filing(cells, term, best);
      assign := assign[term := soft];
    }

    /** The next term, if it is not assigned yet. */
    method FileNext(terms: seq<Term>, n: nat, cents: seq<Vec>, ghost b0: Book)
      requires GeometryOk(geo) && b0.cells != [] && cents == CentroidsOf(b0.cells) && n < |terms|
      requires FiledFrom(b0, Fresh(terms[..n], b0.assign.Keys))
      modifies this
      ensures FiledFrom(b0, Fresh(terms[..n + 1], b0.assign.Keys)) && atRecluster == old(atRecluster)
    {
      ghost var novel := Fresh(terms[..n], b0.assign.Keys);
      KnownTerms(b0, Contents(), novel, geo, threshold, margin, terms[n]);
      assert terms[..n + 1] == terms[..n] + [terms[n]];
      FreshAppend(terms[..n], terms[n], b0.assign.Keys);
      if terms[n] in assign {
        return;
      }
      FileNew(terms[n], cents, b0, novel);
    }

    method FileAll(terms: seq<Term>)
      requires GeometryOk(geo) && cells != []
      modifies this
      ensures FiledSoFar(old(Contents()), Contents(), Fresh(terms, old(assign).Keys), geo, threshold, margin)
      ensures atRecluster == old(atRecluster)
    {
      var cents := CentroidsOf(cells);
      ghost var b0 := Contents();
      NothingFiled(b0, geo, threshold, margin);
      assert terms[..0] == [];
      for n := 0 to |terms|
        invariant FiledFrom(b0, Fresh(terms[..n], b0.assign.Keys)) && atRecluster == old(atRecluster)
      {
        FileNext(terms, n, cents, b0);
      }
      assert terms[..|terms|] == terms;
    }

    ghost predicate FiledFrom(b0: Book, novel: seq<Term>)
      reads this
    {
      FiledSoFar(b0, Contents(), novel, geo, threshold, margin)
    }

    /** The fast path. New terms go to their nearest cells whatever the distance; terms already assigned
        are skipped; the centroids stay; the drift counts what was filed and what was forced. */
    method AssignNew(terms: seq<Term>)
      requires GeometryOk(geo)
      modifies this
      ensures old(cells) == [] ==>
              cells == Records(Led(terms, geo, threshold)) && (FiledOnce(cells, assign) <==> Distinct(terms))
      ensures old(cells) != [] ==>
                FiledSoFar(old(Contents()), Contents(), Fresh(terms, old(assign).Keys), geo, threshold, margin)
      ensures old(cells) != [] && old(FiledOnce(cells, assign)) ==> FiledOnce(cells, assign)
      ensures old(cells) != [] ==>
              drift.doubled == CountDoubled(SizesOf(cells), atRecluster) && atRecluster == old(atRecluster)
    {
      if cells == [] {
        Cluster(terms);
        return;
      }
      ghost var b0 := Contents();
      FileAll(terms);
      if FiledOnce(b0.cells, b0.assign) {
        StillFiledOnce(b0, Contents(), Fresh(terms, b0.assign.Keys), geo, threshold, margin);
      }
      RecountKeeps(b0, Contents(), Fresh(terms, b0.assign.Keys), geo, threshold, margin,
                   CountDoubled(SizesOf(cells), atRecluster));
      drift := drift.(doubled := CountDoubled(SizesOf(cells), atRecluster));
    }
  }
}
