/** Merging the claim table in place (assoc/dedup.py, `apply_merges`) and remapping everything
    that names a claim (assoc/rebuild.py): conservation from documents to the merged table. */
module Consolidation {
  import opened Common
  import opened Folding
  import opened UnionFinds
  import opened Deduplication

  type Remap = map<ClaimId, ClaimId>

  function Renamed(remap: Remap, x: ClaimId): ClaimId {
    if x in remap then remap[x] else x
  }

  // ----- what absorbing one claim, or a whole group, does to the root ------------------------

  function Absorb(keep: Claim, id: ClaimId, c: Claim): Claim {
    keep.(occurrences := keep.occurrences + c.occurrences,
          sources := keep.sources + c.sources,
          visible := keep.visible + c.visible,
          entities := Extended(keep.entities, c.entities),
          mergedFrom := keep.mergedFrom + [id])
  }

  /** The root has whatever it or the absorbed claim had: occurrences in that order, sources, places to show, entities;
      it notes whom it absorbed, and keeps all else. */
  lemma AbsorbExactly(keep: Claim, id: ClaimId, c: Claim)
    ensures var r := Absorb(keep, id, c);
            && r.occurrences == keep.occurrences + c.occurrences && r.mergedFrom == keep.mergedFrom + [id]
            && (forall k :: k in r.sources <==> k in keep.sources || k in c.sources)
            && (forall d :: d in r.visible <==> d in keep.visible || d in c.visible)
            && (forall e :: e in r.entities <==> e in keep.entities || e in c.entities) && keep.entities <= r.entities
            && (r.text, r.facet, r.subject, r.kind, r.version, r.variants)
               == (keep.text, keep.facet, keep.subject, keep.kind, keep.version, keep.variants)
  {
    ExtendedExactly(keep.entities, c.entities);
  }

  /** The table after a member is popped and its root has taken over all it had. */
  function Popped(claims: Claims, root: ClaimId, cid: ClaimId): Claims
    requires root in claims && cid in claims
  {
    (claims - {cid})[root := Absorb(claims[root], cid, claims[cid])]
  }

  /** The root after it has absorbed the first n members. */
  function FoldedRoot(claims: Claims, g: Group, n: nat): Claim
    requires n <= |g.members| && g.root in claims && forall x :: x in g.members ==> x in claims
  {
    if n == 0 then claims[g.root]
    else if g.members[n - 1] == g.root then FoldedRoot(claims, g, n - 1)
    else
      assert g.members[n - 1] in g.members;
      Absorb(FoldedRoot(claims, g, n - 1), g.members[n - 1], claims[g.members[n - 1]])
  }

  /** The root of a whole group, under the wording all its occurrences prefer. */
  function MergedRoot(claims: Claims, g: Group): Claim
    requires g.root in claims && forall x :: x in g.members ==> x in claims
  {
    Worded(FoldedRoot(claims, g, |g.members|))
  }

  /** A claim of the group the root has taken in, or the root itself, has this source, place to show, or entity. */
  ghost predicate Brings(claims: Claims, g: Group, n: nat, has: Claim -> bool)
    requires n <= |g.members| && g.root in claims && forall x :: x in g.members ==> x in claims
  {
    has(claims[g.root]) || exists i :: 0 <= i < n && has(claims[g.members[i]])
  }

  /** The root of a merged group has exactly the sources, places to show and entities of all its members. */
  lemma {:induction false} RootHasAll(claims: Claims, g: Group, n: nat, k: string, d: DocId, e: string)
    requires n <= |g.members| && g.root in claims && forall x :: x in g.members ==> x in claims
    ensures k in FoldedRoot(claims, g, n).sources <==> Brings(claims, g, n, (c: Claim) => k in c.sources)
    ensures d in FoldedRoot(claims, g, n).visible <==> Brings(claims, g, n, (c: Claim) => d in c.visible)
    ensures e in FoldedRoot(claims, g, n).entities <==> Brings(claims, g, n, (c: Claim) => e in c.entities)
    decreases n
  {
    if n > 0 {
      var m := g.members[n - 1];
      assert m in g.members;
      RootHasAll(claims, g, n - 1, k, d, e);
      BringsNext(claims, g, n, (c: Claim) => k in c.sources);
      BringsNext(claims, g, n, (c: Claim) => d in c.visible);
      BringsNext(claims, g, n, (c: Claim) => e in c.entities);
      AbsorbExactly(FoldedRoot(claims, g, n - 1), m, claims[m]);
    }
  }

  lemma BringsNext(claims: Claims, g: Group, n: nat, has: Claim -> bool)
    requires 0 < n <= |g.members| && g.root in claims && forall x :: x in g.members ==> x in claims
    ensures g.members[n - 1] in claims
    ensures Brings(claims, g, n, has) <==> Brings(claims, g, n - 1, has) || has(claims[g.members[n - 1]])
  {
    assert g.members[n - 1] in g.members;
  }

  /** The members a group drops: all but its root. */
  function Dropped(g: Group, n: nat): set<ClaimId>
    requires n <= |g.members|
  {
    set i | 0 <= i < n && g.members[i] != g.root :: g.members[i]
  }

  function Without(ids: seq<ClaimId>, gone: set<ClaimId>): seq<ClaimId> {
    if ids == [] then []
    else
      var front, last := Without(ids[..|ids| - 1], gone), ids[|ids| - 1];
      if last in gone then front else front + [last]
  }

  lemma {:induction false} WithoutElems(ids: seq<ClaimId>, gone: set<ClaimId>)
    ensures forall x :: x in Without(ids, gone) <==> x in ids && x !in gone
    ensures Distinct(ids) ==> Distinct(Without(ids, gone))
  {
    if ids != [] {
      WithoutElems(ids[..|ids| - 1], gone);
      assert ids == ids[..|ids| - 1] + [ids[|ids| - 1]];
    }
  }

  lemma WithoutAppend(ids: seq<ClaimId>, gone: set<ClaimId>, last: ClaimId)
    ensures Without(ids + [last], gone) == if last in gone then Without(ids, gone) else Without(ids, gone) + [last]
  {
    assert (ids + [last])[..|ids|] == ids;
  }

  lemma {:induction false} WithoutNothing(ids: seq<ClaimId>, gone: set<ClaimId>)
    requires forall x :: x in ids ==> x !in gone
    ensures Without(ids, gone) == ids
  {
    if ids != [] {
      var front, last := ids[..|ids| - 1], ids[|ids| - 1];
      assert ids == front + [last];
      WithoutNothing(front, gone);
      WithoutAppend(front, gone, last);
    }
  }

  /** Dropping one claim takes exactly its occurrences away. */
  lemma {:induction false} DropOne(ids: seq<ClaimId>, claims: Claims, x: ClaimId)
    requires Distinct(ids) && x in ids
    requires forall y :: y in ids ==> y in claims
    ensures AllOccurrences(ids, claims) == AllOccurrences(Without(ids, {x}), claims) + multiset(claims[x].occurrences)
  {
    var front, last := ids[..|ids| - 1], ids[|ids| - 1];
    assert ids == front + [last];
    assert forall y :: y in front ==> y in ids;
    WithoutAppend(front, {x}, last);
    if last == x {
      WithoutNothing(front, {x});
    } else {
      DropOne(front, claims, x);
      var rest := Without(front, {x});
      assert (rest + [last])[..|rest|] == rest;
    }
  }

  /** Popping a member and extending its root with the member's occurrences conserves them all. */
  lemma PopConserves(ids: seq<ClaimId>, claims: Claims, root: ClaimId, x: ClaimId, c: Claim)
    requires Distinct(ids) && x in ids && root in ids && x != root
    requires forall y :: y in ids ==> y in claims
    requires c.occurrences == claims[root].occurrences + claims[x].occurrences
    ensures var less := Without(ids, {x});
            AllOccurrences(less, (claims - {x})[root := c]) == AllOccurrences(ids, claims)
  {
    var less := Without(ids, {x});
    DropOne(ids, claims, x);
    WithoutElems(ids, {x});
    AllOccurrencesGrow(less, claims, root, c, claims[x].occurrences);
    AllOccurrencesSame(less, (claims - {x})[root := c], claims[root := c]);
  }

  // ----- the claim table ----------------------------------------------------------------------

  ghost predicate GroupIn(ids: seq<ClaimId>, g: Group) {
    g.root in g.members && Distinct(g.members) && forall x :: x in g.members ==> x in ids
  }

  /** The table at one point of the merging, and where the dropped ids went. */
  datatype Stage = Stage(ids: seq<ClaimId>, claims: Claims, remap: Remap)

  ghost predicate StageOk(t: Stage, g: Group) {
    GroupIn(t.ids, g) && forall x :: x in t.ids <==> x in t.claims
  }

  class ClaimTable {
    var ids: seq<ClaimId>
    var claims: Claims

    ghost predicate Valid()
      reads this
    {
      Distinct(ids) && forall x :: x in ids <==> x in claims
    }

    ghost function Occurrences(): multiset<Occurrence>
      requires Valid()
      reads this
    {
      AllOccurrences(ids, claims)
    }

    constructor (ids: seq<ClaimId>, claims: Claims)
      requires Distinct(ids) && forall x :: x in ids <==> x in claims
      ensures Valid() && this.ids == ids && this.claims == claims
    {
      this.ids, this.claims := ids, claims;
    }

    /** One member is popped from the table and its root takes over all it had. */
    method AbsorbMember(root: ClaimId, cid: ClaimId)
      requires Valid() && root in ids && cid in ids && root != cid
      modifies this
      ensures Valid() && Occurrences() == old(Occurrences())
      ensures ids == Without(old(ids), {cid})
      ensures claims == Popped(old(claims), root, cid)
    {
      var c, keep := claims[cid], claims[root];
      PopConserves(ids, claims, root, cid, Absorb(keep, cid, c));
      WithoutElems(ids, {cid});
      ids := Without(ids, {cid});
      claims := (claims - {cid})[root := Absorb(keep, cid, c)];
    }

    /** The table holds just these occurrences, and the first n members of the group are folded. */
    ghost predicate Merging(t0: Stage, g: Group, n: nat, remap: Remap)
      reads this
    {
      && Valid() && Occurrences() == AllOccurrences(t0.ids, t0.claims)
      && FirstFolded(t0, g, n, Stage(ids, claims, remap))
    }

    /** One member of a group: the root stays, every other is absorbed and redirected. */
    method MergeMember(g: Group, n: nat, remap1: Remap, ghost t0: Stage) returns (remap: Remap)
      requires n < |g.members| && StageOk(t0, g) && Merging(t0, g, n, remap1)
      modifies this
      ensures Merging(t0, g, n + 1, remap)
    {
      remap := remap1;
      var cid := g.members[n];
      GroupStep(t0, g, n, Stage(ids, claims, remap));
      if cid == g.root {
        return;
      }
      AbsorbMember(g.root, cid);
      remap := remap[cid := g.root];
    }

    method MergeMembers(g: Group, remap1: Remap, ghost t0: Stage) returns (remap: Remap)
      requires StageOk(t0, g) && Merging(t0, g, 0, remap1)
      modifies this
      ensures Merging(t0, g, |g.members|, remap)
    {
      remap := remap1;
      for n := 0 to |g.members|
        invariant Merging(t0, g, n, remap)
      {
        remap := MergeMember(g, n, remap, t0);
      }
    }

    /** The root is put under the wording its occurrences now prefer. */
    method ReWordRoot(g: Group, remap: Remap, ghost t0: Stage)
      requires StageOk(t0, g) && Merging(t0, g, |g.members|, remap)
      modifies this
      ensures Valid() && Occurrences() == AllOccurrences(t0.ids, t0.claims)
      ensures GroupFolded(t0, g, |g.members|, MergedRoot(t0.claims, g), Stage(ids, claims, remap))
    {
      ghost var t := Stage(ids, claims, remap);
      assert MemberOk(t0, g, |g.members|, FoldedRoot(t0.claims, g, |g.members|), t, g.root);
      var keep := ReWord(claims[g.root]);
      RootWorded(t0, g, t);
      AllOccurrencesSame(ids, claims[g.root := keep], claims);
      claims := claims[g.root := keep];
    }

    /** Folds one group into its root: the other members leave the table, no occurrence does. */
    method MergeGroup(g: Group, remap0: Remap) returns (remap: Remap)
      requires Valid() && GroupIn(ids, g)
      modifies this
      ensures Valid() && Occurrences() == old(Occurrences())
      ensures forall x :: x in g.members ==> x in old(claims)
      ensures GroupFolded(Stage(old(ids), old(claims), remap0), g, |g.members|, MergedRoot(old(claims), g),
                          Stage(ids, claims, remap))
    {
      ghost var t0 := Stage(ids, claims, remap0);
      GroupUntouched(t0, g);
      remap := MergeMembers(g, remap0, t0);
      ReWordRoot(g, remap, t0);
    }

    /** Folds every merged group, one after another. Returns where each dropped id went. */
    method ApplyMerges(merged: seq<Group>, ghost rep: Reps<ClaimId>) returns (remap: Remap)
      requires Valid() && Separated(ids, rep, merged)
      modifies this
      ensures Valid() && Occurrences() == old(Occurrences())
      ensures AllMerged(Stage(old(ids), old(claims), map[]), rep, merged, |merged|, Stage(ids, claims, remap))
    {
      remap := map[];
      ghost var t0 := Stage(ids, claims, map[]);
      NothingMerged(t0, rep, merged);
      for n := 0 to |merged|
        invariant Valid() && Occurrences() == AllOccurrences(t0.ids, t0.claims)
        invariant AllMerged(t0, rep, merged, n, Stage(ids, claims, remap))
      {
        ghost var t := Stage(ids, claims, remap);
        GroupStillIn(t0, rep, merged, n, t);
        remap := MergeGroup(merged[n], remap);
        MergedStep(t0, rep, merged, n, t, Stage(ids, claims, remap));
      }
    }
  }

  // ----- one group ------------------------------------------------------------------------------

  /** Where id x stands once the first n members of the group are folded and `keep` is its root. */
  ghost predicate MemberOk(t0: Stage, g: Group, n: nat, keep: Claim, t: Stage, x: ClaimId)
    requires n <= |g.members| && forall y :: y in g.members ==> y in t0.claims
  {
    if x in Dropped(g, n) then
      x !in t.claims && x in t.remap && t.remap[x] == g.root
    else
      && (x in t.claims <==> x in t0.claims)
      && (x in t.claims ==> t.claims[x] == if x == g.root then keep else t0.claims[x])
      && (x in t.remap <==> x in t0.remap)
      && (x in t.remap ==> t.remap[x] == t0.remap[x])
  }

  ghost predicate GroupFolded(t0: Stage, g: Group, n: nat, keep: Claim, t: Stage) {
    && n <= |g.members| && g.root in t0.claims && (forall y :: y in g.members ==> y in t0.claims)
    && t.ids == Without(t0.ids, Dropped(g, n))
    && forall x {:trigger MemberOk(t0, g, n, keep, t, x)} :: MemberOk(t0, g, n, keep, t, x)
  }

  /** The first n members are folded into the root. */
  ghost predicate FirstFolded(t0: Stage, g: Group, n: nat, t: Stage) {
    && n <= |g.members| && g.root in t0.claims && (forall y :: y in g.members ==> y in t0.claims)
    && GroupFolded(t0, g, n, FoldedRoot(t0.claims, g, n), t)
  }

  lemma GroupUntouched(t0: Stage, g: Group)
    requires StageOk(t0, g)
    ensures FirstFolded(t0, g, 0, t0)
  {
    assert Dropped(g, 0) == {};
    WithoutNothing(t0.ids, {});
  }

  /** What one more member does, in both branches of the source's loop. */
  lemma GroupStep(t0: Stage, g: Group, n: nat, t: Stage)
    requires n < |g.members| && StageOk(t0, g) && FirstFolded(t0, g, n, t)
    ensures var cid := g.members[n];
            if cid == g.root then FirstFolded(t0, g, n + 1, t)
            else cid in t.claims && g.root in t.claims && cid in t.ids && g.root in t.ids
                 && FirstFolded(t0, g, n + 1,
                                Stage(Without(t.ids, {cid}), Popped(t.claims, g.root, cid), t.remap[cid := g.root]))
  {
    var cid, keep := g.members[n], FoldedRoot(t0.claims, g, n);
    assert cid in g.members;
    assert MemberOk(t0, g, n, keep, t, cid);
    assert MemberOk(t0, g, n, keep, t, g.root);
    assert cid !in Dropped(g, n) && g.root !in Dropped(g, n);
    WithoutElems(t0.ids, Dropped(g, n));
    if cid == g.root {
      RootStep(t0, g, n, t);
    } else {
      AbsorbStep(t0, g, n, t);
    }
  }

  lemma RootStep(t0: Stage, g: Group, n: nat, t: Stage)
    requires n < |g.members| && g.members[n] == g.root && FirstFolded(t0, g, n, t)
    ensures FirstFolded(t0, g, n + 1, t)
  {
    var m, keep := n + 1, FoldedRoot(t0.claims, g, n);
    assert Dropped(g, m) == Dropped(g, n);
    forall x ensures MemberOk(t0, g, m, keep, t, x) {
      assert MemberOk(t0, g, n, keep, t, x);
    }
  }

  lemma AbsorbStep(t0: Stage, g: Group, n: nat, t: Stage)
    requires n < |g.members| && g.members[n] != g.root && g.members[n] !in Dropped(g, n)
    requires StageOk(t0, g) && FirstFolded(t0, g, n, t)
    requires g.members[n] in t.claims && g.root in t.claims
    ensures var cid := g.members[n];
            FirstFolded(t0, g, n + 1,
                        Stage(Without(t.ids, {cid}), Popped(t.claims, g.root, cid), t.remap[cid := g.root]))
  {
    var cid, m, keep := g.members[n], n + 1, FoldedRoot(t0.claims, g, n);
    assert cid in g.members;
    assert Dropped(g, m) == Dropped(g, n) + {cid};
    WithoutBoth(t0.ids, Dropped(g, n), {cid});
    var t', keep' := Stage(Without(t.ids, {cid}), Popped(t.claims, g.root, cid), t.remap[cid := g.root]),
      FoldedRoot(t0.claims, g, m);
    assert MemberOk(t0, g, n, keep, t, cid) && MemberOk(t0, g, n, keep, t, g.root);
    forall x ensures MemberOk(t0, g, m, keep', t', x) {
      assert MemberOk(t0, g, n, keep, t, x);
    }
  }

  lemma RootWorded(t0: Stage, g: Group, t: Stage)
    requires StageOk(t0, g) && FirstFolded(t0, g, |g.members|, t)
    requires g.root in t.claims && t.claims[g.root] == FoldedRoot(t0.claims, g, |g.members|)
    ensures GroupFolded(t0, g, |g.members|, MergedRoot(t0.claims, g),
                        t.(claims := t.claims[g.root := Worded(t.claims[g.root])]))
  {
    var n, keep, keep' := |g.members|, FoldedRoot(t0.claims, g, |g.members|), MergedRoot(t0.claims, g);
    var t' := t.(claims := t.claims[g.root := keep']);
    forall x ensures MemberOk(t0, g, n, keep', t', x) {
      assert MemberOk(t0, g, n, keep, t, x);
    }
  }

  // ----- all groups ------------------------------------------------------------------------------

  /** The groups are classes of one partition, so no claim is in two of them. */
  ghost predicate Separated(ids: seq<ClaimId>, rep: Reps<ClaimId>, merged: seq<Group>) {
    && (forall i, j :: 0 <= i < j < |merged| ==> merged[i].root != merged[j].root)
    && (forall g :: g in merged ==> GroupIn(ids, g))
    && (forall g, x :: g in merged && x in g.members ==> x in rep && rep[x] == g.root)
  }

  ghost predicate Gone(merged: seq<Group>, n: nat, x: ClaimId)
    requires n <= |merged|
  {
    exists i :: 0 <= i < n && x in merged[i].members && x != merged[i].root
  }

  /** The claim under id x once the first n groups are folded. */
  ghost function AfterMerges(claims0: Claims, merged: seq<Group>, n: nat, x: ClaimId): Claim
    requires n <= |merged| && x in claims0
  {
    if n == 0 then claims0[x]
    else if merged[n - 1].root == x && (forall y :: y in merged[n - 1].members ==> y in claims0)
    then MergedRoot(claims0, merged[n - 1])
    else AfterMerges(claims0, merged, n - 1, x)
  }

  ghost predicate PlaceOk(t0: Stage, rep: Reps<ClaimId>, merged: seq<Group>, n: nat, t: Stage, x: ClaimId)
    requires n <= |merged|
  {
    if Gone(merged, n, x) then
      && x in t0.claims && x !in t.claims
      && x in rep && x in t.remap && t.remap[x] == rep[x] && t.remap[x] in t.claims
    else
      && x !in t.remap && (x in t.claims <==> x in t0.claims)
      && (x in t.claims ==> t.claims[x] == AfterMerges(t0.claims, merged, n, x))
  }

  /** The table after the first n groups: every dropped id is remapped to a surviving root, every
      root holds its whole group, everything else is as it was. */
  ghost predicate AllMerged(t0: Stage, rep: Reps<ClaimId>, merged: seq<Group>, n: nat, t: Stage) {
    && n <= |merged|
    && (forall x :: x in t0.ids <==> x in t0.claims)
    && t.ids == Without(t0.ids, t.remap.Keys)
    && forall x {:trigger PlaceOk(t0, rep, merged, n, t, x)} :: PlaceOk(t0, rep, merged, n, t, x)
  }

  lemma NothingMerged(t0: Stage, rep: Reps<ClaimId>, merged: seq<Group>)
    requires t0.remap == map[] && forall x :: x in t0.ids <==> x in t0.claims
    ensures AllMerged(t0, rep, merged, 0, t0)
  {
    assert t0.remap.Keys == {};
    WithoutNothing(t0.ids, {});
  }

  /** A class has been left alone by the classes before it. */
  lemma MemberUntouched(t0: Stage, rep: Reps<ClaimId>, merged: seq<Group>, n: nat, t: Stage, x: ClaimId)
    requires n < |merged| && Separated(t0.ids, rep, merged)
    requires AllMerged(t0, rep, merged, n, t)
    requires x in merged[n].members
    ensures x in t.ids && x in t.claims && x in t0.claims && t.claims[x] == t0.claims[x] && !Gone(merged, n, x)
  {
    var g := merged[n];
    assert g in merged && rep[x] == g.root;
    forall i | 0 <= i < n ensures x !in merged[i].members && x != merged[i].root {
      assert merged[i] in merged;
      assert merged[i].root in merged[i].members;
    }
    assert PlaceOk(t0, rep, merged, n, t, x);
    NotARoot(t0.claims, merged, n, x);
    WithoutElems(t0.ids, t.remap.Keys);
  }

  lemma {:induction false} NotARoot(claims0: Claims, merged: seq<Group>, n: nat, x: ClaimId)
    requires n <= |merged| && x in claims0 && forall i :: 0 <= i < n ==> x != merged[i].root
    ensures AfterMerges(claims0, merged, n, x) == claims0[x]
  {
    if n > 0 {
      NotARoot(claims0, merged, n - 1, x);
    }
  }

  lemma GroupStillIn(t0: Stage, rep: Reps<ClaimId>, merged: seq<Group>, n: nat, t: Stage)
    requires n < |merged| && Separated(t0.ids, rep, merged)
    requires AllMerged(t0, rep, merged, n, t)
    ensures GroupIn(t.ids, merged[n])
    ensures forall x :: x in merged[n].members ==> x in t.claims && x in t0.claims
    ensures MergedRoot(t.claims, merged[n]) == MergedRoot(t0.claims, merged[n])
  {
    assert merged[n] in merged;
    forall x | x in merged[n].members
      ensures x in t.ids && x in t.claims && x in t0.claims && t.claims[x] == t0.claims[x]
    {
      MemberUntouched(t0, rep, merged, n, t, x);
    }
    SameFold(t.claims, t0.claims, merged[n], |merged[n].members|);
  }

  lemma {:induction false} SameFold(a: Claims, b: Claims, g: Group, n: nat)
    requires n <= |g.members| && g.root in g.members
    requires forall x :: x in g.members ==> x in a && x in b && a[x] == b[x]
    ensures FoldedRoot(a, g, n) == FoldedRoot(b, g, n)
  {
    if n > 0 {
      SameFold(a, b, g, n - 1);
      assert g.members[n - 1] in g.members;
    }
  }

  lemma GoneNext(merged: seq<Group>, n: nat, x: ClaimId)
    requires n < |merged|
    ensures Gone(merged, n + 1, x) <==> Gone(merged, n, x) || x in Dropped(merged[n], |merged[n].members|)
  {
    var g := merged[n];
    assert x in Dropped(g, |g.members|) <==> x in g.members && x != g.root;
    if Gone(merged, n + 1, x) {
      var i :| 0 <= i < n + 1 && x in merged[i].members && x != merged[i].root;
      assert i == n || Gone(merged, n, x);
    }
    if Gone(merged, n, x) {
      var i :| 0 <= i < n && x in merged[i].members && x != merged[i].root;
      assert Gone(merged, n + 1, x);
    }
  }

  lemma MergedStep(t0: Stage, rep: Reps<ClaimId>, merged: seq<Group>, n: nat, t: Stage, t': Stage)
    requires n < |merged| && Separated(t0.ids, rep, merged)
    requires AllMerged(t0, rep, merged, n, t)
    requires forall x :: x in merged[n].members ==> x in t.claims
    requires merged[n].root in t.claims
    requires GroupFolded(t, merged[n], |merged[n].members|, MergedRoot(t.claims, merged[n]), t')
    ensures AllMerged(t0, rep, merged, n + 1, t')
  {
    var g, m := merged[n], n + 1;
    var k, keep := |g.members|, MergedRoot(t.claims, g);
    forall x ensures PlaceOk(t0, rep, merged, m, t', x) {
      PlaceStep(t0, rep, merged, n, t, t', x);
    }
    forall x ensures x in t'.remap <==> x in t.remap || x in Dropped(g, k) {
      assert MemberOk(t, g, k, keep, t', x);
    }
    WithoutBoth(t0.ids, t.remap.Keys, Dropped(g, k));
    assert t'.remap.Keys == t.remap.Keys + Dropped(g, k);
  }

  /** A member the group drops: it goes to the root, and had gone nowhere before. */
  lemma PlaceDropped(t0: Stage, rep: Reps<ClaimId>, merged: seq<Group>, n: nat, t: Stage, t': Stage, keep: Claim,
                     x: ClaimId)
    requires n < |merged| && Separated(t0.ids, rep, merged)
    requires AllMerged(t0, rep, merged, n, t)
    requires GroupFolded(t, merged[n], |merged[n].members|, keep, t') && x in Dropped(merged[n], |merged[n].members|)
    ensures PlaceOk(t0, rep, merged, n + 1, t', x)
  {
    var g := merged[n];
    assert g in merged && x in g.members;
    assert MemberOk(t, g, |g.members|, keep, t', x);
    assert MemberOk(t, g, |g.members|, keep, t', g.root);
    MemberUntouched(t0, rep, merged, n, t, x);
    GoneNext(merged, n, x);
  }

  /** An id that had gone before: its root is one this group cannot contain. */
  lemma PlaceGone(t0: Stage, rep: Reps<ClaimId>, merged: seq<Group>, n: nat, t: Stage, t': Stage, keep: Claim,
                  x: ClaimId)
    requires n < |merged| && Separated(t0.ids, rep, merged)
    requires AllMerged(t0, rep, merged, n, t) && Gone(merged, n, x)
    requires GroupFolded(t, merged[n], |merged[n].members|, keep, t') && x !in Dropped(merged[n], |merged[n].members|)
    ensures PlaceOk(t0, rep, merged, n + 1, t', x)
  {
    var g := merged[n];
    assert PlaceOk(t0, rep, merged, n, t, x);
    assert MemberOk(t, g, |g.members|, keep, t', x);
    assert MemberOk(t, g, |g.members|, keep, t', t.remap[x]);
    RootSurvives(t0.ids, rep, merged, n, x);
    GoneNext(merged, n, x);
  }

  /** Any other id stays where it was. */
  lemma PlaceStays(t0: Stage, rep: Reps<ClaimId>, merged: seq<Group>, n: nat, t: Stage, t': Stage, keep: Claim,
                   x: ClaimId)
    requires n < |merged| && Separated(t0.ids, rep, merged)
    requires AllMerged(t0, rep, merged, n, t) && !Gone(merged, n, x)
    requires merged[n].root in t0.claims && forall y :: y in merged[n].members ==> y in t0.claims
    requires keep == MergedRoot(t0.claims, merged[n])
    requires GroupFolded(t, merged[n], |merged[n].members|, keep, t') && x !in Dropped(merged[n], |merged[n].members|)
    ensures PlaceOk(t0, rep, merged, n + 1, t', x)
  {
    var g := merged[n];
    assert PlaceOk(t0, rep, merged, n, t, x);
    assert MemberOk(t, g, |g.members|, keep, t', x);
    GoneNext(merged, n, x);
  }

  lemma PlaceStep(t0: Stage, rep: Reps<ClaimId>, merged: seq<Group>, n: nat, t: Stage, t': Stage, x: ClaimId)
    requires n < |merged| && Separated(t0.ids, rep, merged)
    requires AllMerged(t0, rep, merged, n, t)
    requires forall y :: y in merged[n].members ==> y in t.claims
    requires merged[n].root in t.claims
    requires GroupFolded(t, merged[n], |merged[n].members|, MergedRoot(t.claims, merged[n]), t')
    ensures PlaceOk(t0, rep, merged, n + 1, t', x)
  {
    var keep := MergedRoot(t.claims, merged[n]);
    GroupStillIn(t0, rep, merged, n, t);
    if x in Dropped(merged[n], |merged[n].members|) {
      PlaceDropped(t0, rep, merged, n, t, t', keep, x);
    } else if Gone(merged, n, x) {
      PlaceGone(t0, rep, merged, n, t, t', keep, x);
    } else {
      PlaceStays(t0, rep, merged, n, t, t', keep, x);
    }
  }

  lemma RootSurvives(ids0: seq<ClaimId>, rep: Reps<ClaimId>, merged: seq<Group>, n: nat, x: ClaimId)
    requires n < |merged| && Separated(ids0, rep, merged) && Gone(merged, n, x)
    ensures x in rep && rep[x] !in merged[n].members
  {
    var i :| 0 <= i < n && x in merged[i].members && x != merged[i].root;
    var r := merged[i].root;
    assert merged[i] in merged && merged[n] in merged;
    assert rep[x] == r && r in merged[i].members && rep[r] == r;
    assert r != merged[n].root;
  }

  lemma {:induction false} WithoutBoth(ids: seq<ClaimId>, a: set<ClaimId>, b: set<ClaimId>)
    ensures Without(Without(ids, a), b) == Without(ids, a + b)
  {
    if ids == [] {
      assert Without(ids, a) == ids;
    } else {
      var front, last := ids[..|ids| - 1], ids[|ids| - 1];
      assert ids == front + [last];
      WithoutBoth(front, a, b);
      WithoutAppend(front, a, last);
      WithoutAppend(front, a + b, last);
      if last in a {
        assert last in a + b;
      } else {
        WithoutAppend(Without(front, a), b, last);
        assert last in b <==> last in a + b;
      }
    }
  }
}
