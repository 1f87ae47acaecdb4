/** The claim section of a rebuild (assoc/rebuild.py): fold, removal events, dedup, then every
    index and link remapped to the surviving claims. */
module Remapping {
  import opened Common
  import opened Folding
  import opened UnionFinds
  import opened Deduplication
  import opened Consolidation

  // ----- indexes ----------------------------------------------------------------------------

  function RenameAll(remap: Remap, s: seq<ClaimId>): seq<ClaimId> {
    seq(|s|, i requires 0 <= i < |s| => Renamed(remap, s[i]))
  }

  lemma RenameAllElems(remap: Remap, s: seq<ClaimId>, x: ClaimId)
    ensures x in RenameAll(remap, s) <==> exists y :: y in s && Renamed(remap, y) == x
  {
    if x in RenameAll(remap, s) {
      var i :| 0 <= i < |s| && RenameAll(remap, s)[i] == x;
      assert s[i] in s;
    }
    if exists y :: y in s && Renamed(remap, y) == x {
      var y :| y in s && Renamed(remap, y) == x;
      var i :| 0 <= i < |s| && s[i] == y;
      assert RenameAll(remap, s)[i] == x;
    }
  }

  /** Every list renamed, then stripped of what the renaming made double. */
  method RemapIndex<K(==)>(index0: Index<K>, remap: Remap) returns (index: Index<K>)
    ensures index.Keys == index0.Keys
    ensures forall k :: k in index ==> index[k] == Dedup(RenameAll(remap, index0[k]))
  {
    index := index0;
    var todo := index0.Keys;
    while todo != {}
      invariant todo <= index0.Keys == index.Keys
      invariant forall k :: k in index ==> index[k] == if k in todo then index0[k]
                else Dedup(RenameAll(remap, index0[k]))
    {
      var k :| k in todo;
      index := index[k := Dedup(RenameAll(remap, index[k]))];
      todo := todo - {k};
    }
  }

  ghost predicate OccursIn(claims: Claims, x: ClaimId, c: ChunkId) {
    x in claims && exists o :: o in claims[x].occurrences && o.chunk == Some(c)
  }

  /** The fold lists a claim under a chunk exactly when one of its occurrences names the chunk. */
  lemma FoldIndexExact(events: seq<Event>, claims: Claims, byChunk: Index<ChunkId>, c: ChunkId, x: ClaimId)
    requires ClaimEvents(events, claims, x) && ChunkOk(events, byChunk, c)
    ensures x in Listed(byChunk, c) <==> OccursIn(claims, x, c)
  {
    var here := InChunk(events, c);
    if x in Listed(byChunk, c) {
      var i :| 0 <= i < |here| && IdsOf(here)[i] == x;
      assert here[i] in here;
      var e := here[i];
      var j :| 0 <= j < |events| && events[j] == e;
      assert IdsOf(events)[j] == x;
      var about := About(events, x);
      assert e in about;
      var m :| 0 <= m < |about| && about[m] == e;
      assert OccsOf(about)[m] == e.occ;
    }
    if OccursIn(claims, x, c) {
      var about := About(events, x);
      var o :| o in claims[x].occurrences && o.chunk == Some(c);
      var m :| 0 <= m < |about| && OccsOf(about)[m] == o;
      assert about[m] in about;
      assert about[m] in here;
      var i :| 0 <= i < |here| && here[i] == about[m];
      assert IdsOf(here)[i] == x;
    }
  }

  // ----- a survivor's occurrences are those of all the claims remapped to it -----------------

  lemma {:induction false} FoldedRootOccurrences(claims: Claims, g: Group, n: nat, o: Occurrence)
    requires n <= |g.members| && g.root in claims && forall x :: x in g.members ==> x in claims
    ensures o in FoldedRoot(claims, g, n).occurrences
       <==> o in claims[g.root].occurrences || exists i :: 0 <= i < n && o in claims[g.members[i]].occurrences
    decreases n
  {
    if n > 0 {
      FoldedRootOccurrences(claims, g, n - 1, o);
      assert g.members[n - 1] in g.members;
    }
  }

  ghost predicate Contributes(claims0: Claims, remap: Remap, y: ClaimId, x: ClaimId, o: Occurrence) {
    y in claims0 && Renamed(remap, y) == x && o in claims0[y].occurrences
  }

  lemma SurvivorOccurrences(t0: Stage, rep: Reps<ClaimId>, merged: seq<Group>, t: Stage, x: ClaimId, o: Occurrence)
    requires Separated(t0.ids, rep, merged)
    requires AllMerged(t0, rep, merged, |merged|, t)
    requires x in t.claims
    ensures o in t.claims[x].occurrences <==> exists y :: Contributes(t0.claims, t.remap, y, x, o)
  {
    var n := |merged|;
    assert PlaceOk(t0, rep, merged, n, t, x);
    if i :| 0 <= i < n && merged[i].root == x {
      RootHolds(t0, rep, merged, n, i);
      FoldedRootOccurrences(t0.claims, merged[i], |merged[i].members|, o);
      ContributorsOfRoot(t0, rep, merged, t, i, o);
    } else {
      NotARoot(t0.claims, merged, n, x);
      forall y | Contributes(t0.claims, t.remap, y, x, o) ensures y == x {
        assert PlaceOk(t0, rep, merged, n, t, y);
        if y in t.remap {
          var j :| 0 <= j < n && y in merged[j].members && y != merged[j].root;
          MemberRep(t0.ids, rep, merged, j, y);
        }
      }
      assert o in t.claims[x].occurrences ==> Contributes(t0.claims, t.remap, x, x, o);
    }
  }

  lemma {:induction false} RootHolds(t0: Stage, rep: Reps<ClaimId>, merged: seq<Group>, n: nat, i: nat)
    requires i < n <= |merged| && Separated(t0.ids, rep, merged)
    requires forall x :: x in t0.ids <==> x in t0.claims
    ensures merged[i].root in t0.claims && forall x :: x in merged[i].members ==> x in t0.claims
    ensures AfterMerges(t0.claims, merged, n, merged[i].root) == MergedRoot(t0.claims, merged[i])
    decreases n
  {
    GroupKnown(t0, rep, merged, i);
    if i < n - 1 {
      RootHolds(t0, rep, merged, n - 1, i);
      OtherRoot(t0.claims, merged, n, merged[i].root);
    } else {
      OwnRoot(t0.claims, merged, n);
    }
  }

  lemma OtherRoot(claims0: Claims, merged: seq<Group>, n: nat, x: ClaimId)
    requires 0 < n <= |merged| && x in claims0 && merged[n - 1].root != x
    ensures AfterMerges(claims0, merged, n, x) == AfterMerges(claims0, merged, n - 1, x)
  {
  }

  lemma OwnRoot(claims0: Claims, merged: seq<Group>, n: nat)
    requires 0 < n <= |merged| && merged[n - 1].root in claims0
    requires forall y :: y in merged[n - 1].members ==> y in claims0
    ensures AfterMerges(claims0, merged, n, merged[n - 1].root) == MergedRoot(claims0, merged[n - 1])
  {
  }

  lemma GroupKnown(t0: Stage, rep: Reps<ClaimId>, merged: seq<Group>, i: nat)
    requires i < |merged| && Separated(t0.ids, rep, merged)
    requires forall x :: x in t0.ids <==> x in t0.claims
    ensures merged[i].root in t0.claims && forall x :: x in merged[i].members ==> x in t0.claims
  {
    assert merged[i] in merged;
    assert merged[i].root in merged[i].members;
  }

  lemma ContributorsOfRoot(t0: Stage, rep: Reps<ClaimId>, merged: seq<Group>, t: Stage, i: nat, o: Occurrence)
    requires i < |merged| && Separated(t0.ids, rep, merged)
    requires AllMerged(t0, rep, merged, |merged|, t)
    requires merged[i].root in t0.claims && forall x :: x in merged[i].members ==> x in t0.claims
    ensures var g := merged[i];
            (o in t0.claims[g.root].occurrences
             || exists m :: 0 <= m < |g.members| && o in t0.claims[g.members[m]].occurrences)
            <==> exists y :: Contributes(t0.claims, t.remap, y, g.root, o)
  {
    var g := merged[i];
    var n := |merged|;
    assert g in merged;
    assert PlaceOk(t0, rep, merged, n, t, g.root);
    RootStays(t0.ids, rep, merged, i);
    forall m | 0 <= m < |g.members| && o in t0.claims[g.members[m]].occurrences
      ensures Contributes(t0.claims, t.remap, g.members[m], g.root, o)
    {
      var y := g.members[m];
      assert y in g.members;
      assert y != g.root ==> Gone(merged, n, y);
      assert PlaceOk(t0, rep, merged, n, t, y);
    }
    if o in t0.claims[g.root].occurrences {
      assert Contributes(t0.claims, t.remap, g.root, g.root, o);
    }
    forall y | Contributes(t0.claims, t.remap, y, g.root, o) ensures y == g.root || y in g.members {
      assert PlaceOk(t0, rep, merged, n, t, y);
      if y in t.remap {
        var j :| 0 <= j < n && y in merged[j].members && y != merged[j].root;
        assert merged[j] in merged;
      }
    }
  }

  lemma RootStays(ids0: seq<ClaimId>, rep: Reps<ClaimId>, merged: seq<Group>, i: nat)
    requires i < |merged| && Separated(ids0, rep, merged)
    ensures !Gone(merged, |merged|, merged[i].root)
  {
    forall j | 0 <= j < |merged| && merged[i].root in merged[j].members ensures merged[j].root == merged[i].root {
      MemberRep(ids0, rep, merged, i, merged[i].root);
      MemberRep(ids0, rep, merged, j, merged[i].root);
    }
  }

  lemma MemberRep(ids0: seq<ClaimId>, rep: Reps<ClaimId>, merged: seq<Group>, i: nat, x: ClaimId)
    requires i < |merged| && Separated(ids0, rep, merged)
    ensures merged[i].root in merged[i].members
    ensures x in merged[i].members ==> x in rep && rep[x] == merged[i].root
  {
    assert merged[i] in merged;
  }

  // ----- links --------------------------------------------------------------------------------

  /** Links between survivors: renamed, and kept only between two different living claims. */
  function LivingLinks(claims: Claims, remap: Remap, links: seq<IdPair>): seq<IdPair> {
    if links == [] then []
    else
      var front := LivingLinks(claims, remap, links[..|links| - 1]);
      var a, b := Renamed(remap, links[|links| - 1].0), Renamed(remap, links[|links| - 1].1);
      if a != b && a in claims && b in claims then front + [(a, b)] else front
  }

  lemma {:induction false} LivingLinksLive(claims: Claims, remap: Remap, links: seq<IdPair>)
    ensures forall e :: e in LivingLinks(claims, remap, links) ==> e.0 != e.1 && e.0 in claims && e.1 in claims
  {
    if links != [] {
      LivingLinksLive(claims, remap, links[..|links| - 1]);
    }
  }

  /** What the links append to x: the other end of each, in order. */
  function Opponents(links: seq<IdPair>, x: ClaimId): seq<ClaimId> {
    if links == [] then []
    else
      var front, e := Opponents(links[..|links| - 1], x), links[|links| - 1];
      if e.0 == x then front + [e.1] else if e.1 == x then front + [e.0] else front
  }

  /** The newer end of the last link that names x as the older one. */
  function Successor(links: seq<IdPair>, x: ClaimId): Option<ClaimId> {
    if links == [] then None
    else if links[|links| - 1].0 == x then Some(links[|links| - 1].1)
    else Successor(links[..|links| - 1], x)
  }

  /** a contests b exactly as often as b contests a. */
  lemma {:induction false} OpponentsSymmetric(links: seq<IdPair>, a: ClaimId, b: ClaimId)
    requires forall e :: e in links ==> e.0 != e.1
    ensures multiset(Opponents(links, a))[b] == multiset(Opponents(links, b))[a]
  {
    if links != [] {
      var front := links[..|links| - 1];
      assert forall e :: e in front ==> e in links;
      OpponentsSymmetric(front, a, b);
      assert links[|links| - 1] in links;
    }
  }

  lemma {:induction false} OpponentsLive(claims: Claims, links: seq<IdPair>, x: ClaimId)
    requires forall e :: e in links ==> e.0 != e.1 && e.0 in claims && e.1 in claims
    ensures x !in Opponents(links, x)
    ensures forall y :: y in Opponents(links, x) ==> y in claims
    ensures Successor(links, x).Some? ==> Successor(links, x).value in claims && Successor(links, x).value != x
  {
    if links != [] {
      var front := links[..|links| - 1];
      assert forall e :: e in front ==> e in links;
      OpponentsLive(claims, front, x);
      assert links[|links| - 1] in links;
    }
  }

  /** p joins x and y under their new names. */
  ghost predicate Joins(remap: Remap, p: IdPair, x: ClaimId, y: ClaimId) {
    || (Renamed(remap, p.0) == x && Renamed(remap, p.1) == y)
    || (Renamed(remap, p.0) == y && Renamed(remap, p.1) == x)
  }

  /** Between living claims nothing is lost and nothing made up: y is against x exactly when some pair joins
      them under their new names. */
  lemma {:induction false} ContestsExact(claims: Claims, remap: Remap, links: seq<IdPair>, x: ClaimId, y: ClaimId)
    requires x in claims && y in claims && x != y
    ensures y in Opponents(LivingLinks(claims, remap, links), x) <==> exists p :: p in links && Joins(remap, p, x, y)
  {
    if links != [] {
      var front, last := links[..|links| - 1], links[|links| - 1];
      ContestsExact(claims, remap, front, x, y);
      OpponentsNext(LivingLinks(claims, remap, front), (Renamed(remap, last.0), Renamed(remap, last.1)), x);
      assert y in Opponents(LivingLinks(claims, remap, links), x)
        <==> y in Opponents(LivingLinks(claims, remap, front), x) || Joins(remap, last, x, y);
      assert forall p :: p in links <==> p in front || p == last;
    }
  }

  lemma OpponentsNext(links: seq<IdPair>, e: IdPair, x: ClaimId)
    ensures Opponents(links + [e], x)
         == Opponents(links, x) + if e.0 == x then [e.1] else if e.1 == x then [e.0] else []
    ensures Successor(links + [e], x) == if e.0 == x then Some(e.1) else Successor(links, x)
  {
    assert (links + [e])[..|links|] == links;
  }

  /** Under the new names p's older end is x, and its newer end another living claim. */
  ghost predicate Follows(claims: Claims, remap: Remap, p: IdPair, x: ClaimId) {
    Renamed(remap, p.0) == x && Renamed(remap, p.1) != x && Renamed(remap, p.1) in claims
  }

  /** Pair i is the last that gives x a successor, and the successor is y. */
  ghost predicate LastFollower(claims: Claims, remap: Remap, links: seq<IdPair>, x: ClaimId, y: ClaimId, i: int) {
    && 0 <= i < |links| && Follows(claims, remap, links[i], x) && Renamed(remap, links[i].1) == y
    && forall j :: i < j < |links| ==> !Follows(claims, remap, links[j], x)
  }

  /** A living claim's successor is the one the last pair that gives it one names. */
  lemma {:induction false} SuccessorExact(claims: Claims, remap: Remap, links: seq<IdPair>, x: ClaimId, y: ClaimId)
    requires x in claims
    ensures Successor(LivingLinks(claims, remap, links), x) == Some(y)
       <==> exists i :: LastFollower(claims, remap, links, x, y, i)
  {
    if links != [] {
      var front, last := links[..|links| - 1], links[|links| - 1];
      SuccessorExact(claims, remap, front, x, y);
      OpponentsNext(LivingLinks(claims, remap, front), (Renamed(remap, last.0), Renamed(remap, last.1)), x);
      if Follows(claims, remap, last, x) {
        assert Renamed(remap, last.1) == y ==> LastFollower(claims, remap, links, x, y, |front|);
        assert forall i :: LastFollower(claims, remap, links, x, y, i) ==> i == |front|;
      } else {
        assert forall i :: LastFollower(claims, remap, links, x, y, i) <==> LastFollower(claims, remap, front, x, y, i);
      }
    }
  }

  /** The claim with its links set. */
  function WithLinks(c: Claim, contests: seq<IdPair>, supers: seq<IdPair>, x: ClaimId): Claim {
    c.(contests := Opponents(contests, x), supersededBy := Successor(supers, x))
  }

  /** Every claim with the opponents and the successor the two lists of links give it. */
  function Linked(claims: Claims, contests: seq<IdPair>, supers: seq<IdPair>): Claims {
    map x | x in claims :: WithLinks(claims[x], contests, supers, x)
  }

  /** The source clears every claim's links, then walks the two lists. */
  method LinkClaims(claims0: Claims, contests: seq<IdPair>, supers: seq<IdPair>) returns (claims: Claims)
    requires forall e :: e in contests ==> e.0 != e.1 && e.0 in claims0 && e.1 in claims0
    requires forall e :: e in supers ==> e.0 in claims0
    ensures claims == Linked(claims0, contests, supers)
  {
    claims := map x | x in claims0 :: claims0[x].(contests := [], supersededBy := None);
    for n := 0 to |contests|
      invariant claims == map x | x in claims0 :: WithLinks(claims0[x], contests[..n], [], x)
    {
      var (a, b) := contests[n];
      assert contests[n] in contests;
      assert contests[..n + 1][..n] == contests[..n];
      claims := claims[a := claims[a].(contests := claims[a].contests + [b])];
      claims := claims[b := claims[b].(contests := claims[b].contests + [a])];
    }
    assert contests[..|contests|] == contests;
    for n := 0 to |supers|
      invariant claims == map x | x in claims0 :: WithLinks(claims0[x], contests, supers[..n], x)
    {
      var (older, newer) := supers[n];
      assert supers[n] in supers;
      assert supers[..n + 1][..n] == supers[..n];
      claims := claims[older := claims[older].(supersededBy := Some(newer))];
    }
    assert supers[..|supers|] == supers;
  }

  // ----- removal events -------------------------------------------------------------------------

  function HashOf(keys: Keys, kind: string, f: Fact): string {
    keys.hash(f.text, keys.facetMap(kind, f.factClass), f.subject)
  }

  /** A fact that is no need hashes to the id the fold gives its claim in a document of that kind. */
  lemma HashIsClaimId(keys: Keys, d: Document, i: nat)
    requires i < |d.facts| && !d.facts[i].need
    ensures EventOf(keys, d, i).id == Folded(HashOf(keys, d.kind, d.facts[i]))
  {
  }

  /** What the grounded facts of the document hash to, under the facets of a kind. */
  function HashesOf(keys: Keys, kind: string, d: Document): set<string> {
    set i | 0 <= i < |d.facts| && d.facts[i].grounded :: HashOf(keys, kind, d.facts[i])
  }

  /** A claim of the old version that the new version no longer makes. */
  function RemovalOf(keys: Keys, older: Document, newer: Document, i: nat): (ClaimId, Claim)
    requires i < |older.facts|
  {
    var f := older.facts[i];
    (Removal(HashOf(keys, newer.kind, f)),
     Claim("Removed in " + newer.version + ": " + f.text, "event", f.subject, newer.kind, newer.version, f.entities,
           [Occurrence(older.id, i, older.key, f.chunk, f.text, older.version)], {older.key}, {f.text}, {newer.id},
           [], [], None))
  }

  /** The event is about the old fact's subject and entities, of the kind and version of the new document and shown
      only there; its one occurrence is the fact where the old document states it. */
  lemma RemovalDescribes(keys: Keys, older: Document, newer: Document, i: nat)
    requires i < |older.facts|
    ensures var (id, c) := RemovalOf(keys, older, newer, i);
            var f := older.facts[i];
            && id == Removal(HashOf(keys, newer.kind, f)) && Unlinked(c)
            && (c.subject, c.entities) == (f.subject, f.entities)
            && c.text == "Removed in " + newer.version + ": " + f.text
            && (c.kind, c.version, c.visible) == (newer.kind, newer.version, {newer.id}) && c.facet == "event"
            && c.sources == {older.key} && c.variants == {f.text} && |c.occurrences| == 1
            && var o := c.occurrences[0];
               && (o.doc, o.key, o.index) == (older.id, older.key, i)
               && (o.chunk, o.text, o.asserted) == (f.chunk, f.text, older.version)
  {
  }

  predicate IsRemoved(keys: Keys, older: Document, newer: Document, i: nat)
    requires i < |older.facts|
  {
    older.facts[i].grounded && HashOf(keys, newer.kind, older.facts[i]) !in HashesOf(keys, newer.kind, newer)
  }

  ghost predicate NoNeeds(d: Document) {
    forall i :: 0 <= i < |d.facts| && d.facts[i].grounded ==> !d.facts[i].need
  }

  /** Between documents of one kind that state no needs, a fact is removed exactly when no grounded fact of the newer
      one folds into its claim. */
  lemma RemovedIffGone(keys: Keys, older: Document, newer: Document, i: nat)
    requires i < |older.facts| && older.facts[i].grounded && older.kind == newer.kind
    requires NoNeeds(older) && NoNeeds(newer)
    ensures IsRemoved(keys, older, newer, i) <==>
            forall j :: 0 <= j < |newer.facts| && newer.facts[j].grounded ==>
                          EventOf(keys, newer, j).id != EventOf(keys, older, i).id
  {
    HashIsClaimId(keys, older, i);
    forall j | 0 <= j < |newer.facts| && newer.facts[j].grounded
      ensures EventOf(keys, newer, j).id == Folded(HashOf(keys, newer.kind, newer.facts[j]))
      ensures HashOf(keys, newer.kind, newer.facts[j]) in HashesOf(keys, newer.kind, newer)
    {
      HashIsClaimId(keys, newer, j);
    }
  }

  /** One removal event for every grounded fact among the first n whose hash the new version lacks, in order. */
  function RemovedBetween(keys: Keys, older: Document, newer: Document, n: nat): seq<(ClaimId, Claim)>
    requires n <= |older.facts|
  {
    if n == 0 then []
    else
      var front := RemovedBetween(keys, older, newer, n - 1);
      if IsRemoved(keys, older, newer, n - 1) then front + [RemovalOf(keys, older, newer, n - 1)] else front
  }

  /** The store as the comparison of versions sees it. */
  datatype Archive = Archive(
    supersedes: DocId -> Option<DocId>, appendOnly: DocId -> bool, document: DocId -> Option<Document>)

  /** The two versions to compare for a current document, if both are there and extracted. */
  function Versions(archive: Archive, id: DocId): Option<(Document, Document)> {
    if archive.supersedes(id) == None || archive.appendOnly(id) then None
    else
      var newer, older := archive.document(id), archive.document(archive.supersedes(id).value);
      if newer.None? || older.None? || !older.value.extracted || !newer.value.extracted then None
      else Some((older.value, newer.value))
  }

  /** A current document is compared with the one it supersedes, as the newer, when it is no growing chat and both have
      been extracted. */
  lemma VersionsExactly(archive: Archive, id: DocId, older: Document, newer: Document)
    ensures Versions(archive, id) == Some((older, newer)) <==>
            && !archive.appendOnly(id) && archive.document(id) == Some(newer) && newer.extracted
            && exists prev :: archive.supersedes(id) == Some(prev) && archive.document(prev) == Some(older)
                              && older.extracted
  {
  }

  /** The removal events of all current documents, in the order they are walked. */
  function Removals(keys: Keys, archive: Archive, order: seq<DocId>): seq<(ClaimId, Claim)> {
    if order == [] then []
    else
      var front, versions := Removals(keys, archive, order[..|order| - 1]), Versions(archive, order[|order| - 1]);
      if versions.None? then front
      else front + RemovedBetween(keys, versions.value.0, versions.value.1, |versions.value.0.facts|)
  }

  /** A hash is among the removal events exactly when the old version states it and the new one does not. */
  lemma {:induction false} RemovedExactly(keys: Keys, older: Document, newer: Document, n: nat, hash: string)
    requires n <= |older.facts|
    ensures (exists r :: r in RemovedBetween(keys, older, newer, n) && r.0 == Removal(hash))
       <==> exists i ::
              0 <= i < n && IsRemoved(keys, older, newer, i) && HashOf(keys, newer.kind, older.facts[i]) == hash
  {
    if n > 0 {
      RemovedExactly(keys, older, newer, n - 1, hash);
      var front, all := RemovedBetween(keys, older, newer, n - 1), RemovedBetween(keys, older, newer, n);
      forall r | r in front ensures r in all {
      }
      if IsRemoved(keys, older, newer, n - 1) {
        assert all[|front|] == RemovalOf(keys, older, newer, n - 1);
      }
    }
  }

  /** Every removal event stands under a removal id, unlinked, with one occurrence. */
  ghost predicate RemovalEvents(removed: seq<(ClaimId, Claim)>) {
    forall r :: r in removed ==> r.0.Removal? && Unlinked(r.1) && |r.1.occurrences| == 1
  }

  lemma {:induction false} RemovedAreEvents(keys: Keys, older: Document, newer: Document, n: nat)
    requires n <= |older.facts|
    ensures RemovalEvents(RemovedBetween(keys, older, newer, n))
  {
    if n > 0 {
      RemovedAreEvents(keys, older, newer, n - 1);
    }
  }

  lemma {:induction false} RemovalsAreEvents(keys: Keys, archive: Archive, order: seq<DocId>)
    ensures RemovalEvents(Removals(keys, archive, order))
  {
    if order != [] {
      RemovalsAreEvents(keys, archive, order[..|order| - 1]);
      var versions := Versions(archive, order[|order| - 1]);
      if versions.Some? {
        RemovedAreEvents(keys, versions.value.0, versions.value.1, |versions.value.0.facts|);
      }
    }
  }

  method CompareVersions(keys: Keys, older: Document, newer: Document) returns (removed: seq<(ClaimId, Claim)>)
    ensures removed == RemovedBetween(keys, older, newer, |older.facts|)
  {
    var newKeys := {};
    for n := 0 to |newer.facts|
      invariant newKeys == set i | 0 <= i < n && newer.facts[i].grounded :: HashOf(keys, newer.kind, newer.facts[i])
    {
      if newer.facts[n].grounded {
        newKeys := newKeys + {HashOf(keys, newer.kind, newer.facts[n])};
      }
    }
    assert newKeys == HashesOf(keys, newer.kind, newer);
    removed := [];
    for n := 0 to |older.facts|
      invariant removed == RemovedBetween(keys, older, newer, n)
    {
      if older.facts[n].grounded && HashOf(keys, newer.kind, older.facts[n]) !in newKeys {
        removed := removed + [RemovalOf(keys, older, newer, n)];
      }
    }
  }

  /** The removal events of every current document that supersedes an earlier version of its key. */
  method Supersession(keys: Keys, archive: Archive, order: seq<DocId>) returns (removed: seq<(ClaimId, Claim)>)
    ensures removed == Removals(keys, archive, order) && RemovalEvents(removed)
  {
    removed := [];
    for n := 0 to |order|
      invariant removed == Removals(keys, archive, order[..n])
    {
      assert order[..n + 1][..n] == order[..n];
      var versions := Versions(archive, order[n]);
      if versions.None? {
        continue;
      }
      var more := CompareVersions(keys, versions.value.0, versions.value.1);
      removed := removed + more;
    }
    assert order[..|order|] == order;
    RemovalsAreEvents(keys, archive, order);
  }

  // ----- removal events in the table --------------------------------------------------------------

  function OccurrencesIn(removed: seq<(ClaimId, Claim)>): multiset<Occurrence> {
    if removed == [] then multiset{}
    else OccurrencesIn(removed[..|removed| - 1]) + multiset(removed[|removed| - 1].1.occurrences)
  }

  ghost predicate Table(t: Tables) {
    Distinct(t.ids) && forall x :: x in t.ids <==> x in t.claims
  }

  /** The folded claim is there as it was, with the same occurrences. */
  ghost predicate KeptAt(claims0: Claims, claims: Claims, x: ClaimId) {
    (x in claims <==> x in claims0) && (x in claims ==> claims[x].occurrences == claims0[x].occurrences)
  }

  ghost predicate FoldedKept(claims0: Claims, claims: Claims) {
    forall x: ClaimId {:trigger KeptAt(claims0, claims, x)} :: x.Folded? ==> KeptAt(claims0, claims, x)
  }

  /** The same removal seen from another edition: one claim, every source. */
  function Widened(prev: Claim, c: Claim): Claim {
    prev.(occurrences := prev.occurrences + c.occurrences, sources := prev.sources + c.sources,
          visible := prev.visible + c.visible)
  }

  /** Whatever either edition had as occurrence, source or place to show; all else as the earlier one had it. */
  lemma WidenedExactly(prev: Claim, c: Claim)
    ensures var w := Widened(prev, c);
            && multiset(w.occurrences) == multiset(prev.occurrences) + multiset(c.occurrences)
            && prev.occurrences <= w.occurrences
            && (forall k :: k in w.sources <==> k in prev.sources || k in c.sources)
            && (forall d :: d in w.visible <==> d in prev.visible || d in c.visible)
            && w.(occurrences := prev.occurrences, sources := prev.sources, visible := prev.visible) == prev
  {
  }

  function WithRemoval(t: Tables, r: (ClaimId, Claim)): Tables {
    if r.0 in t.claims then t.(claims := t.claims[r.0 := Widened(t.claims[r.0], r.1)])
    else t.(ids := t.ids + [r.0], claims := t.claims[r.0 := r.1])
  }

  /** The table after every removal event entered under its own id or widened an earlier one. */
  function WithRemovals(t: Tables, removed: seq<(ClaimId, Claim)>): Tables {
    if removed == [] then t
    else WithRemoval(WithRemovals(t, removed[..|removed| - 1]), removed[|removed| - 1])
  }

  ghost predicate Added(t0: Tables, removed: seq<(ClaimId, Claim)>, t: Tables) {
    && Table(t) && FoldedKept(t0.claims, t.claims)
    && AllOccurrences(t.ids, t.claims) == AllOccurrences(t0.ids, t0.claims) + OccurrencesIn(removed)
  }

  lemma WidenedKeeps(t: Tables, r: (ClaimId, Claim))
    requires Table(t) && r.0.Removal? && r.0 in t.claims
    ensures var claims := t.claims[r.0 := Widened(t.claims[r.0], r.1)];
            && Table(t.(claims := claims)) && FoldedKept(t.claims, claims)
            && AllOccurrences(t.ids, claims) == AllOccurrences(t.ids, t.claims) + multiset(r.1.occurrences)
  {
    AllOccurrencesGrow(t.ids, t.claims, r.0, Widened(t.claims[r.0], r.1), r.1.occurrences);
  }

  lemma NewKeeps(t: Tables, r: (ClaimId, Claim))
    requires Table(t) && r.0.Removal? && r.0 !in t.claims
    ensures var ids, claims := t.ids + [r.0], t.claims[r.0 := r.1];
            && Table(t.(ids := ids, claims := claims)) && FoldedKept(t.claims, claims)
            && AllOccurrences(ids, claims) == AllOccurrences(t.ids, t.claims) + multiset(r.1.occurrences)
  {
    NewOccurrences(t.ids, t.claims, r.0, r.1);
    DistinctSnoc(t.ids, r.0);
  }

  lemma NewOccurrences(ids: seq<ClaimId>, claims: Claims, id: ClaimId, c: Claim)
    requires id !in claims && forall x :: x in ids ==> x in claims
    ensures AllOccurrences(ids + [id], claims[id := c]) == AllOccurrences(ids, claims) + multiset(c.occurrences)
  {
    AllOccurrencesSame(ids, claims, claims[id := c]);
    assert (ids + [id])[..|ids|] == ids;
  }

  lemma WithRemovalKeeps(t: Tables, r: (ClaimId, Claim))
    requires Table(t) && r.0.Removal?
    ensures var t' := WithRemoval(t, r);
            && Table(t') && FoldedKept(t.claims, t'.claims)
            && AllOccurrences(t'.ids, t'.claims) == AllOccurrences(t.ids, t.claims) + multiset(r.1.occurrences)
  {
    if r.0 in t.claims {
      WidenedKeeps(t, r);
    } else {
      NewKeeps(t, r);
    }
  }

  lemma AddedMore(t0: Tables, front: seq<(ClaimId, Claim)>, t: Tables, r: (ClaimId, Claim), t': Tables)
    requires Added(t0, front, t) && Table(t') && FoldedKept(t.claims, t'.claims)
    requires AllOccurrences(t'.ids, t'.claims) == AllOccurrences(t.ids, t.claims) + multiset(r.1.occurrences)
    ensures Added(t0, front + [r], t')
  {
    assert OccurrencesIn(front + [r]) == OccurrencesIn(front) + multiset(r.1.occurrences) by {
      assert (front + [r])[..|front|] == front;
    }
    FoldedKeptTransitive(t0.claims, t.claims, t'.claims);
  }

  lemma FoldedKeptTransitive(a: Claims, b: Claims, c: Claims)
    requires FoldedKept(a, b) && FoldedKept(b, c)
    ensures FoldedKept(a, c)
  {
    forall x: ClaimId | x.Folded? ensures KeptAt(a, c, x) {
      assert KeptAt(a, b, x) && KeptAt(b, c, x);
    }
  }

  lemma AddedStep(t0: Tables, front: seq<(ClaimId, Claim)>, t: Tables, r: (ClaimId, Claim))
    requires Added(t0, front, t) && r.0.Removal?
    ensures Added(t0, front + [r], WithRemoval(t, r))
  {
    WithRemovalKeeps(t, r);
    AddedMore(t0, front, t, r, WithRemoval(t, r));
  }

  lemma WithRemovalsNext(t: Tables, removed: seq<(ClaimId, Claim)>, r: (ClaimId, Claim))
    ensures WithRemovals(t, removed + [r]) == WithRemoval(WithRemovals(t, removed), r)
  {
    assert (removed + [r])[..|removed|] == removed;
  }

  lemma RemovalsAddedNext(t: Tables, removed: seq<(ClaimId, Claim)>, r: (ClaimId, Claim))
    requires Added(t, removed, WithRemovals(t, removed)) && r.0.Removal?
    ensures Added(t, removed + [r], WithRemovals(t, removed + [r]))
  {
    AddedStep(t, removed, WithRemovals(t, removed), r);
    WithRemovalsNext(t, removed, r);
  }

  /** Folded claims stay as they were, and the occurrences add up. */
  lemma {:induction false} RemovalsAdded(t: Tables, removed: seq<(ClaimId, Claim)>)
    requires Table(t) && forall r :: r in removed ==> r.0.Removal?
    ensures Added(t, removed, WithRemovals(t, removed))
  {
    if removed == [] {
      NothingAdded(t);
    } else {
      var front, last := removed[..|removed| - 1], removed[|removed| - 1];
      assert last in removed;
      RemovalsAdded(t, front);
      assert removed == front + [last];
      RemovalsAddedNext(t, front, last);
    }
  }

  lemma {:induction false} IndexesKept(t: Tables, removed: seq<(ClaimId, Claim)>)
    ensures WithRemovals(t, removed).byChunk == t.byChunk && WithRemovals(t, removed).bySubject == t.bySubject
  {
    if removed != [] {
      IndexesKept(t, removed[..|removed| - 1]);
    }
  }

  lemma NothingAdded(t: Tables)
    requires Table(t)
    ensures Added(t, [], t)
  {
    forall x: ClaimId | x.Folded? ensures KeptAt(t.claims, t.claims, x) {
    }
  }

  method AddRemovals(t0: Tables, removed: seq<(ClaimId, Claim)>) returns (t: Tables)
    requires Table(t0) && forall r :: r in removed ==> r.0.Removal?
    ensures t == WithRemovals(t0, removed) && Added(t0, removed, t)
  {
    t := t0;
    for n := 0 to |removed|
      invariant t == WithRemovals(t0, removed[..n])
    {
      assert removed[..n + 1][..n] == removed[..n];
      var (id, c) := removed[n];
      if id in t.claims {
        t := t.(claims := t.claims[id := Widened(t.claims[id], c)]);
      } else {
        t := t.(ids := t.ids + [id], claims := t.claims[id := c]);
      }
    }
    assert removed[..|removed|] == removed;
    RemovalsAdded(t0, removed);
  }

  function DocsOf(occs: seq<Occurrence>): set<DocId> {
    set i | 0 <= i < |occs| :: occs[i].doc
  }

  /** A claim nothing has said where to show is visible in every document that states it. */
  function Shown(c: Claim): Claim {
    if c.visible == {} then c.(visible := DocsOf(c.occurrences)) else c
  }

  /** Every claim is shown somewhere unless it is stated nowhere, and nothing else of it changes. */
  lemma ShownExactly(c: Claim, d: DocId)
    ensures d in Shown(c).visible <==>
            if c.visible == {} then exists o :: o in c.occurrences && o.doc == d else d in c.visible
    ensures Shown(c).(visible := c.visible) == c
  {
    if o :| o in c.occurrences && o.doc == d {
      var i :| 0 <= i < |c.occurrences| && c.occurrences[i] == o;
      assert c.occurrences[i].doc in DocsOf(c.occurrences);
    }
  }

  function AllShown(t: Tables): Tables {
    t.(claims := map x | x in t.claims :: Shown(t.claims[x]))
  }

  /** So it is with every claim of the table. */
  lemma AllShownExactly(t: Tables, x: ClaimId, d: DocId)
    requires x in t.claims
    ensures var u := AllShown(t);
            && x in u.claims && u.claims.Keys == t.claims.Keys && u.ids == t.ids
            && u.claims[x].(visible := t.claims[x].visible) == t.claims[x]
            && (d in u.claims[x].visible <==>
                if t.claims[x].visible == {} then exists o :: o in t.claims[x].occurrences && o.doc == d
                else d in t.claims[x].visible)
  {
    ShownExactly(t.claims[x], d);
  }

  lemma ShownKeeps(t0: Tables, removed: seq<(ClaimId, Claim)>, t: Tables)
    requires Added(t0, removed, t)
    ensures Added(t0, removed, AllShown(t))
  {
    AllOccurrencesSame(t.ids, t.claims, AllShown(t).claims);
    forall x: ClaimId | x.Folded? ensures KeptAt(t0.claims, AllShown(t).claims, x) {
      assert KeptAt(t0.claims, t.claims, x);
    }
  }

  // ----- the whole section --------------------------------------------------------------------

  /** Every folded claim is listed once, under exactly the chunks its occurrences name. */
  ghost predicate IndexExact(claims: Claims, byChunk: Index<ChunkId>) {
    && (forall c :: Distinct(Listed(byChunk, c)))
    && (forall c, x: ClaimId :: x in Listed(byChunk, c) <==> x.Folded? && OccursIn(claims, x, c))
  }

  /** `contests` is symmetric and irreflexive, and links name only living claims. */
  ghost predicate LinksOk(claims: Claims) {
    && (forall a, b :: a in claims && b in claims ==> (b in claims[a].contests <==> a in claims[b].contests))
    && (forall a :: a in claims ==> a !in claims[a].contests)
    && (forall a, b :: a in claims && b in claims[a].contests ==> b in claims)
    && (forall a :: a in claims && claims[a].supersededBy.Some? ==>
                      claims[a].supersededBy.value in claims && claims[a].supersededBy.value != a)
  }

  /** Every pair of claims in conflict is recorded at both ends, under their new names, and no other; every
      claim superseded by another living one names its last successor. */
  ghost predicate LinksExact(claims: Claims, remap: Remap, contests: seq<IdPair>, supers: seq<IdPair>) {
    && (forall x, y :: x in claims && y in claims && x != y ==>
          (y in claims[x].contests <==> exists p :: p in contests && Joins(remap, p, x, y)))
    && (forall x, y :: x in claims ==>
          (claims[x].supersededBy == Some(y) <==> exists i :: LastFollower(claims, remap, supers, x, y, i)))
  }

  ghost predicate IndexRenamed<K(!new)>(index0: Index<K>, remap: Remap, index: Index<K>) {
    index.Keys == index0.Keys && forall k :: k in index ==> index[k] == Dedup(RenameAll(remap, index0[k]))
  }

  /** An index entry after the remap: what the old entry held, under its new names. */
  lemma RemappedEntry(byChunk0: Index<ChunkId>, byChunk: Index<ChunkId>, remap: Remap, c: ChunkId, x: ClaimId)
    requires IndexRenamed(byChunk0, remap, byChunk)
    ensures Distinct(Listed(byChunk, c))
    ensures x in Listed(byChunk, c) <==> exists y :: y in Listed(byChunk0, c) && Renamed(remap, y) == x
  {
    if c in byChunk {
      RenameAllElems(remap, byChunk0[c], x);
    }
  }

  ghost predicate FoldedGroups(merged: seq<Group>) {
    forall g, x: ClaimId :: g in merged && x in g.members ==> x.Folded?
  }

  /** The fold of the events, and the table the merging starts from. */
  ghost predicate Gathered(events: seq<Event>, folded: Tables, claims: Claims) {
    && FoldOf(events, folded)
    && (forall id :: id in folded.claims ==> id.Folded?)
    && FoldedKept(folded.claims, claims)
  }

  /** The groups are classes of folded claims, and all of them have been merged. */
  ghost predicate Joined(t0: Stage, rep: Reps<ClaimId>, merged: seq<Group>, t: Stage) {
    && Separated(t0.ids, rep, merged) && FoldedGroups(merged)
    && AllMerged(t0, rep, merged, |merged|, t)
  }

  /** After the remap a claim is listed under a chunk exactly when it is no removal event and one of its
      occurrences, its own or one it absorbed, names the chunk. */
  lemma ChunkIndexExact(events: seq<Event>, folded: Tables, t0: Stage, rep: Reps<ClaimId>, merged: seq<Group>,
                        t: Stage, byChunk: Index<ChunkId>, c: ChunkId, x: ClaimId)
    requires Gathered(events, folded, t0.claims) && Joined(t0, rep, merged, t)
    requires IndexRenamed(folded.byChunk, t.remap, byChunk)
    ensures x in Listed(byChunk, c) <==> x.Folded? && OccursIn(t.claims, x, c)
  {
    RemappedEntry(folded.byChunk, byChunk, t.remap, c, x);
    if x in Listed(byChunk, c) {
      var y :| y in Listed(folded.byChunk, c) && Renamed(t.remap, y) == x;
      ListedMeansOccurs(events, folded, t0, rep, merged, t, c, y);
    }
    if x.Folded? && OccursIn(t.claims, x, c) {
      OccursMeansListed(events, folded, t0, rep, merged, t, c, x);
    }
  }

  lemma OccursMeansListed(events: seq<Event>, folded: Tables, t0: Stage, rep: Reps<ClaimId>, merged: seq<Group>,
                          t: Stage, c: ChunkId, x: ClaimId)
    requires Gathered(events, folded, t0.claims) && Joined(t0, rep, merged, t)
    requires x.Folded? && OccursIn(t.claims, x, c)
    ensures exists y :: y in Listed(folded.byChunk, c) && Renamed(t.remap, y) == x
  {
    var o :| o in t.claims[x].occurrences && o.chunk == Some(c);
    SurvivorOccurrences(t0, rep, merged, t, x, o);
    var y :| Contributes(t0.claims, t.remap, y, x, o);
    assert PlaceOk(t0, rep, merged, |merged|, t, y);
    if y in t.remap {
      var i :| 0 <= i < |merged| && y in merged[i].members && y != merged[i].root;
      assert merged[i] in merged;
    }
    assert y.Folded? && KeptAt(folded.claims, t0.claims, y);
    assert ClaimOk(events, folded.claims, y) && ChunkOk(events, folded.byChunk, c);
    FoldIndexExact(events, folded.claims, folded.byChunk, c, y);
  }

  lemma ListedMeansOccurs(events: seq<Event>, folded: Tables, t0: Stage, rep: Reps<ClaimId>, merged: seq<Group>,
                          t: Stage, c: ChunkId, y: ClaimId)
    requires Gathered(events, folded, t0.claims) && Joined(t0, rep, merged, t)
    requires y in Listed(folded.byChunk, c)
    ensures Renamed(t.remap, y).Folded? && OccursIn(t.claims, Renamed(t.remap, y), c)
  {
    var x := Renamed(t.remap, y);
    assert ClaimOk(events, folded.claims, y) && ChunkOk(events, folded.byChunk, c);
    assert y in folded.claims ==> KeptAt(folded.claims, t0.claims, y);
    FoldIndexExact(events, folded.claims, folded.byChunk, c, y);
    var o :| o in folded.claims[y].occurrences && o.chunk == Some(c);
    assert PlaceOk(t0, rep, merged, |merged|, t, y);
    if y in t.remap {
      var i :| 0 <= i < |merged| && y in merged[i].members && y != merged[i].root;
      MemberRep(t0.ids, rep, merged, i, y);
      assert merged[i] in merged && x in merged[i].members;
    }
    assert Contributes(t0.claims, t.remap, y, x, o);
    SurvivorOccurrences(t0, rep, merged, t, x, o);
  }

  lemma RemapExact(events: seq<Event>, folded: Tables, t0: Stage, rep: Reps<ClaimId>, merged: seq<Group>,
                   t: Stage, byChunk: Index<ChunkId>)
    requires Gathered(events, folded, t0.claims) && Joined(t0, rep, merged, t)
    requires IndexRenamed(folded.byChunk, t.remap, byChunk)
    ensures IndexExact(t.claims, byChunk)
  {
    forall c, x
      ensures Distinct(Listed(byChunk, c)) && (x in Listed(byChunk, c) <==> x.Folded? && OccursIn(t.claims, x, c))
    {
      RemappedEntry(folded.byChunk, byChunk, t.remap, c, x);
      ChunkIndexExact(events, folded, t0, rep, merged, t, byChunk, c, x);
    }
  }

  // ----- gathering ------------------------------------------------------------------------------

  /** The documents folded, the removal events added, and every claim shown where it is stated. */
  method Gather(keys: Keys, docs: seq<Document>, archive: Archive, order: seq<DocId>)
    returns (t: Tables, ghost folded: Tables)
    ensures FoldOf(Events(keys, docs, Elems(order)), folded)
    ensures t == AllShown(WithRemovals(folded, Removals(keys, archive, order))) && Table(t)
    ensures t.byChunk == folded.byChunk && t.bySubject == folded.bySubject
    ensures Gathered(Events(keys, docs, Elems(order)), folded, t.claims)
    ensures AllOccurrences(t.ids, t.claims)
         == multiset(OccsOf(Events(keys, docs, Elems(order)))) + OccurrencesIn(Removals(keys, archive, order))
  {
    ghost var events := Events(keys, docs, Elems(order));
    var t0, _, _ := FoldClaims(keys, docs, Elems(order));
    FoldConserves(events, t0.ids, t0.claims);
    FoldIsTable(events, t0);
    EventsFolded(keys, docs, Elems(order));
    folded := t0;
    var removed := Supersession(keys, archive, order);
    IndexesKept(t0, removed);
    t := AddRemovals(t0, removed);
    ShownKeeps(t0, removed, t);
    t := AllShown(t);
    forall x | x in folded.claims ensures x.Folded? {
      assert ClaimOk(events, folded.claims, x);
    }
  }

  lemma FoldIsTable(events: seq<Event>, t: Tables)
    requires FoldOf(events, t)
    ensures Table(t)
  {
    forall x ensures x in t.ids <==> x in t.claims {
      assert ClaimOk(events, t.claims, x);
    }
  }

  lemma {:induction false} EventsFolded(keys: Keys, docs: seq<Document>, current: set<DocId>)
    ensures forall x :: x in IdsOf(Events(keys, docs, current)) ==> x.Folded?
  {
    if docs != [] {
      var d := docs[|docs| - 1];
      EventsFolded(keys, docs[..|docs| - 1], current);
      EventsOfFolded(keys, d, |d.facts|);
      var a, b := Events(keys, docs[..|docs| - 1], current), EventsOf(keys, d, |d.facts|);
      assert IdsOf(a + b) == IdsOf(a) + IdsOf(b);
    }
  }

  lemma {:induction false} EventsOfFolded(keys: Keys, d: Document, n: nat)
    requires n <= |d.facts|
    ensures forall x :: x in IdsOf(EventsOf(keys, d, n)) ==> x.Folded?
  {
    if n > 0 {
      EventsOfFolded(keys, d, n - 1);
      if d.facts[n - 1].grounded {
        AppendEvent(EventsOf(keys, d, n - 1), EventOf(keys, d, n - 1));
        assert EventOf(keys, d, n - 1).id.Folded?;
      }
    }
  }

  // ----- merging --------------------------------------------------------------------------------

  /** What nominates, what judges, and the contests read off single-valued relations of the claims. */
  datatype Tools = Tools(nominator: Nominator, language: Language, relContests: Claims -> seq<IdPair>)

  /** The right pairs, all of them, each once. */
  ghost predicate PairsOk(nm: Nominator, t: Tables, pairs: seq<Pair>) {
    && DistinctPairs(pairs)
    && (forall p :: p in pairs ==> PairOk(nm, t.ids, t.claims, p))
    && (forall key, tier :: Covered(nm, t.ids, t.claims, pairs, key, tier))
  }

  function Verdicts(tools: Tools, t: Tables, pairs: seq<Pair>, v: Verdict): seq<IdPair> {
    Judged(tools.language, t.claims, pairs, v)
  }

  /** The table after the nominated pairs are judged and the classes of the merge verdicts merged. */
  ghost predicate MergedBy(tools: Tools, t: Tables, pairs: seq<Pair>, merged: seq<Group>, joined: Stage) {
    var rep := JoinedAll(Verdicts(tools, t, pairs, Merge));
    && PairsOk(tools.nominator, t, pairs)
    && MergedOk(t.ids, rep, merged)
    && Joined(Stage(t.ids, t.claims, map[]), rep, merged, joined)
  }

  /** Nominate, check and merge in place. */
  method MergeClaims(tools: Tools, table: ClaimTable, ghost t: Tables)
    returns (remap: Remap, contests: seq<IdPair>, supersedes: seq<IdPair>, ghost pairs: seq<Pair>,
             ghost merged: seq<Group>)
    requires table.Valid() && table.ids == t.ids && table.claims == t.claims
    modifies table
    ensures table.Valid() && table.Occurrences() == old(table.Occurrences())
    ensures MergedBy(tools, t, pairs, merged, Stage(table.ids, table.claims, remap))
    ensures contests == Verdicts(tools, t, pairs, Contests) && supersedes == Verdicts(tools, t, pairs, Supersedes)
  {
    var nominated := Nominate(tools.nominator, table.ids, table.claims);
    var groups, nMerged, nSeparate;
    groups, contests, supersedes, nMerged, nSeparate :=
      ResolvePairs(tools.language, table.ids, table.claims, nominated);
    pairs, merged := nominated, groups;
    GroupsReady(tools, t, pairs, merged);
    remap := table.ApplyMerges(groups, JoinedAll(Verdicts(tools, t, pairs, Merge)));
  }

  lemma GroupsReady(tools: Tools, t: Tables, pairs: seq<Pair>, merged: seq<Group>)
    requires Distinct(t.ids)
    requires forall p :: p in pairs ==> PairOk(tools.nominator, t.ids, t.claims, p)
    requires MergedOk(t.ids, JoinedAll(Verdicts(tools, t, pairs, Merge)), merged)
    ensures Separated(t.ids, JoinedAll(Verdicts(tools, t, pairs, Merge)), merged)
    ensures FoldedGroups(merged)
  {
    var rep := JoinedAll(Verdicts(tools, t, pairs, Merge));
    forall g | g in merged
      ensures GroupIn(t.ids, g)
      ensures forall x: ClaimId :: x in g.members ==> x.Folded? && x in rep && rep[x] == g.root
    {
      GroupInOneBlock(tools.nominator, tools.language, t.ids, t.claims, pairs, merged, g);
      KeyedElems(t.ids, RootIn(rep), Some(g.root));
    }
  }

  /** Every id of the table the merging starts from survives, or leads to one that does. */
  lemma DroppedLeadToSurvivors(tools: Tools, t: Tables, pairs: seq<Pair>, merged: seq<Group>, joined: Stage, x: ClaimId)
    requires MergedBy(tools, t, pairs, merged, joined) && x in t.ids
    ensures Renamed(joined.remap, x) in joined.claims && (x in joined.claims <==> x !in joined.remap)
  {
    assert PlaceOk(Stage(t.ids, t.claims, map[]), JoinedAll(Verdicts(tools, t, pairs, Merge)), merged, |merged|,
                   joined, x);
  }

  /** Two different claims end up under one id exactly when merge verdicts connect them. */
  lemma MergedExactly(tools: Tools, t: Tables, pairs: seq<Pair>, merged: seq<Group>, joined: Stage, a: ClaimId,
                      b: ClaimId)
    requires Distinct(t.ids) && MergedBy(tools, t, pairs, merged, joined) && a in t.ids && b in t.ids && a != b
    ensures Renamed(joined.remap, a) == Renamed(joined.remap, b) <==> Connected(Verdicts(tools, t, pairs, Merge), a, b)
  {
    var rep := JoinedAll(Verdicts(tools, t, pairs, Merge));
    MergedAreClasses(tools.language, t.ids, t.claims, pairs, merged, a, b);
    if exists g :: g in merged && a in g.members && b in g.members {
      var g :| g in merged && a in g.members && b in g.members;
      LandsOnRoot(t, rep, merged, joined, g, a);
      LandsOnRoot(t, rep, merged, joined, g, b);
    }
    if Renamed(joined.remap, a) == Renamed(joined.remap, b) {
      CameFromGroup(t, rep, merged, joined, a);
      CameFromGroup(t, rep, merged, joined, b);
      SameRootSameGroup(t, rep, merged, joined, a, b);
    }
  }

  lemma LandsOnRoot(t: Tables, rep: Reps<ClaimId>, merged: seq<Group>, joined: Stage, g: Group, x: ClaimId)
    requires Joined(Stage(t.ids, t.claims, map[]), rep, merged, joined) && g in merged && x in g.members
    ensures Renamed(joined.remap, x) == g.root
  {
    var i :| 0 <= i < |merged| && merged[i] == g;
    MemberRep(t.ids, rep, merged, i, x);
    assert PlaceOk(Stage(t.ids, t.claims, map[]), rep, merged, |merged|, joined, x);
    if x == g.root {
      RootStays(t.ids, rep, merged, i);
    } else {
      assert Gone(merged, |merged|, x);
    }
  }

  lemma CameFromGroup(t: Tables, rep: Reps<ClaimId>, merged: seq<Group>, joined: Stage, x: ClaimId)
    requires Joined(Stage(t.ids, t.claims, map[]), rep, merged, joined)
    ensures x in joined.remap ==>
            exists g :: g in merged && x in g.members && g.root in g.members && g.root == joined.remap[x]
  {
    assert PlaceOk(Stage(t.ids, t.claims, map[]), rep, merged, |merged|, joined, x);
    if x in joined.remap {
      var i :| 0 <= i < |merged| && x in merged[i].members && x != merged[i].root;
      MemberRep(t.ids, rep, merged, i, x);
      assert merged[i] in merged;
    }
  }

  lemma SameRootSameGroup(t: Tables, rep: Reps<ClaimId>, merged: seq<Group>, joined: Stage, a: ClaimId, b: ClaimId)
    requires Joined(Stage(t.ids, t.claims, map[]), rep, merged, joined)
    requires a != b && Renamed(joined.remap, a) == Renamed(joined.remap, b)
    ensures exists g :: g in merged && a in g.members && b in g.members
  {
    CameFromGroup(t, rep, merged, joined, a);
    CameFromGroup(t, rep, merged, joined, b);
    if a in joined.remap && b in joined.remap {
      var g :| g in merged && a in g.members && g.root == joined.remap[a];
      var h :| h in merged && b in h.members && h.root == joined.remap[b];
      assert g == h;
    }
  }

  // ----- end to end -----------------------------------------------------------------------------

  /** What the section went through: the fold, the table with removal events, the nominated pairs, the merged
      groups, and the table they left. */
  datatype Course = Course(folded: Tables, gathered: Tables, pairs: seq<Pair>, merged: seq<Group>, joined: Stage)

  /** The contests and supersessions between survivors, after the remap. */
  function LiveContests(tools: Tools, w: Course): seq<IdPair> {
    LivingLinks(w.joined.claims, w.joined.remap,
                Verdicts(tools, w.gathered, w.pairs, Contests) + tools.relContests(w.joined.claims))
  }

  function LiveSupersedes(tools: Tools, w: Course): seq<IdPair> {
    LivingLinks(w.joined.claims, w.joined.remap, Verdicts(tools, w.gathered, w.pairs, Supersedes))
  }

  /** The fold of the events, the removal events added, every class of merge verdicts merged, and the indexes
      under the new names. */
  ghost predicate Remapped(events: seq<Event>, removed: seq<(ClaimId, Claim)>, tools: Tools, w: Course,
                           byChunk: Index<ChunkId>, bySubject: Index<string>)
  {
    && FoldOf(events, w.folded) && w.gathered == AllShown(WithRemovals(w.folded, removed))
    && Distinct(w.gathered.ids)
    && MergedBy(tools, w.gathered, w.pairs, w.merged, w.joined)
    && IndexRenamed(w.folded.byChunk, w.joined.remap, byChunk)
    && IndexRenamed(w.folded.bySubject, w.joined.remap, bySubject)
  }

  /** All that, and the living links written. */
  ghost predicate Rebuilt(events: seq<Event>, removed: seq<(ClaimId, Claim)>, tools: Tools, w: Course, out: Tables) {
    && Remapped(events, removed, tools, w, out.byChunk, out.bySubject)
    && out.ids == w.joined.ids
       && out.claims == Linked(w.joined.claims, LiveContests(tools, w), LiveSupersedes(tools, w))
  }

  /** Nominate, check, merge in place, and remap both indexes. */
  method MergeAndRemap(tools: Tools, table: ClaimTable, t: Tables, ghost events: seq<Event>,
                       ghost removed: seq<(ClaimId, Claim)>, ghost folded: Tables)
    returns (byChunk: Index<ChunkId>, bySubject: Index<string>, remap: Remap, contests: seq<IdPair>,
             supersedes: seq<IdPair>, ghost w: Course)
    requires table.Valid() && table.ids == t.ids && table.claims == t.claims
    requires Gathered(events, folded, t.claims) && t == AllShown(WithRemovals(folded, removed))
    requires t.byChunk == folded.byChunk && t.bySubject == folded.bySubject
    modifies table
    ensures table.Valid() && table.Occurrences() == old(table.Occurrences())
    ensures Remapped(events, removed, tools, w, byChunk, bySubject)
    ensures w.joined == Stage(table.ids, table.claims, remap)
    ensures contests == Verdicts(tools, w.gathered, w.pairs, Contests)
    ensures supersedes == Verdicts(tools, w.gathered, w.pairs, Supersedes)
    ensures IndexExact(table.claims, byChunk)
  {
    ghost var pairs, merged;
    remap, contests, supersedes, pairs, merged := MergeClaims(tools, table, t);
    ghost var joined := Stage(table.ids, table.claims, remap);
    w := Course(folded, t, pairs, merged, joined);
    byChunk := RemapIndex(t.byChunk, remap);
    bySubject := RemapIndex(t.bySubject, remap);
    RemapExact(events, folded, Stage(t.ids, t.claims, map[]), JoinedAll(Verdicts(tools, t, pairs, Merge)), merged,
               joined, byChunk);
  }

  /** The source's order: fold, add the removal events, nominate, resolve, merge, remap, link. */
  method RebuildClaims(keys: Keys, docs: seq<Document>, archive: Archive, order: seq<DocId>, tools: Tools)
    returns (table: ClaimTable, byChunk: Index<ChunkId>, bySubject: Index<string>, remap: Remap, ghost w: Course)
    ensures fresh(table) && table.Valid() && w.joined.remap == remap
    ensures Rebuilt(Events(keys, docs, Elems(order)), Removals(keys, archive, order), tools, w,
                    Tables(table.ids, table.claims, byChunk, bySubject))
    ensures table.Occurrences()
         == multiset(OccsOf(Events(keys, docs, Elems(order)))) + OccurrencesIn(Removals(keys, archive, order))
    ensures IndexExact(table.claims, byChunk) && LinksOk(table.claims)
    ensures LinksExact(table.claims, remap,
                       Verdicts(tools, w.gathered, w.pairs, Contests) + tools.relContests(w.joined.claims),
                       Verdicts(tools, w.gathered, w.pairs, Supersedes))
    ensures forall x :: x in w.gathered.ids ==> Renamed(remap, x) in table.claims
  {
    ghost var folded;
    var t, contests, supersedes;
    t, folded := Gather(keys, docs, archive, order);
    table := new ClaimTable(t.ids, t.claims);
    byChunk, bySubject, remap, contests, supersedes, w :=
      MergeAndRemap(tools, table, t, Events(keys, docs, Elems(order)), Removals(keys, archive, order), folded);
    forall x | x in w.gathered.ids ensures Renamed(remap, x) in table.claims {
      DroppedLeadToSurvivors(tools, w.gathered, w.pairs, w.merged, w.joined, x);
    }
    Relink(table, remap, contests + tools.relContests(table.claims), supersedes, byChunk);
  }

  /** The links are remapped to living claims and written into the table; nothing else changes. */
  method Relink(table: ClaimTable, remap: Remap, contests: seq<IdPair>, supersedes: seq<IdPair>,
                ghost byChunk: Index<ChunkId>)
    requires table.Valid() && IndexExact(table.claims, byChunk)
    modifies table
    ensures table.Valid() && table.Occurrences() == old(table.Occurrences()) && table.ids == old(table.ids)
    ensures table.claims == Linked(old(table.claims), LivingLinks(old(table.claims), remap, contests),
                                   LivingLinks(old(table.claims), remap, supersedes))
    ensures IndexExact(table.claims, byChunk) && LinksOk(table.claims)
    ensures LinksExact(table.claims, remap, contests, supersedes)
  {
    var against, after := LivingLinks(table.claims, remap, contests), LivingLinks(table.claims, remap, supersedes);
    LivingLinksLive(table.claims, remap, contests);
    LivingLinksLive(table.claims, remap, supersedes);
    var linked := LinkClaims(table.claims, against, after);
    LinkedKeeps(table.ids, table.claims, against, after, byChunk);
    LinkedExactly(table.claims, remap, contests, supersedes);
    table.claims := linked;
  }

  lemma LinkedExactly(claims: Claims, remap: Remap, contests: seq<IdPair>, supers: seq<IdPair>)
    ensures LinksExact(Linked(claims, LivingLinks(claims, remap, contests), LivingLinks(claims, remap, supers)), remap,
                       contests, supers)
  {
    var linked := Linked(claims, LivingLinks(claims, remap, contests), LivingLinks(claims, remap, supers));
    forall x, y | x in linked && y in linked && x != y
      ensures y in linked[x].contests <==> exists p :: p in contests && Joins(remap, p, x, y)
    {
      ContestsExact(claims, remap, contests, x, y);
    }
    forall x, y | x in linked
      ensures linked[x].supersededBy == Some(y) <==> exists i :: LastFollower(linked, remap, supers, x, y, i)
    {
      SuccessorExact(claims, remap, supers, x, y);
      assert forall p :: Follows(claims, remap, p, x) <==> Follows(linked, remap, p, x);
      assert forall i :: LastFollower(claims, remap, supers, x, y, i) <==> LastFollower(linked, remap, supers, x, y, i);
    }
  }

  lemma LinkedKeeps(ids: seq<ClaimId>, claims: Claims, links: seq<IdPair>, supers: seq<IdPair>, byChunk: Index<ChunkId>)
    requires forall e :: e in links ==> e.0 != e.1 && e.0 in claims && e.1 in claims
    requires forall e :: e in supers ==> e.0 != e.1 && e.0 in claims && e.1 in claims
    requires IndexExact(claims, byChunk) && forall x :: x in ids ==> x in claims
    ensures var linked := Linked(claims, links, supers);
            && linked.Keys == claims.Keys && AllOccurrences(ids, linked) == AllOccurrences(ids, claims)
            && IndexExact(linked, byChunk) && LinksOk(linked)
  {
    var linked := Linked(claims, links, supers);
    AllOccurrencesSame(ids, claims, linked);
    LinksConsistent(claims, links, supers, linked);
    IndexStaysExact(claims, linked, byChunk);
  }

  lemma IndexStaysExact(claims: Claims, linked: Claims, byChunk: Index<ChunkId>)
    requires claims.Keys == linked.Keys && forall x :: x in claims ==> linked[x].occurrences == claims[x].occurrences
    requires IndexExact(claims, byChunk)
    ensures IndexExact(linked, byChunk)
  {
    forall c, x ensures OccursIn(claims, x, c) <==> OccursIn(linked, x, c) {
    }
  }

  lemma LinksConsistent(claims0: Claims, links: seq<IdPair>, supers: seq<IdPair>, claims: Claims)
    requires forall e :: e in links ==> e.0 != e.1 && e.0 in claims0 && e.1 in claims0
    requires forall e :: e in supers ==> e.0 != e.1 && e.0 in claims0 && e.1 in claims0
    requires claims == Linked(claims0, links, supers)
    ensures LinksOk(claims)
  {
    forall a, b | a in claims && b in claims ensures b in claims[a].contests <==> a in claims[b].contests {
      OpponentsSymmetric(links, a, b);
      assert b in claims[a].contests <==> multiset(claims[a].contests)[b] > 0;
      assert a in claims[b].contests <==> multiset(claims[b].contests)[a] > 0;
    }
    forall a | a in claims
      ensures a !in claims[a].contests
      ensures forall b :: b in claims[a].contests ==> b in claims
      ensures claims[a].supersededBy.Some? ==>
              claims[a].supersededBy.value in claims && claims[a].supersededBy.value != a
    {
      OpponentsLive(claims0, links, a);
      OpponentsLive(claims0, supers, a);
    }
  }
}
