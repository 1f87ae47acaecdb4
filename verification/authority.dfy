/** Families and authority (assoc/authority.py): document families as an equivalence closure,
    and the damped bipartite PageRank over families and claims, over the reals. */
module Authority {
  import opened Common
  import opened Folding
  import opened UnionFinds

  // ----- families ----------------------------------------------------------------------------

  datatype Doc = Doc(id: DocId, key: string, hasText: bool, shingles: set<int>)

  type Link = (DocId, DocId)

  predicate NearDuplicate(a: Doc, b: Doc, jaccard: real) {
    && a.hasText && b.hasText && a.shingles != {} && b.shingles != {}
    && |a.shingles * b.shingles| > 0
    && |a.shingles * b.shingles| as real / |a.shingles + b.shingles| as real >= jaccard
  }

  /** Two texts are near-duplicates exactly when they share a shingle and their common shingles make up the given part
      of all they have; it does not matter which is first. */
  lemma NearExactly(a: Doc, b: Doc, jaccard: real)
    ensures NearDuplicate(a, b, jaccard) <==>
            && a.hasText && b.hasText && (exists s :: s in a.shingles && s in b.shingles)
            && |a.shingles * b.shingles| as real >= jaccard * |a.shingles + b.shingles| as real
    ensures NearDuplicate(a, b, jaccard) <==> NearDuplicate(b, a, jaccard)
  {
    var both, all := a.shingles * b.shingles, a.shingles + b.shingles;
    assert both == b.shingles * a.shingles && all == b.shingles + a.shingles;
    if s :| s in a.shingles && s in b.shingles {
      assert s in both && s in all;
      RatioAtLeast(|both| as real, |all| as real, jaccard);
    } else {
      forall s ensures s !in both {
      }
      assert both == {};
    }
  }

  lemma RatioAtLeast(x: real, y: real, least: real)
    requires y > 0.0
    ensures x / y >= least <==> x >= least * y
  {
    assert x / y * y == x;
    if x / y >= least {
      assert x / y * y >= least * y;
    } else {
      assert x / y * y < least * y;
    }
  }

  predicate SameFamily(a: Doc, b: Doc, jaccard: real) {
    a.key == b.key || NearDuplicate(a, b, jaccard)
  }

  /** Every pair of documents that belong together, wherever they stand in the list. */
  ghost predicate FamilyPair(docs: seq<Doc>, jaccard: real, e: Link) {
    exists i, j :: 0 <= i < j < |docs| && SameFamily(docs[i], docs[j], jaccard) && e == (docs[i].id, docs[j].id)
  }

  /** The links list exactly generates the family relation. */
  ghost predicate Generates(docs: seq<Doc>, jaccard: real, links: seq<Link>) {
    && (forall e :: e in links ==> FamilyPair(docs, jaccard, e))
    && (forall e :: FamilyPair(docs, jaccard, e) ==> Connected(links, e.0, e.1))
  }

  /** First the versions of one key, each tied to the key's first document; then the pairs of
      near-duplicate texts. */
  method FamilyLinks(docs: seq<Doc>, jaccard: real) returns (links: seq<Link>)
    ensures Generates(docs, jaccard, links)
  {
    var keyed := KeyLinks(docs);
    forall e | e in keyed ensures FamilyPair(docs, jaccard, e) {
      assert KeyPair(docs, e);
    }
    links := NearLinks(docs, jaccard, keyed);
    forall e | FamilyPair(docs, jaccard, e) ensures Connected(links, e.0, e.1) {
      var i, j :| 0 <= i < j < |docs| && SameFamily(docs[i], docs[j], jaccard) && e == (docs[i].id, docs[j].id);
      if NearDuplicate(docs[i], docs[j], jaccard) {
        ConnectedLink(links, e.0, e.1);
      } else {
        ConnectedMonotone(keyed, links, e.0, e.1);
      }
    }
  }

  ghost predicate FirstOf(docs: seq<Doc>, n: nat, first: map<string, nat>) {
    && n <= |docs|
    && (forall k :: k in first ==> first[k] < n && docs[first[k]].key == k)
    && (forall i :: 0 <= i < n ==> docs[i].key in first && first[docs[i].key] <= i)
  }

  /** Two documents of one key, in the order of the list. */
  ghost predicate KeyPair(docs: seq<Doc>, e: Link) {
    exists i, j :: 0 <= i < j < |docs| && docs[i].key == docs[j].key && e == (docs[i].id, docs[j].id)
  }

  /** Chains every document to the first one of its key: all documents of a key, and only them. */
  method KeyLinks(docs: seq<Doc>) returns (links: seq<Link>)
    ensures forall e :: e in links ==> KeyPair(docs, e)
    ensures forall i, j :: 0 <= i < j < |docs| && docs[i].key == docs[j].key ==>
            Connected(links, docs[i].id, docs[j].id)
  {
    links := [];
    var first: map<string, nat> := map[];
    for n := 0 to |docs|
      invariant FirstOf(docs, n, first)
      invariant forall e :: e in links ==> KeyPair(docs, e)
      invariant forall i :: 0 <= i < n ==> Connected(links, docs[first[docs[i].key]].id, docs[i].id)
    {
      var k := docs[n].key;
      ghost var before, first0 := links, first;
      if k in first {
        assert KeyPair(docs, (docs[first[k]].id, docs[n].id));
        links := links + [(docs[first[k]].id, docs[n].id)];
        assert (docs[first[k]].id, docs[n].id) in links;
        ConnectedLink(links, docs[first[k]].id, docs[n].id);
      } else {
        first := first[k := n];
        ConnectedReflexive(links, docs[n].id);
      }
      forall i | 0 <= i < n ensures Connected(links, docs[first[docs[i].key]].id, docs[i].id) {
        assert Connected(before, docs[first0[docs[i].key]].id, docs[i].id);
        ConnectedMonotone(before, links, docs[first0[docs[i].key]].id, docs[i].id);
      }
    }
    forall i, j | 0 <= i < j < |docs| && docs[i].key == docs[j].key ensures Connected(links, docs[i].id, docs[j].id) {
      var f := docs[first[docs[i].key]].id;
      ConnectedSymmetric(links, f, docs[i].id);
      ConnectedTransitive(links, docs[i].id, f, docs[j].id);
    }
  }

  ghost predicate NearUpTo(docs: seq<Doc>, jaccard: real, links: seq<Link>, i: nat, j: nat) {
    forall x, y :: 0 <= x < y < |docs| && (x < i || (x == i && y < j)) && NearDuplicate(docs[x], docs[y], jaccard) ==>
                     (docs[x].id, docs[y].id) in links
  }

  method NearLinks(docs: seq<Doc>, jaccard: real, links0: seq<Link>) returns (links: seq<Link>)
    requires forall e :: e in links0 ==> FamilyPair(docs, jaccard, e)
    ensures forall e :: e in links ==> FamilyPair(docs, jaccard, e)
    ensures links0 <= links && NearUpTo(docs, jaccard, links, |docs|, 0)
  {
    links := links0;
    for i := 0 to |docs|
      invariant links0 <= links && forall e :: e in links ==> FamilyPair(docs, jaccard, e)
      invariant NearUpTo(docs, jaccard, links, i, 0)
    {
      for j := i + 1 to |docs|
        invariant links0 <= links && forall e :: e in links ==> FamilyPair(docs, jaccard, e)
        invariant NearUpTo(docs, jaccard, links, i, j)
      {
        if NearDuplicate(docs[i], docs[j], jaccard) {
          var e := (docs[i].id, docs[j].id);
          assert FamilyPair(docs, jaccard, e);
          NearStep(docs, jaccard, links, i, j);
          links := links + [e];
        }
      }
    }
  }

  lemma NearStep(docs: seq<Doc>, jaccard: real, links: seq<Link>, i: nat, j: nat)
    requires i < j < |docs| && NearUpTo(docs, jaccard, links, i, j)
    ensures NearUpTo(docs, jaccard, links + [(docs[i].id, docs[j].id)], i, j + 1)
  {
    var more := links + [(docs[i].id, docs[j].id)];
    assert more[|links|] == (docs[i].id, docs[j].id);
    assert forall e :: e in links ==> e in more;
  }

  /** Every document's family. Two documents share one exactly when the smallest equivalence
      over same-key and near-duplicate pairs relates them: whatever list generates it. */
  method Families(docs: seq<Doc>, jaccard: real) returns (family: map<DocId, DocId>, ghost links: seq<Link>)
    ensures Generates(docs, jaccard, links)
    ensures forall i :: 0 <= i < |docs| ==> docs[i].id in family
    ensures forall x, y :: x in family && y in family ==> (family[x] == family[y] <==> Connected(links, x, y))
  {
    var ls := FamilyLinks(docs, jaccard);
    links := ls;
    var uf := UnionAll(ls);
    ghost var rep := JoinedAll(ls);
    family := map[];
    for n := 0 to |docs|
      invariant fresh(uf) && Serves(uf, rep)
      invariant FiledUpTo(docs, n, rep, family)
    {
      var r := FamilyOf(uf, rep, docs[n].id);
      FiledNext(docs, n, rep, family);
      family := family[docs[n].id := r];
    }
    FiledFamilies(docs, ls, family);
  }

  lemma FiledNext(docs: seq<Doc>, n: nat, rep: Reps<DocId>, family: map<DocId, DocId>)
    requires n < |docs| && FiledUpTo(docs, n, rep, family)
    ensures FiledUpTo(docs, n + 1, rep, family[docs[n].id := Representative(rep, docs[n].id)])
  {
  }

  lemma FiledFamilies(docs: seq<Doc>, links: seq<Link>, family: map<DocId, DocId>)
    requires FiledUpTo(docs, |docs|, JoinedAll(links), family)
    ensures forall i :: 0 <= i < |docs| ==> docs[i].id in family
    ensures forall x, y :: x in family && y in family ==> (family[x] == family[y] <==> Connected(links, x, y))
  {
    forall x, y | x in family && y in family ensures family[x] == family[y] <==> Connected(links, x, y) {
      SameRepresentative(links, x, y);
    }
  }

  /** The forest still answers with these representatives; a document no link names stands for itself. */
  ghost predicate Serves(uf: UnionFind<DocId>, rep: Reps<DocId>)
    reads uf
  {
    && uf.Valid()
    && (forall x :: x in rep ==> x in uf.rep && uf.rep[x] == rep[x])
    && (forall x :: x in uf.rep && x !in rep ==> uf.rep[x] == x)
  }

  ghost predicate FiledUpTo(docs: seq<Doc>, n: nat, rep: Reps<DocId>, family: map<DocId, DocId>) {
    && n <= |docs|
    && (forall i :: 0 <= i < n ==> docs[i].id in family)
    && (forall x :: x in family ==> family[x] == Representative(rep, x))
  }

  method FamilyOf(uf: UnionFind<DocId>, ghost rep: Reps<DocId>, id: DocId) returns (r: DocId)
    requires Serves(uf, rep)
    modifies uf
    ensures Serves(uf, rep) && r == Representative(rep, id)
  {
    r := uf.Find(id);
  }

  function Representative(rep: Reps<DocId>, x: DocId): DocId {
    if x in rep then rep[x] else x
  }

  lemma SameRepresentative(links: seq<Link>, x: DocId, y: DocId)
    ensures Representative(JoinedAll(links), x) == Representative(JoinedAll(links), y) <==> Connected(links, x, y)
  {
    var rep := JoinedAll(links);
    JoinedAllKeys(links, x);
    JoinedAllKeys(links, y);
    ConnectedReflexive(links, x);
    if x in rep && y in rep {
      ClosureTheorem(links, x, y);
    } else if Connected(links, x, y) {
      if x in rep {
        ConnectedSymmetric(links, x, y);
        UnseenAlone(links, y, x);
      } else {
        UnseenAlone(links, x, y);
      }
    }
  }

  /** The families do not depend on which links generate the relation. */
  lemma FamiliesAreTheClosure(docs: seq<Doc>, jaccard: real, links: seq<Link>, others: seq<Link>, x: DocId, y: DocId)
    requires Generates(docs, jaccard, links) && Generates(docs, jaccard, others)
    ensures Connected(links, x, y) <==> Connected(others, x, y)
  {
    if Connected(links, x, y) {
      ConnectedSubsumes(links, others, x, y);
    }
    if Connected(others, x, y) {
      ConnectedSubsumes(others, links, x, y);
    }
  }

  // ----- sums over a bipartite graph -----------------------------------------------------------

  type Scores<K> = map<K, real>

  function At<K>(m: Scores<K>, k: K): real {
    if k in m then m[k] else 0.0
  }

  function Mass<K>(keys: seq<K>, m: Scores<K>): real {
    Sum(keys, (k: K) => At(m, k))
  }

  function Row<A, B>(xs: seq<A>, g: (A, B) -> real, b: B): real {
    Sum(xs, (a: A) => g(a, b))
  }

  function Column<A, B>(bs: seq<B>, g: (A, B) -> real, a: A): real {
    Sum(bs, (b: B) => g(a, b))
  }

  /** Double counting: a finite double sum in either order. */
  lemma {:induction false} SumSwap<A, B>(xs: seq<A>, bs: seq<B>, g: (A, B) -> real)
    ensures Sum(bs, (b: B) => Row(xs, g, b)) == Sum(xs, (a: A) => Column(bs, g, a))
  {
    var rows, columns := (b: B) => Row(xs, g, b), (a: A) => Column(bs, g, a);
    if xs == [] {
      SumEqual(bs, rows, (b: B) => 0.0);
      SumZero(bs);
    } else {
      var front, last := xs[..|xs| - 1], xs[|xs| - 1];
      SumSwap(front, bs, g);
      SumAdd(bs, (b: B) => Row(front, g, b), (b: B) => g(last, b), rows);
    }
  }

  lemma RowNonNegative<A, B>(xs: seq<A>, g: (A, B) -> real, b: B)
    requires forall a :: a in xs ==> g(a, b) >= 0.0
    ensures Row(xs, g, b) >= 0.0
  {
    SumNonNegative(xs, (a: A) => g(a, b));
  }

  lemma RowEqual<A, B>(xs: seq<A>, g: (A, B) -> real, b: B, h: A -> real)
    requires forall a :: a in xs ==> g(a, b) == h(a)
    ensures Row(xs, g, b) == Sum(xs, h)
  {
    SumEqual(xs, (a: A) => g(a, b), h);
  }

  lemma ColumnEqual<A, B>(bs: seq<B>, g: (A, B) -> real, a: A, h: B -> real)
    requires forall b :: b in bs ==> g(a, b) == h(b)
    ensures Column(bs, g, a) == Sum(bs, h)
  {
    SumEqual(bs, (b: B) => g(a, b), h);
  }

  lemma {:induction false} SumZero<T>(s: seq<T>)
    ensures Sum(s, (x: T) => 0.0) == 0.0
  {
    if s != [] {
      SumZero(s[..|s| - 1]);
    }
  }

  /** Summing what is kept is summing everything with the rest at zero. */
  lemma {:induction false} SumFilter<T(!new)>(s: seq<T>, keep: T -> bool, f: T -> real, h: T -> real)
    requires forall x :: x in s ==> h(x) == if keep(x) then f(x) else 0.0
    ensures Sum(Filter(s, keep), f) == Sum(s, h)
  {
    if s != [] {
      var front, last := s[..|s| - 1], s[|s| - 1];
      assert s == front + [last];
      SumFilter(front, keep, f, h);
      SumFilterStep(front, last, keep, f);
    }
  }

  lemma SumFilterStep<T(!new)>(s: seq<T>, x: T, keep: T -> bool, f: T -> real)
    ensures Sum(Filter(s + [x], keep), f) == Sum(Filter(s, keep), f) + if keep(x) then f(x) else 0.0
  {
    FilterSnoc(s, x, keep);
    SumSnoc(Filter(s, keep), x, f);
  }

  function Times(v: real, n: nat): real {
    if n == 0 then 0.0 else Times(v, n - 1) + v
  }

  lemma {:induction false} TimesIsProduct(v: real, n: nat)
    ensures Times(v, n) == v * n as real
  {
    if n > 0 {
      TimesIsProduct(v, n - 1);
      var m := n - 1;
      calc {
        v * n as real;
      == { assert n as real == m as real + 1.0; }
        v * (m as real + 1.0);
      ==
        v * m as real + v;
      }
    }
  }

  function Part(a: real, n: nat): real
    requires n > 0
  {
    a / n as real
  }

  /** n equal parts of a make a. */
  lemma EqualShares(a: real, n: nat)
    requires n > 0
    ensures Times(Part(a, n), n) == a
  {
    TimesIsProduct(a / n as real, n);
  }

  /** A constant shared out over the kept elements. */
  lemma {:induction false} SumConstant<T(!new)>(s: seq<T>, keep: T -> bool, v: real, h: T -> real)
    requires forall x :: x in s ==> h(x) == if keep(x) then v else 0.0
    ensures Sum(s, h) == Times(v, |Filter(s, keep)|)
  {
    if s != [] {
      var front, last := s[..|s| - 1], s[|s| - 1];
      assert s == front + [last];
      SumConstant(front, keep, v, h);
      FilterSnoc(front, last, keep);
    }
  }

  // ----- the graph of families and claims ------------------------------------------------------

  type Pairing = (DocId, ClaimId)

  datatype Votes = Votes(fams: seq<DocId>, cids: seq<ClaimId>, links: set<Pairing>)

  ghost predicate VotesOk(g: Votes) {
    && Distinct(g.fams) && Distinct(g.cids)
    && (forall f, c :: (f, c) in g.links ==> f in g.fams && c in g.cids)
    && (forall f :: f in g.fams ==> exists c :: (f, c) in g.links)
  }

  /** A family votes for a claim when one of its documents states it. */
  ghost predicate Voted(claims: Claims, familyOf: map<DocId, DocId>, f: DocId, c: ClaimId) {
    c in claims && exists o :: o in claims[c].occurrences && o.doc in familyOf && familyOf[o.doc] == f
  }

  /** Each family's kind is that of the first document an occurrence of it is seen in. */
  function Kinds(occs: seq<Occurrence>, familyOf: map<DocId, DocId>, kindOf: map<DocId, string>): map<DocId, string> {
    if occs == [] then map[]
    else
      var front, doc := Kinds(occs[..|occs| - 1], familyOf, kindOf), occs[|occs| - 1].doc;
      if doc !in familyOf || familyOf[doc] in front then front
      else front[familyOf[doc] := if doc in kindOf then kindOf[doc] else ""]
  }

  /** The occurrences of the claims, claim by claim. */
  function OccsIn(cids: seq<ClaimId>, claims: Claims): seq<Occurrence> {
    if cids == [] then []
    else
      var last := cids[|cids| - 1];
      OccsIn(cids[..|cids| - 1], claims) + if last in claims then claims[last].occurrences else []
  }

  /** The families and kinds seen in the first i occurrences of a claim, on top of what was seen before it. */
  ghost predicate Seeing(familyOf: map<DocId, DocId>, kindOf: map<DocId, string>, before: seq<Occurrence>,
                         links0: set<Pairing>, cid: ClaimId, occs: seq<Occurrence>, fams: seq<DocId>,
                         links: set<Pairing>, kinds: map<DocId, string>)
  {
    && (forall f, c :: (f, c) in links <==> (f, c) in links0 || (c == cid && SaidIn(familyOf, occs, f)))
    && Distinct(fams) && (forall f, c :: (f, c) in links ==> f in fams)
    && (forall f :: f in fams ==> exists c :: (f, c) in links)
    && kinds == Kinds(before + occs, familyOf, kindOf)
  }

  ghost predicate SaidIn(familyOf: map<DocId, DocId>, occs: seq<Occurrence>, f: DocId) {
    exists j :: 0 <= j < |occs| && occs[j].doc in familyOf && familyOf[occs[j].doc] == f
  }

  lemma SaidNext(familyOf: map<DocId, DocId>, occs: seq<Occurrence>, o: Occurrence, f: DocId)
    ensures SaidIn(familyOf, occs + [o], f) <==>
            SaidIn(familyOf, occs, f) || (o.doc in familyOf && familyOf[o.doc] == f)
  {
    var more := occs + [o];
    assert more[|occs|] == o;
    if SaidIn(familyOf, occs, f) {
      var j :| 0 <= j < |occs| && occs[j].doc in familyOf && familyOf[occs[j].doc] == f;
      assert more[j] == occs[j];
    }
  }

  lemma SeeingNext(familyOf: map<DocId, DocId>, kindOf: map<DocId, string>, before: seq<Occurrence>,
                   links0: set<Pairing>, cid: ClaimId, occs: seq<Occurrence>, fams: seq<DocId>,
                   links: set<Pairing>, kinds: map<DocId, string>, o: Occurrence)
    requires Seeing(familyOf, kindOf, before, links0, cid, occs, fams, links, kinds)
    ensures o.doc !in familyOf ==> Seeing(familyOf, kindOf, before, links0, cid, occs + [o], fams, links, kinds)
    ensures o.doc in familyOf ==>
              var f := familyOf[o.doc];
              Seeing(familyOf, kindOf, before, links0, cid, occs + [o], if f in fams then fams else fams + [f],
                     links + {(f, cid)},
                     if f in kinds then kinds else kinds[f := if o.doc in kindOf then kindOf[o.doc] else ""])
  {
    forall f ensures SaidIn(familyOf, occs + [o], f)
                <==> SaidIn(familyOf, occs, f) || (o.doc in familyOf && familyOf[o.doc] == f)
    {
      SaidNext(familyOf, occs, o, f);
    }
    assert before + (occs + [o]) == (before + occs) + [o];
    assert ((before + occs) + [o])[..|before + occs|] == before + occs;
    if o.doc in familyOf {
      var f := familyOf[o.doc];
      assert (f, cid) in links + {(f, cid)};
      forall g | g in fams ensures exists c :: (g, c) in links + {(f, cid)} {
        var c :| (g, c) in links;
        assert (g, c) in links + {(f, cid)};
      }
    }
  }

  /** The occurrences of one claim. */
  method CollectClaim(familyOf: map<DocId, DocId>, kindOf: map<DocId, string>, ghost before: seq<Occurrence>,
                      cid: ClaimId, occs: seq<Occurrence>, fams0: seq<DocId>, links0: set<Pairing>,
                      kinds0: map<DocId, string>)
    returns (fams: seq<DocId>, links: set<Pairing>, kinds: map<DocId, string>)
    requires Seeing(familyOf, kindOf, before, links0, cid, [], fams0, links0, kinds0)
    ensures Seeing(familyOf, kindOf, before, links0, cid, occs, fams, links, kinds)
  {
    fams, links, kinds := fams0, links0, kinds0;
    for i := 0 to |occs|
      invariant Seeing(familyOf, kindOf, before, links0, cid, occs[..i], fams, links, kinds)
    {
      assert occs[..i + 1] == occs[..i] + [occs[i]];
      SeeingNext(familyOf, kindOf, before, links0, cid, occs[..i], fams, links, kinds, occs[i]);
      var doc := occs[i].doc;
      if doc in familyOf {
        var f := familyOf[doc];
        links := links + {(f, cid)};
        if f !in fams {
          fams := fams + [f];
        }
        if f !in kinds {
          kinds := kinds[f := if doc in kindOf then kindOf[doc] else ""];
        }
      }
    }
    assert occs[..|occs|] == occs;
  }

  lemma SaidIsVoted(claims: Claims, familyOf: map<DocId, DocId>, f: DocId, c: ClaimId)
    requires c in claims
    ensures SaidIn(familyOf, claims[c].occurrences, f) <==> Voted(claims, familyOf, f, c)
  {
    var occs := claims[c].occurrences;
    if Voted(claims, familyOf, f, c) {
      var o :| o in occs && o.doc in familyOf && familyOf[o.doc] == f;
      var j :| 0 <= j < |occs| && occs[j] == o;
    }
  }

  lemma VotesNext(cids: seq<ClaimId>, n: nat, claims: Claims, familyOf: map<DocId, DocId>,
                  links0: set<Pairing>, links: set<Pairing>)
    requires n < |cids| && Distinct(cids) && cids[n] in claims
    requires forall f, c :: (f, c) in links0 <==> c in cids[..n] && Voted(claims, familyOf, f, c)
    requires forall f, c :: (f, c) in links <==>
               (f, c) in links0 || (c == cids[n] && SaidIn(familyOf, claims[cids[n]].occurrences, f))
    ensures forall f, c :: (f, c) in links <==> c in cids[..n + 1] && Voted(claims, familyOf, f, c)
  {
    assert cids[..n + 1] == cids[..n] + [cids[n]];
    forall f, c ensures (f, c) in links <==> c in cids[..n + 1] && Voted(claims, familyOf, f, c) {
      SaidIsVoted(claims, familyOf, f, cids[n]);
    }
  }

  /** Claims and families see each other exactly through the occurrences, each pair once. */
  method CollectVotes(cids: seq<ClaimId>, claims: Claims, familyOf: map<DocId, DocId>, kindOf: map<DocId, string>)
    returns (g: Votes, kinds: map<DocId, string>)
    requires Distinct(cids) && forall c :: c in cids ==> c in claims
    ensures VotesOk(g) && g.cids == cids
    ensures forall f, c :: (f, c) in g.links <==> c in cids && Voted(claims, familyOf, f, c)
    ensures kinds == Kinds(OccsIn(cids, claims), familyOf, kindOf)
  {
    var fams: seq<DocId>, links: set<Pairing> := [], {};
    kinds := map[];
    for n := 0 to |cids|
      invariant forall f, c :: (f, c) in links <==> c in cids[..n] && Voted(claims, familyOf, f, c)
      invariant Distinct(fams) && (forall f, c :: (f, c) in links ==> f in fams)
      invariant forall f :: f in fams ==> exists c :: (f, c) in links
      invariant kinds == Kinds(OccsIn(cids[..n], claims), familyOf, kindOf)
    {
      var cid := cids[n];
      ghost var before := OccsIn(cids[..n], claims);
      assert before + [] == before;
      ghost var links0 := links;
      fams, links, kinds := CollectClaim(familyOf, kindOf, before, cid, claims[cid].occurrences, fams, links, kinds);
      VotesNext(cids, n, claims, familyOf, links0, links);
      assert cids[..n + 1][..n] == cids[..n];
    }
    assert cids[..|cids|] == cids;
    g := Votes(fams, cids, links);
  }

  function Backed(g: Votes, f: DocId): ClaimId -> bool {
    (c: ClaimId) => (f, c) in g.links
  }

  function ClaimsOf(g: Votes, f: DocId): seq<ClaimId> {
    Filter(g.cids, Backed(g, f))
  }

  function Voter(g: Votes, c: ClaimId): DocId -> bool {
    (f: DocId) => (f, c) in g.links
  }

  function FamiliesOf(g: Votes, c: ClaimId): seq<DocId> {
    Filter(g.fams, Voter(g, c))
  }

  function Degree(g: Votes, f: DocId): nat {
    Max(|ClaimsOf(g, f)|, 1)
  }

  // ----- one iteration -------------------------------------------------------------------------

  function Flow(g: Votes, af: Scores<DocId>): (DocId, ClaimId) -> real {
    (f: DocId, c: ClaimId) => if (f, c) in g.links then Part(At(af, f), Degree(g, f)) else 0.0
  }

  function Damped(beta: real, prior: real): real {
    (1.0 - beta) * prior
  }

  lemma DampedPositive(beta: real, prior: real)
    requires 0.0 <= beta < 1.0 && prior > 0.0
    ensures Damped(beta, prior) > 0.0
  {
  }

  /** The teleport term: a share of the prior, the rest from the votes. */
  function Blend(beta: real, prior: real, votes: real): real {
    (1.0 - beta) * prior + beta * votes
  }

  function ClaimScore(g: Votes, af: Scores<DocId>, pc: Scores<ClaimId>, beta: real, c: ClaimId): real {
    Blend(beta, At(pc, c), Row(g.fams, Flow(g, af), c))
  }

  function ClaimScores(g: Votes, af: Scores<DocId>, pc: Scores<ClaimId>, beta: real): Scores<ClaimId> {
    map c | c in g.cids :: ClaimScore(g, af, pc, beta, c)
  }

  /** A family shares out exactly its own score. */
  lemma ColumnIsWhole(g: Votes, af: Scores<DocId>, f: DocId)
    requires VotesOk(g) && f in g.fams
    ensures Column(g.cids, Flow(g, af), f) == At(af, f)
  {
    var n := Degree(g, f);
    var v := Part(At(af, f), n);
    var c :| (f, c) in g.links;
    assert c in ClaimsOf(g, f);
    var flow := Flow(g, af);
    var h := (x: ClaimId) => flow(f, x);
    ColumnEqual(g.cids, flow, f, h);
    SumConstant(g.cids, Backed(g, f), v, h);
    EqualShares(At(af, f), n);
  }

  /** All the votes together carry exactly what the families have. */
  lemma VotesCarryFamilyMass(g: Votes, af: Scores<DocId>)
    requires VotesOk(g)
    ensures Sum(g.cids, (c: ClaimId) => Row(g.fams, Flow(g, af), c)) == Mass(g.fams, af)
  {
    var flow := Flow(g, af);
    SumSwap(g.fams, g.cids, flow);
    forall f | f in g.fams ensures Column(g.cids, flow, f) == At(af, f) {
      ColumnIsWhole(g, af, f);
    }
    SumEqual(g.fams, (f: DocId) => Column(g.cids, flow, f), (f: DocId) => At(af, f));
  }

  /** A damped mix of two sums. */
  lemma SumMix<T>(s: seq<T>, beta: real, p: T -> real, q: T -> real, m: T -> real)
    requires forall x :: x in s ==> m(x) == Blend(beta, p(x), q(x))
    ensures Sum(s, m) == Blend(beta, Sum(s, p), Sum(s, q))
  {
    var p', q' := (x: T) => (1.0 - beta) * p(x), (x: T) => beta * q(x);
    SumScale(s, 1.0 - beta, p, p');
    SumScale(s, beta, q, q');
    SumAdd(s, p', q', m);
  }

  /** The new claim scores sum to exactly one, before any renormalization. */
  lemma ClaimMassIsOne(g: Votes, af: Scores<DocId>, pc: Scores<ClaimId>, beta: real)
    requires VotesOk(g) && Mass(g.fams, af) == 1.0 && Mass(g.cids, pc) == 1.0
    ensures Mass(g.cids, ClaimScores(g, af, pc, beta)) == 1.0
  {
    VotesCarryFamilyMass(g, af);
    var prior, votes := (c: ClaimId) => At(pc, c), (c: ClaimId) => Row(g.fams, Flow(g, af), c);
    var scores := ClaimScores(g, af, pc, beta);
    var score := (c: ClaimId) => At(scores, c);
    forall c | c in g.cids ensures score(c) == Blend(beta, prior(c), votes(c)) {
    }
    SumMix(g.cids, beta, prior, votes, score);
  }

  ghost predicate NonNegative<K(!new)>(m: Scores<K>) {
    forall k :: At(m, k) >= 0.0
  }

  /** Damping keeps every claim at or above its share of the prior. */
  lemma ClaimFloor(g: Votes, af: Scores<DocId>, pc: Scores<ClaimId>, beta: real, c: ClaimId)
    requires NonNegative(af) && 0.0 <= beta
    ensures ClaimScore(g, af, pc, beta, c) >= Damped(beta, At(pc, c))
  {
    var flow := Flow(g, af);
    forall f | f in g.fams ensures flow(f, c) >= 0.0 {
      assert At(af, f) >= 0.0;
    }
    RowNonNegative(g.fams, flow, c);
    BlendFloor(beta, At(pc, c), Row(g.fams, flow, c));
  }

  /** A claim's score weighed by its corroboration. */
  function Weighted(ac: Scores<ClaimId>, corr: ClaimId -> real): ClaimId -> real {
    (c: ClaimId) => At(ac, c) * corr(c)
  }

  function FamilyScore(g: Votes, ac: Scores<ClaimId>, pf: Scores<DocId>, corr: ClaimId -> real, beta: real,
                       f: DocId): real
  {
    Blend(beta, At(pf, f), Sum(ClaimsOf(g, f), Weighted(ac, corr)))
  }

  function FamilyScores(g: Votes, ac: Scores<ClaimId>, pf: Scores<DocId>, corr: ClaimId -> real,
                        beta: real): Scores<DocId>
  {
    map f | f in g.fams :: FamilyScore(g, ac, pf, corr, beta, f)
  }

  lemma FamilyFloor(g: Votes, ac: Scores<ClaimId>, pf: Scores<DocId>, corr: ClaimId -> real, beta: real, f: DocId)
    requires NonNegative(ac) && 0.0 <= beta && forall c :: corr(c) >= 0.0
    ensures FamilyScore(g, ac, pf, corr, beta, f) >= Damped(beta, At(pf, f))
  {
    var weighted := Weighted(ac, corr);
    forall c ensures weighted(c) >= 0.0 {
      assert At(ac, c) >= 0.0;
    }
    SumNonNegative(ClaimsOf(g, f), weighted);
    BlendFloor(beta, At(pf, f), Sum(ClaimsOf(g, f), weighted));
  }

  /** What c adds to f's votes: its weight if f states it. */
  function Credit(g: Votes, weight: ClaimId -> real): (DocId, ClaimId) -> real {
    (f: DocId, c: ClaimId) => if (f, c) in g.links then weight(c) else 0.0
  }

  lemma CreditsOf(g: Votes, weight: ClaimId -> real, f: DocId)
    ensures Sum(ClaimsOf(g, f), weight) == Column(g.cids, Credit(g, weight), f)
  {
    var credit := Credit(g, weight);
    var h := (c: ClaimId) => credit(f, c);
    SumFilter(g.cids, Backed(g, f), weight, h);
    ColumnEqual(g.cids, credit, f, h);
  }

  /** Only the claims a family states matter to its score. */
  lemma FamilyLocal(g: Votes, ac: Scores<ClaimId>, ac': Scores<ClaimId>, pf: Scores<DocId>, corr: ClaimId -> real,
                    beta: real, f: DocId)
    requires forall c :: (f, c) in g.links ==> At(ac, c) == At(ac', c)
    ensures FamilyScore(g, ac, pf, corr, beta, f) == FamilyScore(g, ac', pf, corr, beta, f)
  {
    SumEqual(ClaimsOf(g, f), Weighted(ac, corr), Weighted(ac', corr));
  }

  /** What the families that state c get from it, all together. */
  function Given(g: Votes, weight: ClaimId -> real): ClaimId -> real {
    (c: ClaimId) => Times(weight(c), |FamiliesOf(g, c)|)
  }

  /** What f gets from the claims it states. */
  function Taken(g: Votes, weight: ClaimId -> real): DocId -> real {
    (f: DocId) => Sum(ClaimsOf(g, f), weight)
  }

  lemma GivenIsRow(g: Votes, weight: ClaimId -> real, c: ClaimId)
    ensures Row(g.fams, Credit(g, weight), c) == Given(g, weight)(c)
  {
    var credit := Credit(g, weight);
    var h := (f: DocId) => credit(f, c);
    RowEqual(g.fams, credit, c, h);
    SumConstant(g.fams, Voter(g, c), weight(c), h);
  }

  lemma GivenIsTaken(g: Votes, weight: ClaimId -> real)
    ensures Sum(g.fams, Taken(g, weight)) == Sum(g.cids, Given(g, weight))
  {
    var credit := Credit(g, weight);
    var columns, rows := (f: DocId) => Column(g.cids, credit, f), (c: ClaimId) => Row(g.fams, credit, c);
    SumSwap(g.fams, g.cids, credit);
    forall c | c in g.cids ensures rows(c) == Given(g, weight)(c) {
      GivenIsRow(g, weight, c);
    }
    SumEqual(g.cids, rows, Given(g, weight));
    forall f | f in g.fams ensures columns(f) == Taken(g, weight)(f) {
      CreditsOf(g, weight, f);
    }
    SumEqual(g.fams, columns, Taken(g, weight));
  }

  /** What f's score holds beyond its damped prior. */
  function Gained(g: Votes, ac: Scores<ClaimId>, pf: Scores<DocId>, corr: ClaimId -> real, beta: real): DocId -> real {
    (f: DocId) => FamilyScore(g, ac, pf, corr, beta, f) - Damped(beta, At(pf, f))
  }

  /** Counted by families or by claims it is the same: every claim pays its weighted score, damped, to each family
      that states it, and to no other. */
  lemma FamiliesDoubleCounted(g: Votes, ac: Scores<ClaimId>, pf: Scores<DocId>, corr: ClaimId -> real, beta: real)
    ensures Sum(g.fams, Gained(g, ac, pf, corr, beta)) == Sum(g.cids, Scaled(beta, Given(g, Weighted(ac, corr))))
  {
    GainsAreScaled(g, ac, pf, corr, beta);
    GivenIsTaken(g, Weighted(ac, corr));
    ScaledAlike(g.fams, g.cids, beta, Taken(g, Weighted(ac, corr)), Given(g, Weighted(ac, corr)));
  }

  lemma GainsAreScaled(g: Votes, ac: Scores<ClaimId>, pf: Scores<DocId>, corr: ClaimId -> real, beta: real)
    ensures Sum(g.fams, Gained(g, ac, pf, corr, beta)) == Sum(g.fams, Scaled(beta, Taken(g, Weighted(ac, corr))))
  {
    var gained, scaled := Gained(g, ac, pf, corr, beta), Scaled(beta, Taken(g, Weighted(ac, corr)));
    forall f | f in g.fams ensures gained(f) == scaled(f) {
      GainedIsScaled(g, ac, pf, corr, beta, f);
    }
    SumEqual(g.fams, gained, scaled);
  }

  lemma ScaledAlike<A, B>(xs: seq<A>, ys: seq<B>, beta: real, f: A -> real, h: B -> real)
    requires Sum(xs, f) == Sum(ys, h)
    ensures Sum(xs, Scaled(beta, f)) == Sum(ys, Scaled(beta, h))
  {
    SumScale(xs, beta, f, Scaled(beta, f));
    SumScale(ys, beta, h, Scaled(beta, h));
  }

  function Scaled<T>(beta: real, f: T -> real): T -> real {
    (x: T) => beta * f(x)
  }

  lemma GainedIsScaled(g: Votes, ac: Scores<ClaimId>, pf: Scores<DocId>, corr: ClaimId -> real, beta: real, f: DocId)
    ensures Gained(g, ac, pf, corr, beta)(f) == Scaled(beta, Taken(g, Weighted(ac, corr)))(f)
  {
    BlendBeyondPrior(beta, At(pf, f), Taken(g, Weighted(ac, corr))(f));
  }

  lemma BlendBeyondPrior(beta: real, prior: real, votes: real)
    ensures Blend(beta, prior, votes) - Damped(beta, prior) == beta * votes
  {
  }

  /** Between families of equal prior, the one that states all the other does and a claim of positive weight
      besides scores strictly higher. */
  lemma MoreClaimsScoreHigher(g: Votes, ac: Scores<ClaimId>, pf: Scores<DocId>, corr: ClaimId -> real, beta: real,
                              f: DocId, h: DocId, extra: ClaimId)
    requires beta > 0.0 && At(pf, f) == At(pf, h)
    requires forall c :: (f, c) in g.links ==> (h, c) in g.links
    requires forall c :: c in g.cids && (h, c) in g.links ==> At(ac, c) * corr(c) >= 0.0
    requires extra in g.cids && (h, extra) in g.links && (f, extra) !in g.links && At(ac, extra) * corr(extra) > 0.0
    ensures FamilyScore(g, ac, pf, corr, beta, f) < FamilyScore(g, ac, pf, corr, beta, h)
  {
    MoreCredit(g, Weighted(ac, corr), f, h, extra);
    BlendStrict(beta, At(pf, f), Sum(ClaimsOf(g, f), Weighted(ac, corr)), Sum(ClaimsOf(g, h), Weighted(ac, corr)));
  }

  lemma MoreCredit(g: Votes, weight: ClaimId -> real, f: DocId, h: DocId, extra: ClaimId)
    requires forall c :: (f, c) in g.links ==> (h, c) in g.links
    requires forall c :: c in g.cids && (h, c) in g.links ==> weight(c) >= 0.0
    requires extra in g.cids && (h, extra) in g.links && (f, extra) !in g.links && weight(extra) > 0.0
    ensures Sum(ClaimsOf(g, f), weight) < Sum(ClaimsOf(g, h), weight)
  {
    var credit := Credit(g, weight);
    var less, more := (c: ClaimId) => credit(f, c), (c: ClaimId) => credit(h, c);
    SumFilter(g.cids, Backed(g, f), weight, less);
    SumFilter(g.cids, Backed(g, h), weight, more);
    SumStrict(g.cids, less, more, extra);
  }

  lemma SumStrict<T>(s: seq<T>, less: T -> real, more: T -> real, x: T)
    requires x in s && less(x) < more(x) && forall y :: y in s ==> less(y) <= more(y)
    ensures Sum(s, less) < Sum(s, more)
  {
    var gap := (y: T) => more(y) - less(y);
    SumAtLeastMember(s, gap, x);
    SumAdd(s, less, gap, more);
  }

  lemma BlendStrict(beta: real, prior: real, less: real, more: real)
    requires beta > 0.0 && less < more
    ensures Blend(beta, prior, less) < Blend(beta, prior, more)
  {
    assert beta * less < beta * more;
  }

  /** Only the families that state a claim matter to its score. */
  lemma ClaimLocal(g: Votes, af: Scores<DocId>, af': Scores<DocId>, pc: Scores<ClaimId>, beta: real, c: ClaimId)
    requires forall f :: (f, c) in g.links ==> At(af, f) == At(af', f)
    ensures ClaimScore(g, af, pc, beta, c) == ClaimScore(g, af', pc, beta, c)
  {
    var flow, flow' := Flow(g, af), Flow(g, af');
    var h := (f: DocId) => flow(f, c);
    RowEqual(g.fams, flow, c, h);
    RowEqual(g.fams, flow', c, h);
  }

  /** Each family shares its score out equally over the claims it states. */
  lemma SharesEqual(g: Votes, af: Scores<DocId>, f: DocId, b: ClaimId, c: ClaimId)
    requires VotesOk(g) && (f, b) in g.links && (f, c) in g.links
    ensures Flow(g, af)(f, b) == Flow(g, af)(f, c)
    ensures Times(Flow(g, af)(f, c), |ClaimsOf(g, f)|) == At(af, f)
  {
    assert c in ClaimsOf(g, f);
    EqualShares(At(af, f), |ClaimsOf(g, f)|);
  }

  /** Between claims of equal prior, the one stated by all the other's families and by one of positive score
      besides scores strictly higher. */
  lemma MoreFamiliesScoreHigher(g: Votes, af: Scores<DocId>, pc: Scores<ClaimId>, beta: real, b: ClaimId, c: ClaimId,
                                extra: DocId)
    requires VotesOk(g) && beta > 0.0 && At(pc, b) == At(pc, c)
    requires forall f :: (f, b) in g.links ==> (f, c) in g.links
    requires forall f :: (f, c) in g.links ==> At(af, f) >= 0.0
    requires (extra, c) in g.links && (extra, b) !in g.links && At(af, extra) > 0.0
    ensures ClaimScore(g, af, pc, beta, b) < ClaimScore(g, af, pc, beta, c)
  {
    var flow := Flow(g, af);
    var less, more := (f: DocId) => flow(f, b), (f: DocId) => flow(f, c);
    forall f | f in g.fams ensures less(f) <= more(f) {
      if (f, c) in g.links {
        PartSign(At(af, f), Degree(g, f));
      }
    }
    PartSign(At(af, extra), Degree(g, extra));
    SumStrict(g.fams, less, more, extra);
    RowEqual(g.fams, flow, b, less);
    RowEqual(g.fams, flow, c, more);
    BlendStrict(beta, At(pc, b), Sum(g.fams, less), Sum(g.fams, more));
  }

  lemma PartSign(a: real, n: nat)
    requires n > 0 && a >= 0.0
    ensures Part(a, n) >= 0.0 && (a > 0.0 ==> Part(a, n) > 0.0)
  {
  }

  lemma BlendFloor(beta: real, prior: real, votes: real)
    requires 0.0 <= beta && votes >= 0.0
    ensures Blend(beta, prior, votes) >= Damped(beta, prior)
  {
    assert beta * votes >= 0.0;
  }

  // ----- renormalization ----------------------------------------------------------------------

  function Norm<K>(keys: seq<K>, m: Scores<K>): Scores<K> {
    var s := if Mass(keys, m) == 0.0 then 1.0 else Mass(keys, m);
    map k | k in keys && k in m :: m[k] / s
  }

  /** A strictly positive distribution over the keys. */
  ghost predicate Distribution<K(!new)>(keys: seq<K>, m: Scores<K>) {
    && (forall k :: k in m <==> k in keys)
    && (forall k :: k in m ==> m[k] > 0.0)
    && Mass(keys, m) == 1.0
  }

  lemma NormDistributes<K(!new)>(keys: seq<K>, m: Scores<K>)
    requires keys != [] && forall k :: k in m <==> k in keys
    requires forall k :: k in m ==> m[k] > 0.0
    ensures Distribution(keys, Norm(keys, m))
  {
    var s := Mass(keys, m);
    SumAtLeastMember(keys, (k: K) => At(m, k), keys[0]);
    assert s > 0.0;
    NormScales(keys, m, s);
    forall k | k in m ensures m[k] / s > 0.0 {
    }
  }

  lemma NormScales<K>(keys: seq<K>, m: Scores<K>, s: real)
    requires s == Mass(keys, m) && s > 0.0 && forall k :: k in keys ==> k in m
    ensures Mass(keys, Norm(keys, m)) == 1.0
  {
    var normed := Norm(keys, m);
    forall k | k in keys ensures At(normed, k) == (1.0 / s) * At(m, k) {
    }
    SumScale(keys, 1.0 / s, (k: K) => At(m, k), (k: K) => At(normed, k));
    assert (1.0 / s) * s == 1.0;
  }

  /** Dividing by a sum of one changes nothing. */
  lemma NormOfDistribution<K>(keys: seq<K>, m: Scores<K>)
    requires Mass(keys, m) == 1.0 && forall k :: k in m <==> k in keys
    ensures Norm(keys, m) == m
  {
  }

  // ----- the loop --------------------------------------------------------------------------------

  /** What every iteration keeps, for the families and for the claims. */
  ghost predicate Balanced(g: Votes, af: Scores<DocId>, ac: Scores<ClaimId>) {
    && Distribution(g.fams, af)
    && Mass(g.cids, ac) == 1.0 && (forall c :: c in ac <==> c in g.cids) && NonNegative(ac)
  }

  /** One iteration from any balanced state, under any damping below one: the claim scores already
      sum to one, none falls below its damped prior, and the families stay positive. */
  lemma IterationBalanced(g: Votes, af: Scores<DocId>, pf: Scores<DocId>, pc: Scores<ClaimId>, corr: ClaimId -> real,
                          beta: real)
    requires VotesOk(g) && g.fams != [] && 0.0 <= beta < 1.0 && forall c :: corr(c) >= 0.0
    requires Distribution(g.fams, af) && Distribution(g.fams, pf) && Distribution(g.cids, pc)
    ensures var scores := ClaimScores(g, af, pc, beta);
            && Mass(g.cids, scores) == 1.0 && Norm(g.cids, scores) == scores
            && (forall c :: c in g.cids ==> scores[c] >= Damped(beta, pc[c]) > 0.0)
            && Balanced(g, Norm(g.fams, FamilyScores(g, scores, pf, corr, beta)), scores)
  {
    var scores := ClaimScores(g, af, pc, beta);
    ClaimMassIsOne(g, af, pc, beta);
    NormOfDistribution(g.cids, scores);
    ClaimsPositive(g, af, pc, beta);
    FamiliesPositive(g, scores, pf, corr, beta);
  }

  lemma ClaimsPositive(g: Votes, af: Scores<DocId>, pc: Scores<ClaimId>, beta: real)
    requires 0.0 <= beta < 1.0 && Distribution(g.fams, af) && Distribution(g.cids, pc)
    ensures forall c :: c in g.cids ==> ClaimScores(g, af, pc, beta)[c] >= Damped(beta, pc[c]) > 0.0
    ensures NonNegative(ClaimScores(g, af, pc, beta))
  {
    var scores := ClaimScores(g, af, pc, beta);
    forall c | c in g.cids ensures scores[c] >= Damped(beta, pc[c]) > 0.0 {
      ClaimFloor(g, af, pc, beta, c);
      DampedPositive(beta, pc[c]);
    }
  }

  lemma FamiliesPositive(g: Votes, ac: Scores<ClaimId>, pf: Scores<DocId>, corr: ClaimId -> real, beta: real)
    requires g.fams != [] && 0.0 <= beta < 1.0 && forall c :: corr(c) >= 0.0
    requires NonNegative(ac) && Distribution(g.fams, pf)
    ensures Distribution(g.fams, Norm(g.fams, FamilyScores(g, ac, pf, corr, beta)))
  {
    var scores := FamilyScores(g, ac, pf, corr, beta);
    forall f | f in scores ensures scores[f] > 0.0 {
      FamilyFloor(g, ac, pf, corr, beta, f);
      DampedPositive(beta, pf[f]);
    }
    NormDistributes(g.fams, scores);
  }

  function Prior(kind: string): real {
    if kind in {"tech_doc", "structured"} then 1.0
    else if kind == "code" then 0.9
    else if kind in {"article", "news"} then 0.6
    else if kind == "chat" then 0.3
    else 0.5
  }

  /** What the claim's families give it, each dividing its score over its claims, blended with its prior. */
  method ScoreClaim(g: Votes, af: Scores<DocId>, pc: Scores<ClaimId>, beta: real, cid: ClaimId) returns (score: real)
    ensures score == ClaimScore(g, af, pc, beta, cid)
  {
    var share := (f: DocId) => Part(At(af, f), Degree(g, f));
    var s := Sum(FamiliesOf(g, cid), share);
    SumOverVoters(g, af, cid, share);
    score := Blend(beta, At(pc, cid), s);
  }

  method ScoreClaims(g: Votes, af: Scores<DocId>, pc: Scores<ClaimId>, beta: real) returns (scores: Scores<ClaimId>)
    ensures scores == ClaimScores(g, af, pc, beta)
  {
    scores := map[];
    for n := 0 to |g.cids|
      invariant scores == map c | c in g.cids[..n] :: ClaimScore(g, af, pc, beta, c)
    {
      var cid := g.cids[n];
      var score := ScoreClaim(g, af, pc, beta, cid);
      assert g.cids[..n + 1] == g.cids[..n] + [cid];
      scores := scores[cid := score];
    }
    assert g.cids[..|g.cids|] == g.cids;
  }

  lemma SumOverVoters(g: Votes, af: Scores<DocId>, c: ClaimId, share: DocId -> real)
    requires forall f :: share(f) == Part(At(af, f), Degree(g, f))
    ensures Sum(FamiliesOf(g, c), share) == Row(g.fams, Flow(g, af), c)
  {
    var flow := Flow(g, af);
    var h := (f: DocId) => flow(f, c);
    SumFilter(g.fams, Voter(g, c), share, h);
    RowEqual(g.fams, flow, c, h);
  }

  /** One round: new claim scores from the family scores, new family scores from those. */
  function Round(g: Votes, af: Scores<DocId>, pf: Scores<DocId>, pc: Scores<ClaimId>, corr: ClaimId -> real,
                 beta: real): (Scores<DocId>, Scores<ClaimId>)
  {
    var newC := Norm(g.cids, ClaimScores(g, af, pc, beta));
    (Norm(g.fams, FamilyScores(g, newC, pf, corr, beta)), newC)
  }

  type Step = Scores<DocId> -> (Scores<DocId>, Scores<ClaimId>)

  function Rounder(g: Votes, pf: Scores<DocId>, pc: Scores<ClaimId>, corr: ClaimId -> real, beta: real): Step {
    (af: Scores<DocId>) => Round(g, af, pf, pc, corr, beta)
  }

  /** The two score tables after n rounds from the normalized priors. */
  function Rounds(step: Step, pf: Scores<DocId>, pc: Scores<ClaimId>, n: nat): (Scores<DocId>, Scores<ClaimId>) {
    if n == 0 then (pf, pc) else step(Rounds(step, pf, pc, n - 1).0)
  }

  ghost predicate AboveFloor(g: Votes, pc: Scores<ClaimId>, beta: real, ac: Scores<ClaimId>) {
    forall c :: c in g.cids ==> c in ac && c in pc && ac[c] >= Damped(beta, pc[c])
  }

  /** What a round makes of the claim scores: exactly what the families before it give, without renormalizing. */
  lemma RoundClaims(g: Votes, af: Scores<DocId>, pf: Scores<DocId>, pc: Scores<ClaimId>, corr: ClaimId -> real,
                    beta: real)
    requires VotesOk(g) && g.fams != [] && 0.0 <= beta < 1.0 && forall c :: corr(c) >= 0.0
    requires Distribution(g.fams, af) && Distribution(g.fams, pf) && Distribution(g.cids, pc)
    ensures Round(g, af, pf, pc, corr, beta).1 == ClaimScores(g, af, pc, beta)
  {
    IterationBalanced(g, af, pf, pc, corr, beta);
  }

  /** a and b stand to each other in r as they do in m. */
  ghost predicate SameRatio<K(!new)>(m: Scores<K>, r: Scores<K>, a: K, b: K) {
    a in m && b in m && a in r && b in r && r[a] * m[b] == r[b] * m[a]
  }

  /** What it makes of the family scores: any two in proportion to what the new claim scores give them. */
  lemma RoundFamilies(g: Votes, af: Scores<DocId>, pf: Scores<DocId>, pc: Scores<ClaimId>, corr: ClaimId -> real,
                      beta: real, f: DocId, h: DocId)
    requires f in g.fams && h in g.fams
    ensures var (af', ac') := Round(g, af, pf, pc, corr, beta);
            SameRatio(FamilyScores(g, ac', pf, corr, beta), af', f, h)
  {
    var ac' := Round(g, af, pf, pc, corr, beta).1;
    NormProportional(g.fams, FamilyScores(g, ac', pf, corr, beta), f, h);
  }

  lemma NormProportional<K(!new)>(keys: seq<K>, m: Scores<K>, a: K, b: K)
    requires a in keys && b in keys && a in m && b in m
    ensures SameRatio(m, Norm(keys, m), a, b)
  {
    CrossDivide(m[a], m[b], if Mass(keys, m) == 0.0 then 1.0 else Mass(keys, m));
  }

  lemma CrossDivide(x: real, y: real, s: real)
    requires s != 0.0
    ensures (x / s) * y == (y / s) * x
  {
  }

  lemma RoundBalanced(g: Votes, af: Scores<DocId>, pf: Scores<DocId>, pc: Scores<ClaimId>, corr: ClaimId -> real,
                      beta: real)
    requires VotesOk(g) && g.fams != [] && 0.0 <= beta < 1.0 && forall c :: corr(c) >= 0.0
    requires Distribution(g.fams, af) && Distribution(g.fams, pf) && Distribution(g.cids, pc)
    ensures var next := Round(g, af, pf, pc, corr, beta);
            Balanced(g, next.0, next.1) && AboveFloor(g, pc, beta, next.1)
  {
    IterationBalanced(g, af, pf, pc, corr, beta);
  }

  /** A step that turns any family distribution into a balanced pair with every claim above its floor. */
  ghost predicate Steady(g: Votes, pc: Scores<ClaimId>, beta: real, step: Step) {
    forall af {:trigger step(af)} :: Distribution(g.fams, af) ==>
        Balanced(g, step(af).0, step(af).1) && AboveFloor(g, pc, beta, step(af).1)
  }

  lemma {:induction false} SteadyRounds(g: Votes, step: Step, pf: Scores<DocId>, pc: Scores<ClaimId>, beta: real,
                                        n: nat)
    requires Steady(g, pc, beta, step) && Balanced(g, pf, pc)
    ensures Balanced(g, Rounds(step, pf, pc, n).0, Rounds(step, pf, pc, n).1)
    ensures n > 0 ==> AboveFloor(g, pc, beta, Rounds(step, pf, pc, n).1)
  {
    if n > 0 {
      SteadyRounds(g, step, pf, pc, beta, n - 1);
      var af := Rounds(step, pf, pc, n - 1).0;
      assert Distribution(g.fams, af);
    }
  }

  lemma RounderSteady(g: Votes, pf: Scores<DocId>, pc: Scores<ClaimId>, corr: ClaimId -> real, beta: real)
    requires VotesOk(g) && g.fams != [] && 0.0 <= beta < 1.0 && forall c :: corr(c) >= 0.0
    requires Distribution(g.fams, pf) && Distribution(g.cids, pc)
    ensures Steady(g, pc, beta, Rounder(g, pf, pc, corr, beta))
  {
    var step := Rounder(g, pf, pc, corr, beta);
    forall af | Distribution(g.fams, af)
      ensures Balanced(g, step(af).0, step(af).1) && AboveFloor(g, pc, beta, step(af).1)
    {
      RoundBalanced(g, af, pf, pc, corr, beta);
    }
  }

  /** Every round count leaves a balanced pair, and from the first round on every claim above its floor. */
  lemma RoundsBalanced(g: Votes, pf: Scores<DocId>, pc: Scores<ClaimId>, corr: ClaimId -> real, beta: real, n: nat)
    requires VotesOk(g) && g.fams != [] && 0.0 <= beta < 1.0 && forall c :: corr(c) >= 0.0
    requires Distribution(g.fams, pf) && Distribution(g.cids, pc)
    ensures var (af, ac) := Rounds(Rounder(g, pf, pc, corr, beta), pf, pc, n);
            Balanced(g, af, ac) && (n > 0 ==> AboveFloor(g, pc, beta, ac))
  {
    StartBalanced(g, pf, pc);
    RounderSteady(g, pf, pc, corr, beta);
    SteadyRounds(g, Rounder(g, pf, pc, corr, beta), pf, pc, beta, n);
  }

  lemma StartBalanced(g: Votes, pf: Scores<DocId>, pc: Scores<ClaimId>)
    requires Distribution(g.fams, pf) && Distribution(g.cids, pc)
    ensures Balanced(g, pf, pc)
  {
  }

  /** The power iteration: `iters` rounds from the normalized priors. */
  method Iterate(g: Votes, priorF: Scores<DocId>, priorC: Scores<ClaimId>, corr: ClaimId -> real, beta: real,
                 iters: nat)
    returns (af: Scores<DocId>, ac: Scores<ClaimId>)
    ensures var pf, pc := Norm(g.fams, priorF), Norm(g.cids, priorC);
            (af, ac) == Rounds(Rounder(g, pf, pc, corr, beta), pf, pc, iters)
  {
    var pf, pc := Norm(g.fams, priorF), Norm(g.cids, priorC);
    af, ac := pf, pc;
    for n := 0 to iters
      invariant (af, ac) == Rounds(Rounder(g, pf, pc, corr, beta), pf, pc, n)
    {
      var newC := ScoreClaims(g, af, pc, beta);
      ac := Norm(g.cids, newC);
      af := Norm(g.fams, FamilyScores(g, ac, pf, corr, beta));
    }
  }

  // ----- rank normalization ---------------------------------------------------------------------

  ghost predicate RankOk(ac: Scores<ClaimId>, ranked: Scores<ClaimId>) {
    && ranked.Keys == ac.Keys
    && (forall a :: a in ranked ==> 0.0 <= ranked[a] <= 1.0)
    && (forall a, b :: a in ranked && b in ranked && a != b ==> ranked[a] != ranked[b])
    && (forall a, b :: a in ranked && b in ranked && ac[a] < ac[b] ==> ranked[a] < ranked[b])
  }

  function ScoreOf(ac: Scores<ClaimId>): ClaimId -> real {
    (c: ClaimId) => At(ac, c)
  }

  /** Places in the stable order by score, over the last place. */
  method RankNormalize(cids: seq<ClaimId>, ac: Scores<ClaimId>) returns (ranked: Scores<ClaimId>)
    requires Distinct(cids) && forall c :: c in ac <==> c in cids
    ensures Ranking(cids, ac, StableSort(cids, ScoreOf(ac)), ranked) && RankOk(ac, ranked)
  {
    var order := StableSort(cids, ScoreOf(ac));
    StableSortElems(cids, ScoreOf(ac));
    SortedScores(cids, ac, ScoreOf(ac));
    ranked := PlacesOf(order, Max(|order| - 1, 1));
    RanksSound(cids, ac, order, ranked);
  }

  lemma SortedScores(cids: seq<ClaimId>, ac: Scores<ClaimId>, score: ClaimId -> real)
    requires forall c :: score(c) == At(ac, c)
    ensures var order := StableSort(cids, score);
            forall i, j :: 0 <= i < j < |order| ==> At(ac, order[i]) <= At(ac, order[j])
  {
    var order := StableSort(cids, score);
    forall i, j | 0 <= i < j < |order| ensures At(ac, order[i]) <= At(ac, order[j]) {
      assert score(order[i]) <= score(order[j]);
    }
  }

  method PlacesOf(order: seq<ClaimId>, n: nat) returns (ranked: Scores<ClaimId>)
    requires Distinct(order) && n > 0
    ensures forall c :: c in ranked <==> c in order
    ensures forall i :: 0 <= i < |order| ==> ranked[order[i]] == Place(i, n)
  {
    ranked := map[];
    for i := 0 to |order|
      invariant forall c :: c in ranked <==> c in order[..i]
      invariant forall j :: 0 <= j < i ==> ranked[order[j]] == Place(j, n)
    {
      assert order[..i + 1] == order[..i] + [order[i]];
      ranked := ranked[order[i] := Place(i, n)];
    }
    assert order[..|order|] == order;
  }

  function Place(i: nat, n: nat): real
    requires n > 0
  {
    i as real / n as real
  }

  /** order lists the claims from weak to strong, and each claim's rank is its place in it. */
  ghost predicate Ranking(cids: seq<ClaimId>, ac: Scores<ClaimId>, order: seq<ClaimId>, ranked: Scores<ClaimId>) {
    && multiset(order) == multiset(cids) && Distinct(order)
    && (forall i, j :: 0 <= i < j < |order| ==> At(ac, order[i]) <= At(ac, order[j]))
    && (forall c :: c in ranked <==> c in order)
    && (forall i :: 0 <= i < |order| ==> ranked[order[i]] == Place(i, Max(|order| - 1, 1)))
  }

  lemma PlacesApart(i: nat, j: nat, n: nat)
    requires n > 0 && i < j
    ensures Place(i, n) < Place(j, n)
  {
    var d := n as real;
    assert (i as real / d) * d == i as real && (j as real / d) * d == j as real;
  }

  lemma PlaceInUnit(i: nat, n: nat)
    requires n > 0 && i <= n
    ensures 0.0 <= Place(i, n) <= 1.0
  {
  }

  /** Ranks are distinct, lie in [0, 1], and never invert two different scores. */
  lemma RanksSound(cids: seq<ClaimId>, ac: Scores<ClaimId>, order: seq<ClaimId>, ranked: Scores<ClaimId>)
    requires Ranking(cids, ac, order, ranked) && forall c :: c in ac <==> c in cids
    ensures RankOk(ac, ranked)
  {
    var n := Max(|order| - 1, 1);
    SameElems(order, cids);
    forall a | a in ranked ensures 0.0 <= ranked[a] <= 1.0 {
      var i :| 0 <= i < |order| && order[i] == a;
      PlaceInUnit(i, n);
    }
    forall a, b | a in ranked && b in ranked && a != b
      ensures ranked[a] != ranked[b]
      ensures ac[a] < ac[b] ==> ranked[a] < ranked[b]
    {
      var i :| 0 <= i < |order| && order[i] == a;
      var j :| 0 <= j < |order| && order[j] == b;
      if i < j {
        PlacesApart(i, j, n);
      } else {
        PlacesApart(j, i, n);
        assert At(ac, b) <= At(ac, a);
      }
    }
  }

  function FamilyPriors(g: Votes, kindOf: map<DocId, string>): Scores<DocId> {
    map f | f in g.fams :: Prior(if f in kindOf then kindOf[f] else "")
  }

  function ClaimPriors(g: Votes, claims: Claims): Scores<ClaimId> {
    map c | c in g.cids :: Prior(if c in claims then claims[c].kind else "")
  }

  /** Technical and structured documents weigh in full, code a little less, articles and news more than half, chats less
      than a third, all else a half; a family weighs as its kind does, a claim as the kind of document it is from. */
  lemma PriorsExactly(g: Votes, claims: Claims, kindOf: map<DocId, string>, f: DocId, c: ClaimId)
    requires f in g.fams && f in kindOf && c in g.cids && c in claims
    ensures Prior("tech_doc") == Prior("structured") == 1.0 && Prior("code") == 0.9
            && Prior("article") == Prior("news") == 0.6 && Prior("chat") == 0.3
    ensures forall kind :: kind !in {"tech_doc", "structured", "code", "article", "news", "chat"} ==> Prior(kind) == 0.5
    ensures f in FamilyPriors(g, kindOf) && FamilyPriors(g, kindOf)[f] == Prior(kindOf[f])
    ensures c in ClaimPriors(g, claims) && ClaimPriors(g, claims)[c] == Prior(claims[c].kind)
  {
  }

  function Corroboration(g: Votes, corr: nat -> real): ClaimId -> real {
    (c: ClaimId) => corr(|FamiliesOf(g, c)|)
  }

  function FinalScores(g: Votes, claims: Claims, kindOf: map<DocId, string>, corr: nat -> real, beta: real,
                       iters: nat): (Scores<DocId>, Scores<ClaimId>)
  {
    var pf, pc := Norm(g.fams, FamilyPriors(g, kindOf)), Norm(g.cids, ClaimPriors(g, claims));
    Rounds(Rounder(g, pf, pc, Corroboration(g, corr), beta), pf, pc, iters)
  }

  /** The final family scores, and ranks of the final claim scores. */
  ghost predicate Ranked(g: Votes, claims: Claims, kindOf: map<DocId, string>, corr: nat -> real, beta: real,
                         iters: nat,
                         ranked: Scores<ClaimId>, af: Scores<DocId>)
  {
    var (f, c) := FinalScores(g, claims, kindOf, corr, beta, iters);
    af == f && Balanced(g, f, c) && RankOk(c, ranked) && Ranking(g.cids, c, StableSort(g.cids, ScoreOf(c)), ranked)
  }

  /** Priors, iterations and ranks, for a graph with at least one vote. */
  method RankVotes(g: Votes, claims: Claims, kindOf: map<DocId, string>, corr: nat -> real, beta: real, iters: nat)
    returns (ranked: Scores<ClaimId>, af: Scores<DocId>)
    requires VotesOk(g) && g.fams != [] && g.cids != [] && forall c :: c in g.cids ==> c in claims
    requires 0.0 <= beta < 1.0 && forall n :: corr(n) >= 0.0
    ensures Ranked(g, claims, kindOf, corr, beta, iters, ranked, af)
  {
    FinalBalanced(g, claims, kindOf, corr, beta, iters);
    var scores;
    af, scores := Iterate(g, FamilyPriors(g, kindOf), ClaimPriors(g, claims), Corroboration(g, corr), beta, iters);
    ranked := RankNormalize(g.cids, scores);
  }

  lemma FinalBalanced(g: Votes, claims: Claims, kindOf: map<DocId, string>, corr: nat -> real, beta: real, iters: nat)
    requires VotesOk(g) && g.fams != [] && g.cids != []
    requires 0.0 <= beta < 1.0 && forall n :: corr(n) >= 0.0
    ensures var (f, c) := FinalScores(g, claims, kindOf, corr, beta, iters);
            Balanced(g, f, c)
  {
    var priorF, priorC := FamilyPriors(g, kindOf), ClaimPriors(g, claims);
    NormDistributes(g.fams, priorF);
    NormDistributes(g.cids, priorC);
    RoundsBalanced(g, Norm(g.fams, priorF), Norm(g.cids, priorC), Corroboration(g, corr), beta, iters);
  }

  ghost predicate AnyVote(claims: Claims, familyOf: map<DocId, DocId>) {
    exists c, f :: Voted(claims, familyOf, f, c)
  }

  /** The graph of votes that claims and families make up. */
  ghost predicate VotesAre(g: Votes, cids: seq<ClaimId>, claims: Claims, familyOf: map<DocId, DocId>) {
    && VotesOk(g) && g.cids == cids
    && forall f, c :: (f, c) in g.links <==> c in cids && Voted(claims, familyOf, f, c)
  }

  /** For each claim, the number of families that state it. */
  function Independent(g: Votes): map<ClaimId, nat> {
    map c | c in g.cids :: |FamiliesOf(g, c)|
  }

  /** As many independent statements as there are families that vote for the claim. */
  lemma IndependentExactly(g: Votes, c: ClaimId)
    requires VotesOk(g) && c in g.cids
    ensures c in Independent(g) && Independent(g)[c] == |set f | f in g.fams && (f, c) in g.links|
  {
    FilterDistinct(g.fams, Voter(g, c));
    DistinctSize(FamiliesOf(g, c));
    assert Elems(FamiliesOf(g, c)) == set f | f in g.fams && (f, c) in g.links;
  }

  lemma {:induction false} DistinctSize<T(!new)>(s: seq<T>)
    requires Distinct(s)
    ensures |Elems(s)| == |s|
  {
    if s != [] {
      var front, last := s[..|s| - 1], s[|s| - 1];
      DistinctSize(front);
      assert s == front + [last];
      assert Elems(s) == Elems(front) + {last};
    }
  }

  /** What the computation returns: authority of claims and of families, independent statements, family kinds. */
  datatype Authority = Authority(
    claims: Scores<ClaimId>, families: Scores<DocId>, independent: map<ClaimId, nat>, kinds: map<DocId, string>)

  /** The result is that of the votes: with nothing to vote, every claim's authority is zero. */
  ghost predicate AuthorityOf(g: Votes, claims: Claims, corr: nat -> real, beta: real, iters: nat, r: Authority) {
    && r.independent == Independent(g)
    && if g.links == {} then r.families == map[] && r.kinds == map[] && r.claims == map c | c in claims :: 0.0
       else Ranked(g, claims, r.kinds, corr, beta, iters, r.claims, r.families)
  }

  lemma LinkEnds(g: Votes, e: Pairing)
    requires VotesOk(g) && e in g.links
    ensures e.0 in g.fams && e.1 in g.cids
  {
    var (f, c) := e;
    assert (f, c) in g.links;
  }

  lemma NoVotes(g: Votes)
    requires VotesOk(g) && (g.fams == [] || g.cids == [])
    ensures g.links == {}
  {
    if e :| e in g.links {
      LinkEnds(g, e);
    }
  }

  lemma SomeVote(g: Votes)
    requires VotesOk(g) && g.fams != []
    ensures g.links != {}
  {
    assert g.fams[0] in g.fams;
    var c :| (g.fams[0], c) in g.links;
  }

  /** The result for the votes as collected. */
  method AuthorityFor(g: Votes, kinds: map<DocId, string>, claims: Claims, corr: nat -> real, beta: real, iters: nat)
    returns (r: Authority)
    requires VotesOk(g) && forall c :: c in g.cids ==> c in claims
    requires 0.0 <= beta < 1.0 && forall n :: corr(n) >= 0.0
    ensures AuthorityOf(g, claims, corr, beta, iters, r) && (g.links != {} ==> r.kinds == kinds)
  {
    if g.fams == [] || g.cids == [] {
      NoVotes(g);
      return Authority(map c | c in claims :: 0.0, map[], Independent(g), map[]);
    }
    SomeVote(g);
    var ranked, af := RankVotes(g, claims, kinds, corr, beta, iters);
    r := Authority(ranked, af, Independent(g), kinds);
  }

  lemma VotedMeansLinked(g: Votes, cids: seq<ClaimId>, claims: Claims, familyOf: map<DocId, DocId>)
    requires VotesAre(g, cids, claims, familyOf) && forall c :: c in cids <==> c in claims
    ensures AnyVote(claims, familyOf) <==> g.links != {}
  {
    if AnyVote(claims, familyOf) {
      var c, f :| Voted(claims, familyOf, f, c);
      assert (f, c) in g.links;
    }
    if g.links != {} {
      var e :| e in g.links;
      var (f, c) := e;
      assert (f, c) in g.links;
    }
  }

  /** The whole computation; `corr` is log(1 + n). */
  method Authorities(cids: seq<ClaimId>, claims: Claims, familyOf: map<DocId, DocId>, kindOf: map<DocId, string>,
                     corr: nat -> real, beta: real, iters: nat)
    returns (r: Authority)
    requires Distinct(cids) && forall c :: c in cids <==> c in claims
    requires 0.0 <= beta < 1.0 && forall n :: corr(n) >= 0.0
    ensures exists g :: VotesAre(g, cids, claims, familyOf) && AuthorityOf(g, claims, corr, beta, iters, r)
    ensures AnyVote(claims, familyOf) ==> r.kinds == Kinds(OccsIn(cids, claims), familyOf, kindOf)
  {
    var votes, kinds := CollectVotes(cids, claims, familyOf, kindOf);
    assert VotesAre(votes, cids, claims, familyOf);
    r := AuthorityFor(votes, kinds, claims, corr, beta, iters);
    VotedMeansLinked(votes, cids, claims, familyOf);
  }
}
