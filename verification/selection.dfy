/** Selection (assoc/selection.py, assoc/budget.py): hits pass the policy gate into a numbered catalogue, the
    fast path or the model picks from it, and the picks are rendered within each grain's share. */
module Selection {
  import opened Common

  datatype Grain = ClaimGrain | ChunkGrain | GistGrain

  datatype ChunkId = ChunkId(name: string)
  datatype DocId = DocId(name: string)
  datatype ClaimId = ClaimId(name: string)

  datatype ClaimInfo = ClaimInfo(facet: string, subject: Option<string>, authority: real)

  datatype Hit = Hit(id: string, grain: Grain, score: real, doc: DocId, chunk: Option<ChunkId>, kind: string,
                     exact: bool, claim: ClaimInfo)

  datatype Build = Build(claims: map<ClaimId, ClaimInfo>, byChunk: map<ChunkId, seq<ClaimId>>)

  /** The policy; `withholds` and `docKind` are the questions it asks of a document's metadata. */
  datatype Policy = Policy(
    knowledgeFacets: set<string>, attributedFacets: set<string>,
    withholdFacets: set<string>, withholdSubjects: set<string>,
    quoteKinds: Option<set<string>>, withholds: DocId -> bool, docKind: DocId -> string,
    maxPicks: int, quotaClaim: nat, quotaChunk: nat, quotaGist: nat,
    fastPath: bool, fastPathMargin: real, fastPathMin: real)

  // ----- the gate -----------------------------------------------------------------------------------

  /** Why a claim is withheld, or nothing. */
  function Withholding(p: Policy, c: ClaimInfo): Option<string> {
    var facet := if c.facet == "" then "unclassified" else c.facet;
    if c.subject.Some? && c.subject.value in p.withholdSubjects then Some("subject")
    else if facet in p.withholdFacets then Some(facet)
    else if facet in p.knowledgeFacets || facet in p.attributedFacets then None
    else Some(facet)
  }

  predicate Eligible(p: Policy, c: ClaimInfo) {
    Withholding(p, c) == None
  }

  /** A claim is withheld for its subject first, then for its facet, a blank one counting as unclassified: because the
      policy withholds the facet, or because it names it neither as knowledge nor as attributed. */
  lemma WithheldExactly(p: Policy, c: ClaimInfo)
    ensures var about := c.subject.Some? && c.subject.value in p.withholdSubjects;
            var facet := if c.facet != "" then c.facet else "unclassified";
            var welcome := facet !in p.withholdFacets && (facet in p.knowledgeFacets || facet in p.attributedFacets);
            && (Eligible(p, c) <==> !about && welcome)
            && (about ==> Withholding(p, c) == Some("subject"))
            && (!about && !welcome ==> Withholding(p, c) == Some(facet))
  {
  }

  function AnchoredTo(b: Build, c: Option<ChunkId>): seq<ClaimId> {
    if c.Some? && c.value in b.byChunk then b.byChunk[c.value] else []
  }

  predicate QuoteKind(p: Policy, kind: string) {
    p.quoteKinds.None? || kind in p.quoteKinds.value
  }

  predicate SomeEligible(p: Policy, b: Build, ids: seq<ClaimId>) {
    exists c :: c in ids && c in b.claims && Eligible(p, b.claims[c])
  }

  /** May this hit enter the catalogue? */
  predicate Passes(p: Policy, b: Build, h: Hit) {
    match h.grain
    case ClaimGrain => Eligible(p, h.claim)
    case ChunkGrain =>
      && QuoteKind(p, h.kind) && !p.withholds(h.doc)
      && (AnchoredTo(b, h.chunk) == [] || SomeEligible(p, b, AnchoredTo(b, h.chunk)))
    case GistGrain => !p.withholds(h.doc) && QuoteKind(p, p.docKind(h.doc))
  }

  /** A claim of the build that the policy lets through is anchored to the chunk. */
  ghost predicate Backed(p: Policy, b: Build, c: ChunkId) {
    c in b.byChunk && exists x :: x in b.byChunk[c] && x in b.claims && Eligible(p, b.claims[x])
  }

  /** A passage passes when its kind may be quoted, its document is not withheld, and, if claims are anchored to its
      chunk at all, some claim there is eligible; a document under the same two rules of its kind; a claim by itself. */
  lemma PassesExactly(p: Policy, b: Build, h: Hit)
    ensures Passes(p, b, h) <==>
            match h.grain
            case ClaimGrain => Eligible(p, h.claim)
            case ChunkGrain =>
              && (p.quoteKinds.Some? ==> h.kind in p.quoteKinds.value) && !p.withholds(h.doc)
              && (h.chunk.Some? && h.chunk.value in b.byChunk && b.byChunk[h.chunk.value] != [] ==>
                    Backed(p, b, h.chunk.value))
            case GistGrain =>
              (p.quoteKinds.Some? ==> p.docKind(h.doc) in p.quoteKinds.value) && !p.withholds(h.doc)
  {
  }

  function Admits(p: Policy, b: Build, g: Grain): Hit -> bool {
    (h: Hit) => h.grain == g && Passes(p, b, h)
  }

  function Gated(p: Policy, b: Build, hits: seq<Hit>, g: Grain): seq<Hit> {
    Filter(hits, Admits(p, b, g))
  }

  function WithheldFor(p: Policy, why: string): Hit -> bool {
    (h: Hit) => h.grain == ClaimGrain && Withholding(p, h.claim) == Some(why)
  }

  function Stopped(p: Policy, b: Build, g: Grain): Hit -> bool {
    (h: Hit) => h.grain == g && !Passes(p, b, h)
  }

  datatype Withheld = Withheld(claims: map<string, nat>, passages: nat, gists: nat)

  function CountFor(m: map<string, nat>, why: string): nat {
    if why in m then m[why] else 0
  }

  datatype Gating = Gating(claims: seq<Hit>, passages: seq<Hit>, gists: seq<Hit>, withheld: Withheld)

  /** What the gate has let through and what it has counted as withheld, so far. */
  ghost predicate GateState(p: Policy, b: Build, hits: seq<Hit>, s: Gating) {
    && s.claims == Gated(p, b, hits, ClaimGrain) && s.passages == Gated(p, b, hits, ChunkGrain)
       && s.gists == Gated(p, b, hits, GistGrain)
    && (forall why {:trigger ReasonOk(p, hits, s.withheld, why)} :: ReasonOk(p, hits, s.withheld, why))
    && s.withheld.passages == |Filter(hits, Stopped(p, b, ChunkGrain))|
    && s.withheld.gists == |Filter(hits, Stopped(p, b, GistGrain))|
  }

  ghost predicate ReasonOk(p: Policy, hits: seq<Hit>, w: Withheld, why: string) {
    CountFor(w.claims, why) == |Filter(hits, WithheldFor(p, why))|
  }

  function Withhold(p: Policy, w: Withheld, h: Hit): Withheld {
    match h.grain
    case ClaimGrain =>
      var why := Withholding(p, h.claim);
      if why.Some? then w.(claims := w.claims[why.value := CountFor(w.claims, why.value) + 1]) else w
    case ChunkGrain => w.(passages := w.passages + 1)
    case GistGrain => w.(gists := w.gists + 1)
  }

  function GateNext(p: Policy, b: Build, s: Gating, h: Hit): Gating {
    if !Passes(p, b, h) then s.(withheld := Withhold(p, s.withheld, h))
    else
      match h.grain
      case ClaimGrain => s.(claims := s.claims + [h])
      case ChunkGrain => s.(passages := s.passages + [h])
      case GistGrain => s.(gists := s.gists + [h])
  }

  lemma GateStep(p: Policy, b: Build, hits: seq<Hit>, s: Gating, h: Hit)
    requires GateState(p, b, hits, s)
    ensures GateState(p, b, hits + [h], GateNext(p, b, s, h))
  {
    var t := GateNext(p, b, s, h);
    FilterSnoc(hits, h, Admits(p, b, ClaimGrain));
    FilterSnoc(hits, h, Admits(p, b, ChunkGrain));
    FilterSnoc(hits, h, Admits(p, b, GistGrain));
    FilterSnoc(hits, h, Stopped(p, b, ChunkGrain));
    FilterSnoc(hits, h, Stopped(p, b, GistGrain));
    forall why ensures ReasonOk(p, hits + [h], t.withheld, why) {
      assert ReasonOk(p, hits, s.withheld, why);
      FilterSnoc(hits, h, WithheldFor(p, why));
    }
  }

  lemma GateStart(p: Policy, b: Build)
    ensures GateState(p, b, [], Gating([], [], [], Withheld(map[], 0, 0)))
  {
    FilterEmpty(Stopped(p, b, ChunkGrain));
    FilterEmpty(Stopped(p, b, GistGrain));
    forall why ensures ReasonOk(p, [], Withheld(map[], 0, 0), why) {
      FilterEmpty(WithheldFor(p, why));
    }
  }

  method Gate(p: Policy, b: Build, hits: seq<Hit>) returns (s: Gating)
    ensures GateState(p, b, hits, s)
  {
    s := Gating([], [], [], Withheld(map[], 0, 0));
    GateStart(p, b);
    assert hits[..0] == [];
    for n := 0 to |hits|
      invariant GateState(p, b, hits[..n], s)
    {
      GateStep(p, b, hits[..n], s, hits[n]);
      assert hits[..n + 1] == hits[..n] + [hits[n]];
      s := GateHit(p, b, s, hits[n]);
    }
    assert hits[..|hits|] == hits;
  }

  method GateHit(p: Policy, b: Build, s: Gating, h: Hit) returns (t: Gating)
    ensures t == GateNext(p, b, s, h)
  {
    match h.grain {
      case ClaimGrain =>
        if !Eligible(p, h.claim) {
          return s.(withheld := Withhold(p, s.withheld, h));
        }
        t := s.(claims := s.claims + [h]);
      case ChunkGrain =>
        if !QuoteKind(p, h.kind) {
          return s.(withheld := Withhold(p, s.withheld, h));
        }
        if p.withholds(h.doc) {
          return s.(withheld := Withhold(p, s.withheld, h));
        }
        var anchored := AnchoredTo(b, h.chunk);
        if anchored != [] && !SomeEligible(p, b, anchored) {
          return s.(withheld := Withhold(p, s.withheld, h));
        }
        t := s.(passages := s.passages + [h]);
      case GistGrain =>
        if p.withholds(h.doc) || !QuoteKind(p, p.docKind(h.doc)) {
          return s.(withheld := Withhold(p, s.withheld, h));
        }
        t := s.(gists := s.gists + [h]);
    }
  }

  // ----- the catalogue ------------------------------------------------------------------------------

  const AUTHORITY_WEIGHT := 0.1

  function CorroborationKey(): Hit -> real {
    (h: Hit) => -(h.score + AUTHORITY_WEIGHT * h.claim.authority)
  }

  function Cut(s: seq<Hit>, quota: nat): seq<Hit> {
    s[..Min(quota, |s|)]
  }

  datatype Kept = Kept(claims: seq<Hit>, passages: seq<Hit>, gists: seq<Hit>)

  function KeptOf(p: Policy, b: Build, hits: seq<Hit>): Kept {
    Kept(Cut(StableSort(Gated(p, b, hits, ClaimGrain), CorroborationKey()), p.quotaClaim),
         Cut(Gated(p, b, hits, ChunkGrain), p.quotaChunk),
         Cut(Gated(p, b, hits, GistGrain), p.quotaGist))
  }

  /** The quota leaves out no claim that is better corroborated than one it keeps. */
  lemma QuotaKeepsBest(p: Policy, b: Build, hits: seq<Hit>)
    ensures var gated, kept := Gated(p, b, hits, ClaimGrain), KeptOf(p, b, hits).claims;
            && |kept| == Min(p.quotaClaim, |gated|) && multiset(kept) <= multiset(gated)
            && forall x, y :: x in kept && multiset(kept)[y] < multiset(gated)[y] ==>
                 x.score + 0.1 * x.claim.authority >= y.score + 0.1 * y.claim.authority
  {
    SortedCut(Gated(p, b, hits, ClaimGrain), p.quotaClaim, CorroborationKey());
    var gated, kept := Gated(p, b, hits, ClaimGrain), KeptOf(p, b, hits).claims;
    forall x, y | x in kept && multiset(kept)[y] < multiset(gated)[y]
      ensures x.score + 0.1 * x.claim.authority >= y.score + 0.1 * y.claim.authority
    {
      assert CorroborationKey()(x) <= CorroborationKey()(y);
    }
  }

  datatype Entry = Entry(hit: Hit, no: nat, nested: bool)

  function HitsOf(entries: seq<Entry>): seq<Hit> {
    seq(|entries|, i requires 0 <= i < |entries| => entries[i].hit)
  }

  ghost predicate Numbered(entries: seq<Entry>) {
    forall i :: 0 <= i < |entries| ==> entries[i].no == i + 1
  }

  function OnChunk(c: Option<ChunkId>): Hit -> bool {
    (h: Hit) => h.chunk == c
  }

  function NestedUnder(claims: seq<Hit>, c: Option<ChunkId>): seq<Hit> {
    Filter(claims, OnChunk(c))
  }

  function PassageIds(passages: seq<Hit>): set<Option<ChunkId>> {
    set h | h in passages :: h.chunk
  }

  function OffPassages(passages: seq<Hit>): Hit -> bool {
    (h: Hit) => h.chunk !in PassageIds(passages)
  }

  /** Every passage, each followed by the claims nested under it. */
  function Nesting(passages: seq<Hit>, claims: seq<Hit>): seq<Hit> {
    if passages == [] then []
    else
      var p := passages[|passages| - 1];
      Nesting(passages[..|passages| - 1], claims) + [p] + NestedUnder(claims, p.chunk)
  }

  /** The order of the catalogue: claims of no listed passage, the passages with theirs, the documents. */
  function Listing(k: Kept): seq<Hit> {
    Filter(k.claims, OffPassages(k.passages)) + Nesting(k.passages, k.claims) + k.gists
  }

  function Numbering(entries: seq<Entry>, hits: seq<Hit>, nested: bool): seq<Entry> {
    entries + seq(|hits|, i requires 0 <= i < |hits| => Entry(hits[i], |entries| + i + 1, nested))
  }

  lemma NumberingOk(entries: seq<Entry>, hits: seq<Hit>, nested: bool)
    requires Numbered(entries)
    ensures Numbered(Numbering(entries, hits, nested))
    ensures HitsOf(Numbering(entries, hits, nested)) == HitsOf(entries) + hits
  {
  }

  /** The passages entered one after another, each with its claims nested under it. */
  function Nested(entries: seq<Entry>, passages: seq<Hit>, claims: seq<Hit>): seq<Entry> {
    if passages == [] then entries
    else
      var p := passages[|passages| - 1];
      var front := Nested(entries, passages[..|passages| - 1], claims);
      Numbering(Numbering(front, [p], false), NestedUnder(claims, p.chunk), true)
  }

  /** The catalogue of what was kept. */
  function CatalogueOf(k: Kept): seq<Entry> {
    var top := Numbering([], Filter(k.claims, OffPassages(k.passages)), false);
    Numbering(Nested(top, k.passages, k.claims), k.gists, false)
  }

  lemma {:induction false} NestedLists(entries: seq<Entry>, passages: seq<Hit>, claims: seq<Hit>)
    requires Numbered(entries)
    ensures Numbered(Nested(entries, passages, claims))
    ensures HitsOf(Nested(entries, passages, claims)) == HitsOf(entries) + Nesting(passages, claims)
  {
    if passages == [] {
      assert HitsOf(entries) + Nesting(passages, claims) == HitsOf(entries);
    } else {
      var p, before := passages[|passages| - 1], passages[..|passages| - 1];
      NestedLists(entries, before, claims);
      var front := Nested(entries, before, claims);
      NumberingOk(front, [p], false);
      NumberingOk(Numbering(front, [p], false), NestedUnder(claims, p.chunk), true);
      assert HitsOf(entries) + Nesting(before, claims) + [p] + NestedUnder(claims, p.chunk)
          == HitsOf(entries) + (Nesting(before, claims) + [p] + NestedUnder(claims, p.chunk));
    }
  }

  /** The catalogue is the listing, numbered from 1. */
  lemma CatalogueLists(k: Kept)
    ensures Numbered(CatalogueOf(k)) && HitsOf(CatalogueOf(k)) == Listing(k)
  {
    var top := Filter(k.claims, OffPassages(k.passages));
    NumberingOk([], top, false);
    assert HitsOf([]) + top == top;
    var entries := Numbering([], top, false);
    NestedLists(entries, k.passages, k.claims);
    NumberingOk(Nested(entries, k.passages, k.claims), k.gists, false);
  }

  /** Appends one entry per hit, counting on. */
  method Enter(entries0: seq<Entry>, n0: nat, hits: seq<Hit>, nested: bool) returns (entries: seq<Entry>, n: nat)
    requires n0 == |entries0|
    ensures entries == Numbering(entries0, hits, nested) && n == |entries|
  {
    entries, n := entries0, n0;
    for i := 0 to |hits|
      invariant entries == Numbering(entries0, hits[..i], nested) && n == |entries|
    {
      n := n + 1;
      entries := entries + [Entry(hits[i], n, nested)];
    }
    assert hits[..|hits|] == hits;
  }

  method TopClaims(claims: seq<Hit>, passages: seq<Hit>) returns (top: seq<Hit>)
    ensures top == Filter(claims, OffPassages(passages))
  {
    top := [];
    for i := 0 to |claims|
      invariant top == Filter(claims[..i], OffPassages(passages))
    {
      assert claims[..i + 1] == claims[..i] + [claims[i]];
      FilterSnoc(claims[..i], claims[i], OffPassages(passages));
      if claims[i].chunk !in PassageIds(passages) {
        top := top + [claims[i]];
      }
    }
    assert claims[..|claims|] == claims;
  }

  /** The entries in catalogue order, counted on from 1. */
  method ListEntries(k: Kept) returns (entries: seq<Entry>)
    ensures entries == CatalogueOf(k)
  {
    var n := 0;
    entries := [];
    var top := TopClaims(k.claims, k.passages);
    entries, n := Enter(entries, n, top, false);
    ghost var first := entries;
    for i := 0 to |k.passages|
      invariant n == |entries| && entries == Nested(first, k.passages[..i], k.claims)
    {
      assert k.passages[..i + 1][..i] == k.passages[..i];
      entries, n := Enter(entries, n, [k.passages[i]], false);
      entries, n := Enter(entries, n, NestedUnder(k.claims, k.passages[i].chunk), true);
    }
    assert k.passages[..|k.passages|] == k.passages;
    entries, n := Enter(entries, n, k.gists, false);
  }

  /** The catalogue lists the gated, quota-cut hits in its own order, numbered from 1; what the gate
      withheld is counted by reason. */
  method BuildCatalogue(p: Policy, b: Build, hits: seq<Hit>) returns (entries: seq<Entry>, w: Withheld)
    ensures entries == CatalogueOf(KeptOf(p, b, hits))
    ensures Numbered(entries) && HitsOf(entries) == Listing(KeptOf(p, b, hits))
    ensures forall why {:trigger ReasonOk(p, hits, w, why)} :: ReasonOk(p, hits, w, why)
    ensures w.passages == |Filter(hits, Stopped(p, b, ChunkGrain))|
            && w.gists == |Filter(hits, Stopped(p, b, GistGrain))|
  {
    var s := Gate(p, b, hits);
    var claims := Cut(StableSort(s.claims, CorroborationKey()), p.quotaClaim);
    entries := ListEntries(Kept(claims, Cut(s.passages, p.quotaChunk), Cut(s.gists, p.quotaGist)));
    CatalogueLists(KeptOf(p, b, hits));
    w := s.withheld;
  }

  // ----- when the catalogue is a permutation ----------------------------------------------------------

  function CountOn(passages: seq<Hit>, c: Option<ChunkId>): nat {
    if passages == [] then 0
    else CountOn(passages[..|passages| - 1], c) + if passages[|passages| - 1].chunk == c then 1 else 0
  }

  function Times(m: nat, n: nat): nat {
    m * n
  }

  lemma {:induction false} CountFilter(s: seq<Hit>, keep: Hit -> bool, h: Hit)
    ensures Occurs(Filter(s, keep), h) == if keep(h) then Occurs(s, h) else 0
  {
    if s == [] {
      FilterEmpty(keep);
    } else {
      var front, x := s[..|s| - 1], s[|s| - 1];
      CountFilter(front, keep, h);
      assert s == front + [x];
      FilterSnoc(front, x, keep);
      OccursSnoc(front, x, h);
      OccursSnoc(Filter(front, keep), x, h);
    }
  }

  lemma {:induction false} CountNesting(passages: seq<Hit>, claims: seq<Hit>, h: Hit)
    ensures Occurs(Nesting(passages, claims), h)
            == Occurs(passages, h) + Times(Occurs(claims, h), CountOn(passages, h.chunk))
  {
    if passages != [] {
      var front, p := passages[..|passages| - 1], passages[|passages| - 1];
      CountNesting(front, claims, h);
      CountFilter(claims, OnChunk(p.chunk), h);
      OccursSnoc(Nesting(front, claims), p, h);
      OccursConcat(Nesting(front, claims) + [p], NestedUnder(claims, p.chunk), h);
      TimesStep(Occurs(claims, h), CountOn(front, h.chunk));
    }
  }

  lemma TimesStep(m: nat, n: nat)
    ensures Times(m, n + 1) == Times(m, n) + m && Times(m, 0) == 0 && Times(m, 1) == m
  {
  }

  lemma {:induction false} CountOnZero(passages: seq<Hit>, c: Option<ChunkId>)
    ensures CountOn(passages, c) == 0 <==> c !in PassageIds(passages)
  {
    if passages != [] {
      var front, p := passages[..|passages| - 1], passages[|passages| - 1];
      assert passages == front + [p];
      CountOnZero(front, c);
      assert PassageIds(passages) == PassageIds(front) + {p.chunk};
    }
  }

  /** Some chunk with nested claims is listed as a passage twice. */
  ghost predicate ListedTwice(k: Kept, c: Option<ChunkId>) {
    CountOn(k.passages, c) >= 2 && exists h :: h in k.claims && h.chunk == c
  }

  lemma CountListing(k: Kept, h: Hit)
    ensures Occurs(Listing(k), h)
         == Occurs(k.passages, h) + Occurs(k.gists, h)
          + if CountOn(k.passages, h.chunk) == 0 then Occurs(k.claims, h)
            else Times(Occurs(k.claims, h), CountOn(k.passages, h.chunk))
  {
    CountFilter(k.claims, OffPassages(k.passages), h);
    CountNesting(k.passages, k.claims, h);
    CountOnZero(k.passages, h.chunk);
    var top, mid := Filter(k.claims, OffPassages(k.passages)), Nesting(k.passages, k.claims);
    OccursConcat(top, mid, h);
    OccursConcat(top + mid, k.gists, h);
    TimesStep(Occurs(k.claims, h), 0);
  }

  function Whole(k: Kept): seq<Hit> {
    k.claims + k.passages + k.gists
  }

  lemma CountWhole(k: Kept, h: Hit)
    ensures Occurs(Whole(k), h) == Occurs(k.claims, h) + Occurs(k.passages, h) + Occurs(k.gists, h)
  {
    OccursConcat(k.claims, k.passages, h);
    OccursConcat(k.claims + k.passages, k.gists, h);
  }

  /** The catalogue holds every gated, quota-cut hit exactly as often as it was kept, if and only if no
      chunk with claims nested under it is listed as a passage more than once. */
  lemma CatalogueIsPermutation(k: Kept)
    ensures multiset(Listing(k)) == multiset(Whole(k)) <==> forall c :: !ListedTwice(k, c)
  {
    SameOccurs(Listing(k), Whole(k));
    if forall c :: !ListedTwice(k, c) {
      forall h ensures Occurs(Listing(k), h) == Occurs(Whole(k), h) {
        ListedOnce(k, h);
      }
    } else {
      var c :| ListedTwice(k, c);
      var h := ListedTooOften(k, c);
      assert !OccurAlike(Listing(k), Whole(k));
    }
  }

  lemma ListedOnce(k: Kept, h: Hit)
    requires !ListedTwice(k, h.chunk)
    ensures Occurs(Listing(k), h) == Occurs(Whole(k), h)
  {
    CountListing(k, h);
    CountWhole(k, h);
    assert Occurs(k.claims, h) == 0 || CountOn(k.passages, h.chunk) <= 1 by {
      OccursMultiset(k.claims, h);
    }
    OnceOrNever(Occurs(k.claims, h), CountOn(k.passages, h.chunk));
  }

  lemma OnceOrNever(m: nat, n: nat)
    requires m == 0 || n <= 1
    ensures n > 0 ==> Times(m, n) == m
  {
    if n > 0 {
      assert m == 0 || n == 1;
    }
  }

  lemma ListedTooOften(k: Kept, c: Option<ChunkId>) returns (h: Hit)
    requires ListedTwice(k, c)
    ensures Occurs(Listing(k), h) != Occurs(Whole(k), h)
  {
    h :| h in k.claims && h.chunk == c;
    CountListing(k, h);
    CountWhole(k, h);
    OccursMultiset(k.claims, h);
    AtLeastDouble(Occurs(k.claims, h), CountOn(k.passages, c));
  }

  lemma AtLeastDouble(m: nat, n: nat)
    requires n >= 2
    ensures Times(m, n) >= m + m
  {
  }

  ghost predicate DistinctChunks(passages: seq<Hit>) {
    forall i, j :: 0 <= i < j < |passages| ==> passages[i].chunk != passages[j].chunk
  }

  lemma {:induction false} OncePerChunk(passages: seq<Hit>, c: Option<ChunkId>)
    requires DistinctChunks(passages)
    ensures CountOn(passages, c) <= 1
  {
    if passages != [] {
      var front, p := passages[..|passages| - 1], passages[|passages| - 1];
      OncePerChunk(front, c);
      CountOnZero(front, c);
      if p.chunk == c {
        forall h | h in front ensures h.chunk != c {
          var i :| 0 <= i < |front| && front[i] == h;
          assert passages[i].chunk != passages[|passages| - 1].chunk;
        }
      }
    }
  }

  /** In particular when the passages are of different chunks. */
  lemma DistinctPassages(k: Kept)
    requires DistinctChunks(k.passages)
    ensures multiset(Listing(k)) == multiset(Whole(k))
  {
    forall c ensures !ListedTwice(k, c) {
      OncePerChunk(k.passages, c);
    }
    CatalogueIsPermutation(k);
  }

  /** The hits as the pullers make them: one per grain and id, and a passage's chunk is its id. */
  ghost predicate DistinctHits(hits: seq<Hit>) {
    && (forall i, j :: 0 <= i < j < |hits| ==> hits[i].grain != hits[j].grain || hits[i].id != hits[j].id)
    && (forall h :: h in hits && h.grain.ChunkGrain? ==> h.chunk == Some(ChunkId(h.id)))
  }

  lemma NewPassage(hits: seq<Hit>, last: Hit, h: Hit)
    requires DistinctHits(hits + [last]) && h in hits && h.grain.ChunkGrain? && last.grain.ChunkGrain?
    ensures h.chunk != last.chunk
  {
    var all := hits + [last];
    var i :| 0 <= i < |hits| && hits[i] == h;
    assert all[i] == h && all[|hits|] == last;
    assert h in all && last in all;
  }

  lemma FewerHits(hits: seq<Hit>, last: Hit)
    requires DistinctHits(hits + [last])
    ensures DistinctHits(hits)
  {
    var all := hits + [last];
    assert forall i :: 0 <= i < |hits| ==> all[i] == hits[i];
    assert forall h :: h in hits ==> h in all;
  }

  lemma {:induction false} PassagesOfHits(p: Policy, b: Build, hits: seq<Hit>)
    requires DistinctHits(hits)
    ensures DistinctChunks(Gated(p, b, hits, ChunkGrain))
  {
    if hits != [] {
      var front, last := hits[..|hits| - 1], hits[|hits| - 1];
      assert hits == front + [last];
      FewerHits(front, last);
      PassagesOfHits(p, b, front);
      FilterSnoc(front, last, Admits(p, b, ChunkGrain));
      if Admits(p, b, ChunkGrain)(last) {
        forall h | h in Gated(p, b, front, ChunkGrain) ensures h.chunk != last.chunk {
          NewPassage(front, last, h);
        }
      }
    }
  }

  /** For distinct hits the catalogue is a permutation of the gated, quota-cut hits. */
  lemma DistinctHitsPermuted(p: Policy, b: Build, hits: seq<Hit>)
    requires DistinctHits(hits)
    ensures multiset(HitsOf(CatalogueOf(KeptOf(p, b, hits)))) == multiset(Whole(KeptOf(p, b, hits)))
  {
    PassagesOfHits(p, b, hits);
    CatalogueLists(KeptOf(p, b, hits));
    DistinctPassages(KeptOf(p, b, hits));
  }

  /** Nothing enters the catalogue that is not a hit, or that the gate withholds. */
  lemma ListedPasses(p: Policy, b: Build, hits: seq<Hit>, h: Hit)
    requires h in Listing(KeptOf(p, b, hits))
    ensures h in hits && Passes(p, b, h)
  {
    var k := KeptOf(p, b, hits);
    NestingFrom(k.passages, k.claims, h);
    StableSortElems(Gated(p, b, hits, ClaimGrain), CorroborationKey());
    if h in k.gists {
    } else if h in k.passages {
    } else {
      assert h in k.claims;
      assert h in StableSort(Gated(p, b, hits, ClaimGrain), CorroborationKey());
    }
  }

  lemma {:induction false} NestingFrom(passages: seq<Hit>, claims: seq<Hit>, h: Hit)
    ensures h in Nesting(passages, claims) ==> h in passages || h in claims
  {
    if passages != [] {
      NestingFrom(passages[..|passages| - 1], claims, h);
    }
  }

  // ----- reading the model's picks ----------------------------------------------------------------------

  /** The distinct catalogue numbers the answer's lines give, in order of first mention; a line gives the
      first number in it. */
  function Named(lines: seq<Option<nat>>, nEntries: nat): seq<nat>
  {
    if lines == [] then []
    else
      var front, l := Named(lines[..|lines| - 1], nEntries), lines[|lines| - 1];
      if l.Some? && 1 <= l.value <= nEntries && l.value !in front then front + [l.value] else front
  }

  /** They are exactly the numbers in range that some line gives, each once. */
  lemma {:induction false} NamedExactly(lines: seq<Option<nat>>, nEntries: nat)
    ensures Distinct(Named(lines, nEntries))
    ensures forall k :: k in Named(lines, nEntries) <==> 1 <= k <= nEntries && Some(k) in lines
  {
    if lines != [] {
      var front, l := lines[..|lines| - 1], lines[|lines| - 1];
      assert lines == front + [l];
      NamedExactly(front, nEntries);
    }
  }

  lemma NamedAppend(lines: seq<Option<nat>>, l: Option<nat>, nEntries: nat)
    ensures Named(lines + [l], nEntries)
         == if l.Some? && 1 <= l.value <= nEntries && l.value !in Named(lines, nEntries)
           then Named(lines, nEntries) + [l.value]
            else Named(lines, nEntries)
  {
    assert (lines + [l])[..|lines|] == lines;
  }

  lemma {:induction false} NamedGrows(lines: seq<Option<nat>>, n: nat, nEntries: nat)
    requires n <= |lines|
    ensures Named(lines[..n], nEntries) <= Named(lines, nEntries)
  {
    if n == |lines| {
      assert lines[..n] == lines;
    } else {
      var front := lines[..|lines| - 1];
      assert lines == front + [lines[|lines| - 1]] && lines[..n] == front[..n];
      NamedGrows(front, n, nEntries);
      NamedAppend(front, lines[|lines| - 1], nEntries);
    }
  }

  /** The first number any line gives. */
  function FirstNumber(lines: seq<Option<nat>>): Option<nat> {
    if lines == [] then None else if lines[0].Some? then lines[0] else FirstNumber(lines[1..])
  }

  /** What is picked: at least one allowed, the first so many distinct numbers in range; none allowed, still
      the first number given, if it is in range. */
  function Picks(none: bool, lines: seq<Option<nat>>, nEntries: nat, maxPicks: int): seq<nat> {
    if none then []
    else if maxPicks >= 1 then Named(lines, nEntries)[..Min(maxPicks, |Named(lines, nEntries)|)]
    else
      var first := FirstNumber(lines);
      if first.Some? && 1 <= first.value <= nEntries then [first.value] else []
  }

  lemma PicksOk(none: bool, lines: seq<Option<nat>>, nEntries: nat, maxPicks: int)
    ensures var picks := Picks(none, lines, nEntries, maxPicks);
            Distinct(picks) && |picks| <= Max(1, maxPicks) && forall k :: k in picks ==> 1 <= k <= nEntries
  {
    NamedExactly(lines, nEntries);
    var named := Named(lines, nEntries);
    forall k | k in named[..Min(Max(0, maxPicks), |named|)] ensures k in named {
    }
  }

  /** Every reply keeps to max_picks if and only if at least one pick is allowed. */
  lemma PicksWithinMax(nEntries: nat, maxPicks: int)
    requires nEntries >= 1
    ensures (forall none, lines :: |Picks(none, lines, nEntries, maxPicks)| <= maxPicks) <==> maxPicks >= 1
  {
    if maxPicks < 1 {
      assert FirstNumber([Some(1)]) == Some(1);
      assert |Picks(false, [Some(1)], nEntries, maxPicks)| == 1;
    }
  }

  /** Reads the picks line by line, until there are enough. */
  method ParsePicks(none: bool, lines: seq<Option<nat>>, nEntries: nat, maxPicks: int)
    returns (picks: seq<nat>, bad: seq<nat>)
    ensures picks == Picks(none, lines, nEntries, maxPicks)
    ensures forall k :: k in bad ==> !(1 <= k <= nEntries) && Some(k) in lines
    ensures none ==> bad == []
    ensures !none && picks == [] ==> (bad == [] <==> FirstNumber(lines) == None)
  {
    picks, bad := [], [];
    if none {
      return;
    }
    var n: nat := 0;
    while n < |lines|
      invariant n <= |lines| && PicksRead(lines[..n], nEntries, picks, bad)
      invariant maxPicks >= 1 ==> |picks| < maxPicks
      invariant maxPicks < 1 ==> picks == [] && bad == []
    {
      var l := lines[n];
      assert lines[..n + 1] == lines[..n] + [l];
      PicksStep(lines[..n], nEntries, picks, bad, l);
      n := n + 1;
      if l.None? {
        continue;
      }
      if l.value in picks || l.value in bad {
        continue;
      }
      if 1 <= l.value <= nEntries {
        picks := picks + [l.value];
      } else {
        bad := bad + [l.value];
      }
      if |picks| >= maxPicks {
        break;
      }
    }
    PicksDone(lines, n, nEntries, maxPicks, picks, bad);
  }

  /** What the first lines have given: the picks in range, and some number if any line had one. */
  ghost predicate PicksRead(lines: seq<Option<nat>>, nEntries: nat, picks: seq<nat>, bad: seq<nat>) {
    && picks == Named(lines, nEntries) && (forall k :: k in bad ==> !(1 <= k <= nEntries) && Some(k) in lines)
    && (picks == [] && bad == [] <==> FirstNumber(lines) == None)
    && (|picks| + |bad| == 1 ==> FirstNumber(lines) == Some((picks + bad)[0]))
  }

  lemma {:induction false} FirstNumberNext(lines: seq<Option<nat>>, l: Option<nat>)
    ensures FirstNumber(lines + [l]) == if FirstNumber(lines).Some? then FirstNumber(lines) else l
  {
    if lines != [] {
      assert (lines + [l])[1..] == lines[1..] + [l];
      FirstNumberNext(lines[1..], l);
    } else {
      assert lines + [l] == [l];
    }
  }

  /** What reading one more line does. */
  lemma PicksStep(lines: seq<Option<nat>>, nEntries: nat, picks: seq<nat>, bad: seq<nat>, l: Option<nat>)
    requires PicksRead(lines, nEntries, picks, bad)
    ensures l == None || l.value in picks || l.value in bad ==> PicksRead(lines + [l], nEntries, picks, bad)
    ensures l.Some? && l.value !in picks && l.value !in bad ==>
              if 1 <= l.value <= nEntries then PicksRead(lines + [l], nEntries, picks + [l.value], bad)
              else PicksRead(lines + [l], nEntries, picks, bad + [l.value])
  {
    NamedAppend(lines, l, nEntries);
    FirstNumberNext(lines, l);
  }

  lemma {:induction false} FirstNumberStays(lines: seq<Option<nat>>, n: nat)
    requires n <= |lines| && FirstNumber(lines[..n]).Some?
    ensures FirstNumber(lines) == FirstNumber(lines[..n])
  {
    if lines[0].None? {
      assert lines[..n][1..] == lines[1..][..n - 1];
      FirstNumberStays(lines[1..], n - 1);
    }
  }

  /** Where the loop stops: all lines read, as many picks as allowed, or none allowed and a number read. */
  lemma PicksDone(lines: seq<Option<nat>>, n: nat, nEntries: nat, maxPicks: int, picks: seq<nat>, bad: seq<nat>)
    requires n <= |lines| && PicksRead(lines[..n], nEntries, picks, bad)
    requires maxPicks >= 1 ==> if n < |lines| then |picks| == maxPicks else |picks| <= maxPicks
    requires maxPicks < 1 ==> if n < |lines| then |picks| + |bad| == 1 else |picks| + |bad| <= 1
    ensures picks == Picks(false, lines, nEntries, maxPicks)
    ensures forall k :: k in bad ==> Some(k) in lines
    ensures picks == [] ==> (bad == [] <==> FirstNumber(lines) == None)
  {
    NamedGrows(lines, n, nEntries);
    NamedExactly(lines[..n], nEntries);
    assert n == |lines| ==> lines[..n] == lines;
    forall k | k in bad ensures Some(k) in lines {
      assert Some(k) in lines[..n];
    }
    if FirstNumber(lines[..n]).Some? {
      FirstNumberStays(lines, n);
    }
  }

  // ----- the fast path -------------------------------------------------------------------------------------

  function SubjectsOf(b: Build, c: Option<ChunkId>): set<string> {
    set x | x in AnchoredTo(b, c) && x in b.claims && b.claims[x].subject.Some? :: b.claims[x].subject.value
  }

  predicate ClaimAboutChunk(b: Build, claimSide: Hit, chunkSide: Hit) {
    && claimSide.claim.subject.Some? && claimSide.claim.subject.value != ""
    && chunkSide.grain == ChunkGrain && claimSide.claim.subject.value in SubjectsOf(b, chunkSide.chunk)
  }

  /** Two hits are one thing at two grains. */
  predicate SameThing(b: Build, x: Hit, y: Hit) {
    if x.chunk.Some? && x.chunk == y.chunk then true
    else if x.claim.subject.Some? && x.claim.subject.value != "" && x.claim.subject == y.claim.subject then true
    else ClaimAboutChunk(b, x, y) || ClaimAboutChunk(b, y, x)
  }

  /** The chunk has an anchored claim about the subject. */
  ghost predicate ChunkAbout(b: Build, c: Option<ChunkId>, subject: string) {
    c.Some? && c.value in b.byChunk
      && exists x :: x in b.byChunk[c.value] && x in b.claims && b.claims[x].subject == Some(subject)
  }

  /** Two hits are one thing when they share their chunk or their subject, or one is a passage and a claim anchored to
      it has the subject of the other. */
  lemma SameThingExactly(b: Build, x: Hit, y: Hit)
    ensures SameThing(b, x, y) <==>
            || (x.chunk.Some? && x.chunk == y.chunk)
            || (x.claim.subject.Some? && x.claim.subject.value != "" && x.claim.subject == y.claim.subject)
            || (&& x.claim.subject.Some? && x.claim.subject.value != ""
                && y.grain == ChunkGrain && ChunkAbout(b, y.chunk, x.claim.subject.value))
            || (&& y.claim.subject.Some? && y.claim.subject.value != ""
                && x.grain == ChunkGrain && ChunkAbout(b, x.chunk, y.claim.subject.value))
    ensures SameThing(b, x, y) <==> SameThing(b, y, x)
  {
  }

  /** An exact hit that is another thing. */
  predicate Rival(b: Build, top: Hit, h: Hit) {
    h.exact && !SameThing(b, top, h)
  }

  function ScoreKey(): Hit -> real {
    (h: Hit) => -h.score
  }

  /** Nothing contests the top hit: without a rival it leads zero by the margin, otherwise every rival. */
  ghost predicate Uncontested(p: Policy, b: Build, ranked: seq<Hit>) {
    && ranked != []
    && (forall i :: 1 <= i < |ranked| && Rival(b, ranked[0], ranked[i]) ==>
        ranked[0].score - ranked[i].score >= p.fastPathMargin)
    && ((forall i :: 1 <= i < |ranked| ==> !Rival(b, ranked[0], ranked[i])) ==> ranked[0].score >= p.fastPathMargin)
  }

  /** The hit the short cut takes, if it is taken: a strong, exact, uncontested one, for a short cue. */
  ghost function FastTop(p: Policy, b: Build, ranked: seq<Hit>, cueTerms: nat): Option<Hit> {
    if p.fastPath && ranked != [] && cueTerms <= 6 && ranked[0].exact && ranked[0].score >= p.fastPathMin
       && Uncontested(p, b, ranked)
    then Some(ranked[0]) else None
  }

  /** Only exact hits that are another thing contest the top. */
  lemma UncontestedExactly(p: Policy, b: Build, ranked: seq<Hit>)
    requires ranked != []
    ensures var top := ranked[0];
            Uncontested(p, b, ranked) <==>
            && (forall h :: h in ranked[1..] && h.exact && !SameThing(b, top, h) ==>
                              top.score - h.score >= p.fastPathMargin)
            && ((forall h :: h in ranked[1..] && h.exact ==> SameThing(b, top, h)) ==> top.score >= p.fastPathMargin)
  {
    assert forall i :: 1 <= i < |ranked| ==> ranked[i] == ranked[1..][i - 1];
    assert forall i :: 1 <= i < |ranked| ==> ranked[i] in ranked[1..];
  }

  /** The short cut is taken exactly when an exact, strong enough top hit is uncontested by any rival,
      although only the first rival in rank is looked at. */
  method FastPathPick(p: Policy, b: Build, ranked: seq<Hit>, cueTerms: nat) returns (pick: Option<Hit>)
    requires SortedBy(ranked, ScoreKey())
    ensures pick == FastTop(p, b, ranked, cueTerms)
  {
    if !p.fastPath || ranked == [] {
      return None;
    }
    if cueTerms > 6 {
      return None;
    }
    var top := ranked[0];
    if !top.exact || top.score < p.fastPathMin {
      return None;
    }
    var second, i := 0.0, 1;
    while i < |ranked| && !Rival(b, top, ranked[i])
      invariant 1 <= i <= |ranked| && forall j :: 1 <= j < i ==> !Rival(b, top, ranked[j])
    {
      i := i + 1;
    }
    if i < |ranked| {
      second := ranked[i].score;
      forall j | i <= j < |ranked| ensures ranked[j].score <= second {
        assert ScoreKey()(ranked[i]) <= ScoreKey()(ranked[j]);
      }
    }
    if top.score - second < p.fastPathMargin {
      return None;
    }
    pick := Some(top);
  }

  // ----- the budget ---------------------------------------------------------------------------------------

  datatype Budget = Budget(total: nat, claim: real, chunk: real, gist: real)

  function Fraction(b: Budget, g: Grain): real {
    match g
    case ClaimGrain => b.claim
    case ChunkGrain => b.chunk
    case GistGrain => b.gist
  }

  /** Python's int(): truncation toward zero. */
  function Truncated(x: real): int {
    if x >= 0.0 then x.Floor else -(-x).Floor
  }

  function Portion(total: nat, x: real): real {
    total as real * x
  }

  function Share(b: Budget, g: Grain): int {
    Truncated(Portion(b.total, Fraction(b, g)))
  }

  /** A grain's share is its part of the total, cut to a whole number of tokens. */
  lemma ShareIsPart(b: Budget, g: Grain)
    ensures var part := b.total as real * match g case ClaimGrain => b.claim case ChunkGrain => b.chunk
                                          case GistGrain => b.gist;
            if part >= 0.0 then Share(b, g) as real <= part < Share(b, g) as real + 1.0
            else Share(b, g) as real - 1.0 < part <= Share(b, g) as real
  {
  }

  /** The rendered text's cost in tokens, or nothing when the document no longer has the text. */
  type Quote = Hit -> Option<nat>

  datatype Outcome = Missing | Skipped | Rendered

  datatype Spending = Spending(spent: map<Grain, nat>, outcomes: seq<Outcome>)

  function SpentOn(s: map<Grain, nat>, g: Grain): nat {
    if g in s then s[g] else 0
  }

  predicate Overflows(s: map<Grain, nat>, b: Budget, h: Hit, cost: nat) {
    SpentOn(s, h.grain) + cost > Share(b, h.grain) && cost > 0
  }

  function CostOf(q: Quote, h: Hit): nat {
    if q(h).Some? then q(h).value else 0
  }

  /** What the hits rendered so far cost at one grain. */
  function RenderedCost(q: Quote, chosen: seq<Hit>, outcomes: seq<Outcome>, g: Grain): nat
    requires |outcomes| <= |chosen|
  {
    if outcomes == [] then 0
    else
      var n := |outcomes| - 1;
      RenderedCost(q, chosen, outcomes[..n], g) + if outcomes[n].Rendered? && chosen[n].grain == g
        then CostOf(q, chosen[n]) else 0
  }

  lemma {:induction false} CostGrows(q: Quote, chosen: seq<Hit>, outcomes: seq<Outcome>, n: nat, g: Grain)
    requires n <= |outcomes| <= |chosen|
    ensures RenderedCost(q, chosen, outcomes[..n], g) <= RenderedCost(q, chosen, outcomes, g)
  {
    if n < |outcomes| {
      var front := outcomes[..|outcomes| - 1];
      assert front[..n] == outcomes[..n];
      CostGrows(q, chosen, front, n, g);
    } else {
      assert outcomes[..n] == outcomes;
    }
  }

  /** At its turn the hit was rendered exactly when it had text and fitted what was left. */
  ghost predicate Fair(q: Quote, b: Budget, chosen: seq<Hit>, outcomes: seq<Outcome>, i: nat)
    requires i < |outcomes| <= |chosen|
  {
    var h := chosen[i];
    var before := RenderedCost(q, chosen, outcomes[..i], h.grain);
    && (outcomes[i].Missing? <==> q(h) == None)
    && (outcomes[i].Skipped? <==> q(h).Some? && before + q(h).value > Share(b, h.grain) && q(h).value > 0)
  }

  ghost predicate SpendState(q: Quote, b: Budget, chosen: seq<Hit>, spent: map<Grain, nat>, outcomes: seq<Outcome>) {
    && |outcomes| <= |chosen|
    && (forall g :: SpentOn(spent, g) == RenderedCost(q, chosen, outcomes, g) <= Max(0, Share(b, g)))
    && (forall i {:trigger Fair(q, b, chosen, outcomes, i)} :: 0 <= i < |outcomes| ==> Fair(q, b, chosen, outcomes, i))
  }

  function Decide(q: Quote, b: Budget, spent: map<Grain, nat>, h: Hit): Outcome {
    if q(h).None? then Missing else if Overflows(spent, b, h, q(h).value) then Skipped else Rendered
  }

  function Pay(q: Quote, b: Budget, spent: map<Grain, nat>, h: Hit): map<Grain, nat> {
    if Decide(q, b, spent, h).Rendered? then spent[h.grain := SpentOn(spent, h.grain) + CostOf(q, h)] else spent
  }

  lemma SpendStep(q: Quote, b: Budget, chosen: seq<Hit>, spent: map<Grain, nat>, outcomes: seq<Outcome>)
    requires SpendState(q, b, chosen, spent, outcomes) && |outcomes| < |chosen|
    ensures var h := chosen[|outcomes|];
            SpendState(q, b, chosen, Pay(q, b, spent, h), outcomes + [Decide(q, b, spent, h)])
  {
    var n := |outcomes|;
    var h := chosen[n];
    var more := outcomes + [Decide(q, b, spent, h)];
    assert more[..n] == outcomes;
    forall g ensures SpentOn(Pay(q, b, spent, h), g) == RenderedCost(q, chosen, more, g) <= Max(0, Share(b, g)) {
      assert SpentOn(spent, g) == RenderedCost(q, chosen, outcomes, g);
    }
    forall i | 0 <= i < |more| ensures Fair(q, b, chosen, more, i) {
      if i < n {
        assert Fair(q, b, chosen, outcomes, i);
        assert more[..i] == outcomes[..i];
      } else {
        assert SpentOn(spent, h.grain) == RenderedCost(q, chosen, outcomes, h.grain);
      }
    }
  }

  function Select(chosen: seq<Hit>, outcomes: seq<Outcome>, o: Outcome): seq<Hit>
    requires |outcomes| <= |chosen|
  {
    if outcomes == [] then []
    else
      var n := |outcomes| - 1;
      Select(chosen, outcomes[..n], o) + if outcomes[n] == o then [chosen[n]] else []
  }

  lemma SelectAppend(chosen: seq<Hit>, outcomes: seq<Outcome>, x: Outcome, o: Outcome)
    requires |outcomes| < |chosen|
    ensures Select(chosen, outcomes + [x], o) == Select(chosen, outcomes, o) + if x == o then [chosen[|outcomes|]]
            else []
  {
    assert (outcomes + [x])[..|outcomes|] == outcomes;
  }

  lemma {:induction false} Selected(chosen: seq<Hit>, outcomes: seq<Outcome>, o: Outcome, h: Hit)
    requires |outcomes| <= |chosen|
    ensures |Select(chosen, outcomes, o)| <= |outcomes|
    ensures h in Select(chosen, outcomes, o) ==> exists i :: 0 <= i < |outcomes| && outcomes[i] == o && chosen[i] == h
  {
    if outcomes != [] {
      var n := |outcomes| - 1;
      Selected(chosen, outcomes[..n], o, h);
      if h in Select(chosen, outcomes[..n], o) {
        var i :| 0 <= i < n && outcomes[..n][i] == o && chosen[i] == h;
        assert outcomes[i] == o && chosen[i] == h;
      }
    }
  }

  /** The chosen hits are rendered in order while their grain's share lasts; no grain's spend exceeds its
      share, and what was skipped would not fit even at the end. */
  method Spend(q: Quote, b: Budget, chosen: seq<Hit>)
    returns (rendered: seq<Hit>, spent: map<Grain, nat>, skipped: seq<Hit>, ghost outcomes: seq<Outcome>)
    ensures |outcomes| == |chosen| && SpendState(q, b, chosen, spent, outcomes)
    ensures rendered == Select(chosen, outcomes, Rendered) && skipped == Select(chosen, outcomes, Skipped)
    ensures forall h :: h in skipped ==>
            q(h).Some? && q(h).value > 0 && SpentOn(spent, h.grain) + q(h).value > Share(b, h.grain)
    ensures forall h :: h in rendered ==> h in chosen
  {
    rendered, skipped, outcomes := [], [], [];
    spent := map[ClaimGrain := 0, ChunkGrain := 0, GistGrain := 0];
    for n := 0 to |chosen|
      invariant |outcomes| == n && SpendState(q, b, chosen, spent, outcomes)
      invariant rendered == Select(chosen, outcomes, Rendered) && skipped == Select(chosen, outcomes, Skipped)
    {
      var h := chosen[n];
      ghost var o := Decide(q, b, spent, h);
      SpendStep(q, b, chosen, spent, outcomes);
      SelectAppend(chosen, outcomes, o, Rendered);
      SelectAppend(chosen, outcomes, o, Skipped);
      outcomes := outcomes + [o];
      var quote := q(h);
      if quote.None? {
        continue;
      }
      if Overflows(spent, b, h, quote.value) {
        skipped := skipped + [h];
        continue;
      }
      spent := spent[h.grain := SpentOn(spent, h.grain) + quote.value];
      rendered := rendered + [h];
    }
    forall h | h in skipped
      ensures q(h).Some? && q(h).value > 0 && SpentOn(spent, h.grain) + q(h).value > Share(b, h.grain)
    {
      Selected(chosen, outcomes, Skipped, h);
      var i :| 0 <= i < |outcomes| && outcomes[i] == Skipped && chosen[i] == h;
      assert Fair(q, b, chosen, outcomes, i);
      CostGrows(q, chosen, outcomes, i, h.grain);
    }
    forall h | h in rendered ensures h in chosen {
      Selected(chosen, outcomes, Rendered, h);
    }
  }

  lemma ThreeParts(total: nat, x: real, y: real, z: real)
    requires x >= 0.0 && y >= 0.0 && z >= 0.0 && x + y + z <= 1.0
    ensures Portion(total, x) >= 0.0 && Portion(total, y) >= 0.0 && Portion(total, z) >= 0.0
    ensures Portion(total, x) + Portion(total, y) + Portion(total, z) <= total as real
  {
    var t := total as real;
    assert t * x + t * y + t * z == t * (x + y + z);
    assert t * (1.0 - (x + y + z)) >= 0.0;
  }

  lemma FloorsFit(a: real, b: real, c: real, total: nat)
    requires a >= 0.0 && b >= 0.0 && c >= 0.0 && a + b + c <= total as real
    ensures Truncated(a) >= 0 && Truncated(b) >= 0 && Truncated(c) >= 0
            && Truncated(a) + Truncated(b) + Truncated(c) <= total
  {
    assert (a.Floor + b.Floor + c.Floor) as real <= total as real;
  }

  lemma SharesFit(b: Budget)
    requires b.claim >= 0.0 && b.chunk >= 0.0 && b.gist >= 0.0 && b.claim + b.chunk + b.gist <= 1.0
    ensures forall g :: Share(b, g) >= 0
    ensures Share(b, ClaimGrain) + Share(b, ChunkGrain) + Share(b, GistGrain) <= b.total
  {
    ThreeParts(b.total, b.claim, b.chunk, b.gist);
    FloorsFit(Portion(b.total, b.claim), Portion(b.total, b.chunk), Portion(b.total, b.gist), b.total);
    forall g ensures Share(b, g) >= 0 {
      match g {
        case ClaimGrain =>
        case ChunkGrain =>
        case GistGrain =>
      }
    }
  }

  lemma WithinShare(q: Quote, b: Budget, chosen: seq<Hit>, spent: map<Grain, nat>, outcomes: seq<Outcome>, g: Grain)
    requires SpendState(q, b, chosen, spent, outcomes)
    ensures SpentOn(spent, g) <= Max(0, Share(b, g))
  {
    assert SpentOn(spent, g) == RenderedCost(q, chosen, outcomes, g);
  }

  /** With shares that are not negative and add up to at most 1, the whole block is within the total. */
  lemma SpendWithinTotal(q: Quote, b: Budget, chosen: seq<Hit>, spent: map<Grain, nat>, outcomes: seq<Outcome>)
    requires SpendState(q, b, chosen, spent, outcomes)
    requires b.claim >= 0.0 && b.chunk >= 0.0 && b.gist >= 0.0 && b.claim + b.chunk + b.gist <= 1.0
    ensures SpentOn(spent, ClaimGrain) + SpentOn(spent, ChunkGrain) + SpentOn(spent, GistGrain) <= b.total
  {
    SharesFit(b);
    WithinShare(q, b, chosen, spent, outcomes, ClaimGrain);
    WithinShare(q, b, chosen, spent, outcomes, ChunkGrain);
    WithinShare(q, b, chosen, spent, outcomes, GistGrain);
  }

  // ----- the whole pass -----------------------------------------------------------------------------------

  /** What asking the model came to: there is none, it failed, or it answered (saying NONE, or in lines). */
  datatype Reply = NoModel | Raised | Answered(none: bool, lines: seq<Option<nat>>)

  datatype Reason = NoCandidates | FastPath | NoModelReason | GenerateFailed | PickedNothing | ParseFailed | Picked

  datatype Block = Block(rendered: seq<Hit>, picks: seq<nat>, reason: Reason, fast: bool, catalogue: nat,
                         spent: map<Grain, nat>)

  function Companion(b: Build, top: Hit): Hit -> bool {
    (h: Hit) => h != top && SameThing(b, top, h)
  }

  /** The exact hit and at most two others that are the same thing. */
  function FastChosen(b: Build, listing: seq<Hit>, top: Hit): seq<Hit> {
    var same := Filter(listing, Companion(b, top));
    [top] + same[..Min(2, |same|)]
  }

  /** The top hit first, then up to two other hits of the listing that are the same thing; all of them if there are no
      more than two. */
  lemma FastChosenExactly(b: Build, listing: seq<Hit>, top: Hit)
    ensures var chosen := FastChosen(b, listing, top);
            && 1 <= |chosen| <= 3 && chosen[0] == top
            && (forall h :: h in chosen[1..] ==> h in listing && h != top && SameThing(b, top, h))
            && (|chosen| < 3 ==> forall h :: h in listing && h != top && SameThing(b, top, h) ==> h in chosen)
  {
    var same := Filter(listing, Companion(b, top));
    var some := same[..Min(2, |same|)];
    assert FastChosen(b, listing, top)[1..] == some;
    assert forall h :: h in some ==> h in same;
    if |some| < 2 {
      assert some == same;
    }
  }

  function ByNumber(entries: seq<Entry>, picks: seq<nat>): seq<Hit>
    requires forall k :: k in picks ==> 1 <= k <= |entries|
  {
    seq(|picks|, i requires 0 <= i < |picks| =>
      assert picks[i] in picks;
      entries[picks[i] - 1].hit)
  }

  ghost predicate AllListed(entries: seq<Entry>, chosen: seq<Hit>) {
    forall h :: h in chosen ==> h in HitsOf(entries)
  }

  /** Everything chosen comes from the catalogue. */
  lemma ChosenListed(b: Build, entries: seq<Entry>, picks: seq<nat>, top: Hit)
    ensures (forall k :: k in picks ==> 1 <= k <= |entries|) ==> AllListed(entries, ByNumber(entries, picks))
    ensures top in HitsOf(entries) ==> AllListed(entries, FastChosen(b, HitsOf(entries), top))
  {
    if forall k :: k in picks ==> 1 <= k <= |entries| {
      forall h | h in ByNumber(entries, picks) ensures h in HitsOf(entries) {
        var i :| 0 <= i < |picks| && ByNumber(entries, picks)[i] == h;
        assert picks[i] in picks;
        assert HitsOf(entries)[picks[i] - 1] == h;
      }
    }
  }

  function NumbersOf(entries: seq<Entry>, chosen: seq<Hit>): seq<nat> {
    if entries == [] then []
    else
      var last := entries[|entries| - 1];
      NumbersOf(entries[..|entries| - 1], chosen) + if last.hit in chosen then [last.no] else []
  }

  lemma {:induction false} NumbersOk(entries: seq<Entry>, chosen: seq<Hit>)
    requires Numbered(entries)
    ensures Distinct(NumbersOf(entries, chosen))
    ensures forall k :: k in NumbersOf(entries, chosen) ==> 1 <= k <= |entries|
  {
    if entries != [] {
      var front, last := entries[..|entries| - 1], entries[|entries| - 1];
      NumbersOk(front, chosen);
      assert last.no == |entries| && last.no !in NumbersOf(front, chosen);
      DistinctSnoc(NumbersOf(front, chosen), last.no);
    }
  }

  /** They are the numbers of the entries whose hits are chosen, and no others. */
  lemma {:induction false} NumbersExactly(entries: seq<Entry>, chosen: seq<Hit>, k: nat)
    requires Numbered(entries)
    ensures k in NumbersOf(entries, chosen) <==> 1 <= k <= |entries| && entries[k - 1].hit in chosen
  {
    if entries != [] {
      var front, last := entries[..|entries| - 1], entries[|entries| - 1];
      NumbersExactly(front, chosen, k);
      assert last.no == |entries|;
      assert 1 <= k <= |front| ==> front[k - 1] == entries[k - 1];
    }
  }

  datatype Choice = Choice(chosen: seq<Hit>, picks: seq<nat>, reason: Reason, fast: bool)

  /** Why nothing was picked: the answer gave no number at all, or none in range. */
  function ReasonFor(none: bool, lines: seq<Option<nat>>, picks: seq<nat>): Reason {
    if picks != [] then Picked
    else if none || FirstNumber(lines) == None then PickedNothing
    else ParseFailed
  }

  /** Nothing was picked on purpose when the answer says so or gives no number at all; by mistake when it gives only
      numbers out of range, or first such a one where no pick is allowed. */
  lemma {:induction false} ReasonExactly(none: bool, lines: seq<Option<nat>>, nEntries: nat, maxPicks: int)
    ensures var reason := ReasonFor(none, lines, Picks(none, lines, nEntries, maxPicks));
            var silent := none || forall l :: l in lines ==> l == None;
            && (reason == PickedNothing <==> silent)
            && (maxPicks >= 1 && !silent ==>
                  (reason == ParseFailed <==> forall k :: Some(k) in lines ==> !(1 <= k <= nEntries)))
  {
    NumberGiven(lines);
    NamedExactly(lines, nEntries);
    var named := Named(lines, nEntries);
    if maxPicks >= 1 && named != [] {
      assert named[0] in named;
    }
    assert forall k :: Some(k) in lines && 1 <= k <= nEntries ==> k in named;
  }

  lemma {:induction false} NumberGiven(lines: seq<Option<nat>>)
    ensures FirstNumber(lines) == None <==> forall l :: l in lines ==> l == None
  {
    if lines != [] {
      NumberGiven(lines[1..]);
      assert lines[0] in lines;
      assert forall l :: l in lines <==> l == lines[0] || l in lines[1..];
    }
  }

  function ModelChoice(p: Policy, entries: seq<Entry>, reply: Reply): Choice {
    match reply
    case NoModel => Choice([], [], NoModelReason, false)
    case Raised => Choice([], [], GenerateFailed, false)
    case Answered(none, lines) =>
      var picks := Picks(none, lines, |entries|, p.maxPicks);
      PicksOk(none, lines, |entries|, p.maxPicks);
      Choice(ByNumber(entries, picks), picks, ReasonFor(none, lines, picks), false)
  }

  function FastChoice(b: Build, entries: seq<Entry>, top: Hit): Choice {
    var chosen := FastChosen(b, HitsOf(entries), top);
    Choice(chosen, NumbersOf(entries, chosen), FastPath, true)
  }

  /** What is chosen from the catalogue: the fast path's top hit with its companions, or what the reply says. */
  ghost function ChoiceOf(p: Policy, b: Build, entries: seq<Entry>, cueTerms: nat, forceModel: bool,
                          reply: Reply): Choice
  {
    var top := FastTop(p, b, StableSort(HitsOf(entries), ScoreKey()), cueTerms);
    if !forceModel && top.Some? then FastChoice(b, entries, top.value) else ModelChoice(p, entries, reply)
  }

  /** A choice from the catalogue: what is chosen is listed, picks are entry numbers, sizes are bounded. */
  ghost predicate Bounded(p: Policy, entries: seq<Entry>, c: Choice) {
    && AllListed(entries, c.chosen)
    && Distinct(c.picks) && (forall k :: k in c.picks ==> 1 <= k <= |entries|)
    && |c.chosen| <= (if c.fast then 3 else Max(1, p.maxPicks))
    && (c.chosen == [] <==> c.reason in {NoModelReason, GenerateFailed, PickedNothing, ParseFailed})
  }

  lemma FastBounded(p: Policy, b: Build, entries: seq<Entry>, top: Hit)
    requires Numbered(entries) && top in HitsOf(entries)
    ensures Bounded(p, entries, FastChoice(b, entries, top))
  {
    ChosenListed(b, entries, [], top);
    NumbersOk(entries, FastChosen(b, HitsOf(entries), top));
  }

  lemma ModelBounded(p: Policy, b: Build, entries: seq<Entry>, reply: Reply)
    requires entries != []
    ensures Bounded(p, entries, ModelChoice(p, entries, reply))
  {
    if reply.Answered? {
      PicksOk(reply.none, reply.lines, |entries|, p.maxPicks);
      ChosenListed(b, entries, Picks(reply.none, reply.lines, |entries|, p.maxPicks), entries[0].hit);
    }
  }

  /** On both paths. */
  lemma ChoiceBounded(p: Policy, b: Build, entries: seq<Entry>, cueTerms: nat, forceModel: bool, reply: Reply)
    requires Numbered(entries) && entries != []
    ensures Bounded(p, entries, ChoiceOf(p, b, entries, cueTerms, forceModel, reply))
  {
    StableSortElems(HitsOf(entries), ScoreKey());
    var top := FastTop(p, b, StableSort(HitsOf(entries), ScoreKey()), cueTerms);
    if !forceModel && top.Some? {
      FastBounded(p, b, entries, top.value);
    } else {
      ModelBounded(p, b, entries, reply);
    }
  }

  /** The fast path keeps to max_picks on every listing if and only if three picks are allowed. */
  lemma FastPathWithinMax(b: Build, maxPicks: int)
    ensures (forall listing, top :: |FastChosen(b, listing, top)| <= maxPicks) <==> maxPicks >= 3
  {
    if maxPicks < 3 {
      var c, none := Some(ChunkId("c")), ClaimInfo("", None, 0.0);
      var top := Hit("c", ChunkGrain, 3.0, DocId("d"), c, "", true, none);
      var x := Hit("x", ClaimGrain, 2.0, DocId("d"), c, "", false, none);
      var y := Hit("y", ClaimGrain, 1.0, DocId("d"), c, "", false, none);
      BothCompanions(b, top, x, y);
      assert |FastChosen(b, [top, x, y], top)| == 3;
    }
  }

  /** Three hits on one chunk, the first of them strong and exact. */
  ghost predicate OneChunk(p: Policy, top: Hit, x: Hit, y: Hit) {
    && p.fastPath && top.exact && top.score >= p.fastPathMin && top.score >= p.fastPathMargin
    && top.chunk.Some? && x.chunk == y.chunk == top.chunk && y.score < x.score < top.score
  }

  lemma LeadsAlone(p: Policy, b: Build, top: Hit, x: Hit, y: Hit)
    requires OneChunk(p, top, x, y)
    ensures FastTop(p, b, [top, x, y], 0) == Some(top)
  {
    var ranked := [top, x, y];
    assert SameThing(b, top, x) && SameThing(b, top, y);
    forall i | 1 <= i < |ranked| ensures !Rival(b, top, ranked[i]) {
    }
  }

  lemma BothCompanions(b: Build, top: Hit, x: Hit, y: Hit)
    requires top.chunk.Some? && x.chunk == y.chunk == top.chunk && top != x && top != y
    ensures Filter([top, x, y], Companion(b, top)) == [x, y]
  {
    var keep := Companion(b, top);
    assert !keep(top) && keep(x) && keep(y);
    FilterEmpty(keep);
    FilterSnoc([], top, keep);
    FilterSnoc([top], x, keep);
    FilterSnoc([top, x], y, keep);
    assert [] + [top] == [top] && [top] + [x] == [top, x] && [top, x] + [y] == [top, x, y];
  }

  function ThreeEntries(top: Hit, x: Hit, y: Hit): seq<Entry> {
    [Entry(top, 1, false), Entry(x, 2, false), Entry(y, 3, false)]
  }

  lemma TakesThree(b: Build, top: Hit, x: Hit, y: Hit)
    requires top.chunk.Some? && x.chunk == y.chunk == top.chunk && top != x && top != y
    ensures FastChosen(b, [top, x, y], top) == [top, x, y]
  {
    BothCompanions(b, top, x, y);
    assert [x, y][..2] == [x, y] && [top] + [x, y] == [top, x, y];
  }

  lemma TakesFastPath(p: Policy, b: Build, entries: seq<Entry>, cueTerms: nat, reply: Reply, top: Hit)
    requires FastTop(p, b, StableSort(HitsOf(entries), ScoreKey()), cueTerms) == Some(top)
    ensures ChoiceOf(p, b, entries, cueTerms, false, reply) == FastChoice(b, entries, top)
  {
  }

  /** All three are taken, whatever max_picks is and whatever the model would say. */
  lemma FastPathTakesThree(p: Policy, b: Build, top: Hit, x: Hit, y: Hit, reply: Reply)
    requires OneChunk(p, top, x, y)
    ensures ChoiceOf(p, b, ThreeEntries(top, x, y), 0, false, reply).chosen == [top, x, y]
  {
    var listing := HitsOf(ThreeEntries(top, x, y));
    assert listing == [top, x, y];
    SortedStays(listing, ScoreKey());
    LeadsAlone(p, b, top, x, y);
    TakesThree(b, top, x, y);
    TakesFastPath(p, b, ThreeEntries(top, x, y), 0, reply, top);
  }

  method PickByModel(p: Policy, entries: seq<Entry>, reply: Reply) returns (c: Choice)
    ensures c == ModelChoice(p, entries, reply)
  {
    match reply {
      case NoModel => c := Choice([], [], NoModelReason, false);
      case Raised => c := Choice([], [], GenerateFailed, false);
      case Answered(none, lines) =>
        var picks, bad := ParsePicks(none, lines, |entries|, p.maxPicks);
        PicksOk(none, lines, |entries|, p.maxPicks);
        var chosen := ByNumber(entries, picks);
        var reason := Picked;
        if chosen == [] {
          reason := if none || (picks == [] && bad == []) then PickedNothing else ParseFailed;
        }
        c := Choice(chosen, picks, reason, false);
    }
  }

  method Choose(p: Policy, b: Build, entries: seq<Entry>, cueTerms: nat, forceModel: bool, reply: Reply)
    returns (c: Choice)
    ensures c == ChoiceOf(p, b, entries, cueTerms, forceModel, reply)
  {
    var listing := HitsOf(entries);
    var ranked := StableSort(listing, ScoreKey());
    if !forceModel {
      var fp := FastPathPick(p, b, ranked, cueTerms);
      if fp.Some? {
        var chosen := FastChosen(b, listing, fp.value);
        return Choice(chosen, NumbersOf(entries, chosen), FastPath, true);
      }
    }
    c := PickByModel(p, entries, reply);
  }

  /** The block is what the catalogue, the choice and the budget make of the hits. On the fast path and on the
      model's path alike every rendered hit is one of the hits and passed the gate. */
  method SelectAndRender(p: Policy, b: Build, hits: seq<Hit>, cueTerms: nat, forceModel: bool, reply: Reply, q: Quote,
                         budget: Budget)
    returns (block: Block, ghost outcomes: seq<Outcome>)
    ensures var entries := CatalogueOf(KeptOf(p, b, hits));
            && block.catalogue == |entries|
            && if entries == [] then block == Block([], [], NoCandidates, false, 0, map[])
               else
                 var c := ChoiceOf(p, b, entries, cueTerms, forceModel, reply);
                 && block.picks == c.picks && block.fast == c.fast && block.reason == c.reason
                 && |outcomes| == |c.chosen| && SpendState(q, budget, c.chosen, block.spent, outcomes)
                 && block.rendered == Select(c.chosen, outcomes, Rendered)
    ensures forall h :: h in block.rendered ==> h in hits && Passes(p, b, h)
    ensures |block.rendered| <= if block.fast then 3 else Max(1, p.maxPicks)
  {
    var list, w := BuildCatalogue(p, b, hits);
    outcomes := [];
    if list == [] {
      return Block([], [], NoCandidates, false, 0, map[]), outcomes;
    }
    var choice := Choose(p, b, list, cueTerms, forceModel, reply);
    ChoiceBounded(p, b, list, cueTerms, forceModel, reply);
    var rendered, spent, skipped;
    rendered, spent, skipped, outcomes := Spend(q, budget, choice.chosen);
    block := Block(rendered, choice.picks, choice.reason, choice.fast, |list|, spent);
    Selected(choice.chosen, outcomes, Rendered, list[0].hit);
    forall h | h in rendered ensures h in hits && Passes(p, b, h) {
      ListedPasses(p, b, hits, h);
    }
  }
}
