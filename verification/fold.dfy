/** Claims and the fold that builds them from the documents' protocols (assoc/fold.py). */
module Folding {
  import opened Common

  datatype DocId = DocId(name: string)
  datatype ChunkId = ChunkId(name: string)

  /** A folded claim's id is a hash; the id of a removal event is that hash behind `rm-`. */
  datatype ClaimId = Folded(hash: string) | Removal(hash: string)

  /** One grounded fact of one document: which document, which fact of it, which chunk, when it was said. */
  datatype Occurrence = Occurrence(
    doc: DocId, index: nat, key: string, chunk: Option<ChunkId>, text: string, asserted: string)

  datatype Claim = Claim(
    text: string, facet: string, subject: string, kind: string, version: string,
    entities: seq<string>, occurrences: seq<Occurrence>, sources: set<string>, variants: set<string>,
    visible: set<DocId>, mergedFrom: seq<ClaimId>, contests: seq<ClaimId>, supersededBy: Option<ClaimId>)

  datatype Fact = Fact(
    text: string, factClass: string, need: bool, subject: string, entities: seq<string>,
    chunk: Option<ChunkId>, grounded: bool, version: string)

  /** A document without a protocol has not been extracted: it has no facts to fold, and takes part in no
      comparison of versions. `dated` is the date, version or ingest time its facts are asserted at. */
  datatype Document = Document(
    id: DocId, key: string, kind: string, version: string, dated: string, extracted: bool, facts: seq<Fact>)

  /** Hashing and the per-kind facet maps, taken as given. */
  datatype Keys = Keys(hash: (string, string, string) -> string, facetMap: (string, string) -> string)

  // ----- the events: what the fold is a fold of ---------------------------------------------

  datatype Event = Event(id: ClaimId, occ: Occurrence, blank: Claim)

  function FacetOf(keys: Keys, kind: string, f: Fact): string {
    if f.need then "need" else keys.facetMap(kind, f.factClass)
  }

  function EventOf(keys: Keys, d: Document, i: nat): Event
    requires i < |d.facts|
  {
    var f := d.facts[i];
    var facet := FacetOf(keys, d.kind, f);
    var version := if f.version != "" then f.version else d.version;
    Event(Folded(keys.hash(f.text, facet, f.subject)),
          Occurrence(d.id, i, d.key, f.chunk, f.text, d.dated),
          Claim(f.text, facet, f.subject, d.kind, version, f.entities, [], {}, {}, {}, [], [], None))
  }

  /** A fact makes or joins the claim of its text, facet and subject, a need being its own facet; it says it where the
      document does, at the document's date; a new claim takes its wording, entities and kind from it, and its version
      from the fact if it names one, else from the document. */
  lemma EventDescribes(keys: Keys, d: Document, i: nat)
    requires i < |d.facts|
    ensures var e, f := EventOf(keys, d, i), d.facts[i];
            var facet := if f.need then "need" else keys.facetMap(d.kind, f.factClass);
            && e.id == Folded(keys.hash(f.text, facet, f.subject))
            && (e.occ.doc, e.occ.key, e.occ.index) == (d.id, d.key, i)
            && (e.occ.chunk, e.occ.text, e.occ.asserted) == (f.chunk, f.text, d.dated)
            && (e.blank.text, e.blank.facet, e.blank.subject) == (f.text, facet, f.subject)
            && (e.blank.kind, e.blank.entities) == (d.kind, f.entities)
            && (f.version != "" ==> e.blank.version == f.version) && (f.version == "" ==> e.blank.version == d.version)
            && e.blank.occurrences == [] && e.blank.sources == {}
  {
  }

  function EventsOf(keys: Keys, d: Document, n: nat): seq<Event>
    requires n <= |d.facts|
  {
    if n == 0 then []
    else if d.facts[n - 1].grounded then EventsOf(keys, d, n - 1) + [EventOf(keys, d, n - 1)]
    else EventsOf(keys, d, n - 1)
  }

  /** The grounded facts of the current documents, in reading order. */
  function Events(keys: Keys, docs: seq<Document>, current: set<DocId>): seq<Event> {
    if docs == [] then []
    else
      var d := docs[|docs| - 1];
      var front := Events(keys, docs[..|docs| - 1], current);
      if d.id in current && d.extracted then front + EventsOf(keys, d, |d.facts|) else front
  }

  function IdsOf(events: seq<Event>): seq<ClaimId> {
    seq(|events|, i requires 0 <= i < |events| => events[i].id)
  }

  function OccsOf(events: seq<Event>): seq<Occurrence> {
    seq(|events|, i requires 0 <= i < |events| => events[i].occ)
  }

  function About(events: seq<Event>, id: ClaimId): seq<Event> {
    Filter(events, (e: Event) => e.id == id)
  }

  function InChunk(events: seq<Event>, c: ChunkId): seq<Event> {
    Filter(events, (e: Event) => e.occ.chunk == Some(c))
  }

  function InSubject(events: seq<Event>, s: string): seq<Event> {
    Filter(events, (e: Event) => e.blank.subject == s && s != "")
  }

  lemma AppendEvent(events: seq<Event>, e: Event)
    ensures IdsOf(events + [e]) == IdsOf(events) + [e.id]
    ensures OccsOf(events + [e]) == OccsOf(events) + [e.occ]
    ensures Dedup(IdsOf(events + [e])) ==
            if e.id in IdsOf(events) then Dedup(IdsOf(events)) else Dedup(IdsOf(events)) + [e.id]
  {
    assert IdsOf(events + [e]) == IdsOf(events) + [e.id];
    assert (IdsOf(events) + [e.id])[..|events|] == IdsOf(events);
  }

  // ----- a claim is the fold of the events about it ------------------------------------------

  /** The list, then what it does not hold yet. */
  function Extended(have: seq<string>, more: seq<string>): seq<string> {
    if more == [] then have
    else
      var front, last := Extended(have, more[..|more| - 1]), more[|more| - 1];
      if last in front then front else front + [last]
  }

  function NotIn(have: seq<string>): string -> bool {
    (x: string) => x !in have
  }

  /** What is added is the new ones among them, each once, in the order they first come. */
  lemma {:induction false} ExtendedExactly(have: seq<string>, more: seq<string>)
    ensures Extended(have, more) == have + Filter(Dedup(more), NotIn(have))
  {
    if more == [] {
      FilterEmpty(NotIn(have));
    } else {
      var front, last := more[..|more| - 1], more[|more| - 1];
      ExtendedExactly(have, front);
      FilterSnoc(Dedup(front), last, NotIn(have));
      var added := Filter(Dedup(front), NotIn(have));
      assert last in Extended(have, front) <==> last in have || last in added;
      assert (have + added) + [last] == have + (added + [last]);
    }
  }

  function Widen(c: Claim, e: Event): Claim {
    c.(occurrences := c.occurrences + [e.occ],
       sources := c.sources + {e.occ.key},
       entities := Extended(c.entities, e.blank.entities))
  }

  /** The claim gains the occurrence, its document's key and its new entities behind its own, and keeps all else. */
  lemma WidenExactly(c: Claim, e: Event)
    ensures var w := Widen(c, e);
            && w.occurrences == c.occurrences + [e.occ] && c.entities <= w.entities
            && (forall k :: k in w.sources <==> k in c.sources || k == e.occ.key)
            && (forall x :: x in w.entities <==> x in c.entities || x in e.blank.entities)
            && w.(occurrences := c.occurrences, sources := c.sources, entities := c.entities) == c
  {
    ExtendedExactly(c.entities, e.blank.entities);
  }

  /** The first event makes the claim, and every event widens it. */
  function Built(events: seq<Event>): Claim
    requires events != []
  {
    var front, last := events[..|events| - 1], events[|events| - 1];
    Widen(if front == [] then last.blank else Built(front), last)
  }

  lemma BuiltNext(events: seq<Event>, e: Event)
    ensures Built(events + [e]) == Widen(if events == [] then e.blank else Built(events), e)
  {
    assert (events + [e])[..|events|] == events;
  }

  ghost predicate Unlinked(c: Claim) {
    c.contests == [] && c.supersededBy == None && c.mergedFrom == []
  }

  ghost predicate Blank(c: Claim) {
    c.occurrences == [] && c.sources == {} && c.visible == {} && Unlinked(c)
  }

  function KeysOf(occs: seq<Occurrence>): set<string> {
    if occs == [] then {} else KeysOf(occs[..|occs| - 1]) + {occs[|occs| - 1].key}
  }

  lemma KeysAppend(occs: seq<Occurrence>, o: Occurrence)
    ensures KeysOf(occs + [o]) == KeysOf(occs) + {o.key}
  {
    assert (occs + [o])[..|occs|] == occs;
  }

  /** What a claim says is what its first event says; what stands behind it is all its events. */
  lemma {:induction false} BuiltFacts(events: seq<Event>)
    requires events != [] && forall e :: e in events ==> Blank(e.blank)
    ensures var c, first := Built(events), events[0].blank;
            && c.occurrences == OccsOf(events) && c.sources == KeysOf(OccsOf(events)) && Unlinked(c)
            && c.facet == first.facet && c.subject == first.subject && c.kind == first.kind
            && c.version == first.version && c.visible == {}
  {
    var front, last := events[..|events| - 1], events[|events| - 1];
    assert events == front + [last];
    AppendEvent(front, last);
    KeysAppend(OccsOf(front), last.occ);
    if front != [] {
      BuiltFacts(front);
      WidenExactly(Built(front), last);
      assert front[0] == events[0];
    } else {
      WidenExactly(last.blank, last);
    }
  }

  // ----- the representative wording ----------------------------------------------------------

  function TextAt(occs: seq<Occurrence>): seq<string> {
    seq(|occs|, i requires 0 <= i < |occs| => occs[i].text)
  }

  /** The wordings, in order of first appearance. */
  function Wordings(occs: seq<Occurrence>): seq<string> {
    Dedup(TextAt(occs))
  }

  /** The keys of the documents that use the wording. */
  function Stating(occs: seq<Occurrence>, text: string): set<string> {
    if occs == [] then {}
    else Stating(occs[..|occs| - 1], text) + if occs[|occs| - 1].text == text then {occs[|occs| - 1].key} else {}
  }

  /** When the wording was first asserted: the stamp of its first occurrence. */
  function FirstStamp(occs: seq<Occurrence>, text: string): string {
    if occs == [] then ""
    else if occs[0].text == text then occs[0].asserted
    else FirstStamp(occs[1..], text)
  }

  /** Used by more documents, or by as many and asserted earlier. */
  predicate Preferred(occs: seq<Occurrence>, t: string, u: string) {
    var nt, nu := |Stating(occs, t)|, |Stating(occs, u)|;
    nt > nu || (nt == nu && !StringLeq(FirstStamp(occs, u), FirstStamp(occs, t)))
  }

  /** The first of the wordings no other is preferred to. */
  function Choice(occs: seq<Occurrence>, texts: seq<string>): string
    requires texts != []
  {
    var front, last := texts[..|texts| - 1], texts[|texts| - 1];
    if front == [] || Preferred(occs, last, Choice(occs, front)) then last else Choice(occs, front)
  }

  lemma PreferredOrder(occs: seq<Occurrence>, t: string, u: string, v: string)
    requires !Preferred(occs, t, u) && !Preferred(occs, u, v)
    ensures !Preferred(occs, t, v)
  {
    var a, b, c := FirstStamp(occs, t), FirstStamp(occs, u), FirstStamp(occs, v);
    if StringLeq(c, b) && StringLeq(b, a) {
      StringLeqTransitive(c, b, a);
    }
  }

  /** The chosen wording is one of those used, and none is preferred to it. */
  lemma {:induction false} ChoiceIsBest(occs: seq<Occurrence>, texts: seq<string>)
    requires texts != []
    ensures Choice(occs, texts) in texts
    ensures forall t :: t in texts ==> !Preferred(occs, t, Choice(occs, texts))
  {
    var front, last := texts[..|texts| - 1], texts[|texts| - 1];
    assert texts == front + [last];
    var best := Choice(occs, texts);
    StringLeqTotal(FirstStamp(occs, last), FirstStamp(occs, last));
    if front != [] {
      ChoiceIsBest(occs, front);
      var before := Choice(occs, front);
      StringLeqTotal(FirstStamp(occs, last), FirstStamp(occs, before));
      forall t | t in front ensures !Preferred(occs, t, best) {
        if best == last {
          PreferredOrder(occs, t, before, last);
        }
      }
    }
  }

  /** The claim under the wording its occurrences prefer. */
  function Worded(c: Claim): Claim {
    if c.occurrences == [] then c
    else
      assert TextAt(c.occurrences)[0] in Wordings(c.occurrences);
      c.(text := Choice(c.occurrences, Wordings(c.occurrences)), variants := Elems(Wordings(c.occurrences)))
  }

  // ----- the tables ---------------------------------------------------------------------------

  type Claims = map<ClaimId, Claim>
  type Index<K> = map<K, seq<ClaimId>>

  /** The claims in the order they came, and the two indexes. */
  datatype Tables = Tables(
    ids: seq<ClaimId>, claims: Claims, byChunk: Index<ChunkId>, bySubject: Index<string>)

  function Listed<K>(index: Index<K>, k: K): seq<ClaimId> {
    if k in index then index[k] else []
  }

  /** The claim's occurrences are those of the events about it, in order, and its sources their keys. */
  ghost predicate ClaimEvents(events: seq<Event>, claims: Claims, id: ClaimId) {
    if id in IdsOf(events) then
      && id in claims && About(events, id) != []
      && claims[id].occurrences == OccsOf(About(events, id))
      && claims[id].sources == KeysOf(claims[id].occurrences)
      && Unlinked(claims[id])
    else
      id !in claims
  }

  /** The claim is the fold of the events about it. */
  ghost predicate ClaimBuilt(events: seq<Event>, claims: Claims, id: ClaimId) {
    && ClaimEvents(events, claims, id)
    && (id in IdsOf(events) ==> claims[id] == Built(About(events, id)))
  }

  /** The same, under its representative wording. */
  ghost predicate ClaimOk(events: seq<Event>, claims: Claims, id: ClaimId) {
    && ClaimEvents(events, claims, id)
    && (id in IdsOf(events) ==> claims[id] == Worded(Built(About(events, id))))
  }

  ghost predicate ChunkOk(events: seq<Event>, byChunk: Index<ChunkId>, c: ChunkId) {
    Listed(byChunk, c) == Dedup(IdsOf(InChunk(events, c)))
  }

  ghost predicate SubjectOk(events: seq<Event>, bySubject: Index<string>, s: string) {
    Listed(bySubject, s) == Dedup(IdsOf(InSubject(events, s)))
  }

  ghost predicate IndexesOk(events: seq<Event>, t: Tables) {
    && t.ids == Dedup(IdsOf(events))
    && (forall c {:trigger ChunkOk(events, t.byChunk, c)} :: ChunkOk(events, t.byChunk, c))
    && (forall s {:trigger SubjectOk(events, t.bySubject, s)} :: SubjectOk(events, t.bySubject, s))
  }

  ghost predicate InFold(events: seq<Event>, t: Tables) {
    && IndexesOk(events, t)
    && forall id {:trigger ClaimBuilt(events, t.claims, id)} :: ClaimBuilt(events, t.claims, id)
  }

  /** The tables are exactly what the events make. */
  ghost predicate FoldOf(events: seq<Event>, t: Tables) {
    && IndexesOk(events, t)
    && forall id {:trigger ClaimOk(events, t.claims, id)} :: ClaimOk(events, t.claims, id)
  }

  function Enter<K>(index: Index<K>, k: K, id: ClaimId): Index<K> {
    if id in Listed(index, k) then index else index[k := Listed(index, k) + [id]]
  }

  lemma AboutAppend(events: seq<Event>, e: Event, id: ClaimId)
    ensures About(events + [e], id) == if e.id == id then About(events, id) + [e] else About(events, id)
    ensures OccsOf(About(events + [e], id))
         == if e.id == id then OccsOf(About(events, id)) + [e.occ] else OccsOf(About(events, id))
    ensures id in IdsOf(events + [e]) <==> id in IdsOf(events) || id == e.id
  {
    FilterSnoc(events, e, (x: Event) => x.id == id);
    AppendEvent(events, e);
    AppendEvent(About(events, id), e);
  }

  lemma ClaimStep(events: seq<Event>, claims: Claims, e: Event, id: ClaimId)
    requires ClaimBuilt(events, claims, id) && Blank(e.blank)
    requires e.id == id
    ensures ClaimBuilt(events + [e], claims[id := Widen(if id in claims then claims[id] else e.blank, e)], id)
  {
    AboutAppend(events, e, id);
    if id !in IdsOf(events) {
      NoEvents(events, id);
    }
    BuiltNext(About(events, id), e);
    KeysAppend(OccsOf(About(events, id)), e.occ);
  }

  lemma OtherClaimStep(events: seq<Event>, claims: Claims, e: Event, c: Claim, id: ClaimId)
    requires ClaimBuilt(events, claims, id) && e.id != id
    ensures ClaimBuilt(events + [e], claims[e.id := c], id)
  {
    AboutAppend(events, e, id);
  }

  lemma {:induction false} NoEvents(events: seq<Event>, id: ClaimId)
    requires id !in IdsOf(events)
    ensures About(events, id) == []
  {
    if events != [] {
      var front, last := events[..|events| - 1], events[|events| - 1];
      assert events == front + [last];
      AppendEvent(front, last);
      NoEvents(front, id);
      AboutAppend(front, last, id);
    }
  }

  lemma ChunkStep(events: seq<Event>, byChunk: Index<ChunkId>, e: Event, c: ChunkId)
    requires ChunkOk(events, byChunk, c)
    requires e.occ.chunk.Some? ==> ChunkOk(events, byChunk, e.occ.chunk.value)
    ensures ChunkOk(events + [e], if e.occ.chunk.Some? then Enter(byChunk, e.occ.chunk.value, e.id) else byChunk, c)
  {
    FilterSnoc(events, e, (x: Event) => x.occ.chunk == Some(c));
    AppendEvent(InChunk(events, c), e);
  }

  lemma SubjectStep(events: seq<Event>, bySubject: Index<string>, e: Event, s: string)
    requires SubjectOk(events, bySubject, s) && SubjectOk(events, bySubject, e.blank.subject)
    ensures SubjectOk(events + [e], if e.blank.subject != "" then Enter(bySubject, e.blank.subject, e.id)
                      else bySubject, s)
  {
    FilterSnoc(events, e, (x: Event) => x.blank.subject == s && s != "");
    AppendEvent(InSubject(events, s), e);
  }

  /** One grounded fact enters the claim table and the two indexes. */
  method AddEvent(ghost events: seq<Event>, e: Event, t0: Tables) returns (t: Tables)
    requires InFold(events, t0) && Blank(e.blank)
    ensures InFold(events + [e], t)
  {
    t := t0;
    assert ClaimBuilt(events, t0.claims, e.id);
    var c := e.blank;
    if e.id in t.claims {
      c := t.claims[e.id];
    } else {
      t := t.(ids := t.ids + [e.id]);
    }
    t := t.(claims := t.claims[e.id := Widen(c, e)]);
    if e.occ.chunk.Some? {
      t := t.(byChunk := Enter(t.byChunk, e.occ.chunk.value, e.id));
    }
    if e.blank.subject != "" {
      t := t.(bySubject := Enter(t.bySubject, e.blank.subject, e.id));
    }
    AppendEvent(events, e);
    forall id ensures ClaimBuilt(events + [e], t.claims, id) {
      assert ClaimBuilt(events, t0.claims, id);
      if id == e.id {
        ClaimStep(events, t0.claims, e, id);
      } else {
        OtherClaimStep(events, t0.claims, e, Widen(c, e), id);
      }
    }
    forall x ensures ChunkOk(events + [e], t.byChunk, x) {
      assert ChunkOk(events, t0.byChunk, x);
      assert e.occ.chunk.Some? ==> ChunkOk(events, t0.byChunk, e.occ.chunk.value);
      ChunkStep(events, t0.byChunk, e, x);
    }
    forall s ensures SubjectOk(events + [e], t.bySubject, s) {
      assert SubjectOk(events, t0.bySubject, s) && SubjectOk(events, t0.bySubject, e.blank.subject);
      SubjectStep(events, t0.bySubject, e, s);
    }
  }

  ghost predicate CountedAt(occs: seq<Occurrence>, texts: seq<string>, variants: map<string, set<string>>,
                            first: map<string, string>, t: string)
  {
    && (t in variants <==> t in texts) && (t in first <==> t in texts)
    && (t in texts ==> variants[t] == Stating(occs, t) && first[t] == FirstStamp(occs, t))
  }

  /** Who uses which wording, and when each was first asserted, over the first occurrences. */
  ghost predicate Counted(occs: seq<Occurrence>, texts: seq<string>, variants: map<string, set<string>>,
                          first: map<string, string>)
  {
    && texts == Wordings(occs)
    && forall t {:trigger CountedAt(occs, texts, variants, first, t)} :: CountedAt(occs, texts, variants, first, t)
  }

  lemma OldWording(occs: seq<Occurrence>, texts: seq<string>, variants: map<string, set<string>>,
                   first: map<string, string>, o: Occurrence)
    requires Counted(occs, texts, variants, first) && o.text in texts
    ensures o.text in variants
    ensures Counted(occs + [o], texts, variants[o.text := variants[o.text] + {o.key}], first)
  {
    WordingsNext(occs, o);
    assert CountedAt(occs, texts, variants, first, o.text);
    var more := variants[o.text := variants[o.text] + {o.key}];
    forall t ensures CountedAt(occs + [o], texts, more, first, t) {
      assert CountedAt(occs, texts, variants, first, t);
      FirstStampNext(occs, o, t);
    }
  }

  lemma NewWording(occs: seq<Occurrence>, texts: seq<string>, variants: map<string, set<string>>,
                   first: map<string, string>, o: Occurrence)
    requires Counted(occs, texts, variants, first) && o.text !in texts
    ensures Counted(occs + [o], texts + [o.text], variants[o.text := {o.key}], first[o.text := o.asserted])
  {
    WordingsNext(occs, o);
    NoneStating(occs, o.text);
    var texts', variants', first' := texts + [o.text], variants[o.text := {o.key}], first[o.text := o.asserted];
    forall t ensures CountedAt(occs + [o], texts', variants', first', t) {
      assert CountedAt(occs, texts, variants, first, t);
      FirstStampNext(occs, o, t);
    }
  }

  method CountWordings(occs: seq<Occurrence>)
    returns (texts: seq<string>, variants: map<string, set<string>>, first: map<string, string>)
    ensures Counted(occs, texts, variants, first)
  {
    texts, variants, first := [], map[], map[];
    assert forall t {:trigger CountedAt([], texts, variants, first, t)} :: CountedAt([], texts, variants, first, t);
    for n := 0 to |occs|
      invariant Counted(occs[..n], texts, variants, first)
    {
      var o := occs[n];
      assert occs[..n + 1] == occs[..n] + [o];
      if o.text !in texts {
        NewWording(occs[..n], texts, variants, first, o);
        texts, first := texts + [o.text], first[o.text := o.asserted];
        variants := variants[o.text := {o.key}];
      } else {
        OldWording(occs[..n], texts, variants, first, o);
        variants := variants[o.text := variants[o.text] + {o.key}];
      }
    }
    assert occs[..|occs|] == occs;
  }

  lemma ChoiceNext(occs: seq<Occurrence>, texts: seq<string>, t: string)
    requires texts != []
    ensures Choice(occs, texts + [t]) == if Preferred(occs, t, Choice(occs, texts)) then t else Choice(occs, texts)
  {
    assert (texts + [t])[..|texts|] == texts;
  }

  method PickWording(occs: seq<Occurrence>, texts: seq<string>, variants: map<string, set<string>>,
                     first: map<string, string>) returns (best: string)
    requires texts != [] && Counted(occs, texts, variants, first)
    ensures best == Choice(occs, texts)
  {
    best := texts[0];
    for n := 1 to |texts|
      invariant best == Choice(occs, texts[..n]) && best in texts
    {
      var t := texts[n];
      assert texts[..n + 1] == texts[..n] + [t];
      ChoiceNext(occs, texts[..n], t);
      assert CountedAt(occs, texts, variants, first, t) && CountedAt(occs, texts, variants, first, best);
      var nt, nb := |variants[t]|, |variants[best]|;
      if nt > nb || (nt == nb && !StringLeq(first[best], first[t])) {
        best := t;
      }
    }
    assert texts[..|texts|] == texts;
  }

  /** The wording used by the most documents, ties to the oldest. */
  method ReWord(c: Claim) returns (r: Claim)
    ensures r == Worded(c)
  {
    var occs := c.occurrences;
    if occs == [] {
      return c;
    }
    var texts, variants, first := CountWordings(occs);
    assert TextAt(occs)[0] in texts;
    var best := PickWording(occs, texts, variants, first);
    r := c.(text := best, variants := Elems(texts));
  }

  lemma WordingsNext(occs: seq<Occurrence>, o: Occurrence)
    ensures Wordings(occs + [o]) == if o.text in Wordings(occs) then Wordings(occs) else Wordings(occs) + [o.text]
    ensures forall t :: Stating(occs + [o], t) == Stating(occs, t) + if o.text == t then {o.key} else {}
  {
    assert (occs + [o])[..|occs|] == occs;
    assert TextAt(occs + [o]) == TextAt(occs) + [o.text];
    assert TextAt(occs + [o])[..|occs|] == TextAt(occs);
  }

  lemma {:induction false} FirstStampNext(occs: seq<Occurrence>, o: Occurrence, t: string)
    ensures FirstStamp(occs + [o], t)
         == if t in TextAt(occs) then FirstStamp(occs, t) else if t == o.text then o.asserted else ""
  {
    if occs != [] {
      assert (occs + [o])[1..] == occs[1..] + [o];
      FirstStampNext(occs[1..], o, t);
      assert TextAt(occs) == [occs[0].text] + TextAt(occs[1..]);
    }
  }

  lemma {:induction false} NoneStating(occs: seq<Occurrence>, t: string)
    requires t !in TextAt(occs)
    ensures Stating(occs, t) == {}
  {
    if occs != [] {
      var front, last := occs[..|occs| - 1], occs[|occs| - 1];
      assert TextAt(occs) == TextAt(front) + [last.text];
      NoneStating(front, t);
    }
  }

  /** The first n claims are under their representative wording, the others as they were. */
  ghost predicate WordedTo(ids: seq<ClaimId>, n: nat, claims0: Claims, claims: Claims, id: ClaimId)
    requires n <= |ids|
  {
    && (id in claims <==> id in claims0)
    && (id in claims ==> claims[id] == if id in ids[..n] then Worded(claims0[id]) else claims0[id])
  }

  lemma WordedNext(ids: seq<ClaimId>, n: nat, claims0: Claims, claims: Claims, id: ClaimId)
    requires n < |ids| && ids[n] in claims && Distinct(ids)
    requires WordedTo(ids, n, claims0, claims, id) && WordedTo(ids, n, claims0, claims, ids[n])
    ensures WordedTo(ids, n + 1, claims0, claims[ids[n] := Worded(claims[ids[n]])], id)
  {
    assert ids[..n + 1] == ids[..n] + [ids[n]];
    assert ids[n] !in ids[..n];
  }

  /** Every claim is put under its representative wording. */
  method WordClaims(ids: seq<ClaimId>, claims0: Claims) returns (claims: Claims)
    requires Distinct(ids) && forall id :: id in ids <==> id in claims0
    ensures claims == map id | id in claims0 :: Worded(claims0[id])
  {
    claims := claims0;
    for n := 0 to |ids|
      invariant forall id {:trigger WordedTo(ids, n, claims0, claims, id)} :: WordedTo(ids, n, claims0, claims, id)
    {
      var id := ids[n];
      assert WordedTo(ids, n, claims0, claims, id);
      var c := ReWord(claims[id]);
      ghost var m, next := n + 1, claims[id := c];
      forall x ensures WordedTo(ids, m, claims0, next, x) {
        assert WordedTo(ids, n, claims0, claims, x);
        WordedNext(ids, n, claims0, claims, x);
      }
      claims := claims[id := c];
    }
    assert ids[..|ids|] == ids;
    forall id ensures (id in claims <==> id in claims0) && (id in claims ==> claims[id] == Worded(claims0[id])) {
      assert WordedTo(ids, |ids|, claims0, claims, id);
    }
  }

  lemma WordedFold(events: seq<Event>, t: Tables)
    requires InFold(events, t)
    ensures Distinct(t.ids) && forall id :: id in t.ids <==> id in t.claims
    ensures FoldOf(events, t.(claims := map id | id in t.claims :: Worded(t.claims[id])))
  {
    forall id ensures id in t.ids <==> id in t.claims {
      assert ClaimBuilt(events, t.claims, id);
    }
    var worded := map id | id in t.claims :: Worded(t.claims[id]);
    forall id ensures ClaimOk(events, worded, id) {
      assert ClaimBuilt(events, t.claims, id);
    }
  }

  /** The fold: documents outside the current set and ungrounded facts contribute nothing. */
  method FoldClaims(keys: Keys, docs: seq<Document>, current: set<DocId>)
    returns (t: Tables, nOccurrences: nat, nUngrounded: nat)
    ensures FoldOf(Events(keys, docs, current), t)
    ensures nOccurrences == |Events(keys, docs, current)| + nUngrounded
  {
    t, nOccurrences, nUngrounded := Tables([], map[], map[], map[]), 0, 0;
    ghost var events := [];
    for n := 0 to |docs|
      invariant events == Events(keys, docs[..n], current)
      invariant InFold(events, t)
      invariant nOccurrences == |events| + nUngrounded
    {
      var doc := docs[n];
      assert docs[..n + 1][..n] == docs[..n];
      if doc.id !in current || !doc.extracted {
        continue;
      }
      ghost var before := events;
      for i := 0 to |doc.facts|
        invariant events == before + EventsOf(keys, doc, i)
        invariant InFold(events, t)
        invariant nOccurrences == |events| + nUngrounded
      {
        nOccurrences := nOccurrences + 1;
        if !doc.facts[i].grounded {
          nUngrounded := nUngrounded + 1;
          continue;
        }
        var e := EventOf(keys, doc, i);
        t := AddEvent(events, e, t);
        events := events + [e];
      }
    }
    assert docs[..|docs|] == docs;
    WordedFold(events, t);
    var claims := WordClaims(t.ids, t.claims);
    t := t.(claims := claims);
  }

  // ----- conservation -----------------------------------------------------------------------

  /** Every occurrence of every listed claim, with multiplicity. */
  function AllOccurrences(ids: seq<ClaimId>, claims: Claims): multiset<Occurrence> {
    if ids == [] then multiset{}
    else
      var last := ids[|ids| - 1];
      AllOccurrences(ids[..|ids| - 1], claims) + multiset(if last in claims then claims[last].occurrences else [])
  }

  lemma {:induction false} AllOccurrencesSame(ids: seq<ClaimId>, a: Claims, b: Claims)
    requires forall id :: id in ids ==> id in a && id in b && a[id].occurrences == b[id].occurrences
    ensures AllOccurrences(ids, a) == AllOccurrences(ids, b)
  {
    if ids != [] {
      assert forall id :: id in ids[..|ids| - 1] ==> id in ids;
      AllOccurrencesSame(ids[..|ids| - 1], a, b);
      assert ids[|ids| - 1] in ids;
    }
  }

  lemma {:induction false} AllOccurrencesGrow(ids: seq<ClaimId>, claims: Claims, id: ClaimId, c: Claim,
                                              more: seq<Occurrence>)
    requires Distinct(ids) && id in ids
    requires forall x :: x in ids ==> x in claims
    requires c.occurrences == claims[id].occurrences + more
    ensures AllOccurrences(ids, claims[id := c]) == AllOccurrences(ids, claims) + multiset(more)
  {
    var front, last := ids[..|ids| - 1], ids[|ids| - 1];
    assert forall x :: x in front ==> x in ids;
    if last == id {
      assert id !in front;
      AllOccurrencesSame(front, claims, claims[id := c]);
    } else {
      AllOccurrencesGrow(front, claims, id, c, more);
    }
  }

  /** The fold keeps every grounded fact, once: the occurrences of the claims are exactly the
      occurrences of the events. */
  lemma {:induction false} FoldConserves(events: seq<Event>, ids: seq<ClaimId>, claims: Claims)
    requires ids == Dedup(IdsOf(events))
    requires forall id {:trigger ClaimOk(events, claims, id)} :: ClaimOk(events, claims, id)
    ensures forall id :: id in ids ==> id in claims
    ensures AllOccurrences(ids, claims) == multiset(OccsOf(events))
  {
    forall id | id in ids ensures id in claims && claims[id].occurrences == OccsOf(About(events, id)) {
      assert ClaimOk(events, claims, id);
    }
    var bare := map id | id in ids :: claims[id].(occurrences := OccsOf(About(events, id)));
    AllOccurrencesSame(ids, claims, bare);
    assert forall id :: id in IdsOf(events) ==> Holds(events, bare, id);
    EventsConserved(events, bare);
  }

  /** The claim's occurrences are those of the events about it. */
  ghost predicate Holds(events: seq<Event>, claims: Claims, id: ClaimId) {
    id in claims && claims[id].occurrences == OccsOf(About(events, id))
  }

  /** The table with each claim's last occurrence from this event taken back. */
  ghost function Shrunk(front: seq<Event>, claims: Claims): Claims {
    map id | id in claims :: claims[id].(occurrences := OccsOf(About(front, id)))
  }

  lemma ShrunkHolds(front: seq<Event>, e: Event, claims: Claims)
    requires forall id :: id in IdsOf(front + [e]) ==> Holds(front + [e], claims, id)
    ensures forall id :: id in IdsOf(front) ==> Holds(front, Shrunk(front, claims), id)
    ensures forall id :: id in IdsOf(front) && id != e.id ==>
            id in claims && claims[id].occurrences == Shrunk(front, claims)[id].occurrences
    ensures e.id in claims && claims[e.id].occurrences == OccsOf(About(front, e.id)) + [e.occ]
  {
    forall id | id in IdsOf(front) || id == e.id
      ensures Holds(front + [e], claims, id)
      ensures id != e.id ==> OccsOf(About(front + [e], id)) == OccsOf(About(front, id))
    {
      AboutAppend(front, e, id);
    }
    AboutAppend(front, e, e.id);
  }

  lemma {:induction false} EventsConserved(events: seq<Event>, claims: Claims)
    requires forall id :: id in IdsOf(events) ==> Holds(events, claims, id)
    ensures AllOccurrences(Dedup(IdsOf(events)), claims) == multiset(OccsOf(events))
  {
    if events != [] {
      var front, e := events[..|events| - 1], events[|events| - 1];
      assert events == front + [e];
      AppendEvent(front, e);
      var ids, shrunk := Dedup(IdsOf(front)), Shrunk(front, claims);
      ShrunkHolds(front, e, claims);
      EventsConserved(front, shrunk);
      assert multiset(OccsOf(events)) == multiset(OccsOf(front)) + multiset{e.occ};
      if e.id in IdsOf(front) {
        assert Holds(front, shrunk, e.id);
        OldIdConserved(ids, claims, shrunk, e);
      } else {
        NoEvents(front, e.id);
        NewIdConserved(ids, claims, shrunk, e);
      }
    }
  }

  lemma OldIdConserved(ids: seq<ClaimId>, claims: Claims, shrunk: Claims, e: Event)
    requires Distinct(ids) && e.id in ids
    requires forall id :: id in ids ==> id in claims && id in shrunk
    requires forall id :: id in ids && id != e.id ==> claims[id].occurrences == shrunk[id].occurrences
    requires claims[e.id].occurrences == shrunk[e.id].occurrences + [e.occ]
    ensures AllOccurrences(ids, claims) == AllOccurrences(ids, shrunk) + multiset{e.occ}
  {
    AllOccurrencesGrow(ids, shrunk, e.id, claims[e.id], [e.occ]);
    AllOccurrencesSame(ids, claims, shrunk[e.id := claims[e.id]]);
  }

  lemma NewIdConserved(ids: seq<ClaimId>, claims: Claims, shrunk: Claims, e: Event)
    requires forall id :: id in ids ==> id in claims && id in shrunk && claims[id].occurrences == shrunk[id].occurrences
    requires e.id in claims && claims[e.id].occurrences == [e.occ]
    ensures AllOccurrences(ids + [e.id], claims) == AllOccurrences(ids, shrunk) + multiset{e.occ}
  {
    AllOccurrencesSame(ids, claims, shrunk);
    assert (ids + [e.id])[..|ids|] == ids;
  }

  /** With distinct documents no two grounded facts share an occurrence. */
  lemma {:induction false} EventsDistinct(keys: Keys, docs: seq<Document>, current: set<DocId>)
    requires forall i, j :: 0 <= i < j < |docs| ==> docs[i].id != docs[j].id
    ensures Distinct(OccsOf(Events(keys, docs, current)))
    ensures forall o :: o in OccsOf(Events(keys, docs, current)) ==> Names(docs, o.doc)
  {
    if docs != [] {
      var front, d := docs[..|docs| - 1], docs[|docs| - 1];
      var a, b := Events(keys, front, current), EventsOf(keys, d, |d.facts|);
      EventsDistinct(keys, front, current);
      EventsOfDistinct(keys, d, |d.facts|);
      assert OccsOf(a + b) == OccsOf(a) + OccsOf(b);
      forall o | o in OccsOf(a) ensures o.doc != d.id && Names(docs, o.doc) {
        assert Names(front, o.doc);
        var i :| 0 <= i < |front| && front[i].id == o.doc;
        assert docs[i] == front[i];
      }
      assert Names(docs, d.id);
    }
  }

  ghost predicate Names(docs: seq<Document>, id: DocId) {
    exists i :: 0 <= i < |docs| && docs[i].id == id
  }

  lemma {:induction false} EventsOfDistinct(keys: Keys, d: Document, n: nat)
    requires n <= |d.facts|
    ensures Distinct(OccsOf(EventsOf(keys, d, n)))
    ensures forall o :: o in OccsOf(EventsOf(keys, d, n)) ==> o.doc == d.id && o.index < n
  {
    if n > 0 {
      EventsOfDistinct(keys, d, n - 1);
      if d.facts[n - 1].grounded {
        FreshEvent(keys, d, n - 1, EventsOf(keys, d, n - 1));
      }
    }
  }

  lemma FreshEvent(keys: Keys, d: Document, n: nat, front: seq<Event>)
    requires n < |d.facts| && Distinct(OccsOf(front))
    requires forall o :: o in OccsOf(front) ==> o.doc == d.id && o.index < n
    ensures var occs := OccsOf(front + [EventOf(keys, d, n)]);
            Distinct(occs) && forall o :: o in occs ==> o.doc == d.id && o.index <= n
  {
    var o := EventOf(keys, d, n).occ;
    assert OccsOf(front + [EventOf(keys, d, n)]) == OccsOf(front) + [o];
    assert o.index == n && o !in OccsOf(front);
    DistinctSnoc(OccsOf(front), o);
  }
}
