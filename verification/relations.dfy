/** The relation pass (assoc/relations.py): per document, the claims without a relation are looked up in
    the cache or sent to the model in batches; what the model did not answer stays uncached. */
module Relations {
  import opened Common

  datatype Id = Id(name: string)

  datatype Rel = Rel(pred: string, subject: string, obj: string)

  datatype Claim = Claim(id: Id, subject: string, subjectRaw: string, entities: seq<string>)

  datatype Document = Document(title: string, claims: seq<Claim>)

  // ----- reading an answer ------------------------------------------------------------------------

  /** One line of the answer that matches the line grammar: `number: pred(a, b)`. */
  datatype Line = Line(number: int, pred: string, a: string, b: string)

  /** Name normalization, the part of a node id after its colon, the cell of a name, and the predicate
      vocabulary: taken as given. */
  datatype Names = Names(norm: string -> string, tail: string -> string, cellOf: string -> Option<string>,
                         predicates: set<string>)

  function OwnNames(c: Claim, names: Names): set<string> {
    set x | x in [c.subjectRaw, c.subject] + c.entities && x != "" :: names.norm(x)
  }

  predicate SubjectOk(l: Line, c: Claim, names: Names) {
    names.norm(l.a) in OwnNames(c, names) || names.norm(l.a) == names.norm(names.tail(c.subject))
  }

  predicate ObjectOk(l: Line, c: Claim, names: Names) {
    names.norm(l.b) in OwnNames(c, names) || names.cellOf(names.norm(l.b)).Some?
  }

  predicate LineOk(l: Line, batch: seq<Claim>, names: Names) {
    && 1 <= l.number <= |batch| && l.pred in names.predicates
    && SubjectOk(l, batch[l.number - 1], names) && ObjectOk(l, batch[l.number - 1], names)
  }

  function RelOf(l: Line, batch: seq<Claim>, names: Names): Rel
    requires LineOk(l, batch, names)
  {
    var c := batch[l.number - 1];
    var isSubject := names.norm(l.a) == names.norm(c.subjectRaw)
      || names.norm(l.a) == names.norm(names.tail(c.subject));
    var obj := if names.norm(l.b) in OwnNames(c, names) then l.b else names.cellOf(names.norm(l.b)).value;
    Rel(l.pred, if isSubject then c.subject else l.a, obj)
  }

  /** The claim's bracket has the name: its subject as written or as a node, or one of its entities. */
  ghost predicate InBracket(c: Claim, names: Names, x: string) {
    exists y :: y != "" && (y == c.subjectRaw || y == c.subject || y in c.entities) && names.norm(y) == names.norm(x)
  }

  lemma OwnNamesExactly(c: Claim, names: Names, x: string)
    ensures names.norm(x) in OwnNames(c, names) <==> InBracket(c, names, x)
  {
    var own := [c.subjectRaw, c.subject] + c.entities;
    assert own[0] == c.subjectRaw && own[1] == c.subject && own[2..] == c.entities;
    forall y ensures y in own <==> y == c.subjectRaw || y == c.subject || y in c.entities {
      assert own == own[..2] + own[2..];
    }
  }

  /** A line is accepted exactly when it numbers a claim, its predicate is known, its subject is in that claim's
      bracket or is the subject's own name, and its object is in the bracket or has a cell. */
  lemma AcceptedExactly(l: Line, batch: seq<Claim>, names: Names)
    ensures LineOk(l, batch, names) <==>
            && 1 <= l.number <= |batch| && l.pred in names.predicates
            && var c := batch[l.number - 1];
               && (InBracket(c, names, l.a) || names.norm(l.a) == names.norm(names.tail(c.subject)))
               && (InBracket(c, names, l.b) || names.cellOf(names.norm(l.b)).Some?)
  {
    if 1 <= l.number <= |batch| {
      OwnNamesExactly(batch[l.number - 1], names, l.a);
      OwnNamesExactly(batch[l.number - 1], names, l.b);
    }
  }

  /** The relation read off it: the line's predicate; the claim's own node where the line names it, else the name
      as written; the object as written if the bracket has it, else its cell. */
  lemma RelationReads(l: Line, batch: seq<Claim>, names: Names)
    requires LineOk(l, batch, names)
    ensures var c, r := batch[l.number - 1], RelOf(l, batch, names);
            var itself := names.norm(l.a) in {names.norm(c.subjectRaw), names.norm(names.tail(c.subject))};
            && r.pred == l.pred
            && (itself ==> r.subject == c.subject)
            && (!itself ==> r.subject == l.a && InBracket(c, names, l.a))
            && (InBracket(c, names, l.b) ==> r.obj == l.b)
            && (!InBracket(c, names, l.b) ==> names.cellOf(names.norm(l.b)) == Some(r.obj))
  {
    OwnNamesExactly(batch[l.number - 1], names, l.a);
    OwnNamesExactly(batch[l.number - 1], names, l.b);
  }

  /** The line is acceptable and numbers this claim. */
  predicate Labels(l: Line, batch: seq<Claim>, names: Names, id: Id) {
    LineOk(l, batch, names) && batch[l.number - 1].id == id
  }

  ghost predicate LastFor(lines: seq<Line>, batch: seq<Claim>, names: Names, id: Id, n: nat) {
    && n < |lines| && Labels(lines[n], batch, names, id)
    && forall m :: n < m < |lines| ==> !Labels(lines[m], batch, names, id)
  }

  ghost predicate NoLineFor(lines: seq<Line>, batch: seq<Claim>, names: Names, id: Id) {
    forall m :: 0 <= m < |lines| ==> !Labels(lines[m], batch, names, id)
  }

  ghost predicate ReadsAs(lines: seq<Line>, batch: seq<Claim>, names: Names, n: nat, rel: Rel) {
    n < |lines| && LineOk(lines[n], batch, names) && rel == RelOf(lines[n], batch, names)
  }

  ghost predicate ReadFor(lines: seq<Line>, batch: seq<Claim>, names: Names, rels: map<Id, Rel>, id: Id) {
    if id in rels then exists n: nat :: LastFor(lines, batch, names, id, n) && ReadsAs(lines, batch, names, n, rels[id])
    else NoLineFor(lines, batch, names, id)
  }

  datatype LineCounts = LineCounts(lines: nat, unknownPredicate: nat, badArgs: nat, outOfRange: nat, accepted: nat)

  function RelsOf(lines: seq<Line>, batch: seq<Claim>, names: Names): map<Id, Rel> {
    if lines == [] then map[]
    else
      var front, l := RelsOf(lines[..|lines| - 1], batch, names), lines[|lines| - 1];
      if LineOk(l, batch, names) then front[batch[l.number - 1].id := RelOf(l, batch, names)] else front
  }

  lemma ReadNew(lines: seq<Line>, l: Line, batch: seq<Claim>, names: Names, rels: map<Id, Rel>, id: Id)
    requires Labels(l, batch, names, id) && id in rels && rels[id] == RelOf(l, batch, names)
    ensures ReadFor(lines + [l], batch, names, rels, id)
  {
    assert (lines + [l])[|lines|] == l;
    assert LastFor(lines + [l], batch, names, id, |lines|) && ReadsAs(lines + [l], batch, names, |lines|, rels[id]);
  }

  lemma ReadOld(lines: seq<Line>, l: Line, batch: seq<Claim>, names: Names, rels: map<Id, Rel>, id: Id)
    requires !Labels(l, batch, names, id) && ReadFor(lines, batch, names, rels, id)
    ensures ReadFor(lines + [l], batch, names, rels, id)
  {
    assert forall m :: 0 <= m < |lines| ==> (lines + [l])[m] == lines[m];
    if id in rels {
      var n: nat :| LastFor(lines, batch, names, id, n) && ReadsAs(lines, batch, names, n, rels[id]);
      assert LastFor(lines + [l], batch, names, id, n) && ReadsAs(lines + [l], batch, names, n, rels[id]);
    }
  }

  /** A claim gets the relation of its last acceptable line: at most one, with both arguments named in
      its own bracket (the object possibly by its cell); without such a line it gets none. */
  lemma {:induction false} RelsRead(lines: seq<Line>, batch: seq<Claim>, names: Names, id: Id)
    ensures ReadFor(lines, batch, names, RelsOf(lines, batch, names), id)
  {
    if lines != [] {
      var front, l := lines[..|lines| - 1], lines[|lines| - 1];
      assert lines == front + [l];
      var rels := RelsOf(lines, batch, names);
      RelsRead(front, batch, names, id);
      if Labels(l, batch, names, id) {
        ReadNew(front, l, batch, names, rels, id);
      } else {
        assert id in rels <==> id in RelsOf(front, batch, names);
        assert ReadFor(front, batch, names, rels, id);
        ReadOld(front, l, batch, names, rels, id);
      }
    }
  }

  lemma {:induction false} RelsWithinBatch(lines: seq<Line>, batch: seq<Claim>, names: Names)
    ensures forall id :: id in RelsOf(lines, batch, names) ==> exists i :: 0 <= i < |batch| && batch[i].id == id
  {
    if lines != [] {
      RelsWithinBatch(lines[..|lines| - 1], batch, names);
    }
  }

  method Parse(lines: seq<Line>, batch: seq<Claim>, names: Names) returns (rels: map<Id, Rel>, counts: LineCounts)
    ensures rels == RelsOf(lines, batch, names)
    ensures counts.lines == |lines| == counts.accepted + counts.badArgs + counts.unknownPredicate + counts.outOfRange
  {
    rels, counts := map[], LineCounts(0, 0, 0, 0, 0);
    for n := 0 to |lines|
      invariant rels == RelsOf(lines[..n], batch, names)
      invariant counts.lines == n == counts.accepted + counts.badArgs + counts.unknownPredicate + counts.outOfRange
    {
      var l := lines[n];
      assert lines[..n + 1][..n] == lines[..n];
      counts := counts.(lines := counts.lines + 1);
      if !(1 <= l.number <= |batch|) {
        counts := counts.(outOfRange := counts.outOfRange + 1);
        continue;
      }
      if l.pred !in names.predicates {
        counts := counts.(unknownPredicate := counts.unknownPredicate + 1);
        continue;
      }
      var c := batch[l.number - 1];
      if !(SubjectOk(l, c, names) && ObjectOk(l, c, names)) {
        counts := counts.(badArgs := counts.badArgs + 1);
        continue;
      }
      rels := rels[c.id := RelOf(l, batch, names)];
      counts := counts.(accepted := counts.accepted + 1);
    }
    assert lines[..|lines|] == lines;
  }

  // ----- asking about one batch -----------------------------------------------------------------------

  datatype Reply = Raised | Text(raw: string)

  /** The model, asked for the n-th time with the thought closed or open, and what its text amounts to. */
  datatype Model = Model(ask: (nat, bool) -> Reply, linesOf: string -> seq<Line>, refuses: string -> bool,
                         blank: string -> bool)

  datatype Answer = Failed | Refused | Answered(rels: map<Id, Rel>)

  function Second(model: Model, n: nat, batch: seq<Claim>, names: Names): Answer {
    var reply := model.ask(n, true);
    var raw := if reply.Raised? then "" else reply.raw;
    if model.linesOf(raw) == [] && (model.refuses(raw) || model.blank(raw)) then Refused
    else Answered(RelsOf(model.linesOf(raw), batch, names))
  }

  function AnswerTo(model: Model, n: nat, batch: seq<Claim>, names: Names): Answer {
    var reply := model.ask(n, false);
    if reply.Raised? then Failed
    else if model.linesOf(reply.raw) == [] && model.refuses(reply.raw) then Second(model, n, batch, names)
    else Answered(RelsOf(model.linesOf(reply.raw), batch, names))
  }

  method AskBatch(model: Model, n: nat, batch: seq<Claim>, names: Names) returns (answer: Answer, retried: bool)
    ensures answer == AnswerTo(model, n, batch, names)
    ensures answer.Refused? ==> retried
  {
    retried := false;
    var reply := model.ask(n, false);
    if reply.Raised? {
      return Failed, false;
    }
    var raw := reply.raw;
    var rels, counts := Parse(model.linesOf(raw), batch, names);
    if counts.lines == 0 && model.refuses(raw) {
      retried := true;
      var again := model.ask(n, true);
      raw := if again.Raised? then "" else again.raw;
      rels, counts := Parse(model.linesOf(raw), batch, names);
      if counts.lines == 0 && (model.refuses(raw) || model.blank(raw)) {
        return Refused, retried;
      }
    }
    answer := Answered(rels);
  }

  // ----- what becomes of each claim ---------------------------------------------------------------------

  /** Cache entries are kept per claim and prompt version; no relation is an entry too. */
  datatype Key = Key(id: Id, version: string)

  type Entries = map<Key, Option<Rel>>

  class RelationCache {
    var data: Entries

    constructor (data: Entries)
      ensures this.data == data
    {
      this.data := data;
    }

    method Put(k: Key, rel: Option<Rel>)
      modifies this
      ensures data == old(data)[k := rel]
    {
      data := data[k := rel];
    }
  }

  datatype Fate = Held | Hit | Told | Dropped | Declined | Deferred

  datatype Report = Report(documents: nat, claims: nat, cached: nat, failed: nat, deferred: nat, refused: nat,
                           refusedClaims: nat)

  /** The state a pass works on: cache entries, the relations claims carry, and each claim's fate. */
  datatype State = State(entries: Entries, rels: map<Id, Rel>, fate: map<Id, Fate>)

  ghost predicate Carries(entries: Entries, rels: map<Id, Rel>, k: Key) {
    k in entries && (if entries[k].Some? then k.id in rels && rels[k.id] == entries[k].value else k.id !in rels)
  }

  /** What its fate says of a claim: a held relation and a cache entry stay; an answer is in the cache
      and on the claim; a claim that was dropped, declined or deferred is neither cached nor labelled. */
  ghost predicate FateOk(s0: State, s: State, version: string, id: Id) {
    var k := Key(id, version);
    id in s.fate ==>
      match s.fate[id]
      case Held => id in s0.rels && id in s.rels && s.rels[id] == s0.rels[id]
      case Hit => id !in s0.rels && k in s0.entries && Carries(s.entries, s.rels, k)
      case Told => id !in s0.rels && k !in s0.entries && Carries(s.entries, s.rels, k)
      case _ => id !in s0.rels && k !in s0.entries && k !in s.entries && id !in s.rels
  }

  /** A claim the pass has not come to is as it was. */
  ghost predicate Untouched(s0: State, s: State, version: string, id: Id) {
    var k := Key(id, version);
    id !in s.fate ==> (id in s.rels <==> id in s0.rels) && (k in s.entries <==> k in s0.entries)
                      && (id in s.rels ==> s.rels[id] == s0.rels[id])
  }

  ghost predicate Consistent(s0: State, s: State, version: string) {
    && (forall id {:trigger FateOk(s0, s, version, id)} :: FateOk(s0, s, version, id))
    && (forall id {:trigger Untouched(s0, s, version, id)} :: Untouched(s0, s, version, id))
    && (forall k :: k in s0.entries ==> k in s.entries && s.entries[k] == s0.entries[k])
    && (forall k :: k in s.entries && k !in s0.entries ==>
        k.version == version && k.id in s.fate && s.fate[k.id] == Told)
  }

  function Having(fate: map<Id, Fate>, f: Fate): set<Id> {
    set id | id in fate && fate[id] == f
  }

  function CountOf(fate: map<Id, Fate>, f: Fate): nat {
    |Having(fate, f)|
  }

  lemma CountStep(fate: map<Id, Fate>, id: Id, f: Fate, g: Fate)
    requires id !in fate
    ensures CountOf(fate[id := f], g) == CountOf(fate, g) + if f == g then 1 else 0
  {
    HavingStep(fate, id, f, g);
    if f == g {
      OneMore(Having(fate, g), id);
    }
  }

  lemma HavingStep(fate: map<Id, Fate>, id: Id, f: Fate, g: Fate)
    requires id !in fate
    ensures id !in Having(fate, g)
    ensures Having(fate[id := f], g) == if f == g then Having(fate, g) + {id} else Having(fate, g)
  {
    var before, after := Having(fate, g), Having(fate[id := f], g);
    forall x ensures x in after <==> x in before || (f == g && x == id) {
    }
  }

  lemma OneMore(s: set<Id>, id: Id)
    requires id !in s
    ensures |s + {id}| == |s| + 1
  {
  }

  /** The report counts the fates. */
  ghost predicate Counted(fate: map<Id, Fate>, r: Report) {
    && r.cached == CountOf(fate, Hit)
    && r.claims == CountOf(fate, Told) + CountOf(fate, Dropped) + CountOf(fate, Declined)
    && r.deferred == CountOf(fate, Deferred)
    && r.refusedClaims == CountOf(fate, Declined)
  }

  lemma FiveParts(a: set<Id>, b: set<Id>, c: set<Id>, d: set<Id>, e: set<Id>)
    requires a !! b !! c !! d !! e
    ensures |a + b + c + d + e| == |a| + |b| + |c| + |d| + |e|
  {
  }

  lemma BareParts(fate: map<Id, Fate>, rels: map<Id, Rel>)
    requires forall id :: id in fate ==> (id in rels <==> fate[id] == Held)
    ensures (set id | id in fate && id !in rels)
         == Having(fate, Hit) + Having(fate, Told) + Having(fate, Dropped) + Having(fate, Declined)
           + Having(fate, Deferred)
  {
    forall id | id in fate && id !in rels ensures fate[id] in {Hit, Told, Dropped, Declined, Deferred} {
    }
  }

  /** Every claim that had no relation is a cache hit, sent, or deferred. */
  lemma FatesAddUp(s0: State, s: State, version: string, r: Report)
    requires Consistent(s0, s, version) && Counted(s.fate, r)
    ensures r.cached + r.claims + r.deferred == |set id | id in s.fate && id !in s0.rels|
  {
    var bare := set id | id in s.fate && id !in s0.rels;
    var hit, told, dropped, declined, deferred :=
      Having(s.fate, Hit), Having(s.fate, Told), Having(s.fate, Dropped), Having(s.fate, Declined),
        Having(s.fate, Deferred);
    forall id | id in s.fate ensures id in s0.rels <==> s.fate[id] == Held {
      assert FateOk(s0, s, version, id);
    }
    BareParts(s.fate, s0.rels);
    FiveParts(hit, told, dropped, declined, deferred);
  }

  /** One claim's fate is settled; nothing is changed for any other. */
  ghost predicate SettledOne(s: State, t: State, version: string, id: Id, f: Fate) {
    var k := Key(id, version);
    && id !in s.fate && t.fate == s.fate[id := f]
    && (forall x :: x != id ==> (x in t.rels <==> x in s.rels) && (x in s.rels ==> t.rels[x] == s.rels[x]))
    && (forall x :: x != k ==>
        (x in t.entries <==> x in s.entries) && (x in s.entries ==> t.entries[x] == s.entries[x]))
    && (k in s.entries ==> k in t.entries && t.entries[k] == s.entries[k])
    && (k in t.entries && k !in s.entries ==> f == Told)
  }

  lemma Advance(s0: State, s: State, t: State, version: string, id: Id, f: Fate)
    requires Consistent(s0, s, version) && SettledOne(s, t, version, id, f) && FateOk(s0, t, version, id)
    ensures Consistent(s0, t, version)
  {
    forall x ensures FateOk(s0, t, version, x) {
      assert FateOk(s0, s, version, x);
    }
    forall x ensures Untouched(s0, t, version, x) {
      assert Untouched(s0, s, version, x);
    }
  }

  /** Not yet settled, no relation, not in the cache. */
  ghost predicate Open(s: State, version: string, id: Id) {
    id !in s.fate && id !in s.rels && Key(id, version) !in s.entries
  }

  function Mark(fate: map<Id, Fate>, batch: seq<Claim>, f: Fate): map<Id, Fate> {
    if batch == [] then fate else Mark(fate, batch[..|batch| - 1], f)[batch[|batch| - 1].id := f]
  }

  ghost predicate DistinctIds(claims: seq<Claim>) {
    forall i, j :: 0 <= i < j < |claims| ==> claims[i].id != claims[j].id
  }

  ghost predicate Has(claims: seq<Claim>, id: Id) {
    exists i :: 0 <= i < |claims| && claims[i].id == id
  }

  lemma HasAppend(claims: seq<Claim>, c: Claim, id: Id)
    ensures Has(claims + [c], id) <==> Has(claims, id) || id == c.id
  {
    assert (claims + [c])[|claims|] == c;
    if Has(claims, id) {
      var i :| 0 <= i < |claims| && claims[i].id == id;
      assert (claims + [c])[i] == claims[i];
    }
  }

  lemma {:induction false} MarkFates(fate: map<Id, Fate>, batch: seq<Claim>, f: Fate)
    requires DistinctIds(batch) && forall id :: Has(batch, id) ==> id !in fate
    ensures forall id :: id in Mark(fate, batch, f) <==> id in fate || Has(batch, id)
    ensures forall id :: id in fate ==> Mark(fate, batch, f)[id] == fate[id]
    ensures forall id :: Has(batch, id) ==> Mark(fate, batch, f)[id] == f
    ensures forall g :: CountOf(Mark(fate, batch, f), g) == CountOf(fate, g) + if f == g then |batch| else 0
  {
    if batch != [] {
      var front, c := batch[..|batch| - 1], batch[|batch| - 1];
      assert batch == front + [c];
      forall id ensures Has(batch, id) <==> Has(front, id) || id == c.id {
        HasAppend(front, c, id);
      }
      MarkFates(fate, front, f);
      assert !Has(front, c.id);
      forall g ensures CountOf(Mark(fate, batch, f), g) == CountOf(fate, g) + if f == g then |batch| else 0 {
        CountStep(Mark(fate, front, f), c.id, f, g);
      }
    }
  }

  /** A batch that was dropped, declined or deferred leaves no trace but its fate. */
  lemma {:induction false} MarkKeeps(s0: State, s: State, version: string, batch: seq<Claim>, f: Fate)
    requires Consistent(s0, s, version) && DistinctIds(batch) && f in {Dropped, Declined, Deferred}
    requires forall id :: Has(batch, id) ==> Open(s, version, id)
    ensures Consistent(s0, s.(fate := Mark(s.fate, batch, f)), version)
  {
    if batch != [] {
      var front, c := batch[..|batch| - 1], batch[|batch| - 1];
      assert batch == front + [c];
      forall id ensures Has(batch, id) <==> Has(front, id) || id == c.id {
        HasAppend(front, c, id);
      }
      MarkKeeps(s0, s, version, front, f);
      MarkFates(s.fate, front, f);
      assert Has(batch, c.id) && !Has(front, c.id);
      assert Untouched(s0, s, version, c.id);
      Advance(s0, s.(fate := Mark(s.fate, front, f)), s.(fate := Mark(s.fate, batch, f)), version, c.id, f);
    }
  }

  // ----- the cached part of a document ---------------------------------------------------------------

  /** What a scan leaves to be sent: claims of the document, in order, all still open. */
  ghost predicate ToSend(claims: seq<Claim>, todo: seq<Claim>, s: State, version: string) {
    && DistinctIds(todo)
    && (forall id :: Has(todo, id) ==> Has(claims, id) && Open(s, version, id))
  }

  /** How the scan settles one claim, or leaves it. */
  function Scanned(s: State, version: string, id: Id): State {
    var k := Key(id, version);
    if id in s.rels then s.(fate := s.fate[id := Held])
    else if k in s.entries then
      State(s.entries, if s.entries[k].Some? then s.rels[id := s.entries[k].value] else s.rels, s.fate[id := Hit])
    else s
  }

  lemma ScanStep(s0: State, s: State, version: string, id: Id)
    requires Consistent(s0, s, version) && id !in s.fate
    ensures Consistent(s0, Scanned(s, version, id), version)
    ensures Scanned(s, version, id) == s ==> Open(s, version, id)
  {
    var k := Key(id, version);
    var t := Scanned(s, version, id);
    assert Untouched(s0, s, version, id);
    if id in s.rels {
      assert id in t.fate;
      Advance(s0, s, t, version, id, Held);
    } else if k in s.entries {
      assert id in t.fate;
      assert k in s0.entries;
      Advance(s0, s, t, version, id, Hit);
    }
  }

  lemma ScanOthers(s: State, version: string, id: Id, x: Id)
    requires x != id && Open(s, version, x)
    ensures Open(Scanned(s, version, id), version, x)
  {
  }

  ghost predicate SameButCached(r: Report, t: Report) {
    t.(cached := r.cached) == r
  }

  /** What scanning these claims has made of the start. */
  ghost predicate ScanState(s0: State, start: State, version: string, claims: seq<Claim>, r0: Report, todo: seq<Claim>,
                            s: State, r: Report)
  {
    && Consistent(s0, s, version) && Counted(s.fate, r) && ToSend(claims, todo, s, version)
    && s.entries == start.entries && SameButCached(r0, r)
    && (forall id :: id in s.fate <==> id in start.fate || (Has(claims, id) && !Has(todo, id)))
    && (forall id :: id in start.fate ==> s.fate[id] == start.fate[id])
    && (forall id :: id in s.fate && id !in start.fate ==> s.fate[id] in {Held, Hit})
  }

  lemma ScanNext(s0: State, start: State, version: string, claims: seq<Claim>, r0: Report, todo: seq<Claim>, s: State,
                 r: Report, c: Claim)
    requires ScanState(s0, start, version, claims, r0, todo, s, r)
    requires c.id !in start.fate && !Has(claims, c.id)
    ensures c.id in s.rels ==> ScanState(s0, start, version, claims + [c], r0, todo, Scanned(s, version, c.id), r)
    ensures c.id !in s.rels && Key(c.id, version) in s.entries ==>
              ScanState(s0, start, version, claims + [c], r0, todo, Scanned(s, version, c.id),
                        r.(cached := r.cached + 1))
    ensures c.id !in s.rels && Key(c.id, version) !in s.entries ==>
            ScanState(s0, start, version, claims + [c], r0, todo + [c], s, r)
  {
    forall id
      ensures Has(claims + [c], id) <==> Has(claims, id) || id == c.id
      ensures Has(todo + [c], id) <==> Has(todo, id) || id == c.id
    {
      HasAppend(claims, c, id);
      HasAppend(todo, c, id);
    }
    ScanStep(s0, s, version, c.id);
    forall id | Has(todo, id) ensures Open(Scanned(s, version, c.id), version, id) {
      ScanOthers(s, version, c.id, id);
    }
    CountsStep(s.fate, c.id, Hit);
    CountsStep(s.fate, c.id, Held);
  }

  lemma CountsStep(fate: map<Id, Fate>, id: Id, f: Fate)
    requires id !in fate
    ensures forall g :: CountOf(fate[id := f], g) == CountOf(fate, g) + if f == g then 1 else 0
  {
    forall g ensures CountOf(fate[id := f], g) == CountOf(fate, g) + if f == g then 1 else 0 {
      CountStep(fate, id, f, g);
    }
  }

  /** Held relations are skipped, cache hits are put on the claims, the rest is to do. */
  method ScanDocument(ghost s0: State, start: State, version: string, claims: seq<Claim>, r0: Report)
    returns (todo: seq<Claim>, s: State, r: Report)
    requires Consistent(s0, start, version) && Counted(start.fate, r0)
    requires DistinctIds(claims) && forall id :: Has(claims, id) ==> id !in start.fate
    ensures ScanState(s0, start, version, claims, r0, todo, s, r)
  {
    todo, s, r := [], start, r0;
    assert claims[..0] == [];
    for n := 0 to |claims|
      invariant ScanState(s0, start, version, claims[..n], r0, todo, s, r)
    {
      var c := claims[n];
      assert claims[..n + 1] == claims[..n] + [c];
      NotYet(claims, n);
      ScanNext(s0, start, version, claims[..n], r0, todo, s, r, c);
      if c.id in s.rels {
        s := Scanned(s, version, c.id);
        continue;
      }
      if Key(c.id, version) in s.entries {
        r := r.(cached := r.cached + 1);
        s := Scanned(s, version, c.id);
        continue;
      }
      todo := todo + [c];
    }
    assert claims[..|claims|] == claims;
  }

  lemma NotYet(claims: seq<Claim>, n: nat)
    requires DistinctIds(claims) && n < |claims|
    ensures Has(claims, claims[n].id) && !Has(claims[..n], claims[n].id)
  {
  }

  // ----- sending batches ---------------------------------------------------------------------------------

  datatype Sent = Sent(batch: seq<Claim>, answer: Answer)

  function FateFor(a: Answer): Fate {
    match a
    case Failed => Dropped
    case Refused => Declined
    case Answered(_) => Told
  }

  function Lookup(rels: map<Id, Rel>, id: Id): Option<Rel> {
    if id in rels then Some(rels[id]) else None
  }

  /** Every claim of the batch has the fate of its answer; an answer is cached as it was read. */
  ghost predicate SentOk(s: State, version: string, e: Sent) {
    forall id :: Has(e.batch, id) ==>
      && id in s.fate && s.fate[id] == FateFor(e.answer)
      && (e.answer.Answered? ==>
          Key(id, version) in s.entries && s.entries[Key(id, version)] == Lookup(e.answer.rels, id))
  }

  ghost predicate EntryOk(s: State, version: string, log: seq<Sent>, x: nat, model: Model, names: Names, maxClaims: nat)
    requires x < |log|
  {
    && SentOk(s, version, log[x]) && DistinctIds(log[x].batch) && 0 < |log[x].batch| <= maxClaims
    && log[x].answer == AnswerTo(model, x, log[x].batch, names)
  }

  /** The log of what was sent: batches within the size limit, answered by the model in turn. */
  ghost predicate LogOk(s: State, version: string, log: seq<Sent>, model: Model, names: Names, maxClaims: nat) {
    forall x {:trigger EntryOk(s, version, log, x, model, names, maxClaims)} ::
      0 <= x < |log| ==> EntryOk(s, version, log, x, model, names, maxClaims)
  }

  /** The text the n-th ask was answered with: the first reply, or the second when the first was a refusal. */
  ghost predicate ReplyText(model: Model, n: nat, raw: string) {
    match model.ask(n, false)
    case Raised => false
    case Text(first) =>
      if model.linesOf(first) == [] && model.refuses(first) then
        raw == match model.ask(n, true) { case Raised => "" case Text(second) => second }
      else raw == first
  }

  /** What stays cached for a claim the model answered about is what the reply says of it: the relation of its last
      acceptable line, or none if it has no such line. */
  lemma CachedAsRead(s: State, version: string, log: seq<Sent>, x: nat, model: Model, names: Names, maxClaims: nat,
                     id: Id, raw: string)
    requires LogOk(s, version, log, model, names, maxClaims) && x < |log| && ReplyText(model, x, raw)
    requires log[x].answer.Answered? && Has(log[x].batch, id)
    ensures Key(id, version) in s.entries
    ensures match s.entries[Key(id, version)]
            case None => NoLineFor(model.linesOf(raw), log[x].batch, names, id)
            case Some(rel) => exists n: nat :: LastFor(model.linesOf(raw), log[x].batch, names, id, n)
                                               && ReadsAs(model.linesOf(raw), log[x].batch, names, n, rel)
  {
    assert EntryOk(s, version, log, x, model, names, maxClaims);
    assert log[x].answer.rels == RelsOf(model.linesOf(raw), log[x].batch, names);
    RelsRead(model.linesOf(raw), log[x].batch, names, id);
  }

  function TotalSent(log: seq<Sent>): nat {
    if log == [] then 0 else TotalSent(log[..|log| - 1]) + |log[|log| - 1].batch|
  }

  ghost predicate Grown(s: State, t: State) {
    && (forall id :: id in s.fate ==> id in t.fate && t.fate[id] == s.fate[id])
    && (forall k :: k in s.entries ==> k in t.entries && t.entries[k] == s.entries[k])
  }

  lemma LogGrows(s: State, t: State, version: string, log: seq<Sent>, model: Model, names: Names, maxClaims: nat)
    requires LogOk(s, version, log, model, names, maxClaims) && Grown(s, t)
    ensures LogOk(t, version, log, model, names, maxClaims)
  {
    forall x | 0 <= x < |log| ensures EntryOk(t, version, log, x, model, names, maxClaims) {
      assert EntryOk(s, version, log, x, model, names, maxClaims);
    }
  }

  lemma LogAppend(s: State, version: string, log: seq<Sent>, e: Sent, model: Model, names: Names, maxClaims: nat)
    requires LogOk(s, version, log, model, names, maxClaims) && SentOk(s, version, e)
    requires DistinctIds(e.batch) && 0 < |e.batch| <= maxClaims && e.answer == AnswerTo(model, |log|, e.batch, names)
    ensures LogOk(s, version, log + [e], model, names, maxClaims)
    ensures TotalSent(log + [e]) == TotalSent(log) + |e.batch|
  {
    var longer := log + [e];
    TotalSentNext(log, e);
    forall x | 0 <= x < |longer| ensures EntryOk(s, version, longer, x, model, names, maxClaims) {
      if x < |log| {
        assert EntryOk(s, version, log, x, model, names, maxClaims);
        SameEntry(s, version, log, longer, x, model, names, maxClaims);
      } else {
        assert longer[x] == e;
      }
    }
  }

  lemma TotalSentNext(log: seq<Sent>, e: Sent)
    ensures TotalSent(log + [e]) == TotalSent(log) + |e.batch|
  {
    assert (log + [e])[..|log|] == log;
  }

  lemma SameEntry(s: State, version: string, log: seq<Sent>, longer: seq<Sent>, x: nat, model: Model, names: Names,
                  maxClaims: nat)
    requires x < |log| && x < |longer| && longer[x] == log[x]
    requires EntryOk(s, version, log, x, model, names, maxClaims)
    ensures EntryOk(s, version, longer, x, model, names, maxClaims)
  {
  }

  function Tell(s: State, version: string, id: Id, rel: Option<Rel>): State {
    State(s.entries[Key(id, version) := rel], if rel.Some? then s.rels[id := rel.value] else s.rels, s.fate[id := Told])
  }

  function TellAll(s: State, version: string, batch: seq<Claim>, rels: map<Id, Rel>): State {
    if batch == [] then s
    else
      var id := batch[|batch| - 1].id;
      Tell(TellAll(s, version, batch[..|batch| - 1], rels), version, id, Lookup(rels, id))
  }

  lemma TellStep(s0: State, s: State, version: string, id: Id, rel: Option<Rel>)
    requires Consistent(s0, s, version) && Open(s, version, id)
    ensures Consistent(s0, Tell(s, version, id, rel), version)
  {
    assert Untouched(s0, s, version, id);
    assert id in Tell(s, version, id, rel).fate;
    Advance(s0, s, Tell(s, version, id, rel), version, id, Told);
  }

  /** Just the claims of the batch have been told, each as it was read. */
  ghost predicate ToldOf(s: State, t: State, version: string, batch: seq<Claim>, rels: map<Id, Rel>) {
    && Grown(s, t)
    && (forall id {:trigger Has(batch, id)} :: Has(batch, id) ==> ToldAs(t, version, rels, id))
    && (forall x {:trigger Open(t, version, x)} :: Open(s, version, x) && !Has(batch, x) ==> Open(t, version, x))
  }

  ghost predicate ToldAs(t: State, version: string, rels: map<Id, Rel>, id: Id) {
    var k := Key(id, version);
    id in t.fate && t.fate[id] == Told && k in t.entries && t.entries[k] == Lookup(rels, id)
  }

  lemma ToldStep(s: State, t: State, version: string, batch: seq<Claim>, rels: map<Id, Rel>, c: Claim)
    requires ToldOf(s, t, version, batch, rels) && Open(t, version, c.id) && !Has(batch, c.id)
    ensures ToldOf(s, Tell(t, version, c.id, Lookup(rels, c.id)), version, batch + [c], rels)
  {
    var u := Tell(t, version, c.id, Lookup(rels, c.id));
    forall id | Has(batch + [c], id) ensures ToldAs(u, version, rels, id) {
      HasAppend(batch, c, id);
      assert id != c.id ==> ToldAs(t, version, rels, id);
    }
    forall x | Open(s, version, x) && !Has(batch + [c], x) ensures Open(u, version, x) {
      HasAppend(batch, c, x);
      assert Open(t, version, x);
    }
  }

  lemma {:induction false} TellAllKeeps(s0: State, s: State, version: string, batch: seq<Claim>, rels: map<Id, Rel>)
    requires Consistent(s0, s, version) && DistinctIds(batch) && forall id :: Has(batch, id) ==> Open(s, version, id)
    ensures Consistent(s0, TellAll(s, version, batch, rels), version)
    ensures TellAll(s, version, batch, rels).fate == Mark(s.fate, batch, Told)
    ensures ToldOf(s, TellAll(s, version, batch, rels), version, batch, rels)
  {
    if batch != [] {
      var front, c := batch[..|batch| - 1], batch[|batch| - 1];
      assert batch == front + [c];
      FrontOpen(s, version, front, c);
      TellAllKeeps(s0, s, version, front, rels);
      var t := TellAll(s, version, front, rels);
      assert Open(t, version, c.id);
      ToldStep(s, t, version, front, rels, c);
      TellStep(s0, t, version, c.id, Lookup(rels, c.id));
    }
  }

  lemma FrontOpen(s: State, version: string, front: seq<Claim>, c: Claim)
    requires DistinctIds(front + [c]) && forall id :: Has(front + [c], id) ==> Open(s, version, id)
    ensures DistinctIds(front) && !Has(front, c.id) && Open(s, version, c.id)
    ensures forall id :: Has(front, id) ==> Open(s, version, id)
  {
    forall id ensures Has(front + [c], id) <==> Has(front, id) || id == c.id {
      HasAppend(front, c, id);
    }
    NotYet(front + [c], |front|);
    assert (front + [c])[..|front|] == front;
    PrefixDistinct(front + [c], |front|);
  }

  /** The answered claims are cached, and the labelled ones carry their relation. */
  method Record(cache: RelationCache, s: State, version: string, batch: seq<Claim>, rels: map<Id, Rel>)
    returns (t: State)
    requires cache.data == s.entries
    modifies cache
    ensures t == TellAll(s, version, batch, rels) && cache.data == t.entries
  {
    t := s;
    for n := 0 to |batch|
      invariant t == TellAll(s, version, batch[..n], rels) && cache.data == t.entries
    {
      assert batch[..n + 1][..n] == batch[..n];
      var id := batch[n].id;
      cache.Put(Key(id, version), Lookup(rels, id));
      t := Tell(t, version, id, Lookup(rels, id));
    }
    assert batch[..|batch|] == batch;
  }

  /** What one batch makes of the state. */
  function Settled(s: State, version: string, e: Sent): State {
    if e.answer.Answered? then TellAll(s, version, e.batch, e.answer.rels)
    else s.(fate := Mark(s.fate, e.batch, FateFor(e.answer)))
  }

  function Booked(r: Report, e: Sent): Report {
    r.(claims := r.claims + |e.batch|,
       failed := r.failed + if e.answer.Failed? then 1 else 0,
       refused := r.refused + if e.answer.Refused? then 1 else 0,
       refusedClaims := r.refusedClaims + if e.answer.Refused? then |e.batch| else 0)
  }

  lemma SettledKeeps(s0: State, s: State, version: string, e: Sent, r: Report)
    requires Consistent(s0, s, version) && Counted(s.fate, r)
    requires DistinctIds(e.batch) && forall id :: Has(e.batch, id) ==> Open(s, version, id)
    ensures Consistent(s0, Settled(s, version, e), version) && Counted(Settled(s, version, e).fate, Booked(r, e))
    ensures Grown(s, Settled(s, version, e)) && SentOk(Settled(s, version, e), version, e)
    ensures forall id :: id in Settled(s, version, e).fate <==> id in s.fate || Has(e.batch, id)
    ensures forall id :: Open(s, version, id) && !Has(e.batch, id) ==> Open(Settled(s, version, e), version, id)
  {
    MarkFates(s.fate, e.batch, FateFor(e.answer));
    if e.answer.Answered? {
      TellAllKeeps(s0, s, version, e.batch, e.answer.rels);
    } else {
      MarkKeeps(s0, s, version, e.batch, FateFor(e.answer));
    }
  }

  method SendBatch(cache: RelationCache, s: State, version: string, batch: seq<Claim>, model: Model, names: Names,
                   n: nat, r0: Report)
    returns (t: State, r: Report, ghost e: Sent)
    requires cache.data == s.entries
    modifies cache
    ensures e == Sent(batch, AnswerTo(model, n, batch, names))
    ensures t == Settled(s, version, e) && r == Booked(r0, e) && cache.data == t.entries
  {
    var answer, retried := AskBatch(model, n, batch, names);
    e := Sent(batch, answer);
    r := r0.(claims := r0.claims + |batch|);
    match answer {
      case Failed =>
        r := r.(failed := r.failed + 1);
        t := s.(fate := Mark(s.fate, batch, Dropped));
      case Refused =>
        r := r.(refused := r.refused + 1, refusedClaims := r.refusedClaims + |batch|);
        t := s.(fate := Mark(s.fate, batch, Declined));
      case Answered(rels) =>
        t := Record(cache, s, version, batch, rels);
    }
  }

  // ----- the pass over all documents ------------------------------------------------------------------

  /** One pass: the prompt version, the model and what names mean to it, the batch size and the budget. */
  datatype Pass = Pass(version: string, model: Model, names: Names, maxClaims: nat, limit: Option<int>)

  /** With a positive limit less than the limit plus one batch is sent; with none, nothing. */
  ghost predicate WithinLimit(limit: Option<int>, maxClaims: nat, sent: nat) {
    limit.Some? ==> if limit.value > 0 then sent < limit.value + maxClaims else sent == 0
  }

  ghost predicate PassState(pass: Pass, s0: State, s: State, r: Report, log: seq<Sent>) {
    && Consistent(s0, s, pass.version) && Counted(s.fate, r)
    && LogOk(s, pass.version, log, pass.model, pass.names, pass.maxClaims) && TotalSent(log) == r.claims
    && WithinLimit(pass.limit, pass.maxClaims, r.claims)
    && (r.deferred > 0 ==> LimitReached(pass.limit, r.claims))
  }

  predicate LimitReached(limit: Option<int>, sent: nat) {
    limit.Some? && sent >= limit.value
  }

  lemma PassBatch(pass: Pass, s0: State, s: State, r: Report, log: seq<Sent>, batch: seq<Claim>)
    requires PassState(pass, s0, s, r, log) && !LimitReached(pass.limit, r.claims)
    requires DistinctIds(batch) && 0 < |batch| <= pass.maxClaims && forall id :: Has(batch, id) ==>
             Open(s, pass.version, id)
    ensures var e := Sent(batch, AnswerTo(pass.model, |log|, batch, pass.names));
            PassState(pass, s0, Settled(s, pass.version, e), Booked(r, e), log + [e])
  {
    var e := Sent(batch, AnswerTo(pass.model, |log|, batch, pass.names));
    SettledKeeps(s0, s, pass.version, e, r);
    LogGrows(s, Settled(s, pass.version, e), pass.version, log, pass.model, pass.names, pass.maxClaims);
    LogAppend(Settled(s, pass.version, e), pass.version, log, e, pass.model, pass.names, pass.maxClaims);
  }

  lemma PassDefer(pass: Pass, s0: State, s: State, r: Report, log: seq<Sent>, rest: seq<Claim>)
    requires PassState(pass, s0, s, r, log) && LimitReached(pass.limit, r.claims)
    requires DistinctIds(rest) && forall id :: Has(rest, id) ==> Open(s, pass.version, id)
    ensures PassState(pass, s0, s.(fate := Mark(s.fate, rest, Deferred)), r.(deferred := r.deferred + |rest|), log)
    ensures forall id :: id in Mark(s.fate, rest, Deferred) <==> id in s.fate || Has(rest, id)
  {
    MarkFates(s.fate, rest, Deferred);
    MarkKeeps(s0, s, pass.version, rest, Deferred);
    LogGrows(s, s.(fate := Mark(s.fate, rest, Deferred)), pass.version, log, pass.model, pass.names, pass.maxClaims);
  }

  lemma HasSlice(todo: seq<Claim>, from: nat, upto: nat, id: Id)
    requires from <= upto <= |todo| && DistinctIds(todo)
    ensures Has(todo[from..], id) <==> Has(todo[from..upto], id) || Has(todo[upto..], id)
    ensures !(Has(todo[from..upto], id) && Has(todo[upto..], id))
    ensures Has(todo[from..], id) ==> Has(todo, id)
  {
    if Has(todo[from..], id) {
      var i :| 0 <= i < |todo| - from && todo[from..][i].id == id;
      assert todo[from + i].id == id;
      if from + i < upto {
        assert todo[from..upto][i] == todo[from + i];
      } else {
        assert todo[upto..][from + i - upto] == todo[from + i];
      }
    }
    if Has(todo[from..upto], id) {
      var i :| 0 <= i < upto - from && todo[from..upto][i].id == id;
      assert todo[from..][i].id == id;
    }
    if Has(todo[upto..], id) {
      var i :| 0 <= i < |todo| - upto && todo[upto..][i].id == id;
      assert todo[from..][upto - from + i].id == id;
    }
  }

  /** One document's open claims, batch by batch, until the limit is reached; nothing is deferred before. */
  method SendDocument(pass: Pass, cache: RelationCache, ghost s0: State, start: State, todo: seq<Claim>, r0: Report,
                      asked: nat, ghost log0: seq<Sent>)
    returns (s: State, r: Report, n: nat, ghost log: seq<Sent>)
    requires cache.data == start.entries && asked == |log0| && pass.maxClaims >= 1
    requires PassState(pass, s0, start, r0, log0)
    requires DistinctIds(todo) && forall id :: Has(todo, id) ==> Open(start, pass.version, id)
    modifies cache
    ensures cache.data == s.entries && n == |log|
    ensures PassState(pass, s0, s, r, log)
    ensures forall id :: id in s.fate <==> id in start.fate || Has(todo, id)
  {
    s, r, n, log := start, r0, asked, log0;
    var from := 0;
    assert todo[0..] == todo;
    while from < |todo|
      invariant 0 <= from <= |todo| && cache.data == s.entries && n == |log|
      invariant PassState(pass, s0, s, r, log)
      invariant forall id :: Has(todo[from..], id) ==> Open(s, pass.version, id)
      invariant forall id :: id in s.fate || Has(todo[from..], id) <==> id in start.fate || Has(todo, id)
    {
      var upto := Min(from + pass.maxClaims, |todo|);
      forall id
        ensures Has(todo[from..], id) <==> Has(todo[from..upto], id) || Has(todo[upto..], id)
        ensures !(Has(todo[from..upto], id) && Has(todo[upto..], id))
      {
        HasSlice(todo, from, upto, id);
      }
      if LimitReached(pass.limit, r.claims) {
        PassDefer(pass, s0, s, r, log, todo[from..]);
        r := r.(deferred := r.deferred + |todo| - from);
        s := s.(fate := Mark(s.fate, todo[from..], Deferred));
        return;
      }
      var batch := todo[from..upto];
      ghost var e0 := Sent(batch, AnswerTo(pass.model, |log|, batch, pass.names));
      PassBatch(pass, s0, s, r, log, batch);
      SettledKeeps(s0, s, pass.version, e0, r);
      ghost var e;
      s, r, e := SendBatch(cache, s, pass.version, batch, pass.model, pass.names, n, r);
      log, n := log + [e], n + 1;
      from := upto;
    }
  }

  function AllClaims(docs: seq<Document>): seq<Claim> {
    if docs == [] then [] else AllClaims(docs[..|docs| - 1]) + docs[|docs| - 1].claims
  }

  lemma {:induction false} AllClaimsPrefix(docs: seq<Document>, n: nat)
    requires n <= |docs|
    ensures |AllClaims(docs[..n])| <= |AllClaims(docs)|
            && AllClaims(docs[..n]) == AllClaims(docs)[..|AllClaims(docs[..n])|]
  {
    if n < |docs| {
      AllClaimsPrefix(docs[..|docs| - 1], n);
      assert docs[..|docs| - 1][..n] == docs[..n];
    } else {
      assert docs[..n] == docs;
    }
  }

  /** The n-th document's claims are its own, and distinct. */
  lemma DocumentClaims(docs: seq<Document>, n: nat)
    requires n < |docs| && DistinctIds(AllClaims(docs))
    ensures DistinctIds(docs[n].claims)
    ensures forall id :: Has(AllClaims(docs[..n + 1]), id) <==> Has(AllClaims(docs[..n]), id) || Has(docs[n].claims, id)
    ensures forall id :: Has(docs[n].claims, id) ==> !Has(AllClaims(docs[..n]), id)
  {
    var before, own := AllClaims(docs[..n]), docs[n].claims;
    FirstDocuments(docs, n);
    OwnDistinct(before, own);
    forall id
      ensures Has(before + own, id) <==> Has(before, id) || Has(own, id)
      ensures !(Has(before, id) && Has(own, id))
    {
      HasConcat(before, own, id);
    }
  }

  lemma FirstDocuments(docs: seq<Document>, n: nat)
    requires n < |docs| && DistinctIds(AllClaims(docs))
    ensures AllClaims(docs[..n + 1]) == AllClaims(docs[..n]) + docs[n].claims
    ensures DistinctIds(AllClaims(docs[..n]) + docs[n].claims)
  {
    AllClaimsNext(docs, n);
    AllClaimsPrefix(docs, n + 1);
    PrefixDistinct(AllClaims(docs), |AllClaims(docs[..n + 1])|);
  }

  lemma AllClaimsNext(docs: seq<Document>, n: nat)
    requires n < |docs|
    ensures AllClaims(docs[..n + 1]) == AllClaims(docs[..n]) + docs[n].claims
  {
    assert docs[..n + 1][..n] == docs[..n];
  }

  lemma PrefixDistinct(claims: seq<Claim>, n: nat)
    requires DistinctIds(claims) && n <= |claims|
    ensures DistinctIds(claims[..n])
  {
  }

  lemma OwnDistinct(a: seq<Claim>, b: seq<Claim>)
    requires DistinctIds(a + b)
    ensures DistinctIds(b)
  {
    forall i, j | 0 <= i < j < |b| ensures b[i].id != b[j].id {
      assert (a + b)[|a| + i] == b[i] && (a + b)[|a| + j] == b[j];
    }
  }

  lemma HasConcat(a: seq<Claim>, b: seq<Claim>, id: Id)
    requires DistinctIds(a + b)
    ensures Has(a + b, id) <==> Has(a, id) || Has(b, id)
    ensures !(Has(a, id) && Has(b, id))
  {
    var both := a + b;
    assert both[..|a|] == a && both[|a|..] == b && both[0..] == both && both[0..|a|] == a;
    HasSlice(both, 0, |a|, id);
  }

  /** One document: what the cache knows is settled at once, the rest sent or deferred. */
  method TreatDocument(pass: Pass, cache: RelationCache, ghost s0: State, start: State, claims: seq<Claim>, r0: Report,
                       asked: nat, ghost log0: seq<Sent>)
    returns (s: State, r: Report, n: nat, ghost log: seq<Sent>)
    requires cache.data == start.entries && asked == |log0| && pass.maxClaims >= 1
    requires PassState(pass, s0, start, r0, log0)
    requires DistinctIds(claims) && forall id :: Has(claims, id) ==> id !in start.fate
    modifies cache
    ensures cache.data == s.entries && n == |log|
    ensures PassState(pass, s0, s, r, log)
    ensures forall id :: id in s.fate <==> id in start.fate || Has(claims, id)
  {
    var todo;
    todo, s, r := ScanDocument(s0, start, pass.version, claims, r0);
    n, log := asked, log0;
    LogGrows(start, s, pass.version, log, pass.model, pass.names, pass.maxClaims);
    if todo == [] {
      return;
    }
    if LimitReached(pass.limit, r.claims) {
      PassDefer(pass, s0, s, r, log, todo);
      r := r.(deferred := r.deferred + |todo|);
      s := s.(fate := Mark(s.fate, todo, Deferred));
      return;
    }
    r := r.(documents := r.documents + 1);
    s, r, n, log := SendDocument(pass, cache, s0, s, todo, r, n, log);
  }

  /** The pass. Every claim without a relation is a cache hit, sent or deferred; the limit is kept to
      within one batch, and nothing is deferred before it is reached; an answered claim is cached as it was
      read, an unanswered one is not cached. */
  method RunRelationPass(pass: Pass, docs: seq<Document>, rels: map<Id, Rel>, cache: RelationCache)
    returns (s: State, r: Report, ghost log: seq<Sent>)
    requires DistinctIds(AllClaims(docs)) && pass.maxClaims >= 1
    modifies cache
    ensures cache.data == s.entries
    ensures PassState(pass, old(State(cache.data, rels, map[])), s, r, log)
    ensures forall id :: id in s.fate <==> Has(AllClaims(docs), id)
    ensures r.cached + r.claims + r.deferred == |set id | id in s.fate && id !in rels|
    ensures r.deferred > 0 ==> pass.limit.Some? && r.claims >= pass.limit.value
    ensures PassDone(old(cache.data), cache.data, pass.version, s.fate)
  {
    ghost var s0 := State(cache.data, rels, map[]);
    s := State(cache.data, rels, map[]);
    r := Report(0, 0, 0, 0, 0, 0, 0);
    var asked := 0;
    log := [];
    StartState(s, pass.version);
    for d := 0 to |docs|
      invariant cache.data == s.entries && asked == |log|
      invariant PassState(pass, s0, s, r, log)
      invariant forall id :: id in s.fate <==> Has(AllClaims(docs[..d]), id)
    {
      DocumentClaims(docs, d);
      s, r, asked, log := TreatDocument(pass, cache, s0, s, docs[d].claims, r, asked, log);
    }
    assert docs[..|docs|] == docs;
    FatesAddUp(s0, s, pass.version, r);
    PassLeaves(s0, s, pass.version);
  }

  lemma StartState(s: State, version: string)
    requires s.fate == map[]
    ensures Consistent(s, s, version) && forall f :: CountOf(s.fate, f) == 0
  {
    forall f ensures CountOf(s.fate, f) == 0 {
      assert Having(s.fate, f) == {};
    }
  }

  // ----- over many passes ------------------------------------------------------------------------------

  /** What a pass under one prompt version leaves for the next. */
  ghost predicate PassDone(before: Entries, after: Entries, version: string, fate: map<Id, Fate>) {
    && (forall k :: k in before ==> k in after)
    && (forall id :: id in fate && fate[id] in {Told, Dropped, Declined} ==> Key(id, version) !in before)
    && (forall id :: id in fate && fate[id] == Told ==> Key(id, version) in after)
    && (forall id :: id in fate && fate[id] in {Dropped, Declined, Deferred} ==> Key(id, version) !in after)
  }

  lemma PassLeaves(s0: State, s: State, version: string)
    requires Consistent(s0, s, version)
    ensures PassDone(s0.entries, s.entries, version, s.fate)
  {
    forall id | id in s.fate ensures FateOk(s0, s, version, id) {
    }
  }

  ghost predicate Passes(caches: seq<Entries>, fates: seq<map<Id, Fate>>, version: string) {
    && |caches| == |fates| + 1
    && forall i :: 0 <= i < |fates| ==> PassDone(caches[i], caches[i + 1], version, fates[i])
  }

  lemma {:induction false} CacheGrows(caches: seq<Entries>, fates: seq<map<Id, Fate>>, version: string, i: nat, j: nat,
                                      k: Key)
    requires Passes(caches, fates, version) && i <= j < |caches| && k in caches[i]
    ensures k in caches[j]
    decreases j - i
  {
    if i < j {
      assert PassDone(caches[i], caches[i + 1], version, fates[i]);
      CacheGrows(caches, fates, version, i + 1, j, k);
    }
  }

  /** Over any run of passes under one prompt version an answered claim is never sent again. */
  lemma NeverAskedAgain(caches: seq<Entries>, fates: seq<map<Id, Fate>>, version: string, i: nat, j: nat, id: Id)
    requires Passes(caches, fates, version) && i < j < |fates|
    requires id in fates[i] && fates[i][id] == Told && id in fates[j]
    ensures fates[j][id] in {Held, Hit}
  {
    assert PassDone(caches[i], caches[i + 1], version, fates[i]);
    CacheGrows(caches, fates, version, i + 1, j, Key(id, version));
    CacheGrows(caches, fates, version, i + 1, j + 1, Key(id, version));
    assert PassDone(caches[j], caches[j + 1], version, fates[j]);
  }
}
