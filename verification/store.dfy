/** The document store (assoc/store.py): version chains per key, re-ingest in place, append-only growth, and
    the current version of each key in a scope. */
module Stores {
  import opened Common

  /** A document id is a hash of key and version. */
  datatype DocId = DocId(key: string, version: string)

  datatype ChunkId = ChunkId(name: string)

  datatype Unit = Unit(chunk: ChunkId, text: string)

  datatype Facet = One(value: string) | Many(values: set<string>)

  datatype Meta = Meta(version: string, supersedes: Option<DocId>, facets: map<string, Facet>)

  datatype Record = Record(meta: Meta, text: string, units: seq<Unit>)

  datatype KeyEntry = KeyEntry(versions: seq<DocId>, removed: bool)

  /** The key file, in the order its keys were entered, and the document directories. */
  datatype State = State(order: seq<string>, keys: map<string, KeyEntry>, docs: map<DocId, Record>)

  /** What one ingest brings: `rendered` and `units` are what the splitter makes of the text; `now` is what the
      clock reads; an empty version means the metadata names none. */
  datatype Request = Request(key: string, appendOnly: bool, version: string, facets: map<string, Facet>,
                             rendered: string, units: seq<Unit>, now: string)

  // ----- what holds of every store ---------------------------------------------------------------------

  function Predecessor(versions: seq<DocId>, i: nat): Option<DocId>
    requires i < |versions|
  {
    if i == 0 then None else Some(versions[i - 1])
  }

  /** The i-th version is stored under the key, and supersedes exactly the one before it. */
  ghost predicate VersionOk(s: State, key: string, i: nat)
    requires key in s.keys && i < |s.keys[key].versions|
  {
    var id := s.keys[key].versions[i];
    && id.key == key && id in s.docs
    && s.docs[id].meta.version == id.version
    && s.docs[id].meta.supersedes == Predecessor(s.keys[key].versions, i)
  }

  ghost predicate ChainOk(s: State, key: string) {
    key in s.keys ==>
      && Distinct(s.keys[key].versions)
      && forall i {:trigger VersionOk(s, key, i)} :: 0 <= i < |s.keys[key].versions| ==> VersionOk(s, key, i)
  }

  ghost predicate Ok(s: State) {
    && Distinct(s.order) && (forall k :: k in s.order <==> k in s.keys)
    && forall k {:trigger ChainOk(s, k)} :: ChainOk(s, k)
  }

  // ----- the clock's versions --------------------------------------------------------------------------------

  function Decimal(n: nat): string {
    (if n < 10 then "" else Decimal(n / 10)) + [('0' as int + n % 10) as char]
  }

  lemma {:induction false} DecimalInjective(m: nat, n: nat)
    requires Decimal(m) == Decimal(n)
    ensures m == n
  {
    var a, b := Decimal(m), Decimal(n);
    assert a[|a| - 1] == b[|b| - 1] && a[..|a| - 1] == b[..|b| - 1];
    assert m % 10 == n % 10;
    if m >= 10 && n >= 10 {
      assert a[..|a| - 1] == Decimal(m / 10) && b[..|b| - 1] == Decimal(n / 10);
      DecimalInjective(m / 10, n / 10);
    }
  }

  /** The version the clock gives a chain of n versions. */
  function Stamp(now: string, n: nat): string {
    if n == 0 then now else now + "-" + Decimal(n)
  }

  /** A clock reading is a date and time of fixed width. */
  predicate IsClock(now: string) {
    |now| == 19
  }

  predicate Digits(s: string) {
    forall i :: 0 <= i < |s| ==> '0' <= s[i] <= '9'
  }

  function Number(s: string): nat
    requires Digits(s)
  {
    if s == "" then 0 else 10 * Number(s[..|s| - 1]) + (s[|s| - 1] as int - '0' as int)
  }

  /** A chain's length stands in the stamp as a decimal number. */
  lemma {:induction false} DecimalReadsBack(n: nat)
    ensures Digits(Decimal(n)) && Number(Decimal(n)) == n
  {
    var front, last := if n < 10 then "" else Decimal(n / 10), ('0' as int + n % 10) as char;
    assert Decimal(n) == front + [last] && Decimal(n)[..|front|] == front;
    if n >= 10 {
      DecimalReadsBack(n / 10);
    }
  }

  /** A reading has the width of a date and time to the second. */
  lemma ClockReads()
    ensures IsClock("2026-09-09T12:00:00")
  {
  }

  /** Stamps of chains of different lengths differ, though the clock stand still. */
  lemma StampsDiffer(now: string, m: nat, later: string, n: nat)
    requires IsClock(now) && IsClock(later) && Stamp(now, m) == Stamp(later, n)
    ensures m == n
  {
    if m > 0 && n > 0 {
      assert Stamp(now, m)[20..] == Decimal(m) && Stamp(later, n)[20..] == Decimal(n);
      DecimalInjective(m, n);
    }
  }

  // ----- ingest as a function of the state -----------------------------------------------------------------

  /** The key is entered if new, and no longer removed. */
  function Opened(s: State, key: string): State {
    if key in s.keys then s.(keys := s.keys[key := s.keys[key].(removed := false)])
    else s.(order := s.order + [key], keys := s.keys[key := KeyEntry([], false)])
  }

  function VersionsOf(s: State, key: string): seq<DocId> {
    if key in s.keys then s.keys[key].versions else []
  }

  /** Trailing line breaks, which the append test ignores. */
  function Trimmed(text: string): string {
    if text != [] && text[|text| - 1] == '\n' then Trimmed(text[..|text| - 1]) else text
  }

  predicate Extends(rendered: string, known: string) {
    Trimmed(known) <= rendered
  }

  function Unseen(units: seq<Unit>): Unit -> bool {
    (u: Unit) => forall v :: v in units ==> v.chunk != u.chunk
  }

  /** The units whose chunks the document does not have yet. */
  function NewUnits(before: seq<Unit>, units: seq<Unit>): seq<Unit> {
    Filter(units, Unseen(before))
  }

  function Latest(s: State, key: string): Option<DocId> {
    var v := VersionsOf(s, key);
    if v == [] then None else Some(v[|v| - 1])
  }

  predicate Appends(s: State, r: Request) {
    r.appendOnly && Latest(s, r.key).Some? && Latest(s, r.key).value in s.docs
  }

  /** An append whose text does not continue the document is versioned instead. */
  predicate Forks(s: State, r: Request) {
    Appends(s, r) && !Extends(r.rendered, s.docs[Latest(s, r.key).value].text)
  }

  predicate GrowsInPlace(s: State, r: Request) {
    Appends(s, r) && !Forks(s, r)
  }

  /** The id a request is stored under. */
  function IdFor(s: State, r: Request): DocId {
    var n := |VersionsOf(s, r.key)|;
    if Forks(s, r) then DocId(r.key, Stamp(r.now, n))
    else if Appends(s, r) then Latest(s, r.key).value
    else DocId(r.key, if r.version != "" then r.version else Stamp(r.now, n))
  }

  function IndexIn(versions: seq<DocId>, id: DocId): (i: nat)
    requires id in versions
    ensures i < |versions| && versions[i] == id
    ensures forall j :: 0 <= j < i ==> versions[j] != id
  {
    if versions[0] == id then 0 else IndexIn(versions[1..], id) + 1
  }

  function Write(s: State, key: string, id: DocId, record: Record, versions: seq<DocId>): State {
    s.(docs := s.docs[id := record], keys := s.keys[key := KeyEntry(versions, false)])
  }

  function NewRecord(r: Request, id: DocId, supersedes: Option<DocId>): Record {
    Record(Meta(id.version, supersedes, r.facets), r.rendered, r.units)
  }

  /** Ingest: append in place, fork, replace in place, or a new version at the end of the chain. */
  function Ingested(s: State, r: Request): State {
    var t := Opened(s, r.key);
    var versions := VersionsOf(t, r.key);
    var id := IdFor(s, r);
    if Forks(s, r) then Write(t, r.key, id, NewRecord(r, id, Latest(s, r.key)), versions + [id])
    else if Appends(s, r) then
      var known := s.docs[id];
      Write(t, r.key, id, Record(known.meta, r.rendered, known.units + NewUnits(known.units, r.units)), versions)
    else if id in versions
      then Write(t, r.key, id, NewRecord(r, id, Predecessor(versions, IndexIn(versions, id))), versions)
    else Write(t, r.key, id, NewRecord(r, id, Latest(s, r.key)), versions + [id])
  }

  function Removed(s: State, key: string): State {
    if key in s.keys then s.(keys := s.keys[key := s.keys[key].(removed := true)]) else s
  }

  // ----- what every ingest keeps ------------------------------------------------------------------------------

  /** The versioning path of an append does not check whether its stamp is taken. */
  predicate StampTaken(s: State, r: Request) {
    Forks(s, r) && IdFor(s, r) in VersionsOf(s, r.key)
  }

  /** Writing a document of one key leaves the chains of the others alone. */
  lemma OtherChains(s: State, t: State, key: string, id: DocId, k: string)
    requires ChainOk(s, k) && k != key && id.key == key
    requires k in t.keys <==> k in s.keys
    requires k in s.keys ==> t.keys[k] == s.keys[k]
    requires forall d :: d in s.docs && d != id ==> d in t.docs && t.docs[d] == s.docs[d]
    ensures ChainOk(t, k)
  {
    if k in s.keys {
      forall i | 0 <= i < |t.keys[k].versions| ensures VersionOk(t, k, i) {
        assert VersionOk(s, k, i);
      }
    }
  }

  /** A new version at the end of a chain that does not have it yet. */
  lemma ChainGrows(s: State, key: string, id: DocId, record: Record)
    requires ChainOk(s, key) && key in s.keys && id.key == key && id !in s.keys[key].versions
    requires record.meta.version == id.version && record.meta.supersedes == Latest(s, key)
    ensures ChainOk(Write(s, key, id, record, s.keys[key].versions + [id]), key)
  {
    var t := Write(s, key, id, record, s.keys[key].versions + [id]);
    var n := |s.keys[key].versions|;
    forall i | 0 <= i < n + 1 ensures VersionOk(t, key, i) {
      if i < n {
        assert VersionOk(s, key, i);
        assert s.keys[key].versions[i] != id;
      }
    }
  }

  /** A version rewritten in its place. */
  lemma ChainRewritten(s: State, key: string, i: nat, record: Record)
    requires ChainOk(s, key) && key in s.keys && i < |s.keys[key].versions|
    requires record.meta.version == s.keys[key].versions[i].version
    requires record.meta.supersedes == Predecessor(s.keys[key].versions, i)
    ensures ChainOk(Write(s, key, s.keys[key].versions[i], record, s.keys[key].versions), key)
  {
    var id := s.keys[key].versions[i];
    var t := Write(s, key, id, record, s.keys[key].versions);
    assert VersionOk(s, key, i);
    forall j | 0 <= j < |s.keys[key].versions| ensures VersionOk(t, key, j) {
      assert VersionOk(s, key, j);
      assert j != i ==> s.keys[key].versions[j] != id;
    }
  }

  lemma OpenedOk(s: State, key: string)
    requires Ok(s)
    ensures Ok(Opened(s, key)) && VersionsOf(Opened(s, key), key) == VersionsOf(s, key)
            && Latest(Opened(s, key), key) == Latest(s, key)
    ensures key in Opened(s, key).keys
  {
    var t := Opened(s, key);
    forall k ensures ChainOk(t, k) {
      assert ChainOk(s, k);
      if k in t.keys {
        forall i | 0 <= i < |t.keys[k].versions| ensures VersionOk(t, k, i) {
          assert VersionOk(s, k, i);
        }
      }
    }
  }

  lemma WriteOk(s: State, key: string, id: DocId, record: Record, versions: seq<DocId>)
    requires Ok(s) && key in s.keys && id.key == key && ChainOk(Write(s, key, id, record, versions), key)
    ensures Ok(Write(s, key, id, record, versions))
  {
    var t := Write(s, key, id, record, versions);
    forall k ensures ChainOk(t, k) {
      assert ChainOk(s, k);
      if k != key {
        OtherChains(s, t, key, id, k);
      }
    }
  }

  /** Every chain stays distinct, with each version superseding exactly the one before it, if and only if
      the ingest does not fork an append under a stamp the chain already has. */
  lemma IngestKeepsChains(s: State, r: Request)
    requires Ok(s)
    ensures Ok(Ingested(s, r)) <==> !StampTaken(s, r)
  {
    var t := Opened(s, r.key);
    OpenedOk(s, r.key);
    assert ChainOk(t, r.key) && ChainOk(s, r.key);
    var versions := VersionsOf(t, r.key);
    var id := IdFor(s, r);
    if StampTaken(s, r) {
      var n := |versions|;
      var after := Ingested(s, r).keys[r.key].versions;
      var i := IndexIn(versions, id);
      assert after[i] == after[n];
      assert !ChainOk(Ingested(s, r), r.key);
    } else if Forks(s, r) {
      ChainGrows(t, r.key, id, NewRecord(r, id, Latest(s, r.key)));
      WriteOk(t, r.key, id, NewRecord(r, id, Latest(s, r.key)), versions + [id]);
    } else if Appends(s, r) {
      var n := |versions| - 1;
      assert VersionOk(t, r.key, n);
      var record := Record(s.docs[id].meta, r.rendered, s.docs[id].units + NewUnits(s.docs[id].units, r.units));
      ChainRewritten(t, r.key, n, record);
      WriteOk(t, r.key, id, record, versions);
    } else if id in versions {
      var i := IndexIn(versions, id);
      ChainRewritten(t, r.key, i, NewRecord(r, id, Predecessor(versions, i)));
      WriteOk(t, r.key, id, NewRecord(r, id, Predecessor(versions, i)), versions);
    } else {
      ChainGrows(t, r.key, id, NewRecord(r, id, Latest(s, r.key)));
      WriteOk(t, r.key, id, NewRecord(r, id, Latest(s, r.key)), versions + [id]);
    }
  }

  lemma RemoveKeepsChains(s: State, key: string)
    requires Ok(s)
    ensures Ok(Removed(s, key))
  {
    forall k ensures ChainOk(Removed(s, key), k) {
      assert ChainOk(s, k);
      if k in s.keys {
        forall i | 0 <= i < |s.keys[k].versions| ensures VersionOk(Removed(s, key), k, i) {
          assert VersionOk(s, k, i);
        }
      }
    }
  }

  /** Every version of the key was named by the clock, at the length the chain then had. */
  ghost predicate ClockNamed(s: State, key: string) {
    forall i :: 0 <= i < |VersionsOf(s, key)| ==>
                  exists now :: IsClock(now) && VersionsOf(s, key)[i] == DocId(key, Stamp(now, i))
  }

  /** Where callers name no version, no fork takes a used stamp, though the clock stand still. */
  lemma ClockStampsFree(s: State, r: Request)
    requires ClockNamed(s, r.key) && IsClock(r.now)
    ensures !StampTaken(s, r)
  {
    var versions := VersionsOf(s, r.key);
    if StampTaken(s, r) {
      var i := IndexIn(versions, IdFor(s, r));
      var now :| IsClock(now) && versions[i] == DocId(r.key, Stamp(now, i));
      StampsDiffer(now, i, r.now, |versions|);
      assert false;
    }
  }

  /** The chain after an ingest: one version longer, or as it was. */
  lemma VersionsAfter(s: State, r: Request)
    requires Ok(s)
    ensures var before, after := VersionsOf(s, r.key), VersionsOf(Ingested(s, r), r.key);
            after == before || (after == before + [IdFor(s, r)] && !GrowsInPlace(s, r))
  {
    OpenedOk(s, r.key);
  }

  /** And what such an ingest adds is clock-named again. */
  lemma ClockNamesStay(s: State, r: Request)
    requires Ok(s) && ClockNamed(s, r.key) && IsClock(r.now) && r.version == ""
    ensures ClockNamed(Ingested(s, r), r.key) && Ok(Ingested(s, r))
  {
    ClockStampsFree(s, r);
    IngestKeepsChains(s, r);
    VersionsAfter(s, r);
    var before, after := VersionsOf(s, r.key), VersionsOf(Ingested(s, r), r.key);
    forall i | 0 <= i < |after| ensures exists now :: IsClock(now) && after[i] == DocId(r.key, Stamp(now, i)) {
      if i < |before| {
        assert after[i] == before[i];
      } else {
        assert after[i] == IdFor(s, r) == DocId(r.key, Stamp(r.now, i));
      }
    }
  }

  /** A caller names a first version the way the clock will name the second: the fork repeats it. */
  lemma ForkCanRepeat(now: string)
    requires IsClock(now)
    ensures var s0 := State([], map[], map[]);
            var named := Request("chat", true, Stamp(now, 1), map[], "a", [], now);
            var fork := Request("chat", true, "", map[], "b", [], now);
            var s1 := Ingested(s0, named);
            Ok(s0) && Ok(s1) && StampTaken(s1, fork) && !Distinct(VersionsOf(Ingested(s1, fork), "chat"))
  {
    var s0 := State([], map[], map[]);
    var named := Request("chat", true, Stamp(now, 1), map[], "a", [], now);
    var fork := Request("chat", true, "", map[], "b", [], now);
    var id := DocId("chat", Stamp(now, 1));
    IngestKeepsChains(s0, named);
    var s1 := Ingested(s0, named);
    assert VersionsOf(s1, "chat") == [id] && s1.docs[id].text == "a";
    assert Trimmed("a") == "a" && "a"[0] != "b"[0];
    assert VersionsOf(Ingested(s1, fork), "chat") == [id, id];
    assert [id, id][0] == [id, id][1];
  }

  /** The document's chunks, none if it is not stored. */
  function UnitsOf(s: State, id: DocId): seq<Unit> {
    if id in s.docs then s.docs[id].units else []
  }

  /** Behind the units before, which stay, come exactly the given units of chunks that were not there, in the order
      and as often as given. */
  ghost predicate AddsUnseen(before: seq<Unit>, after: seq<Unit>, given: seq<Unit>) {
    before <= after && exists at :: PlacesOf(given, Unseen(before), at) && ReadsOff(given, at, after[|before|..])
  }

  /** An append that continues the document keeps every chunk it had, in place, and adds exactly the given chunks it
      did not have; no chunk of the new text is missing. It makes no new version and leaves the metadata alone. */
  lemma AppendKeepsPrefix(s: State, r: Request)
    requires Ok(s) && GrowsInPlace(s, r)
    ensures VersionsOf(Ingested(s, r), r.key) == VersionsOf(s, r.key)
    ensures var before, after := UnitsOf(s, IdFor(s, r)), UnitsOf(Ingested(s, r), IdFor(s, r));
            && AddsUnseen(before, after, r.units)
            && forall u :: u in r.units ==> exists v :: v in after && v.chunk == u.chunk
    ensures Ingested(s, r).docs[IdFor(s, r)].meta == s.docs[IdFor(s, r)].meta
  {
    OpenedOk(s, r.key);
    var id := IdFor(s, r);
    var before, after := s.docs[id].units, UnitsOf(Ingested(s, r), id);
    var more := NewUnits(before, r.units);
    assert after == before + more && after[|before|..] == more;
    var at := FilterPlaces(r.units, Unseen(before));
    forall u | u in r.units ensures exists v :: v in after && v.chunk == u.chunk {
      if Unseen(before)(u) {
        assert u in more;
        assert u in after;
      } else {
        var v :| v in before && v.chunk == u.chunk;
        assert v in after;
      }
    }
  }

  /** Whatever the case, the text stored is the request's. But for growth in place so are chunks and facets, and the
      version is the one the request names, if it names one and does not fork. */
  lemma IngestStores(s: State, r: Request)
    requires Ok(s)
    ensures IdFor(s, r) in Ingested(s, r).docs
    ensures var d := Ingested(s, r).docs[IdFor(s, r)];
            && d.text == r.rendered
            && (!GrowsInPlace(s, r) ==> d.units == r.units && d.meta.facets == r.facets
                                        && d.meta.version == IdFor(s, r).version)
    ensures !Appends(s, r) && r.version != "" ==> IdFor(s, r) == DocId(r.key, r.version)
    ensures GrowsInPlace(s, r) ==> IdFor(s, r) == VersionsOf(s, r.key)[|VersionsOf(s, r.key)| - 1]
  {
    OpenedOk(s, r.key);
  }

  /** What the append test ignores is all of the trailing line breaks, and nothing else. */
  lemma {:induction false} TrimmedExactly(text: string)
    ensures var t := Trimmed(text);
            && t <= text && (forall i :: |t| <= i < |text| ==> text[i] == '\n')
            && (t != "" ==> t[|t| - 1] != '\n')
  {
    if text != [] && text[|text| - 1] == '\n' {
      TrimmedExactly(text[..|text| - 1]);
    }
  }

  /** Text that goes on where the stored text ends is recognized as growth, with or without its last line break. */
  lemma GrowthRecognized(known: string, more: string)
    ensures Extends(known + more, known) && Extends(Trimmed(known) + more, known)
  {
    TrimmedExactly(known);
    assert known == Trimmed(known) + known[|Trimmed(known)|..];
    assert known + more == Trimmed(known) + (known[|Trimmed(known)|..] + more);
  }

  /** And nothing else is. */
  lemma GrowthExactly(known: string, rendered: string)
    ensures Extends(rendered, known) <==>
            |Trimmed(known)| <= |rendered|
            && forall i :: 0 <= i < |Trimmed(known)| && i < |known| ==> rendered[i] == known[i]
  {
    TrimmedExactly(known);
  }

  /** Growing in place touches the key file's entry only where the key was removed. */
  lemma GrowthReopens(s: State, r: Request)
    requires Ok(s) && GrowsInPlace(s, r)
    ensures Ingested(s, r).keys == s.keys <==> !s.keys[r.key].removed
  {
    OpenedOk(s, r.key);
    assert r.key in s.keys;
  }

  /** An ingest changes no other key and no other document. */
  lemma IngestIsLocal(s: State, r: Request)
    requires Ok(s)
    ensures IdFor(s, r).key == r.key
    ensures forall k :: k != r.key ==>
            (k in Ingested(s, r).keys <==> k in s.keys) && (k in s.keys ==> Ingested(s, r).keys[k] == s.keys[k])
    ensures forall d :: d in s.docs && d != IdFor(s, r) ==>
            d in Ingested(s, r).docs && Ingested(s, r).docs[d] == s.docs[d]
    ensures VersionsOf(s, r.key) <= VersionsOf(Ingested(s, r), r.key)
            && IdFor(s, r) in VersionsOf(Ingested(s, r), r.key)
    ensures r.key in Ingested(s, r).keys && !Ingested(s, r).keys[r.key].removed
  {
    OpenedOk(s, r.key);
    assert ChainOk(s, r.key);
    if Appends(s, r) {
      assert VersionOk(s, r.key, |VersionsOf(s, r.key)| - 1);
    }
    var t := Opened(s, r.key);
    var versions := VersionsOf(t, r.key);
    var more := versions + [IdFor(s, r)];
    assert more[|versions|] == IdFor(s, r);
  }

  // ----- over any run ------------------------------------------------------------------------------------------

  datatype Step = Ingest(request: Request) | Remove(key: string)

  function After(s: State, step: Step): State {
    match step
    case Ingest(r) => Ingested(s, r)
    case Remove(key) => Removed(s, key)
  }

  function AfterAll(s: State, steps: seq<Step>): State {
    if steps == [] then s else After(AfterAll(s, steps[..|steps| - 1]), steps[|steps| - 1])
  }

  /** A run takes its steps one after another, in order. */
  lemma RunSteps(s: State, steps: seq<Step>, r: Request, key: string)
    ensures AfterAll(s, []) == s
    ensures AfterAll(s, steps + [Ingest(r)]) == Ingested(AfterAll(s, steps), r)
    ensures AfterAll(s, steps + [Remove(key)]) == Removed(AfterAll(s, steps), key)
  {
    assert (steps + [Ingest(r)])[..|steps|] == steps && (steps + [Remove(key)])[..|steps|] == steps;
  }

  /** No step forks an append under a stamp its chain already has: the clock's versions are fresh. */
  ghost predicate FreshStamps(s: State, steps: seq<Step>) {
    forall n :: 0 <= n < |steps| && steps[n].Ingest? ==> !StampTaken(AfterAll(s, steps[..n]), steps[n].request)
  }

  /** With fresh stamps every interleaving of fresh ingests, re-ingests, appends, forks and removals keeps
      every chain distinct and linked, and no chain ever loses or reorders a version. */
  lemma {:induction false} RunKeepsChains(s: State, steps: seq<Step>, key: string)
    requires Ok(s) && FreshStamps(s, steps)
    ensures Ok(AfterAll(s, steps))
    ensures VersionsOf(s, key) <= VersionsOf(AfterAll(s, steps), key)
  {
    if steps != [] {
      var n := |steps| - 1;
      var front := steps[..n];
      forall m | 0 <= m < n && front[m].Ingest? ensures !StampTaken(AfterAll(s, front[..m]), front[m].request) {
        assert front[..m] == steps[..m];
      }
      RunKeepsChains(s, front, key);
      var mid := AfterAll(s, front);
      match steps[n] {
        case Ingest(r) =>
          IngestKeepsChains(mid, r);
          IngestIsLocal(mid, r);
        case Remove(k) => RemoveKeepsChains(mid, k);
      }
    }
  }

  // ----- the current version of each key ------------------------------------------------------------------------

  /** A scope names facets, some with no value; `wanted` selects one version exactly. */
  type Scope = map<string, Option<string>>

  predicate FacetFits(meta: Meta, facet: string, value: string) {
    facet in meta.facets ==>
      match meta.facets[facet]
      case One(have) => have == value
      case Many(values) => value in values
  }

  predicate Fits(meta: Meta, scope: Scope, wanted: Option<string>) {
    && (forall f :: f in scope && scope[f].Some? ==> FacetFits(meta, f, scope[f].value))
    && (wanted.Some? ==> meta.version == wanted.value)
  }

  /** A facet the document does not name fits; a single value must be the one asked for, several must contain it. */
  lemma FacetExactly(meta: Meta, facet: string, value: string)
    ensures facet !in meta.facets ==> FacetFits(meta, facet, value)
    ensures facet in meta.facets && meta.facets[facet].One? ==>
              (FacetFits(meta, facet, value) <==> meta.facets[facet] == One(value))
    ensures facet in meta.facets && meta.facets[facet].Many? ==>
              (FacetFits(meta, facet, value) <==> value in meta.facets[facet].values)
  {
  }

  method FacetsMatch(meta: Meta, scope: Scope) returns (b: bool)
    ensures b <==> forall f :: f in scope && scope[f].Some? ==> FacetFits(meta, f, scope[f].value)
  {
    var left := scope.Keys;
    while left != {}
      invariant left <= scope.Keys
      invariant forall f :: f in scope.Keys - left && scope[f].Some? ==> FacetFits(meta, f, scope[f].value)
      decreases left
    {
      var f :| f in left;
      if scope[f].Some? && !FacetFits(meta, f, scope[f].value) {
        return false;
      }
      left := left - {f};
    }
    b := true;
  }

  /** The id is the last version of its key that fits. */
  ghost predicate IsCurrent(s: State, key: string, scope: Scope, wanted: Option<string>, id: DocId) {
    key in s.keys && !s.keys[key].removed && LastFitting(s, key, scope, wanted, id)
  }

  ghost predicate LastFitting(s: State, key: string, scope: Scope, wanted: Option<string>, id: DocId)
    requires key in s.keys
  {
    exists i :: 0 <= i < |s.keys[key].versions| && LastFit(s, key, scope, wanted, i, |s.keys[key].versions|)
      && s.keys[key].versions[i] == id
  }

  ghost predicate FitsAt(s: State, key: string, scope: Scope, wanted: Option<string>, i: nat)
    requires key in s.keys && i < |s.keys[key].versions|
  {
    var id := s.keys[key].versions[i];
    id in s.docs && Fits(s.docs[id].meta, scope, wanted)
  }

  ghost predicate LastFit(s: State, key: string, scope: Scope, wanted: Option<string>, i: nat, upto: nat)
    requires key in s.keys && i < upto <= |s.keys[key].versions|
  {
    && FitsAt(s, key, scope, wanted, i)
    && forall j :: i < j < upto ==> !FitsAt(s, key, scope, wanted, j)
  }

  ghost predicate NoFit(s: State, key: string, scope: Scope, wanted: Option<string>, upto: nat)
    requires key in s.keys && upto <= |s.keys[key].versions|
  {
    forall j :: 0 <= j < upto ==> !FitsAt(s, key, scope, wanted, j)
  }

  class Store {
    var order: seq<string>
    var keys: map<string, KeyEntry>
    var docs: map<DocId, Record>
    /** The key file as it was last written. */
    var saved: map<string, KeyEntry>

    constructor ()
      ensures Contents() == State([], map[], map[]) && Ok(Contents()) && saved == keys
    {
      order, keys, docs, saved := [], map[], map[], map[];
    }

    function Contents(): State
      reads this
    {
      State(order, keys, docs)
    }

    /** Enters the key if it is new, and takes back its removal. */
    method Open(key: string)
      modifies this
      ensures Contents() == Opened(old(Contents()), key) && saved == old(saved)
    {
      if key !in keys {
        order, keys := order + [key], keys[key := KeyEntry([], false)];
      }
      keys := keys[key := keys[key].(removed := false)];
    }

    method Put(key: string, id: DocId, record: Record, versions: seq<DocId>)
      modifies this
      ensures Contents() == Write(old(Contents()), key, id, record, versions) && saved == old(saved)
    {
      docs := docs[id := record];
      keys := keys[key := KeyEntry(versions, false)];
    }

    method SaveKeys()
      modifies this`saved
      ensures saved == keys
    {
      saved := keys;
    }

    /** Fresh ingest, re-ingest in place, append or fork. Only growth in place does not write the key file,
        so a store whose file was current then leaves it behind exactly when the key had been removed. */
    method IngestDocument(r: Request) returns (id: DocId)
      requires Ok(Contents())
      modifies this
      ensures Contents() == Ingested(old(Contents()), r) && id == IdFor(old(Contents()), r)
      ensures Ok(Contents()) <==> !StampTaken(old(Contents()), r)
      ensures saved == if old(GrowsInPlace(Contents(), r)) then old(saved) else keys
      ensures old(saved == keys) ==> (saved == keys <==> !old(GrowsInPlace(Contents(), r) && keys[r.key].removed))
    {
      ghost var s := Contents();
      IngestKeepsChains(s, r);
      OpenedOk(s, r.key);
      if GrowsInPlace(s, r) {
        GrowthReopens(s, r);
      }
      Open(r.key);
      var versions := keys[r.key].versions;
      if r.appendOnly && versions != [] {
        assert VersionOk(s, r.key, |versions| - 1) by { assert ChainOk(s, r.key); }
        id := AppendTo(r, s, versions[|versions| - 1]);
        return;
      }
      var version := if r.version != "" then r.version else Stamp(r.now, |versions|);
      id := DocId(r.key, version);
      if id in versions {
        var position := IndexIn(versions, id);
        Put(r.key, id, NewRecord(r, id, Predecessor(versions, position)), versions);
        SaveKeys();
        return;
      }
      var prev := if versions == [] then None else Some(versions[|versions| - 1]);
      Put(r.key, id, NewRecord(r, id, prev), versions + [id]);
      SaveKeys();
    }

    /** In-place growth, or a new version when the text does not continue the document. */
    method AppendTo(r: Request, ghost s: State, last: DocId) returns (id: DocId)
      requires Contents() == Opened(s, r.key) && r.appendOnly
      requires Latest(s, r.key) == Some(last) && last in s.docs
      modifies this
      ensures Contents() == Ingested(s, r) && id == IdFor(s, r)
      ensures saved == if GrowsInPlace(s, r) then old(saved) else keys
    {
      var versions := keys[r.key].versions;
      var known := docs[last];
      if !Extends(r.rendered, known.text) {
        id := DocId(r.key, Stamp(r.now, |versions|));
        Put(r.key, id, NewRecord(r, id, Some(last)), versions + [id]);
        SaveKeys();
        return;
      }
      id := last;
      Put(r.key, id, Record(known.meta, r.rendered, known.units + NewUnits(known.units, r.units)), versions);
    }

    method RemoveKey(key: string)
      modifies this`keys, this`saved
      ensures Contents() == Removed(old(Contents()), key)
      ensures saved == if key in old(keys) then keys else old(saved)
    {
      if key in keys {
        keys := keys[key := keys[key].(removed := true)];
        SaveKeys();
      }
    }

    /** The last version of the key that fits, if any: later versions override earlier ones. */
    method ChooseVersion(key: string, scope: Scope, wanted: Option<string>) returns (chosen: Option<DocId>)
      requires key in keys
      ensures chosen.None? ==> NoFit(Contents(), key, scope, wanted, |keys[key].versions|)
      ensures chosen.Some? ==> LastFitting(Contents(), key, scope, wanted, chosen.value)
    {
      var versions := keys[key].versions;
      chosen := None;
      ghost var at := 0;
      for n := 0 to |versions|
        invariant chosen.None? ==> NoFit(Contents(), key, scope, wanted, n)
        invariant chosen.Some? ==>
                  0 <= at < n && LastFit(Contents(), key, scope, wanted, at, n) && versions[at] == chosen.value
      {
        var id := versions[n];
        if id !in docs {
          continue;
        }
        var fits := FacetsMatch(docs[id].meta, scope);
        if !fits {
          continue;
        }
        if wanted.Some? && docs[id].meta.version != wanted.value {
          continue;
        }
        chosen, at := Some(id), n;
      }
    }

    /** In a scope: for each key that is not removed exactly its last fitting version, if it has one. */
    method CurrentDocIds(scope: Scope, wanted: Option<string>) returns (out: seq<DocId>)
      requires Ok(Contents())
      ensures forall id :: id in out <==> IsCurrent(Contents(), id.key, scope, wanted, id)
      ensures forall i, j :: 0 <= i < j < |out| ==> out[i].key != out[j].key
    {
      ghost var s := Contents();
      out := [];
      for n := 0 to |order|
        invariant forall id :: id in out <==> id.key in order[..n] && IsCurrent(s, id.key, scope, wanted, id)
        invariant forall i, j :: 0 <= i < j < |out| ==> out[i].key != out[j].key
      {
        var key := order[n];
        assert key in order && key in keys && key !in order[..n];
        assert order[..n + 1] == order[..n] + [key];
        assert ChainOk(s, key);
        ghost var before := out;
        if keys[key].removed {
          continue;
        }
        var chosen := ChooseVersion(key, scope, wanted);
        if chosen.Some? {
          ghost var i :| 0 <= i < |keys[key].versions|
            && LastFit(s, key, scope, wanted, i, |keys[key].versions|) && keys[key].versions[i] == chosen.value;
          assert VersionOk(s, key, i);
          out := out + [chosen.value];
        }
        forall id ensures id in out <==> id.key in order[..n + 1] && IsCurrent(s, id.key, scope, wanted, id) {
          if id.key == key && IsCurrent(s, key, scope, wanted, id) {
            OneCurrent(s, key, scope, wanted, id, chosen);
          }
        }
      }
      assert order[..|order|] == order;
      forall id: DocId | IsCurrent(s, id.key, scope, wanted, id) ensures id.key in order {
      }
    }
  }

  lemma OneCurrent(s: State, key: string, scope: Scope, wanted: Option<string>, id: DocId, chosen: Option<DocId>)
    requires IsCurrent(s, key, scope, wanted, id)
    requires chosen.None? ==> NoFit(s, key, scope, wanted, |s.keys[key].versions|)
    requires chosen.Some? ==> LastFitting(s, key, scope, wanted, chosen.value)
    ensures chosen == Some(id)
  {
    var n := |s.keys[key].versions|;
    var i :| 0 <= i < n && LastFit(s, key, scope, wanted, i, n) && s.keys[key].versions[i] == id;
    assert FitsAt(s, key, scope, wanted, i);
    if chosen.Some? {
      var j :| 0 <= j < n && LastFit(s, key, scope, wanted, j, n) && s.keys[key].versions[j] == chosen.value;
      assert FitsAt(s, key, scope, wanted, j);
    }
  }
}
