/** The two-row edit distance of assoc/senses.py, what it measures, and the sound bridges that
    prefilter their candidates by length before paying for it. */
module EditDistance {
  import opened Common

  // ----- the reference: recursion on the last letters -------------------------------------

  function Differs(x: char, y: char): nat {
    if x == y then 0 else 1
  }

  function Least3(a: int, b: int, c: int): int {
    Min(a, Min(b, c))
  }

  function Distance(a: string, b: string): nat
    decreases |a| + |b|
  {
    if a == "" then |b|
    else if b == "" then |a|
    else
      var a', b' := a[..|a| - 1], b[..|b| - 1];
      Least3(Distance(a', b) + 1, Distance(a, b') + 1, Distance(a', b') + Differs(a[|a| - 1], b[|b| - 1]))
  }

  lemma {:induction false} DistanceSymmetric(a: string, b: string)
    ensures Distance(a, b) == Distance(b, a)
    decreases |a| + |b|
  {
    if a != "" && b != "" {
      DistanceSymmetric(a[..|a| - 1], b);
      DistanceSymmetric(a, b[..|b| - 1]);
      DistanceSymmetric(a[..|a| - 1], b[..|b| - 1]);
    }
  }

  lemma {:induction false} DistanceAtLeastLengthGap(a: string, b: string)
    ensures Distance(a, b) >= |a| - |b| && Distance(a, b) >= |b| - |a|
    decreases |a| + |b|
  {
    if a != "" && b != "" {
      DistanceAtLeastLengthGap(a[..|a| - 1], b);
      DistanceAtLeastLengthGap(a, b[..|b| - 1]);
      DistanceAtLeastLengthGap(a[..|a| - 1], b[..|b| - 1]);
    }
  }

  lemma {:induction false} DistanceZero(a: string, b: string)
    ensures Distance(a, b) == 0 <==> a == b
    decreases |a| + |b|
  {
    if a != "" && b != "" {
      var a', b' := a[..|a| - 1], b[..|b| - 1];
      DistanceZero(a', b');
      assert a == a' + [a[|a| - 1]] && b == b' + [b[|b| - 1]];
    }
  }

  lemma {:induction false} DistanceTriangle(a: string, b: string, c: string)
    ensures Distance(a, c) <= Distance(a, b) + Distance(b, c)
    decreases |a| + |b| + |c|
  {
    if a == "" {
      DistanceAtLeastLengthGap(b, c);
    } else if c == "" {
      DistanceAtLeastLengthGap(a, b);
    } else if b == "" {
      DistanceTriangle(a[..|a| - 1], b, c);
    } else {
      var a', b', c' := a[..|a| - 1], b[..|b| - 1], c[..|c| - 1];
      if Distance(a, b) == Distance(a', b) + 1 {
        DistanceTriangle(a', b, c);
      } else if Distance(b, c) == Distance(b, c') + 1 {
        DistanceTriangle(a, b, c');
      } else if Distance(a, b) == Distance(a, b') + 1 {
        if Distance(b, c) == Distance(b', c) + 1 {
          DistanceTriangle(a, b', c);
        } else {
          DistanceTriangle(a, b', c');
        }
      } else if Distance(b, c) == Distance(b', c) + 1 {
        DistanceTriangle(a', b', c);
      } else {
        DistanceTriangle(a', b', c');
      }
    }
  }

  // ----- what the number means: the fewest single-letter edits -----------------------------

  /** t is s with one letter inserted, deleted or replaced at position i. */
  ghost predicate EditAt(s: string, t: string, i: nat) {
    || (i <= |s| && |t| == |s| + 1 && t[..i] == s[..i] && t[i + 1..] == s[i..])
    || (i <= |t| && |s| == |t| + 1 && s[..i] == t[..i] && s[i + 1..] == t[i..])
    || (i < |s| && |t| == |s| && t[..i] == s[..i] && t[i + 1..] == s[i + 1..])
  }

  ghost predicate SingleEdit(s: string, t: string) {
    exists i: nat :: EditAt(s, t, i)
  }

  ghost predicate EditChain(chain: seq<string>, a: string, b: string) {
    && |chain| > 0 && chain[0] == a && chain[|chain| - 1] == b
    && forall i :: 0 <= i < |chain| - 1 ==> SingleEdit(chain[i], chain[i + 1])
  }

  lemma {:induction false} CommonSuffix(a: string, b: string, tail: string)
    ensures Distance(a + tail, b + tail) <= Distance(a, b)
    decreases |tail|
  {
    if tail == "" {
      assert a + tail == a && b + tail == b;
    } else {
      var n := |tail| - 1;
      assert (a + tail)[..|a| + n] == a + tail[..n];
      assert (b + tail)[..|b| + n] == b + tail[..n];
      CommonSuffix(a, b, tail[..n]);
    }
  }

  lemma InsertionCostsOne(front: string, c: char, tail: string)
    ensures Distance(front + tail, front + [c] + tail) <= 1 && Distance(front + [c] + tail, front + tail) <= 1
  {
    DistanceZero(front, front);
    assert (front + [c])[..|front|] == front;
    CommonSuffix(front, front + [c], tail);
    CommonSuffix(front + [c], front, tail);
  }

  lemma ReplacementCostsOne(front: string, c: char, d: char, tail: string)
    ensures Distance(front + [c] + tail, front + [d] + tail) <= 1
  {
    DistanceZero(front, front);
    assert (front + [c])[..|front|] == front && (front + [d])[..|front|] == front;
    CommonSuffix(front + [c], front + [d], tail);
  }

  lemma SingleEditCostsOne(s: string, t: string)
    requires SingleEdit(s, t)
    ensures Distance(s, t) <= 1
  {
    var i: nat :| EditAt(s, t, i);
    if |t| == |s| + 1 {
      assert s == s[..i] + s[i..] && t == s[..i] + [t[i]] + s[i..];
      InsertionCostsOne(s[..i], t[i], s[i..]);
    } else if |s| == |t| + 1 {
      assert t == t[..i] + t[i..] && s == t[..i] + [s[i]] + t[i..];
      InsertionCostsOne(t[..i], s[i], t[i..]);
    } else {
      assert s == s[..i] + [s[i]] + s[i + 1..] && t == s[..i] + [t[i]] + s[i + 1..];
      ReplacementCostsOne(s[..i], s[i], t[i], s[i + 1..]);
    }
  }

  /** No chain of single edits is shorter than the distance. */
  lemma {:induction false} NoShorterChain(chain: seq<string>, a: string, b: string)
    requires EditChain(chain, a, b)
    ensures |chain| - 1 >= Distance(a, b)
    decreases |chain|
  {
    if |chain| == 1 {
      DistanceZero(a, b);
    } else {
      var n := |chain| - 1;
      NoShorterChain(chain[..n], a, chain[n - 1]);
      assert SingleEdit(chain[n - 1], chain[n - 1 + 1]);
      SingleEditCostsOne(chain[n - 1], b);
      DistanceTriangle(a, chain[n - 1], b);
    }
  }

  /** And one chain is exactly that long. */
  lemma {:induction false} ShortestChain(a: string, b: string) returns (chain: seq<string>)
    ensures EditChain(chain, a, b) && |chain| - 1 == Distance(a, b)
    decreases |a| + |b|
  {
    if a == "" && b == "" {
      chain := [a];
    } else if b == "" || (a != "" && Distance(a, b) == Distance(a[..|a| - 1], b) + 1) {
      var a' := a[..|a| - 1];
      var rest := ShortestChain(a', b);
      assert EditAt(a, a', |a| - 1);
      chain := [a] + rest;
    } else if a == "" || Distance(a, b) == Distance(a, b[..|b| - 1]) + 1 {
      var b' := b[..|b| - 1];
      var rest := ShortestChain(a, b');
      assert EditAt(b', b, |b| - 1);
      chain := rest + [b];
    } else {
      chain := ReplacingChain(a, b);
    }
  }

  function Suffixed(chain: seq<string>, x: char): seq<string> {
    seq(|chain|, i requires 0 <= i < |chain| => chain[i] + [x])
  }

  /** A chain stays a chain behind a common last character. */
  lemma SuffixedChain(chain: seq<string>, a: string, b: string, x: char)
    requires EditChain(chain, a, b)
    ensures EditChain(Suffixed(chain, x), a + [x], b + [x])
  {
    var longer := Suffixed(chain, x);
    forall i | 0 <= i < |longer| - 1 ensures SingleEdit(longer[i], longer[i + 1]) {
      assert SingleEdit(chain[i], chain[i + 1]);
      EditUnderSuffix(chain[i], chain[i + 1], x);
    }
  }

  lemma ChainExtended(chain: seq<string>, a: string, b: string, c: string)
    requires EditChain(chain, a, b) && SingleEdit(b, c)
    ensures EditChain(chain + [c], a, c)
  {
    var longer := chain + [c];
    forall i | 0 <= i < |longer| - 1 ensures SingleEdit(longer[i], longer[i + 1]) {
      assert i < |chain| - 1 ==> SingleEdit(chain[i], chain[i + 1]);
    }
  }

  lemma {:induction false} ReplacingChain(a: string, b: string) returns (chain: seq<string>)
    requires a != "" && b != ""
    requires Distance(a, b) == Distance(a[..|a| - 1], b[..|b| - 1]) + Differs(a[|a| - 1], b[|b| - 1])
    ensures EditChain(chain, a, b) && |chain| - 1 == Distance(a, b)
    decreases |a| + |b|, 0
  {
    var a', b', x, y := a[..|a| - 1], b[..|b| - 1], a[|a| - 1], b[|b| - 1];
    var rest := ShortestChain(a', b');
    assert a == a' + [x] && b == b' + [y];
    chain := ReplaceLast(rest, a', b', x, y);
  }

  lemma ReplaceLast(rest: seq<string>, a: string, b: string, x: char, y: char) returns (chain: seq<string>)
    requires EditChain(rest, a, b)
    ensures EditChain(chain, a + [x], b + [y]) && |chain| == |rest| + Differs(x, y)
  {
    chain := Suffixed(rest, x);
    SuffixedChain(rest, a, b, x);
    if x != y {
      assert EditAt(b + [x], b + [y], |b|);
      ChainExtended(chain, a + [x], b + [x], b + [y]);
      chain := chain + [b + [y]];
    }
  }

  lemma EditUnderSuffix(s: string, t: string, x: char)
    requires SingleEdit(s, t)
    ensures SingleEdit(s + [x], t + [x])
  {
    var i: nat :| EditAt(s, t, i);
    var s', t' := s + [x], t + [x];
    assert i <= |s| ==> s'[..i] == s[..i] && s'[i..] == s[i..] + [x];
    assert i <= |t| ==> t'[..i] == t[..i] && t'[i..] == t[i..] + [x];
    assert i < |s| ==> s'[i + 1..] == s[i + 1..] + [x];
    assert i < |t| ==> t'[i + 1..] == t[i + 1..] + [x];
    assert EditAt(s', t', i);
  }

  // ----- the two-row loop ----------------------------------------------------------------

  lemma DistanceStep(a: string, b: string, i: nat, j: nat)
    requires i < |a| && j < |b|
    ensures Distance(a[..i + 1], b[..j + 1])
         == Least3(Distance(a[..i], b[..j + 1]) + 1, Distance(a[..i + 1], b[..j]) + 1,
                   Distance(a[..i], b[..j]) + Differs(a[i], b[j]))
  {
    assert a[..i + 1][..i] == a[..i] && b[..j + 1][..j] == b[..j];
  }

  /** The row holds the distances of a to the prefixes of b, up to one length. */
  ghost predicate RowOk(row: seq<nat>, a: string, b: string, upto: nat) {
    && |row| == upto + 1 && upto <= |b|
    && forall k :: 0 <= k <= upto ==> row[k] == Distance(a, b[..k])
  }

  lemma FirstRow(b: string)
    ensures RowOk(seq(|b| + 1, j => j), "", b, |b|)
  {
    assert forall j :: 0 <= j <= |b| ==> |b[..j]| == j;
  }

  function NextEntry(a: string, b: string, i: nat, j: nat, prev: seq<nat>, cur: seq<nat>): nat
    requires i < |a| && j < |b| && |prev| == |b| + 1 && |cur| == j + 1
  {
    Least3(prev[j + 1] + 1, cur[j] + 1, prev[j] + Differs(a[i], b[j]))
  }

  lemma EntryFits(a: string, b: string, i: nat, j: nat, prev: seq<nat>, cur: seq<nat>)
    requires i < |a| && j < |b| && RowOk(prev, a[..i], b, |b|) && RowOk(cur, a[..i + 1], b, j)
    ensures RowOk(cur + [NextEntry(a, b, i, j, prev, cur)], a[..i + 1], b, j + 1)
  {
    DistanceStep(a, b, i, j);
  }

  /** The inner loop: from the distances of a[..i] to those of a[..i + 1]. */
  method NextRow(a: string, b: string, i: nat, prev: seq<nat>) returns (cur: seq<nat>)
    requires i < |a| && RowOk(prev, a[..i], b, |b|)
    ensures RowOk(cur, a[..i + 1], b, |b|)
  {
    cur := [i + 1];
    assert b[..0] == "";
    for j := 0 to |b|
      invariant RowOk(cur, a[..i + 1], b, j)
    {
      EntryFits(a, b, i, j, prev, cur);
      cur := cur + [Least3(prev[j + 1] + 1, cur[j] + 1, prev[j] + Differs(a[i], b[j]))];
    }
  }

  /** One row at a time, only two of them kept: the last entry is the distance. */
  method Edit(a: string, b: string) returns (d: nat)
    ensures d == Distance(a, b)
  {
    var prev: seq<nat> := seq(|b| + 1, j => j);
    FirstRow(b);
    assert a[..0] == "";
    for i := 0 to |a|
      invariant RowOk(prev, a[..i], b, |b|)
    {
      prev := NextRow(a, b, i, prev);
    }
    assert a[..|a|] == a && b[..|b|] == b;
    d := prev[|b|];
  }

  // ----- sound bridges ---------------------------------------------------------------------

  const SOUND_MIN_LEN := 5
  const SOUND_MAX_EDIT := 2
  const RHYME_MIN := 3
  const ROOT_MIN_PREFIX := 5
  const LENGTH_SLACK := 3

  datatype Script = Latin | Cyrillic | Other

  datatype Lexicon = Lexicon(
    lower: string -> string, script: string -> Script,
    transliterate: string -> string, lemmas: string -> set<string>)

  datatype BridgeKind = Rhyme | Near | Transliteration
  datatype Bridge = Bridge(target: string, strength: real, kind: BridgeKind)

  function Spelling(lex: Lexicon, w: string): string {
    if lex.script(w) == Cyrillic then lex.transliterate(w) else w
  }

  predicate CrossScript(lex: Lexicon, w: string, v: string) {
    (lex.script(w), lex.script(v)) in {(Cyrillic, Latin), (Latin, Cyrillic)}
  }

  predicate SharesStem(w: string, v: string)
    requires |w| >= SOUND_MIN_LEN && |v| >= SOUND_MIN_LEN
  {
    w[..ROOT_MIN_PREFIX] == v[..ROOT_MIN_PREFIX]
  }

  predicate Rhymes(w: string, v: string)
    requires |w| >= SOUND_MIN_LEN && |v| >= SOUND_MIN_LEN
  {
    w[|w| - RHYME_MIN..] == v[|v| - RHYME_MIN..] && w[..|w| - RHYME_MIN] != v[..|v| - RHYME_MIN]
  }

  predicate SameLemma(lex: Lexicon, w: string, v: string) {
    lex.lemmas(w) * lex.lemmas(v) != {}
  }

  predicate Eligible(w: string, v: string) {
    |w| >= SOUND_MIN_LEN && |v| >= SOUND_MIN_LEN && v != w
  }

  /** The three tests as the documentation words them, with no regard to length. */
  predicate RhymeTest(lex: Lexicon, w: string, v: string) {
    Eligible(w, v) && lex.script(v) == lex.script(w) && !SharesStem(w, v) && Rhymes(w, v) && !SameLemma(lex, w, v)
  }

  predicate NearTest(lex: Lexicon, w: string, v: string) {
    && Eligible(w, v) && lex.script(v) == lex.script(w) && !SharesStem(w, v) && !Rhymes(w, v)
    && Distance(w, v) <= SOUND_MAX_EDIT && !SameLemma(lex, w, v)
  }

  predicate TransliterationTest(lex: Lexicon, w: string, v: string) {
    && Eligible(w, v) && CrossScript(lex, w, v)
    && Distance(Spelling(lex, w), Spelling(lex, v)) <= SOUND_MAX_EDIT
  }

  function Gap(w: string, v: string): nat {
    if |w| < |v| then |v| - |w| else |w| - |v|
  }

  function Closeness(w: string, v: string): real
    requires |w| > 0 || |v| > 0
  {
    1.0 - Distance(w, v) as real / Max(|w|, |v|) as real
  }

  /** What the source offers: the rhyme test is the one the length prefilter narrows. */
  predicate Accepted(lex: Lexicon, w: string, b: Bridge) {
    match b.kind
    case Near =>
      NearTest(lex, w, b.target) && b.strength == Closeness(w, b.target)
    case Transliteration =>
      && TransliterationTest(lex, w, b.target)
      && b.strength == Closeness(Spelling(lex, w), Spelling(lex, b.target))
    case Rhyme =>
      && RhymeTest(lex, w, b.target) && Gap(w, b.target) <= LENGTH_SLACK
      && b.strength == RHYME_MIN as real / Max(|w|, |b.target|) as real + 0.3
  }

  /** The words part within their first five letters. */
  ghost predicate StemsPart(w: string, v: string) {
    exists i :: 0 <= i < 5 && i < |w| && i < |v| && w[i] != v[i]
  }

  /** The last three letters are the same. */
  ghost predicate EndAlike(w: string, v: string) {
    forall i, j :: 0 <= i < |w| && 0 <= j < |v| && |w| - i == |v| - j <= 3 ==> w[i] == v[j]
  }

  ghost predicate CommonLemma(lex: Lexicon, w: string, v: string) {
    exists l :: l in lex.lemmas(w) && l in lex.lemmas(v)
  }

  /** What is offered, letter by letter: another word of five letters or more; of the same script, with another stem
      and no lemma in common, that ends alike and is at most three letters longer or shorter, or that does not end
      alike and is within two edits; or of the other script, within two edits once both are spelled in Latin. */
  lemma AcceptedExactly(lex: Lexicon, w: string, b: Bridge)
    requires |w| >= SOUND_MIN_LEN
    ensures Accepted(lex, w, b) <==>
            && |b.target| >= 5 && b.target != w
            && var v := b.target;
               match b.kind
               case Rhyme =>
                 && lex.script(v) == lex.script(w) && StemsPart(w, v) && EndAlike(w, v) && !CommonLemma(lex, w, v)
                 && |v| <= |w| + 3 && |w| <= |v| + 3
                 && b.strength == 3.0 / Max(|w|, |v|) as real + 0.3
               case Near =>
                 && lex.script(v) == lex.script(w) && StemsPart(w, v) && !EndAlike(w, v) && !CommonLemma(lex, w, v)
                 && Distance(w, v) <= 2 && b.strength == Closeness(w, v)
               case Transliteration =>
                 if lex.script(w) == Cyrillic then
                   && lex.script(v) == Latin && Distance(lex.transliterate(w), v) <= 2
                   && b.strength == Closeness(lex.transliterate(w), v)
                 else
                   && lex.script(w) == Latin && lex.script(v) == Cyrillic && Distance(w, lex.transliterate(v)) <= 2
                   && b.strength == Closeness(w, lex.transliterate(v))
  {
    if |b.target| >= SOUND_MIN_LEN && b.target != w {
      StemExactly(w, b.target);
      EndExactly(w, b.target);
      assert SameLemma(lex, w, b.target) <==> CommonLemma(lex, w, b.target) by {
        if l :| l in lex.lemmas(w) && l in lex.lemmas(b.target) {
          assert l in lex.lemmas(w) * lex.lemmas(b.target);
        }
      }
    }
  }

  lemma StemExactly(w: string, v: string)
    requires |w| >= SOUND_MIN_LEN && |v| >= SOUND_MIN_LEN
    ensures SharesStem(w, v) <==> !StemsPart(w, v)
  {
    var a, c := w[..ROOT_MIN_PREFIX], v[..ROOT_MIN_PREFIX];
    assert a == c <==> forall i :: 0 <= i < 5 ==> a[i] == c[i];
  }

  lemma EndExactly(w: string, v: string)
    requires |w| >= SOUND_MIN_LEN && |v| >= SOUND_MIN_LEN && w != v
    ensures Rhymes(w, v) <==> EndAlike(w, v)
  {
    var m, n := |w| - RHYME_MIN, |v| - RHYME_MIN;
    assert w == w[..m] + w[m..] && v == v[..n] + v[n..];
    if EndAlike(w, v) {
      assert forall k :: 0 <= k < 3 ==> w[m..][k] == w[m + k] == v[n + k] == v[n..][k];
    }
    if w[m..] == v[n..] {
      forall i, j | 0 <= i < |w| && 0 <= j < |v| && |w| - i == |v| - j <= 3 ensures w[i] == v[j] {
        assert w[m..][i - m] == v[n..][j - n];
      }
    }
  }

  /** One candidate through the source's branches, in the source's order. */
  method Classify(lex: Lexicon, w: string, v: string) returns (out: Option<Bridge>)
    requires |w| >= SOUND_MIN_LEN
    ensures forall b: Bridge :: b.target == v ==> (Accepted(lex, w, b) <==> out == Some(b))
    ensures out.Some? ==> out.value.target == v
  {
    out := None;
    if v == w || |v| < SOUND_MIN_LEN {
      return;
    }
    DistanceAtLeastLengthGap(w, v);
    DistanceAtLeastLengthGap(Spelling(lex, w), Spelling(lex, v));
    if lex.script(v) == lex.script(w) {
      if Gap(w, v) > LENGTH_SLACK {
        return;
      }
      if SharesStem(w, v) {
        return;
      }
      if Rhymes(w, v) {
        if SameLemma(lex, w, v) {
          return;
        }
        return Some(Bridge(v, RHYME_MIN as real / Max(|w|, |v|) as real + 0.3, Rhyme));
      }
      var d := Edit(w, v);
      if d <= SOUND_MAX_EDIT && !SameLemma(lex, w, v) {
        return Some(Bridge(v, 1.0 - d as real / Max(|w|, |v|) as real, Near));
      }
    } else if CrossScript(lex, w, v) {
      var tw, tv := Spelling(lex, w), Spelling(lex, v);
      if Gap(tw, tv) > SOUND_MAX_EDIT {
        return;
      }
      var d := Edit(tw, tv);
      if d <= SOUND_MAX_EDIT {
        return Some(Bridge(v, 1.0 - d as real / Max(|tw|, |tv|) as real, Transliteration));
      }
    }
  }

  /** The whole vocabulary: exactly the accepted bridges, from strong to weak. By the two edit
      tests inside `Accepted`, no length prefilter has cost a near or transliterated word. */
  method SoundBridges(lex: Lexicon, word: string, vocabulary: seq<string>) returns (bridges: seq<Bridge>)
    ensures |lex.lower(word)| < SOUND_MIN_LEN ==> bridges == []
    ensures |lex.lower(word)| >= SOUND_MIN_LEN ==>
              forall b :: b in bridges <==> b.target in vocabulary && Accepted(lex, lex.lower(word), b)
    ensures forall i, j :: 0 <= i < j < |bridges| ==> bridges[i].strength >= bridges[j].strength
  {
    var w := lex.lower(word);
    var out := [];
    if |w| < SOUND_MIN_LEN {
      return out;
    }
    for n := 0 to |vocabulary|
      invariant forall b :: b in out <==> b.target in vocabulary[..n] && Accepted(lex, w, b)
    {
      assert vocabulary[..n + 1] == vocabulary[..n] + [vocabulary[n]];
      var found := Classify(lex, w, vocabulary[n]);
      if found.Some? {
        out := out + [found.value];
      }
    }
    assert vocabulary[..|vocabulary|] == vocabulary;
    var weakness := (b: Bridge) => -b.strength;
    bridges := StableSort(out, weakness);
    StableSortElems(out, weakness);
    forall i, j | 0 <= i < j < |bridges| ensures bridges[i].strength >= bridges[j].strength {
      assert weakness(bridges[i]) <= weakness(bridges[j]);
    }
  }

  /** The length prefilters lose no pair the edit tests would accept. */
  lemma PrefiltersAreSafe(lex: Lexicon, w: string, v: string)
    ensures NearTest(lex, w, v) ==> Gap(w, v) <= LENGTH_SLACK
    ensures TransliterationTest(lex, w, v) ==> Gap(Spelling(lex, w), Spelling(lex, v)) <= SOUND_MAX_EDIT
  {
    DistanceAtLeastLengthGap(w, v);
    DistanceAtLeastLengthGap(Spelling(lex, w), Spelling(lex, v));
  }

  predicate SomeTest(lex: Lexicon, w: string, v: string) {
    RhymeTest(lex, w, v) || NearTest(lex, w, v) || TransliterationTest(lex, w, v)
  }

  /** A pair one of the tests takes is dropped if and only if it is a rhyme of too different length. */
  lemma DroppedExactly(lex: Lexicon, w: string, v: string)
    ensures SomeTest(lex, w, v) && (forall b: Bridge :: b.target == v ==> !Accepted(lex, w, b))
       <==> RhymeTest(lex, w, v) && Gap(w, v) > LENGTH_SLACK
  {
    if NearTest(lex, w, v) {
      assert Accepted(lex, w, Bridge(v, Closeness(w, v), Near));
    }
    if TransliterationTest(lex, w, v) {
      assert Accepted(lex, w, Bridge(v, Closeness(Spelling(lex, w), Spelling(lex, v)), Transliteration));
    }
    if RhymeTest(lex, w, v) && Gap(w, v) <= LENGTH_SLACK {
      assert Accepted(lex, w, Bridge(v, RHYME_MIN as real / Max(|w|, |v|) as real + 0.3, Rhyme));
    }
  }

  /** A rhyme is not an edit test: the same prefilter does drop rhymes of very different length. */
  lemma PrefilterDropsARhyme(lex: Lexicon)
    requires lex.script("nation") == lex.script("appreciation") == Latin
    requires lex.lemmas("nation") == {"nation"} && lex.lemmas("appreciation") == {"appreciation"}
    ensures RhymeTest(lex, "nation", "appreciation") && Gap("nation", "appreciation") > LENGTH_SLACK
  {
    var w, v := "nation", "appreciation";
    assert w[..5] == "natio" && v[..5] == "appre" && w[0] != v[0];
    assert w[3..] == "ion" && v[9..] == "ion";
    assert |w[..3]| != |v[..9]|;
    assert "nation" !in {v};
  }
}
