/** Conversation identity for stateless clients (assoc/facade.py:35-58): a request belongs to the session
    whose stored turns are its longest prefix. */
module SessionTable {
  import opened Common

  datatype SessionId = SessionId(name: string)

  /** A turn is known by a fingerprint of its role and content. */
  datatype Message = Message(role: string, content: string)

  type Log = seq<Message>

  predicate IsTurn(m: Message) {
    m.role == "user" || m.role == "assistant"
  }

  /** The turns of a request; system and tool messages do not count. */
  function Fingerprints(messages: seq<Message>): Log {
    Filter(messages, IsTurn)
  }

  /** A message of the user or the assistant is one more turn, any other changes nothing, wherever it comes. */
  lemma OnlyTurnsCount(messages: seq<Message>, m: Message)
    ensures Fingerprints(messages + [m])
         == Fingerprints(messages) + if m.role in {"user", "assistant"} then [m] else []
  {
    FilterSnoc(messages, m, IsTurn);
  }

  /** A non-empty stored log that the request starts with. */
  ghost predicate Matches(turns: map<SessionId, Log>, fps: Log, id: SessionId) {
    id in turns && turns[id] != [] && turns[id] <= fps
  }

  /** The session a request belongs to: the longest match, or a fresh one if nothing matches. */
  ghost predicate Chosen(turns: map<SessionId, Log>, fps: Log, id: SessionId) {
    if exists x :: Matches(turns, fps, x) then
      Matches(turns, fps, id) && forall x :: Matches(turns, fps, x) ==> |turns[x]| <= |turns[id]|
    else
      id !in turns
  }

  /** No two sessions hold the same non-empty turn log. */
  ghost predicate LogsDiffer(turns: map<SessionId, Log>) {
    forall a, b :: a in turns && b in turns && a != b && turns[a] != [] ==> turns[a] != turns[b]
  }

  lemma ChosenKeepsDiffer(turns: map<SessionId, Log>, fps: Log, id: SessionId)
    requires LogsDiffer(turns) && Chosen(turns, fps, id)
    ensures LogsDiffer(turns[id := fps])
  {
    forall a | a in turns && a != id && fps != [] ensures turns[a] != fps {
      assert turns[a] == fps ==> Matches(turns, fps, a);
    }
  }

  class Sessions {
    var order: seq<SessionId>
    var turns: map<SessionId, Log>

    ghost predicate Valid()
      reads this
    {
      && Distinct(order) && (forall id :: id in order <==> id in turns)
      && LogsDiffer(turns)
    }

    constructor ()
      ensures Valid() && turns == map[]
    {
      order, turns := [], map[];
    }

    /** Finds the request's session, or opens the given unused one, and stores the request's turns there. */
    method Resolve(messages: seq<Message>, unused: SessionId) returns (id: SessionId)
      requires Valid() && unused !in turns
      modifies this
      ensures Valid() && Chosen(old(turns), Fingerprints(messages), id) && (id in old(turns) || id == unused)
      ensures turns == old(turns)[id := Fingerprints(messages)]
    {
      var fps := Fingerprints(messages);
      var best: Option<SessionId>, bestLen := None, -1;
      for i := 0 to |order|
        invariant best.None? ==> bestLen == -1 && forall j :: 0 <= j < i ==> !Matches(turns, fps, order[j])
        invariant best.Some? ==> Matches(turns, fps, best.value) && bestLen == |turns[best.value]|
        invariant best.Some? ==> forall j :: 0 <= j < i && Matches(turns, fps, order[j]) ==>
                  |turns[order[j]]| <= bestLen
      {
        var stored := turns[order[i]];
        var n := Min(|stored|, |fps|);
        if n != 0 && stored[..n] == fps[..n] && n > bestLen && |stored| <= |fps| {
          assert stored[..n] == stored;
          best, bestLen := Some(order[i]), n;
        } else if Matches(turns, fps, order[i]) {
          assert stored[..n] == stored == fps[..n];
        }
      }
      forall x | Matches(turns, fps, x) ensures exists j :: 0 <= j < |order| && order[j] == x {
        assert x in order;
      }
      id := if best.Some? then best.value else unused;
      assert Chosen(turns, fps, id);
      ChosenKeepsDiffer(turns, fps, id);
      if best.None? {
        order := order + [id];
      }
      turns := turns[id := fps];
    }
  }

  // ----- repeating and extending a conversation ------------------------------------------------------------

  /** Over any sequence of requests, each answered as `Chosen` says, logs stay different. */
  ghost predicate Run(tables: seq<map<SessionId, Log>>, requests: seq<Log>, ids: seq<SessionId>) {
    && |tables| == |requests| + 1 == |ids| + 1 && tables[0] == map[]
    && forall n :: 0 <= n < |requests| ==>
         Chosen(tables[n], requests[n], ids[n]) && tables[n + 1] == tables[n][ids[n] := requests[n]]
  }

  lemma {:induction false} RunKeepsDiffer(tables: seq<map<SessionId, Log>>, requests: seq<Log>, ids: seq<SessionId>,
                                          n: nat)
    requires Run(tables, requests, ids) && n <= |requests|
    ensures LogsDiffer(tables[n])
  {
    if n > 0 {
      RunKeepsDiffer(tables, requests, ids, n - 1);
      ChosenKeepsDiffer(tables[n - 1], requests[n - 1], ids[n - 1]);
    }
  }

  /** Another session already holds more of the longer request than was asked before. */
  ghost predicate Overtaken(turns: map<SessionId, Log>, fps: Log, longer: Log, id: SessionId) {
    exists x :: x != id && Matches(turns, longer, x) && |turns[x]| > |fps|
  }

  /** A request that extends a non-empty earlier one of the same session, whatever came in between for
      other sessions, is given that session exactly when no other already holds a longer part of it. */
  lemma ExtendingStays(turns: map<SessionId, Log>, id: SessionId, fps: Log, longer: Log, next: SessionId)
    requires LogsDiffer(turns) && id in turns && turns[id] == fps && fps != [] && fps <= longer
    requires Chosen(turns, longer, next)
    ensures next == id <==> !Overtaken(turns, fps, longer, id)
  {
    assert Matches(turns, longer, id);
    assert |turns[next]| == |fps| ==> turns[next] == longer[..|fps|];
  }

  /** Repeating a non-empty request gives the same session. */
  lemma RepeatingStays(turns: map<SessionId, Log>, fps: Log, id: SessionId, next: SessionId)
    requires LogsDiffer(turns) && Chosen(turns, fps, id) && fps != []
    requires Chosen(turns[id := fps], fps, next)
    ensures next == id
  {
    ChosenKeepsDiffer(turns, fps, id);
    ExtendingStays(turns[id := fps], id, fps, fps, next);
  }
}
