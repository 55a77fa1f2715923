/**
 * `InMemoryStore`: an append-only list of memories with keyword retrieval
 * (which overwrites the relevance of every memory it finds relevant) and
 * recency listing.
 */
module MemoryStores {
  import opened Wrappers
  import opened Text
  import opened DateTimes
  import opened Memories

  /** `if memory_type:` — a missing or empty type selects every memory. */
  predicate TypeSelected(m: Memory, memoryType: Option<string>)
  {
    memoryType.None? || memoryType.value == "" || m.memoryType == memoryType.value
  }

  /** A memory `retrieve` finds relevant: of the requested type and sharing a token with the query. */
  predicate Eligible(m: Memory, query: string, memoryType: Option<string>)
  {
    TypeSelected(m, memoryType) && Score(query, m.content) > 0.0
  }

  /** `m` as `retrieve` leaves it: eligible memories carry their new score. */
  function Rescore(m: Memory, query: string, memoryType: Option<string>): Memory
  {
    if Eligible(m, query, memoryType) then m.(relevance := Score(query, m.content)) else m
  }

  /** The store after a `retrieve`. */
  function Rescored(ms: seq<Memory>, query: string, memoryType: Option<string>): (r: seq<Memory>)
    ensures |r| == |ms|
  {
    seq(|ms|, i requires 0 <= i < |ms| => Rescore(ms[i], query, memoryType))
  }

  /** The eligible memories with their new scores, in store order: what `retrieve` sorts. */
  function Relevant(ms: seq<Memory>, query: string, memoryType: Option<string>): seq<Memory>
  {
    if ms == [] then []
    else
      var last := ms[|ms| - 1];
      Relevant(ms[..|ms| - 1], query, memoryType)
      + (if Eligible(last, query, memoryType) then [Rescore(last, query, memoryType)] else [])
  }

  function RelevanceOf(m: Memory): real { m.relevance }

  function TimeOf(m: Memory): real { Ordinal(m.timestamp) as real }

  /** What `retrieve(query, top_k, memory_type)` returns for a store holding `ms`. */
  function RetrieveResult(ms: seq<Memory>, query: string, topK: int, memoryType: Option<string>): seq<Memory>
  {
    PyTake(SortDesc(Relevant(ms, query, memoryType), RelevanceOf), topK)
  }

  /** The memories of the requested type, in store order. */
  function Selected(ms: seq<Memory>, memoryType: Option<string>): (r: seq<Memory>)
    ensures |r| <= |ms|
    ensures forall m :: m in r ==> m in ms && TypeSelected(m, memoryType)
  {
    if ms == [] then []
    else (if TypeSelected(ms[0], memoryType) then [ms[0]] else []) + Selected(ms[1..], memoryType)
  }

  class InMemoryStore {
    var memories: seq<Memory>

    constructor ()
      ensures memories == []
    {
      memories := [];
    }

    /** `store`: appends and reports success. */
    method Store(m: Memory) returns (ok: bool)
      modifies this
      ensures ok
      ensures memories == old(memories) + [m]
    {
      memories := memories + [m];
      ok := true;
    }

    /** `retrieve`: scores every memory of the requested type, keeps the positive ones, sorts them by score and truncates. */
    method Retrieve(query: string, topK: int, memoryType: Option<string>) returns (r: seq<Memory>)
      modifies this
      ensures memories == Rescored(old(memories), query, memoryType)
      ensures r == RetrieveResult(old(memories), query, topK, memoryType)
    {
      var rescored, relevant := ScoreAll(memories, query, memoryType);
      memories := rescored;
      r := PyTake(SortDesc(relevant, RelevanceOf), topK);
    }

    /** `get_recent_memories`: the requested type, newest first, at most `limit` (Python slice semantics). */
    function RecentMemories(limit: int, memoryType: Option<string>): seq<Memory>
      reads this
    {
      PyTake(SortDesc(Selected(memories, memoryType), TimeOf), limit)
    }

    /** `clear`: empties the store and reports success. */
    method Clear() returns (ok: bool)
      modifies this
      ensures ok && memories == []
    {
      memories := [];
      ok := true;
    }
  }

  /**
   * The scoring loop of `retrieve`: overwrites the relevance of each eligible memory in place
   * and collects the eligible ones, in store order.
   */
  method ScoreAll(ms: seq<Memory>, query: string, memoryType: Option<string>) returns (rescored: seq<Memory>, relevant: seq<Memory>)
    ensures rescored == Rescored(ms, query, memoryType)
    ensures relevant == Relevant(ms, query, memoryType)
  {
    rescored := ms;
    relevant := [];
    var i := 0;
    assert ms[..0] == [] && ms[0..] == ms;
    while i < |rescored|
      invariant 0 <= i <= |ms| == |rescored|
      invariant rescored == Rescored(ms[..i], query, memoryType) + ms[i..]
      invariant relevant == Relevant(ms[..i], query, memoryType)
    {
      ghost var before := rescored;
      var m := rescored[i];
      assert m == ms[i];
      if TypeSelected(m, memoryType) {
        var score := Score(query, m.content);
        if score > 0.0 {
          rescored := rescored[i := m.(relevance := score)];
          relevant := relevant + [rescored[i]];
        }
      }
      RescoredSnoc(ms, query, memoryType, i, before, rescored);
      RelevantSnoc(ms, query, memoryType, i);
      i := i + 1;
    }
    assert ms[..i] == ms && ms[i..] == [];
  }

  /** Rescoring memory `i` in place extends the rescored prefix by one. */
  lemma RescoredSnoc(ms: seq<Memory>, query: string, memoryType: Option<string>, i: nat,
                     before: seq<Memory>, after: seq<Memory>)
    requires i < |ms|
    requires before == Rescored(ms[..i], query, memoryType) + ms[i..]
    requires after == before[i := Rescore(ms[i], query, memoryType)]
    ensures after == Rescored(ms[..i + 1], query, memoryType) + ms[i + 1..]
  {
    var r := Rescored(ms[..i + 1], query, memoryType) + ms[i + 1..];
    assert |after| == |r|;
    forall j | 0 <= j < |r| ensures after[j] == r[j] {
      if j < i { assert after[j] == before[j]; }
      else if j > i { assert after[j] == ms[j]; }
    }
  }

  /** One more memory of the store adds at most itself, rescored, to the relevant ones. */
  lemma RelevantSnoc(ms: seq<Memory>, query: string, memoryType: Option<string>, i: nat)
    requires i < |ms|
    ensures Relevant(ms[..i + 1], query, memoryType) == Relevant(ms[..i], query, memoryType)
      + (if Eligible(ms[i], query, memoryType) then [Rescore(ms[i], query, memoryType)] else [])
  {
    assert ms[..i + 1][..i] == ms[..i];
  }

  /** Each relevant memory is an eligible stored memory, rescored, and carries its own positive score. */
  lemma {:induction false} RelevantSound(ms: seq<Memory>, query: string, memoryType: Option<string>)
    ensures forall m :: m in Relevant(ms, query, memoryType) ==>
      m in Rescored(ms, query, memoryType) && TypeSelected(m, memoryType)
      && m.relevance == Score(query, m.content) > 0.0
  {
    if ms != [] {
      var init := ms[..|ms| - 1];
      RelevantSound(init, query, memoryType);
      var ri := Rescored(init, query, memoryType);
      var r := Rescored(ms, query, memoryType);
      forall m | m in ri ensures m in r {
        var j :| 0 <= j < |ri| && ri[j] == m;
        assert r[j] == m;
      }
      assert r[|ms| - 1] == Rescore(ms[|ms| - 1], query, memoryType);
    }
  }

  /** Every eligible stored memory, rescored, is relevant. */
  lemma {:induction false} RelevantComplete(ms: seq<Memory>, query: string, memoryType: Option<string>, i: nat)
    requires i < |ms| && Eligible(ms[i], query, memoryType)
    ensures Rescore(ms[i], query, memoryType) in Relevant(ms, query, memoryType)
    decreases |ms|
  {
    var n := |ms| - 1;
    var init := ms[..n];
    var tail := if Eligible(ms[n], query, memoryType) then [Rescore(ms[n], query, memoryType)] else [];
    assert Relevant(ms, query, memoryType) == Relevant(init, query, memoryType) + tail;
    if i < n {
      assert init[i] == ms[i];
      RelevantComplete(init, query, memoryType, i);
    } else {
      assert i == n;
      assert tail == [Rescore(ms[i], query, memoryType)];
    }
  }

  /**
   * `retrieve` returns at most `top_k` memories (for `top_k >= 0`), each of the requested type
   * with a positive score equal to its recorded relevance, in non-increasing score order,
   * and a prefix of the stable ranking: memories with equal scores keep their store order.
   */
  lemma RetrieveFacts(ms: seq<Memory>, query: string, topK: int, memoryType: Option<string>)
    ensures var r := RetrieveResult(ms, query, topK, memoryType);
      && (topK >= 0 ==> |r| <= topK)
      && (forall m :: m in r ==>
            m in Rescored(ms, query, memoryType) && TypeSelected(m, memoryType)
            && m.relevance == Score(query, m.content) > 0.0)
      && SortedDesc(r, RelevanceOf)
      && r <= SortDesc(Relevant(ms, query, memoryType), RelevanceOf)
      && forall v :: WithKey(SortDesc(Relevant(ms, query, memoryType), RelevanceOf), RelevanceOf, v)
                   == WithKey(Relevant(ms, query, memoryType), RelevanceOf, v)
  {
    var rel := Relevant(ms, query, memoryType);
    var sorted := SortDesc(rel, RelevanceOf);
    RelevantSound(ms, query, memoryType);
    SortDescPermutation(rel, RelevanceOf);
    SortDescSorted(rel, RelevanceOf);
    forall v ensures WithKey(sorted, RelevanceOf, v) == WithKey(rel, RelevanceOf, v) {
      SortDescStable(rel, RelevanceOf, v);
    }
    var r := RetrieveResult(ms, query, topK, memoryType);
    forall m | m in r ensures m in rel {
      assert m in multiset(sorted);
    }
  }

  /** Every eligible memory is ranked: with a large enough `top_k`, none is lost. */
  lemma RetrieveComplete(ms: seq<Memory>, query: string, topK: int, memoryType: Option<string>, i: nat)
    requires i < |ms| && Eligible(ms[i], query, memoryType)
    requires topK >= |ms|
    ensures Rescore(ms[i], query, memoryType) in RetrieveResult(ms, query, topK, memoryType)
  {
    var rel := Relevant(ms, query, memoryType);
    RelevantComplete(ms, query, memoryType, i);
    SortDescPermutation(rel, RelevanceOf);
    RelevantLength(ms, query, memoryType);
    assert Rescore(ms[i], query, memoryType) in multiset(SortDesc(rel, RelevanceOf));
  }

  lemma {:induction false} RelevantLength(ms: seq<Memory>, query: string, memoryType: Option<string>)
    ensures |Relevant(ms, query, memoryType)| <= |ms|
  {
    if ms != [] { RelevantLength(ms[..|ms| - 1], query, memoryType); }
  }

  /** `retrieve` changes nothing of a stored memory but its relevance. */
  lemma RescoredKeepsContent(ms: seq<Memory>, query: string, memoryType: Option<string>)
    ensures forall i :: 0 <= i < |ms| ==>
      Rescored(ms, query, memoryType)[i] == ms[i].(relevance := Rescored(ms, query, memoryType)[i].relevance)
  {
  }

  /**
   * `get_recent_memories` returns at most `limit` memories (for `limit >= 0`), all stored and of the
   * requested type, newest first, memories with equal timestamps in store order.
   */
  lemma RecentFacts(ms: seq<Memory>, limit: int, memoryType: Option<string>)
    ensures var r := PyTake(SortDesc(Selected(ms, memoryType), TimeOf), limit);
      && (limit >= 0 ==> |r| <= limit)
      && (forall m :: m in r ==> m in ms && TypeSelected(m, memoryType))
      && SortedDesc(r, TimeOf)
      && forall v :: WithKey(SortDesc(Selected(ms, memoryType), TimeOf), TimeOf, v) == WithKey(Selected(ms, memoryType), TimeOf, v)
  {
    var sel := Selected(ms, memoryType);
    SortDescPermutation(sel, TimeOf);
    SortDescSorted(sel, TimeOf);
    forall v ensures WithKey(SortDesc(sel, TimeOf), TimeOf, v) == WithKey(sel, TimeOf, v) {
      SortDescStable(sel, TimeOf, v);
    }
    var r := PyTake(SortDesc(sel, TimeOf), limit);
    forall m | m in r ensures m in sel {
      assert m in multiset(SortDesc(sel, TimeOf));
    }
  }
}
