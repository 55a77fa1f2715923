/**
 * The memory record of the planner (`Memory`), its dictionary form, the
 * token-overlap relevance score, and the stable descending sort that ranks
 * memories by score or by timestamp.
 */
module Memories {
  import opened Wrappers
  import opened Text
  import opened PyValue
  import opened DateTimes

  /** A memory unit; `memoryType` is one of 'action', 'result', 'context', 'strategy' by convention. */
  datatype Memory = Memory(
    id: string,
    content: string,
    memoryType: string,
    timestamp: DateTime,
    relevance: real,
    metadata: map<string, Value>)

  /** `Memory.to_dict`. */
  function ToDict(m: Memory): (d: map<string, Value>)
    ensures d.Keys == {"id", "content", "memory_type", "timestamp", "relevance_score", "metadata"}
  {
    map[
      "id" := Str(m.id),
      "content" := Str(m.content),
      "memory_type" := Str(m.memoryType),
      "timestamp" := Str(IsoFormat(m.timestamp)),
      "relevance_score" := Float(m.relevance),
      "metadata" := Dict(m.metadata)]
  }

  /** `data[key]` for a field this model holds as a string; a missing key raises KeyError. */
  function RequiredStr(d: map<string, Value>, key: string): (r: Result<string>)
    ensures r.Ok? <==> key in d && d[key].Str?
    ensures r.Ok? ==> r.value == d[key].s
    ensures key !in d ==> r == Err("KeyError: '" + key + "'")
  {
    if key !in d then Err("KeyError: '" + key + "'")
    else if !d[key].Str? then Err("'" + key + "' holds a value outside this model")
    else Ok(d[key].s)
  }

  /** A relevance score as the model holds it: a float, or an int read as a number. */
  function ScoreOf(v: Value): Option<real>
  {
    match v
    case Float(x) => Some(x)
    case Int(i) => Some(i as real)
    case _ => None
  }

  /**
   * `Memory.from_dict`: the four required keys raise KeyError when missing and the
   * timestamp must parse; `relevance_score` defaults to 0.0 and `metadata` to `{}`.
   */
  function FromDict(d: map<string, Value>): (r: Result<Memory>)
    ensures r.Ok? <==>
      && "id" in d && d["id"].Str? && "content" in d && d["content"].Str?
      && "memory_type" in d && d["memory_type"].Str? && "timestamp" in d && d["timestamp"].Str?
      && FromIsoFormat(d["timestamp"].s).Ok?
      && ("relevance_score" in d ==> ScoreOf(d["relevance_score"]).Some?)
      && ("metadata" in d ==> d["metadata"].Dict?)
    ensures r.Ok? ==> (r.value.id == d["id"].s && r.value.content == d["content"].s
      && r.value.memoryType == d["memory_type"].s
      && r.value.timestamp == FromIsoFormat(d["timestamp"].s).value)
    ensures r.Ok? ==> r.value.relevance == if "relevance_score" in d then ScoreOf(d["relevance_score"]).value else 0.0
    ensures r.Ok? ==> r.value.metadata == if "metadata" in d then d["metadata"].fields else map[]
    ensures "id" !in d ==> r == Err("KeyError: 'id'")
  {
    var id := RequiredStr(d, "id");
    var content := RequiredStr(d, "content");
    var kind := RequiredStr(d, "memory_type");
    var stamp := RequiredStr(d, "timestamp");
    if id.Err? then Err(id.error)
    else if content.Err? then Err(content.error)
    else if kind.Err? then Err(kind.error)
    else if stamp.Err? then Err(stamp.error)
    else
      var ts := FromIsoFormat(stamp.value);
      var score := if "relevance_score" in d then ScoreOf(d["relevance_score"]) else Some(0.0);
      var meta := if "metadata" in d then d["metadata"] else Dict(map[]);
      if ts.Err? then Err(ts.error)
      else if score.None? || !meta.Dict? then Err("a field holds a value outside this model")
      else Ok(Memory(id.value, content.value, kind.value, ts.value, score.value, meta.fields))
  }

  /** `Memory.from_dict(m.to_dict())` reproduces every field of `m`. */
  lemma DictRoundTrip(m: Memory)
    requires Valid(m.timestamp)
    ensures FromDict(ToDict(m)) == Ok(m)
  {
    IsoRoundTrip(m.timestamp);
    var d := ToDict(m);
    assert RequiredStr(d, "id") == Ok(m.id) && RequiredStr(d, "content") == Ok(m.content);
    assert RequiredStr(d, "memory_type") == Ok(m.memoryType);
    assert RequiredStr(d, "timestamp") == Ok(IsoFormat(m.timestamp));
    assert ScoreOf(d["relevance_score"]) == Some(m.relevance);
  }

  /** The distinct elements of a sequence, Python's `set(xs)`. */
  function SetOf<T>(xs: seq<T>): set<T>
  {
    set x | x in xs
  }

  lemma {:induction false} SetOfSize<T>(xs: seq<T>)
    ensures |SetOf(xs)| <= |xs|
  {
    if xs != [] {
      SetOfSize(xs[1..]);
      assert SetOf(xs) == {xs[0]} + SetOf(xs[1..]);
    }
  }

  function Max(a: int, b: int): int { if a >= b then a else b }

  /** The tokens `retrieve` compares: `text.lower().split()`. */
  function Tokens(text: string): seq<string>
  {
    Words(Lower(text))
  }

  /**
   * The relevance of `content` to `query`:
   * |set(query tokens) ∩ set(content tokens)| / max(len(query tokens), 1).
   */
  function Score(query: string, content: string): real
  {
    var q := Tokens(query);
    (|SetOf(q) * SetOf(Tokens(content))|) as real / (Max(|q|, 1)) as real
  }

  /** A count over a larger positive count is a fraction in [0, 1], positive iff the count is. */
  lemma RatioBounds(n: nat, d: nat)
    requires 1 <= d && n <= d
    ensures 0.0 <= n as real / d as real <= 1.0
    ensures n as real / d as real > 0.0 <==> n > 0
  {
    var r := n as real / d as real;
    assert r * d as real == n as real;
  }

  /** The score lies in [0, 1], and it is positive iff the two texts share a token. */
  lemma ScoreBounds(query: string, content: string)
    ensures 0.0 <= Score(query, content) <= 1.0
    ensures Score(query, content) > 0.0 <==> exists w :: w in Tokens(query) && w in Tokens(content)
  {
    var q := Tokens(query);
    var common := SetOf(q) * SetOf(Tokens(content));
    SetOfSize(q);
    assert |common| <= |SetOf(q)| by {
      assert |SetOf(q) - SetOf(Tokens(content))| == |SetOf(q)| - |common|;
    }
    RatioBounds(|common|, Max(|q|, 1));
    if exists w :: w in q && w in Tokens(content) {
      var w :| w in q && w in Tokens(content);
      assert w in common;
    }
    if |common| > 0 {
      var w :| w in common;
    }
  }

  // ----- the stable descending sort behind `list.sort(key=..., reverse=True)` and `sorted(...)` -----

  predicate SortedDesc<T>(xs: seq<T>, key: T -> real)
  {
    forall i, j :: 0 <= i < j < |xs| ==> key(xs[i]) >= key(xs[j])
  }

  /** The elements of `xs` whose key is `v`, in order: the sub-sequence a stable sort must keep. */
  function WithKey<T>(xs: seq<T>, key: T -> real, v: real): seq<T>
  {
    if xs == [] then []
    else (if key(xs[0]) == v then [xs[0]] else []) + WithKey(xs[1..], key, v)
  }

  /** Puts `x` after every element with a strictly larger key and before the rest. */
  function InsertDesc<T>(x: T, xs: seq<T>, key: T -> real): (r: seq<T>)
  {
    if xs == [] || key(xs[0]) <= key(x) then [x] + xs
    else [xs[0]] + InsertDesc(x, xs[1..], key)
  }

  /** Stable sort by descending key. */
  function SortDesc<T>(xs: seq<T>, key: T -> real): (r: seq<T>)
  {
    if xs == [] then [] else InsertDesc(xs[0], SortDesc(xs[1..], key), key)
  }

  lemma {:induction false} InsertDescMultiset<T>(x: T, xs: seq<T>, key: T -> real)
    ensures multiset(InsertDesc(x, xs, key)) == multiset(xs) + multiset{x}
  {
    if !(xs == [] || key(xs[0]) <= key(x)) {
      InsertDescMultiset(x, xs[1..], key);
      assert xs == [xs[0]] + xs[1..];
    }
  }

  lemma {:induction false} InsertDescSorted<T>(x: T, xs: seq<T>, key: T -> real)
    requires SortedDesc(xs, key)
    ensures SortedDesc(InsertDesc(x, xs, key), key)
  {
    if !(xs == [] || key(xs[0]) <= key(x)) {
      var rest := InsertDesc(x, xs[1..], key);
      InsertDescSorted(x, xs[1..], key);
      InsertDescMultiset(x, xs[1..], key);
      var r := [xs[0]] + rest;
      forall j | 0 < j < |r| ensures key(r[0]) >= key(r[j]) {
        assert r[j] == rest[j - 1];
        assert r[j] in multiset(xs[1..]) + multiset{x};
        if r[j] != x {
          assert r[j] in xs[1..];
        }
      }
      forall i, j | 0 <= i < j < |r| ensures key(r[i]) >= key(r[j]) {
        if i > 0 { assert r[i] == rest[i - 1] && r[j] == rest[j - 1]; }
      }
    }
  }

  lemma {:induction false} InsertDescWithKey<T>(x: T, xs: seq<T>, key: T -> real, v: real)
    ensures WithKey(InsertDesc(x, xs, key), key, v) == if key(x) == v then [x] + WithKey(xs, key, v) else WithKey(xs, key, v)
  {
    if xs == [] || key(xs[0]) <= key(x) {
      assert ([x] + xs)[1..] == xs;
    } else {
      var rest := InsertDesc(x, xs[1..], key);
      InsertDescWithKey(x, xs[1..], key, v);
      assert ([xs[0]] + rest)[1..] == rest;
    }
  }

  /** The sort returns a permutation of its input. */
  lemma {:induction false} SortDescPermutation<T>(xs: seq<T>, key: T -> real)
    ensures multiset(SortDesc(xs, key)) == multiset(xs)
    ensures |SortDesc(xs, key)| == |xs|
  {
    if xs != [] {
      SortDescPermutation(xs[1..], key);
      InsertDescMultiset(xs[0], SortDesc(xs[1..], key), key);
      assert xs == [xs[0]] + xs[1..];
    }
    assert |multiset(SortDesc(xs, key))| == |SortDesc(xs, key)|;
  }

  /** The sort's output is in non-increasing key order. */
  lemma {:induction false} SortDescSorted<T>(xs: seq<T>, key: T -> real)
    ensures SortedDesc(SortDesc(xs, key), key)
  {
    if xs != [] {
      SortDescSorted(xs[1..], key);
      InsertDescSorted(xs[0], SortDesc(xs[1..], key), key);
    }
  }

  /** The sort is stable: the elements sharing any one key keep their input order. */
  lemma {:induction false} SortDescStable<T>(xs: seq<T>, key: T -> real, v: real)
    ensures WithKey(SortDesc(xs, key), key, v) == WithKey(xs, key, v)
  {
    if xs != [] {
      SortDescStable(xs[1..], key, v);
      InsertDescWithKey(xs[0], SortDesc(xs[1..], key), key, v);
    }
  }
}
