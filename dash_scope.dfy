/**
 * What the DashScope generation API hands back, as the two model wrappers see
 * it: a plain reply with a status code, or a stream of chunks each carrying a
 * content fragment and a reasoning fragment. The call itself is not modelled;
 * its outcome is an input.
 */
module DashScope {
  import opened Wrappers

  /** One streamed chunk: `message.content` and `message.reasoning_content` of its first choice. */
  datatype Chunk = Chunk(content: string, reasoning: string)

  /** The outcome of a non-streaming call: a response with a status code, or the exception the call raised. */
  datatype Reply =
    | Response(statusCode: int, content: string, message: string)
    | Raised(error: string)

  /** The outcome of a streaming call: the chunks delivered, and the exception that ended the stream, if any. */
  datatype Stream = Stream(chunks: seq<Chunk>, failure: Option<string>)

  /** Every content fragment, in order (empty fragments add nothing). */
  function Contents(cs: seq<Chunk>): string
  {
    if cs == [] then "" else Contents(cs[..|cs| - 1]) + cs[|cs| - 1].content
  }

  /** The reasoning of every chunk without content, in order: reasoning that arrives beside content is dropped. */
  function Thinking(cs: seq<Chunk>): string
  {
    if cs == [] then ""
    else Thinking(cs[..|cs| - 1]) + (if cs[|cs| - 1].content == "" then cs[|cs| - 1].reasoning else "")
  }

  /** The non-empty content fragments, one per chunk that has one: the tokens streamed to a callback. */
  function Tokens(cs: seq<Chunk>): seq<string>
  {
    if cs == [] then []
    else Tokens(cs[..|cs| - 1]) + (if cs[|cs| - 1].content != "" then [cs[|cs| - 1].content] else [])
  }

  function Concat(parts: seq<string>): string
  {
    if parts == [] then "" else Concat(parts[..|parts| - 1]) + parts[|parts| - 1]
  }

  lemma {:induction false} ConcatAppend(a: seq<string>, b: seq<string>)
    ensures Concat(a + b) == Concat(a) + Concat(b)
    decreases |b|
  {
    if b == [] {
      assert a + b == a;
    } else {
      var n := |b| - 1;
      ConcatAppend(a, b[..n]);
      assert (a + b)[..|a + b| - 1] == a + b[..n];
    }
  }

  /** The streamed tokens are never empty and together make up the answer. */
  lemma {:induction false} TokensMakeContents(cs: seq<Chunk>)
    ensures forall t :: t in Tokens(cs) ==> t != ""
    ensures Concat(Tokens(cs)) == Contents(cs)
  {
    if cs != [] {
      var init, last := cs[..|cs| - 1], cs[|cs| - 1];
      TokensMakeContents(init);
      var piece := if last.content != "" then [last.content] else [];
      ConcatAppend(Tokens(init), piece);
      assert Concat(piece) == last.content by {
        if piece != [] {
          assert piece[..0] == [];
        }
      }
    }
  }

  /** Folding a stream in two parts is folding each part and joining the results. */
  lemma FoldAppend(a: seq<Chunk>, b: seq<Chunk>)
    ensures Contents(a + b) == Contents(a) + Contents(b)
    ensures Thinking(a + b) == Thinking(a) + Thinking(b)
    ensures Tokens(a + b) == Tokens(a) + Tokens(b)
  {
    ContentsAppend(a, b);
    ThinkingAppend(a, b);
    TokensAppend(a, b);
  }

  lemma {:induction false} ContentsAppend(a: seq<Chunk>, b: seq<Chunk>)
    ensures Contents(a + b) == Contents(a) + Contents(b)
    decreases |b|
  {
    if b == [] {
      assert a + b == a;
    } else {
      var n := |b| - 1;
      var ab := a + b;
      assert ab[..|ab| - 1] == a + b[..n];
      assert ab[|ab| - 1] == b[n];
      ContentsAppend(a, b[..n]);
      assert Contents(ab) == Contents(a + b[..n]) + b[n].content;
      assert Contents(b) == Contents(b[..n]) + b[n].content;
    }
  }

  lemma {:induction false} ThinkingAppend(a: seq<Chunk>, b: seq<Chunk>)
    ensures Thinking(a + b) == Thinking(a) + Thinking(b)
    decreases |b|
  {
    if b == [] {
      assert a + b == a;
    } else {
      var n := |b| - 1;
      var ab := a + b;
      assert ab[..|ab| - 1] == a + b[..n];
      assert ab[|ab| - 1] == b[n];
      ThinkingAppend(a, b[..n]);
      var piece := if b[n].content == "" then b[n].reasoning else "";
      assert Thinking(ab) == Thinking(a + b[..n]) + piece;
      assert Thinking(b) == Thinking(b[..n]) + piece;
    }
  }

  lemma {:induction false} TokensAppend(a: seq<Chunk>, b: seq<Chunk>)
    ensures Tokens(a + b) == Tokens(a) + Tokens(b)
    decreases |b|
  {
    if b == [] {
      assert a + b == a;
    } else {
      var n := |b| - 1;
      var ab := a + b;
      assert ab[..|ab| - 1] == a + b[..n];
      assert ab[|ab| - 1] == b[n];
      TokensAppend(a, b[..n]);
      var piece := if b[n].content != "" then [b[n].content] else [];
      assert Tokens(ab) == Tokens(a + b[..n]) + piece;
      assert Tokens(b) == Tokens(b[..n]) + piece;
    }
  }

  /** Chunks whose content and reasoning are both empty change nothing. */
  lemma BlankChunkIgnored(cs: seq<Chunk>)
    ensures Contents(cs + [Chunk("", "")]) == Contents(cs)
    ensures Thinking(cs + [Chunk("", "")]) == Thinking(cs)
    ensures Tokens(cs + [Chunk("", "")]) == Tokens(cs)
  {
    var ds := cs + [Chunk("", "")];
    assert ds[..|ds| - 1] == cs;
  }
}
