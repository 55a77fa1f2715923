/**
 * The example agent built on the SQL context retriever: it scores a query's
 * complexity by the SQL keywords it mentions, looks up a database's context
 * text and vector among the contexts available when it was made, builds the
 * SQL-generation prompt, and summarises a loaded context document.
 */
module SqlContextUsage {
  import opened Wrappers
  import opened Text
  import opened SchemaDoc
  import opened SqlContext

  // ----- analyze_query_complexity -----

  /** The keywords the complexity score counts, in the order they are reported. */
  const Keywords: seq<string> := ["join", "group by", "order by", "having", "union", "subquery"]

  /** The keywords that occur in `text`, in list order. */
  function Hits(kws: seq<string>, text: string): seq<string>
  {
    if kws == [] then [] else (if Contains(text, kws[0]) then [kws[0]] else []) + Hits(kws[1..], text)
  }

  /** `sum(1 for keyword in keywords if keyword in text)`. */
  function HitCount(kws: seq<string>, text: string): nat
  {
    if kws == [] then 0 else (if Contains(text, kws[0]) then 1 else 0) + HitCount(kws[1..], text)
  }

  /** `h` is `xs` with some elements dropped and the rest kept in order. */
  predicate Subsequence(h: seq<string>, xs: seq<string>)
  {
    h == [] || (xs != [] && ((h[0] == xs[0] && Subsequence(h[1..], xs[1..])) || Subsequence(h, xs[1..])))
  }

  /** The hits are the keywords that occur, in their order, as many as the count says. */
  lemma {:induction false} HitsFacts(kws: seq<string>, text: string)
    ensures |Hits(kws, text)| == HitCount(kws, text) <= |kws|
    ensures forall k :: k in Hits(kws, text) <==> k in kws && Contains(text, k)
    ensures Subsequence(Hits(kws, text), kws)
  {
    if kws != [] {
      HitsFacts(kws[1..], text);
      var rest := Hits(kws[1..], text);
      if Contains(text, kws[0]) {
        var h := [kws[0]] + rest;
        assert Hits(kws, text) == h;
        assert h[0] == kws[0] && h[1..] == rest;
      } else {
        assert Hits(kws, text) == rest;
      }
      forall k ensures k in kws <==> k == kws[0] || k in kws[1..] {
        assert kws == [kws[0]] + kws[1..];
      }
    }
  }

  /** The result dictionary of `analyze_query_complexity`. */
  datatype Complexity = Complexity(score: nat, isComplex: bool, detected: seq<string>)

  function AnalyzeQueryComplexity(query: string): Complexity
  {
    var text := Lower(query);
    var score := HitCount(Keywords, text);
    Complexity(score, score > 2, Hits(Keywords, text))
  }

  /**
   * The score counts the keywords the lower-cased query contains; the detected
   * list names exactly those, in list order; a query is complex above two.
   */
  lemma ComplexityFacts(query: string)
    ensures var c := AnalyzeQueryComplexity(query);
      && c.score == |c.detected| <= |Keywords|
      && (forall k :: k in c.detected <==> k in Keywords && Contains(Lower(query), k))
      && Subsequence(c.detected, Keywords)
      && (c.isComplex <==> c.score > 2)
  {
    HitsFacts(Keywords, Lower(query));
  }

  /** Matching ignores ASCII case: a query and its lower-cased form score alike. */
  lemma ComplexityIgnoresCase(query: string)
    ensures AnalyzeQueryComplexity(Lower(query)) == AnalyzeQueryComplexity(query)
  {
    LowerIdempotent(query);
  }

  // ----- the agent -----

  /** `SQLContextAgent`: the retriever and the context names listed once, when the agent is made. */
  datatype Agent = Agent(retriever: Retriever, availableContexts: seq<string>)

  function NewAgent(r: Retriever): Agent
  {
    Agent(r, ListAvailableContexts(r))
  }

  /** `get_database_context`: nothing for a name not listed, else the saved context text, if any. */
  function GetDatabaseContext(a: Agent, db: string): Option<string>
  {
    if db !in a.availableContexts then None else GetContextText(a.retriever, db)
  }

  /** `get_database_embedding`: nothing for a name not listed, else the loaded vector, if any. */
  function GetDatabaseEmbedding(a: Agent, db: string): Option<seq<real>>
  {
    if db !in a.availableContexts then None else GetEmbedding(a.retriever, db)
  }

  /** `list_available_databases`. */
  function ListAvailableDatabases(a: Agent): seq<string>
  {
    a.availableContexts
  }

  /**
   * For an agent made from a retriever, the text and the vector are found
   * exactly for loaded contexts that have them; an unloaded name finds neither.
   */
  lemma LookupsNeedLoadedContext(r: Retriever, db: string)
    requires Valid(r)
    ensures GetContext(r, db).None? ==>
      GetDatabaseContext(NewAgent(r), db) == None && GetDatabaseEmbedding(NewAgent(r), db) == None
    ensures GetContext(r, db).Some? ==>
      GetDatabaseContext(NewAgent(r), db) == GetContextText(r, db)
      && GetDatabaseEmbedding(NewAgent(r), db) == GetEmbedding(r, db)
    ensures db in ListAvailableDatabases(NewAgent(r)) <==> GetContext(r, db).Some?
  {
    AvailableIffLoaded(r, db);
  }

  // ----- generate_sql_with_context -----

  const PromptOpening := "\n        数据库上下文信息:\n        "
  const QueryLabel := "\n        \n        用户查询: "
  const ScoreLabel := "\n        查询复杂度: "
  const PromptClosing := "\n        \n        请基于上述数据库结构信息生成对应的SQL查询。\n        注意：\n        1. 确保使用正确的表名和字段名\n        2. 注意表间关系和主外键约束\n        3. 优化查询性能\n        "

  /** The score line and the closing instructions. */
  function ScoreTail(score: nat): string
  {
    ScoreLabel + NatToString(score) + PromptClosing
  }

  /** The prompt the agent would hand to a model: the context, the query and its score. */
  function Prompt(context: string, query: string, score: nat): string
  {
    PromptOpening + context + QueryLabel + query + ScoreTail(score)
  }

  /** The prompt opens with the context heading and quotes the context and the query. */
  lemma PromptFacts(context: string, query: string, score: nat)
    ensures StartsWith(Prompt(context, query, score), PromptOpening + context)
    ensures Contains(Prompt(context, query, score), context)
    ensures Contains(Prompt(context, query, score), query)
  {
    Framed(PromptOpening, context, QueryLabel, query, ScoreTail(score));
  }

  /** A text built as `a + x + b + y + c` starts with `a + x` and contains `x` and `y`. */
  lemma Framed(a: string, x: string, b: string, y: string, c: string)
    ensures StartsWith(a + x + b + y + c, a + x)
    ensures Contains(a + x + b + y + c, x)
    ensures Contains(a + x + b + y + c, y)
  {
    var tail := b + y + c;
    assert a + x + b + y + c == a + x + tail;
    StartsWithConcat(a + x, tail);
    ContainsConcat(a, x, tail);
    ContainsConcat(a + x + b, y, c);
  }

  /** The success result of `generate_sql_with_context`. */
  datatype Suggestion = Suggestion(
    prompt: string,
    complexity: Complexity,
    contextLength: nat,
    suggestedSql: string,
    explanation: string)

  const SuggestedSql := "-- 这里应该是生成的SQL查询"
  const Explanation := "基于数据库上下文，建议的SQL查询解释"

  function MissingContext(db: string): string
  {
    "数据库 " + db + " 的上下文不存在"
  }

  /** `generate_sql_with_context`; `success: False` with its `error` is `Err`. */
  function GenerateSqlWithContext(a: Agent, query: string, db: string): Result<Suggestion>
  {
    var context := GetDatabaseContext(a, db);
    if context.None? || context.value == "" then Err(MissingContext(db))
    else
      var complexity := AnalyzeQueryComplexity(query);
      Ok(Suggestion(Prompt(context.value, query, complexity.score), complexity, |context.value|,
                    SuggestedSql, Explanation))
  }

  /**
   * Generation fails, naming the database, exactly when there is no context
   * text or it is empty; otherwise the prompt quotes the context and the query
   * and the result reports the query's complexity and the context's length.
   */
  lemma GenerateSqlFacts(a: Agent, query: string, db: string)
    ensures var r := GenerateSqlWithContext(a, query, db);
      var context := GetDatabaseContext(a, db);
      && (r.Err? <==> context.None? || context.value == "")
      && (r.Err? ==> r.error == MissingContext(db))
      && (r.Ok? ==> (r.value.contextLength == |context.value| > 0
        && r.value.complexity == AnalyzeQueryComplexity(query)
        && Contains(r.value.prompt, context.value) && Contains(r.value.prompt, query)
        && r.value.suggestedSql == SuggestedSql && r.value.explanation == Explanation))
  {
    var context := GetDatabaseContext(a, db);
    if context.Some? && context.value != "" {
      PromptFacts(context.value, query, AnalyzeQueryComplexity(query).score);
    }
  }

  /** An unlisted database never gets a suggestion. */
  lemma UnlistedDatabaseFails(a: Agent, query: string, db: string)
    requires db !in a.availableContexts
    ensures GenerateSqlWithContext(a, query, db) == Err(MissingContext(db))
  {
  }

  // ----- get_database_summary -----

  /** The summary dictionary; an absent key of the document is `None`. */
  datatype Summary = Summary(
    dbName: Option<string>,
    tablesCount: nat,
    businessSummary: Option<string>,
    createdAt: Option<string>,
    tableNames: seq<string>)

  /** `get_database_summary`: nothing for a missing or empty document; it asks the retriever directly. */
  function GetDatabaseSummary(a: Agent, db: string): Option<Summary>
  {
    var doc := GetContext(a.retriever, db);
    if IsEmpty(doc) then None
    else
      var tables := doc.value.tables.GetOr([]);
      Some(Summary(doc.value.dbName, |tables|, doc.value.businessSummary, doc.value.createdAt,
                   seq(|tables|, i requires 0 <= i < |tables| => tables[i].tableName)))
  }

  /**
   * A summary exists exactly for a loaded, non-empty document; it counts the
   * document's tables, names them in order, and copies the name, the business
   * summary and the creation time.
   */
  lemma SummaryFacts(a: Agent, db: string)
    ensures GetDatabaseSummary(a, db).None? <==> IsEmpty(GetContext(a.retriever, db))
    ensures GetDatabaseSummary(a, db).None? <==> (GetContext(a.retriever, db).None? ||
      var doc := GetContext(a.retriever, db).value;
      doc.dbName.None? && doc.dbPath.None? && doc.tables.None? && doc.businessSummary.None?
      && doc.createdAt.None? && doc.otherKeys == {})
    ensures GetDatabaseSummary(a, db).Some? ==>
      var s, doc := GetDatabaseSummary(a, db).value, GetContext(a.retriever, db).value;
      var tables := if doc.tables.Some? then doc.tables.value else [];
      && s.tablesCount == |tables| == |s.tableNames|
      && (forall i :: 0 <= i < |tables| ==> s.tableNames[i] == tables[i].tableName)
      && s.dbName == doc.dbName && s.businessSummary == doc.businessSummary && s.createdAt == doc.createdAt
  {
    if GetContext(a.retriever, db).Some? {
      EmptyIffNoKeys(GetContext(a.retriever, db).value);
    }
  }

  /** For an agent made from a retriever, a summarised database is one the agent lists. */
  lemma SummaryIsListed(r: Retriever, db: string)
    requires Valid(r)
    ensures GetDatabaseSummary(NewAgent(r), db).Some? ==> db in ListAvailableDatabases(NewAgent(r))
  {
    AvailableIffLoaded(r, db);
  }
}
