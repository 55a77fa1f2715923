/**
 * The document-level logic of the financial knowledge manager: the SQL context
 * document it loads (the JSON form of a database context), the chunks it cuts
 * from it for the vector index, table lookup, the table list and the summary text.
 * The vector index itself is not part of this module.
 */
module Knowledge {
  import opened Wrappers
  import opened Text
  import opened PyValue
  import opened SchemaDoc

  /** One chunk handed to the index; `columnName`/`dataType` are present on column chunks only. */
  datatype Chunk = Chunk(
    content: string,
    tableName: string,
    description: string,
    columnName: Option<string>,
    dataType: Option<string>)

  /** The knowledge manager as the factory builds it. */
  datatype KnowledgeManager = KnowledgeManager(collectionName: string, dimension: nat, contextData: Option<ContextDoc>)

  /** The document's tables when it has any to offer: not empty and holding the `tables` key. */
  function TablesOf(doc: Option<ContextDoc>): Option<seq<DocTable>>
  {
    if IsEmpty(doc) then None else doc.value.tables
  }

  /** The chunk that describes a table. */
  function DescriptionChunk(name: string, description: string): Chunk
  {
    Chunk("表名: " + name + "\n业务描述: " + description, name, description, None, None)
  }

  /** The chunk that describes one column of a table. */
  function ColumnChunk(name: string, c: DocColumn): Chunk
  {
    Chunk("表 " + name + " 的字段 " + c.name + "，类型为 " + c.colType, name,
      "字段 " + c.name + " 的类型为 " + c.colType, Some(c.name), Some(c.colType))
  }

  /** The chunk that describes a table's sample data. */
  function SampleChunk(name: string, sample: DocSample): Chunk
  {
    Chunk("表 " + name + " 的示例数据:\n" + "字段: " + Join(", ", sample.columns) + "\n"
      + "示例行数: " + NatToString(|sample.rows|),
      name, "表 " + name + " 的示例数据", None, None)
  }

  function ColumnChunks(name: string, cs: seq<DocColumn>): seq<Chunk>
  {
    seq(|cs|, k requires 0 <= k < |cs| => ColumnChunk(name, cs[k]))
  }

  /** `'sample_data' in table and table['sample_data'].get('rows')`. */
  predicate HasSample(t: DocTable)
  {
    t.sampleData.Some? && t.sampleData.value.rows != []
  }

  /** The chunks of one table: its description, its columns in order, then its sample data when it has rows. */
  function TableChunks(t: DocTable): seq<Chunk>
  {
    [DescriptionChunk(t.tableName, t.businessDescription.GetOr(""))]
    + ColumnChunks(t.tableName, t.columns.GetOr([]))
    + (if HasSample(t) then [SampleChunk(t.tableName, t.sampleData.value)] else [])
  }

  /** The chunks of several tables, table after table in document order. */
  function TablesChunks(ts: seq<DocTable>): seq<Chunk>
  {
    if ts == [] then [] else TablesChunks(ts[..|ts| - 1]) + TableChunks(ts[|ts| - 1])
  }

  /** What `_generate_context_chunks` returns for a document. */
  function ContextChunks(doc: Option<ContextDoc>): seq<Chunk>
  {
    match TablesOf(doc)
    case None => []
    case Some(ts) => TablesChunks(ts)
  }

  /** `_generate_context_chunks`: a pass over the tables with an inner pass over each table's columns. */
  method GenerateContextChunks(doc: Option<ContextDoc>) returns (chunks: seq<Chunk>)
    ensures chunks == ContextChunks(doc)
  {
    chunks := [];
    if IsEmpty(doc) || doc.value.tables.None? {
      return;
    }
    var tables := doc.value.tables.value;
    var i := 0;
    while i < |tables|
      invariant 0 <= i <= |tables|
      invariant chunks == TablesChunks(tables[..i])
    {
      var table := tables[i];
      var name := table.tableName;
      ghost var before := chunks;
      chunks := chunks + [DescriptionChunk(name, table.businessDescription.GetOr(""))];
      var columnChunks := ColumnPass(name, table.columns.GetOr([]));
      chunks := chunks + columnChunks;
      if table.sampleData.Some? && table.sampleData.value.rows != [] {
        chunks := chunks + [SampleChunk(name, table.sampleData.value)];
      }
      assert chunks == before + TableChunks(table);
      assert tables[..i + 1][..i] == tables[..i];
      assert TablesChunks(tables[..i + 1]) == TablesChunks(tables[..i]) + TableChunks(table);
      i := i + 1;
    }
    assert tables[..i] == tables;
  }

  /** The inner loop of `_generate_context_chunks`: one chunk per column, in column order. */
  method ColumnPass(name: string, columns: seq<DocColumn>) returns (chunks: seq<Chunk>)
    ensures chunks == ColumnChunks(name, columns)
  {
    chunks := [];
    var j := 0;
    while j < |columns|
      invariant 0 <= j <= |columns|
      invariant chunks == ColumnChunks(name, columns[..j])
    {
      assert ColumnChunks(name, columns[..j + 1]) == ColumnChunks(name, columns[..j]) + [ColumnChunk(name, columns[j])];
      chunks := chunks + [ColumnChunk(name, columns[j])];
      j := j + 1;
    }
    assert columns[..j] == columns;
  }

  /** How many chunks a table yields: 1 + #columns + [rows non-empty]. */
  function ChunkCountOf(t: DocTable): nat
  {
    1 + |t.columns.GetOr([])| + (if HasSample(t) then 1 else 0)
  }

  function TotalChunks(ts: seq<DocTable>): nat
  {
    if ts == [] then 0 else TotalChunks(ts[..|ts| - 1]) + ChunkCountOf(ts[|ts| - 1])
  }

  /** The number of chunks is the sum over the tables of 1 + #columns + [rows non-empty]. */
  lemma {:induction false} ChunkCount(ts: seq<DocTable>)
    ensures |TablesChunks(ts)| == TotalChunks(ts)
    ensures |TablesChunks(ts)| >= |ts|
  {
    if ts != [] {
      ChunkCount(ts[..|ts| - 1]);
    }
  }

  /** Chunking distributes over concatenation of the table list. */
  lemma {:induction false} TablesChunksAppend(a: seq<DocTable>, b: seq<DocTable>)
    ensures TablesChunks(a + b) == TablesChunks(a) + TablesChunks(b)
    decreases |b|
  {
    if b == [] {
      assert a + b == a;
    } else {
      var c, last := b[..|b| - 1], b[|b| - 1];
      var ab := a + b;
      assert ab[..|ab| - 1] == a + c;
      assert ab[|ab| - 1] == last;
      assert TablesChunks(ab) == TablesChunks(a + c) + TableChunks(last);
      assert TablesChunks(b) == TablesChunks(c) + TableChunks(last);
      TablesChunksAppend(a, c);
    }
  }

  /** Table `k`'s chunks sit, as one block, right after the chunks of the tables before it. */
  lemma TableBlock(ts: seq<DocTable>, k: nat)
    requires k < |ts|
    ensures TablesChunks(ts) == TablesChunks(ts[..k]) + TableChunks(ts[k]) + TablesChunks(ts[k + 1..])
    ensures |TablesChunks(ts[..k])| == TotalChunks(ts[..k])
  {
    assert ts == ts[..k] + [ts[k]] + ts[k + 1..];
    TablesChunksAppend(ts[..k] + [ts[k]], ts[k + 1..]);
    TablesChunksAppend(ts[..k], [ts[k]]);
    assert TablesChunks([ts[k]]) == TableChunks(ts[k]) by {
      assert [ts[k]][..0] == [];
    }
    ChunkCount(ts[..k]);
  }

  /** Inside a table's block: the description first, then column `j` at `1 + j`, then the sample chunk iff there are rows. */
  lemma TableChunksFacts(t: DocTable)
    ensures var cs := TableChunks(t); var cols := t.columns.GetOr([]);
      && |cs| == ChunkCountOf(t)
      && cs[0].tableName == t.tableName && cs[0].columnName.None?
      && cs[0].description == t.businessDescription.GetOr("")
      && Contains(cs[0].content, t.tableName)
      && (forall j :: 0 <= j < |cols| ==>
            cs[1 + j].tableName == t.tableName && cs[1 + j].columnName == Some(cols[j].name) && cs[1 + j].dataType == Some(cols[j].colType))
      && (HasSample(t) <==> |cs| == 2 + |cols|)
      && (HasSample(t) ==> cs[|cs| - 1] == SampleChunk(t.tableName, t.sampleData.value))
  {
    var cols := t.columns.GetOr([]);
    var head := [DescriptionChunk(t.tableName, t.businessDescription.GetOr(""))];
    var body := ColumnChunks(t.tableName, cols);
    var tail := if HasSample(t) then [SampleChunk(t.tableName, t.sampleData.value)] else [];
    var cs := TableChunks(t);
    assert cs == head + body + tail;
    assert |cs| == 1 + |cols| + |tail|;
    forall j | 0 <= j < |cols|
      ensures cs[1 + j] == ColumnChunk(t.tableName, cols[j])
    {
      assert cs[1 + j] == body[j];
    }
    if HasSample(t) {
      assert cs[|cs| - 1] == tail[0];
    }
    ContainsConcat("表名: ", t.tableName, "\n业务描述: " + t.businessDescription.GetOr(""));
    assert "表名: " + t.tableName + ("\n业务描述: " + t.businessDescription.GetOr(""))
      == cs[0].content;
  }

  /** Every chunk names one of the document's tables. */
  lemma {:induction false} ChunksNameListedTables(ts: seq<DocTable>)
    ensures forall c :: c in TablesChunks(ts) ==> exists t :: t in ts && c.tableName == t.tableName
  {
    if ts != [] {
      var init, last := ts[..|ts| - 1], ts[|ts| - 1];
      ChunksNameListedTables(init);
      forall c | c in TablesChunks(ts) ensures exists t :: t in ts && c.tableName == t.tableName {
        if c in TablesChunks(init) {
          var t :| t in init && c.tableName == t.tableName;
          assert t in ts;
        } else {
          assert c in TableChunks(last);
          assert c.tableName == last.tableName;
        }
      }
    }
  }

  /** No chunks exactly when there is no document, no `tables` key, or no tables. */
  lemma NoChunks(doc: Option<ContextDoc>)
    ensures ContextChunks(doc) == [] <==> TablesOf(doc).None? || TablesOf(doc).value == []
  {
    if TablesOf(doc).Some? {
      ChunkCount(TablesOf(doc).value);
    }
  }

  /** The first chunk is the first table's description and names that table. */
  lemma FirstChunkNamesTable(doc: Option<ContextDoc>)
    requires TablesOf(doc).Some? && TablesOf(doc).value != []
    ensures var t := TablesOf(doc).value[0]; var c := ContextChunks(doc)[0];
      c.tableName == t.tableName && Contains(c.content, t.tableName)
  {
    var ts := TablesOf(doc).value;
    TableBlock(ts, 0);
    TableChunksFacts(ts[0]);
    assert TablesChunks(ts[..0]) == [];
  }

  /** `list_tables`. */
  function ListTables(doc: Option<ContextDoc>): (r: seq<string>)
    ensures TablesOf(doc).None? ==> r == []
    ensures TablesOf(doc).Some? ==>
      (|r| == |TablesOf(doc).value| && forall i :: 0 <= i < |r| ==> r[i] == TablesOf(doc).value[i].tableName)
  {
    match TablesOf(doc)
    case None => []
    case Some(ts) => seq(|ts|, i requires 0 <= i < |ts| => ts[i].tableName)
  }

  /** The first table called `name`, if any. */
  function FindTable(ts: seq<DocTable>, name: string): (r: Option<DocTable>)
    ensures r.None? <==> forall t :: t in ts ==> t.tableName != name
    ensures r.Some? ==> r.value.tableName == name
    ensures r.Some? ==>
      (exists i :: 0 <= i < |ts| && ts[i] == r.value && forall j :: 0 <= j < i ==> ts[j].tableName != name)
  {
    if ts == [] then None
    else if ts[0].tableName == name then Some(ts[0])
    else
      var r := FindTable(ts[1..], name);
      if r.Some? then
        var i :| 0 <= i < |ts[1..]| && ts[1..][i] == r.value && forall j :: 0 <= j < i ==> ts[1..][j].tableName != name;
        assert ts[i + 1] == r.value;
        r
      else
        r
  }

  /** `get_table_schema`. */
  function GetTableSchema(doc: Option<ContextDoc>, name: string): Option<DocTable>
  {
    match TablesOf(doc)
    case None => None
    case Some(ts) => FindTable(ts, name)
  }

  /** A table is found exactly when its name is listed. */
  lemma SchemaIffListed(doc: Option<ContextDoc>, name: string)
    ensures GetTableSchema(doc, name).Some? <==> name in ListTables(doc)
    ensures GetTableSchema(doc, name).Some? ==> GetTableSchema(doc, name).value.tableName == name
  {
    if TablesOf(doc).Some? {
      var ts := TablesOf(doc).value;
      var names := ListTables(doc);
      if name in names {
        var i :| 0 <= i < |names| && names[i] == name;
        assert ts[i] in ts;
      }
      if FindTable(ts, name).Some? {
        var i :| 0 <= i < |ts| && ts[i] == FindTable(ts, name).value && forall j :: 0 <= j < i ==> ts[j].tableName != name;
        assert names[i] == name;
      }
    }
  }

  /** The four lines of the summary of a loaded document, each with its default. */
  function NameLine(d: ContextDoc): string { "数据库名称: " + d.dbName.GetOr("Unknown") + "\n" }
  function PathLine(d: ContextDoc): string { "数据库路径: " + d.dbPath.GetOr("Unknown") + "\n" }
  function CountLine(d: ContextDoc): string { "表数量: " + NatToString(|d.tables.GetOr([])|) + "\n" }
  function SummaryLine(d: ContextDoc): string { "业务描述: " + d.businessSummary.GetOr("No description available") }

  function SummaryText(d: ContextDoc): string
  {
    NameLine(d) + PathLine(d) + CountLine(d) + SummaryLine(d)
  }

  /** `get_database_summary`, which builds its text line by line. */
  method GetDatabaseSummary(doc: Option<ContextDoc>) returns (summary: string)
    ensures IsEmpty(doc) ==> summary == "No database context available"
    ensures !IsEmpty(doc) ==> summary == SummaryText(doc.value)
  {
    if IsEmpty(doc) {
      return "No database context available";
    }
    var d := doc.value;
    summary := NameLine(d);
    summary := summary + PathLine(d);
    summary := summary + CountLine(d);
    summary := summary + SummaryLine(d);
  }

  /** Four pieces laid end to end: the first starts the text, the middle two occur in it, the last ends it. */
  lemma FourPieces(l1: string, l2: string, l3: string, l4: string)
    ensures StartsWith(l1 + l2 + l3 + l4, l1) && EndsWith(l1 + l2 + l3 + l4, l4)
    ensures Contains(l1 + l2 + l3 + l4, l2) && Contains(l1 + l2 + l3 + l4, l3)
  {
    StartsWithConcat(l1, l2 + l3 + l4);
    assert l1 + l2 + l3 + l4 == l1 + (l2 + l3 + l4);
    ContainsConcat(l1, l2, l3 + l4);
    assert l1 + l2 + (l3 + l4) == l1 + l2 + l3 + l4;
    ContainsConcat(l1 + l2, l3, l4);
  }

  /** The summary opens with the database name and shows the path, the table count and the business summary. */
  lemma SummaryFacts(d: ContextDoc)
    ensures StartsWith(SummaryText(d), "数据库名称: " + d.dbName.GetOr("Unknown") + "\n")
    ensures Contains(SummaryText(d), "数据库路径: " + d.dbPath.GetOr("Unknown") + "\n")
    ensures Contains(SummaryText(d), "表数量: " + NatToString(|d.tables.GetOr([])|) + "\n")
    ensures EndsWith(SummaryText(d), "业务描述: " + d.businessSummary.GetOr("No description available"))
  {
    FourPieces(NameLine(d), PathLine(d), CountLine(d), SummaryLine(d));
  }

  /**
   * A document holding none of the five keys but some other key is not empty:
   * it gets the summary of defaults rather than the placeholder.
   */
  lemma OtherKeysOnlySummary(d: ContextDoc)
    requires d.dbName.None? && d.dbPath.None? && d.tables.None? && d.businessSummary.None? && d.createdAt.None?
    requires d.otherKeys != {}
    ensures !IsEmpty(Some(d))
    ensures SummaryText(d) == "数据库名称: Unknown\n" + "数据库路径: Unknown\n" + "表数量: 0\n" + "业务描述: No description available"
  {
    EmptyIffNoKeys(d);
    assert NatToString(0) == "0";
    assert NameLine(d) == "数据库名称: Unknown\n";
    assert PathLine(d) == "数据库路径: Unknown\n";
    assert CountLine(d) == "表数量: 0\n";
    assert SummaryLine(d) == "业务描述: No description available";
  }

  /** `create_knowledge_manager`: only the "financial" kind exists. */
  function CreateKnowledgeManager(kind: string): (r: Result<KnowledgeManager>)
    ensures r.Ok? <==> kind == "financial"
    ensures r.Ok? ==>
      (r.value.collectionName == "financial_sql_context" && r.value.dimension == 384 && r.value.contextData.None?)
    ensures r.Err? ==> r.error == "Unknown knowledge manager type: " + kind
  {
    if kind == "financial" then Ok(KnowledgeManager("financial_sql_context", 384, None))
    else Err("Unknown knowledge manager type: " + kind)
  }

  /** A freshly created manager has nothing loaded: no chunks, no tables, and the placeholder summary. */
  lemma FreshManagerIsEmpty(kind: string)
    requires CreateKnowledgeManager(kind).Ok?
    ensures var doc := CreateKnowledgeManager(kind).value.contextData;
      ContextChunks(doc) == [] && ListTables(doc) == [] && GetTableSchema(doc, kind).None? && IsEmpty(doc)
  {
  }
}
