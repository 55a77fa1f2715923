/**
 * The SQL context extractor, vectorizer and retriever, without the database,
 * the embedding model and the files: the column mapping of `PRAGMA table_info`
 * rows, the business description of a table, the fixed table-relationship
 * enumeration, the rendering of a database context as text, and lookups in
 * the loaded contexts.
 */
module SqlContext {
  import opened Wrappers
  import opened Text
  import opened PyValue
  import opened SchemaDoc

  /** One row of `PRAGMA table_info`: cid, name, type, notnull, dflt_value, pk. */
  datatype PragmaColumn = PragmaColumn(cid: int, name: string, colType: string, notNull: int, defaultValue: Value, pk: int)

  /** A column as the extractor records it; `default` is `Null` for Python's `None`. */
  datatype ColumnInfo = ColumnInfo(name: string, colType: string, nullable: string, default: Value, primaryKey: bool)

  /** `sample_data`: the column names and the rows, each cell as `str(cell)` renders it. */
  datatype SampleData = SampleData(columns: seq<string>, rows: seq<seq<string>>)

  datatype TableSchema = TableSchema(
    tableName: string,
    columns: seq<ColumnInfo>,
    indexes: seq<string>,
    constraints: seq<string>,
    sampleData: SampleData,
    businessDescription: string)

  datatype Relationship = Relationship(kind: string, fromTable: string, toTable: string, field: string, description: string)

  datatype DatabaseContext = DatabaseContext(
    dbPath: string,
    dbName: string,
    tables: seq<TableSchema>,
    relationships: seq<Relationship>,
    businessSummary: string,
    createdAt: string)

  // ----- the column mapping in extract_table_schema -----

  function ColumnOf(p: PragmaColumn): ColumnInfo
  {
    ColumnInfo(p.name, p.colType, if p.notNull == 0 then "YES" else "NO",
      if Truthy(p.defaultValue) then p.defaultValue else Null, p.pk == 1)
  }

  function ColumnsOf(ps: seq<PragmaColumn>): seq<ColumnInfo>
  {
    seq(|ps|, i requires 0 <= i < |ps| => ColumnOf(ps[i]))
  }

  /** The loop over the `PRAGMA table_info` rows, one column record per row, in order. */
  method MapColumns(ps: seq<PragmaColumn>) returns (columns: seq<ColumnInfo>)
    ensures columns == ColumnsOf(ps)
    ensures |columns| == |ps|
    ensures forall i :: 0 <= i < |ps| ==>
      && columns[i].name == ps[i].name && columns[i].colType == ps[i].colType
      && (columns[i].nullable == "YES" <==> ps[i].notNull == 0)
      && (columns[i].nullable == "YES" || columns[i].nullable == "NO")
      && (columns[i].primaryKey <==> ps[i].pk == 1)
      && (columns[i].default == Null <==> !Truthy(ps[i].defaultValue))
      && (Truthy(ps[i].defaultValue) ==> columns[i].default == ps[i].defaultValue)
  {
    columns := [];
    var i := 0;
    while i < |ps|
      invariant 0 <= i <= |ps|
      invariant columns == ColumnsOf(ps[..i])
    {
      var p := ps[i];
      columns := columns + [ColumnInfo(p.name, p.colType, if p.notNull == 0 then "YES" else "NO",
        if Truthy(p.defaultValue) then p.defaultValue else Null, p.pk == 1)];
      assert ColumnsOf(ps[..i + 1]) == ColumnsOf(ps[..i]) + [ColumnOf(p)];
      i := i + 1;
    }
    assert ps[..i] == ps;
  }

  // ----- _generate_business_description -----

  /** The fixed descriptions of the known tables. */
  const Descriptions: map<string, string> := map[
    "基金基本信息" := "存储基金的基本信息，包括基金代码、名称、管理人、托管人、成立日期等核心信息",
    "基金股票持仓明细" := "记录基金持有股票的详细信息，包括持仓数量、市值、占比等投资组合数据",
    "基金债券持仓明细" := "记录基金持有债券的详细信息，包括债券类型、持仓数量、市值占比等",
    "基金可转债持仓明细" := "记录基金持有可转债的详细信息，包括对应股票代码、持仓数量等",
    "基金日行情表" := "记录基金每日的交易行情数据，包括单位净值、累计净值、资产净值等",
    "A股票日行情表" := "A股市场股票的日行情数据，包括开盘价、收盘价、最高价、最低价、成交量等",
    "港股票日行情表" := "港股市场股票的日行情数据，包括开盘价、收盘价、最高价、最低价、成交量等",
    "A股公司行业划分表" := "A股公司的行业分类信息，包括行业划分标准、一级行业、二级行业等",
    "基金规模变动表" := "记录基金规模的变动情况，包括申购、赎回、份额变化等信息",
    "基金份额持有人结构" := "记录基金份额持有人的结构分布，包括机构投资者和个人投资者的占比"
  ]

  function BaseDescription(name: string): string
  {
    if name in Descriptions then Descriptions[name] else name + "表的相关业务数据"
  }

  /** The names of the first five columns. */
  function KeyFields(columns: seq<ColumnInfo>): seq<string>
  {
    var cs := PyTake(columns, 5);
    seq(|cs|, i requires 0 <= i < |cs| => cs[i].name)
  }

  function BusinessDescription(name: string, columns: seq<ColumnInfo>): string
  {
    BaseDescription(name) + "。" + "主要字段包括: " + Join(", ", KeyFields(columns)) + "。"
  }

  /**
   * The description opens with the table's fixed text (or the generic one), lists
   * the first five column names at most, and closes with a full stop.
   */
  lemma BusinessDescriptionFacts(name: string, columns: seq<ColumnInfo>)
    ensures var r := BusinessDescription(name, columns);
      && StartsWith(r, BaseDescription(name) + "。主要字段包括: ")
      && EndsWith(r, "。")
      && (name !in Descriptions ==> StartsWith(r, name + "表的相关业务数据。主要字段包括: "))
  {
    var head := BaseDescription(name) + "。主要字段包括: ";
    var fields := Join(", ", KeyFields(columns));
    assert BusinessDescription(name, columns) == head + (fields + "。");
    StartsWithConcat(head, fields + "。");
  }

  /** The description names the first five columns at most, each of which it contains. */
  lemma BusinessDescriptionFields(name: string, columns: seq<ColumnInfo>)
    ensures |KeyFields(columns)| == if |columns| < 5 then |columns| else 5
    ensures forall k :: 0 <= k < |KeyFields(columns)| ==>
      KeyFields(columns)[k] == columns[k].name && Contains(BusinessDescription(name, columns), columns[k].name)
  {
    var head := BaseDescription(name) + "。" + "主要字段包括: ";
    var fields := KeyFields(columns);
    forall k | 0 <= k < |fields|
      ensures Contains(BusinessDescription(name, columns), fields[k])
    {
      ListedContains(head, fields, k);
    }
  }

  /** Each listed field occurs in a `head`, the joined list and a closing full stop. */
  lemma ListedContains(head: string, fields: seq<string>, k: nat)
    requires k < |fields|
    ensures Contains(head + Join(", ", fields) + "。", fields[k])
  {
    JoinContains(", ", fields, k);
    ContainsAfter(head, Join(", ", fields), fields[k]);
    ContainsPrefix(head + Join(", ", fields), "。", fields[k]);
  }

  /** An occurrence in `a` is an occurrence in `a + b`. */
  lemma {:induction false} ContainsPrefix(a: string, b: string, sub: string)
    requires Contains(a, sub)
    ensures Contains(a + b, sub)
    decreases |a|
  {
    if sub <= a {
      assert (a + b)[..|sub|] == a[..|sub|];
    } else {
      assert (a + b)[1..] == a[1..] + b;
      ContainsPrefix(a[1..], b, sub);
    }
  }

  // ----- _analyze_relationships -----

  /** The shared fields and the tables that carry them, in the source's order. */
  const FieldMappings: seq<(string, seq<string>)> := [
    ("基金代码", ["基金基本信息", "基金股票持仓明细", "基金债券持仓明细", "基金可转债持仓明细", "基金日行情表", "基金规模变动表", "基金份额持有人结构"]),
    ("股票代码", ["A股票日行情表", "港股票日行情表", "A股公司行业划分表", "基金股票持仓明细"]),
    ("交易日", ["A股票日行情表", "港股票日行情表"]),
    ("交易日期", ["A股公司行业划分表"])
  ]

  function Link(field: string, a: string, b: string): Relationship
  {
    Relationship("FOREIGN_KEY", a, b, field, a + "和" + b + "通过" + field + "关联")
  }

  /** The pairs whose first table is `ts[i]`: one per later table, in order. */
  function Row(field: string, ts: seq<string>, i: nat): seq<Relationship>
    requires i < |ts|
  {
    seq(|ts| - i - 1, k requires 0 <= k < |ts| - i - 1 => Link(field, ts[i], ts[i + 1 + k]))
  }

  /** The pairs whose first table is one of `ts[..n]`, row after row. */
  function PairsUpTo(field: string, ts: seq<string>, n: nat): seq<Relationship>
    requires n <= |ts|
  {
    if n == 0 then [] else PairsUpTo(field, ts, n - 1) + Row(field, ts, n - 1)
  }

  /** The relationships contributed by one field. */
  function FieldLinks(field: string, ts: seq<string>): seq<Relationship>
  {
    if |ts| > 1 then PairsUpTo(field, ts, |ts|) else []
  }

  function LinksOf(ms: seq<(string, seq<string>)>): seq<Relationship>
  {
    if ms == [] then [] else LinksOf(ms[..|ms| - 1]) + FieldLinks(ms[|ms| - 1].0, ms[|ms| - 1].1)
  }

  /** Every relationship `_analyze_relationships` reports. */
  function Relationships(): seq<Relationship>
  {
    LinksOf(FieldMappings)
  }

  /** `_analyze_relationships`: the pairs of every shared field; the tables it is given play no part. */
  method AnalyzeRelationships(tables: seq<TableSchema>) returns (relationships: seq<Relationship>)
    ensures relationships == Relationships()
  {
    relationships := [];
    var f := 0;
    while f < |FieldMappings|
      invariant 0 <= f <= |FieldMappings|
      invariant relationships == LinksOf(FieldMappings[..f])
    {
      var (field, related) := FieldMappings[f];
      if |related| > 1 {
        var pairs := PairsOf(field, related);
        relationships := relationships + pairs;
      }
      assert FieldMappings[..f + 1][..f] == FieldMappings[..f];
      f := f + 1;
    }
    assert FieldMappings[..f] == FieldMappings;
  }

  /** The nested `i < j` loops over one field's tables. */
  method PairsOf(field: string, related: seq<string>) returns (pairs: seq<Relationship>)
    ensures pairs == PairsUpTo(field, related, |related|)
  {
    pairs := [];
    var i := 0;
    while i < |related|
      invariant 0 <= i <= |related|
      invariant pairs == PairsUpTo(field, related, i)
    {
      ghost var before := pairs;
      var j := i + 1;
      while j < |related|
        invariant i + 1 <= j <= |related|
        invariant pairs == before + Row(field, related, i)[..j - i - 1]
      {
        assert Row(field, related, i)[..j - i] == Row(field, related, i)[..j - i - 1] + [Link(field, related[i], related[j])];
        pairs := pairs + [Relationship("FOREIGN_KEY", related[i], related[j], field,
          related[i] + "和" + related[j] + "通过" + field + "关联")];
        j := j + 1;
      }
      assert Row(field, related, i)[..j - i - 1] == Row(field, related, i);
      i := i + 1;
    }
  }

  /** `2 * |pairs of ts[..n]| == n * (2|ts| - n - 1)`; for the whole list that is `|ts| * (|ts| - 1)`. */
  lemma {:induction false} PairsCount(field: string, ts: seq<string>, n: nat)
    requires n <= |ts|
    ensures 2 * |PairsUpTo(field, ts, n)| == n * (2 * |ts| - n - 1)
  {
    if n > 0 {
      PairsCount(field, ts, n - 1);
      assert |Row(field, ts, n - 1)| == |ts| - n;
      assert (n - 1) * (2 * |ts| - n) + 2 * (|ts| - n) == n * (2 * |ts| - n - 1);
    }
  }

  /** A relationship is in row `i` exactly when it links `ts[i]` to a later table. */
  lemma RowMembership(field: string, ts: seq<string>, i: nat, r: Relationship)
    requires i < |ts|
    ensures r in Row(field, ts, i) <==> exists j :: i < j < |ts| && r == Link(field, ts[i], ts[j])
  {
    var row := Row(field, ts, i);
    if r in row {
      var k :| 0 <= k < |row| && row[k] == r;
      assert r == Link(field, ts[i], ts[i + 1 + k]);
    }
    if exists j :: i < j < |ts| && r == Link(field, ts[i], ts[j]) {
      var j :| i < j < |ts| && r == Link(field, ts[i], ts[j]);
      assert row[j - i - 1] == r;
    }
  }

  /** `r` links some `ts[i]` with `i < n` to a later table `ts[j]`. */
  predicate Linked(field: string, ts: seq<string>, n: nat, r: Relationship)
    requires n <= |ts|
  {
    exists i, j :: 0 <= i < n && i < j < |ts| && r == Link(field, ts[i], ts[j])
  }

  /** Going from `n - 1` to `n` first tables adds exactly the links from `ts[n - 1]`. */
  lemma LinkedStep(field: string, ts: seq<string>, n: nat, r: Relationship)
    requires 0 < n <= |ts|
    ensures Linked(field, ts, n, r) <==> (Linked(field, ts, n - 1, r) || exists j :: n - 1 < j < |ts| && r == Link(field, ts[n - 1], ts[j]))
  {
    if Linked(field, ts, n, r) {
      var i, j :| 0 <= i < n && i < j < |ts| && r == Link(field, ts[i], ts[j]);
      if i < n - 1 {
        assert Linked(field, ts, n - 1, r);
      }
    }
  }

  /** A relationship is among the pairs of `ts[..n]` exactly when it links some `ts[i]`, `i < n`, to a later `ts[j]`. */
  lemma {:induction false} PairsMembership(field: string, ts: seq<string>, n: nat, r: Relationship)
    requires n <= |ts|
    ensures r in PairsUpTo(field, ts, n) <==> Linked(field, ts, n, r)
  {
    if n > 0 {
      PairsMembership(field, ts, n - 1, r);
      RowMembership(field, ts, n - 1, r);
      LinkedStep(field, ts, n, r);
      assert PairsUpTo(field, ts, n) == PairsUpTo(field, ts, n - 1) + Row(field, ts, n - 1);
    }
  }

  /** Every reported relationship is a foreign key of one of the mapped fields, over two of its tables. */
  lemma {:induction false} LinksOfFacts(ms: seq<(string, seq<string>)>, r: Relationship)
    requires r in LinksOf(ms)
    ensures r.kind == "FOREIGN_KEY" && r.description == r.fromTable + "和" + r.toTable + "通过" + r.field + "关联"
    ensures exists f :: 0 <= f < |ms| && ms[f].0 == r.field && |ms[f].1| > 1 && r in PairsUpTo(ms[f].0, ms[f].1, |ms[f].1|)
  {
    var init, last := ms[..|ms| - 1], ms[|ms| - 1];
    if r in LinksOf(init) {
      LinksOfFacts(init, r);
      var f :| 0 <= f < |init| && init[f].0 == r.field && |init[f].1| > 1 && r in PairsUpTo(init[f].0, init[f].1, |init[f].1|);
      assert ms[f] == init[f];
    } else {
      assert r in FieldLinks(last.0, last.1);
      PairsMembership(last.0, last.1, |last.1|, r);
      assert ms[|ms| - 1] == last;
    }
  }

  /** The number of pairs of each field, summed. */
  function LinkCount(ms: seq<(string, seq<string>)>): nat
  {
    if ms == [] then 0
    else
      var n := |ms[|ms| - 1].1|;
      LinkCount(ms[..|ms| - 1]) + (if n > 1 then n * (n - 1) / 2 else 0)
  }

  /** Each field with `n > 1` tables contributes `n(n-1)/2` relationships. */
  lemma {:induction false} LinksCount(ms: seq<(string, seq<string>)>)
    ensures |LinksOf(ms)| == LinkCount(ms)
  {
    if ms != [] {
      LinksCount(ms[..|ms| - 1]);
      var (field, ts) := ms[|ms| - 1];
      if |ts| > 1 {
        PairsCount(field, ts, |ts|);
        assert |ts| * (2 * |ts| - |ts| - 1) == |ts| * (|ts| - 1);
      }
    }
  }

  /** 21 + 6 + 1 relationships: one per pair of tables sharing a mapped field. */
  lemma RelationshipsCount()
    ensures |Relationships()| == 28
  {
    var ms := FieldMappings;
    LinksCount(ms);
    assert |ms[0].1| == 7 && |ms[1].1| == 4 && |ms[2].1| == 2 && |ms[3].1| == 1;
    assert ms[..4] == ms;
    assert ms[..4][..3] == ms[..3];
    assert ms[..3][..2] == ms[..2];
    assert ms[..2][..1] == ms[..1];
    assert ms[..1][..0] == [];
    assert LinkCount(ms[..1]) == 21;
    assert LinkCount(ms[..2]) == 27;
    assert LinkCount(ms[..3]) == 28;
  }

  /** The field that only one table has yields no relationship. */
  lemma RelationshipsFields(r: Relationship)
    requires r in Relationships()
    ensures r.field != "交易日期"
  {
    var ms := FieldMappings;
    LinksOfFacts(ms, r);
    var f :| 0 <= f < |ms| && ms[f].0 == r.field && |ms[f].1| > 1 && r in PairsUpTo(ms[f].0, ms[f].1, |ms[f].1|);
    assert |ms[3].1| == 1;
    assert f != 3;
  }

  // ----- generate_context_text -----

  function Overview(ctx: DatabaseContext): seq<string>
  {
    ["数据库名称: " + ctx.dbName, "数据库路径: " + ctx.dbPath, "创建时间: " + ctx.createdAt,
     "包含表数量: " + NatToString(|ctx.tables|), "", "业务总结:", ctx.businessSummary, ""]
  }

  function RelationshipLines(rels: seq<Relationship>): seq<string>
  {
    if rels == [] then []
    else ["表间关系:"] + seq(|rels|, k requires 0 <= k < |rels| => "- " + rels[k].description) + [""]
  }

  function NullableText(c: ColumnInfo): string { if c.nullable == "YES" then "可空" else "不可空" }

  function KeyFlag(c: ColumnInfo): string { if c.primaryKey then " (主键)" else "" }

  function ColumnLine(c: ColumnInfo): string
  {
    "  - " + c.name + ": " + c.colType + ", " + NullableText(c) + KeyFlag(c)
  }

  function ColumnLines(cs: seq<ColumnInfo>): seq<string>
  {
    seq(|cs|, k requires 0 <= k < |cs| => ColumnLine(cs[k]))
  }

  function IndexLines(indexes: seq<string>): seq<string>
  {
    if indexes == [] then [] else ["索引: " + Join(", ", indexes)]
  }

  function ConstraintLines(constraints: seq<string>): seq<string>
  {
    if constraints == [] then []
    else ["约束:"] + seq(|constraints|, k requires 0 <= k < |constraints| => "  - " + constraints[k])
  }

  /** The first `n` cells of a row, `NULL` where the row is shorter. */
  function RowCells(row: seq<string>, n: nat): seq<string>
  {
    seq(n, j requires 0 <= j < n => if j < |row| then row[j] else "NULL")
  }

  function SampleRowLine(i: nat, row: seq<string>, n: nat): string
  {
    "  样本" + NatToString(i + 1) + ": " + Join(", ", RowCells(row, n))
  }

  function SampleRowLines(rows: seq<seq<string>>, n: nat): seq<string>
  {
    seq(|rows|, i requires 0 <= i < |rows| => SampleRowLine(i, rows[i], n))
  }

  function SampleLines(s: SampleData): seq<string>
  {
    if s.rows == [] then []
    else
      var cols := PyTake(s.columns, 5);
      ["样本数据:", "  列名: " + Join(", ", cols)] + SampleRowLines(PyTake(s.rows, 2), |cols|)
  }

  function TableLines(t: TableSchema): seq<string>
  {
    ["\n表名: " + t.tableName, "业务描述: " + t.businessDescription, "字段信息:"]
    + ColumnLines(t.columns) + IndexLines(t.indexes) + ConstraintLines(t.constraints)
    + SampleLines(t.sampleData) + [""]
  }

  function TablesLines(ts: seq<TableSchema>): seq<string>
  {
    if ts == [] then [] else TablesLines(ts[..|ts| - 1]) + TableLines(ts[|ts| - 1])
  }

  /** The lines `generate_context_text` collects before joining them. */
  function ContextLines(ctx: DatabaseContext): seq<string>
  {
    Overview(ctx) + RelationshipLines(ctx.relationships) + ["表详细信息:"] + TablesLines(ctx.tables)
  }

  function ContextText(ctx: DatabaseContext): string
  {
    Join("\n", ContextLines(ctx))
  }

  /** `generate_context_text`: the overview, the relationship section when there are relationships, then each table. */
  method GenerateContextText(ctx: DatabaseContext) returns (text: string)
    ensures text == ContextText(ctx)
  {
    var parts := OverviewPass(ctx);
    if ctx.relationships != [] {
      var lines := RelationshipPass(ctx.relationships);
      parts := parts + lines;
    }
    assert parts == Overview(ctx) + RelationshipLines(ctx.relationships);
    parts := parts + ["表详细信息:"];
    var tableLines := TablesPass(ctx.tables);
    parts := parts + tableLines;
    text := Join("\n", parts);
  }

  /** The overview lines and the business summary. */
  method OverviewPass(ctx: DatabaseContext) returns (parts: seq<string>)
    ensures parts == Overview(ctx)
  {
    parts := [];
    parts := parts + ["数据库名称: " + ctx.dbName];
    parts := parts + ["数据库路径: " + ctx.dbPath];
    parts := parts + ["创建时间: " + ctx.createdAt];
    parts := parts + ["包含表数量: " + NatToString(|ctx.tables|)];
    parts := parts + [""];
    parts := parts + ["业务总结:"];
    parts := parts + [ctx.businessSummary];
    parts := parts + [""];
  }

  /** The loop over the tables. */
  method TablesPass(tables: seq<TableSchema>) returns (parts: seq<string>)
    ensures parts == TablesLines(tables)
  {
    parts := [];
    var i := 0;
    while i < |tables|
      invariant 0 <= i <= |tables|
      invariant parts == TablesLines(tables[..i])
    {
      var lines := TablePass(tables[i]);
      assert tables[..i + 1][..i] == tables[..i];
      assert TablesLines(tables[..i + 1]) == TablesLines(tables[..i]) + lines;
      parts := parts + lines;
      i := i + 1;
    }
    assert tables[..i] == tables;
  }

  /** The relationship section: its heading, one line per relationship, and a blank line. */
  method RelationshipPass(rels: seq<Relationship>) returns (lines: seq<string>)
    requires rels != []
    ensures lines == RelationshipLines(rels)
  {
    lines := ["表间关系:"];
    var k := 0;
    while k < |rels|
      invariant 0 <= k <= |rels|
      invariant lines == ["表间关系:"] + seq(k, m requires 0 <= m < k => "- " + rels[m].description)
    {
      lines := lines + ["- " + rels[k].description];
      k := k + 1;
    }
    lines := lines + [""];
  }

  /** One table's section. */
  method TablePass(t: TableSchema) returns (lines: seq<string>)
    ensures lines == TableLines(t)
  {
    lines := ["\n表名: " + t.tableName];
    lines := lines + ["业务描述: " + t.businessDescription];
    lines := lines + ["字段信息:"];
    var columnLines := ColumnPass(t.columns);
    lines := lines + columnLines;
    ghost var head := ["\n表名: " + t.tableName, "业务描述: " + t.businessDescription, "字段信息:"];
    assert lines == head + ColumnLines(t.columns);
    if t.indexes != [] {
      lines := lines + ["索引: " + Join(", ", t.indexes)];
    }
    assert lines == head + ColumnLines(t.columns) + IndexLines(t.indexes);
    if t.constraints != [] {
      var constraintLines := ConstraintPass(t.constraints);
      lines := lines + constraintLines;
    }
    assert lines == head + ColumnLines(t.columns) + IndexLines(t.indexes) + ConstraintLines(t.constraints);
    if t.sampleData.rows != [] {
      var sampleLines := SamplePass(t.sampleData);
      lines := lines + sampleLines;
    }
    assert lines == head + ColumnLines(t.columns) + IndexLines(t.indexes) + ConstraintLines(t.constraints) + SampleLines(t.sampleData);
    lines := lines + [""];
  }

  method ColumnPass(cs: seq<ColumnInfo>) returns (lines: seq<string>)
    ensures lines == ColumnLines(cs)
  {
    lines := [];
    var k := 0;
    while k < |cs|
      invariant 0 <= k <= |cs|
      invariant lines == ColumnLines(cs[..k])
    {
      var c := cs[k];
      var keyFlag := if c.primaryKey then " (主键)" else "";
      var nullable := if c.nullable == "YES" then "可空" else "不可空";
      lines := lines + ["  - " + c.name + ": " + c.colType + ", " + nullable + keyFlag];
      assert ColumnLines(cs[..k + 1]) == ColumnLines(cs[..k]) + [ColumnLine(c)];
      k := k + 1;
    }
    assert cs[..k] == cs;
  }

  method ConstraintPass(constraints: seq<string>) returns (lines: seq<string>)
    requires constraints != []
    ensures lines == ConstraintLines(constraints)
  {
    lines := ["约束:"];
    var k := 0;
    while k < |constraints|
      invariant 0 <= k <= |constraints|
      invariant lines == ["约束:"] + seq(k, m requires 0 <= m < k => "  - " + constraints[m])
    {
      lines := lines + ["  - " + constraints[k]];
      k := k + 1;
    }
  }

  method SamplePass(s: SampleData) returns (lines: seq<string>)
    requires s.rows != []
    ensures lines == SampleLines(s)
  {
    lines := ["样本数据:"];
    var cols := PyTake(s.columns, 5);
    lines := lines + ["  列名: " + Join(", ", cols)];
    var rows := PyTake(s.rows, 2);
    var i := 0;
    while i < |rows|
      invariant 0 <= i <= |rows|
      invariant lines == ["样本数据:", "  列名: " + Join(", ", cols)] + SampleRowLines(rows[..i], |cols|)
    {
      var row := rows[i];
      var rowData := RowPass(row, |cols|);
      lines := lines + ["  样本" + NatToString(i + 1) + ": " + Join(", ", rowData)];
      assert SampleRowLines(rows[..i + 1], |cols|) == SampleRowLines(rows[..i], |cols|) + [SampleRowLine(i, row, |cols|)];
      i := i + 1;
    }
    assert rows[..i] == rows;
  }

  /** `[str(row[j]) if j < len(row) else 'NULL' for j in range(n)]`. */
  method RowPass(row: seq<string>, n: nat) returns (cells: seq<string>)
    ensures cells == RowCells(row, n)
  {
    cells := [];
    var j := 0;
    while j < n
      invariant 0 <= j <= n
      invariant cells == RowCells(row, j)
    {
      cells := cells + [if j < |row| then row[j] else "NULL"];
      j := j + 1;
    }
  }

  /** The text opens with the name, path, creation time and table-count lines. */
  lemma ContextTextOpening(ctx: DatabaseContext)
    ensures ContextLines(ctx)[0] == "数据库名称: " + ctx.dbName && ContextLines(ctx)[1] == "数据库路径: " + ctx.dbPath
    ensures ContextLines(ctx)[2] == "创建时间: " + ctx.createdAt && ContextLines(ctx)[3] == "包含表数量: " + NatToString(|ctx.tables|)
    ensures StartsWith(ContextText(ctx), ("数据库名称: " + ctx.dbName) + "\n" + ("数据库路径: " + ctx.dbPath) + "\n"
      + ("创建时间: " + ctx.createdAt) + "\n" + ("包含表数量: " + NatToString(|ctx.tables|)) + "\n")
  {
    OpeningLines(ctx);
    JoinOpening("\n", ContextLines(ctx));
  }

  lemma OpeningLines(ctx: DatabaseContext)
    ensures |ContextLines(ctx)| > 4
    ensures ContextLines(ctx)[0] == "数据库名称: " + ctx.dbName && ContextLines(ctx)[1] == "数据库路径: " + ctx.dbPath
    ensures ContextLines(ctx)[2] == "创建时间: " + ctx.createdAt && ContextLines(ctx)[3] == "包含表数量: " + NatToString(|ctx.tables|)
  {
    var ov, rest := Overview(ctx), RelationshipLines(ctx.relationships) + ["表详细信息:"] + TablesLines(ctx.tables);
    assert ContextLines(ctx) == ov + rest;
    assert |ov| == 8;
    forall k | 0 <= k < 4 ensures ContextLines(ctx)[k] == ov[k] {
    }
  }

  /** The join of five or more lines starts with its first four lines, each followed by the separator. */
  lemma JoinOpening(sep: string, lines: seq<string>)
    requires |lines| > 4
    ensures StartsWith(Join(sep, lines), lines[0] + sep + lines[1] + sep + lines[2] + sep + lines[3] + sep)
  {
    var head, rest := lines[..4], lines[4..];
    assert lines == head + rest;
    JoinAppend(sep, head, rest);
    var l0, l1, l2, l3 := head[0], head[1], head[2], head[3];
    assert head == [l0, l1, l2, l3];
    assert [l0, l1, l2, l3][1..] == [l1, l2, l3];
    assert [l1, l2, l3][1..] == [l2, l3];
    assert [l2, l3][1..] == [l3];
    assert Join(sep, [l3]) == l3;
    assert Join(sep, [l2, l3]) == l2 + sep + l3;
    assert Join(sep, [l1, l2, l3]) == l1 + sep + (l2 + sep + l3);
    assert Join(sep, head) == l0 + sep + (l1 + sep + (l2 + sep + l3));
    var opening := l0 + sep + l1 + sep + l2 + sep + l3 + sep;
    assert Join(sep, lines) == opening + Join(sep, rest);
    StartsWithConcat(opening, Join(sep, rest));
  }

  /** Line 8 heads the relationship section exactly when there are relationships; one line per relationship follows. */
  lemma RelationshipSection(ctx: DatabaseContext)
    ensures ContextLines(ctx)[8] == "表间关系:" <==> ctx.relationships != []
    ensures ctx.relationships == [] ==> ContextLines(ctx)[8] == "表详细信息:"
    ensures forall k :: 0 <= k < |ctx.relationships| ==> ContextLines(ctx)[9 + k] == "- " + ctx.relationships[k].description
  {
  }

  /** A column line ends with ` (主键)` exactly for primary keys, and shows `可空` exactly when the column is nullable. */
  lemma ColumnLineFlags(c: ColumnInfo)
    ensures c.primaryKey <==> EndsWith(ColumnLine(c), " (主键)")
    ensures c.nullable == "YES" <==> EndsWith(ColumnLine(c), ", 可空" + KeyFlag(c))
    ensures c.nullable != "YES" <==> EndsWith(ColumnLine(c), ", 不可空" + KeyFlag(c))
    ensures StartsWith(ColumnLine(c), "  - " + c.name + ": " + c.colType + ", ")
  {
    var head := "  - " + c.name + ": " + c.colType;
    FlagText(head, NullableText(c), KeyFlag(c));
    StartsWithConcat(head + ", ", NullableText(c) + KeyFlag(c));
    assert ColumnLine(c) == head + ", " + (NullableText(c) + KeyFlag(c));
  }

  /** Where the two flags of a column line sit: the key flag last, the nullability text just before it. */
  lemma FlagText(head: string, nt: string, kf: string)
    requires nt == "可空" || nt == "不可空"
    requires kf == " (主键)" || kf == ""
    ensures kf == " (主键)" <==> EndsWith(head + ", " + nt + kf, " (主键)")
    ensures nt == "可空" <==> EndsWith(head + ", " + nt + kf, ", 可空" + kf)
    ensures nt == "不可空" <==> EndsWith(head + ", " + nt + kf, ", 不可空" + kf)
  {
    var line := head + ", " + nt + kf;
    assert line[|line| - |kf| - 1] == '空';
    if kf == " (主键)" {
      assert line == (head + ", " + nt) + kf;
    }
    if nt == "可空" {
      assert line == head + (", 可空" + kf);
      assert line[|line| - |kf| - 4] == ',';
    } else {
      assert line == head + (", 不可空" + kf);
      assert line[|line| - |kf| - 4] == ' ';
    }
  }

  /** The sample section: absent without rows; otherwise a heading, at most five column names and at most two rows of exactly that many cells. */
  lemma SampleSectionFacts(s: SampleData)
    ensures SampleLines(s) == [] <==> s.rows == []
    ensures s.rows != [] ==> |SampleLines(s)| == 2 + (if |s.rows| < 2 then |s.rows| else 2)
    ensures s.rows != [] ==>
      (SampleLines(s)[0] == "样本数据:" && SampleLines(s)[1] == "  列名: " + Join(", ", PyTake(s.columns, 5)))
    ensures |PyTake(s.columns, 5)| <= 5
    ensures forall i :: 0 <= i < |s.rows| && i < 2 ==>
      SampleLines(s)[2 + i] == SampleRowLine(i, s.rows[i], |PyTake(s.columns, 5)|)
  {
  }

  /** A row cell is the row's own cell where there is one and `NULL` past its end; a short row shows `NULL`. */
  lemma RowCellsFacts(row: seq<string>, n: nat)
    ensures |RowCells(row, n)| == n
    ensures forall j :: 0 <= j < n && j < |row| ==> RowCells(row, n)[j] == row[j]
    ensures forall j :: |row| <= j < n ==> RowCells(row, n)[j] == "NULL"
    ensures |row| < n ==> Contains(Join(", ", RowCells(row, n)), "NULL")
  {
    if |row| < n {
      JoinContains(", ", RowCells(row, n), |row|);
    }
  }

  /** Every table's name line appears among the rendered lines. */
  lemma {:induction false} TablesRendered(ts: seq<TableSchema>, k: nat)
    requires k < |ts|
    ensures "\n表名: " + ts[k].tableName in TablesLines(ts)
  {
    var init := ts[..|ts| - 1];
    if k < |init| {
      TablesRendered(init, k);
      assert init[k] == ts[k];
    } else {
      assert TableLines(ts[k])[0] == "\n表名: " + ts[k].tableName;
    }
  }

  // ----- SQLContextRetriever -----

  /**
   * The retriever after `load_contexts`: the loaded documents by database name,
   * the names in load order (the dict's key order), the loaded vectors and the
   * text files found beside them.
   */
  datatype Retriever = Retriever(
    contexts: map<string, ContextDoc>,
    order: seq<string>,
    embeddings: map<string, seq<real>>,
    textFiles: map<string, string>)

  /** The key order lists each loaded name exactly once. */
  ghost predicate Valid(r: Retriever)
  {
    (forall k :: k in r.order <==> k in r.contexts)
    && forall i, j :: 0 <= i < j < |r.order| ==> r.order[i] != r.order[j]
  }

  /** `self.contexts[db_name] = context_data`: a new name goes to the end, a known one keeps its place. */
  function Loaded(r: Retriever, name: string, doc: ContextDoc): (s: Retriever)
  {
    r.(contexts := r.contexts[name := doc], order := if name in r.contexts then r.order else r.order + [name])
  }

  lemma LoadedValid(r: Retriever, name: string, doc: ContextDoc)
    requires Valid(r)
    ensures Valid(Loaded(r, name, doc))
    ensures GetContext(Loaded(r, name, doc), name) == Some(doc)
    ensures forall other :: other != name ==> GetContext(Loaded(r, name, doc), other) == GetContext(r, other)
  {
  }

  /** `get_context`: the loaded document, or `None` for an unknown name. */
  function GetContext(r: Retriever, name: string): Option<ContextDoc>
  {
    if name in r.contexts then Some(r.contexts[name]) else None
  }

  function GetEmbedding(r: Retriever, name: string): Option<seq<real>>
  {
    if name in r.embeddings then Some(r.embeddings[name]) else None
  }

  /** `get_context_text`: the saved text file's content, when there is one. */
  function GetContextText(r: Retriever, name: string): Option<string>
  {
    if name in r.textFiles then Some(r.textFiles[name]) else None
  }

  /** `list_available_contexts`. */
  function ListAvailableContexts(r: Retriever): seq<string>
  {
    r.order
  }

  /** The listed names are exactly the names with a loaded context, each listed once. */
  lemma AvailableIffLoaded(r: Retriever, name: string)
    requires Valid(r)
    ensures name in ListAvailableContexts(r) <==> GetContext(r, name).Some?
    ensures |ListAvailableContexts(r)| == |r.contexts|
  {
    DistinctCardinality(r.order, r.contexts.Keys);
  }

  /** A duplicate-free sequence has as many elements as the set it enumerates. */
  lemma {:induction false} DistinctCardinality(xs: seq<string>, s: set<string>)
    requires forall k :: k in xs <==> k in s
    requires forall i, j :: 0 <= i < j < |xs| ==> xs[i] != xs[j]
    ensures |xs| == |s|
  {
    if xs != [] {
      var last := xs[|xs| - 1];
      var init := xs[..|xs| - 1];
      forall k ensures k in init <==> k in s - {last} {
        if k in init {
          var i :| 0 <= i < |init| && init[i] == k;
          assert xs[i] == k;
        }
        if k in s - {last} {
          assert k in xs;
          var i :| 0 <= i < |xs| && xs[i] == k;
          assert i < |xs| - 1;
          assert init[i] == k;
        }
      }
      DistinctCardinality(init, s - {last});
    } else {
      assert s == {};
    }
  }
}
