/**
 * The JSON form of a database context as it is saved to and loaded from disk:
 * a dictionary whose keys may be missing. Each optional key is an `Option`,
 * `None` standing for an absent key.
 */
module SchemaDoc {
  import opened Wrappers
  import opened PyValue

  /** One entry of a table's `columns` list. */
  datatype DocColumn = DocColumn(name: string, colType: string)

  /** A table's `sample_data`: the column names and the sample rows. */
  datatype DocSample = DocSample(columns: seq<string>, rows: seq<seq<Value>>)

  /** One entry of the document's `tables` list; a `None` field is an absent key. */
  datatype DocTable = DocTable(
    tableName: string,
    businessDescription: Option<string>,
    columns: Option<seq<DocColumn>>,
    sampleData: Option<DocSample>)

  /**
   * The loaded context document; a `None` field is an absent key, and
   * `otherKeys` names the keys the document holds besides these five (such
   * as `relationships`), whose values nothing here reads.
   */
  datatype ContextDoc = ContextDoc(
    dbName: Option<string>,
    dbPath: Option<string>,
    tables: Option<seq<DocTable>>,
    businessSummary: Option<string>,
    createdAt: Option<string>,
    otherKeys: set<string>)

  /** The keys the document's dictionary holds. */
  function DocKeys(d: ContextDoc): set<string>
  {
    (if d.dbName.Some? then {"db_name"} else {})
    + (if d.dbPath.Some? then {"db_path"} else {})
    + (if d.tables.Some? then {"tables"} else {})
    + (if d.businessSummary.Some? then {"business_summary"} else {})
    + (if d.createdAt.Some? then {"created_at"} else {})
    + d.otherKeys
  }

  /** `not context_data`: nothing loaded, or a dictionary without keys. */
  predicate IsEmpty(doc: Option<ContextDoc>)
  {
    doc.None? || DocKeys(doc.value) == {}
  }

  /** A loaded document is empty exactly when it holds none of the five keys and no other key. */
  lemma EmptyIffNoKeys(d: ContextDoc)
    ensures IsEmpty(Some(d)) <==>
      d.dbName.None? && d.dbPath.None? && d.tables.None? && d.businessSummary.None? && d.createdAt.None?
      && d.otherKeys == {}
  {
    if d.dbName.Some? { assert "db_name" in DocKeys(d); }
    if d.dbPath.Some? { assert "db_path" in DocKeys(d); }
    if d.tables.Some? { assert "tables" in DocKeys(d); }
    if d.businessSummary.Some? { assert "business_summary" in DocKeys(d); }
    if d.createdAt.Some? { assert "created_at" in DocKeys(d); }
    if d.otherKeys != {} { var k :| k in d.otherKeys; assert k in DocKeys(d); }
  }
}
