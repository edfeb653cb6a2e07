/** Column types that follow the database in use: under the test environment the PostgreSQL
    column types are swapped for their SQLite counterparts, everywhere else they are kept. */
module DbTypes {
  import opened Wrappers

  /** The PostgreSQL types that have a SQLite counterpart. */
  const TestTypeMapping: map<string, string> := map["bytea" := "text", "timestamptz" := "datetime"]

  /** The environment is the test one exactly when `NODE_ENV` is set to `test`. */
  predicate IsTestEnv(nodeEnv: Option<string>)
  {
    nodeEnv == Some("test")
  }

  function ResolveDbType(columnType: string, nodeEnv: Option<string>): (r: string)
    ensures !IsTestEnv(nodeEnv) ==> r == columnType
    ensures IsTestEnv(nodeEnv) && columnType in TestTypeMapping ==> r == TestTypeMapping[columnType]
    ensures IsTestEnv(nodeEnv) && columnType !in TestTypeMapping ==> r == columnType
  {
    if IsTestEnv(nodeEnv) && columnType in TestTypeMapping then TestTypeMapping[columnType] else columnType
  }

  /** Under the test environment no PostgreSQL-only type survives, and resolving an already
      resolved type changes nothing. */
  lemma ResolveDbTypeSettles(columnType: string, nodeEnv: Option<string>)
    ensures IsTestEnv(nodeEnv) ==> ResolveDbType(columnType, nodeEnv) !in TestTypeMapping
    ensures ResolveDbType(ResolveDbType(columnType, nodeEnv), nodeEnv) == ResolveDbType(columnType, nodeEnv)
  {
    assert "text" !in TestTypeMapping && "datetime" !in TestTypeMapping;
  }

  /** Only the two mapped types change, and each into its own counterpart. */
  lemma ResolveDbTypeChanges(columnType: string, nodeEnv: Option<string>)
    ensures ResolveDbType(columnType, nodeEnv) != columnType
        <==> IsTestEnv(nodeEnv) && (columnType == "bytea" || columnType == "timestamptz")
    ensures IsTestEnv(nodeEnv) ==> ResolveDbType("bytea", nodeEnv) == "text" && ResolveDbType("timestamptz", nodeEnv) == "datetime"
  {
  }

  /** The type option after a db-aware decorator has seen it: an absent or empty type is
      left as it is, any other is resolved. */
  function DbAwareType(columnType: Option<string>, nodeEnv: Option<string>): (r: Option<string>)
    ensures !Truthy(columnType) ==> r == columnType
    ensures Truthy(columnType) ==> r == Some(ResolveDbType(columnType.value, nodeEnv))
  {
    if Truthy(columnType) then Some(ResolveDbType(columnType.value, nodeEnv)) else columnType
  }

  /** Declaring a column twice with the same options object leaves the type as the first
      declaration did; no declaration removes or adds a type. */
  lemma DbAwareTypeSettles(columnType: Option<string>, nodeEnv: Option<string>)
    ensures DbAwareType(DbAwareType(columnType, nodeEnv), nodeEnv) == DbAwareType(columnType, nodeEnv)
    ensures DbAwareType(columnType, nodeEnv).Some? <==> columnType.Some?
  {
    if Truthy(columnType) {
      ResolveDbTypeSettles(columnType.value, nodeEnv);
    }
  }

  /** The options object a column declaration receives; the decorators update it in place. */
  class ColumnOptions {
    var columnType: Option<string>

    constructor (columnType: Option<string>)
      ensures this.columnType == columnType
    {
      this.columnType := columnType;
    }
  }

  /** The property decorator TypeORM builds from the options: a plain or a creation-date column. */
  datatype PropertyDecorator = Column(options: ColumnOptions) | CreateDateColumn(options: ColumnOptions)

  method DbAwareColumn(options: ColumnOptions, nodeEnv: Option<string>) returns (d: PropertyDecorator)
    modifies options
    ensures options.columnType == DbAwareType(old(options.columnType), nodeEnv)
    ensures d == Column(options)
  {
    if Truthy(options.columnType) {
      options.columnType := Some(ResolveDbType(options.columnType.value, nodeEnv));
    }
    d := Column(options);
  }

  method DbAwareCreateDateColumn(options: ColumnOptions, nodeEnv: Option<string>) returns (d: PropertyDecorator)
    modifies options
    ensures options.columnType == DbAwareType(old(options.columnType), nodeEnv)
    ensures d == CreateDateColumn(options)
  {
    if Truthy(options.columnType) {
      options.columnType := Some(ResolveDbType(options.columnType.value, nodeEnv));
    }
    d := CreateDateColumn(options);
  }
}
