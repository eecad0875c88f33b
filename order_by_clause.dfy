/** The ordering builder, `SqlOrderByStatementBuilder`: renders ` ORDER BY a.c` or
    ` ORDER BY a.c DESC`. */
module OrderByClause {
  import opened Wrappers
  import opened Text
  import opened Alias

  /** `SqlOrderType`. `Undefined` stands for any value outside the two named members. */
  datatype OrderType = Ascending | Descending | Undefined

  /** What `Build(type)` returns or throws. The table name is checked before the column. */
  function OrderByStatement(tableName: Option<string>, columnName: Option<string>, kind: OrderType): (r: Result<string>)
    ensures r.Err? <==> IsNullOrWhiteSpace(tableName)
    ensures r.Err? ==> r.error == MissingArgument("_tableName")
    ensures r.Ok? && (IsNullOrWhiteSpace(columnName) || kind == Undefined) ==> r.value == ""
    ensures r.Ok? && !IsNullOrWhiteSpace(columnName) && kind == Ascending ==>
              r.value == " ORDER BY " + [ToLower(tableName.value[0])] + "." + columnName.value
    ensures r.Ok? && !IsNullOrWhiteSpace(columnName) && kind == Descending ==>
              r.value == " ORDER BY " + [ToLower(tableName.value[0])] + "." + columnName.value + " DESC"
  {
    if IsNullOrWhiteSpace(tableName) then Err(MissingArgument("_tableName"))
    else if IsNullOrWhiteSpace(columnName) then Ok("")
    else
      var tableAlias := TableNameAlias(tableName);
      match kind
      case Ascending => Ok(" ORDER BY " + tableAlias + "." + columnName.value)
      case Descending => Ok(" ORDER BY " + tableAlias + "." + columnName.value + " DESC")
      case Undefined => Ok("")
  }

  /** The descending clause is the ascending one with ` DESC` appended. */
  lemma DescendingExtendsAscending(tableName: Option<string>, columnName: Option<string>)
    requires !IsNullOrWhiteSpace(tableName) && !IsNullOrWhiteSpace(columnName)
    ensures OrderByStatement(tableName, columnName, Descending)
            == Ok(OrderByStatement(tableName, columnName, Ascending).value + " DESC")
  {
  }

  /** Without a column, or with an unnamed direction, the clause is empty for every usable table. */
  lemma OrderByEmptyCases(tableName: Option<string>, columnName: Option<string>, kind: OrderType)
    requires !IsNullOrWhiteSpace(tableName)
    requires IsNullOrWhiteSpace(columnName) || kind == Undefined
    ensures OrderByStatement(tableName, columnName, kind) == Ok("")
  {
  }

  /** `SqlOrderByStatementBuilder`. */
  class SqlOrderByStatementBuilder {
    var tableName: Option<string>
    var columnName: Option<string>

    constructor ()
      ensures tableName == None && columnName == None
    {
      tableName := None;
      columnName := None;
    }

    method WithTableName(name: Option<string>) returns (self: SqlOrderByStatementBuilder)
      modifies this`tableName
      ensures self == this && tableName == name
    {
      tableName := name;
      self := this;
    }

    method WithColumnName(column: Option<string>) returns (self: SqlOrderByStatementBuilder)
      modifies this`columnName
      ensures self == this && columnName == column
    {
      columnName := column;
      self := this;
    }

    /** Renders the table and column last set; throws while the table name is null or blank,
        and renders nothing while the column is. */
    function Build(kind: OrderType): (r: Result<string>)
      reads this
      ensures r == OrderByStatement(tableName, columnName, kind)
      ensures r.Err? <==> IsNullOrWhiteSpace(tableName)
      ensures r.Ok? && IsNullOrWhiteSpace(columnName) ==> r.value == ""
    {
      OrderByStatement(tableName, columnName, kind)
    }
  }
}
