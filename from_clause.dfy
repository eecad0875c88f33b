/** The table-source builder, `SqlFromStatementBuilder` of the Fluent.SqlBuilder.Portable
    namespace: renders ` FROM [T] a`, with the alias of that namespace's copy. */
module FromClause {
  import opened Wrappers
  import opened Text
  import opened Alias

  /** What `Build()` returns or throws for the table name last set. */
  function FromStatement(tableName: Option<string>): (r: Result<string>)
    ensures r.Err? <==> IsNullOrWhiteSpace(tableName)
    ensures r.Err? ==> r.error == MissingArgument("_tableName")
    ensures r.Ok? ==> r.value == " FROM [" + tableName.value + "] " + [ToLower(tableName.value[0])]
  {
    if IsNullOrWhiteSpace(tableName) then Err(MissingArgument("_tableName"))
    else Ok(" FROM [" + tableName.value + "] " + PortableTableNameAlias(tableName))
  }

  /** The table name appears verbatim between the brackets, and the clause ends in a space and
      the one-character alias. */
  lemma FromCopiesTableName(tableName: string)
    requires !IsNullOrWhiteSpace(Some(tableName))
    ensures FromStatement(Some(tableName)).Ok?
    ensures var s := FromStatement(Some(tableName)).value;
            |s| == |tableName| + 10
            && s[..7] == " FROM ["
            && s[7..7 + |tableName|] == tableName
            && s[7 + |tableName|..] == "] " + [ToLower(tableName[0])]
  {
    var s := FromStatement(Some(tableName)).value;
    assert s == " FROM [" + tableName + ("] " + [ToLower(tableName[0])]);
  }

  /** `SqlFromStatementBuilder`. */
  class SqlFromStatementBuilder {
    var tableName: Option<string>

    constructor ()
      ensures tableName == None
    {
      tableName := None;
    }

    /** Overwrites the table name: the last one set wins. */
    method WithTableName(name: Option<string>) returns (self: SqlFromStatementBuilder)
      modifies this`tableName
      ensures self == this && tableName == name
    {
      tableName := name;
      self := this;
    }

    /** Renders the table name last set; throws while it is null or blank. */
    function Build(): (r: Result<string>)
      reads this
      ensures r == FromStatement(tableName)
      ensures r.Err? <==> IsNullOrWhiteSpace(tableName)
    {
      FromStatement(tableName)
    }
  }
}
