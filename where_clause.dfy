/** The filter builder, `SqlWhereStatementBuilder` (placeholder variant) of the
    Fluent.SqlBuilder.Portable namespace: renders ` WHERE a.k = @k` for the primary key and
    ` AND a.f = @f` for each secondary filter, with the alias of that namespace's copy. */
module WhereClause {
  import opened Wrappers
  import opened Text
  import opened Alias

  function PrimaryFragment(alias: string, key: string): string {
    " WHERE " + alias + "." + key + " = @" + key
  }

  /** `$" AND {alias}.{f} = @{f}"`; a null filter renders as nothing in both places. */
  function AndFragment(alias: string, filter: Option<string>): string {
    " AND " + alias + "." + Interp(filter) + " = @" + Interp(filter)
  }

  /** `string.Concat(filters.Select(f => AndFragment(f)))`: one fragment per filter, in order. */
  function AndFragments(alias: string, filters: seq<Option<string>>): string {
    Concat(seq(|filters|, i requires 0 <= i < |filters| => AndFragment(alias, filters[i])))
  }

  /** What `Build()` returns or throws. Unlike the other builders it rejects only a null or
      empty table name: a white-space name passes and yields the empty alias. */
  function WhereStatement(tableName: Option<string>, primaryFilterKey: Option<string>,
                          filters: Option<seq<Option<string>>>): (r: Result<string>)
    ensures r.Err? <==> IsNullOrEmpty(tableName)
    ensures r.Err? ==> r.error == MissingArgument("_tableName")
    ensures r.Ok? && !IsNullOrWhiteSpace(primaryFilterKey) ==> |r.value| >= 7 && r.value[..7] == " WHERE "
  {
    if IsNullOrEmpty(tableName) then Err(MissingArgument("_tableName"))
    else
      var alias := PortableTableNameAlias(tableName);
      var primary := if !IsNullOrWhiteSpace(primaryFilterKey) then PrimaryFragment(alias, primaryFilterKey.value) else "";
      var secondary := if filters.Some? && |filters.value| > 0 then AndFragments(alias, filters.value) else "";
      Ok(primary + secondary)
  }

  /** `Build` throws exactly when the table name is null or empty. */
  lemma WhereFailsOnlyOnNullOrEmpty(tableName: Option<string>, primaryFilterKey: Option<string>,
                                    filters: Option<seq<Option<string>>>)
    ensures WhereStatement(tableName, primaryFilterKey, filters).Err? <==> IsNullOrEmpty(tableName)
    ensures WhereStatement(tableName, primaryFilterKey, filters).Err? ==>
              WhereStatement(tableName, primaryFilterKey, filters).error == MissingArgument("_tableName")
  {
  }

  /** A white-space table name is accepted, and its alias is empty. */
  lemma WhereAcceptsWhiteSpaceTable(tableName: string, key: string)
    requires |tableName| > 0 && AllWhiteSpace(tableName) && !IsNullOrWhiteSpace(Some(key))
    ensures WhereStatement(Some(tableName), Some(key), None) == Ok(" WHERE ." + key + " = @" + key)
  {
    assert PortableTableNameAlias(Some(tableName)) == "";
    assert PrimaryFragment("", key) + "" == " WHERE ." + key + " = @" + key;
  }

  /** A usable primary key alone renders ` WHERE a.k = @k`. */
  lemma WherePrimaryOnly(tableName: string, key: string, filters: Option<seq<Option<string>>>)
    requires !IsNullOrWhiteSpace(Some(tableName)) && !IsNullOrWhiteSpace(Some(key))
    requires filters.None? || |filters.value| == 0
    ensures WhereStatement(Some(tableName), Some(key), filters)
            == Ok(" WHERE " + [ToLower(tableName[0])] + "." + key + " = @" + key)
  {
    var alias := PortableTableNameAlias(Some(tableName));
    assert PrimaryFragment(alias, key) + "" == PrimaryFragment(alias, key);
  }

  /** With no usable primary key and no filters the clause is empty. */
  lemma WhereEmpty(tableName: Option<string>, primaryFilterKey: Option<string>, filters: Option<seq<Option<string>>>)
    requires !IsNullOrEmpty(tableName) && IsNullOrWhiteSpace(primaryFilterKey)
    requires filters.None? || |filters.value| == 0
    ensures WhereStatement(tableName, primaryFilterKey, filters) == Ok("")
  {
    assert "" + "" == "";
  }

  lemma {:induction false} AndFragmentsAppend(alias: string, filters: seq<Option<string>>, filter: Option<string>)
    ensures AndFragments(alias, filters + [filter]) == AndFragments(alias, filters) + AndFragment(alias, filter)
  {
    var items := seq(|filters|, i requires 0 <= i < |filters| => AndFragment(alias, filters[i]));
    var more := seq(|filters + [filter]|, i requires 0 <= i < |filters + [filter]| => AndFragment(alias, (filters + [filter])[i]));
    assert more == items + [AndFragment(alias, filter)];
    ConcatAppend(items, AndFragment(alias, filter));
  }

  /** A secondary filter added last appends exactly one ` AND a.f = @f` and changes nothing
      before it, with or without a primary key. */
  lemma WhereAppendFilter(tableName: Option<string>, primaryFilterKey: Option<string>,
                          filters: seq<Option<string>>, filter: Option<string>)
    requires !IsNullOrEmpty(tableName)
    ensures WhereStatement(tableName, primaryFilterKey, Some(filters + [filter]))
            == Ok(WhereStatement(tableName, primaryFilterKey, Some(filters)).value
                  + AndFragment(PortableTableNameAlias(tableName), filter))
  {
    var alias := PortableTableNameAlias(tableName);
    var primary := if !IsNullOrWhiteSpace(primaryFilterKey) then PrimaryFragment(alias, primaryFilterKey.value) else "";
    AndFragmentsAppend(alias, filters, filter);
    if |filters| == 0 {
      assert AndFragments(alias, filters) == "";
      assert AndFragments(alias, filters + [filter]) == AndFragment(alias, filter);
      assert WhereStatement(tableName, primaryFilterKey, Some(filters)).value == primary + "";
      assert primary + "" == primary;
    } else {
      assert primary + (AndFragments(alias, filters) + AndFragment(alias, filter))
             == (primary + AndFragments(alias, filters)) + AndFragment(alias, filter);
    }
  }

  /** Secondary filters are rendered even without a primary key: the clause then opens with
      ` AND ` where a ` WHERE ` would be expected. */
  lemma WhereFiltersWithoutPrimary(tableName: Option<string>, primaryFilterKey: Option<string>,
                                   filters: seq<Option<string>>)
    requires !IsNullOrEmpty(tableName) && IsNullOrWhiteSpace(primaryFilterKey) && |filters| > 0
    ensures WhereStatement(tableName, primaryFilterKey, Some(filters)).Ok?
    ensures var s := WhereStatement(tableName, primaryFilterKey, Some(filters)).value;
            |s| >= 5 && s[..5] == " AND "
  {
    var alias := PortableTableNameAlias(tableName);
    var items := seq(|filters|, i requires 0 <= i < |filters| => AndFragment(alias, filters[i]));
    assert AndFragments(alias, filters) == items[0] + Concat(items[1..]);
    assert items[0] == " AND " + (alias + "." + Interp(filters[0]) + " = @" + Interp(filters[0]));
  }

  /** `SqlWhereStatementBuilder` (placeholder variant). */
  class SqlWhereStatementBuilder {
    var primaryFilterKey: Option<string>
    var tableName: Option<string>
    var filters: Option<seq<Option<string>>>

    constructor ()
      ensures primaryFilterKey == None && tableName == None && filters == Some([])
    {
      primaryFilterKey := None;
      tableName := None;
      filters := Some([]);
    }

    method WithTableName(name: Option<string>) returns (self: SqlWhereStatementBuilder)
      modifies this`tableName
      ensures self == this && tableName == name
    {
      tableName := name;
      self := this;
    }

    method WithPrimaryFilter(key: Option<string>) returns (self: SqlWhereStatementBuilder)
      modifies this`primaryFilterKey
      ensures self == this && primaryFilterKey == key
    {
      primaryFilterKey := key;
      self := this;
    }

    method WithSecondaryFilters(keys: Option<seq<Option<string>>>) returns (self: SqlWhereStatementBuilder)
      modifies this`filters
      ensures self == this && filters == keys
    {
      filters := keys;
      self := this;
    }

    /** Appends the primary fragment and then the secondary ones to an initially empty text. */
    method Build() returns (r: Result<string>)
      ensures r == WhereStatement(tableName, primaryFilterKey, filters)
    {
      if IsNullOrEmpty(tableName) {
        return Err(MissingArgument("_tableName"));
      }
      var sql := "";
      var alias := PortableTableNameAlias(tableName);
      if !IsNullOrWhiteSpace(primaryFilterKey) {
        var sqlWhereStatement := PrimaryFragment(alias, primaryFilterKey.value);
        sql := sql + sqlWhereStatement;
        assert sql == sqlWhereStatement;
      }
      ghost var primary := sql;
      if filters.Some? && |filters.value| > 0 {
        var sqlAndStatements := AndFragments(alias, filters.value);
        sql := sql + sqlAndStatements;
      } else {
        assert sql == primary + "";
      }
      r := Ok(sql);
    }
  }
}
