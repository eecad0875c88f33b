/** The repository's own test cases, written as chains of calls on a fresh orchestrator whose
    results are proved to be the strings the tests expect. Each expected string is written as
    the concatenation of the fragments the clause builders contribute (SELECT, FROM, WHERE,
    ORDER BY); joined up, the pieces spell the test's literal. */
module Scenarios {
  import opened Wrappers
  import opened Text
  import opened Alias
  import opened SelectClause
  import opened FromClause
  import opened OrderByClause
  import opened WhereClause
  import opened QueryBuilder

  const Table: string := "TestTable"
  const SubQuery: string := "(SELECT COUNT(*) FROM TestTableTwo) AS TestTableTwoCount"
  const TwoColumns: seq<Option<string>> := [Some("TestCol1"), Some("TestCol2")]

  // The fragments each builder renders for the test table.

  lemma TableAlias()
    ensures !IsNullOrWhiteSpace(Some(Table))
    ensures [ToLower(Table[0])] == TableNameAlias(Some(Table)) == "t"
  {
    assert Table[0] == 'T' && !IsWhiteSpace(Table[0]);
    assert ToLower('T') == 't';
  }

  lemma FromFragment()
    ensures FromStatement(Some(Table)) == Ok(" FROM [TestTable] t")
  {
    TableAlias();
    assert " FROM [" + Table + "] " + "t" == " FROM [TestTable] t";
  }

  lemma SelectAllFragment()
    ensures SelectStatement(All, Some(Table), None, None, [], []) == Ok("SELECT t.*")
  {
    TableAlias();
    SelectAllWithoutJoins(Table, None, None);
    assert "SELECT " + "t" + ".*" == "SELECT t.*";
  }

  lemma TwoColumnsFragment()
    ensures Join(",", QualifiedColumns("t", TwoColumns)) == "t.TestCol1,t.TestCol2"
  {
    var qualified := QualifiedColumns("t", TwoColumns);
    assert qualified[0] == "t" + "." + "TestCol1" == "t.TestCol1";
    assert qualified[1] == "t" + "." + "TestCol2" == "t.TestCol2";
    assert qualified == ["t.TestCol1", "t.TestCol2"];
    assert qualified[1..] == ["t.TestCol2"];
    assert "t.TestCol1" + "," + "t.TestCol2" == "t.TestCol1,t.TestCol2";
  }

  lemma WhereFragment()
    ensures WhereStatement(Some(Table), Some("TestCol"), Some([])) == Ok(" WHERE t.TestCol = @TestCol")
  {
    TableAlias();
    assert !IsWhiteSpace("TestCol"[0]);
    WherePrimaryOnly(Table, "TestCol", Some([]));
    assert " WHERE " + "t" + "." + "TestCol" + " = @" + "TestCol" == " WHERE t.TestCol = @TestCol";
  }

  lemma SecondFilterFragment()
    ensures AndFragment("t", Some("TestCol2")) == " AND t.TestCol2 = @TestCol2"
  {
    assert " AND " + "t" + "." + "TestCol2" + " = @" + "TestCol2" == " AND t.TestCol2 = @TestCol2";
  }

  /** A usable ordering column `c` renders ` ORDER BY t.c`, or ` ORDER BY t.c DESC`. */
  lemma OrderByFragment(column: string, descending: bool)
    requires !IsNullOrWhiteSpace(Some(column))
    ensures OrderByStatement(Some(Table), Some(column), if descending then Descending else Ascending)
            == Ok(" ORDER BY t." + column + (if descending then " DESC" else ""))
  {
    TableAlias();
    if descending {
      assert " ORDER BY " + "t" + "." + column + " DESC" == " ORDER BY t." + column + " DESC";
    } else {
      assert " ORDER BY " + "t" + "." + column == " ORDER BY t." + column + "";
    }
  }

  /** `Build` on a state with the test table, no ordering column and no filter. */
  lemma QueryWithoutClauses(q: QueryState, select: string)
    requires q.primaryTableName == Some(Table) && q.orderByColumn == None
    requires q.primaryFilterKey == None && q.filters == []
    requires SelectStatement(q.selectType, q.primaryTableName, q.selectCustomColumn, q.selectedColumns, [], []) == Ok(select)
    ensures Query(q) == Ok(select + " FROM [TestTable] t")
  {
    TableAlias();
    FromFragment();
    QueryComposition(q);
    WhereEmpty(Some(Table), None, Some([]));
    OrderByEmptyCases(Some(Table), None, q.orderType);
    assert select + " FROM [TestTable] t" + "" + "" == select + " FROM [TestTable] t";
  }

  // The test cases. Each lemma computes `Build` on the state the test's chain leaves behind,
  // composed from the fragments above; each method writes the test's chain out as calls on a
  // fresh builder and proves what `Build` returns.

  lemma SelectAllQuery()
    ensures Query(InitialState.(primaryTableName := Some(Table))) == Ok("SELECT t.*" + " FROM [TestTable] t")
  {
    SelectAllFragment();
    QueryWithoutClauses(InitialState.(primaryTableName := Some(Table)), "SELECT t.*");
  }

  lemma OrderedQuery(column: string, descending: bool)
    requires !IsNullOrWhiteSpace(Some(column))
    ensures Query(InitialState.(primaryTableName := Some(Table), orderByColumn := Some(column),
                                orderType := if descending then Descending else Ascending))
            == Ok("SELECT t.*" + " FROM [TestTable] t" + (" ORDER BY t." + column + (if descending then " DESC" else "")))
  {
    var q := InitialState.(primaryTableName := Some(Table), orderByColumn := Some(column),
                           orderType := if descending then Descending else Ascending);
    SelectAllFragment();
    QueryWithoutClauses(q.(orderByColumn := None), "SELECT t.*");
    OrderByIsLast(q);
    OrderByFragment(column, descending);
  }

  lemma CountQuery()
    ensures Query(InitialState.(selectType := Count, primaryTableName := Some(Table)))
            == Ok("SELECT COUNT(*)" + " FROM [TestTable] t")
  {
    TableAlias();
    SelectCountIsLiteral(Some(Table), None, None, [], []);
    QueryWithoutClauses(InitialState.(selectType := Count, primaryTableName := Some(Table)), "SELECT COUNT(*)");
  }

  lemma SpecificQuery()
    ensures Query(InitialState.(selectType := Specific, selectedColumns := Some(TwoColumns), primaryTableName := Some(Table)))
            == Ok("SELECT " + "t.TestCol1,t.TestCol2" + " FROM [TestTable] t")
  {
    TableAlias();
    TwoColumnsFragment();
    QueryWithoutClauses(InitialState.(selectType := Specific, selectedColumns := Some(TwoColumns), primaryTableName := Some(Table)),
                        "SELECT " + "t.TestCol1,t.TestCol2");
  }

  lemma CustomQuery(withColumns: bool)
    ensures var columns := if withColumns then TwoColumns else [];
            Query(InitialState.(selectType := Custom, selectCustomColumn := Some(SubQuery), selectedColumns := Some(columns),
                                primaryTableName := Some(Table)))
            == Ok("SELECT " + SubQuery + ", " + (if withColumns then "t.TestCol1,t.TestCol2" else "t.*") + " FROM [TestTable] t")
  {
    var columns := if withColumns then TwoColumns else [];
    var projected := if withColumns then "t.TestCol1,t.TestCol2" else "t.*";
    TableAlias();
    TwoColumnsFragment();
    assert "t" + ".*" == "t.*";
    var head := "SELECT " + SubQuery + ", ";
    assert head + "t" + ".*" == head + ("t" + ".*");
    assert SelectStatement(Custom, Some(Table), Some(SubQuery), Some(columns), [], []) == Ok("SELECT " + SubQuery + ", " + projected);
    QueryWithoutClauses(InitialState.(selectType := Custom, selectCustomColumn := Some(SubQuery), selectedColumns := Some(columns),
                                      primaryTableName := Some(Table)),
                        "SELECT " + SubQuery + ", " + projected);
  }

  lemma WhereQuery()
    ensures Query(InitialState.(primaryTableName := Some(Table), primaryFilterKey := Some("TestCol")))
            == Ok("SELECT t.*" + " FROM [TestTable] t" + " WHERE t.TestCol = @TestCol")
  {
    var q := InitialState.(primaryTableName := Some(Table), primaryFilterKey := Some("TestCol"));
    TableAlias();
    SelectAllFragment();
    FromFragment();
    WhereFragment();
    QueryComposition(q);
    OrderByEmptyCases(Some(Table), None, Descending);
    assert "SELECT t.*" + " FROM [TestTable] t" + " WHERE t.TestCol = @TestCol" + ""
           == "SELECT t.*" + " FROM [TestTable] t" + " WHERE t.TestCol = @TestCol";
  }

  lemma WhereAndQuery()
    ensures Query(InitialState.(primaryTableName := Some(Table), primaryFilterKey := Some("TestCol"), filters := [Some("TestCol2")]))
            == Ok("SELECT t.*" + " FROM [TestTable] t" + " WHERE t.TestCol = @TestCol" + " AND t.TestCol2 = @TestCol2")
  {
    var q := InitialState.(primaryTableName := Some(Table), primaryFilterKey := Some("TestCol"));
    TableAlias();
    WhereQuery();
    AndAppendsOneFilter(q, Some("TestCol2"));
    SecondFilterFragment();
    assert q.(filters := q.filters + [Some("TestCol2")])
           == InitialState.(primaryTableName := Some(Table), primaryFilterKey := Some("TestCol"), filters := [Some("TestCol2")]);
  }

  /** `SelectAll().Build()` without a table throws `ArgumentNullException`. */
  method NoPrimaryTable() returns (r: Result<string>)
    ensures r == Err(MissingArgument("_primaryTableName"))
  {
    var b := new FluentSqlQueryBuilder();
    b := b.SelectAll();
    r := b.Build();
  }

  method SelectAllFromTable() returns (r: Result<string>)
    ensures r == Ok("SELECT t.*" + " FROM [TestTable] t")
  {
    var b := new FluentSqlQueryBuilder();
    b := b.SelectAll();
    b := b.From(Some(Table));
    r := b.Build();
    SelectAllQuery();
  }

  /** The projection mode is the last one chosen. */
  method LastSelectWins() returns (r: Result<string>)
    ensures r == Ok("SELECT t.*" + " FROM [TestTable] t")
  {
    var b := new FluentSqlQueryBuilder();
    b := b.SelectCount();
    b := b.SelectAll();
    b := b.From(Some(Table));
    r := b.Build();
    SelectAllQuery();
  }

  method SelectAllOrderedAscending() returns (r: Result<string>)
    ensures r == Ok("SELECT t.*" + " FROM [TestTable] t" + " ORDER BY t.TestColAsc")
  {
    var b := new FluentSqlQueryBuilder();
    b := b.SelectAll();
    b := b.From(Some(Table));
    b := b.OrderBy(Some("TestColAsc"));
    r := b.Build();
    assert !IsWhiteSpace("TestColAsc"[0]);
    OrderedQuery("TestColAsc", false);
    assert " ORDER BY t." + "TestColAsc" + "" == " ORDER BY t.TestColAsc";
  }

  method SelectAllOrderedDescending() returns (r: Result<string>)
    ensures r == Ok("SELECT t.*" + " FROM [TestTable] t" + " ORDER BY t.TestColDesc DESC")
  {
    var b := new FluentSqlQueryBuilder();
    b := b.SelectAll();
    b := b.From(Some(Table));
    b := b.OrderByDescending(Some("TestColDesc"));
    r := b.Build();
    assert !IsWhiteSpace("TestColDesc"[0]);
    OrderedQuery("TestColDesc", true);
    assert " ORDER BY t." + "TestColDesc" + " DESC" == " ORDER BY t.TestColDesc DESC";
  }

  method SelectCountFromTable() returns (r: Result<string>)
    ensures r == Ok("SELECT COUNT(*)" + " FROM [TestTable] t")
  {
    var b := new FluentSqlQueryBuilder();
    b := b.SelectCount();
    b := b.From(Some(Table));
    r := b.Build();
    CountQuery();
  }

  method SelectSpecificColumns() returns (r: Result<string>)
    ensures r == Ok("SELECT " + "t.TestCol1,t.TestCol2" + " FROM [TestTable] t")
  {
    var b := new FluentSqlQueryBuilder();
    b := b.SelectSpecific(Some(TwoColumns));
    b := b.From(Some(Table));
    r := b.Build();
    SpecificQuery();
  }

  /** `SelectCustom(expr)` passes an empty `params` array, so `t.*` follows the expression. */
  method SelectCustomColumn() returns (r: Result<string>)
    ensures r == Ok("SELECT " + "(SELECT COUNT(*) FROM TestTableTwo) AS TestTableTwoCount" + ", " + "t.*" + " FROM [TestTable] t")
  {
    var b := new FluentSqlQueryBuilder();
    b := b.SelectCustom(Some(SubQuery), Some([]));
    b := b.From(Some(Table));
    r := b.Build();
    CustomQuery(false);
  }

  method SelectCustomAndSpecificColumns() returns (r: Result<string>)
    ensures r == Ok("SELECT " + "(SELECT COUNT(*) FROM TestTableTwo) AS TestTableTwoCount" + ", " + "t.TestCol1,t.TestCol2" + " FROM [TestTable] t")
  {
    var b := new FluentSqlQueryBuilder();
    b := b.SelectCustom(Some(SubQuery), Some(TwoColumns));
    b := b.From(Some(Table));
    r := b.Build();
    CustomQuery(true);
  }

  method SelectAllWithWhereFilter() returns (r: Result<string>)
    ensures r == Ok("SELECT t.*" + " FROM [TestTable] t" + " WHERE t.TestCol = @TestCol")
  {
    var b := new FluentSqlQueryBuilder();
    b := b.SelectAll();
    b := b.From(Some(Table));
    b := b.Where(Some("TestCol"));
    r := b.Build();
    WhereQuery();
  }

  method SelectAllWithMultipleFilters() returns (r: Result<string>)
    ensures r == Ok("SELECT t.*" + " FROM [TestTable] t" + " WHERE t.TestCol = @TestCol" + " AND t.TestCol2 = @TestCol2")
  {
    var b := new FluentSqlQueryBuilder();
    b := b.SelectAll();
    b := b.From(Some(Table));
    b := b.Where(Some("TestCol"));
    b := b.And(Some("TestCol2"));
    r := b.Build();
    assert b.State() == InitialState.(primaryTableName := Some(Table), primaryFilterKey := Some("TestCol"), filters := [Some("TestCol2")]);
    WhereAndQuery();
  }

  /** The join tests expect rendered joins, but the chain already throws at `InnerJoin`. */
  method InnerJoinThrows() returns (r: Result<FluentSqlQueryBuilder>)
    ensures r == Err(NotImplemented)
  {
    var b := new FluentSqlQueryBuilder();
    b := b.SelectAll();
    b := b.From(Some(Table));
    r := b.InnerJoin(Some("TestTableInner"), Some("TestTableKey1"), Some("TestTableInnerKey2"));
  }

  method LeftJoinThrows() returns (r: Result<FluentSqlQueryBuilder>)
    ensures r == Err(NotImplemented)
  {
    var b := new FluentSqlQueryBuilder();
    b := b.SelectAll();
    b := b.From(Some(Table));
    r := b.LeftJoin(Some("TestTableLeft1"), Some("TestTableKey1"), Some("TestTableLeftKey1"));
  }
}
