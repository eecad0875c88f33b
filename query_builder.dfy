/** The orchestrator, `FluentSqlQueryBuilder`: chain calls record the query's shape in fields,
    and `Build` validates the primary table and concatenates the SELECT, FROM, WHERE and
    ORDER BY fragments, in that order, with no separators of its own. */
module QueryBuilder {
  import opened Wrappers
  import opened Text
  import opened Alias
  import opened SelectClause
  import opened FromClause
  import opened OrderByClause
  import opened WhereClause

  /** The orchestrator's recorded fields. */
  datatype QueryState = QueryState(
    filters: seq<Option<string>>,
    selectType: SelectType,
    orderType: OrderType,
    selectedColumns: Option<seq<Option<string>>>,
    selectCustomColumn: Option<string>,
    primaryTableName: Option<string>,
    orderByColumn: Option<string>,
    primaryFilterKey: Option<string>)

  /** A new builder: no filters, projection `All`, direction `Descending`, every string null. */
  const InitialState: QueryState := QueryState([], All, Descending, None, None, None, None, None)

  /** What `Build()` returns or throws in a given state. The four fragments are computed in the
      order SELECT, FROM, ORDER BY, WHERE, so the first of those that throws decides the error;
      they are concatenated in the order SELECT, FROM, WHERE, ORDER BY. */
  function Query(q: QueryState): (r: Result<string>)
    ensures IsNullOrWhiteSpace(q.primaryTableName) ==> r == Err(MissingArgument("_primaryTableName"))
    ensures r.Ok? ==> |r.value| >= 7 && r.value[..7] == "SELECT "
  {
    if IsNullOrWhiteSpace(q.primaryTableName) then Err(MissingArgument("_primaryTableName"))
    else
      match SelectStatement(q.selectType, q.primaryTableName, q.selectCustomColumn, q.selectedColumns, [], [])
      case Err(e) => Err(e)
      case Ok(select) =>
        match FromStatement(q.primaryTableName)
        case Err(e) => Err(e)
        case Ok(from) =>
          match OrderByStatement(q.primaryTableName, q.orderByColumn, q.orderType)
          case Err(e) => Err(e)
          case Ok(orderBy) =>
            match WhereStatement(q.primaryTableName, q.primaryFilterKey, Some(q.filters))
            case Err(e) => Err(e)
            case Ok(where) => Ok(select + from + where + orderBy)
  }

  /** Without a usable primary table `Build` throws, whatever else was recorded. */
  lemma QueryFailsWithoutTable(q: QueryState)
    requires IsNullOrWhiteSpace(q.primaryTableName)
    ensures Query(q) == Err(MissingArgument("_primaryTableName"))
  {
  }

  /** Beyond the primary table, only the projection can make `Build` throw: the FROM, WHERE and
      ORDER BY fragments always succeed once the table is usable. On success the result is the
      four fragments in the fixed order. */
  lemma QueryComposition(q: QueryState)
    requires !IsNullOrWhiteSpace(q.primaryTableName)
    ensures var select := SelectStatement(q.selectType, q.primaryTableName, q.selectCustomColumn, q.selectedColumns, [], []);
            (select.Err? ==> Query(q) == Err(select.error))
            && (select.Ok? ==>
                  Query(q) == Ok(select.value
                                 + FromStatement(q.primaryTableName).value
                                 + WhereStatement(q.primaryTableName, q.primaryFilterKey, Some(q.filters)).value
                                 + OrderByStatement(q.primaryTableName, q.orderByColumn, q.orderType).value))
  {
    NotBlankIsNotEmpty(q.primaryTableName);
  }

  /** `Build` throws exactly when the table is unusable, `Specific` has no columns, or `Custom`
      has no expression. */
  lemma QueryFailsExactly(q: QueryState)
    ensures Query(q).Err? <==>
              IsNullOrWhiteSpace(q.primaryTableName)
              || (q.selectType == Specific && (q.selectedColumns.None? || |q.selectedColumns.value| == 0))
              || (q.selectType == Custom && q.selectCustomColumn.None?)
  {
    if !IsNullOrWhiteSpace(q.primaryTableName) {
      QueryComposition(q);
    }
  }

  /** The ORDER BY fragment comes last: it is what the query gains over the same query with no
      ordering column. */
  lemma OrderByIsLast(q: QueryState)
    requires Query(q).Ok?
    ensures Query(q.(orderByColumn := None)).Ok?
    ensures Query(q) == Ok(Query(q.(orderByColumn := None)).value
                           + OrderByStatement(q.primaryTableName, q.orderByColumn, q.orderType).value)
  {
    var p := q.(orderByColumn := None);
    QueryComposition(q);
    QueryComposition(p);
    var select := SelectStatement(q.selectType, q.primaryTableName, q.selectCustomColumn, q.selectedColumns, [], []).value;
    var from := FromStatement(q.primaryTableName).value;
    var where := WhereStatement(q.primaryTableName, q.primaryFilterKey, Some(q.filters)).value;
    assert Query(p).value == select + from + where + "";
    assert select + from + where + "" == select + from + where;
  }

  /** `And(k)` on a query without ordering appends exactly ` AND a.k = @k` to what `Build`
      returned before. */
  lemma AndAppendsOneFilter(q: QueryState, key: Option<string>)
    requires Query(q).Ok? && IsNullOrWhiteSpace(q.orderByColumn)
    ensures Query(q.(filters := q.filters + [key]))
            == Ok(Query(q).value + AndFragment(PortableTableNameAlias(q.primaryTableName), key))
  {
    var p := q.(filters := q.filters + [key]);
    QueryComposition(q);
    QueryComposition(p);
    NotBlankIsNotEmpty(q.primaryTableName);
    WhereAppendFilter(q.primaryTableName, q.primaryFilterKey, q.filters, key);
    var select := SelectStatement(q.selectType, q.primaryTableName, q.selectCustomColumn, q.selectedColumns, [], []).value;
    var from := FromStatement(q.primaryTableName).value;
    var where := WhereStatement(q.primaryTableName, q.primaryFilterKey, Some(q.filters)).value;
    var extra := AndFragment(PortableTableNameAlias(q.primaryTableName), key);
    assert OrderByStatement(q.primaryTableName, q.orderByColumn, q.orderType).value == "";
    AppendBeforeEmptySuffix(select + from, where, extra);
  }

  lemma AppendBeforeEmptySuffix(prefix: string, middle: string, extra: string)
    ensures prefix + (middle + extra) + "" == (prefix + middle + "") + extra
  {
  }

  /** `FluentSqlQueryBuilder`. It owns one concrete builder per clause and reconfigures them on
      every `Build`; it never gives the projection builder any joined tables. */
  class FluentSqlQueryBuilder {
    const selectBuilder: SqlSelectStatementBuilder
    const fromBuilder: SqlFromStatementBuilder
    const orderByBuilder: SqlOrderByStatementBuilder
    const whereBuilder: SqlWhereStatementBuilder

    var filters: seq<Option<string>>
    var selectType: SelectType
    var orderType: OrderType
    var selectedColumns: Option<seq<Option<string>>>
    var selectCustomColumn: Option<string>
    var primaryTableName: Option<string>
    var orderByColumn: Option<string>
    var primaryFilterKey: Option<string>

    ghost predicate Valid()
      reads this, selectBuilder
    {
      selectBuilder.innerJoinTables == [] && selectBuilder.leftJoinTables == []
    }

    function State(): QueryState
      reads this
    {
      QueryState(filters, selectType, orderType, selectedColumns, selectCustomColumn,
                 primaryTableName, orderByColumn, primaryFilterKey)
    }

    constructor ()
      ensures Valid() && State() == InitialState
      ensures fresh(selectBuilder) && fresh(fromBuilder) && fresh(orderByBuilder) && fresh(whereBuilder)
    {
      selectBuilder := new SqlSelectStatementBuilder();
      fromBuilder := new SqlFromStatementBuilder();
      orderByBuilder := new SqlOrderByStatementBuilder();
      whereBuilder := new SqlWhereStatementBuilder();
      filters := [];
      selectType := All;
      orderType := Descending;
      selectedColumns := None;
      selectCustomColumn := None;
      primaryTableName := None;
      orderByColumn := None;
      primaryFilterKey := None;
    }

    method SelectAll() returns (self: FluentSqlQueryBuilder)
      requires Valid()
      modifies this
      ensures Valid() && self == this
      ensures State() == old(State()).(selectType := All)
    {
      selectType := All;
      self := this;
    }

    method SelectCount() returns (self: FluentSqlQueryBuilder)
      requires Valid()
      modifies this
      ensures Valid() && self == this
      ensures State() == old(State()).(selectType := Count)
    {
      selectType := Count;
      self := this;
    }

    method SelectSpecific(columns: Option<seq<Option<string>>>) returns (self: FluentSqlQueryBuilder)
      requires Valid()
      modifies this
      ensures Valid() && self == this
      ensures State() == old(State()).(selectType := Specific, selectedColumns := columns)
    {
      selectType := Specific;
      selectedColumns := columns;
      self := this;
    }

    /** Records the expression and the columns; it leaves no earlier column list behind. */
    method SelectCustom(customColumn: Option<string>, columns: Option<seq<Option<string>>>) returns (self: FluentSqlQueryBuilder)
      requires Valid()
      modifies this
      ensures Valid() && self == this
      ensures State() == old(State()).(selectType := Custom, selectCustomColumn := customColumn, selectedColumns := columns)
    {
      selectType := Custom;
      selectCustomColumn := customColumn;
      selectedColumns := columns;
      self := this;
    }

    /** Joins are not implemented: the call always throws and records nothing. */
    method InnerJoin(innerTableName: Option<string>, leftKey: Option<string>, rightKey: Option<string>)
      returns (r: Result<FluentSqlQueryBuilder>)
      ensures r == Err(NotImplemented)
    {
      r := Err(NotImplemented);
    }

    /** Joins are not implemented: the call always throws and records nothing. */
    method LeftJoin(leftTableName: Option<string>, leftKey: Option<string>, rightKey: Option<string>)
      returns (r: Result<FluentSqlQueryBuilder>)
      ensures r == Err(NotImplemented)
    {
      r := Err(NotImplemented);
    }

    method From(tableName: Option<string>) returns (self: FluentSqlQueryBuilder)
      requires Valid()
      modifies this
      ensures Valid() && self == this
      ensures State() == old(State()).(primaryTableName := tableName)
    {
      primaryTableName := tableName;
      self := this;
    }

    /** Replaces the single primary filter key. */
    method Where(key: Option<string>) returns (self: FluentSqlQueryBuilder)
      requires Valid()
      modifies this
      ensures Valid() && self == this
      ensures State() == old(State()).(primaryFilterKey := key)
    {
      primaryFilterKey := key;
      self := this;
    }

    /** Appends a secondary filter, keeping call order and duplicates. */
    method And(key: Option<string>) returns (self: FluentSqlQueryBuilder)
      requires Valid()
      modifies this
      ensures Valid() && self == this
      ensures State() == old(State()).(filters := old(filters) + [key])
    {
      filters := filters + [key];
      self := this;
    }

    method OrderBy(columnName: Option<string>) returns (self: FluentSqlQueryBuilder)
      requires Valid()
      modifies this
      ensures Valid() && self == this
      ensures State() == old(State()).(orderType := Ascending, orderByColumn := columnName)
    {
      orderType := Ascending;
      orderByColumn := columnName;
      self := this;
    }

    method OrderByDescending(columnName: Option<string>) returns (self: FluentSqlQueryBuilder)
      requires Valid()
      modifies this
      ensures Valid() && self == this
      ensures State() == old(State()).(orderType := Descending, orderByColumn := columnName)
    {
      orderType := Descending;
      orderByColumn := columnName;
      self := this;
    }

    /** Configures the four clause builders from the recorded fields, renders each and
        concatenates the fragments. No field of the orchestrator changes. */
    method Build() returns (r: Result<string>)
      requires Valid()
      modifies selectBuilder, fromBuilder, orderByBuilder, whereBuilder
      ensures Valid() && State() == old(State())
      ensures r == Query(State())
    {
      if IsNullOrWhiteSpace(primaryTableName) {
        return Err(MissingArgument("_primaryTableName"));
      }

      var sb := selectBuilder.WithTableName(primaryTableName);
      sb := sb.WithCustomColumn(selectCustomColumn);
      sb := sb.WithSelectedColumns(selectedColumns);
      var sqlSelectStatement := sb.Build(selectType);
      if sqlSelectStatement.Err? {
        match sqlSelectStatement { case Err(e) => return Err(e); }
      }

      var fb := fromBuilder.WithTableName(primaryTableName);
      var sqlFromStatement := fb.Build();
      if sqlFromStatement.Err? {
        match sqlFromStatement { case Err(e) => return Err(e); }
      }

      var ob := orderByBuilder.WithTableName(primaryTableName);
      ob := ob.WithColumnName(orderByColumn);
      var sqlOrderByStatement := ob.Build(orderType);
      if sqlOrderByStatement.Err? {
        match sqlOrderByStatement { case Err(e) => return Err(e); }
      }

      var wb := whereBuilder.WithTableName(primaryTableName);
      wb := wb.WithPrimaryFilter(primaryFilterKey);
      wb := wb.WithSecondaryFilters(Some(filters));
      var sqlWhereStatement := wb.Build();
      if sqlWhereStatement.Err? {
        match sqlWhereStatement { case Err(e) => return Err(e); }
      }

      var sql := "";
      sql := sql + sqlSelectStatement.value;
      assert sql == sqlSelectStatement.value;
      sql := sql + sqlFromStatement.value;
      sql := sql + sqlWhereStatement.value;
      sql := sql + sqlOrderByStatement.value;
      r := Ok(sql);
    }
  }

  /** Two `Build` calls with no chain call between them return the same result. */
  method BuildTwice(builder: FluentSqlQueryBuilder) returns (first: Result<string>, second: Result<string>)
    requires builder.Valid()
    modifies builder.selectBuilder, builder.fromBuilder, builder.orderByBuilder, builder.whereBuilder
    ensures builder.Valid() && first == second
  {
    first := builder.Build();
    second := builder.Build();
  }
}
