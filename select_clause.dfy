/** The projection builder, `SqlSelectStatementBuilder`: renders the `SELECT` clause in one of
    four modes, and for the `All` mode appends one `alias{k}.*` column per joined table. */
module SelectClause {
  import opened Wrappers
  import opened Text
  import opened Alias

  /** `SqlSelectType`. `Undefined` stands for any value outside the four named members, which
      a cast from an integer can produce. */
  datatype SelectType = All | Count | Specific | Custom | Undefined

  /** `columns.Select(column => $"{alias}.{column}")`. */
  function QualifiedColumns(alias: string, columns: seq<Option<string>>): seq<string> {
    seq(|columns|, i requires 0 <= i < |columns| => alias + "." + Interp(columns[i]))
  }

  /** The alias of the `index`-th joined table: the table's own alias followed by the index. */
  function JoinAlias(tableName: string, index: nat): string {
    TableNameAlias(Some(tableName)) + NatToString(index)
  }

  /** The columns of the joined tables `names`, numbered from `start`. */
  function JoinItems(names: seq<string>, start: nat): seq<string> {
    seq(|names|, i requires 0 <= i < |names| => JoinAlias(names[i], start + i) + ".*")
  }

  /** What `BuildSelectJoinColumns` renders: inner tables first, then left tables, numbered by
      one counter from 0, separated by `", "`. */
  function JoinColumns(innerJoinTables: seq<string>, leftJoinTables: seq<string>): string {
    Join(", ", JoinItems(innerJoinTables + leftJoinTables, 0))
  }

  /** What `BuildSelectAllStatement` renders for a primary alias. */
  function SelectAllStatement(alias: string, innerJoinTables: seq<string>, leftJoinTables: seq<string>): string {
    var joiningTables :=
      if |innerJoinTables| > 0 || |leftJoinTables| > 0 then ", " + JoinColumns(innerJoinTables, leftJoinTables)
      else "";
    "SELECT " + alias + ".*" + joiningTables
  }

  /** `BuildSpecifcSelectStatment`: the qualified columns, comma-separated; throws without columns. */
  function SpecificSelectStatement(alias: string, columns: Option<seq<Option<string>>>): (r: Result<string>)
    ensures r.Err? <==> columns.None? || |columns.value| == 0
    ensures r.Err? ==> r.error == MissingArgument("_tableColumns")
    ensures r.Ok? ==> |r.value| >= 7 && r.value[..7] == "SELECT "
  {
    if columns.None? || |columns.value| == 0 then Err(MissingArgument("_tableColumns"))
    else Ok("SELECT " + Join(",", QualifiedColumns(alias, columns.value)))
  }

  /** `BuildCustomSelectStatment`: the custom expression, then either `alias.*` or the qualified
      columns; throws without an expression. */
  function CustomSelectStatement(alias: string, customColumn: Option<string>, columns: Option<seq<Option<string>>>): (r: Result<string>)
    ensures r.Err? <==> customColumn.None?
    ensures r.Err? ==> r.error == MissingArgument("_customColumn")
    ensures r.Ok? ==> var head := "SELECT " + customColumn.value + ", ";
                      |r.value| >= |head| && r.value[..|head|] == head
  {
    if customColumn.None? then Err(MissingArgument("_customColumn"))
    else if columns.None? || |columns.value| == 0 then Ok("SELECT " + customColumn.value + ", " + alias + ".*")
    else Ok("SELECT " + customColumn.value + ", " + Join(",", QualifiedColumns(alias, columns.value)))
  }

  /** What `Build(type)` returns or throws, in terms of the builder's fields. */
  function SelectStatement(kind: SelectType, tableName: Option<string>, customColumn: Option<string>,
                           columns: Option<seq<Option<string>>>,
                           innerJoinTables: seq<string>, leftJoinTables: seq<string>): (r: Result<string>)
    ensures IsNullOrWhiteSpace(tableName) ==> r == Err(MissingArgument("_tableName"))
    ensures r.Err? <==>
              IsNullOrWhiteSpace(tableName)
              || (kind == Specific && (columns.None? || |columns.value| == 0))
              || (kind == Custom && customColumn.None?)
    ensures r.Ok? ==> |r.value| >= 7 && r.value[..7] == "SELECT "
  {
    if IsNullOrWhiteSpace(tableName) then Err(MissingArgument("_tableName"))
    else
      var alias := TableNameAlias(tableName);
      match kind
      case All => Ok(SelectAllStatement(alias, innerJoinTables, leftJoinTables))
      case Count => Ok("SELECT COUNT(*)")
      case Specific => SpecificSelectStatement(alias, columns)
      case Custom => CustomSelectStatement(alias, customColumn, columns)
      case Undefined => Ok(SelectAllStatement(alias, innerJoinTables, leftJoinTables))
  }

  /** Every mode throws `ArgumentNullException("_tableName")` on a null or blank table name. */
  lemma SelectFailsOnBlankTable(kind: SelectType, tableName: Option<string>, customColumn: Option<string>,
                                columns: Option<seq<Option<string>>>,
                                innerJoinTables: seq<string>, leftJoinTables: seq<string>)
    requires IsNullOrWhiteSpace(tableName)
    ensures SelectStatement(kind, tableName, customColumn, columns, innerJoinTables, leftJoinTables)
            == Err(MissingArgument("_tableName"))
  {
  }

  /** `Count` renders the literal `SELECT COUNT(*)`, whatever the alias, columns and joins. */
  lemma SelectCountIsLiteral(tableName: Option<string>, customColumn: Option<string>,
                             columns: Option<seq<Option<string>>>,
                             innerJoinTables: seq<string>, leftJoinTables: seq<string>)
    requires !IsNullOrWhiteSpace(tableName)
    ensures SelectStatement(Count, tableName, customColumn, columns, innerJoinTables, leftJoinTables)
            == Ok("SELECT COUNT(*)")
  {
  }

  /** `All` without joins renders `SELECT a.*` for the lower-cased first character `a`. */
  lemma SelectAllWithoutJoins(tableName: string, customColumn: Option<string>, columns: Option<seq<Option<string>>>)
    requires !IsNullOrWhiteSpace(Some(tableName))
    ensures SelectStatement(All, Some(tableName), customColumn, columns, [], [])
            == Ok("SELECT " + [ToLower(tableName[0])] + ".*")
  {
    var alias := TableNameAlias(Some(tableName));
    assert SelectAllStatement(alias, [], []) == "SELECT " + alias + ".*" + "";
    assert "SELECT " + alias + ".*" + "" == "SELECT " + alias + ".*";
  }

  /** An unnamed select type renders exactly as `All` does. */
  lemma UndefinedSelectIsAll(tableName: Option<string>, customColumn: Option<string>,
                             columns: Option<seq<Option<string>>>,
                             innerJoinTables: seq<string>, leftJoinTables: seq<string>)
    ensures SelectStatement(Undefined, tableName, customColumn, columns, innerJoinTables, leftJoinTables)
            == SelectStatement(All, tableName, customColumn, columns, innerJoinTables, leftJoinTables)
  {
  }

  /** `Specific` fails exactly when the column list is null or empty; with one column `c` it
      renders `SELECT a.c`. */
  lemma SpecificSelectShape(alias: string, columns: Option<seq<Option<string>>>)
    ensures SpecificSelectStatement(alias, columns).Err? <==> columns.None? || |columns.value| == 0
    ensures SpecificSelectStatement(alias, columns).Err? ==> SpecificSelectStatement(alias, columns).error == MissingArgument("_tableColumns")
    ensures columns.Some? && |columns.value| == 1 ==>
              SpecificSelectStatement(alias, columns) == Ok("SELECT " + alias + "." + Interp(columns.value[0]))
  {
    if columns.Some? && |columns.value| == 1 {
      var item := alias + "." + Interp(columns.value[0]);
      assert QualifiedColumns(alias, columns.value) == [item];
      assert Join(",", [item]) == item;
      assert "SELECT " + item == "SELECT " + alias + "." + Interp(columns.value[0]);
    }
  }

  lemma QualifiedColumnsAppend(alias: string, columns: seq<Option<string>>, column: Option<string>)
    ensures QualifiedColumns(alias, columns + [column]) == QualifiedColumns(alias, columns) + [alias + "." + Interp(column)]
  {
  }

  /** Each further column appends `,a.c` to the list: the columns appear in array order, each
      qualified by the alias, with commas and no spaces between them. */
  lemma SpecificSelectAppend(alias: string, columns: seq<Option<string>>, column: Option<string>)
    requires |columns| > 0
    ensures SpecificSelectStatement(alias, Some(columns + [column]))
            == Ok(SpecificSelectStatement(alias, Some(columns)).value + "," + alias + "." + Interp(column))
  {
    var item := alias + "." + Interp(column);
    QualifiedColumnsAppend(alias, columns, column);
    JoinAppend(",", QualifiedColumns(alias, columns), item);
    var joined := Join(",", QualifiedColumns(alias, columns));
    assert Join(",", QualifiedColumns(alias, columns + [column])) == joined + "," + item;
    assert "SELECT " + (joined + "," + item) == "SELECT " + joined + "," + alias + "." + Interp(column);
  }

  /** `Custom` fails exactly when the expression is null, never lists join columns, and with
      columns renders the expression, `", "` and the `Specific` column list. */
  lemma CustomSelectShape(alias: string, customColumn: Option<string>, columns: Option<seq<Option<string>>>)
    ensures CustomSelectStatement(alias, customColumn, columns).Err? <==> customColumn.None?
    ensures CustomSelectStatement(alias, customColumn, columns).Err? ==>
              CustomSelectStatement(alias, customColumn, columns).error == MissingArgument("_customColumn")
    ensures customColumn.Some? && (columns.None? || |columns.value| == 0) ==>
              CustomSelectStatement(alias, customColumn, columns) == Ok("SELECT " + customColumn.value + ", " + alias + ".*")
    ensures customColumn.Some? && columns.Some? && |columns.value| > 0 ==>
              CustomSelectStatement(alias, customColumn, columns)
              == Ok("SELECT " + customColumn.value + ", " + SpecificSelectStatement(alias, columns).value[|"SELECT "|..])
  {
  }

  /** The projection of `Custom`, `Specific` and `Count` does not depend on the joined tables. */
  lemma OnlyAllListsJoins(kind: SelectType, tableName: Option<string>, customColumn: Option<string>,
                          columns: Option<seq<Option<string>>>,
                          innerJoinTables: seq<string>, leftJoinTables: seq<string>)
    requires kind != All && kind != Undefined
    ensures SelectStatement(kind, tableName, customColumn, columns, innerJoinTables, leftJoinTables)
            == SelectStatement(kind, tableName, customColumn, columns, [], [])
  {
  }

  /** The `k`-th join column is `alias(name) + k + ".*"`, inner tables taking `0 .. |inner|-1`
      and left tables continuing the same counter. */
  lemma JoinItemAt(innerJoinTables: seq<string>, leftJoinTables: seq<string>, k: nat)
    requires k < |innerJoinTables| + |leftJoinTables|
    ensures |JoinItems(innerJoinTables + leftJoinTables, 0)| == |innerJoinTables| + |leftJoinTables|
    ensures k < |innerJoinTables| ==>
              JoinItems(innerJoinTables + leftJoinTables, 0)[k]
              == TableNameAlias(Some(innerJoinTables[k])) + NatToString(k) + ".*"
    ensures |innerJoinTables| <= k ==>
              JoinItems(innerJoinTables + leftJoinTables, 0)[k]
              == TableNameAlias(Some(leftJoinTables[k - |innerJoinTables|])) + NatToString(k) + ".*"
  {
  }

  /** The join columns are prefixed by `", "` exactly when some table is joined. */
  lemma SelectAllListsJoinsOnlyWhenPresent(alias: string, innerJoinTables: seq<string>, leftJoinTables: seq<string>)
    ensures |innerJoinTables| + |leftJoinTables| == 0 ==>
              SelectAllStatement(alias, innerJoinTables, leftJoinTables) == "SELECT " + alias + ".*"
    ensures |innerJoinTables| + |leftJoinTables| > 0 ==>
              SelectAllStatement(alias, innerJoinTables, leftJoinTables)
              == "SELECT " + alias + ".*, " + JoinColumns(innerJoinTables, leftJoinTables)
  {
  }

  /** The numeric suffix keeps the aliases of joined tables apart: tables with usable names at
      different positions get different aliases, even when their names share a first character. */
  lemma JoinAliasesDistinct(a: string, i: nat, b: string, j: nat)
    requires !IsNullOrWhiteSpace(Some(a)) && !IsNullOrWhiteSpace(Some(b))
    requires i != j
    ensures JoinAlias(a, i) != JoinAlias(b, j)
  {
    NatToStringInjective(i, j);
    assert JoinAlias(a, i)[1..] == NatToString(i);
    assert JoinAlias(b, j)[1..] == NatToString(j);
  }

  /** No joined table's alias equals the primary table's alias, which has one character. */
  lemma JoinAliasDiffersFromPrimary(primary: Option<string>, name: string, index: nat)
    requires !IsNullOrWhiteSpace(Some(name))
    ensures TableNameAlias(primary) != JoinAlias(name, index)
  {
  }

  /** Why `JoinAliasesDistinct` needs usable names: a blank joined name has the empty alias,
      so its numbered alias can coincide with another table's. The blank name at position 10
      and the name `1x` at position 0 both get `10`. */
  lemma BlankJoinAliasCollides()
    ensures JoinAlias(" ", 10) == JoinAlias("1x", 0) == "10"
  {
    assert IsWhiteSpace(' ');
    assert TableNameAlias(Some(" ")) == "";
    assert "1x"[0] == '1' && !IsWhiteSpace("1x"[0]) && ToLower('1') == '1';
    assert TableNameAlias(Some("1x")) == "1";
    assert NatToString(10) == NatToString(1) + [DigitChar(0)] == "10";
  }

  /** Why `JoinAliasDiffersFromPrimary` needs a usable name: the blank name at position 0 gets
      the join alias `0`, which is also the alias of a primary table named `0abc`. */
  lemma BlankJoinAliasMatchesPrimary()
    ensures JoinAlias(" ", 0) == TableNameAlias(Some("0abc")) == "0"
  {
    assert IsWhiteSpace(' ');
    assert TableNameAlias(Some(" ")) == "";
    assert "0abc"[0] == '0' && !IsWhiteSpace("0abc"[0]) && ToLower('0') == '0';
    assert NatToString(0) == "0";
  }

  /** `SqlSelectStatementBuilder`: each `With*` setter overwrites one field and returns the builder. */
  class SqlSelectStatementBuilder {
    var tableName: Option<string>
    var customColumn: Option<string>
    var tableColumns: Option<seq<Option<string>>>
    /** The keys of the inner-join and left-join dictionaries, in enumeration order. */
    var innerJoinTables: seq<string>
    var leftJoinTables: seq<string>

    constructor ()
      ensures tableName == None && customColumn == None && tableColumns == None
      ensures innerJoinTables == [] && leftJoinTables == []
    {
      tableName := None;
      customColumn := None;
      tableColumns := None;
      innerJoinTables := [];
      leftJoinTables := [];
    }

    method WithTableName(name: Option<string>) returns (self: SqlSelectStatementBuilder)
      modifies this`tableName
      ensures self == this && tableName == name
    {
      tableName := name;
      self := this;
    }

    method WithCustomColumn(column: Option<string>) returns (self: SqlSelectStatementBuilder)
      modifies this`customColumn
      ensures self == this && customColumn == column
    {
      customColumn := column;
      self := this;
    }

    method WithSelectedColumns(columns: Option<seq<Option<string>>>) returns (self: SqlSelectStatementBuilder)
      modifies this`tableColumns
      ensures self == this && tableColumns == columns
    {
      tableColumns := columns;
      self := this;
    }

    method WithInnerJoinTables(names: seq<string>) returns (self: SqlSelectStatementBuilder)
      modifies this`innerJoinTables
      ensures self == this && innerJoinTables == names
    {
      innerJoinTables := names;
      self := this;
    }

    method WithLeftJoinTables(names: seq<string>) returns (self: SqlSelectStatementBuilder)
      modifies this`leftJoinTables
      ensures self == this && leftJoinTables == names
    {
      leftJoinTables := names;
      self := this;
    }

    /** Renders the clause for `kind`, or the exception it throws. */
    method Build(kind: SelectType) returns (r: Result<string>)
      ensures r == SelectStatement(kind, tableName, customColumn, tableColumns, innerJoinTables, leftJoinTables)
    {
      if IsNullOrWhiteSpace(tableName) {
        return Err(MissingArgument("_tableName"));
      }
      var alias := TableNameAlias(tableName);
      match kind {
        case All =>
          var s := BuildSelectAllStatement(alias);
          r := Ok(s);
        case Count =>
          r := Ok("SELECT COUNT(*)");
        case Specific =>
          r := SpecificSelectStatement(alias, tableColumns);
        case Custom =>
          r := CustomSelectStatement(alias, customColumn, tableColumns);
        case Undefined =>
          var s := BuildSelectAllStatement(alias);
          r := Ok(s);
      }
    }

    method BuildSelectAllStatement(alias: string) returns (s: string)
      ensures s == SelectAllStatement(alias, innerJoinTables, leftJoinTables)
    {
      var joiningTables := "";
      if |innerJoinTables| > 0 || |leftJoinTables| > 0 {
        var columns := BuildSelectJoinColumns();
        joiningTables := ", " + columns;
      }
      s := "SELECT " + alias + ".*" + joiningTables;
    }

    /** Walks the inner tables and then the left tables with one running join index. */
    method BuildSelectJoinColumns() returns (s: string)
      ensures s == JoinColumns(innerJoinTables, leftJoinTables)
    {
      var joinIndex := 0;
      var tableAliases: seq<string> := [];
      var i := 0;
      while i < |innerJoinTables|
        invariant 0 <= i <= |innerJoinTables|
        invariant joinIndex == i
        invariant tableAliases == JoinItems(innerJoinTables[..i], 0)
      {
        var innerJoinAlias := TableNameAlias(Some(innerJoinTables[i]));
        var aliasSelect := innerJoinAlias + NatToString(joinIndex) + ".*";
        assert innerJoinTables[..i + 1] == innerJoinTables[..i] + [innerJoinTables[i]];
        tableAliases := tableAliases + [aliasSelect];
        joinIndex := joinIndex + 1;
        i := i + 1;
      }
      assert innerJoinTables[..i] == innerJoinTables + leftJoinTables[..0];
      var j := 0;
      while j < |leftJoinTables|
        invariant 0 <= j <= |leftJoinTables|
        invariant joinIndex == |innerJoinTables| + j
        invariant tableAliases == JoinItems(innerJoinTables + leftJoinTables[..j], 0)
      {
        var leftJoinAlias := TableNameAlias(Some(leftJoinTables[j]));
        var aliasSelect := leftJoinAlias + NatToString(joinIndex) + ".*";
        assert innerJoinTables + leftJoinTables[..j + 1] == (innerJoinTables + leftJoinTables[..j]) + [leftJoinTables[j]];
        tableAliases := tableAliases + [aliasSelect];
        joinIndex := joinIndex + 1;
        j := j + 1;
      }
      assert leftJoinTables[..j] == leftJoinTables;
      s := Join(", ", tableAliases);
    }
  }
}
