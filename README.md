# Fluent SQL SELECT builder — a Dafny model

This project models the core of `fsqb`, a fluent, in-memory builder for the text of one SQL
`SELECT` statement. A caller chains calls on a `FluentSqlQueryBuilder` (`SelectAll`, `From`,
`Where`, `And`, `OrderBy`, …). Each call only records intent in a field. `Build()` then checks the
primary table name, has four clause builders render their fragments, and concatenates them as
SELECT, FROM, WHERE, ORDER BY with no separators of its own. The clause builders are
`SqlSelectStatementBuilder` (four projection modes, plus the `alias{k}.*` join columns),
`SqlFromStatementBuilder`, `SqlWhereStatementBuilder` (`@key` placeholders) and
`SqlOrderByStatementBuilder`. All of them alias a table by its lower-cased first character
(`TableNameAlias`, in two copies).

Modules, one per component:

- `Wrappers`: `Option` for a nullable reference, `Result` for a value or a thrown exception.
  `Error.MissingArgument(paramName)` is `ArgumentNullException` and carries the `nameof` the code
  passes; `Error.NotImplemented` is `NotImplementedException`.
- `Text`: the .NET helpers the code uses. `IsWhiteSpace` lists exactly the code points of
  `char.IsWhiteSpace`. `IsNullOrWhiteSpace` and `IsNullOrEmpty` work on `Option<string>`.
  `Interp` is what string interpolation renders for a possibly-null string. `Join`, `Concat` and
  `NatToString` model `string.Join`, `string.Concat` and the decimal rendering of the join index.
  `DecimalValue` is the inverse of `NatToString`.
- `Alias`: both `TableNameAlias` variants, and a proof that they agree. The projection and
  ordering builders use the Fluent.SqlBuilder copy. The FROM and WHERE builders live in the
  Fluent.SqlBuilder.Portable namespace and use that namespace's copy.
- `SelectClause`, `FromClause`, `WhereClause`, `OrderByClause`: one class per builder. The setters
  overwrite one field each (`modifies this`field`) and return the builder. The rendering is pure
  where the source is pure: `FromStatement` and `OrderByStatement` are functions. The select and
  where `Build`s are methods. The select one loops over the join tables with a running index; the
  where one appends to a text as the `StringBuilder` does. Each method is proved equal to a
  specification function (`SelectStatement`, `JoinColumns`, `WhereStatement`), and the properties
  are lemmas about those functions.
- `QueryBuilder`: the orchestrator class. `State()` gives its eight recorded fields as a
  `QueryState`. Every chain method ensures `self == this` and names the fields it overwrites.
  `Build` ensures `r == Query(State())` and leaves the state unchanged. `Query` is the pure
  specification, and the lemmas about it cover the rest. The orchestrator owns one fresh builder
  per clause. Its invariant `Valid()` records that the projection builder never receives joined
  tables.
- `Scenarios`: the test cases of `Fluent.SqlBuilderTests/FluentSqlQueryBuilderTests.cs`. Each
  is written as the same chain of calls on a fresh orchestrator, and its result is proved to be
  the expected string. The expected string is written as the concatenation of its clause fragments, for
  example `"SELECT t.*" + " FROM [TestTable] t" + " WHERE t.TestCol = @TestCol"`.

Behaviour of the code worth knowing:

- The WHERE builder renders secondary filters even when there is no primary key. The output then
  starts with ` AND `.
- The WHERE builder rejects only a null or empty table name. A white-space name passes and gets
  the empty alias.
- ORDER BY defaults to `Descending`.
- `InnerJoin` and `LeftJoin` throw, and nothing renders a JOIN clause. So the three join tests
  (`FluentSqlQueryBuilderTests.cs:144-181`) expect output this code cannot produce: the chain
  throws at the join call (`Scenarios.InnerJoinThrows`, `Scenarios.LeftJoinThrows`).

## Model

| member | source | states |
|---|---|---|
| `Alias.TableNameAlias` | Fluent.SqlBuilder/SqlStringExtensions.cs:7-16 | empty exactly for a null or white-space name; otherwise the one-character string of the lower-cased first character; never longer than one character; total |
| `Alias.PortableTableNameAlias` | Fluent.SqlBuilder.Portable/SqlStringExtensions.cs:7-16 | same result; the `new char()` fallback of the index guard is proved unreachable (an `assert false` in that branch) |
| `Alias.AliasVariantsAgree` | Fluent.SqlBuilder.Portable/SqlStringExtensions.cs:7-16 | the two copies return the same alias on every input, null included |
| `Alias.AliasIgnoresAllButFirst` | Fluent.SqlBuilder/SqlStringExtensions.cs:14-15 | two usable names with the same first character get the same alias, so aliases are not unique |
| `Text.NotBlankIsNotEmpty` | Fluent.SqlBuilder.Portable/SqlStringExtensions.cs:9-14 | a string that is not null or white space is not null or empty, so `Length > 0` holds after the guard |
| `Text.JoinAppend` | Fluent.SqlBuilder/SqlSelectStatementBuilder.cs:125 | `string.Join` puts exactly one separator before each further item |
| `Text.ConcatAppend` | Fluent.SqlBuilder/Fluent.SqlBuilder.Portable/SqlWhereStatementBuilder.cs:50 | `string.Concat` of one more item appends exactly that item |
| `Text.NatToString` | Fluent.SqlBuilder/SqlSelectStatementBuilder.cs:73 | the rendered join index is a non-empty string of decimal digits |
| `Text.DecimalValueOfNatToString` | Fluent.SqlBuilder/SqlSelectStatementBuilder.cs:73 | reading the digits back gives the index again (round trip) |
| `Text.NatToStringInjective` | Fluent.SqlBuilder/SqlSelectStatementBuilder.cs:73 | different indices render as different digit strings |
| `SelectClause.SelectFailsOnBlankTable` | Fluent.SqlBuilder/SqlSelectStatementBuilder.cs:36-39 | every select type throws `ArgumentNullException("_tableName")` on a null or white-space table name |
| `SelectClause.SelectCountIsLiteral` | Fluent.SqlBuilder/SqlSelectStatementBuilder.cs:47-48 | `Count` renders `SELECT COUNT(*)` whatever the alias, columns, custom expression and joins |
| `SelectClause.SelectAllWithoutJoins` | Fluent.SqlBuilder/SqlSelectStatementBuilder.cs:59-63 | `All` with no joined tables renders `SELECT a.*`, with `a` the lower-cased first character |
| `SelectClause.UndefinedSelectIsAll` | Fluent.SqlBuilder/SqlSelectStatementBuilder.cs:53-54 | a select type outside the named members renders exactly as `All` |
| `SelectClause.SpecificSelectStatement` | Fluent.SqlBuilder/SqlSelectStatementBuilder.cs:117-126 | throws `ArgumentNullException("_tableColumns")` exactly when the column array is null or empty; otherwise the text starts with `SELECT ` |
| `SelectClause.CustomSelectStatement` | Fluent.SqlBuilder/SqlSelectStatementBuilder.cs:101-115 | throws `ArgumentNullException("_customColumn")` exactly when the expression is null; otherwise the text starts with `SELECT `, the expression and `, ` |
| `SelectClause.SelectStatement` | Fluent.SqlBuilder/SqlSelectStatementBuilder.cs:34-57 | a blank table throws `ArgumentNullException("_tableName")`; it throws exactly for a blank table, `Specific` without columns or `Custom` without an expression; every result starts with `SELECT ` |
| `SelectClause.SpecificSelectShape` | Fluent.SqlBuilder/SqlSelectStatementBuilder.cs:117-126 | `Specific` throws `ArgumentNullException("_tableColumns")` exactly when the column array is null or empty; one column `c` gives `SELECT a.c` |
| `SelectClause.QualifiedColumnsAppend` | Fluent.SqlBuilder/SqlSelectStatementBuilder.cs:124 | qualifying one more column appends exactly `a.c` to the list |
| `SelectClause.SpecificSelectAppend` | Fluent.SqlBuilder/SqlSelectStatementBuilder.cs:124-125 | each further column adds `,a.c` at the end: array order, comma without space, each column qualified |
| `SelectClause.CustomSelectShape` | Fluent.SqlBuilder/SqlSelectStatementBuilder.cs:101-115 | `Custom` throws `ArgumentNullException("_customColumn")` exactly when the expression is null; without columns it renders `SELECT e, a.*`; with columns it renders `SELECT e, ` and the same list as `Specific` |
| `SelectClause.OnlyAllListsJoins` | Fluent.SqlBuilder/SqlSelectStatementBuilder.cs:43-56 | `Count`, `Specific` and `Custom` render the same whatever tables are joined |
| `SelectClause.JoinItemAt` | Fluent.SqlBuilder/SqlSelectStatementBuilder.cs:65-87 | the k-th join column is `alias(name) + k + ".*"`; inner tables take the first indices and left tables continue the same counter from 0 |
| `SelectClause.SelectAllListsJoinsOnlyWhenPresent` | Fluent.SqlBuilder/SqlSelectStatementBuilder.cs:59-63 | the join columns follow `a.*` behind `", "` exactly when at least one table is joined |
| `SelectClause.JoinAliasesDistinct` | Fluent.SqlBuilder/SqlSelectStatementBuilder.cs:72-73 | joined tables with usable names at different positions get different aliases, even with the same first character |
| `SelectClause.JoinAliasDiffersFromPrimary` | Fluent.SqlBuilder/SqlSelectStatementBuilder.cs:41 | no joined table with a usable name has the primary table's alias |
| `SelectClause.BlankJoinAliasCollides` | Fluent.SqlBuilder/SqlSelectStatementBuilder.cs:72-73 | counterexample: a blank joined name at index 10 and the name `1x` at index 0 both get the join alias `10`, so `JoinAliasesDistinct` needs usable names |
| `SelectClause.BlankJoinAliasMatchesPrimary` | Fluent.SqlBuilder/SqlSelectStatementBuilder.cs:72-73 | counterexample: a blank joined name at index 0 gets `0`, the alias of a primary table named `0abc`, so `JoinAliasDiffersFromPrimary` needs a usable name |
| `SelectClause.SqlSelectStatementBuilder.constructor` | Fluent.SqlBuilder/SqlSelectStatementBuilder.cs:10-14 | a new builder has null strings and columns and empty join dictionaries |
| `SelectClause.SqlSelectStatementBuilder.WithTableName` | Fluent.SqlBuilder/SqlSelectStatementBuilder.cs:16-20 | overwrites only the table name and returns the builder |
| `SelectClause.SqlSelectStatementBuilder.WithCustomColumn` | Fluent.SqlBuilder/SqlSelectStatementBuilder.cs:22-26 | overwrites only the custom expression and returns the builder |
| `SelectClause.SqlSelectStatementBuilder.WithSelectedColumns` | Fluent.SqlBuilder/SqlSelectStatementBuilder.cs:28-32 | overwrites only the column array and returns the builder |
| `SelectClause.SqlSelectStatementBuilder.WithInnerJoinTables` | Fluent.SqlBuilder/SqlSelectStatementBuilder.cs:89-93 | overwrites only the inner-join tables and returns the builder |
| `SelectClause.SqlSelectStatementBuilder.WithLeftJoinTables` | Fluent.SqlBuilder/SqlSelectStatementBuilder.cs:95-99 | overwrites only the left-join tables and returns the builder |
| `SelectClause.SqlSelectStatementBuilder.Build` | Fluent.SqlBuilder/SqlSelectStatementBuilder.cs:34-57 | returns or throws exactly what `SelectStatement` gives for the current fields |
| `SelectClause.SqlSelectStatementBuilder.BuildSelectAllStatement` | Fluent.SqlBuilder/SqlSelectStatementBuilder.cs:59-63 | renders `SelectAllStatement` for the current join tables |
| `SelectClause.SqlSelectStatementBuilder.BuildSelectJoinColumns` | Fluent.SqlBuilder/SqlSelectStatementBuilder.cs:65-87 | the two loops with a running index build exactly the `", "`-joined `JoinColumns` of inner then left tables |
| `FromClause.FromStatement` | Fluent.SqlBuilder.Portable/SqlFromStatementBuilder.cs:14-24 | throws `ArgumentNullException("_tableName")` exactly on a null or white-space name; otherwise ` FROM [T] ` followed by the lower-cased first character of `T` |
| `FromClause.FromCopiesTableName` | Fluent.SqlBuilder.Portable/SqlFromStatementBuilder.cs:23 | the name appears verbatim, unescaped, between the brackets, and the clause ends in `] ` and a one-character alias |
| `FromClause.SqlFromStatementBuilder.constructor` | Fluent.SqlBuilder.Portable/SqlFromStatementBuilder.cs:7 | a new builder has a null table name |
| `FromClause.SqlFromStatementBuilder.WithTableName` | Fluent.SqlBuilder.Portable/SqlFromStatementBuilder.cs:8-12 | overwrites the table name (the last one set wins) and returns the builder |
| `FromClause.SqlFromStatementBuilder.Build` | Fluent.SqlBuilder.Portable/SqlFromStatementBuilder.cs:14-24 | renders `FromStatement` of the name last set, and throws exactly while that name is null or blank |
| `OrderByClause.OrderByStatement` | Fluent.SqlBuilder/SqlOrderByStatementBuilder.cs:21-45 | throws exactly on a null or white-space table name, checked before the column; empty for a blank column or an unnamed direction; ` ORDER BY a.c` ascending; ` ORDER BY a.c DESC` descending |
| `OrderByClause.DescendingExtendsAscending` | Fluent.SqlBuilder/SqlOrderByStatementBuilder.cs:37-40 | the descending clause is the ascending one followed by ` DESC` |
| `OrderByClause.OrderByEmptyCases` | Fluent.SqlBuilder/SqlOrderByStatementBuilder.cs:28-42 | a blank column, or a direction outside the named members, silently renders the empty string |
| `OrderByClause.SqlOrderByStatementBuilder.constructor` | Fluent.SqlBuilder/SqlOrderByStatementBuilder.cs:7-8 | a new builder has a null table name and a null column name |
| `OrderByClause.SqlOrderByStatementBuilder.WithTableName` | Fluent.SqlBuilder/SqlOrderByStatementBuilder.cs:9-13 | overwrites only the table name and returns the builder |
| `OrderByClause.SqlOrderByStatementBuilder.WithColumnName` | Fluent.SqlBuilder/SqlOrderByStatementBuilder.cs:15-19 | overwrites only the column name and returns the builder |
| `OrderByClause.SqlOrderByStatementBuilder.Build` | Fluent.SqlBuilder/SqlOrderByStatementBuilder.cs:21-45 | renders `OrderByStatement` of the current fields; throws exactly while the table name is null or blank; renders nothing while the column is null or blank |
| `WhereClause.WhereFailsOnlyOnNullOrEmpty` | Fluent.SqlBuilder/Fluent.SqlBuilder.Portable/SqlWhereStatementBuilder.cs:34-37 | throws `ArgumentNullException("_tableName")` exactly when the table name is null or empty |
| `WhereClause.WhereStatement` | Fluent.SqlBuilder/Fluent.SqlBuilder.Portable/SqlWhereStatementBuilder.cs:32-55 | throws `ArgumentNullException("_tableName")` exactly for a null or empty table name; with a usable primary key the clause starts with ` WHERE ` |
| `WhereClause.WhereAcceptsWhiteSpaceTable` | Fluent.SqlBuilder/Fluent.SqlBuilder.Portable/SqlWhereStatementBuilder.cs:34-44 | a white-space table name is accepted and renders with the empty alias |
| `WhereClause.WherePrimaryOnly` | Fluent.SqlBuilder/Fluent.SqlBuilder.Portable/SqlWhereStatementBuilder.cs:42-46 | a usable primary key `k` with no filters renders ` WHERE a.k = @k` |
| `WhereClause.WhereEmpty` | Fluent.SqlBuilder/Fluent.SqlBuilder.Portable/SqlWhereStatementBuilder.cs:39-54 | a blank primary key with null or empty filters renders the empty string |
| `WhereClause.AndFragmentsAppend` | Fluent.SqlBuilder/Fluent.SqlBuilder.Portable/SqlWhereStatementBuilder.cs:50 | one more filter adds exactly one ` AND a.f = @f` at the end |
| `WhereClause.WhereAppendFilter` | Fluent.SqlBuilder/Fluent.SqlBuilder.Portable/SqlWhereStatementBuilder.cs:48-52 | a filter added last appends ` AND a.f = @f` to the clause and changes nothing before it, with or without a primary key |
| `WhereClause.WhereFiltersWithoutPrimary` | Fluent.SqlBuilder/Fluent.SqlBuilder.Portable/SqlWhereStatementBuilder.cs:42-52 | filters without a primary key are still rendered, so the clause opens with ` AND ` |
| `WhereClause.SqlWhereStatementBuilder.constructor` | Fluent.SqlBuilder/Fluent.SqlBuilder.Portable/SqlWhereStatementBuilder.cs:10-12 | a new builder has null key and table and an empty filter list |
| `WhereClause.SqlWhereStatementBuilder.WithTableName` | Fluent.SqlBuilder/Fluent.SqlBuilder.Portable/SqlWhereStatementBuilder.cs:14-18 | overwrites only the table name and returns the builder |
| `WhereClause.SqlWhereStatementBuilder.WithPrimaryFilter` | Fluent.SqlBuilder/Fluent.SqlBuilder.Portable/SqlWhereStatementBuilder.cs:20-24 | overwrites only the primary key and returns the builder |
| `WhereClause.SqlWhereStatementBuilder.WithSecondaryFilters` | Fluent.SqlBuilder/Fluent.SqlBuilder.Portable/SqlWhereStatementBuilder.cs:26-30 | overwrites only the filter list and returns the builder |
| `WhereClause.SqlWhereStatementBuilder.Build` | Fluent.SqlBuilder/Fluent.SqlBuilder.Portable/SqlWhereStatementBuilder.cs:32-55 | the conditional appends produce exactly `WhereStatement` of the current fields |
| `QueryBuilder.QueryFailsWithoutTable` | Fluent.SqlBuilder/FluentSqlQueryBuilder.cs:109-112 | with a null or white-space primary table, `Build` throws `ArgumentNullException("_primaryTableName")` whatever else was recorded |
| `QueryBuilder.Query` | Fluent.SqlBuilder/FluentSqlQueryBuilder.cs:107-145 | a blank primary table throws `ArgumentNullException("_primaryTableName")`; every query that builds starts with `SELECT ` |
| `QueryBuilder.QueryComposition` | Fluent.SqlBuilder/FluentSqlQueryBuilder.cs:114-144 | with a usable table, a projection error is passed on unchanged; otherwise the result is select + from + where + orderBy, WHERE before ORDER BY, nothing in between |
| `QueryBuilder.QueryFailsExactly` | Fluent.SqlBuilder/FluentSqlQueryBuilder.cs:107-145 | `Build` throws exactly when the table is unusable, `Specific` has no columns, or `Custom` has no expression |
| `QueryBuilder.OrderByIsLast` | Fluent.SqlBuilder/FluentSqlQueryBuilder.cs:139-144 | the ORDER BY fragment is appended after everything the same query renders without an ordering column |
| `QueryBuilder.AndAppendsOneFilter` | Fluent.SqlBuilder/FluentSqlQueryBuilder.cs:87-91 | one more `And(k)` on a query without ordering appends exactly ` AND a.k = @k` to the built text |
| `QueryBuilder.FluentSqlQueryBuilder.constructor` | Fluent.SqlBuilder/FluentSqlQueryBuilder.cs:16-35 | a new orchestrator has no filters, projection `All`, direction `Descending`, null strings, and fresh clause builders with no joins |
| `QueryBuilder.FluentSqlQueryBuilder.SelectAll` | Fluent.SqlBuilder/FluentSqlQueryBuilder.cs:38-42 | sets the projection to `All`, changes nothing else, returns the builder |
| `QueryBuilder.FluentSqlQueryBuilder.SelectCount` | Fluent.SqlBuilder/FluentSqlQueryBuilder.cs:44-48 | sets the projection to `Count`, changes nothing else, returns the builder |
| `QueryBuilder.FluentSqlQueryBuilder.SelectSpecific` | Fluent.SqlBuilder/FluentSqlQueryBuilder.cs:50-55 | sets `Specific` and the columns, changes nothing else, returns the builder |
| `QueryBuilder.FluentSqlQueryBuilder.SelectCustom` | Fluent.SqlBuilder/FluentSqlQueryBuilder.cs:57-63 | sets `Custom`, the expression and the columns, changes nothing else, returns the builder |
| `QueryBuilder.FluentSqlQueryBuilder.InnerJoin` | Fluent.SqlBuilder/FluentSqlQueryBuilder.cs:65-68 | always throws `NotImplementedException` |
| `QueryBuilder.FluentSqlQueryBuilder.LeftJoin` | Fluent.SqlBuilder/FluentSqlQueryBuilder.cs:70-73 | always throws `NotImplementedException` |
| `QueryBuilder.FluentSqlQueryBuilder.From` | Fluent.SqlBuilder/FluentSqlQueryBuilder.cs:75-79 | sets the primary table, changes nothing else, returns the builder |
| `QueryBuilder.FluentSqlQueryBuilder.Where` | Fluent.SqlBuilder/FluentSqlQueryBuilder.cs:81-85 | replaces the single primary key, changes nothing else, returns the builder |
| `QueryBuilder.FluentSqlQueryBuilder.And` | Fluent.SqlBuilder/FluentSqlQueryBuilder.cs:87-91 | appends the key to the filters, keeping order and duplicates, changes nothing else, returns the builder |
| `QueryBuilder.FluentSqlQueryBuilder.OrderBy` | Fluent.SqlBuilder/FluentSqlQueryBuilder.cs:93-98 | sets `Ascending` and the column together, changes nothing else, returns the builder |
| `QueryBuilder.FluentSqlQueryBuilder.OrderByDescending` | Fluent.SqlBuilder/FluentSqlQueryBuilder.cs:100-105 | sets `Descending` and the column together, changes nothing else, returns the builder |
| `QueryBuilder.FluentSqlQueryBuilder.Build` | Fluent.SqlBuilder/FluentSqlQueryBuilder.cs:107-145 | returns or throws exactly `Query(State())` and leaves every orchestrator field as it was |
| `QueryBuilder.BuildTwice` | Fluent.SqlBuilder/FluentSqlQueryBuilder.cs:107-145 | two `Build` calls with no chain call between them return the same result |
| `Scenarios.NoPrimaryTable` | Fluent.SqlBuilderTests/FluentSqlQueryBuilderTests.cs:22-29 | `SelectAll().Build()` with no table throws `ArgumentNullException` |
| `Scenarios.SelectAllFromTable` | Fluent.SqlBuilderTests/FluentSqlQueryBuilderTests.cs:31-41 | `SelectAll().From("TestTable").Build()` is `SELECT t.* FROM [TestTable] t` |
| `Scenarios.LastSelectWins` | Fluent.SqlBuilder/FluentSqlQueryBuilder.cs:38-48 | `SelectCount().SelectAll()` renders as `SelectAll()`: the last projection call wins |
| `Scenarios.SelectAllOrderedAscending` | Fluent.SqlBuilderTests/FluentSqlQueryBuilderTests.cs:45-56 | `... .OrderBy("TestColAsc")` gives `SELECT t.* FROM [TestTable] t ORDER BY t.TestColAsc` |
| `Scenarios.SelectAllOrderedDescending` | Fluent.SqlBuilderTests/FluentSqlQueryBuilderTests.cs:58-69 | `... .OrderByDescending("TestColDesc")` gives `... ORDER BY t.TestColDesc DESC` |
| `Scenarios.SelectCountFromTable` | Fluent.SqlBuilderTests/FluentSqlQueryBuilderTests.cs:71-80 | `SelectCount()` gives `SELECT COUNT(*) FROM [TestTable] t` |
| `Scenarios.SelectSpecificColumns` | Fluent.SqlBuilderTests/FluentSqlQueryBuilderTests.cs:83-92 | `SelectSpecific("TestCol1", "TestCol2")` gives `SELECT t.TestCol1,t.TestCol2 FROM [TestTable] t` |
| `Scenarios.SelectCustomColumn` | Fluent.SqlBuilderTests/FluentSqlQueryBuilderTests.cs:94-103 | `SelectCustom(expr)` gives `SELECT expr, t.* FROM [TestTable] t` |
| `Scenarios.SelectCustomAndSpecificColumns` | Fluent.SqlBuilderTests/FluentSqlQueryBuilderTests.cs:106-115 | `SelectCustom(expr, "TestCol1", "TestCol2")` gives `SELECT expr, t.TestCol1,t.TestCol2 FROM [TestTable] t` |
| `Scenarios.SelectAllWithWhereFilter` | Fluent.SqlBuilderTests/FluentSqlQueryBuilderTests.cs:118-128 | `... .Where("TestCol")` gives `SELECT t.* FROM [TestTable] t WHERE t.TestCol = @TestCol` |
| `Scenarios.SelectAllWithMultipleFilters` | Fluent.SqlBuilderTests/FluentSqlQueryBuilderTests.cs:131-142 | `... .Where("TestCol").And("TestCol2")` gives `... WHERE t.TestCol = @TestCol AND t.TestCol2 = @TestCol2` |
| `Scenarios.InnerJoinThrows` | Fluent.SqlBuilderTests/FluentSqlQueryBuilderTests.cs:144-167 | both inner-join tests throw `NotImplementedException` at their first `InnerJoin` call |
| `Scenarios.LeftJoinThrows` | Fluent.SqlBuilderTests/FluentSqlQueryBuilderTests.cs:170-181 | the left-join test's chain throws `NotImplementedException` at `LeftJoin` |

## Left out

- JOIN clauses: no code renders ` INNER JOIN` or ` LEFT JOIN`, and the orchestrator's join calls throw. Only that failure and the join-column part of SELECT are modelled.
- The join dictionaries are modelled as sequences of their keys in enumeration order. The `string[]` values are never read. The keys of a real dictionary are distinct, but the model accepts any sequence.
- Constructor injection: the orchestrator creates its four concrete clause builders itself. It does not take builders a caller may have configured beforehand.
- List aliasing: the orchestrator hands its own `_filters` list object to the WHERE builder. The model passes the list by value. This is invisible here, because every `Build` sets the filters again first.
- `ToLower` is culture-sensitive in .NET. The model lower-cases ASCII letters only.
- A C# `char` is a UTF-16 code unit, while a Dafny `char` is a Unicode scalar value. Surrogate halves are not modelled.
- The enum definitions themselves are not part of this model. The datatypes `SelectType` and `OrderType` stand for `SqlSelectType` and `SqlOrderType`: each has the enum's named members plus `Undefined`, which stands for any other value a cast can produce and so reaches the `default:` branches.
- The interface files are declarations only and are not modelled, nor are the MSTest attributes and the `TestInitialize` wiring.
- No WHERE variant with inlined literal values exists in this code, so none is modelled.
- SelectClause.SqlSelectStatementBuilder.Build: null join dictionaries are not modelled. `WithInnerJoinTables(null)` and `WithLeftJoinTables(null)` are accepted, and `Build(All)` then throws from `.Any()` or from the `foreach` (SqlSelectStatementBuilder.cs:61, 70, 78). In the model the join tables are a sequence that cannot be null, so `Build(All)` always renders. The orchestrator never passes null join tables, so `Build` of the whole query is unaffected.
- QueryBuilder.FluentSqlQueryBuilder.SelectSpecific and QueryBuilder.FluentSqlQueryBuilder.SelectCustom: the source keeps the caller's own `params` array (FluentSqlQueryBuilder.cs:53, 61), so a later write into that array changes what `Build` renders. The model stores the columns as a value, so it does not capture that aliasing.
- SQL validity and injection safety: the code promises neither.
- Scenarios: each expected string is written as the concatenation of its clause fragments rather than as one literal. The pieces join up to the test's literal character for character. Proving long literal equalities one character at a time is too costly for the verifier.
