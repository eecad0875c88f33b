/** The table-alias deriver, `SqlStringExtensions.TableNameAlias`. The repository has two copies
    of it, one per namespace, that differ only in how they take the first character. */
module Alias {
  import opened Wrappers
  import opened Text

  /** `Enumerable.FirstOrDefault` on a string: its first character, or `'\0'` when it is empty. */
  function FirstOrDefault(s: string): char {
    if |s| > 0 then s[0] else '\0'
  }

  /** The alias of `tableName` in the Fluent.SqlBuilder namespace: empty for a null or blank
      name, otherwise the first character lower-cased, as a string of length one. */
  function TableNameAlias(tableName: Option<string>): (r: string)
    ensures IsNullOrWhiteSpace(tableName) <==> r == ""
    ensures !IsNullOrWhiteSpace(tableName) ==> |tableName.value| > 0 && r == [ToLower(tableName.value[0])]
    ensures |r| <= 1
  {
    if IsNullOrWhiteSpace(tableName) then ""
    else [ToLower(FirstOrDefault(tableName.value))]
  }

  /** The alias of `tableName` in the Fluent.SqlBuilder.Portable namespace. It guards the index
      with a length test whose fallback, `new char()`, is never taken: the assertion in that
      branch is proved, because a string that is not blank has a first character. */
  function PortableTableNameAlias(tableName: Option<string>): (r: string)
    ensures IsNullOrWhiteSpace(tableName) <==> r == ""
    ensures !IsNullOrWhiteSpace(tableName) ==> |tableName.value| > 0 && r == [ToLower(tableName.value[0])]
    ensures |r| <= 1
  {
    if IsNullOrWhiteSpace(tableName) then ""
    else
      var firstChar := if |tableName.value| > 0 then tableName.value[0] else assert false; '\0';
      [ToLower(firstChar)]
  }

  /** The two copies agree on every input, null included. */
  lemma AliasVariantsAgree(tableName: Option<string>)
    ensures TableNameAlias(tableName) == PortableTableNameAlias(tableName)
  {
  }

  /** Aliases are not unique: two usable names with the same first character share one. */
  lemma AliasIgnoresAllButFirst(a: string, b: string)
    requires !IsNullOrWhiteSpace(Some(a)) && !IsNullOrWhiteSpace(Some(b))
    requires a[0] == b[0]
    ensures TableNameAlias(Some(a)) == TableNameAlias(Some(b))
  {
  }
}
