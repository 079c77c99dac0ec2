/** The allowed-table registry and the list of tenant-scoped tables the
    gateway derives from it (Reveal/DataSourceProvider.cs). The registry
    itself is loaded elsewhere; here it is an input sequence of
    `(TABLE_NAME, COLUMN_NAME)` rows. */
module Registry {
  import opened Text

  datatype TableInfo = TableInfo(tableName: string, columnName: string)

  /** The column whose presence makes a table tenant-scoped. */
  const TenantColumn := "CustomerID"

  predicate IsTenantScoped(info: TableInfo) {
    EqualsOrdinalIgnoreCase(info.columnName, TenantColumn)
  }

  /** `GetAllowedTables().Where(column equals "CustomerID" ignoring case)
      .Select(TABLE_NAME)`: the registry's table names, in registry order,
      of the rows whose column is the tenant column. */
  function AllowedTables(registry: seq<TableInfo>): (tables: seq<string>)
    ensures |tables| <= |registry|
    ensures forall t :: t in tables <==>
      exists i :: 0 <= i < |registry| && registry[i].tableName == t && IsTenantScoped(registry[i])
  {
    if registry == [] then []
    else
      var tail := AllowedTables(registry[1..]);
      assert forall i :: 0 < i < |registry| ==> registry[i] == registry[1..][i - 1];
      if IsTenantScoped(registry[0]) then [registry[0].tableName] + tail else tail
  }
}
