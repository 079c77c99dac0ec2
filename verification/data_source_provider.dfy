/** `DataSourceProvider.ChangeDataSourceItemAsync` (Reveal/DataSourceProvider.cs)
    as one pure decision: given the user context, the requested data-source
    item and the allowed-table registry, either the item with its query
    fields set, or the exception the method throws.

    `IsSelectOnly` hands the query text to a T-SQL parser and a read-only
    visitor that are outside this model; it is the parameter
    `isSelectOnly`, about which nothing is assumed, so every property below
    holds whatever that check decides. */
module DataSourceProvider {
  import opened Wrappers
  import opened Text
  import opened Validators
  import opened Escaping
  import opened Registry
  import opened UserContexts

  /** Whether the item is an `RVPostgresDataSourceItem`; every other item,
      including a `null` one, is handed back untouched. */
  datatype SourceKind = PostgresItem | OtherItem

  /** The fields of `RVPostgresDataSourceItem` the gateway reads or writes. */
  datatype DataSourceItem = DataSourceItem(
    kind: SourceKind,
    id: Option<string>,
    table: Option<string>,
    functionName: Option<string>,
    functionParameters: Option<map<string, string>>,
    customQuery: Option<string>)

  /** Stored procedures that take the caller's customer id. */
  const CustomerProcedures: set<string> := {"custorderhist", "custorders", "custordersdates"}

  /** The stored procedure that takes no parameter, and its database name. */
  const FixedProcedureId := "tenmostexpensiveproducts"
  const FixedProcedureName := "ten most expensive products"

  /** The ad-hoc query on a single order. */
  const OrderQueryId := "customerorders"

  /** Every `case` constant of the switch, in lower case. */
  const NamedCases: set<string> := CustomerProcedures + {FixedProcedureId, OrderQueryId}

  const CustomerIdParam := "customer_id"

  const InvalidSqlMessage := "Invalid SQL query."

  /** The ad-hoc order query, built from an escaped order id. */
  function OrderQuery(orderId: string): string {
    "SELECT * FROM orders WHERE orderId = '" + Escape(orderId) + "'"
  }

  /** The tenant-scoped query up to the opening quote of the customer literal. */
  function TenantQueryPrefix(table: string): string {
    "SELECT * FROM \"" + table + "\" WHERE customerId = "
  }

  /** The tenant-scoped rewrite of a registered table for one customer. */
  function TenantQuery(table: string, customerId: string): string {
    TenantQueryPrefix(table) + [Quote] + Escape(customerId) + [Quote]
  }

  /** `IsValidCustomerId(customerId)` with its `throw`: the id when it is
      well formed, otherwise the exception. */
  function CheckCustomerId(customerId: Option<string>): (r: Result<string>)
    ensures r.Ok? <==> customerId.Some? && IsValidCustomerId(customerId.value)
    ensures r.Ok? ==> r.value == customerId.value && Quote !in r.value
  {
    match customerId
    case None => Err(ArgumentNullException(RegexInputParam))
    case Some(id) =>
      ValidIdsAreQuoteFree(id);
      if IsValidCustomerId(id) then Ok(id) else Err(ArgumentException(InvalidCustomerIdMessage))
  }

  /** `Properties["OrderId"]?.ToString()` followed by `IsValidOrderId` and
      its `throw`. */
  function CheckOrderId(properties: map<string, PropValue>): (r: Result<string>)
    ensures r.Ok? <==>
      OrderIdKey in properties && properties[OrderIdKey].Text? && IsValidOrderId(properties[OrderIdKey].text)
    ensures r.Ok? ==> r.value == properties[OrderIdKey].text && Quote !in r.value
  {
    if OrderIdKey !in properties then Err(KeyNotFoundException(OrderIdKey))
    else match properties[OrderIdKey]
      case Null => Err(ArgumentNullException(RegexInputParam))
      case Text(orderId) =>
        ValidIdsAreQuoteFree(orderId);
        if IsValidOrderId(orderId) then Ok(orderId) else Err(ArgumentException(InvalidOrderIdMessage))
  }

  /** `if (!IsSelectOnly(query)) throw ...`. */
  function CheckSelectOnly(query: string, isSelectOnly: string -> bool): (r: Result<string>)
    ensures r.Ok? <==> isSelectOnly(query)
    ensures r.Ok? ==> r.value == query
    ensures r.Err? ==> r.error == ArgumentException(InvalidSqlMessage)
  {
    if isSelectOnly(query) then Ok(query) else Err(ArgumentException(InvalidSqlMessage))
  }

  /** The gateway. `userContext.UserId` is `ctx.userId`; the `Role` entry of
      the bag is read before the switch, so a missing entry fails every
      Postgres request. The switch tests the named cases in order, then the
      registered-table guard, then falls to the permissive default. */
  function ChangeDataSourceItem(
    ctx: UserContext, item: DataSourceItem, registry: seq<TableInfo>, isSelectOnly: string -> bool
  ): (r: Result<DataSourceItem>)
    // Only Postgres items are inspected, and only they can fail.
    ensures item.kind.OtherItem? ==> r == Ok(item)
    ensures r.Err? ==> item.kind.PostgresItem?
    // The request's identity is never altered.
    ensures r.Ok? ==> r.value.kind == item.kind && r.value.id == item.id && r.value.table == item.table
    // Any query the gateway writes has passed the read-only check.
    ensures r.Ok? && r.value.customQuery != item.customQuery ==>
      r.value.customQuery.Some? && isSelectOnly(r.value.customQuery.value)
    // Parameters are only ever set to the caller's own, validated id.
    ensures r.Ok? && r.value.functionParameters != item.functionParameters ==>
      && ctx.userId.Some? && IsValidCustomerId(ctx.userId.value)
      && r.value.functionParameters == Some(map[CustomerIdParam := ctx.userId.value])
    // At most one kind of field is set: procedure fields or the query.
    ensures r.Ok? ==>
      || r.value.customQuery == item.customQuery
      || (r.value.functionName == item.functionName && r.value.functionParameters == item.functionParameters)
  {
    if !item.kind.PostgresItem? then Ok(item)
    else if RoleKey !in ctx.properties then Err(KeyNotFoundException(RoleKey))
    else
      var isAdmin := ctx.properties[RoleKey] == Text(AdminRole);
      var allowedTables := AllowedTables(registry);
      match item.id
      case None => Err(NullReferenceException)
      case Some(id) =>
        var key := AsciiLower(id);
        if key in CustomerProcedures then
          var customerId :- CheckCustomerId(ctx.userId);
          Ok(item.(functionName := Some(key), functionParameters := Some(map[CustomerIdParam := customerId])))
        else if key == FixedProcedureId then
          Ok(item.(functionName := Some(FixedProcedureName)))
        else if key == OrderQueryId then
          var orderId :- CheckOrderId(ctx.properties);
          var query :- CheckSelectOnly(OrderQuery(orderId), isSelectOnly);
          Ok(item.(customQuery := Some(query)))
        else if item.table.Some? && item.table.value in allowedTables then
          if isAdmin then Ok(item)
          else
            var customerId :- CheckCustomerId(ctx.userId);
            var query :- CheckSelectOnly(TenantQuery(item.table.value, customerId), isSelectOnly);
            Ok(item.(customQuery := Some(query)))
        else Ok(item)
  }

  // ---------------------------------------------------------------------
  // The cases of the switch, stated with the case-insensitive comparison
  // of the item id against each `case` constant.

  /** The item's id equals `name` ignoring case. */
  predicate IdMatches(item: DataSourceItem, name: string) {
    item.id.Some? && EqualsOrdinalIgnoreCase(item.id.value, name)
  }

  /** The item's id is present and equals none of the `case` constants. */
  predicate MatchesNoNamedCase(item: DataSourceItem) {
    item.id.Some? && forall name :: name in NamedCases ==> !EqualsOrdinalIgnoreCase(item.id.value, name)
  }

  /** The item asks for a table the registry lists with the tenant column. */
  predicate IsRegisteredTable(item: DataSourceItem, registry: seq<TableInfo>) {
    item.table.Some? &&
    exists i :: 0 <= i < |registry| && registry[i].tableName == item.table.value && IsTenantScoped(registry[i])
  }

  /** The Postgres requests that get past the reads before the switch. */
  predicate Dispatched(ctx: UserContext, item: DataSourceItem) {
    item.kind.PostgresItem? && RoleKey in ctx.properties && item.id.Some?
  }

  lemma NamedCasesAreLowerCase(name: string)
    requires name in NamedCases
    ensures IsLowerCaseText(name)
  {
  }

  /** Lower-casing the id selects `name` exactly when the id equals `name`
      ignoring case. */
  lemma {:induction false} SwitchKey(id: string, name: string)
    requires name in NamedCases
    ensures AsciiLower(id) == name <==> EqualsOrdinalIgnoreCase(id, name)
  {
    NamedCasesAreLowerCase(name);
    LowerMatchesIgnoreCase(id, name);
  }

  lemma {:induction false} NoNamedCaseKey(item: DataSourceItem)
    requires MatchesNoNamedCase(item)
    ensures AsciiLower(item.id.value) !in NamedCases
  {
    var key := AsciiLower(item.id.value);
    if key in NamedCases {
      SwitchKey(item.id.value, key);
      assert false;
    }
  }

  /** A request for anything but a Postgres item is returned untouched. */
  lemma NonPostgresUnchanged(
    ctx: UserContext, item: DataSourceItem, registry: seq<TableInfo>, isSelectOnly: string -> bool)
    requires item.kind.OtherItem?
    ensures ChangeDataSourceItem(ctx, item, registry, isSelectOnly) == Ok(item)
  {
  }

  /** The reads before the switch: a missing `Role` entry and a `null` id
      are exceptions for every Postgres item, whatever it asks for. */
  lemma {:induction false} PreSwitchFailures(
    ctx: UserContext, item: DataSourceItem, registry: seq<TableInfo>, isSelectOnly: string -> bool)
    requires item.kind.PostgresItem?
    ensures RoleKey !in ctx.properties ==>
      ChangeDataSourceItem(ctx, item, registry, isSelectOnly) == Err(KeyNotFoundException(RoleKey))
    ensures RoleKey in ctx.properties && item.id.None? ==>
      ChangeDataSourceItem(ctx, item, registry, isSelectOnly) == Err(NullReferenceException)
  {
  }

  /** `custorderhist`, `custorders`, `custordersdates`: a valid caller id
      sets the procedure name and its single parameter; otherwise the
      request fails. The query is never touched. */
  lemma {:induction false} CustomerProcedureCase(
    ctx: UserContext, item: DataSourceItem, registry: seq<TableInfo>, isSelectOnly: string -> bool, name: string)
    requires Dispatched(ctx, item)
    requires name in CustomerProcedures && IdMatches(item, name)
    ensures var r := ChangeDataSourceItem(ctx, item, registry, isSelectOnly);
      && (r.Ok? <==> ctx.userId.Some? && IsValidCustomerId(ctx.userId.value))
      && (ctx.userId.None? ==> r == Err(ArgumentNullException(RegexInputParam)))
      && (ctx.userId.Some? && !IsValidCustomerId(ctx.userId.value) ==>
            r == Err(ArgumentException(InvalidCustomerIdMessage)))
      && (r.Ok? ==> r.value == item.(functionName := Some(name),
                                     functionParameters := Some(map[CustomerIdParam := ctx.userId.value])))
  {
    SwitchKey(item.id.value, name);
  }

  /** `tenmostexpensiveproducts`: only the procedure name changes; the
      caller's id is neither checked nor passed. */
  lemma {:induction false} FixedProcedureCase(
    ctx: UserContext, item: DataSourceItem, registry: seq<TableInfo>, isSelectOnly: string -> bool)
    requires Dispatched(ctx, item)
    requires IdMatches(item, FixedProcedureId)
    ensures ChangeDataSourceItem(ctx, item, registry, isSelectOnly) ==
      Ok(item.(functionName := Some(FixedProcedureName)))
  {
    SwitchKey(item.id.value, FixedProcedureId);
  }

  /** `customerorders`: the `OrderId` entry must be present, non-null and a
      valid order id, and the built query must pass the read-only check;
      then the query is set, and it holds the order id verbatim. */
  lemma {:induction false} OrderQueryCase(
    ctx: UserContext, item: DataSourceItem, registry: seq<TableInfo>, isSelectOnly: string -> bool)
    requires Dispatched(ctx, item)
    requires IdMatches(item, OrderQueryId)
    ensures var r := ChangeDataSourceItem(ctx, item, registry, isSelectOnly);
      && (OrderIdKey !in ctx.properties ==> r == Err(KeyNotFoundException(OrderIdKey)))
      && (OrderIdKey in ctx.properties && ctx.properties[OrderIdKey].Null? ==>
            r == Err(ArgumentNullException(RegexInputParam)))
      && (OrderIdKey in ctx.properties && ctx.properties[OrderIdKey].Text? ==>
            var orderId := ctx.properties[OrderIdKey].text;
            var query := "SELECT * FROM orders WHERE orderId = '" + orderId + "'";
            && (!IsValidOrderId(orderId) ==> r == Err(ArgumentException(InvalidOrderIdMessage)))
            && (IsValidOrderId(orderId) && !isSelectOnly(query) ==> r == Err(ArgumentException(InvalidSqlMessage)))
            && (IsValidOrderId(orderId) && isSelectOnly(query) ==> r == Ok(item.(customQuery := Some(query)))))
  {
    SwitchKey(item.id.value, OrderQueryId);
    assert AsciiLower(item.id.value) !in CustomerProcedures;
    if OrderIdKey in ctx.properties && ctx.properties[OrderIdKey].Text? {
      var orderId := ctx.properties[OrderIdKey].text;
      ValidIdsAreQuoteFree(orderId);
      EscapeIdentityIff(orderId);
    }
  }

  /** A registered table requested by an Admin, under no named case, is
      returned untouched: Admin sees every tenant's rows. */
  lemma {:induction false} AdminBypass(
    ctx: UserContext, item: DataSourceItem, registry: seq<TableInfo>, isSelectOnly: string -> bool)
    requires Dispatched(ctx, item) && MatchesNoNamedCase(item)
    requires IsRegisteredTable(item, registry)
    requires ctx.properties[RoleKey] == Text(AdminRole)
    ensures ChangeDataSourceItem(ctx, item, registry, isSelectOnly) == Ok(item)
  {
    NoNamedCaseKey(item);
  }

  /** The permissive default: an item under no named case whose table is
      not registered is returned untouched, whatever the role. */
  lemma {:induction false} DefaultPassThrough(
    ctx: UserContext, item: DataSourceItem, registry: seq<TableInfo>, isSelectOnly: string -> bool)
    requires Dispatched(ctx, item) && MatchesNoNamedCase(item)
    requires !IsRegisteredTable(item, registry)
    ensures ChangeDataSourceItem(ctx, item, registry, isSelectOnly) == Ok(item)
  {
    NoNamedCaseKey(item);
  }

  /** The tenant-scoped query for a valid customer id holds that id
      verbatim, and the literal it compares `customerId` with reads back as
      exactly that id and closes at the end of the query: the id cannot
      reach the SQL text outside its literal. */
  lemma {:induction false} TenantQueryReadsBack(table: string, customerId: string)
    requires IsValidCustomerId(customerId)
    ensures TenantQuery(table, customerId) == TenantQueryPrefix(table) + [Quote] + customerId + [Quote]
    ensures ReadLiteral(TenantQuery(table, customerId)[|TenantQueryPrefix(table)| + 1..]) == Some((customerId, ""))
  {
    ValidIdsAreQuoteFree(customerId);
    EscapeIdentityIff(customerId);
    LiteralRoundTrip(customerId, "");
    assert TenantQuery(table, customerId)[|TenantQueryPrefix(table)| + 1..] == Escape(customerId) + [Quote] + "";
  }

  /** Tenant scoping: a non-Admin request for a registered table under no
      named case succeeds exactly when the caller's id is valid and the
      rewritten query passes the read-only check, and then the rewrite is
      the only change. */
  lemma {:induction false} TenantScopedCase(
    ctx: UserContext, item: DataSourceItem, registry: seq<TableInfo>, isSelectOnly: string -> bool)
    requires Dispatched(ctx, item) && MatchesNoNamedCase(item)
    requires IsRegisteredTable(item, registry)
    requires ctx.properties[RoleKey] != Text(AdminRole)
    ensures var r := ChangeDataSourceItem(ctx, item, registry, isSelectOnly);
      && (r.Ok? <==>
            && ctx.userId.Some? && IsValidCustomerId(ctx.userId.value)
            && isSelectOnly(TenantQuery(item.table.value, ctx.userId.value)))
      && (ctx.userId.Some? && !IsValidCustomerId(ctx.userId.value) ==>
            r == Err(ArgumentException(InvalidCustomerIdMessage)))
      && (ctx.userId.Some? && IsValidCustomerId(ctx.userId.value) &&
          !isSelectOnly(TenantQuery(item.table.value, ctx.userId.value)) ==>
            r == Err(ArgumentException(InvalidSqlMessage)))
      && (r.Ok? ==> r.value == item.(customQuery := Some(TenantQuery(item.table.value, ctx.userId.value))))
  {
    NoNamedCaseKey(item);
  }
}
