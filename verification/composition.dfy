/** How the two providers compose: every context `GetUserContext` produces
    (Reveal/UserContextProvider.cs) meets the gateway's checks on the user
    id (Reveal/DataSourceProvider.cs), and its role decides the Admin bypass. */
module Composition {
  import opened Wrappers
  import opened Text
  import opened Validators
  import opened Escaping
  import opened Registry
  import opened UserContexts
  import opened DataSourceProvider

  /** A produced context passes the gateway's customer-id check with its id
      unchanged, that id holds no quote, so escaping it changes nothing, and
      the bag has the `Role` entry the gateway reads. */
  lemma {:induction false} ProducedContextPassesGateway(userIdHeader: Option<string>, orderIdHeader: Option<string>)
    requires GetUserContext(userIdHeader, orderIdHeader).Ok?
    ensures var ctx := GetUserContext(userIdHeader, orderIdHeader).value;
      && CheckCustomerId(ctx.userId) == Ok(userIdHeader.value)
      && Quote !in userIdHeader.value
      && Escape(userIdHeader.value) == userIdHeader.value
      && RoleKey in ctx.properties
  {
    ValidIdsAreQuoteFree(userIdHeader.value);
    EscapeIdentityIff(userIdHeader.value);
  }

  /** A customer procedure requested under a produced context always
      succeeds, with the header's user id as its one parameter. */
  lemma {:induction false} ProducedContextCallsProcedure(
    userIdHeader: Option<string>, orderIdHeader: Option<string>,
    item: DataSourceItem, registry: seq<TableInfo>, isSelectOnly: string -> bool, name: string)
    requires GetUserContext(userIdHeader, orderIdHeader).Ok?
    requires item.kind.PostgresItem? && name in CustomerProcedures && IdMatches(item, name)
    ensures ChangeDataSourceItem(GetUserContext(userIdHeader, orderIdHeader).value, item, registry, isSelectOnly) ==
      Ok(item.(functionName := Some(name), functionParameters := Some(map[CustomerIdParam := userIdHeader.value])))
  {
    var ctx := GetUserContext(userIdHeader, orderIdHeader).value;
    CustomerProcedureCase(ctx, item, registry, isSelectOnly, name);
  }

  /** A registered table requested under a produced context: the two Admin
      user ids get the table untouched; every other caller gets the query
      scoped to their own id, written without any change by escaping, or
      the read-only check's exception. */
  lemma {:induction false} ProducedContextScopesTables(
    userIdHeader: Option<string>, orderIdHeader: Option<string>,
    item: DataSourceItem, registry: seq<TableInfo>, isSelectOnly: string -> bool)
    requires GetUserContext(userIdHeader, orderIdHeader).Ok?
    requires item.kind.PostgresItem? && MatchesNoNamedCase(item) && IsRegisteredTable(item, registry)
    ensures var r := ChangeDataSourceItem(GetUserContext(userIdHeader, orderIdHeader).value, item, registry, isSelectOnly);
      var query := "SELECT * FROM \"" + item.table.value + "\" WHERE customerId = '" + userIdHeader.value + "'";
      && (userIdHeader.value in AdminUserIds ==> r == Ok(item))
      && (userIdHeader.value !in AdminUserIds && isSelectOnly(query) ==> r == Ok(item.(customQuery := Some(query))))
      && (userIdHeader.value !in AdminUserIds && !isSelectOnly(query) ==> r == Err(ArgumentException(InvalidSqlMessage)))
  {
    var ctx := GetUserContext(userIdHeader, orderIdHeader).value;
    var id := userIdHeader.value;
    if id in AdminUserIds {
      AdminBypass(ctx, item, registry, isSelectOnly);
    } else {
      TenantScopedCase(ctx, item, registry, isSelectOnly);
      TenantQueryReadsBack(item.table.value, id);
      assert TenantQuery(item.table.value, id) ==
        "SELECT * FROM \"" + item.table.value + "\" WHERE customerId = '" + id + "'";
    }
  }

  /** The order query under a produced context: the order-id header is
      carried unvalidated by the context and checked by the gateway; an
      absent header reads as "" and is rejected. */
  lemma {:induction false} ProducedContextOrderQuery(
    userIdHeader: Option<string>, orderIdHeader: Option<string>,
    item: DataSourceItem, registry: seq<TableInfo>, isSelectOnly: string -> bool)
    requires GetUserContext(userIdHeader, orderIdHeader).Ok?
    requires item.kind.PostgresItem? && IdMatches(item, OrderQueryId)
    ensures var r := ChangeDataSourceItem(GetUserContext(userIdHeader, orderIdHeader).value, item, registry, isSelectOnly);
      var orderId := HeaderText(orderIdHeader);
      var query := "SELECT * FROM orders WHERE orderId = '" + orderId + "'";
      && (orderIdHeader.None? ==> r == Err(ArgumentException(InvalidOrderIdMessage)))
      && (r.Ok? <==> IsValidOrderId(orderId) && isSelectOnly(query))
      && (r.Ok? ==> r == Ok(item.(customQuery := Some(query))))
  {
    var ctx := GetUserContext(userIdHeader, orderIdHeader).value;
    OrderQueryCase(ctx, item, registry, isSelectOnly);
  }
}
