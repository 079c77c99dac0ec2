/** Concrete requests and what the model decides for them: a user and an Admin reading a
    registered table, an unregistered table, a malformed user id, the order
    query with a good and a bad order id, and a customer procedure. Each
    scenario names its context and item through `requires` equalities. */
module Scenarios {
  import opened Wrappers
  import opened Text
  import opened Validators
  import opened Registry
  import opened UserContexts
  import opened DataSourceProvider
  import opened Composition

  const OrdersRegistry := [TableInfo("Orders", "CustomerID"), TableInfo("Products", "ProductID")]

  /** A Postgres request for `table`, whose item id is `id`. */
  function RequestFor(id: string, table: string): DataSourceItem {
    DataSourceItem(PostgresItem, Some(id), Some(table), None, None, None)
  }

  lemma OrdersIsRegistered(registry: seq<TableInfo>)
    requires registry == OrdersRegistry
    ensures IsRegisteredTable(RequestFor("Orders", "Orders"), registry)
  {
    assert IsTenantScoped(registry[0]);
  }

  lemma ProductsIsNotRegistered(registry: seq<TableInfo>)
    requires registry == OrdersRegistry
    ensures !IsRegisteredTable(RequestFor("Products", "Products"), registry)
  {
    assert UpperChar(registry[1].columnName[0]) != UpperChar(TenantColumn[0]);
  }

  lemma NoNamedCaseFor(id: string)
    requires id == "Orders" || id == "Products"
    ensures MatchesNoNamedCase(RequestFor(id, id))
  {
    // No `case` constant has six or eight characters.
    assert forall name :: name in NamedCases ==> |name| != 6 && |name| != 8;
  }

  lemma UserQueryText(table: string, userId: string)
    requires table == "Orders" && userId == "ALFKI"
    ensures userId !in AdminUserIds
    ensures "SELECT * FROM \"" + table + "\" WHERE customerId = '" + userId + "'" ==
      "SELECT * FROM \"Orders\" WHERE customerId = 'ALFKI'"
  {
  }

  /** A user reading a registered table gets the query scoped to their id. */
  lemma {:induction false} UserScopedScenario(
    isSelectOnly: string -> bool, ctx: UserContext, item: DataSourceItem, registry: seq<TableInfo>)
    requires GetUserContext(Some("ALFKI"), None) == Ok(ctx)
    requires item == RequestFor("Orders", "Orders") && registry == OrdersRegistry
    requires isSelectOnly("SELECT * FROM \"Orders\" WHERE customerId = 'ALFKI'")
    ensures ChangeDataSourceItem(ctx, item, registry, isSelectOnly) ==
      Ok(item.(customQuery := Some("SELECT * FROM \"Orders\" WHERE customerId = 'ALFKI'")))
  {
    OrdersIsRegistered(registry);
    NoNamedCaseFor("Orders");
    UserQueryText(item.table.value, ctx.userId.value);
    ProducedContextScopesTables(Some("ALFKI"), None, item, registry, isSelectOnly);
  }

  /** An Admin reading the same table gets it untouched. */
  lemma {:induction false} AdminScenario(
    isSelectOnly: string -> bool, ctx: UserContext, item: DataSourceItem, registry: seq<TableInfo>)
    requires GetUserContext(Some("AROUT"), None) == Ok(ctx)
    requires item == RequestFor("Orders", "Orders") && registry == OrdersRegistry
    ensures ChangeDataSourceItem(ctx, item, registry, isSelectOnly) == Ok(item)
  {
    OrdersIsRegistered(registry);
    NoNamedCaseFor("Orders");
    ProducedContextScopesTables(Some("AROUT"), None, item, registry, isSelectOnly);
  }

  /** A table without the tenant column passes untouched for a user. */
  lemma {:induction false} UnregisteredScenario(
    isSelectOnly: string -> bool, ctx: UserContext, item: DataSourceItem, registry: seq<TableInfo>)
    requires GetUserContext(Some("ALFKI"), None) == Ok(ctx)
    requires item == RequestFor("Products", "Products") && registry == OrdersRegistry
    ensures ChangeDataSourceItem(ctx, item, registry, isSelectOnly) == Ok(item)
  {
    ProductsIsNotRegistered(registry);
    NoNamedCaseFor("Products");
    DefaultPassThrough(ctx, item, registry, isSelectOnly);
  }

  /** A four-character or absent user id produces no context. */
  lemma MalformedUserIdScenario()
    ensures GetUserContext(Some("BAD1"), None) == Err(ArgumentException(InvalidCustomerIdMessage))
    ensures GetUserContext(None, None) == Err(ArgumentNullException(RegexInputParam))
  {
  }

  lemma OrderIdVerdicts()
    ensures IsValidOrderId("99999")
    ensures !IsValidOrderId("abc12")
  {
    AsciiDigitsAreValidIds("99999");
    assert !IsDecimalDigit('a');
  }

  /** The order query with a five-digit order id. */
  lemma {:induction false} OrderQueryScenario(
    isSelectOnly: string -> bool, ctx: UserContext, item: DataSourceItem, registry: seq<TableInfo>)
    requires GetUserContext(Some("ALFKI"), Some("99999")) == Ok(ctx)
    requires item == RequestFor("CustomerOrders", "orders")
    requires isSelectOnly("SELECT * FROM orders WHERE orderId = '99999'")
    ensures ChangeDataSourceItem(ctx, item, registry, isSelectOnly) ==
      Ok(item.(customQuery := Some("SELECT * FROM orders WHERE orderId = '99999'")))
  {
    OrderIdVerdicts();
    assert IdMatches(item, OrderQueryId);
    assert "SELECT * FROM orders WHERE orderId = '" + "99999" + "'" ==
      "SELECT * FROM orders WHERE orderId = '99999'";
    ProducedContextOrderQuery(Some("ALFKI"), Some("99999"), item, registry, isSelectOnly);
  }

  /** The order query with an order id that is not five digits. */
  lemma {:induction false} MalformedOrderIdScenario(
    isSelectOnly: string -> bool, ctx: UserContext, item: DataSourceItem, registry: seq<TableInfo>)
    requires GetUserContext(Some("ALFKI"), Some("abc12")) == Ok(ctx)
    requires item == RequestFor("CustomerOrders", "orders")
    ensures ChangeDataSourceItem(ctx, item, registry, isSelectOnly) == Err(ArgumentException(InvalidOrderIdMessage))
  {
    OrderIdVerdicts();
    assert IdMatches(item, OrderQueryId);
    assert Dispatched(ctx, item);
    OrderQueryCase(ctx, item, registry, isSelectOnly);
  }

  /** A customer procedure, requested in mixed case, gets the lower-case
      procedure name and the caller's id as `customer_id`. */
  lemma {:induction false} ProcedureScenario(
    isSelectOnly: string -> bool, ctx: UserContext, item: DataSourceItem, registry: seq<TableInfo>)
    requires GetUserContext(Some("ALFKI"), None) == Ok(ctx)
    requires item == RequestFor("CustOrders", "x")
    ensures ChangeDataSourceItem(ctx, item, registry, isSelectOnly) ==
      Ok(item.(functionName := Some("custorders"), functionParameters := Some(map["customer_id" := "ALFKI"])))
  {
    assert IdMatches(item, "custorders");
    ProducedContextCallsProcedure(Some("ALFKI"), None, item, registry, isSelectOnly, "custorders");
  }
}
