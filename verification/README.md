# Tenant-scoping gateway of the Reveal Postgres sample server

This project models, in Dafny, the security gateway of the Reveal BI sample
server for PostgreSQL. Every data request the dashboard makes passes through
`DataSourceProvider.ChangeDataSourceItemAsync`. That method looks at the
requested data-source item and at the caller's user context, then does one of
these:

- binds a stored procedure to the caller's customer id;
- names a parameterless stored procedure;
- writes an ad-hoc order query;
- rewrites a read of a tenant-scoped table into a query filtered on the
  caller's customer id (Admin callers bypass this);
- passes the item through unchanged.

The user context comes from `UserContextProvider.GetUserContext`. It
validates the user id, gives the Admin role to two fixed ids, and stores the
order id and the role in a property bag.

The model is a set of pure functions:

- `DataSourceProvider.ChangeDataSourceItem` returns either the updated item
  or the .NET exception the method throws (`Wrappers.Result`).
- `UserContexts.GetUserContext` builds the context from the two header
  values.
- The validators `IsValidCustomerId` and `IsValidOrderId` are a small
  matcher for regexes of the shape `^C{n}$`.
- `EscapeSqlInput` is `Escaping.Escape`.
- `IsSelectOnly` runs a T-SQL parser and a read-only visitor, neither of
  which is part of this model. It is the function parameter `isSelectOnly`,
  and nothing is assumed about it. So the model proves that the gateway
  consults it before it writes any query, and nothing about what it accepts.

Modules: `Wrappers` (option, result, exceptions), `Text` (character classes,
case mapping), `Validators`, `Escaping`, `Registry` (the allowed-table list),
`UserContexts`, `DataSourceProvider`, `Composition` (the two providers
together) and `Scenarios` (concrete requests).

Decisions about fidelity:

- The validators follow the .NET regex engine. Without the multiline option,
  `$` also matches before one final line feed, so `"ALFKI\n"` is a valid
  customer id. `\d` matches every Unicode decimal digit (category Nd), so
  Arabic-Indic digits make a valid order id. The digit table lists the
  Basic Multilingual Plane runs. A character above U+FFFF is two UTF-16
  surrogates in .NET, and neither is a digit or an ASCII letter. So both
  validators give the same verdict in the model and in .NET.
- `Regex.IsMatch` throws `ArgumentNullException` on `null`. A missing user id
  or a `null` `OrderId` value is therefore an error, not a `false`.
- A missing `Role` or `OrderId` entry makes the dictionary indexer throw
  `KeyNotFoundException`. The `Role` entry is read for every Postgres item,
  before the switch, so a bag without it fails every Postgres request. A
  `null` item id makes `ToLower()` throw `NullReferenceException`.
- `ToLower()` is modelled as ASCII lower-casing, and the `OrdinalIgnoreCase`
  test of the column name as ASCII case-insensitive comparison.
- `Regex.IsMatch` throws on a `null` id, so neither validator ever returns
  `false` for `null` (Reveal/DataSourceProvider.cs:168-169). Every unknown
  table passes through, because the rejecting default is commented out
  (Reveal/DataSourceProvider.cs:150-156). The model follows the code.

## Model

| member | source | states |
|---|---|---|
| Validators.IsValidCustomerId | Reveal/DataSourceProvider.cs:168 | Accepts exactly the strings of five ASCII letters or digits, optionally followed by one line feed (the same check is Reveal/UserContextProvider.cs:62) |
| Validators.IsValidOrderId | Reveal/DataSourceProvider.cs:169 | Accepts exactly the strings of five Unicode decimal digits, optionally followed by one line feed |
| Validators.IsMatch | Reveal/DataSourceProvider.cs:168-169 | The anchored matcher for `^C{n}$` accepts `s` iff `s` has `n` class characters and then ends, or ends after one line feed |
| Validators.Consume | Reveal/DataSourceProvider.cs:168-169 | Matching `C{n}` at the start succeeds iff the first `n` characters are in the class, and leaves exactly the rest of the input |
| Validators.ValidIdsAreQuoteFree | Reveal/DataSourceProvider.cs:168-169 | No string either validator accepts contains a single quote |
| Validators.AsciiDigitsAreValidIds | Reveal/DataSourceProvider.cs:169 | Five ASCII digits pass both the order-id and the customer-id check |
| Text.AsciiDigitIsDecimalDigit | Reveal/DataSourceProvider.cs:169 | Every ASCII digit belongs to the `\d` class |
| Text.AsciiLower | Reveal/DataSourceProvider.cs:85 | The lower-cased id has the id's length and lower-cases it character by character (ASCII only); what switching on it means is stated by `LowerMatchesIgnoreCase` |
| Text.LowerMatchesIgnoreCase | Reveal/DataSourceProvider.cs:85 | Switching on the lower-cased id selects a lower-case constant iff the id equals it ignoring case |
| Escaping.Escape | Reveal/DataSourceProvider.cs:170 | The escaped string is never shorter than the input, and a quote-free input is returned unchanged (the full behaviour is stated by the three lemmas below) |
| Escaping.EscapeIdentityIff | Reveal/DataSourceProvider.cs:170 | Escaping leaves a string unchanged iff it contains no single quote |
| Escaping.EscapeDoublesQuotes | Reveal/DataSourceProvider.cs:170 | Escaping doubles the number of quotes, keeps every other character in order, and lengthens the string by its quote count |
| Escaping.LiteralRoundTrip | Reveal/DataSourceProvider.cs:170 | An escaped value closed by a quote reads back, under the SQL doubled-quote rule, as exactly that value, with reading resuming after the closing quote |
| Registry.AllowedTables | Reveal/DataSourceProvider.cs:80-83 | A name is in the allowed list iff some registry row has that table name and a column equal to `CustomerID` ignoring case |
| UserContexts.RoleFor | Reveal/UserContextProvider.cs:44-48 | The role is `Admin` iff the user id is `AROUT` or `BLONP`, and `User` otherwise |
| UserContexts.GetUserContext | Reveal/UserContextProvider.cs:33-59 | A context is produced iff the user-id header is present and valid. It keeps that header as the user id. Its bag has exactly the keys `OrderId` (the order header, unvalidated) and `Role` (Admin iff the id is one of the two admin ids). Otherwise the matching exception is returned |
| DataSourceProvider.CheckCustomerId | Reveal/DataSourceProvider.cs:139-140 | Succeeds iff the user id is present and valid, yielding it unchanged and quote-free |
| DataSourceProvider.CheckOrderId | Reveal/DataSourceProvider.cs:110-113 | Succeeds iff the bag has a non-null `OrderId` entry that is a valid order id, yielding it unchanged and quote-free |
| DataSourceProvider.CheckSelectOnly | Reveal/DataSourceProvider.cs:117-118 | Succeeds iff the read-only check accepts the query, yielding it unchanged; otherwise the invalid-SQL exception |
| DataSourceProvider.ChangeDataSourceItem | Reveal/DataSourceProvider.cs:56-160 | Non-Postgres items pass untouched and only Postgres items fail. Kind, id and table are never changed. Every written query passed the read-only check. Parameters are only ever `{customer_id ↦ caller's valid id}`. The query is never changed together with the function name or the parameters |
| DataSourceProvider.NonPostgresUnchanged | Reveal/DataSourceProvider.cs:67 | A non-Postgres item is returned with no field changed |
| DataSourceProvider.PreSwitchFailures | Reveal/DataSourceProvider.cs:78-85 | A Postgres request fails with `KeyNotFoundException` when the bag has no `Role`, and with `NullReferenceException` when the item id is null |
| DataSourceProvider.CustomerProcedureCase | Reveal/DataSourceProvider.cs:90-97 | For the three customer procedures (any case) the request succeeds iff the user id is valid; then only the function name (lower-cased id) and the parameters `{customer_id ↦ userId}` change; otherwise the matching exception |
| DataSourceProvider.FixedProcedureCase | Reveal/DataSourceProvider.cs:102-104 | For `tenmostexpensiveproducts` only the function name changes, to `ten most expensive products`, with no validation |
| DataSourceProvider.OrderQueryCase | Reveal/DataSourceProvider.cs:109-121 | For `customerorders`: a missing, null or malformed `OrderId` gives its exception. A valid one gives the query `SELECT * FROM orders WHERE orderId = '<id>'` if the read-only check accepts it, and the invalid-SQL exception if not |
| DataSourceProvider.AdminBypass | Reveal/DataSourceProvider.cs:131-137 | A registered table under no named case, requested with role exactly `Admin`, is returned unchanged |
| DataSourceProvider.DefaultPassThrough | Reveal/DataSourceProvider.cs:150-156 | An item under no named case whose table is not registered is returned unchanged, whatever the role |
| DataSourceProvider.TenantScopedCase | Reveal/DataSourceProvider.cs:131-148 | A non-Admin request for a registered table succeeds iff the user id is valid and the scoped query passes the read-only check; then only the query changes. A malformed id and a rejected query give their exceptions |
| DataSourceProvider.TenantQueryReadsBack | Reveal/DataSourceProvider.cs:142-143 | For a valid customer id the scoped query holds the id verbatim, and its customer literal reads back as exactly that id and closes at the end of the query |
| Composition.ProducedContextPassesGateway | Reveal/UserContextProvider.cs:36-59 | Every produced context passes the gateway's customer-id check unchanged, its id has no quote, escaping it is the identity, and its bag has `Role` |
| Composition.ProducedContextCallsProcedure | Reveal/DataSourceProvider.cs:90-97 | Under a produced context a customer procedure always succeeds with the header's user id as its only parameter |
| Composition.ProducedContextScopesTables | Reveal/DataSourceProvider.cs:131-148 | Under a produced context a registered table goes untouched for the two admin ids. For everyone else it gets the query on their own unescaped id, or the invalid-SQL exception |
| Composition.ProducedContextOrderQuery | Reveal/DataSourceProvider.cs:109-121 | Under a produced context the order query succeeds iff the order header is a valid order id and the query passes the read-only check; an absent header is rejected |
| Scenarios.UserScopedScenario | Reveal/DataSourceProvider.cs:139-147 | User `ALFKI` reading registered `Orders` gets `SELECT * FROM "Orders" WHERE customerId = 'ALFKI'` |
| Scenarios.AdminScenario | Reveal/DataSourceProvider.cs:136-137 | Admin `AROUT` reading `Orders` gets the item unchanged |
| Scenarios.UnregisteredScenario | Reveal/DataSourceProvider.cs:150-156 | A table whose column is not `CustomerID` passes unchanged |
| Scenarios.MalformedUserIdScenario | Reveal/UserContextProvider.cs:36-37 | The id `BAD1` gives the invalid-customer-id exception; an absent id gives the null-argument exception |
| Scenarios.OrderQueryScenario | Reveal/DataSourceProvider.cs:115-119 | Order id `99999` gives `SELECT * FROM orders WHERE orderId = '99999'` |
| Scenarios.MalformedOrderIdScenario | Reveal/DataSourceProvider.cs:112-113 | Order id `abc12` gives the invalid-order-id exception |
| Scenarios.ProcedureScenario | Reveal/DataSourceProvider.cs:95-96 | `CustOrders` for `ALFKI` becomes procedure `custorders` with `{customer_id ↦ ALFKI}` |

## Left out

- `IsSelectOnly` internals (Reveal/DataSourceProvider.cs:172-195): the T-SQL parser and the `ReadOnlySelectVisitor` are a foreign library and a file that is not part of this model. The check is an unconstrained parameter, and no SQL grammar is modelled. The only SQL rule modelled is how a quoted string literal is read, which is what escaping is for.
- `ChangeDataSourceAsync` (Reveal/DataSourceProvider.cs:39-54) and its call at line 71: it copies configuration values into the data source's host and database. That is configuration glue, and the model's item has no such fields.
- Reading the HTTP headers, and `StringValues` joining several values with commas. A header is one optional string; an absent order-id header is stored as `""`, which is what an empty `StringValues` converts to.
- Loading `TableInfo.GetAllowedTables()`: the registry is an input sequence. Its table and column names are taken to be non-null.
- `Task` wrappers, `Console.WriteLine` logging, and the constructor's null check on the configuration.
- A `null` user context, and the `dashboardId` argument, which the method never reads.
- Culture-sensitive `ToLower()` and `OrdinalIgnoreCase` beyond ASCII: for example, the Turkish dotless i or the Kelvin sign lower-case differently under .NET culture rules.
- Property-bag values are seen only through `?.ToString()`: `null` or the text. `FunctionParameters` values are strings, because the gateway only ever stores a string there.
