/** `UserContextProvider.GetUserContext` (Reveal/UserContextProvider.cs)
    after the two request headers have been read: validate the user id,
    derive the role, build the property bag. */
module UserContexts {
  import opened Wrappers
  import opened Validators

  /** A value of the property bag, seen through `?.ToString()`: `Null` for a
      `null` object, otherwise the text the object converts to. */
  datatype PropValue = Null | Text(text: string)

  /** `IRVUserContext`: the user id and the property bag. */
  datatype UserContext = UserContext(userId: Option<string>, properties: map<string, PropValue>)

  const RoleKey := "Role"
  const OrderIdKey := "OrderId"
  const AdminRole := "Admin"
  const UserRole := "User"

  /** The fixed list of user ids that are given the Admin role. */
  const AdminUserIds: set<string> := {"AROUT", "BLONP"}

  /** The role of a validated user id: Admin for the fixed list (compared
      case-sensitively), User for everyone else. */
  function RoleFor(userId: string): (role: string)
    ensures role == AdminRole || role == UserRole
    ensures role == AdminRole <==> userId in AdminUserIds
  {
    if userId == "AROUT" || userId == "BLONP" then AdminRole else UserRole
  }

  /** The text a header's value converts to when stored in the bag: an
      absent header is an empty `StringValues`, whose `ToString()` is "". */
  function HeaderText(header: Option<string>): string {
    match header
    case None => ""
    case Some(h) => h
  }

  /** `GetUserContext`, given the values of `x-header-one` (the user id) and
      `x-header-two` (the order id); `None` is an absent header, which
      converts to a `null` string. */
  function GetUserContext(userIdHeader: Option<string>, orderIdHeader: Option<string>): (r: Result<UserContext>)
    // A context is produced exactly for a present, well-formed user id.
    ensures r.Ok? <==> userIdHeader.Some? && IsValidCustomerId(userIdHeader.value)
    ensures userIdHeader.None? ==> r == Err(ArgumentNullException(RegexInputParam))
    ensures userIdHeader.Some? && !IsValidCustomerId(userIdHeader.value) ==>
      r == Err(ArgumentException(InvalidCustomerIdMessage))
    // The produced context carries the header unchanged and a two-key bag.
    ensures r.Ok? ==> r.value.userId == userIdHeader
    ensures r.Ok? ==> r.value.properties.Keys == {OrderIdKey, RoleKey}
    ensures r.Ok? ==> r.value.properties[OrderIdKey] == Text(HeaderText(orderIdHeader))
    ensures r.Ok? ==>
      (r.value.properties[RoleKey] == Text(AdminRole) <==> userIdHeader.value in AdminUserIds)
    ensures r.Ok? ==>
      r.value.properties[RoleKey] == Text(AdminRole) || r.value.properties[RoleKey] == Text(UserRole)
  {
    match userIdHeader
    case None => Err(ArgumentNullException(RegexInputParam))
    case Some(userId) =>
      if !IsValidCustomerId(userId) then Err(ArgumentException(InvalidCustomerIdMessage))
      else
        var props := map[OrderIdKey := Text(HeaderText(orderIdHeader)), RoleKey := Text(RoleFor(userId))];
        Ok(UserContext(Some(userId), props))
  }
}
