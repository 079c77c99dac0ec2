/** The two identifier validators, `IsValidCustomerId` and `IsValidOrderId`
    (Reveal/DataSourceProvider.cs, also Reveal/UserContextProvider.cs).
    Each one is `Regex.IsMatch` on a pattern of the shape `^C{n}$`; that
    shape is modelled by a small matcher, and the matcher is proved equal to
    a plain description of the accepted strings.

    Two .NET details are kept: `$` (without the multiline option) also
    matches just before a final line feed, and `\d` matches every Unicode
    decimal digit. A `null` input makes `Regex.IsMatch` throw; callers model
    that case, so the predicates here take non-null strings. */
module Validators {
  import opened Wrappers
  import opened Text

  /** The character classes the two patterns use. */
  datatype CharClass = AlphaNumericClass | DigitClass {
    /** `[A-Za-z0-9]` and `\d` respectively. */
    predicate Contains(c: char) {
      match this
      case AlphaNumericClass => IsAsciiAlphaNumeric(c)
      case DigitClass => IsDecimalDigit(c)
    }
  }

  /** The regex `^cls{count}$`. */
  datatype Pattern = Anchored(cls: CharClass, count: nat)

  /** The message of the `ArgumentException` thrown for a rejected customer id. */
  const InvalidCustomerIdMessage :=
    "Invalid CustomerID format. CustomerID must be a 5-character alphanumeric string."

  /** The message of the `ArgumentException` thrown for a rejected order id. */
  const InvalidOrderIdMessage := "Invalid OrderId format. OrderId must be a 5-digit numeric value."

  /** The parameter name of the `ArgumentNullException` that `Regex.IsMatch`
      throws for a `null` input. */
  const RegexInputParam := "input"

  const CustomerIdPattern := Anchored(AlphaNumericClass, 5)
  const OrderIdPattern := Anchored(DigitClass, 5)

  /** Matches `cls{n}` at the start of `s`; on success yields the unread rest. */
  function Consume(cls: CharClass, n: nat, s: string): (rest: Option<string>)
    ensures rest.Some? <==> n <= |s| && forall i :: 0 <= i < n ==> cls.Contains(s[i])
    ensures rest.Some? ==> rest.value == s[n..]
  {
    if n == 0 then Some(s)
    else if |s| > 0 && cls.Contains(s[0]) then Consume(cls, n - 1, s[1..])
    else None
  }

  /** The .NET `$` anchor: end of input, or a single line feed before it. */
  predicate AtEnd(rest: string) {
    rest == "" || rest == "\n"
  }

  /** `Regex.IsMatch(s, p)`. The `^` anchor only matches at position 0, so the
      engine's scan over start positions reduces to one attempt there. */
  predicate IsMatch(p: Pattern, s: string)
    ensures IsMatch(p, s) <==>
      && (|s| == p.count || (|s| == p.count + 1 && s[p.count] == '\n'))
      && forall i :: 0 <= i < p.count ==> p.cls.Contains(s[i])
  {
    match Consume(p.cls, p.count, s)
    case None => false
    case Some(rest) => AtEnd(rest)
  }

  /** `^[A-Za-z0-9]{5}$`: five ASCII letters or digits, optionally followed
      by one line feed. */
  predicate IsValidCustomerId(s: string)
    ensures IsValidCustomerId(s) <==>
      && (|s| == 5 || (|s| == 6 && s[5] == '\n'))
      && forall i :: 0 <= i < 5 ==> IsAsciiAlphaNumeric(s[i])
  {
    IsMatch(CustomerIdPattern, s)
  }

  /** `^\d{5}$`: five Unicode decimal digits, optionally followed by one
      line feed. */
  predicate IsValidOrderId(s: string)
    ensures IsValidOrderId(s) <==>
      && (|s| == 5 || (|s| == 6 && s[5] == '\n'))
      && forall i :: 0 <= i < 5 ==> IsDecimalDigit(s[i])
  {
    IsMatch(OrderIdPattern, s)
  }

  /** No string either validator accepts contains a single quote, so an
      accepted identifier cannot close the SQL literal it is placed in. */
  lemma ValidIdsAreQuoteFree(s: string)
    ensures IsValidCustomerId(s) ==> '\'' !in s
    ensures IsValidOrderId(s) ==> '\'' !in s
  {
    if '\'' in s {
      var k :| 0 <= k < |s| && s[k] == '\'';
      assert !IsDecimalDigit(s[k]);
    }
  }

  /** Five ASCII digits are a valid order id and a valid customer id. */
  lemma AsciiDigitsAreValidIds(s: string)
    requires |s| == 5 && forall i :: 0 <= i < 5 ==> IsAsciiDigit(s[i])
    ensures IsValidOrderId(s) && IsValidCustomerId(s)
  {
    forall i | 0 <= i < 5
      ensures IsDecimalDigit(s[i])
    {
      AsciiDigitIsDecimalDigit(s[i]);
    }
  }
}
