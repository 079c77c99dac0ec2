/** `EscapeSqlInput` (Reveal/DataSourceProvider.cs): `input.Replace("'", "''")`.

    Its purpose is to keep an interpolated value inside the SQL string
    literal `'...'` it is placed in. `ReadLiteral` is the reading side: the
    T-SQL rule that inside a literal two quotes stand for one quote and a
    lone quote ends the literal. The round-trip lemma shows that the
    escaped text always reads back as exactly the original value. */
module Escaping {
  import opened Wrappers

  const Quote: char := '\''

  /** Every quote doubled, every other character kept, in order. */
  function Escape(s: string): (r: string)
    ensures |r| >= |s|
    ensures Quote !in s ==> r == s
  {
    if s == [] then []
    else (if s[0] == Quote then [Quote, Quote] else [s[0]]) + Escape(s[1..])
  }

  /** Reads the body of a string literal whose opening quote has already
      been consumed: yields the denoted value and the text after the
      closing quote, or `None` when the literal is never closed. */
  function ReadLiteral(t: string): Option<(string, string)>
    decreases |t|
  {
    if t == [] then None
    else if t[0] == Quote then
      if |t| >= 2 && t[1] == Quote then
        match ReadLiteral(t[2..])
        case None => None
        case Some((body, rest)) => Some(([Quote] + body, rest))
      else Some(([], t[1..]))
    else
      match ReadLiteral(t[1..])
      case None => None
      case Some((body, rest)) => Some(([t[0]] + body, rest))
  }

  /** The number of quotes in `s`. */
  function QuoteCount(s: string): nat {
    if s == [] then 0 else (if s[0] == Quote then 1 else 0) + QuoteCount(s[1..])
  }

  /** `s` with its quotes removed: the characters escaping must not touch. */
  function WithoutQuotes(s: string): string {
    if s == [] then [] else (if s[0] == Quote then [] else [s[0]]) + WithoutQuotes(s[1..])
  }

  /** Escaping leaves a string unchanged exactly when it holds no quote. */
  lemma {:induction false} EscapeIdentityIff(s: string)
    ensures Escape(s) == s <==> Quote !in s
    decreases |s|
  {
    if s != [] {
      EscapeIdentityIff(s[1..]);
      if s[0] == Quote {
        assert |Escape(s)| == 2 + |Escape(s[1..])| > |s|;
      } else {
        assert s == [s[0]] + s[1..];
        if Escape(s) == s {
          assert Escape(s[1..]) == s[1..];
        }
      }
    }
  }

  /** Escaping doubles the quotes and keeps all other characters in their
      order. */
  lemma {:induction false} EscapeDoublesQuotes(s: string)
    ensures QuoteCount(Escape(s)) == 2 * QuoteCount(s)
    ensures WithoutQuotes(Escape(s)) == WithoutQuotes(s)
    ensures |Escape(s)| == |s| + QuoteCount(s)
    decreases |s|
  {
    if s != [] {
      EscapeDoublesQuotes(s[1..]);
      var head := if s[0] == Quote then [Quote, Quote] else [s[0]];
      CountAppend(head, Escape(s[1..]));
    }
  }

  lemma {:induction false} CountAppend(a: string, b: string)
    ensures QuoteCount(a + b) == QuoteCount(a) + QuoteCount(b)
    ensures WithoutQuotes(a + b) == WithoutQuotes(a) + WithoutQuotes(b)
    decreases |a|
  {
    if a == [] {
      assert a + b == b;
    } else {
      assert (a + b)[1..] == a[1..] + b;
      CountAppend(a[1..], b);
    }
  }

  /** The escaped value, closed by one quote, reads back as exactly the
      value, and reading resumes right after that quote. The text that
      follows must not begin with a quote, since a quote there would pair
      with the closing one. */
  lemma {:induction false} LiteralRoundTrip(s: string, rest: string)
    requires rest == [] || rest[0] != Quote
    ensures ReadLiteral(Escape(s) + [Quote] + rest) == Some((s, rest))
    decreases |s|
  {
    var t := Escape(s) + [Quote] + rest;
    if s == [] {
      assert t == [Quote] + rest;
      assert t[1..] == rest;
    } else if s[0] == Quote {
      assert t == [Quote, Quote] + (Escape(s[1..]) + [Quote] + rest);
      assert t[2..] == Escape(s[1..]) + [Quote] + rest;
      LiteralRoundTrip(s[1..], rest);
      assert [Quote] + s[1..] == s;
    } else {
      assert t == [s[0]] + (Escape(s[1..]) + [Quote] + rest);
      assert t[1..] == Escape(s[1..]) + [Quote] + rest;
      LiteralRoundTrip(s[1..], rest);
      assert [s[0]] + s[1..] == s;
    }
  }
}
