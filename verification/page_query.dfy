/** The `@Pagination()` parameter decorator (pagination.decorator.ts): reads
    `page` and `limit` from the query string, defaults them to 1 and 10,
    and clamps them to at least 1 and, for `limit`, at most 100. A number is
    `Some(n)`; `None` is JavaScript's `NaN`, which the clamps pass through. */
module PageQuery {
  import opened Wrappers
  import opened Text
  import opened Requests

  /** The white space `parseInt` skips before the number (the ASCII part of
      ECMAScript's StrWhiteSpaceChar). */
  predicate IsSpace(c: char) {
    c == ' ' || c == '\t' || c == '\n' || c == '\r' || c == '\U{000B}' || c == '\U{000C}'
  }

  /** `s` with its leading white space removed. */
  function TrimStart(s: string): (r: string)
    ensures |r| <= |s| && r == s[|s| - |r|..]
    ensures |r| > 0 ==> !IsSpace(r[0])
    ensures forall i :: 0 <= i < |s| - |r| ==> IsSpace(s[i])
    decreases |s|
  {
    if |s| > 0 && IsSpace(s[0]) then TrimStart(s[1..]) else s
  }

  /** The longest prefix of decimal digits. */
  function DigitPrefix(s: string): (r: string)
    ensures r <= s && AllDigits(r)
    ensures |r| < |s| ==> !IsDigit(s[|r|])
    decreases |s|
  {
    if |s| > 0 && IsDigit(s[0]) then [s[0]] + DigitPrefix(s[1..]) else ""
  }

  /** `parseInt(s, 10)`: optional white space, an optional sign, then the
      longest run of digits; `None` (NaN) when there is no digit. */
  function ParseIntDecimal(s: string): (r: Option<int>)
    ensures r.Some? <==> |DigitPrefix(Unsigned(TrimStart(s)))| > 0
  {
    var t := TrimStart(s);
    var digits := DigitPrefix(Unsigned(t));
    if |digits| == 0 then None
    else if |t| > 0 && t[0] == '-' then Some(-(ParseNat(digits) as int))
    else Some(ParseNat(digits))
  }

  /** The text after a leading sign, if any. */
  function Unsigned(t: string): string {
    if |t| > 0 && (t[0] == '-' || t[0] == '+') then t[1..] else t
  }

  lemma {:induction false} DigitPrefixOfDigits(s: string)
    requires AllDigits(s)
    ensures DigitPrefix(s) == s
    decreases |s|
  {
    if |s| > 0 {
      DigitPrefixOfDigits(s[1..]);
    }
  }

  /** `parseInt` reads back every integer's decimal rendering. */
  lemma ParseIntDecimalOfIntToString(n: int)
    ensures ParseIntDecimal(IntToString(n)) == Some(n)
  {
    var s := IntToString(n);
    IntToStringRoundTrip(n);
    assert TrimStart(s) == s;
    if n < 0 {
      assert Unsigned(s) == s[1..];
      DigitPrefixOfDigits(s[1..]);
    } else {
      assert Unsigned(s) == s;
      DigitPrefixOfDigits(s);
    }
  }

  /** A parsed `page` or `limit`; `None` is NaN. */
  datatype PaginationQuery = PaginationQuery(page: Option<int>, limit: Option<int>)

  /** `Math.max(1, n)`: at least 1, NaN stays NaN, and a value already at
      least 1 is kept. */
  function AtLeastOne(n: Option<int>): (r: Option<int>)
    ensures r.Some? <==> n.Some?
    ensures r.Some? ==> r.value >= 1 && (r.value == 1 || r.value == n.value)
    ensures n.Some? && n.value >= 1 ==> r == n
  {
    match n
    case None => None
    case Some(v) => Some(if v < 1 then 1 else v)
  }

  /** `Math.min(Math.max(1, n), 100)`: between 1 and 100, NaN stays NaN,
      and a value already in range is kept. */
  function ClampLimit(n: Option<int>): (r: Option<int>)
    ensures r.Some? <==> n.Some?
    ensures r.Some? ==> 1 <= r.value <= 100 && (r.value == 1 || r.value == 100 || r.value == n.value)
    ensures n.Some? && 1 <= n.value <= 100 ==> r == n
  {
    match AtLeastOne(n)
    case None => None
    case Some(v) => Some(if v > 100 then 100 else v)
  }

  /** The decorator's factory on the raw `query.page` and `query.limit`
      (`None` when absent). */
  function ReadPagination(rawPage: Option<string>, rawLimit: Option<string>): (q: PaginationQuery)
    ensures q.page.Some? ==> q.page.value >= 1
    ensures q.limit.Some? ==> 1 <= q.limit.value <= 100
  {
    var page := if Given(rawPage) then ParseIntDecimal(rawPage.value) else Some(1);
    var limit := if Given(rawLimit) then ParseIntDecimal(rawLimit.value) else Some(10);
    PaginationQuery(AtLeastOne(page), ClampLimit(limit))
  }

  /** An absent or empty parameter takes its default; a present one is NaN
      exactly when `parseInt` finds no digit. */
  lemma ReadPaginationDefaults(rawPage: Option<string>, rawLimit: Option<string>)
    ensures var q := ReadPagination(rawPage, rawLimit);
      && (!Given(rawPage) ==> q.page == Some(1))
      && (!Given(rawLimit) ==> q.limit == Some(10))
      && (q.page.None? <==> Given(rawPage) && ParseIntDecimal(rawPage.value).None?)
      && (q.limit.None? <==> Given(rawLimit) && ParseIntDecimal(rawLimit.value).None?)
  {
  }

  /** In-range values written in decimal pass through unchanged. */
  lemma ReadPaginationInRange(page: int, limit: int)
    requires page >= 1 && 1 <= limit <= 100
    ensures ReadPagination(Some(IntToString(page)), Some(IntToString(limit))) ==
      PaginationQuery(Some(page), Some(limit))
  {
    ParseIntDecimalOfIntToString(page);
    ParseIntDecimalOfIntToString(limit);
    assert Given(Some(IntToString(page))) && Given(Some(IntToString(limit)));
  }

  /** Out-of-range values are clamped to the nearest bound. */
  lemma ReadPaginationClamps(page: int, limit: int)
    ensures page < 1 ==> ReadPagination(Some(IntToString(page)), None).page == Some(1)
    ensures limit < 1 ==> ReadPagination(None, Some(IntToString(limit))).limit == Some(1)
    ensures limit > 100 ==> ReadPagination(None, Some(IntToString(limit))).limit == Some(100)
  {
    ParseIntDecimalOfIntToString(page);
    ParseIntDecimalOfIntToString(limit);
    assert Given(Some(IntToString(page))) && Given(Some(IntToString(limit)));
  }

  /** Feeding the decorator's own numeric result back through it changes
      nothing: clamping twice is clamping once. */
  lemma ReadPaginationIdempotent(rawPage: Option<string>, rawLimit: Option<string>)
    requires ReadPagination(rawPage, rawLimit).page.Some? && ReadPagination(rawPage, rawLimit).limit.Some?
    ensures var q := ReadPagination(rawPage, rawLimit);
      ReadPagination(Some(IntToString(q.page.value)), Some(IntToString(q.limit.value))) == q
  {
    var q := ReadPagination(rawPage, rawLimit);
    ReadPaginationInRange(q.page.value, q.limit.value);
  }
}
