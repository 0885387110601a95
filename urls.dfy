/**
 * Request URLs: the plain URL of buildUrl() and the paged URL of
 * pagedEndpoint(). A URL is kept abstract: scheme, host, port, a path string
 * and the ordered list of query pairs; percent-encoding is not modelled.
 */
module Urls {
  import opened Wrappers

  /** Scheme, host and port, fixed for a session. */
  datatype Origin = Origin(scheme: string, host: string, port: int)

  /** A URL as the builder assembles it. */
  datatype Url = Url(origin: Origin, path: string, query: seq<(string, string)>)

  /** `endpoint.replaceAll("^/+", "")`: the endpoint with every leading
      '/' removed. */
  function StripLeadingSlashes(s: string): string
  {
    if |s| > 0 && s[0] == '/' then StripLeadingSlashes(s[1..]) else s
  }

  /** What the stripping removes: a suffix of the endpoint is kept, every
      removed character is a '/', and the kept part does not start with one. */
  lemma {:induction false} StripRemovesLeadingSlashes(s: string)
    ensures var r := StripLeadingSlashes(s);
      && |r| <= |s| && r == s[|s| - |r|..]
      && (forall i :: 0 <= i < |s| - |r| ==> s[i] == '/')
      && (r == [] || r[0] != '/')
    decreases |s|
  {
    if |s| > 0 && s[0] == '/' {
      StripRemovesLeadingSlashes(s[1..]);
      var r := StripLeadingSlashes(s);
      assert r == s[1..][|s| - 1 - |r|..];
    }
  }

  // ---------------------------------------------------------------------
  // Integer.toString, and its inverse.

  predicate IsDigit(c: char) { '0' <= c <= '9' }

  function DigitChar(d: int): (c: char)
    requires 0 <= d < 10
    ensures IsDigit(c)
  {
    ('0' as int + d) as char
  }

  /** The decimal digits of n, most significant first. */
  function Digits(n: nat): string
    decreases n
  {
    if n < 10 then [DigitChar(n)] else Digits(n / 10) + [DigitChar(n % 10)]
  }

  /** The rendering is one or more digits, with no leading zero except for
      the number 0 itself. */
  lemma {:induction false} DigitsWellFormed(n: nat)
    ensures var s := Digits(n);
      && |s| >= 1
      && (forall i :: 0 <= i < |s| ==> IsDigit(s[i]))
      && (s[0] == '0' ==> n == 0 && |s| == 1)
    decreases n
  {
    if n >= 10 {
      DigitsWellFormed(n / 10);
      var s := Digits(n);
      assert s[..|s| - 1] == Digits(n / 10);
    }
  }

  /** Integer.toString(n): a '-' sign for negative values, then the digits
      of the magnitude without leading zeros. */
  function Decimal(n: int): string
  {
    if n < 0 then "-" + Digits(-n) else Digits(n)
  }

  /** The value of a string of decimal digits. */
  function DigitsValue(s: string): nat
    requires forall i :: 0 <= i < |s| ==> IsDigit(s[i])
    decreases |s|
  {
    if s == [] then 0
    else
      assert IsDigit(s[|s| - 1]);
      DigitsValue(s[..|s| - 1]) * 10 + (s[|s| - 1] as int - '0' as int)
  }

  /** Reading a query value back as an int: an optional '-' followed by one
      or more digits; anything else is not a number. */
  function ParseDecimal(s: string): Option<int>
  {
    if |s| > 0 && s[0] == '-' then
      var t := s[1..];
      if |t| > 0 && forall i :: 0 <= i < |t| ==> IsDigit(t[i]) then Some(0 - DigitsValue(t) as int) else None
    else if |s| > 0 && forall i :: 0 <= i < |s| ==> IsDigit(s[i]) then Some(DigitsValue(s))
    else None
  }

  lemma {:induction false} DigitsRoundTrip(n: nat)
    ensures forall i :: 0 <= i < |Digits(n)| ==> IsDigit(Digits(n)[i])
    ensures DigitsValue(Digits(n)) == n
    decreases n
  {
    DigitsWellFormed(n);
    if n >= 10 {
      var s := Digits(n);
      DigitsRoundTrip(n / 10);
      assert s[..|s| - 1] == Digits(n / 10);
    }
  }

  /** Every int is read back from its decimal rendering, so distinct page
      numbers give distinct query values. */
  lemma DecimalRoundTrip(n: int)
    ensures ParseDecimal(Decimal(n)) == Some(n)
  {
    if n < 0 {
      var t := Digits(-n);
      DigitsWellFormed(-n);
      DigitsRoundTrip(-n);
      var s := Decimal(n);
      assert s == "-" + t;
      assert s[0] == '-' && s[1..] == t;
      assert |t| > 0 && forall i :: 0 <= i < |t| ==> IsDigit(t[i]);
      assert ParseDecimal(s) == Some(0 - DigitsValue(t) as int);
    } else {
      var t := Digits(n);
      DigitsWellFormed(n);
      DigitsRoundTrip(n);
      assert Decimal(n) == t;
      assert |t| > 0 && t[0] != '-';
      assert forall i :: 0 <= i < |t| ==> IsDigit(t[i]);
      assert ParseDecimal(t) == Some(DigitsValue(t));
    }
  }

  // ---------------------------------------------------------------------
  // The two URL builders.

  /** buildUrl(endpoint): the origin and the stripped endpoint as path. */
  function BuildUrl(origin: Origin, endpoint: string): Url
  {
    Url(origin, StripLeadingSlashes(endpoint), [])
  }

  /** pagedEndpoint(endpoint, pageTag, page, perPageTag, perPage): the page
      parameter always, the per-page parameter only for a non-null tag and
      a positive size. */
  function PagedEndpoint(origin: Origin, endpoint: string, pageTag: string, page: int,
                         perPageTag: Option<string>, perPage: int): Url
  {
    var first := [(pageTag, Decimal(page))];
    Url(origin, StripLeadingSlashes(endpoint),
        if perPageTag.Some? && perPage > 0 then first + [(perPageTag.value, Decimal(perPage))] else first)
  }

  /** The first query pair's value when it is named `tag` and is a number. */
  function PageParameter(u: Url, tag: string): Option<int>
  {
    if |u.query| > 0 && u.query[0].0 == tag then ParseDecimal(u.query[0].1) else None
  }

  /** What a paged URL says: the same path as buildUrl, the requested page
      read back from the first query pair, and a second pair carrying the
      page size exactly when the tag is non-null and the size positive. */
  lemma PagedEndpointQuery(origin: Origin, endpoint: string, pageTag: string, page: int,
                           perPageTag: Option<string>, perPage: int)
    ensures var u := PagedEndpoint(origin, endpoint, pageTag, page, perPageTag, perPage);
      && u.origin == origin
      && u.path == BuildUrl(origin, endpoint).path
      && PageParameter(u, pageTag) == Some(page)
      && (|u.query| == 2 <==> perPageTag.Some? && perPage > 0)
      && (|u.query| == 2 ==> u.query[1].0 == perPageTag.value && ParseDecimal(u.query[1].1) == Some(perPage))
      && |u.query| in {1, 2}
  {
    DecimalRoundTrip(page);
    DecimalRoundTrip(perPage);
  }

  /** Distinct pages of one endpoint are distinct requests. */
  lemma PagedEndpointInjective(origin: Origin, endpoint: string, pageTag: string, p: int, q: int,
                               perPageTag: Option<string>, perPage: int)
    requires p != q
    ensures PagedEndpoint(origin, endpoint, pageTag, p, perPageTag, perPage)
         != PagedEndpoint(origin, endpoint, pageTag, q, perPageTag, perPage)
  {
    PagedEndpointQuery(origin, endpoint, pageTag, p, perPageTag, perPage);
    PagedEndpointQuery(origin, endpoint, pageTag, q, perPageTag, perPage);
  }
}
