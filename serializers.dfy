/** The three array-to-text converters of the client: the query string of a
    URL, the `Cookie` header value (the cookie-pair list of section 4.2.1 of
    RFC 6265) and the list of `Name: value` header lines. None of them
    encodes anything; entries are written in the array's insertion order. */
module Serializers {
  import opened PhpValues

  /** One entry written as key, glue, value. */
  function Entry(p: (string, string), glue: string): string
  {
    p.0 + glue + p.1
  }

  /** The entries of `m` in order, separated by `sep`, with nothing after
      the last one. */
  function Joined(m: StringMap, glue: string, sep: string): string
  {
    if |m| == 0 then ""
    else if |m| == 1 then Entry(m[0], glue)
    else Joined(m[..|m| - 1], glue, sep) + sep + Entry(m[|m| - 1], glue)
  }

  /** The entries of `m` in order, each followed by `sep`: the text the
      converters build before they cut the last separator off. */
  function Terminated(m: StringMap, glue: string, sep: string): string
  {
    if |m| == 0 then "" else Terminated(m[..|m| - 1], glue, sep) + Entry(m[|m| - 1], glue) + sep
  }

  /** `k=v&k=v`: the query string. */
  function QueryString(query: StringMap): string
  {
    Joined(query, "=", "&")
  }

  /** `k=v; k=v`: the cookie string. */
  function CookieString(cookie: StringMap): string
  {
    Joined(cookie, "=", "; ")
  }

  /** `k: v`: one header line. */
  function HeaderLine(p: (string, string)): string
  {
    Entry(p, ": ")
  }

  /** Cutting the final separator off the terminated text leaves the joined text. */
  lemma {:induction false} TerminatedIsJoinedThenSep(m: StringMap, glue: string, sep: string)
    requires |m| > 0
    ensures Terminated(m, glue, sep) == Joined(m, glue, sep) + sep
  {
    if |m| > 1 {
      TerminatedIsJoinedThenSep(m[..|m| - 1], glue, sep);
    }
  }

  /** Joining is compositional: the text of two non-empty arrays placed one
      after the other is the two texts with one separator between them. */
  lemma {:induction false} JoinedConcat(a: StringMap, b: StringMap, glue: string, sep: string)
    requires |a| > 0 && |b| > 0
    ensures Joined(a + b, glue, sep) == Joined(a, glue, sep) + sep + Joined(b, glue, sep)
  {
    var ab := a + b;
    if |b| == 1 {
      assert ab[..|ab| - 1] == a;
    } else {
      var b' := b[..|b| - 1];
      assert ab[..|ab| - 1] == a + b';
      JoinedConcat(a, b', glue, sep);
    }
  }

  /** The joined text read from the front: the first entry, then for the
      rest the separator and their joined text. */
  lemma JoinedFront(m: StringMap, glue: string, sep: string)
    requires |m| > 0
    ensures Joined(m, glue, sep) ==
      Entry(m[0], glue) + (if |m| == 1 then "" else sep + Joined(m[1..], glue, sep))
  {
    if |m| > 1 {
      assert m == [m[0]] + m[1..];
      JoinedConcat([m[0]], m[1..], glue, sep);
    }
  }

  /** The query string of a non-empty array is its first pair followed by
      `&` and the query string of the rest; the empty array gives "". */
  lemma QueryStringShape(query: StringMap)
    ensures |query| == 0 ==> QueryString(query) == ""
    ensures |query| > 0 ==>
              QueryString(query) ==
              query[0].0 + "=" + query[0].1
              + (if |query| == 1 then "" else "&" + QueryString(query[1..]))
  {
    if |query| > 0 {
      JoinedFront(query, "=", "&");
    }
  }

  /** The cookie string of a non-empty array is its first pair followed by
      `; ` and the cookie string of the rest; the empty array gives "". */
  lemma CookieStringShape(cookie: StringMap)
    ensures |cookie| == 0 ==> CookieString(cookie) == ""
    ensures |cookie| > 0 ==>
              CookieString(cookie) ==
              cookie[0].0 + "=" + cookie[0].1
              + (if |cookie| == 1 then "" else "; " + CookieString(cookie[1..]))
  {
    if |cookie| > 0 {
      JoinedFront(cookie, "=", "; ");
    }
  }

  /** Builds `k=v&` for every pair, then drops the final `&`. */
  method ConvertArrayToQueryString(query: StringMap) returns (queryString: string)
    ensures queryString == QueryString(query)
  {
    queryString := "";
    if |query| > 0 {
      for i := 0 to |query|
        invariant queryString == Terminated(query[..i], "=", "&")
      {
        assert query[..i + 1][..i] == query[..i];
        queryString := queryString + query[i].0 + "=" + query[i].1 + "&";
      }
      assert query[..|query|] == query;
      TerminatedIsJoinedThenSep(query, "=", "&");
      if queryString != "" {
        queryString := queryString[..|queryString| - 1];
      }
    }
  }

  /** Builds `k=v; ` for every pair, then drops the final `; `. */
  method ConvertArrayToCookieString(cookie: StringMap) returns (cookieString: string)
    ensures cookieString == CookieString(cookie)
  {
    cookieString := "";
    if |cookie| > 0 {
      for i := 0 to |cookie|
        invariant cookieString == Terminated(cookie[..i], "=", "; ")
      {
        assert cookie[..i + 1][..i] == cookie[..i];
        cookieString := cookieString + cookie[i].0 + "=" + cookie[i].1 + "; ";
      }
      assert cookie[..|cookie|] == cookie;
      TerminatedIsJoinedThenSep(cookie, "=", "; ");
      if cookieString != "" {
        cookieString := cookieString[..|cookieString| - 2];
      }
    }
  }

  /** One `k: v` line per entry, in order. */
  method ConvertArrayToOptionArray(options: StringMap) returns (lines: seq<string>)
    ensures |lines| == |options|
    ensures forall i :: 0 <= i < |options| ==> lines[i] == options[i].0 + ": " + options[i].1
  {
    lines := [];
    for i := 0 to |options|
      invariant |lines| == i
      invariant forall j :: 0 <= j < i ==> lines[j] == HeaderLine(options[j])
    {
      lines := lines + [options[i].0 + ": " + options[i].1];
    }
  }
}
