/**
 * The two endpoint URLs of the Insights API client: where Publish posts an
 * event and where Query sends an NRQL query. Each comes with a parser that
 * reads the account (and the query) back out of the URL.
 */
module Endpoints {
  import opened Wrappers
  import opened FormEncoding

  const DEFAULT_INSERT_URL: string := "https://insights-collector.newrelic.com"
  const DEFAULT_QUERY_URL: string := "https://insights-api.newrelic.com"

  /** The text of the insert and query paths around the account identifier. */
  const ACCOUNTS: string := "v1/accounts/"
  const EVENTS: string := "/events"
  const QUERY: string := "/query"

  /** The form key the query travels under. */
  const NRQL_KEY: string := "nrql"

  /** `fmt.Sprintf(insertPath, accountID)`, with insertPath = "v1/accounts/%s/events". */
  function InsertPath(accountID: string): string
  {
    ACCOUNTS + accountID + EVENTS
  }

  /** `fmt.Sprintf("%s/%s", base, path)`: where Publish posts the event. */
  function InsertURL(base: string, accountID: string): string
  {
    base + "/" + InsertPath(accountID)
  }

  /** `url.Values{"nrql": {query}}.Encode()`: a single escaped key=value pair. */
  function EncodeQuery(query: string): string
  {
    QueryEscape(NRQL_KEY) + "=" + QueryEscape(query)
  }

  /**
   * fullurl: the base, "/", queryPath = "v1/accounts/%s/query" with the
   * account substituted, "?", then the encoded query.
   */
  function QueryURL(base: string, accountID: string, query: string): string
  {
    base + "/" + ACCOUNTS + accountID + QUERY + "?" + EncodeQuery(query)
  }

  function StripPrefix(s: string, prefix: string): (r: Option<string>)
    ensures r.Some? <==> prefix <= s
    ensures r.Some? ==> s == prefix + r.value
  {
    if prefix <= s then Some(s[|prefix|..]) else None
  }

  function StripSuffix(s: string, suffix: string): (r: Option<string>)
    ensures r.Some? <==> |suffix| <= |s| && s[|s| - |suffix|..] == suffix
    ensures r.Some? ==> s == r.value + suffix
  {
    if |suffix| <= |s| && s[|s| - |suffix|..] == suffix then Some(s[..|s| - |suffix|]) else None
  }

  /** The position of the last occurrence of `c` in `s`. */
  function LastIndexOf(s: string, c: char): (r: Option<nat>)
    ensures r.Some? ==> r.value < |s| && s[r.value] == c
    ensures r.Some? ==> forall j :: r.value < j < |s| ==> s[j] != c
    ensures r.None? ==> forall j :: 0 <= j < |s| ==> s[j] != c
  {
    if s == [] then None
    else if s[|s| - 1] == c then Some(|s| - 1)
    else LastIndexOf(s[..|s| - 1], c)
  }

  /** The account an insert URL under `base` posts to; None for any other URL. */
  function InsertAccount(base: string, url: string): Option<string>
  {
    match StripPrefix(url, base + "/" + ACCOUNTS)
    case None => None
    case Some(rest) => StripSuffix(rest, EVENTS)
  }

  /**
   * The account and the escaped query of a query URL under `base`: the
   * escaped query is what follows "nrql=" after the last '?'.
   */
  function SplitQueryURL(base: string, url: string): Option<(string, string)>
  {
    match StripPrefix(url, base + "/" + ACCOUNTS)
    case None => None
    case Some(rest) =>
      match LastIndexOf(rest, '?')
      case None => None
      case Some(i) =>
        match (StripSuffix(rest[..i], QUERY), StripPrefix(rest[i + 1..], NRQL_KEY + "="))
        case (Some(accountID), Some(escaped)) => Some((accountID, escaped))
        case _ => None
  }

  /** The account and the query text of a query URL under `base`. */
  function ParseQueryURL(base: string, url: string): Option<(string, string)>
  {
    match SplitQueryURL(base, url)
    case None => None
    case Some((accountID, escaped)) =>
      match QueryUnescape(escaped)
      case None => None
      case Some(bytes) =>
        match Utf8Decode(bytes)
        case None => None
        case Some(query) => Some((accountID, query))
  }

  /** The insert URL determines the account: it is placed verbatim between fixed text. */
  lemma InsertURLRoundTrip(base: string, accountID: string)
    ensures InsertAccount(base, InsertURL(base, accountID)) == Some(accountID)
  {
    var url := InsertURL(base, accountID);
    assert url == (base + "/" + ACCOUNTS) + (accountID + EVENTS);
    var rest := accountID + EVENTS;
    assert StripPrefix(url, base + "/" + ACCOUNTS) == Some(rest);
    assert rest[|rest| - |EVENTS|..] == EVENTS;
    assert rest[..|rest| - |EVENTS|] == accountID;
  }

  /** The last `c` of u + [c] + t is the one after u when t holds no `c`. */
  lemma {:induction false} LastIndexAfter(u: string, c: char, t: string)
    requires forall j :: 0 <= j < |t| ==> t[j] != c
    ensures LastIndexOf(u + [c] + t, c) == Some(|u|)
  {
    var s := u + [c] + t;
    if t != [] {
      var t' := t[..|t| - 1];
      assert s[|s| - 1] == t[|t| - 1];
      assert s[..|s| - 1] == u + [c] + t';
      LastIndexAfter(u, c, t');
    }
  }

  /** Parsing a URL of the query shape finds the account and the escaped query text. */
  lemma ParseQueryShape(base: string, accountID: string, escaped: string)
    requires forall j :: 0 <= j < |escaped| ==> escaped[j] != '?'
    ensures SplitQueryURL(base, base + "/" + ACCOUNTS + accountID + QUERY + "?" + NRQL_KEY + "=" + escaped)
            == Some((accountID, escaped))
  {
    var prefix := base + "/" + ACCOUNTS;
    var tail := NRQL_KEY + "=" + escaped;
    var rest := accountID + QUERY + "?" + tail;
    var url := base + "/" + ACCOUNTS + accountID + QUERY + "?" + NRQL_KEY + "=" + escaped;
    assert url == prefix + rest;
    assert StripPrefix(url, prefix) == Some(rest);
    var i := |accountID + QUERY|;
    forall j | 0 <= j < |tail|
      ensures tail[j] != '?'
    {
      if j >= |NRQL_KEY + "="| {
        assert tail[j] == escaped[j - |NRQL_KEY + "="|];
      }
    }
    LastIndexAfter(accountID + QUERY, '?', tail);
    assert rest[..i] == accountID + QUERY;
    assert rest[i + 1..] == tail;
    assert StripSuffix(rest[..i], QUERY) == Some(accountID);
    assert StripPrefix(rest[i + 1..], NRQL_KEY + "=") == Some(escaped);
  }

  /**
   * The query URL determines both the account and the query: the escaped
   * query holds no '?', so the last '?' is the one fullurl put after the path.
   */
  lemma QueryURLRoundTrip(base: string, accountID: string, query: string)
    ensures ParseQueryURL(base, QueryURL(base, accountID, query)) == Some((accountID, query))
  {
    var escaped := QueryEscape(query);
    NrqlKeyEscape();
    QueryEscapeRoundTrip(query);
    assert QueryURL(base, accountID, query)
        == base + "/" + ACCOUNTS + accountID + QUERY + "?" + NRQL_KEY + "=" + escaped;
    ParseQueryShape(base, accountID, escaped);
  }

  /** The key "nrql" needs no escaping. */
  lemma NrqlKeyEscape()
    ensures QueryEscape(NRQL_KEY) == NRQL_KEY
  {
    QueryEscapeUnreserved(NRQL_KEY);
  }

  /** The insert URL the client's own test expects for account "1". */
  lemma InsertURLExample()
    ensures InsertURL(DEFAULT_INSERT_URL, "1")
            == "https://insights-collector.newrelic.com/v1/accounts/1/events"
  {
  }

  /** Escaping a string made of five pieces, with the second repeated, piece by piece. */
  lemma QueryEscapeFivePieces(a: string, b: string, c: string, d: string, e: string)
    ensures QueryEscape(a + b + c + b + d + b + e)
            == QueryEscape(a) + QueryEscape(b) + QueryEscape(c) + QueryEscape(b)
               + QueryEscape(d) + QueryEscape(b) + QueryEscape(e)
  {
    QueryEscapeAppend(a, b);
    QueryEscapeAppend(a + b, c);
    QueryEscapeAppend(a + b + c, b);
    QueryEscapeAppend(a + b + c + b, d);
    QueryEscapeAppend(a + b + c + b + d, b);
    QueryEscapeAppend(a + b + c + b + d + b, e);
  }

  /** A space is written as '+'. */
  lemma QueryEscapeSpace(space: string)
    requires space == " "
    ensures QueryEscape(space) == "+"
  {
    assert Utf8(space) == [0x20];
    assert EscapeByte(0x20) == "+";
    assert EscapeBytes([0x20]) == EscapeByte(0x20) + EscapeBytes([]);
  }

  /** '*' is not unreserved: it is percent-escaped. */
  lemma QueryEscapeStar(star: string)
    requires star == "*"
    ensures QueryEscape(star) == "%2A"
  {
    assert Utf8(star) == [0x2A];
    assert EscapeByte(0x2A) == ['%', HexChar(2), HexChar(10)] == "%2A";
    assert EscapeBytes([0x2A]) == EscapeByte(0x2A) + EscapeBytes([]);
  }

  /** The escape of "SELECT * FROM 1", assembled from its pieces. */
  lemma QueryEscapeExampleParts(select: string, space: string, star: string, from: string, one: string)
    requires select == "SELECT" && space == " " && star == "*" && from == "FROM" && one == "1"
    ensures QueryEscape(select + space + star + space + from + space + one) == "SELECT+%2A+FROM+1"
  {
    QueryEscapeUnreserved(select);
    QueryEscapeUnreserved(from);
    QueryEscapeUnreserved(one);
    QueryEscapeSpace(space);
    QueryEscapeStar(star);
    QueryEscapeFivePieces(select, space, star, from, one);
  }

  /** Spaces become '+' and '*' is percent-escaped. */
  lemma QueryEscapeExample(query: string)
    requires query == "SELECT * FROM 1"
    ensures QueryEscape(query) == "SELECT+%2A+FROM+1"
  {
    QueryEscapeExampleParts("SELECT", " ", "*", "FROM", "1");
    assert query == "SELECT" + " " + "*" + " " + "FROM" + " " + "1";
  }

  /** The form encoding of the test query under the key "nrql". */
  lemma EncodeQueryExample(query: string)
    requires query == "SELECT * FROM 1"
    ensures EncodeQuery(query) == "nrql=SELECT+%2A+FROM+1"
  {
    NrqlKeyEscape();
    QueryEscapeExample(query);
  }

  /** The full query URL for account "1" and the query "SELECT * FROM 1". */
  lemma QueryURLExample(accountID: string, query: string)
    requires accountID == "1" && query == "SELECT * FROM 1"
    ensures QueryURL(DEFAULT_QUERY_URL, accountID, query)
            == "https://insights-api.newrelic.com/v1/accounts/1/query?nrql=SELECT+%2A+FROM+1"
  {
    var encoded := EncodeQuery(query);
    EncodeQueryExample(query);
    assert QueryURL(DEFAULT_QUERY_URL, accountID, query)
        == DEFAULT_QUERY_URL + "/" + ACCOUNTS + accountID + QUERY + "?" + encoded;
    QueryURLExampleText(accountID, encoded);
  }

  lemma QueryURLExampleText(accountID: string, encoded: string)
    requires accountID == "1" && encoded == "nrql=SELECT+%2A+FROM+1"
    ensures DEFAULT_QUERY_URL + "/" + ACCOUNTS + accountID + QUERY + "?" + encoded
            == "https://insights-api.newrelic.com/v1/accounts/1/query?nrql=SELECT+%2A+FROM+1"
  {
  }
}
