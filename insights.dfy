/**
 * The Insights API client: its configuration (NewClient and the
 * AccountID/InsertKey/QueryKey options), Publish, which turns an attribute
 * map into an event body and posts it, and Query, which sends an NRQL query
 * and hands the answer on. The HTTP exchange itself is not modelled: what
 * the transport does with a request is a parameter of type Exchange.
 */
module Insights {
  import opened Wrappers
  import opened Durations
  import opened Attributes
  import opened FormEncoding
  import opened Endpoints

  /** http.StatusOK: the only status either call accepts. */
  const STATUS_OK: int := 200

  const CONTENT_TYPE_HEADER: string := "Content-Type"
  const JSON_CONTENT_TYPE: string := "application/json"
  const INSERT_KEY_HEADER: string := "X-Insert-Key"
  const QUERY_KEY_HEADER: string := "X-Query-Key"

  /** The errors Publish and Query return, by the place that returns them. */
  datatype Error =
    | CannotCast(typeName: string, text: string)  // an attribute of an unsupported type
    | TooManyAttributes                           // the body would hold more than 255 keys
    | CannotMarshal                               // json.Marshal refused the body
    | CannotCreateRequest(cause: string)          // http.NewRequest failed
    | CannotPost(cause: string)                   // Publish: the client's Do failed
    | CannotMakeRequest(cause: string)            // Query: the client's Do failed
    | CannotReadBody(cause: string)               // reading the response body failed
    | PublishRejected(status: int, body: string)  // Publish: a status other than 200
    | QueryRejected(status: int, body: string)    // Query: a status other than 200
    | CannotUnmarshal(body: string)               // Query: json.Unmarshal refused the body

  /**
   * What the HTTP layer does with a request: refuse to build it, fail to
   * send it, fail while reading the answer, or answer with a status and a body.
   */
  datatype Exchange =
    | Unbuildable(cause: string)
    | Unsent(cause: string)
    | Unreadable(cause: string)
    | Answered(status: int, body: string)

  /** A request handed to the HTTP client. */
  datatype Request = Request(
    verb: string,
    url: string,
    headers: seq<(string, string)>,
    body: Option<map<string, Attr>>)

  /** The settings of a client. */
  datatype Config = Config(
    insertURL: string,
    queryURL: string,
    accountID: string,
    insertKey: string,
    queryKey: string)
  {
    function Get(f: Field): string
    {
      match f
      case InsertBase => insertURL
      case QueryBase => queryURL
      case Account => accountID
      case InsertCredential => insertKey
      case QueryCredential => queryKey
    }
  }

  /** The fields of a client's settings. */
  datatype Field = InsertBase | QueryBase | Account | InsertCredential | QueryCredential

  /** What NewClient installs before it applies any option. */
  function Defaults(): (cfg: Config)
    ensures cfg.Get(InsertBase) == DEFAULT_INSERT_URL && cfg.Get(QueryBase) == DEFAULT_QUERY_URL
    ensures cfg.Get(Account) == "" && cfg.Get(InsertCredential) == "" && cfg.Get(QueryCredential) == ""
  {
    Config(DEFAULT_INSERT_URL, DEFAULT_QUERY_URL, "", "", "")
  }

  /** The option closures AccountID, InsertKey and QueryKey. */
  datatype ClientOption = AccountID(id: string) | InsertKey(insert: string) | QueryKey(query: string)
  {
    /** The one field the option sets. */
    function Target(): Field
    {
      match this
      case AccountID(_) => Account
      case InsertKey(_) => InsertCredential
      case QueryKey(_) => QueryCredential
    }

    /** The value it stores there. */
    function Value(): string
    {
      match this
      case AccountID(id) => id
      case InsertKey(key) => key
      case QueryKey(key) => key
    }

    /** The option applied to settings: its field changes, every other stays. */
    function Update(cfg: Config): (r: Config)
      ensures forall f :: r.Get(f) == if f == Target() then Value() else cfg.Get(f)
    {
      match this
      case AccountID(id) => cfg.(accountID := id)
      case InsertKey(key) => cfg.(insertKey := key)
      case QueryKey(key) => cfg.(queryKey := key)
    }
  }

  /** The options applied left to right to `init`. */
  function Configure(init: Config, options: seq<ClientOption>): Config
  {
    if options == [] then init
    else options[|options| - 1].Update(Configure(init, options[..|options| - 1]))
  }

  /** A field no option targets keeps its initial value. */
  lemma {:induction false} UnsetFieldKeeps(init: Config, options: seq<ClientOption>, f: Field)
    requires forall j :: 0 <= j < |options| ==> options[j].Target() != f
    ensures Configure(init, options).Get(f) == init.Get(f)
  {
    if options != [] {
      UnsetFieldKeeps(init, options[..|options| - 1], f);
    }
  }

  /** The last option that targets a field decides its value. */
  lemma {:induction false} LastOptionWins(init: Config, options: seq<ClientOption>, i: nat)
    requires i < |options|
    requires forall j :: i < j < |options| ==> options[j].Target() != options[i].Target()
    ensures Configure(init, options).Get(options[i].Target()) == options[i].Value()
  {
    if i < |options| - 1 {
      LastOptionWins(init, options[..|options| - 1], i);
    }
  }

  /** No option can change the base URLs: they stay the defaults. */
  lemma BaseURLsFixed(options: seq<ClientOption>)
    ensures Configure(Defaults(), options).Get(InsertBase) == DEFAULT_INSERT_URL
    ensures Configure(Defaults(), options).Get(QueryBase) == DEFAULT_QUERY_URL
  {
    UnsetFieldKeeps(Defaults(), options, InsertBase);
    UnsetFieldKeeps(Defaults(), options, QueryBase);
  }

  /** The settings of the client built by the package's tests. */
  lemma ConfigureExample(id: string, insert: string, query: string)
    requires id == "1" && insert == "insert-abc" && query == "query-abc"
    ensures Configure(Defaults(), [AccountID(id), InsertKey(insert), QueryKey(query)])
            == Config(DEFAULT_INSERT_URL, DEFAULT_QUERY_URL, "1", "insert-abc", "query-abc")
  {
    var options := [AccountID(id), InsertKey(insert), QueryKey(query)];
    var cfg := Configure(Defaults(), options);
    BaseURLsFixed(options);
    LastOptionWins(Defaults(), options, 0);
    LastOptionWins(Defaults(), options, 1);
    LastOptionWins(Defaults(), options, 2);
    assert cfg.Get(Account) == "1" && cfg.Get(InsertCredential) == "insert-abc";
    assert cfg.Get(QueryCredential) == "query-abc";
  }

  /** How Publish ends once its request has been built. */
  function PublishOutcome(exchange: Exchange): (err: Option<Error>)
    ensures err.None? <==> exchange.Answered? && exchange.status == STATUS_OK
    ensures exchange.Answered? && exchange.status != STATUS_OK
            ==> err == Some(PublishRejected(exchange.status, exchange.body))
    ensures exchange.Unbuildable? ==> err == Some(CannotCreateRequest(exchange.cause))
    ensures exchange.Unsent? ==> err == Some(CannotPost(exchange.cause))
    ensures exchange.Unreadable? ==> err == Some(CannotReadBody(exchange.cause))
  {
    match exchange
    case Unbuildable(cause) => Some(CannotCreateRequest(cause))
    case Unsent(cause) => Some(CannotPost(cause))
    case Unreadable(cause) => Some(CannotReadBody(cause))
    case Answered(status, body) =>
      if status != STATUS_OK then Some(PublishRejected(status, body)) else None
  }

  /** How Query ends; `decodes` says whether json.Unmarshal accepts the body. */
  function QueryOutcome(exchange: Exchange, decodes: bool): (err: Option<Error>)
    ensures err.None? <==> exchange.Answered? && exchange.status == STATUS_OK && decodes
    ensures exchange.Answered? && exchange.status != STATUS_OK
            ==> err == Some(QueryRejected(exchange.status, exchange.body))
    ensures exchange.Answered? && exchange.status == STATUS_OK && !decodes
            ==> err == Some(CannotUnmarshal(exchange.body))
    ensures exchange.Unbuildable? ==> err == Some(CannotCreateRequest(exchange.cause))
    ensures exchange.Unsent? ==> err == Some(CannotMakeRequest(exchange.cause))
    ensures exchange.Unreadable? ==> err == Some(CannotReadBody(exchange.cause))
  {
    match exchange
    case Unbuildable(cause) => Some(CannotCreateRequest(cause))
    case Unsent(cause) => Some(CannotMakeRequest(cause))
    case Unreadable(cause) => Some(CannotReadBody(cause))
    case Answered(status, body) =>
      if status != STATUS_OK then Some(QueryRejected(status, body))
      else if !decodes then Some(CannotUnmarshal(body))
      else None
  }

  /** Adding one more coerced attribute to a partial body. */
  lemma CoercedPartGrows(eventType: string, attrs: map<string, Value>, done: set<string>, k: string)
    requires done <= attrs.Keys && k in attrs
    requires forall j :: j in done ==> Coerce(attrs[j]).Some?
    requires Coerce(attrs[k]).Some?
    ensures (Seed(eventType) + CoercedPart(attrs, done))[k := Coerce(attrs[k]).value]
            == Seed(eventType) + CoercedPart(attrs, done + {k})
  {
    var lhs := (Seed(eventType) + CoercedPart(attrs, done))[k := Coerce(attrs[k]).value];
    var rhs := Seed(eventType) + CoercedPart(attrs, done + {k});
    assert lhs.Keys == rhs.Keys;
    forall j | j in lhs
      ensures lhs[j] == rhs[j]
    {
    }
  }

  /**
   * The loop of Publish: the body built from {"eventType": eventType} by
   * adding each coerced attribute, or the first attribute met whose type is
   * not supported (Go's map order decides which; here any may be chosen).
   */
  method CoerceAll(eventType: string, attrs: map<string, Value>)
    returns (body: map<string, Attr>, unsupported: Option<Value>)
    ensures unsupported.None? <==> AllSupported(attrs)
    ensures unsupported.None? ==> body == EventBody(eventType, attrs)
    ensures unsupported.Some? ==> unsupported.value.OtherValue? && unsupported.value in attrs.Values
  {
    body := Seed(eventType);
    var pending := attrs.Keys;
    while pending != {}
      invariant pending <= attrs.Keys
      invariant forall k :: k in attrs.Keys - pending ==> Coerce(attrs[k]).Some?
      invariant body == Seed(eventType) + CoercedPart(attrs, attrs.Keys - pending)
      decreases pending
    {
      var k :| k in pending;
      var v := attrs[k];
      match Coerce(v)
      case None =>
        return body, Some(v);
      case Some(a) =>
        CoercedPartGrows(eventType, attrs, attrs.Keys - pending, k);
        assert attrs.Keys - (pending - {k}) == (attrs.Keys - pending) + {k};
        body := body[k := a];
      pending := pending - {k};
    }
    assert attrs.Keys - pending == attrs.Keys;
    return body, None;
  }

  class Client {
    var insertURL: string
    var queryURL: string
    var accountID: string
    var insertKey: string
    var queryKey: string

    /** The client's settings as a value. */
    function Settings(): Config
      reads this
    {
      Config(insertURL, queryURL, accountID, insertKey, queryKey)
    }

    /** NewClient: the default base URLs, then every option in order. */
    constructor (options: seq<ClientOption>)
      ensures Settings() == Configure(Defaults(), options)
    {
      insertURL := DEFAULT_INSERT_URL;
      queryURL := DEFAULT_QUERY_URL;
      accountID := "";
      insertKey := "";
      queryKey := "";
      new;
      var i := 0;
      while i < |options|
        invariant 0 <= i <= |options|
        invariant Settings() == Configure(Defaults(), options[..i])
      {
        Apply(options[i]);
        assert options[..i + 1][..i] == options[..i];
        i := i + 1;
      }
      assert options[..|options|] == options;
    }

    /** Calling an option closure on the client: it overwrites its one field. */
    method Apply(option: ClientOption)
      modifies this
      ensures Settings() == option.Update(old(Settings()))
    {
      match option
      case AccountID(id) => accountID := id;
      case InsertKey(key) => insertKey := key;
      case QueryKey(key) => queryKey := key;
    }

    /** The POST request Publish sends for a body. */
    function InsertRequest(body: map<string, Attr>): Request
      reads this
    {
      Request("POST", InsertURL(insertURL, accountID),
              [(CONTENT_TYPE_HEADER, JSON_CONTENT_TYPE), (INSERT_KEY_HEADER, insertKey)],
              Some(body))
    }

    /** The GET request Query sends for an NRQL query. */
    function QueryRequest(query: string): Request
      reads this
    {
      Request("GET", QueryURL(queryURL, accountID, query),
              [(CONTENT_TYPE_HEADER, JSON_CONTENT_TYPE), (QUERY_KEY_HEADER, queryKey)],
              None)
    }

    /**
     * Publish: coerce every attribute into a body that starts as
     * {"eventType": eventType}, stopping at the first attribute of an
     * unsupported type (the order of a Go map is unspecified, so which one is
     * named is too); refuse a body of more than 255 keys or one json.Marshal
     * cannot write; otherwise post it to the insert URL. `sent` is the
     * request handed to the HTTP client, if one was.
     */
    method Publish(eventType: string, attrs: map<string, Value>, exchange: Exchange)
      returns (err: Option<Error>, sent: Option<Request>)
      ensures !AllSupported(attrs) ==>
                && sent.None?
                && err.Some? && err.value.CannotCast?
                && OtherValue(err.value.typeName, err.value.text) in attrs.Values
      ensures AllSupported(attrs) && |EventBody(eventType, attrs)| > MAX_ATTRIBUTES ==>
                sent.None? && err == Some(TooManyAttributes)
      ensures AllSupported(attrs) && |EventBody(eventType, attrs)| <= MAX_ATTRIBUTES
              && !BodyEncodable(EventBody(eventType, attrs)) ==>
                sent.None? && err == Some(CannotMarshal)
      ensures AllSupported(attrs) && |EventBody(eventType, attrs)| <= MAX_ATTRIBUTES
              && BodyEncodable(EventBody(eventType, attrs)) ==>
                && sent == (if exchange.Unbuildable? then None
                            else Some(InsertRequest(EventBody(eventType, attrs))))
                && err == PublishOutcome(exchange)
    {
      var body, unsupported := CoerceAll(eventType, attrs);
      if unsupported.Some? {
        return Some(CannotCast(unsupported.value.typeName, unsupported.value.text)), None;
      }
      if |body| > MAX_ATTRIBUTES {
        return Some(TooManyAttributes), None;
      }
      if !BodyEncodable(body) {
        return Some(CannotMarshal), None;
      }
      sent := if exchange.Unbuildable? then None else Some(InsertRequest(body));
      err := PublishOutcome(exchange);
    }

    /**
     * Query: send the NRQL query to the query URL. On status 200 the body is
     * passed to json.Unmarshal (`passed`), and `decodes` says whether it
     * accepts it.
     */
    method Query(query: string, exchange: Exchange, decodes: bool)
      returns (err: Option<Error>, sent: Option<Request>, passed: Option<string>)
      ensures sent == if exchange.Unbuildable? then None else Some(QueryRequest(query))
      ensures passed.Some? <==> exchange.Answered? && exchange.status == STATUS_OK
      ensures passed.Some? ==> passed.value == exchange.body
      ensures err == QueryOutcome(exchange, decodes)
    {
      sent := if exchange.Unbuildable? then None else Some(QueryRequest(query));
      passed := if exchange.Answered? && exchange.status == STATUS_OK then Some(exchange.body) else None;
      err := QueryOutcome(exchange, decodes);
    }
  }
}
