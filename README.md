# Insights API client: a Dafny model

This project models the client of the New Relic Insights API in
`insights/client.go` and proves properties of it:

- `NewClient` installs the default insert and query base URLs. It then applies
  the `AccountID`, `InsertKey` and `QueryKey` options in order. Each option
  overwrites one field of the client.
- `Publish` coerces an attribute map into an event body. The body starts as
  `{"eventType": eventType}`, and:
  - ints, bools, strings, float32s and float64s are copied;
  - a `time.Time` becomes its Unix seconds;
  - a `time.Duration` becomes its whole milliseconds, after rounding to the
    nearest millisecond;
  - any other value stops the call with a cast error.

  After coercion, `Publish` refuses a body of more than 255 keys and a body
  `json.Marshal` cannot write. Otherwise it posts the body to
  `<insert base>/v1/accounts/<account>/events`. Any status other than 200 is
  an error.
- `Query` sends `GET <query base>/v1/accounts/<account>/query?nrql=<escaped query>`.
  On status 200 it hands the body to `json.Unmarshal`.

Modules:

- `Wrappers`: `Option`.
- `Durations`: Go's `int64`, truncating `/` and `%` by a millisecond,
  `Duration.Round(time.Millisecond)` and the milliseconds Publish stores.
- `Attributes`: attribute values, the type switch, the event body and the
  255-key limit.
- `FormEncoding`: UTF-8 and `url.QueryEscape`, with `QueryUnescape` and a UTF-8
  decoder as its inverses.
- `Endpoints`: the insert URL and the query URL, with parsers that read the
  account and the query back.
- `Insights`: the option fold, the coercion loop, and the `Client` class with
  its constructor, `Publish` and `Query`.

The HTTP exchange is a parameter of type `Insights.Exchange`. It says what
the transport did with the request:
- the request could not be built;
- it could not be sent;
- its body could not be read;
- it was answered with a status and a body.

Whether `json.Unmarshal` accepts a query answer is a boolean parameter.

The form encoding follows the code, not the WHATWG form serializer.
`url.Values.Encode` escapes `*` as `%2A`, which the WHATWG
application/x-www-form-urlencoded serializer leaves alone. The package's own
test expects `nrql=SELECT+%2A+FROM+1`, and `Endpoints.QueryURLExample`
proves that URL.

## Model

| member | source | states |
|---|---|---|
| Durations.RemMillisecond | insights/client.go:123 | Go's `%` by 10^6 truncates: the remainder has the dividend's sign, is smaller than 10^6 in magnitude, and differs from the dividend by a multiple of 10^6 |
| Durations.QuoMillisecond | insights/client.go:123 | Go's `/` by 10^6 truncates toward zero: quotient times 10^6 plus the truncated remainder gives back the dividend |
| Durations.DurationMillisIsNearest | insights/client.go:122-123 | for every duration below the saturation bound, the stored integer is the nearest whole number of milliseconds, with halves rounded away from zero |
| Durations.DurationMillisSaturatesAbove | insights/client.go:123 | from 9223372036854.5 ms upward, Round saturates and the stored value is 9223372036854, one below the nearest millisecond count |
| Durations.DurationMillisSaturatesBelow | insights/client.go:123 | the mirror image for negative durations: -9223372036854 is stored |
| Durations.DurationMillisExamples | insights/client_test.go:77 | 3123456 ns is stored as 3; 2.5 ms as 3, -2.5 ms as -3, -2499999 ns as -2 |
| Attributes.Coerce | insights/client.go:117-126 | the type switch: it fails exactly for unsupported types; int/bool/string/float32/float64 are copied unchanged, a time becomes its Unix seconds, a duration its rounded milliseconds |
| Attributes.EventBody | insights/client.go:115-127 | when every attribute is supported, the body's keys are the attribute keys plus "eventType"; every attribute maps to its coerced value; "eventType" holds the event type unless an attribute of that name overrides it |
| Attributes.EventBodySize | insights/client.go:115-128 | the body has one key more than there are attributes other than "eventType" |
| Attributes.EventBodyFits | insights/client.go:128-130 | the body is within the 255-key limit exactly when at most 254 attributes other than "eventType" are given (so 254 pass and 256 fail) |
| Attributes.BodyEncodableIff | insights/client.go:131-134 | json.Marshal refuses the body exactly when some attribute is a NaN or infinite float |
| Attributes.EventBodyExample | insights/client_test.go:75-82 | the body of the package's Publish example: bool, int, string and float copied, duration 3123456 stored as 3, time stored as 1136239445; it fits the limit and can be written |
| FormEncoding.Utf8RoundTrip | insights/client.go:110 | the UTF-8 bytes the escaping works on decode back to the string |
| FormEncoding.EscapeBytesRoundTrip | insights/client.go:110 | url.QueryUnescape undoes the escaping of any byte string |
| FormEncoding.EscapeBytesAlphabet | insights/client.go:110 | escaped text consists only of ASCII letters, digits, `-_.~`, `+` and `%` |
| FormEncoding.QueryEscapeUnreserved | insights/client.go:110 | text made only of unreserved ASCII characters is left unchanged by the escaping |
| FormEncoding.QueryEscapeAppend | insights/client.go:110 | escaping works piece by piece: the escape of a concatenation is the concatenation of the escapes |
| FormEncoding.QueryEscapeRoundTrip | insights/client.go:110 | unescaping the escaped query gives back its UTF-8 bytes, hence the query; the escaped text holds no '?' |
| Endpoints.InsertURLRoundTrip | insights/client.go:136-137 | the insert URL determines the account: parsing it under the same base gives the account back |
| Endpoints.InsertURLExample | insights/client_test.go:39 | account "1" posts to https://insights-collector.newrelic.com/v1/accounts/1/events |
| Endpoints.NrqlKeyEscape | insights/client.go:108-110 | the form key "nrql" is written unescaped |
| Endpoints.QueryURLRoundTrip | insights/client.go:106-111 | the query URL determines both the account and the query: parsing it under the same base gives both back |
| Endpoints.QueryEscapeExample | insights/client_test.go:179 | "SELECT * FROM 1" escapes to "SELECT+%2A+FROM+1" |
| Endpoints.EncodeQueryExample | insights/client.go:107-110 | the form encoding of that query is "nrql=SELECT+%2A+FROM+1" |
| Endpoints.QueryURLExample | insights/client_test.go:179 | account "1" and that query give https://insights-api.newrelic.com/v1/accounts/1/query?nrql=SELECT+%2A+FROM+1 |
| Insights.Defaults | insights/client.go:44-47 | NewClient starts from the default insert and query URLs; account and keys are Go's empty strings |
| Insights.ClientOption.Update | insights/client.go:56-74 | an option sets its own field to its value, and every other field stays as it was |
| Insights.UnsetFieldKeeps | insights/client.go:49-51 | a field that no option targets keeps its initial value |
| Insights.LastOptionWins | insights/client.go:49-51 | applied in order, the last option for a field decides that field |
| Insights.BaseURLsFixed | insights/client.go:44-51 | no option changes the base URLs: after NewClient they are the defaults |
| Insights.ConfigureExample | insights/client_test.go:26-33 | the package's example client has account "1", insert key "insert-abc", query key "query-abc" and the default URLs |
| Insights.PublishOutcome | insights/client.go:139-160 | once the request is built, Publish succeeds exactly on status 200; any other status gives an error carrying status and body; transport failures give their own errors |
| Insights.QueryOutcome | insights/client.go:79-103 | Query succeeds exactly on status 200 with a body json.Unmarshal accepts; any other status gives an error carrying status and body, a refused body an unmarshal error |
| Insights.CoerceAll | insights/client.go:115-127 | the coercion loop: it reports an unsupported value exactly when some attribute is unsupported, and that value is one of the attributes; otherwise it builds exactly EventBody |
| Insights.Client.constructor | insights/client.go:38-53 | the new client's settings are the defaults with every option applied in order |
| Insights.Client.Apply | insights/client.go:56-74 | calling an option on the client updates its settings as the option's Update does |
| Insights.Client.Publish | insights/client.go:114-163 | an unsupported attribute gives a cast error naming one of the attributes, whatever the size, and nothing is sent; otherwise more than 255 keys gives "too many attributes", then a body json.Marshal refuses gives a marshal error; otherwise the POST of EventBody with the JSON content type and the insert key goes to the insert URL, and the outcome is decided by status 200 |
| Insights.Client.Query | insights/client.go:76-111 | the GET to the query URL carries the JSON content type and the query key; the body is passed on exactly on status 200; the error is decided by status 200 and by whether the body decodes |

## Left out

- Network I/O: `http.Client.Do`, reading and closing the response body. The
  transport's behaviour is the `Exchange` parameter. The default `http.Client`
  with its 10-second timeout, installed when no transport is given, is not
  modelled.
- `http.NewRequest`: it fails only when the URL does not parse. Whether it
  fails is part of the `Exchange` parameter (`Unbuildable`) instead of being
  derived from `url.Parse`.
- The base URLs are kept as strings. The model assumes `url.Parse` followed by
  `String()` gives each default back unchanged.
- JSON: `json.Marshal` is modelled only by when it fails (NaN or infinite
  floats). The bytes it writes, including its sorted key order, are not
  modelled. `json.Unmarshal` is a boolean parameter.
- Floats are carried as IEEE-754 bit patterns. No float arithmetic happens.
- `time.Time.Unix()`: a time value already carries its Unix seconds. Calendar
  arithmetic and `time.Parse` are not modelled.
- Insights.Client.Publish: because Go's map iteration order is unspecified,
  it claims only that the cast error names some unsupported attribute, not
  which one.
- Insights.CoerceAll: for the same reason, it reports some unsupported value.
- Error text: the model returns which error occurred and the data it carries.
  It does not render the `fmt`/`errors` message strings (for example
  "too many attributes" or "could not cast %v of type %T to valid
  attributes"). An unsupported value's `%v` text and `%T` name are carried as
  given strings.
- Go strings that are not valid UTF-8 cannot be represented: strings are
  sequences of Unicode scalar values, and the escaping works on their UTF-8
  bytes.
- `Durations.RoundToMillisecond`: the branch of `Duration.Round` for a
  non-positive unit is not modelled. Publish always rounds to one millisecond.
- The example programs under insights/example and the top-level main.go are
  not part of this model.
