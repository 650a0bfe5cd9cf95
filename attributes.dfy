/**
 * The attribute coercion of Publish: which Go values an event may carry,
 * what each becomes in the event body, and the attribute limit.
 */
module Attributes {
  import opened Wrappers
  import opened Durations

  /**
   * A value in the caller's `map[string]interface{}`, by its dynamic Go type.
   * Floats are carried as their IEEE-754 bit patterns: Publish never does
   * arithmetic on them. A time.Time is carried as its Unix time in seconds.
   * IntValue is Go's `int` alone (64 bits wide here): int8 to int64, the
   * unsigned types and every other Go type are OtherValue, with their `%T`
   * name and `%v` text, and Publish refuses them.
   */
  datatype Value =
    | IntValue(i: int64)
    | BoolValue(b: bool)
    | StringValue(s: string)
    | Float32Value(bits32: bv32)
    | Float64Value(bits64: bv64)
    | TimeValue(unixSeconds: int64)
    | DurationValue(nanoseconds: int64)
    | OtherValue(typeName: string, text: string)

  /**
   * A value in the event body: either the caller's value itself (an int,
   * bool, string, float32 or float64) or the int64 a time or a duration was
   * converted to.
   */
  datatype Attr = Copied(v: Value) | Converted(n: int64)

  const EVENT_TYPE_KEY: string := "eventType"

  /** An event body may hold at most this many keys, eventType included. */
  const MAX_ATTRIBUTES: nat := 255

  /** The type switch of Publish for one value; None is the default case. */
  function Coerce(v: Value): (a: Option<Attr>)
    ensures a.None? <==> v.OtherValue?
    ensures v.IntValue? || v.BoolValue? || v.StringValue? || v.Float32Value? || v.Float64Value?
            ==> a == Some(Copied(v))
    ensures v.TimeValue? ==> a == Some(Converted(v.unixSeconds))
    ensures v.DurationValue? ==> a == Some(Converted(DurationMillis(v.nanoseconds)))
  {
    match v
    case IntValue(_) => Some(Copied(v))
    case BoolValue(_) => Some(Copied(v))
    case StringValue(_) => Some(Copied(v))
    case Float32Value(_) => Some(Copied(v))
    case Float64Value(_) => Some(Copied(v))
    case TimeValue(t) => Some(Converted(t))
    case DurationValue(d) => Some(Converted(DurationMillis(d)))
    case OtherValue(_, _) => None
  }

  /** Every attribute has a supported type. */
  predicate AllSupported(attrs: map<string, Value>)
  {
    forall k :: k in attrs ==> Coerce(attrs[k]).Some?
  }

  /** The body Publish starts from: the event type alone. */
  function Seed(eventType: string): map<string, Attr>
  {
    map[EVENT_TYPE_KEY := Copied(StringValue(eventType))]
  }

  /** The coerced values of the attributes named in `keys`. */
  function CoercedPart(attrs: map<string, Value>, keys: set<string>): (part: map<string, Attr>)
    requires keys <= attrs.Keys
    requires forall k :: k in keys ==> Coerce(attrs[k]).Some?
    ensures part.Keys == keys
  {
    map k | k in keys :: Coerce(attrs[k]).value
  }

  /**
   * The body Publish sends when every attribute is supported: the seed, with
   * every attribute added under its own name (an "eventType" attribute
   * replaces the seed's).
   */
  function EventBody(eventType: string, attrs: map<string, Value>): (body: map<string, Attr>)
    requires AllSupported(attrs)
    ensures body.Keys == attrs.Keys + {EVENT_TYPE_KEY}
    ensures forall k :: k in attrs ==> Coerce(attrs[k]) == Some(body[k])
    ensures EVENT_TYPE_KEY !in attrs ==> body[EVENT_TYPE_KEY] == Copied(StringValue(eventType))
  {
    Seed(eventType) + CoercedPart(attrs, attrs.Keys)
  }

  /**
   * The number of keys of the body is one more than the number of
   * attributes other than eventType.
   */
  lemma EventBodySize(eventType: string, attrs: map<string, Value>)
    requires AllSupported(attrs)
    ensures |EventBody(eventType, attrs)| == |attrs.Keys - {EVENT_TYPE_KEY}| + 1
  {
    var others := attrs.Keys - {EVENT_TYPE_KEY};
    var keys := EventBody(eventType, attrs).Keys;
    assert keys == others + {EVENT_TYPE_KEY};
    assert |others + {EVENT_TYPE_KEY}| == |others| + |{EVENT_TYPE_KEY}|;
  }

  /** The body fits the limit exactly when at most 254 other attributes are given. */
  lemma EventBodyFits(eventType: string, attrs: map<string, Value>)
    requires AllSupported(attrs)
    ensures |EventBody(eventType, attrs)| <= MAX_ATTRIBUTES <==> |attrs.Keys - {EVENT_TYPE_KEY}| <= 254
  {
    EventBodySize(eventType, attrs);
  }

  /** A float bit pattern that is neither NaN nor an infinity. */
  predicate Finite32(bits: bv32)
  {
    (bits >> 23) & 0xFF != 0xFF
  }

  predicate Finite64(bits: bv64)
  {
    (bits >> 52) & 0x7FF != 0x7FF
  }

  /** A value that is not a NaN or infinite float. */
  predicate FiniteValue(v: Value)
  {
    match v
    case Float32Value(bits) => Finite32(bits)
    case Float64Value(bits) => Finite64(bits)
    case _ => true
  }

  /** json.Marshal can write the value: it refuses NaN and the infinities. */
  predicate Encodable(a: Attr)
  {
    match a
    case Copied(v) => FiniteValue(v)
    case Converted(_) => true
  }

  predicate BodyEncodable(body: map<string, Attr>)
  {
    forall k :: k in body ==> Encodable(body[k])
  }

  /** The body of the package's Publish test, for any seven distinct keys. */
  lemma EventBodyExampleKeys(eventType: string, kb: string, kd: string, kf: string, ki: string,
                          ks: string, kt: string, attrs: map<string, Value>)
    requires |{kb, kd, kf, ki, ks, kt, EVENT_TYPE_KEY}| == 7
    requires attrs == map[kb := BoolValue(true), kd := DurationValue(3123456),
                          kf := Float64Value(0x4009_9999_9999_999A), ki := IntValue(3),
                          ks := StringValue("foo"), kt := TimeValue(1136239445)]
    ensures AllSupported(attrs)
    ensures EventBody(eventType, attrs)
            == map[kb := Copied(BoolValue(true)), kd := Converted(3),
                   EVENT_TYPE_KEY := Copied(StringValue(eventType)),
                   kf := Copied(Float64Value(0x4009_9999_9999_999A)), ki := Copied(IntValue(3)),
                   ks := Copied(StringValue("foo")), kt := Converted(1136239445)]
  {
    DurationMillisExamples();
  }

  /** That body fits the limit and json.Marshal can write it, whatever the keys. */
  lemma EventBodyExampleFits(eventType: string, kb: string, kd: string, kf: string, ki: string,
                              ks: string, kt: string, attrs: map<string, Value>)
    requires attrs == map[kb := BoolValue(true), kd := DurationValue(3123456),
                          kf := Float64Value(0x4009_9999_9999_999A), ki := IntValue(3),
                          ks := StringValue("foo"), kt := TimeValue(1136239445)]
    ensures AllSupported(attrs)
    ensures |EventBody(eventType, attrs)| <= MAX_ATTRIBUTES
    ensures BodyEncodable(EventBody(eventType, attrs))
  {
    var m := map[kb := BoolValue(true)];
    assert |m| == 1;
    m := m[kd := DurationValue(3123456)];
    assert |m| <= 2;
    m := m[kf := Float64Value(0x4009_9999_9999_999A)];
    assert |m| <= 3;
    m := m[ki := IntValue(3)];
    assert |m| <= 4;
    m := m[ks := StringValue("foo")];
    assert |m| <= 5;
    m := m[kt := TimeValue(1136239445)];
    assert |m| <= 6;
    assert m == attrs;
    EventBodySize(eventType, attrs);
    assert |attrs.Keys - {EVENT_TYPE_KEY}| <= |attrs.Keys|;
    assert Finite64(0x4009_9999_9999_999A);
    BodyEncodableIff(eventType, attrs);
  }

  /**
   * The Publish test: the float 3.2 (bits 0x400999999999999A) is copied, the
   * duration 3123456ns becomes 3 and the time of Mon, 02 Jan 2006 15:04:05
   * -0700 its Unix seconds 1136239445; the body fits and can be written.
   */
  lemma EventBodyExample(eventType: string, attrs: map<string, Value>)
    requires eventType == "hello"
    requires attrs == map["bool" := BoolValue(true), "duration" := DurationValue(3123456),
                          "float" := Float64Value(0x4009_9999_9999_999A), "int" := IntValue(3),
                          "string" := StringValue("foo"), "time" := TimeValue(1136239445)]
    ensures AllSupported(attrs)
    ensures EventBody(eventType, attrs)
            == map["bool" := Copied(BoolValue(true)), "duration" := Converted(3),
                   "eventType" := Copied(StringValue("hello")),
                   "float" := Copied(Float64Value(0x4009_9999_9999_999A)), "int" := Copied(IntValue(3)),
                   "string" := Copied(StringValue("foo")), "time" := Converted(1136239445)]
    ensures |EventBody(eventType, attrs)| <= MAX_ATTRIBUTES
    ensures BodyEncodable(EventBody(eventType, attrs))
  {
    var keys := {"bool", "duration", "float", "int", "string", "time", EVENT_TYPE_KEY};
    assert |keys| == 7;
    EventBodyExampleKeys(eventType, "bool", "duration", "float", "int", "string", "time", attrs);
    EventBodyExampleFits(eventType, "bool", "duration", "float", "int", "string", "time", attrs);
  }

  /**
   * json.Marshal refuses the body exactly when some attribute is a NaN or
   * infinite float: the event type and the converted integers always encode.
   */
  lemma BodyEncodableIff(eventType: string, attrs: map<string, Value>)
    requires AllSupported(attrs)
    ensures BodyEncodable(EventBody(eventType, attrs)) <==> forall k :: k in attrs ==> FiniteValue(attrs[k])
  {
    var body := EventBody(eventType, attrs);
    if forall k :: k in attrs ==> FiniteValue(attrs[k]) {
      forall k | k in body
        ensures Encodable(body[k])
      {
        if k in attrs {
          assert FiniteValue(attrs[k]);
        }
      }
    } else {
      var k :| k in attrs && !FiniteValue(attrs[k]);
      assert !Encodable(body[k]);
    }
  }
}
