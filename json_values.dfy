/** An abstract JSON value and the decoding primitives that Foundation's `JSONDecoder`
    offers to a hand-written or synthesized `init(from:)`: a keyed container, `decode`,
    `decodeIfPresent`, `try?`, and decoding of an array. Parsing bytes into a JSON value is
    outside the model: a response body is either a parsed value or malformed. */
module JsonValues {
  import opened Wrappers

  /** JNum holds a number with an integral value; JNonInteger stands for any number with a
      fractional part, whose exact value never matters to the decoders modelled here. */
  datatype Json =
    | JNull
    | JBool(b: bool)
    | JNum(n: int)
    | JNonInteger
    | JString(s: string)
    | JArray(items: seq<Json>)
    | JObject(fields: map<string, Json>)

  /** The bytes of a response body: either valid JSON or not. */
  datatype Body = Parsed(json: Json) | Malformed

  /** The four cases of Swift's `DecodingError`. */
  datatype ErrorKind = KeyNotFound | ValueNotFound | TypeMismatch | DataCorrupted

  /** A decoding error with the coding path (keys only) at which it was raised. */
  datatype DecodeError = DecodeError(kind: ErrorKind, path: seq<string>)

  type Container = map<string, Json>

  /** Swift's `Int` is 64 bits wide on the platforms the app targets. */
  const IntMin: int := -0x8000_0000_0000_0000
  const IntMax: int := 0x7FFF_FFFF_FFFF_FFFF

  predicate FitsInt(n: int) {
    IntMin <= n <= IntMax
  }

  /** `decoder.container(keyedBy:)`: the value must be an object. */
  function KeyedContainer(j: Json): (r: Result<Container, DecodeError>)
    ensures r.Success? <==> j.JObject?
    ensures r.Success? ==> r.value == j.fields
    ensures r.Failure? ==> r.error.path == []
  {
    match j
    case JObject(fields) => Success(fields)
    case JNull => Failure(DecodeError(ValueNotFound, []))
    case _ => Failure(DecodeError(TypeMismatch, []))
  }

  /** Decoding a single `String` value. */
  function StringValue(v: Json): (r: Result<string, DecodeError>)
    ensures r.Success? <==> v.JString?
    ensures r.Success? ==> r.value == v.s
    ensures v.JNull? ==> r == Failure(DecodeError(ValueNotFound, []))
  {
    match v
    case JString(s) => Success(s)
    case JNull => Failure(DecodeError(ValueNotFound, []))
    case _ => Failure(DecodeError(TypeMismatch, []))
  }

  /** Decoding a single `Int` value: an integral number that fits in 64 bits. */
  function IntValue(v: Json): (r: Result<int, DecodeError>)
    ensures r.Success? <==> v.JNum? && FitsInt(v.n)
    ensures r.Success? ==> r.value == v.n
    ensures v.JString? ==> r == Failure(DecodeError(TypeMismatch, []))
  {
    match v
    case JNum(n) => if FitsInt(n) then Success(n) else Failure(DecodeError(DataCorrupted, []))
    case JNonInteger => Failure(DecodeError(DataCorrupted, []))
    case JNull => Failure(DecodeError(ValueNotFound, []))
    case _ => Failure(DecodeError(TypeMismatch, []))
  }

  /** Puts `key` in front of the coding path of an error raised below it. */
  function AtKey<T>(r: Result<T, DecodeError>, key: string): (q: Result<T, DecodeError>)
    ensures q.Success? <==> r.Success?
    ensures q.Success? ==> q.value == r.value
    ensures q.Failure? ==> q.error == DecodeError(r.error.kind, [key] + r.error.path)
  {
    match r
    case Success(v) => Success(v)
    case Failure(e) => Failure(DecodeError(e.kind, [key] + e.path))
  }

  /** `container.decode(T.self, forKey: key)`: the key must be present. */
  function Decode<T>(c: Container, key: string, value: Json -> Result<T, DecodeError>): (r: Result<T, DecodeError>)
    ensures r.Success? <==> key in c && value(c[key]).Success?
    ensures r.Success? ==> r.value == value(c[key]).value
    ensures key !in c ==> r == Failure(DecodeError(KeyNotFound, [key]))
    ensures r.Failure? ==> |r.error.path| >= 1 && r.error.path[0] == key
  {
    if key !in c then Failure(DecodeError(KeyNotFound, [key])) else AtKey(value(c[key]), key)
  }

  /** `container.decodeIfPresent(T.self, forKey: key)`: a missing key or a null gives nil,
      any other value must decode. */
  function DecodeIfPresent<T>(c: Container, key: string, value: Json -> Result<T, DecodeError>): (r: Result<Option<T>, DecodeError>)
    ensures r.Success? <==> key !in c || c[key].JNull? || value(c[key]).Success?
    ensures r.Success? ==> (r.value.Some? <==> key in c && !c[key].JNull?)
    ensures r.Success? && r.value.Some? ==> r.value.value == value(c[key]).value
  {
    if key !in c || c[key].JNull? then Success(None)
    else match AtKey(value(c[key]), key)
      case Success(v) => Success(Some(v))
      case Failure(e) => Failure(e)
  }

  /** Swift's `try?`: any error becomes nil. */
  function Try<T>(r: Result<T, DecodeError>): (o: Option<T>)
    ensures o.Some? <==> r.Success?
    ensures o.Some? ==> o.value == r.value
  {
    match r
    case Success(v) => Some(v)
    case Failure(_) => None
  }

  /** Decodes every element in order; the first element that fails fails the whole array. */
  function DecodeElements<T>(items: seq<Json>, element: Json -> Result<T, DecodeError>): (r: Result<seq<T>, DecodeError>)
    ensures r.Success? <==> forall i | 0 <= i < |items| :: element(items[i]).Success?
    ensures r.Success? ==> |r.value| == |items|
    ensures r.Success? ==> forall i | 0 <= i < |items| :: r.value[i] == element(items[i]).value
    ensures r.Failure? ==> exists i | 0 <= i < |items| ::
      element(items[i]) == Failure(r.error) && forall k | 0 <= k < i :: element(items[k]).Success?
    decreases |items|
  {
    if |items| == 0 then Success([])
    else
      var head :- element(items[0]);
      var tail :- DecodeElements(items[1..], element);
      Success([head] + tail)
  }

  /** Decoding `[T]` from a value: it must be an array whose every element decodes. */
  function ArrayValue<T>(v: Json, element: Json -> Result<T, DecodeError>): (r: Result<seq<T>, DecodeError>)
    ensures r.Success? <==> v.JArray? && forall i | 0 <= i < |v.items| :: element(v.items[i]).Success?
    ensures r.Success? ==> |r.value| == |v.items|
    ensures r.Success? ==> forall i | 0 <= i < |v.items| :: r.value[i] == element(v.items[i]).value
  {
    match v
    case JArray(items) => DecodeElements(items, element)
    case JNull => Failure(DecodeError(ValueNotFound, []))
    case _ => Failure(DecodeError(TypeMismatch, []))
  }

  /** `JSONDecoder().decode([T].self, from: data)`: bytes that are not JSON are corrupted data. */
  function DecodeBody<T>(b: Body, element: Json -> Result<T, DecodeError>): (r: Result<seq<T>, DecodeError>)
    ensures r.Success? <==> b.Parsed? && ArrayValue(b.json, element).Success?
    ensures r.Success? ==> |r.value| == |b.json.items|
    ensures r.Success? ==> forall i | 0 <= i < |b.json.items| :: r.value[i] == element(b.json.items[i]).value
    ensures b.Malformed? ==> r == Failure(DecodeError(DataCorrupted, []))
  {
    match b
    case Parsed(j) => ArrayValue(j, element)
    case Malformed => Failure(DecodeError(DataCorrupted, []))
  }
}
