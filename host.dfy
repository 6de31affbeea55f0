/** Host (JavaScript) values as the wrapper sees them through Embind `val`,
    and the total coercions the wrapper applies to them with `as<T>()`.
    Numbers are kept abstract: an integer or a real, with no IEEE rounding. */
module Host {

  /** C++ `uint8_t`. */
  newtype byte = x: int | 0 <= x < 0x100
  /** C++ `unsigned short`. */
  newtype u16 = x: int | 0 <= x < 0x1_0000
  /** C++ `unsigned` (32 bits). */
  newtype u32 = x: int | 0 <= x < 0x1_0000_0000

  datatype Option<T> = None | Some(value: T)

  /** A host value crossing the binding boundary. */
  datatype Value =
    | Null
    | Undefined
    | Int(i: int)
    | Num(x: real)
    | Str(s: string)
    | Arr(items: seq<Value>)

  /** The `settings` argument of `open`: null, undefined, or an object whose own
      properties are the map's keys. */
  datatype Settings =
    | NullSettings
    | UndefinedSettings
    | Object(fields: map<string, Value>)

  /** Conversion of a real to an integer, rounding toward zero as C++ does. */
  function Truncate(x: real): (n: int)
    ensures x >= 0.0 ==> 0 <= n && n as real <= x < n as real + 1.0
    ensures x < 0.0 ==> n as real - 1.0 < x <= n as real <= 0.0
  {
    if x >= 0.0 then x.Floor else -((-x).Floor)
  }

  /** `as<int>()`: numbers convert, everything else reads as 0. */
  function AsInt(v: Value): (r: int)
  {
    match v
    case Int(i) => i
    case Num(x) => Truncate(x)
    case _ => 0
  }

  /** `as<unsigned>()`: the integer, reduced modulo 2^32 when out of range
      (the model's choice for input Embind would convert otherwise). */
  function AsUnsigned(v: Value): (r: u32)
  {
    (AsInt(v) % 0x1_0000_0000) as u32
  }

  /** `as<uint8_t>()`: the integer, reduced modulo 2^8 when out of range
      (the model's choice for input Embind would convert otherwise). */
  function AsByte(v: Value): (r: byte)
  {
    (AsInt(v) % 0x100) as byte
  }

  /** `as<float>()` and `as<double>()`, without rounding. */
  function AsReal(v: Value): (r: real)
  {
    match v
    case Int(i) => i as real
    case Num(x) => x
    case _ => 0.0
  }

  /** `as<std::string>()`: a string converts, everything else reads as "". */
  function AsString(v: Value): (r: string)
  {
    match v
    case Str(s) => s
    case _ => ""
  }

  /** `v["length"].as<unsigned>()`: arrays and strings have a length, other values read as 0. */
  function Length(v: Value): (r: nat)
  {
    match v
    case Arr(items) => |items|
    case Str(s) => |s|
    case _ => 0
  }

  /** `v[i]`: an element of an array, a one-character string of a string, else undefined. */
  function Element(v: Value, i: nat): (r: Value)
  {
    match v
    case Arr(items) => if i < |items| then items[i] else Undefined
    case Str(s) => if i < |s| then Str([s[i]]) else Undefined
    case _ => Undefined
  }

  /** The first `n` elements of `v`, each coerced with `coerce`. */
  function Elements<T>(v: Value, n: nat, coerce: Value -> T): (r: seq<T>)
    ensures |r| == n
    ensures forall i :: 0 <= i < n ==> r[i] == coerce(Element(v, i))
  {
    seq(n, i requires 0 <= i < n => coerce(Element(v, i)))
  }

  /** A byte written into a host array and coerced back is the same byte. */
  lemma ByteRoundTrip(b: byte)
    ensures AsByte(Int(b as int)) == b
  {
  }
}
