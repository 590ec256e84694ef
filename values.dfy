/**
 * The loosely typed values a request payload carries, the type classes the
 * validation rules dispatch on, and the payload ("form") that coercing rules
 * update in place.
 */
module Values {
  import opened Numbers

  /** A payload value. Go's `interface{}` is closed here over the kinds the
      rules tell apart: every signed integer kind, every unsigned kind but
      `uintptr`, `uintptr` itself, both float kinds, strings, slices, uploaded
      files, booleans, `nil`, and anything else (dates, structs, ...). */
  datatype Value =
    | Int(i: int)
    | Uint(u: nat)
    | Uintptr(p: nat)
    | Float(f: real)
    | Str(s: string)
    | Arr(elems: seq<Value>)
    | File
    | Bool(b: bool)
    | Nil
    | Other

  /** The classes `getFieldType` sorts values into. Bool, dates, nil and the
      rest fall into Unsupported: no rule of the core tells them apart. */
  datatype FieldType = NumericType | StringType | ArrayType | FileType | UnsupportedType

  /** A configuration error (a panic in the source) or a regular result. */
  datatype Result<T> = Ok(value: T) | ConfigError(reason: string)

  /** What applying a rule yields: its result and the form after the rule ran. */
  datatype Outcome<T> = Outcome(result: Result<T>, form: map<string, Value>)

  predicate IsNumber(v: Value) {
    v.Int? || v.Uint? || v.Float?
  }

  function GetFieldType(v: Value): (t: FieldType)
    ensures t == NumericType <==> IsNumber(v)
    ensures t == StringType <==> v.Str?
    ensures t == ArrayType <==> v.Arr?
    ensures t == FileType <==> v.File?
  {
    match v
    case Int(_) => NumericType
    case Uint(_) => NumericType
    case Float(_) => NumericType
    case Str(_) => StringType
    case Arr(_) => ArrayType
    case File => FileType
    case _ => UnsupportedType
  }

  /** The number a numeric value stands for (`helpers.ToFloat64`). */
  function ToReal(v: Value): real
    requires IsNumber(v)
  {
    match v
    case Int(i) => i as real
    case Uint(u) => u as real
    case Float(f) => f
  }

  /** The number of bytes UTF-8 encodes `c` in. */
  function Utf8Width(c: char): (n: nat)
    ensures 1 <= n <= 4
    ensures n == 1 <==> c as int < 0x80
  {
    if c as int < 0x80 then 1
    else if c as int < 0x800 then 2
    else if c as int < 0x1_0000 then 3
    else 4
  }

  /** Go's `len` on a string: the length of its UTF-8 encoding in bytes. */
  function ByteLength(s: string): (n: nat)
    ensures |s| <= n <= 4 * |s|
  {
    if s == [] then 0 else Utf8Width(s[0]) + ByteLength(s[1..])
  }

  /** A string of ASCII characters has one byte per character, and any
      other character makes the string longer in bytes than in characters. */
  lemma {:induction false} ByteLengthAscii(s: string)
    ensures ByteLength(s) == |s| <==> forall i :: 0 <= i < |s| ==> s[i] as int < 0x80
  {
    if s != [] {
      ByteLengthAscii(s[1..]);
      assert forall i :: 1 <= i < |s| ==> s[i] == s[1..][i - 1];
    }
  }

  /** `"né"` is two characters and three bytes. */
  lemma ByteLengthAccented()
    ensures |"né"| == 2 && ByteLength("né") == 3
  {
    assert "né"[1..] == "é" && "é"[1..] == "";
  }

  /** The length `len`/`reflect.Len` gives a string (in bytes) or a slice
      (in elements). */
  function Size(v: Value): nat
    requires v.Str? || v.Arr?
  {
    if v.Str? then ByteLength(v.s) else |v.elems|
  }

  /** Go's float-to-int conversion `int(x)`: truncation toward zero. */
  function Trunc(x: real): (t: int)
    ensures x >= 0.0 ==> 0 <= t && t as real <= x < t as real + 1.0
    ensures x < 0.0 ==> t <= 0 && t as real - 1.0 < x <= t as real
  {
    if x >= 0.0 then x.Floor else -((-x).Floor)
  }

  /** Go's conversion `int(x)` of a float on amd64: truncation toward zero
      when the result fits in 64 bits, and otherwise MinInt64, the value the
      conversion instruction yields for every out-of-range operand (the Go
      language leaves that case to the implementation). */
  function GoInt(x: real): (t: int)
    ensures MinInt64 <= t <= MaxInt64
    ensures MinInt64 <= Trunc(x) <= MaxInt64 ==> t == Trunc(x)
    ensures (Trunc(x) < MinInt64 || MaxInt64 < Trunc(x)) ==> t == MinInt64
  {
    var t := Trunc(x);
    if MinInt64 <= t <= MaxInt64 then t else MinInt64
  }

  /** Truncation leaves a number unchanged exactly when it is whole. */
  lemma TruncOfWhole(x: real)
    ensures (x == Trunc(x) as real) <==> (x == x.Floor as real)
    ensures x == x.Floor as real ==> Trunc(x) == x.Floor
  {
    var n := x.Floor;
    if x == n as real && x < 0.0 {
      assert -x == (-n) as real;
      assert (-x).Floor == -n;
    }
    if x == Trunc(x) as real {
      assert x.Floor == Trunc(x);
    }
  }

  /** `after` keeps every key of `before` and differs from it at most in `field`. */
  predicate OnlyTouches(before: map<string, Value>, after: map<string, Value>, field: string) {
    && (forall k :: k in before ==> k in after)
    && (forall k :: k in after && k != field ==> k in before && after[k] == before[k])
  }

  /** The payload: a map from field name to value that rules may update. */
  class Form {
    var data: map<string, Value>

    constructor (data: map<string, Value>)
      ensures this.data == data
    {
      this.data := data;
    }
  }
}
