/**
 * The built-in validation rules. Each takes the field name, the value under
 * test, the rule's parameters and the whole form; the coercing ones
 * (`numeric`, `integer`, `array` with an element type) write the converted
 * value back into the form under the field's name.
 */
module RuleLib {
  import opened Values
  import opened Numbers

  // ---------------------------------------------------------------------
  // required

  /** `required` looks the field up in the form (not at the value passed). */
  function Required(field: string, form: map<string, Value>): (r: bool)
    ensures field !in form ==> !r
    ensures field in form && form[field] == Nil ==> !r
    ensures field in form && form[field] == Str("") ==> !r
    ensures field in form && form[field] != Nil && form[field] != Str("") ==> r
  {
    field in form && form[field] != Nil && form[field] != Str("")
  }

  // ---------------------------------------------------------------------
  // min, max, between

  /** The `i`-th parameter read as a float; indexing past the end or a
      parameter that does not parse is a panic in the source. */
  function NumberParam(params: seq<string>, i: nat): (r: Result<real>)
    ensures r.Ok? <==> i < |params| && ParseFloat(params[i]).Some?
    ensures r.Ok? ==> r.value == ParseFloat(params[i]).value
  {
    if i >= |params| then ConfigError("index out of range")
    else match ParseFloat(params[i])
      case None => ConfigError("parameter is not a number")
      case Some(x) => Ok(x)
  }

  /** `min`: a number is at least the bound, a string's length in bytes or
      an array's element count is at least the bound converted to an `int`,
      a file fails, and every other value passes. */
  function Min(value: Value, params: seq<string>): (r: Result<bool>)
    ensures r.ConfigError? <==> NumberParam(params, 0).ConfigError?
    ensures r.Ok? && IsNumber(value) ==> r.value == (ToReal(value) >= NumberParam(params, 0).value)
    ensures r.Ok? && (value.Str? || value.Arr?) ==> r.value == (Size(value) >= GoInt(NumberParam(params, 0).value))
    ensures r.Ok? && value.File? ==> !r.value
    ensures r.Ok? && GetFieldType(value) == UnsupportedType ==> r.value
  {
    match NumberParam(params, 0)
    case ConfigError(e) => ConfigError(e)
    case Ok(min) =>
      match GetFieldType(value)
      case NumericType => Ok(ToReal(value) >= min)
      case StringType => Ok(ByteLength(value.s) >= GoInt(min))
      case ArrayType => Ok(|value.elems| >= GoInt(min))
      case FileType => Ok(false)
      case UnsupportedType => Ok(true)
  }

  /** `max`: the mirror image of `min`. */
  function Max(value: Value, params: seq<string>): (r: Result<bool>)
    ensures r.ConfigError? <==> NumberParam(params, 0).ConfigError?
    ensures r.Ok? && IsNumber(value) ==> r.value == (ToReal(value) <= NumberParam(params, 0).value)
    ensures r.Ok? && (value.Str? || value.Arr?) ==> r.value == (Size(value) <= GoInt(NumberParam(params, 0).value))
    ensures r.Ok? && value.File? ==> !r.value
    ensures r.Ok? && GetFieldType(value) == UnsupportedType ==> r.value
  {
    match NumberParam(params, 0)
    case ConfigError(e) => ConfigError(e)
    case Ok(max) =>
      match GetFieldType(value)
      case NumericType => Ok(ToReal(value) <= max)
      case StringType => Ok(ByteLength(value.s) <= GoInt(max))
      case ArrayType => Ok(|value.elems| <= GoInt(max))
      case FileType => Ok(false)
      case UnsupportedType => Ok(true)
  }

  /** `between`: both bounds are parsed before either is checked. */
  function Between(value: Value, params: seq<string>): (r: Result<bool>)
    ensures r.ConfigError? <==> NumberParam(params, 0).ConfigError? || NumberParam(params, 1).ConfigError?
  {
    var lo := NumberParam(params, 0);
    var hi := NumberParam(params, 1);
    if lo.ConfigError? then ConfigError(lo.reason)
    else if hi.ConfigError? then ConfigError(hi.reason)
    else
      match GetFieldType(value)
      case NumericType => Ok(ToReal(value) >= lo.value && ToReal(value) <= hi.value)
      case StringType => Ok(ByteLength(value.s) >= GoInt(lo.value) && ByteLength(value.s) <= GoInt(hi.value))
      case ArrayType => Ok(|value.elems| >= GoInt(lo.value) && |value.elems| <= GoInt(hi.value))
      case FileType => Ok(false)
      case UnsupportedType => Ok(true)
  }

  /** `between:a,b` is `min:a` and `max:b` taken together, on every value. */
  lemma BetweenIsMinAndMax(value: Value, a: string, b: string, rest: seq<string>)
    ensures Between(value, [a, b] + rest).ConfigError? <==> Min(value, [a]).ConfigError? || Max(value, [b]).ConfigError?
    ensures Between(value, [a, b] + rest).Ok? ==>
      Between(value, [a, b] + rest).value == (Min(value, [a]).value && Max(value, [b]).value)
  {
    var p := [a, b] + rest;
    assert p[0] == a && p[1] == b;
    assert NumberParam(p, 0) == NumberParam([a], 0);
    assert NumberParam(p, 1) == NumberParam([b], 0);
  }

  // ---------------------------------------------------------------------
  // greater_than, greater_than_equal, lower_than, lower_than_equal

  datatype Comparison = Greater | GreaterOrEqual | Lower | LowerOrEqual

  function Compare(op: Comparison, x: real, y: real): bool {
    match op
    case Greater => x > y
    case GreaterOrEqual => x >= y
    case Lower => x < y
    case LowerOrEqual => x <= y
  }

  /** True when `value` and `compared` are of one class the comparators measure. */
  predicate Comparable(value: Value, compared: Value) {
    GetFieldType(value) == GetFieldType(compared) && (IsNumber(value) || value.Str? || value.Arr?)
  }

  /** The magnitude a comparator looks at: the number itself or the length. */
  function Magnitude(v: Value): real
    requires IsNumber(v) || v.Str? || v.Arr?
  {
    if IsNumber(v) then ToReal(v) else Size(v) as real
  }

  /** The cross-field comparators: compare the value with the field the first
      parameter names. A missing field, a different type class, a file or an
      unsupported type fails. */
  function CrossCompare(op: Comparison, value: Value, params: seq<string>, form: map<string, Value>): (r: Result<bool>)
    ensures r.ConfigError? <==> params == []
    ensures params != [] && params[0] !in form ==> r == Ok(false)
    ensures params != [] && params[0] in form && !Comparable(value, form[params[0]]) ==> r == Ok(false)
    ensures params != [] && params[0] in form && Comparable(value, form[params[0]]) ==>
      r == Ok(Compare(op, Magnitude(value), Magnitude(form[params[0]])))
  {
    if params == [] then ConfigError("index out of range")
    else if params[0] !in form then Ok(false)
    else
      var compared := form[params[0]];
      if GetFieldType(value) != GetFieldType(compared) then Ok(false)
      else
        match GetFieldType(value)
        case NumericType => Ok(Compare(op, ToReal(value), ToReal(compared)))
        case StringType => Ok(Compare(op, ByteLength(value.s) as real, ByteLength(compared.s) as real))
        case ArrayType => Ok(Compare(op, |value.elems| as real, |compared.elems| as real))
        case FileType => Ok(false)
        case UnsupportedType => Ok(false)
  }

  /** On comparable values, `greater_than` and `lower_than_equal` always
      disagree, and so do `greater_than_equal` and `lower_than`. */
  lemma ComparatorsComplement(value: Value, params: seq<string>, form: map<string, Value>)
    requires params != [] && params[0] in form && Comparable(value, form[params[0]])
    ensures CrossCompare(Greater, value, params, form).Ok?
    ensures CrossCompare(Greater, value, params, form).value == !CrossCompare(LowerOrEqual, value, params, form).value
    ensures CrossCompare(GreaterOrEqual, value, params, form).value == !CrossCompare(Lower, value, params, form).value
  {
  }

  /** Where the comparison cannot be made, every comparator fails alike, so
      they are not complementary there. */
  lemma ComparatorsFailTogether(op: Comparison, value: Value, params: seq<string>, form: map<string, Value>)
    requires params != []
    requires params[0] !in form || !Comparable(value, form[params[0]])
    ensures CrossCompare(op, value, params, form) == Ok(false)
    ensures CrossCompare(Greater, value, params, form) == CrossCompare(LowerOrEqual, value, params, form)
  {
  }

  // ---------------------------------------------------------------------
  // numeric, integer

  /** `numeric`: every int, uint and float kind passes untouched (`uintptr`
      does not); a string passes iff it parses, and is then replaced in the
      form by the number. */
  function Numeric(field: string, value: Value, form: map<string, Value>): (o: Outcome<bool>)
    ensures o.result.Ok?
    ensures o.result.value <==> IsNumber(value) || (value.Str? && ParseFloat(value.s).Some?)
    ensures !o.result.value || IsNumber(value) ==> o.form == form
    ensures o.result.value && value.Str? ==> o.form == form[field := Float(ParseFloat(value.s).value)]
    ensures OnlyTouches(form, o.form, field)
  {
    match value
    case Int(_) => Outcome(Ok(true), form)
    case Uint(_) => Outcome(Ok(true), form)
    case Float(_) => Outcome(Ok(true), form)
    case Str(s) =>
      (match ParseFloat(s)
       case Some(x) => Outcome(Ok(true), form[field := Float(x)])
       case None => Outcome(Ok(false), form))
    case _ => Outcome(Ok(false), form)
  }

  /** `integer` as the source has it: a float `x` fails when
      `x - int(x) > 0`, where `int` truncates toward zero, so a negative
      fraction such as -1.5 passes and is stored as -1; below the 64-bit
      range `int(x)` is MinInt64, so such a float passes and is stored as
      MinInt64. */
  function IntegerAsWritten(field: string, value: Value, form: map<string, Value>): (o: Outcome<bool>)
    ensures o.result.Ok?
    ensures (value.Int? || value.Uint?) ==> o == Outcome(Ok(true), form)
    ensures value.Float? ==> (o.result.value <==> value.f - GoInt(value.f) as real <= 0.0)
    ensures value.Float? && o.result.value ==> o.form == form[field := Int(GoInt(value.f))]
    ensures value.Str? ==> (o.result.value <==> ParseInt(value.s).Some?)
    ensures value.Str? && o.result.value ==> o.form == form[field := Int(ParseInt(value.s).value)]
    ensures !(IsNumber(value) || value.Str?) ==> o == Outcome(Ok(false), form)
    ensures !o.result.value ==> o.form == form
    ensures OnlyTouches(form, o.form, field)
  {
    match value
    case Int(_) => Outcome(Ok(true), form)
    case Uint(_) => Outcome(Ok(true), form)
    case Float(x) =>
      if x - GoInt(x) as real > 0.0 then Outcome(Ok(false), form)
      else Outcome(Ok(true), form[field := Int(GoInt(x))])
    case Str(s) =>
      (match ParseInt(s)
       case Some(n) => Outcome(Ok(true), form[field := Int(n)])
       case None => Outcome(Ok(false), form))
    case _ => Outcome(Ok(false), form)
  }

  /** A float that is a whole number within the 64-bit range of Go's `int`. */
  predicate WholeInt64(x: real) {
    x == x.Floor as real && MinInt64 <= x.Floor <= MaxInt64
  }

  /** `integer` as intended: every int and uint kind passes untouched; a
      float passes only when it is a whole number an `int` holds, and is
      then stored as that integer; a string passes iff `Atoi` accepts it,
      and is then stored as the integer; nothing else passes. */
  function Integer(field: string, value: Value, form: map<string, Value>): (o: Outcome<bool>)
    ensures o.result.Ok?
    ensures (value.Int? || value.Uint?) ==> o == Outcome(Ok(true), form)
    ensures value.Str? ==> (o.result.value <==> ParseInt(value.s).Some?)
    ensures value.Str? && o.result.value ==> o.form == form[field := Int(ParseInt(value.s).value)]
    ensures !(IsNumber(value) || value.Str?) ==> o == Outcome(Ok(false), form)
    ensures !o.result.value ==> o.form == form
    ensures OnlyTouches(form, o.form, field)
  {
    match value
    case Int(_) => Outcome(Ok(true), form)
    case Uint(_) => Outcome(Ok(true), form)
    case Float(x) =>
      if x != Trunc(x) as real || !(MinInt64 <= Trunc(x) <= MaxInt64) then Outcome(Ok(false), form)
      else Outcome(Ok(true), form[field := Int(Trunc(x))])
    case Str(s) =>
      (match ParseInt(s)
       case Some(n) => Outcome(Ok(true), form[field := Int(n)])
       case None => Outcome(Ok(false), form))
    case _ => Outcome(Ok(false), form)
  }

  /** Corrected `integer` on a float: it passes iff the float is a whole
      number in the 64-bit range, and what it stores is that same number. */
  lemma IntegerOnFloat(field: string, x: real, form: map<string, Value>)
    ensures Integer(field, Float(x), form).result == Ok(WholeInt64(x))
    ensures WholeInt64(x) ==> Integer(field, Float(x), form).form == form[field := Int(x.Floor)]
  {
    TruncOfWhole(x);
  }

  /** The discrepancy: -1.5 passes `integer` as written and becomes -1. */
  lemma IntegerAsWrittenAcceptsNegativeFraction()
    ensures IntegerAsWritten("n", Float(-1.5), map["n" := Float(-1.5)]) == Outcome(Ok(true), map["n" := Int(-1)])
    ensures Integer("n", Float(-1.5), map["n" := Float(-1.5)]) == Outcome(Ok(false), map["n" := Float(-1.5)])
  {
    assert Trunc(-1.5) == -1;
  }

  /** The discrepancy below the 64-bit range: -10^19 passes `integer` as
      written and is stored as MinInt64. */
  lemma IntegerAsWrittenAcceptsHugeNegative()
    ensures IntegerAsWritten("n", Float(-1e19), map["n" := Float(-1e19)]) == Outcome(Ok(true), map["n" := Int(MinInt64)])
    ensures Integer("n", Float(-1e19), map["n" := Float(-1e19)]) == Outcome(Ok(false), map["n" := Float(-1e19)])
  {
    assert Trunc(-1e19) == -10_000_000_000_000_000_000;
  }

  /** The two versions differ exactly on the negative floats the corrected
      rule rejects: those with a fractional part and those below the 64-bit
      range. There the source passes and the corrected rule fails. */
  lemma IntegerAsWrittenAgreesElsewhere(field: string, value: Value, form: map<string, Value>)
    ensures (IntegerAsWritten(field, value, form) == Integer(field, value, form)) <==>
      !(value.Float? && value.f < 0.0 && !WholeInt64(value.f))
    ensures value.Float? && value.f < 0.0 && !WholeInt64(value.f) ==>
      IntegerAsWritten(field, value, form).result == Ok(true) && Integer(field, value, form).result == Ok(false)
  {
    if value.Float? {
      TruncOfWhole(value.f);
    }
  }

  /** Whatever `integer` accepts, `numeric` accepts too. */
  lemma IntegerImpliesNumeric(field: string, value: Value, form: map<string, Value>)
    requires Integer(field, value, form).result == Ok(true)
    ensures Numeric(field, value, form).result == Ok(true)
  {
    if value.Str? {
      ParseIntIsParseFloat(value.s);
    }
  }

  /** A value `numeric` has accepted and stored passes `numeric` again
      without further change. */
  lemma NumericIdempotent(field: string, form: map<string, Value>)
    requires field in form
    requires Numeric(field, form[field], form).result == Ok(true)
    ensures var after := Numeric(field, form[field], form).form;
      field in after && Numeric(field, after[field], after) == Outcome(Ok(true), after)
  {
  }

  /** Likewise for `integer`. */
  lemma IntegerIdempotent(field: string, form: map<string, Value>)
    requires field in form
    requires Integer(field, form[field], form).result == Ok(true)
    ensures var after := Integer(field, form[field], form).form;
      field in after && Integer(field, after[field], after) == Outcome(Ok(true), after)
  {
  }

  /** `numeric` updating the form in place. */
  method ValidateNumeric(field: string, value: Value, form: Form) returns (ok: bool)
    modifies form
    ensures Outcome(Ok(ok), form.data) == Numeric(field, value, old(form.data))
  {
    match value
    case Int(_) => ok := true;
    case Uint(_) => ok := true;
    case Float(_) => ok := true;
    case Str(s) =>
      var parsed := ParseFloat(s);
      if parsed.Some? {
        form.data := form.data[field := Float(parsed.value)];
      }
      ok := parsed.Some?;
    case _ => ok := false;
  }

  /** `integer` updating the form in place (the corrected float test). */
  method ValidateInteger(field: string, value: Value, form: Form) returns (ok: bool)
    modifies form
    ensures Outcome(Ok(ok), form.data) == Integer(field, value, old(form.data))
  {
    match value
    case Int(_) => ok := true;
    case Uint(_) => ok := true;
    case Float(x) =>
      if x != Trunc(x) as real || !(MinInt64 <= Trunc(x) <= MaxInt64) {
        return false;
      }
      form.data := form.data[field := Int(Trunc(x))];
      ok := true;
    case Str(s) =>
      var parsed := ParseInt(s);
      if parsed.Some? {
        form.data := form.data[field := Int(parsed.value)];
      }
      ok := parsed.Some?;
    case _ => ok := false;
  }

  // ---------------------------------------------------------------------
  // string, array, distinct

  /** `string`: the value is a string. */
  function IsString(value: Value): (r: bool)
    ensures r <==> GetFieldType(value) == StringType
  {
    value.Str?
  }

  /** `array` as the rule function has it: the value is classified as an array. */
  function IsArray(value: Value): (r: bool)
    ensures r <==> GetFieldType(value) == ArrayType
  {
    value.Arr?
  }

  /** An element converted to the element type an `array:<type>` rule names:
      `numeric` turns numbers and numeric strings into floats, `string` keeps
      strings; anything else does not convert. */
  function ConvertElement(elementType: string, e: Value): (r: Option<Value>)
    requires elementType == "numeric" || elementType == "string"
    ensures elementType == "numeric" ==> (r.Some? <==> IsNumber(e) || (e.Str? && ParseFloat(e.s).Some?))
    ensures elementType == "numeric" && IsNumber(e) ==> r == Some(Float(ToReal(e)))
    ensures elementType == "numeric" && e.Str? && r.Some? ==> r == Some(Float(ParseFloat(e.s).value))
    ensures elementType == "string" ==> r == (if e.Str? then Some(e) else None)
  {
    if elementType == "string" then (if e.Str? then Some(e) else None)
    else if IsNumber(e) then Some(Float(ToReal(e)))
    else if e.Str? && ParseFloat(e.s).Some? then Some(Float(ParseFloat(e.s).value))
    else None
  }

  /** Every element converted, or nothing if one of them does not convert. */
  function ConvertElements(elementType: string, elems: seq<Value>): (r: Option<seq<Value>>)
    requires elementType == "numeric" || elementType == "string"
    ensures r.Some? ==> |r.value| == |elems|
    ensures r.Some? <==> forall i :: 0 <= i < |elems| ==> ConvertElement(elementType, elems[i]).Some?
    ensures r.Some? ==> forall i :: 0 <= i < |elems| ==> r.value[i] == ConvertElement(elementType, elems[i]).value
  {
    if elems == [] then Some([])
    else
      match ConvertElement(elementType, elems[0])
      case None => None
      case Some(e) =>
        match ConvertElements(elementType, elems[1..])
        case None => None
        case Some(rest) => Some([e] + rest)
  }

  /** True when a parameter of an `array` rule names an element type it converts to. */
  predicate IsElementType(params: seq<string>) {
    params != [] && (params[0] == "numeric" || params[0] == "string")
  }

  /** The `array` rule as the engine runs it: the classification above, and
      when the first parameter names an element type, every element must
      convert to it and the converted array replaces the value in the form. */
  function ArrayRule(field: string, value: Value, params: seq<string>, form: map<string, Value>): (o: Outcome<bool>)
    ensures o.result.Ok?
    ensures o.result.value ==> value.Arr?
    ensures !IsElementType(params) ==> o == Outcome(Ok(IsArray(value)), form)
    ensures IsElementType(params) && value.Arr? ==> (o.result.value <==> ConvertElements(params[0], value.elems).Some?)
    ensures IsElementType(params) && o.result.value ==>
      o.form == form[field := Arr(ConvertElements(params[0], value.elems).value)]
    ensures !o.result.value ==> o.form == form
    ensures OnlyTouches(form, o.form, field)
  {
    if !value.Arr? then Outcome(Ok(false), form)
    else if !IsElementType(params) then Outcome(Ok(true), form)
    else
      match ConvertElements(params[0], value.elems)
      case None => Outcome(Ok(false), form)
      case Some(converted) => Outcome(Ok(true), form[field := Arr(converted)])
  }

  /** An element converts to `numeric` exactly when the `numeric` rule,
      run on that element alone, passes; the element becomes the float of
      whatever that rule left. */
  lemma ConvertNumericIsNumeric(field: string, e: Value)
    ensures ConvertElement("numeric", e).Some? <==> Numeric(field, e, map[field := e]).result == Ok(true)
    ensures ConvertElement("numeric", e).Some? ==>
      var left := Numeric(field, e, map[field := e]).form;
      field in left && IsNumber(left[field]) && ConvertElement("numeric", e) == Some(Float(ToReal(left[field])))
  {
  }

  /** `array:numeric` passes on an array exactly when `numeric` passes on
      every element alone, and then stores each element as the float of
      what `numeric` left of it. */
  lemma ArrayNumericIsElementwiseNumeric(field: string, elems: seq<Value>, rest: seq<string>, form: map<string, Value>)
    ensures ArrayRule(field, Arr(elems), ["numeric"] + rest, form).result == Ok(true) <==>
      forall i :: 0 <= i < |elems| ==> Numeric(field, elems[i], map[field := elems[i]]).result == Ok(true)
    ensures ArrayRule(field, Arr(elems), ["numeric"] + rest, form).result == Ok(true) ==>
      var after := ArrayRule(field, Arr(elems), ["numeric"] + rest, form).form;
      field in after && after[field].Arr? && |after[field].elems| == |elems| &&
      forall i :: 0 <= i < |elems| ==>
        after[field].elems[i] == Float(ToReal(Numeric(field, elems[i], map[field := elems[i]]).form[field]))
  {
    var params := ["numeric"] + rest;
    assert params[0] == "numeric" && IsElementType(params);
    forall i | 0 <= i < |elems|
      ensures ConvertElement("numeric", elems[i]).Some? <==> Numeric(field, elems[i], map[field := elems[i]]).result == Ok(true)
    {
      ConvertNumericIsNumeric(field, elems[i]);
    }
  }

  /** Every element satisfies `distinct`'s requirement: no value occurs twice. */
  predicate NoDuplicates(s: seq<Value>) {
    forall i, j :: 0 <= i < j < |s| ==> s[i] != s[j]
  }

  /** Element `j` is an array and an earlier element is one too. */
  predicate SecondArray(s: seq<Value>, j: int)
    requires 0 <= j < |s|
  {
    s[j].Arr? && exists k :: 0 <= k < j && s[k].Arr?
  }

  /** No two elements are arrays. */
  predicate AtMostOneArray(s: seq<Value>) {
    forall i, j :: 0 <= i < j < |s| ==> !(s[i].Arr? && s[j].Arr?)
  }

  /** The panic of Go's `==` on two slices held in `interface{}`. */
  const Uncomparable := "comparing uncomparable type []interface {}"

  /** `distinct`: non-arrays fail. Elements are compared with Go's `==` on
      `interface{}` values, which panics on two slices: the scan panics when
      it reaches a second array element before any repeated value, fails
      at the first repeat, and passes otherwise. */
  function Distinct(value: Value): (r: Result<bool>)
  {
    if !value.Arr? then Ok(false)
    else if exists j :: 0 <= j < |value.elems| && SecondArray(value.elems, j) && NoDuplicates(value.elems[..j]) then
      ConfigError(Uncomparable)
    else Ok(NoDuplicates(value.elems))
  }

  /** `distinct` passes iff the value is an array with no repeated element
      and at most one array element; it panics only on arrays holding two
      arrays; it fails on everything else. */
  lemma DistinctMeaning(value: Value)
    ensures Distinct(value) == Ok(true) <==> value.Arr? && NoDuplicates(value.elems) && AtMostOneArray(value.elems)
    ensures Distinct(value).ConfigError? ==> value.Arr? && !AtMostOneArray(value.elems)
    ensures value.Arr? && AtMostOneArray(value.elems) ==> Distinct(value) == Ok(NoDuplicates(value.elems))
  {
    if value.Arr? {
      var s := value.elems;
      if !AtMostOneArray(s) {
        var a, b :| 0 <= a < b < |s| && s[a].Arr? && s[b].Arr?;
        if NoDuplicates(s) {
          assert SecondArray(s, b);
          assert NoDuplicates(s[..b]);
        }
      }
    }
  }

  /** Two array elements panic; a repeat before them is a plain failure. */
  lemma DistinctOnArrays()
    ensures Distinct(Arr([Arr([Int(1)]), Arr([Int(2)])])).ConfigError?
    ensures Distinct(Arr([Int(1), Int(1), Arr([]), Arr([])])) == Ok(false)
    ensures Distinct(Arr([Int(1), Arr([])])) == Ok(true)
  {
    var a := [Arr([Int(1)]), Arr([Int(2)])];
    assert a[0].Arr?;
    assert SecondArray(a, 1) && NoDuplicates(a[..1]);
    var b := [Int(1), Int(1), Arr([]), Arr([])];
    assert b[0] == b[1];
    NoLaterPanic(b, 0, 1);
    DistinctMeaning(Arr([Int(1), Arr([])]));
  }

  /** `helpers.Contains(found, v)` with Go's `==`: an array compared with
      an earlier array panics, and the scan stops at the first equal value. */
  method ContainsValue(found: seq<Value>, v: Value) returns (r: Result<bool>)
    ensures v.Arr? ==> (r.ConfigError? <==> exists k :: 0 <= k < |found| && found[k].Arr?)
    ensures v.Arr? && r.Ok? ==> r == Ok(false)
    ensures !v.Arr? ==> r == Ok(v in found)
  {
    var k := 0;
    while k < |found|
      invariant 0 <= k <= |found|
      invariant v !in found[..k]
      invariant v.Arr? ==> forall m :: 0 <= m < k ==> !found[m].Arr?
    {
      if v.Arr? && found[k].Arr? {
        return ConfigError(Uncomparable);
      }
      if found[k] == v {
        return Ok(true);
      }
      assert found[..k + 1] == found[..k] + [found[k]];
      k := k + 1;
    }
    assert found[..k] == found;
    return Ok(false);
  }

  /** `distinct`'s loop: the elements seen so far are collected in `found`. */
  method ValidateDistinct(value: Value) returns (r: Result<bool>)
    ensures r == Distinct(value)
  {
    if !value.Arr? {
      return Ok(false);
    }
    var list := value.elems;
    var found: seq<Value> := [];
    var i := 0;
    while i < |list|
      invariant 0 <= i <= |list|
      invariant found == list[..i]
      invariant NoDuplicates(found)
      invariant AtMostOneArray(found)
    {
      var v := list[i];
      var c := ContainsValue(found, v);
      if c.ConfigError? {
        assert SecondArray(list, i) && NoDuplicates(list[..i]);
        return ConfigError(Uncomparable);
      }
      if c.value {
        var j :| 0 <= j < |found| && found[j] == v;
        assert list[j] == list[i];
        NoLaterPanic(list, j, i);
        return Ok(false);
      }
      found := found + [v];
      i := i + 1;
    }
    assert found == list;
    DistinctMeaning(value);
    return Ok(true);
  }

  /** Once elements `a < b` repeat, with at most one array before `b`, no
      element is a second array reached before a repeat. */
  lemma NoLaterPanic(s: seq<Value>, a: int, b: int)
    requires 0 <= a < b < |s| && s[a] == s[b] && AtMostOneArray(s[..b]) && !s[b].Arr?
    ensures !exists j :: 0 <= j < |s| && SecondArray(s, j) && NoDuplicates(s[..j])
  {
    NoSecondBefore(s, b);
    forall j | 0 <= j < |s|
      ensures !(SecondArray(s, j) && NoDuplicates(s[..j]))
    {
      if j > b {
        assert s[..j][a] == s[..j][b];
      }
    }
  }

  /** With at most one array among the first `b` elements, none of them is
      a second array. */
  lemma NoSecondBefore(s: seq<Value>, b: int)
    requires 0 <= b <= |s| && AtMostOneArray(s[..b])
    ensures forall j :: 0 <= j < b ==> !SecondArray(s, j)
  {
    assert forall m :: 0 <= m < b ==> s[..b][m] == s[m];
  }
}
