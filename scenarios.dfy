/**
 * The behaviour the validator's test suite pins down, stated on the model
 * with the built-in registry. Rules outside this model (`email`, `uuid`,
 * ...) are whatever functions `outside` gives.
 */
module Scenarios {
  import opened Values
  import opened Numbers
  import opened RuleLib
  import opened Syntax
  import opened Registry
  import opened Fields
  import opened Engine

  /** A rule without parameters at the field's own level. */
  function Bare(name: string): Rule {
    Rule(name, [], 0)
  }

  /** The entries of the built-in registry the scenarios below use. */
  predicate Standard(defs: Definitions) {
    && Is(defs, "required", RequiredRule) && Is(defs, "nullable", NullableRule)
    && Is(defs, "numeric", NumericRule) && Is(defs, "array", ArrayRule)
    && Is(defs, "min", MinRule) && Is(defs, "max", MaxRule)
    && "email" in defs && "uuid" in defs
  }

  /** A rule of this model's own that no outside rule shadows. */
  lemma {:induction false} CoreEntry(outside: string -> RuleFunction, name: string, kind: Builtin)
    requires name in Core() && Core()[name].impl == Builtin(kind) && name !in Outside
    ensures Is(Builtins(outside), name, kind)
  {
    assert name !in Outer(outside);
  }

  lemma RequiredEntry()
    ensures "required" in Core() && Core()["required"].impl == Builtin(RequiredRule) && "required" !in Outside
  {
  }

  lemma NullableEntry()
    ensures "nullable" in Core() && Core()["nullable"].impl == Builtin(NullableRule) && "nullable" !in Outside
  {
  }

  lemma NumericEntry()
    ensures "numeric" in Core() && Core()["numeric"].impl == Builtin(NumericRule) && "numeric" !in Outside
  {
  }

  lemma ArrayEntry()
    ensures "array" in Core() && Core()["array"].impl == Builtin(ArrayRule) && "array" !in Outside
  {
  }

  lemma MinEntry()
    ensures "min" in Core() && Core()["min"].impl == Builtin(MinRule) && "min" !in Outside
  {
  }

  lemma MaxEntry()
    ensures "max" in Core() && Core()["max"].impl == Builtin(MaxRule) && "max" !in Outside
  {
  }

  /** The built-in registry has those entries. */
  lemma BuiltinsStandard(outside: string -> RuleFunction)
    ensures Standard(Builtins(outside))
  {
    RequiredEntry();
    CoreEntry(outside, "required", RequiredRule);
    NullableEntry();
    CoreEntry(outside, "nullable", NullableRule);
    NumericEntry();
    CoreEntry(outside, "numeric", NumericRule);
    ArrayEntry();
    CoreEntry(outside, "array", ArrayRule);
    MinEntry();
    CoreEntry(outside, "min", MinRule);
    MaxEntry();
    CoreEntry(outside, "max", MaxRule);
    assert "email" in Outside && "uuid" in Outside;
  }

  // ---------------------------------------------------------------------
  // Field check

  /** `required` and `numeric` make a required field, neither array nor
      nullable; `nullable` and `array` make a nullable array field. */
  lemma FieldFlags()
    ensures Derive([Bare("required"), Bare("numeric")]) == FieldView([Bare("required"), Bare("numeric")], true, false, false)
    ensures Derive([Bare("nullable"), Bare("array")]) == FieldView([Bare("nullable"), Bare("array")], false, true, true)
  {
    var a := [Bare("required"), Bare("numeric")];
    assert a[0].name == "required";
    assert a[1].name != "array" && a[1].name != "nullable";
    assert a[0].name != "array" && a[0].name != "nullable";
    var b := [Bare("nullable"), Bare("array")];
    assert b[0].name == "nullable" && b[1].name == "array";
    assert b[0].name != "required" && b[1].name != "required";
  }

  /** The flags the fields of the validation scenarios below derive. */
  lemma ScenarioFlags()
    ensures Derive([Bare("numeric")]) == FieldView([Bare("numeric")], false, false, false)
    ensures var rules := [Bare("required"), Bare("nullable"), Bare("numeric")];
      Derive(rules) == FieldView(rules, true, false, true)
    ensures var rules := [Bare("required"), Bare("array")];
      Derive(rules) == FieldView(rules, true, true, false)
    ensures var rules := [Bare("array"), Rule("uuid", ["5"], 1)];
      Derive(rules) == FieldView(rules, false, true, false)
  {
    var a := [Bare("numeric")];
    assert a[0].name != "required" && a[0].name != "array" && a[0].name != "nullable";
    var b := [Bare("required"), Bare("nullable"), Bare("numeric")];
    assert b[0].name == "required" && b[1].name == "nullable";
    assert forall j :: 0 <= j < 3 ==> b[j].name != "array";
    var c := [Bare("required"), Bare("array")];
    assert c[0].name == "required" && c[1].name == "array";
    assert c[0].name != "nullable" && c[1].name != "nullable";
    var d := [Bare("array"), Rule("uuid", ["5"], 1)];
    assert d[0].name == "array";
    assert d[0].name != "required" && d[1].name != "required" && d[1].dimension != 0;
    assert d[0].name != "nullable" && d[1].name != "nullable";
  }

  /** An unknown rule name fails the check. */
  lemma UnknownRuleRejected(outside: string -> RuleFunction)
    ensures CheckRules(Builtins(outside), [Bare("required"), Bare("not a rule")]).ConfigError?
  {
    var rules := [Bare("required"), Bare("not a rule")];
    NotARuleUnregistered(outside);
    assert !Legal(Builtins(outside), rules[1]);
  }

  /** Each array-prohibited rule fails the check on elements, and passes it
      at the field's own level. */
  lemma ProhibitedOnElements(outside: string -> RuleFunction, name: string)
    requires name in ArrayProhibited
    ensures CheckRules(Builtins(outside), [Rule(name, [], 1)]).ConfigError?
    ensures CheckRules(Builtins(outside), [Rule(name, [], 0)]).Ok?
  {
    assert !Legal(Builtins(outside), [Rule(name, [], 1)][0]);
  }

  // ---------------------------------------------------------------------
  // Nil values

  /** A nil value of a field that is not nullable is removed, and with only
      `numeric` to satisfy there is no error. */
  lemma NilRemovedWhenNotNullable(defs: Definitions)
    requires Standard(defs)
    ensures CheckField(defs, Derive([Bare("numeric")]), "nullField", true, map["nullField" := Nil])
      == Outcome(Ok([]), map[])
  {
    ScenarioFlags();
    assert map["nullField" := Nil] - {"nullField"} == map[];
  }

  /** A nil value of a nullable field stays, without errors, even when required. */
  lemma NilKeptWhenNullable(defs: Definitions)
    requires Standard(defs)
    ensures var rules := [Bare("required"), Bare("nullable"), Bare("numeric")];
      CheckField(defs, Derive(rules), "nullField", true, map["nullField" := Nil])
      == Outcome(Ok([]), map["nullField" := Nil])
  {
    ScenarioFlags();
  }

  /** A string that is not a number fails `numeric` alone, and stays. */
  lemma NonNumericStringOneError(defs: Definitions)
    requires Standard(defs)
    ensures var rules := [Bare("required"), Bare("nullable"), Bare("numeric")];
      CheckField(defs, Derive(rules), "nullField", true, map["nullField" := Str("test")])
      == Outcome(Ok(["numeric"]), map["nullField" := Str("test")])
  {
    ScenarioFlags();
    var data := map["nullField" := Str("test")];
    var rules := [Bare("required"), Bare("nullable"), Bare("numeric")];
    assert Prepare(Derive(rules), "nullField", true, data) == data;
    TestReaches(defs);
    CheckFieldCollects(defs, Derive(rules), "nullField", true, data, [true, true, false]);
  }

  /** The three rules on `"test"` leave it alone; only `numeric` fails. */
  lemma TestReaches(defs: Definitions)
    requires Standard(defs)
    ensures var rules := [Bare("required"), Bare("nullable"), Bare("numeric")];
      Reaches(defs, rules, "nullField", map["nullField" := Str("test")], [true, true, false]) &&
      Failing(rules, [true, true, false]) == ["numeric"]
  {
    var data := map["nullField" := Str("test")];
    var rules := [Bare("required"), Bare("nullable"), Bare("numeric")];
    TestVerdicts(defs);
    ReachesPointwise(defs, rules, "nullField", data, [true, true, false]);
    assert rules[1..] == rules[1..][..] && rules[2..] == [Bare("numeric")];
    assert [true, true, false][1..] == [true, false] && [true, false][1..] == [false];
    assert Failing([Bare("numeric")], [false]) == ["numeric"];
  }

  /** On `"test"`, `required` and `nullable` pass and `numeric` fails,
      each leaving the payload alone. */
  lemma TestVerdicts(defs: Definitions)
    requires Standard(defs)
    ensures var data := map["nullField" := Str("test")];
      && ApplyAtDimension(defs, Bare("required"), "nullField", data) == Outcome(Ok(true), data)
      && ApplyAtDimension(defs, Bare("nullable"), "nullField", data) == Outcome(Ok(true), data)
      && ApplyAtDimension(defs, Bare("numeric"), "nullField", data) == Outcome(Ok(false), data)
  {
    NotANumber();
  }

  /** Validating the whole payload: the one field gets the one entry
      `numeric`, and the payload stays. */
  lemma NonNumericStringReported(defs: Definitions)
    requires Standard(defs)
    ensures var view := Derive([Bare("required"), Bare("nullable"), Bare("numeric")]);
      CheckFields(defs, map["nullField" := view], ["nullField"], true, map["nullField" := Str("test")], map[])
      == Outcome(Ok(map["nullField" := ["numeric"]]), map["nullField" := Str("test")])
  {
    ScenarioFlags();
    var view := Derive([Bare("required"), Bare("nullable"), Bare("numeric")]);
    NonNumericStringOneError(defs);
    OneField(defs, map["nullField" := view], "nullField", true, map["nullField" := Str("test")], ["numeric"]);
  }

  /** A payload validated against one field that leaves it alone and
      reports `errs`: an entry for that field exactly when `errs` is not
      empty. */
  lemma OneField(defs: Definitions, views: map<string, FieldView>, field: string, isJSON: bool, data: map<string, Value>, errs: seq<string>)
    requires field in views && CheckField(defs, views[field], field, isJSON, data) == Outcome(Ok(errs), data)
    ensures CheckFields(defs, views, [field], isJSON, data, map[]) == Outcome(Ok(if errs == [] then map[] else map[field := errs]), data)
  {
    assert [field][1..] == [];
  }

  lemma NotANumber()
    ensures ParseFloat("test").None?
  {
    assert !IsDigit('t');
  }

  // ---------------------------------------------------------------------
  // Arrays

  /** Outside JSON, a single value of an array field becomes a one-element
      array, which then passes `array`. */
  lemma SingleValueWrapped(defs: Definitions)
    requires Standard(defs)
    ensures var rules := [Bare("required"), Bare("array")];
      CheckField(defs, Derive(rules), "string", false, map["string" := Str("hello")])
      == Outcome(Ok([]), map["string" := Arr([Str("hello")])])
  {
    ScenarioFlags();
    var rules := [Bare("required"), Bare("array")];
    var data := map["string" := Arr([Str("hello")])];
    assert Prepare(Derive(rules), "string", false, map["string" := Str("hello")]) == data;
    WrappedReaches(defs);
    CheckFieldCollects(defs, Derive(rules), "string", false, map["string" := Str("hello")], [true, true]);
  }

  /** Both rules pass on the wrapped value and leave it alone. */
  lemma WrappedReaches(defs: Definitions)
    requires Standard(defs)
    ensures var rules := [Bare("required"), Bare("array")];
      Reaches(defs, rules, "string", map["string" := Arr([Str("hello")])], [true, true]) && Failing(rules, [true, true]) == []
  {
    var rules := [Bare("required"), Bare("array")];
    var data := map["string" := Arr([Str("hello")])];
    assert ApplyAtDimension(defs, rules[0], "string", data) == Outcome(Ok(true), data);
    assert ApplyAtDimension(defs, rules[1], "string", data) == Outcome(Ok(true), data);
    PassTwo(defs, rules[0], rules[1], "string", data);
  }

  /** Two rules that both pass and leave the payload alone report nothing. */
  lemma PassTwo(defs: Definitions, r0: Rule, r1: Rule, field: string, data: map<string, Value>)
    requires field in data
    requires ApplyAtDimension(defs, r0, field, data) == Outcome(Ok(true), data)
    requires ApplyAtDimension(defs, r1, field, data) == Outcome(Ok(true), data)
    ensures Reaches(defs, [r0, r1], field, data, [true, true]) && Failing([r0, r1], [true, true]) == []
  {
    ReachesPointwise(defs, [r0, r1], field, data, [true, true]);
    assert [r0, r1][1..] == [r1] && [r1][1..] == [];
    assert [true, true][1..] == [true] && [true][1..] == [];
  }

  lemma ParseThreeAsFloat()
    ensures ParseFloat("3") == Some(3.0)
  {
    assert IndexOf("3", '.') == 1;
    assert "3"[..1] == "3";
    assert DigitsValue("3") == 3 by { assert "3"[..0] == ""; }
  }

  /** `min:3` on every element: each string of at least three characters
      passes. */
  lemma ElementMinimumPasses(defs: Definitions)
    requires Standard(defs)
    ensures InArray(defs, Rule("min", ["3"], 1), "string", 1, map["string" := Arr([Str("hello"), Str("world")])]).result == Ok(true)
  {
    var rule := Rule("min", ["3"], 1);
    ParseThreeAsFloat();
    assert Trunc(3.0) == 3;
    var good := [Str("hello"), Str("world")];
    assert Step(defs, rule, "string", 1, good[0]) == Ok(Some(good[0]));
    assert Step(defs, rule, "string", 1, good[1]) == Ok(Some(good[1]));
    InArrayPasses(defs, rule, "string", 1, map["string" := Arr(good)]);
  }

  /** One short string among the elements makes `min:3` fail. */
  lemma ElementMinimumFails(defs: Definitions)
    requires Standard(defs)
    ensures InArray(defs, Rule("min", ["3"], 1), "string", 1, map["string" := Arr([Str("hi"), Str(","), Str("there")])]).result == Ok(false)
  {
    var rule := Rule("min", ["3"], 1);
    ParseThreeAsFloat();
    assert Trunc(3.0) == 3;
    var bad := [Str("hi"), Str(","), Str("there")];
    assert Step(defs, rule, "string", 1, bad[0]) == Ok(None);
  }

  /** A dimension-1 rule on a field that holds a string is a panic. */
  lemma ElementRuleOnStringPanics(defs: Definitions)
    requires Standard(defs)
    ensures InArray(defs, Rule("required", [], 1), "string", 1, map["string" := Str("hi")]).result.ConfigError?
  {
  }

  /** An empty array passes `array` and `>uuid:5`, whatever `uuid` is. */
  lemma EmptyArrayNoErrors(defs: Definitions)
    requires Standard(defs)
    ensures var rules := [Bare("array"), Rule("uuid", ["5"], 1)];
      CheckField(defs, Derive(rules), "string", true, map["string" := Arr([])])
      == Outcome(Ok([]), map["string" := Arr([])])
  {
    ScenarioFlags();
    var data := map["string" := Arr([])];
    var rules := [Bare("array"), Rule("uuid", ["5"], 1)];
    assert Prepare(Derive(rules), "string", true, data) == data;
    EmptyArrayReaches(defs);
    CheckFieldCollects(defs, Derive(rules), "string", true, data, [true, true]);
  }

  /** Both rules pass on the empty array and leave it alone. */
  lemma EmptyArrayReaches(defs: Definitions)
    requires Standard(defs)
    ensures var rules := [Bare("array"), Rule("uuid", ["5"], 1)];
      Reaches(defs, rules, "string", map["string" := Arr([])], [true, true]) && Failing(rules, [true, true]) == []
  {
    var data := map["string" := Arr([])];
    var rules := [Bare("array"), Rule("uuid", ["5"], 1)];
    EmptyArrayPasses(defs, rules[1], "string", 1, data);
    assert ApplyAtDimension(defs, rules[0], "string", data) == Outcome(Ok(true), data);
    PassTwo(defs, rules[0], rules[1], "string", data);
  }

  // ---------------------------------------------------------------------
  // Coercion at depth

  lemma ParseHalf()
    ensures ParseFloat("0.5") == Some(0.5)
  {
    var body := "0.5";
    assert SplitSign(body) == (1, body);
    assert IndexOf(body, '.') == 1;
    assert body[..1] == "0" && body[2..] == "5";
    assert DigitsValue("0") == 0 by { assert "0"[..0] == ""; }
    assert DigitsValue("5") == 5 by { assert "5"[..0] == ""; }
    assert Pow10(1) == 10;
  }

  lemma FirstRowConverts()
    ensures ConvertElements("numeric", [Str("0.5"), Float(1.42)]) == Some([Float(0.5), Float(1.42)])
  {
    ParseHalf();
    var row := [Str("0.5"), Float(1.42)];
    assert ConvertElement("numeric", row[0]) == Some(Float(0.5));
    assert ConvertElement("numeric", row[1]) == Some(Float(1.42));
    assert ConvertElements("numeric", row).value == [Float(0.5), Float(1.42)];
  }

  lemma SecondRowConverts()
    ensures ConvertElements("numeric", [Float(0.6), Int(7)]) == Some([Float(0.6), Float(7.0)])
  {
    var row := [Float(0.6), Int(7)];
    assert ConvertElement("numeric", row[0]) == Some(Float(0.6));
    assert ConvertElement("numeric", row[1]) == Some(Float(7.0));
    assert ConvertElements("numeric", row).value == [Float(0.6), Float(7.0)];
  }

  /** `array:numeric` on one row, alone in its scratch form, passes and
      leaves the converted row there. */
  lemma RowStep(defs: Definitions, row: seq<Value>, converted: seq<Value>)
    requires Standard(defs)
    requires ConvertElements("numeric", row) == Some(converted)
    ensures Step(defs, Rule("array", ["numeric"], 1), "values", 1, Arr(row)) == Ok(Some(Arr(converted)))
  {
    var scratch := map["values" := Arr(row)];
    assert Apply(defs, Rule("array", ["numeric"], 1), "values", Arr(row), scratch) == Outcome(Ok(true), scratch["values" := Arr(converted)]);
  }

  /** `>array:numeric` turns every leaf of a two-dimensional array into a
      float of the same value, numeric strings included. */
  lemma TwoDimensionalCoercion(defs: Definitions)
    requires Standard(defs)
    ensures var before := Arr([Arr([Str("0.5"), Float(1.42)]), Arr([Float(0.6), Int(7)])]);
      var after := Arr([Arr([Float(0.5), Float(1.42)]), Arr([Float(0.6), Float(7.0)])]);
      InArray(defs, Rule("array", ["numeric"], 1), "values", 1, map["values" := before]) == Outcome(Ok(true), map["values" := after])
  {
    var row0 := [Str("0.5"), Float(1.42)];
    var row1 := [Float(0.6), Int(7)];
    var v0 := Arr([Float(0.5), Float(1.42)]);
    var v1 := Arr([Float(0.6), Float(7.0)]);
    FirstRowConverts();
    SecondRowConverts();
    RowStep(defs, row0, v0.elems);
    RowStep(defs, row1, v1.elems);
    TwoElements(defs, Rule("array", ["numeric"], 1), "values", 1, Arr(row0), Arr(row1), v0, v1);
  }

  lemma ElementsStep(defs: Definitions, rule: Rule, field: string, depth: nat, elems: seq<Value>, i: nat, out: seq<Value>, v: Value)
    requires depth >= 1 && i < |elems| && |out| == i
    requires Step(defs, rule, field, depth, elems[i]) == Ok(Some(v))
    ensures Elements(defs, rule, field, depth, elems, i, out) == Elements(defs, rule, field, depth, elems, i + 1, out + [v])
  {
  }

  /** A two-element array whose elements both pass ends up holding what
      the elements were turned into. */
  lemma TwoElements(defs: Definitions, rule: Rule, field: string, depth: nat, e0: Value, e1: Value, v0: Value, v1: Value)
    requires depth >= 1
    requires Step(defs, rule, field, depth, e0) == Ok(Some(v0)) && Step(defs, rule, field, depth, e1) == Ok(Some(v1))
    ensures InArray(defs, rule, field, depth, map[field := Arr([e0, e1])]) == Outcome(Ok(true), map[field := Arr([v0, v1])])
  {
    var elems := [e0, e1];
    ElementsStep(defs, rule, field, depth, elems, 0, [], v0);
    assert [] + [v0] == [v0];
    ElementsStep(defs, rule, field, depth, elems, 1, [v0], v1);
    assert [v0] + [v1] == [v0, v1];
    assert Elements(defs, rule, field, depth, elems, 2, [v0, v1]) == Ok(Some([v0, v1]));
    assert map[field := Arr(elems)][field := Arr([v0, v1])] == map[field := Arr([v0, v1])];
  }

  // ---------------------------------------------------------------------
  // Rule sets

  lemma ParseArrayOfStrings()
    ensures ParseRule("array:string") == Ok(Rule("array", ["string"], 0))
  {
    ParsesBack(Rule("array", ["string"], 0), "array:string");
  }

  lemma ParseThree(t1: string, t2: string, t3: string, r1: Rule, r2: Rule, r3: Rule)
    requires ParseRule(t1) == Ok(r1) && ParseRule(t2) == Ok(r2) && ParseRule(t3) == Ok(r3)
    ensures ParseAll([t1, t2, t3]) == Ok([r1, r2, r3])
  {
    ParseOne(t3, r3);
    ParseAllCons(t2, r2, [t3], [r3]);
    assert [t2] + [t3] == [t2, t3] && [r2] + [r3] == [r2, r3];
    ParseAllCons(t1, r1, [t2, t3], [r2, r3]);
    assert [t1] + [t2, t3] == [t1, t2, t3] && [r1] + [r2, r3] == [r1, r2, r3];
  }

  lemma ParseOne(t: string, r: Rule)
    requires ParseRule(t) == Ok(r)
    ensures ParseAll([t]) == Ok([r])
  {
    ParseAllCons(t, r, [], []);
    assert [t] + [] == [t] && [r] + [] == [r];
  }

  lemma ParseTwoFields(k1: string, k2: string, ts1: seq<string>, ts2: seq<string>, rs1: seq<Rule>, rs2: seq<Rule>)
    requires k1 != k2 && ParseAll(ts1) == Ok(rs1) && ParseAll(ts2) == Ok(rs2)
    ensures ParseSet(map[k1 := ts1, k2 := ts2]) == Ok(map[k1 := rs1, k2 := rs2])
  {
    var ruleSet := map[k1 := ts1, k2 := ts2];
    assert ParseSet(ruleSet).Ok?;
    MapsAgree(ParseSet(ruleSet).value, map[k1 := rs1, k2 := rs2]);
  }

  /** The textual rule set of the parse test: rules in declared order,
      parameter-less rules with empty parameters, `>` read as a dimension. */
  lemma RuleSetParsed()
    ensures ParseSet(map["string" := ["required", "array:string", ">min:3"], "number" := ["numeric"]])
      == Ok(map["string" := [Rule("required", [], 0), Rule("array", ["string"], 0), Rule("min", ["3"], 1)],
                "number" := [Rule("numeric", [], 0)]])
  {
    ParseBareName();
    ParseArrayOfStrings();
    ParseOneDimension();
    ParseThree("required", "array:string", ">min:3", Rule("required", [], 0), Rule("array", ["string"], 0), Rule("min", ["3"], 1));
    ParseNumeric();
    ParseOne("numeric", Rule("numeric", [], 0));
    ParseTwoFields("string", "number", ["required", "array:string", ">min:3"], ["numeric"],
      [Rule("required", [], 0), Rule("array", ["string"], 0), Rule("min", ["3"], 1)], [Rule("numeric", [], 0)]);
  }

  lemma ParseNumeric()
    ensures ParseRule("numeric") == Ok(Rule("numeric", [], 0))
  {
    ParsesBack(Rule("numeric", [], 0), "numeric");
  }

  lemma ParseNotARule()
    ensures ParseRule("not a rule") == Ok(Rule("not a rule", [], 0))
  {
    ParsesBack(Rule("not a rule", [], 0), "not a rule");
  }

  lemma NotARuleAbsent()
    ensures "not a rule" !in Core() && "not a rule" !in Outside
  {
  }

  lemma NotARuleUnregistered(outside: string -> RuleFunction)
    ensures "not a rule" !in Builtins(outside)
  {
    NotARuleAbsent();
    assert "not a rule" !in Outer(outside);
  }

  /** A second token that parses to an illegal rule makes the whole
      textual rule set fail the check. */
  lemma IllegalTokenRejected(defs: Definitions, name: string, t0: string, t1: string, t2: string, rule: Rule)
    requires ParseRule(t1) == Ok(rule) && !Legal(defs, rule)
    ensures !TextualLegal(defs, map[name := [t0, t1, t2]])
  {
    var ruleSet := map[name := [t0, t1, t2]];
    if ParseSet(ruleSet).Ok? {
      ParseAllPointwise([t0, t1, t2]);
      var rules := ParseSet(ruleSet).value[name];
      assert rules[1] == rule;
      assert CheckRules(defs, rules).ConfigError?;
    }
  }

  /** A textual rule set naming an unknown rule fails the check. */
  lemma RuleSetWithUnknownRule(outside: string -> RuleFunction)
    ensures !TextualLegal(Builtins(outside), map["string" := ["required", "not a rule", ">min:3"]])
  {
    NotARuleUnregistered(outside);
    ParseNotARule();
    IllegalTokenRejected(Builtins(outside), "string", "required", "not a rule", ">min:3", Rule("not a rule", [], 0));
  }

  /** The latch: once checked, a rule set is never checked again, even after
      one of its rules was renamed to something unregistered. */
  method LatchScenario(defs: Definitions) returns (first: Result<()>, latched: bool, second: Result<()>)
    requires Standard(defs)
    ensures first.Ok? && latched && second.Ok?
  {
    var field := new Field([Bare("required"), Bare("array")]);
    var rules := new Rules(map["values" := field]);
    first := rules.Check(defs);
    latched := rules.checked;
    field.rules := [Bare("not a rule"), Bare("array")];
    second := rules.Check(defs);
  }

  /** `Validate` with a prebuilt rule set: a nil payload returns before the
      rules are looked at, so the latch stays open; a payload closes it and
      raises the fields' flags. */
  method ValidateLatch(defs: Definitions) returns (openAfterNil: bool, closed: bool, flagged: bool)
    requires Standard(defs)
    ensures openAfterNil && closed && flagged
  {
    var rules := [Bare("required"), Bare("array")];
    var field := new Field(rules);
    var ruleSet := new Rules(map["values" := field]);
    var ignored := Validate(defs, null, Prebuilt(ruleSet), true, ["values"]);
    openAfterNil := !ruleSet.checked;
    var data := new Form(map["values" := Arr([])]);
    assert CheckRules(defs, rules).Ok? by {
      assert Legal(defs, rules[0]) && Legal(defs, rules[1]);
    }
    var result := Validate(defs, data, Prebuilt(ruleSet), true, ["values"]);
    closed := ruleSet.checked;
    flagged := field.isRequired && field.isArray;
  }
}
