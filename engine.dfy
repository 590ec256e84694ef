/**
 * The validation engine: applying a rule to every element at a given array
 * depth, validating one field (nil and absent values, single values
 * wrapped into arrays, rules in declared order), and validating a whole
 * payload against a rule set.
 */
module Engine {
  import opened Values
  import opened Numbers
  import opened Syntax
  import opened Registry
  import opened Fields

  /** Error entries by field name; an entry is the name of the failed rule. */
  type Errors = map<string, seq<string>>

  // ---------------------------------------------------------------------
  // Rules on array elements

  /** `validateRuleInArray`: the value of `field` must be an array; the rule
      is applied to every element, `depth` levels down, each element placed
      alone under `field` in a scratch form. The first failing element fails
      the whole rule and leaves the form as it was; when every element
      passes, the elements as the rule left them (converted, say) replace
      the array. */
  function InArray(defs: Definitions, rule: Rule, field: string, depth: nat, data: map<string, Value>): (o: Outcome<bool>)
    requires depth >= 1
    ensures (field !in data || !data[field].Arr?) ==> o.result.ConfigError?
    ensures o.result != Ok(true) ==> o.form == data
    ensures o.result == Ok(true) ==> field in data && data[field].Arr? && o.form.Keys == data.Keys
    ensures o.result == Ok(true) ==> o.form[field].Arr? && |o.form[field].elems| == |data[field].elems|
    ensures OnlyTouches(data, o.form, field)
    decreases depth, 2
  {
    if field !in data || !data[field].Arr? then Outcome(ConfigError("cannot validate array values on a non-array field"), data)
    else
      match Elements(defs, rule, field, depth, data[field].elems, 0, [])
      case ConfigError(m) => Outcome(ConfigError(m), data)
      case Ok(None) => Outcome(Ok(false), data)
      case Ok(Some(out)) => Outcome(Ok(true), data[field := Arr(out)])
  }

  /** The elements from `i` on, after `out` holds what the first `i` became:
      nothing once one fails, and the panic of the first that panics. */
  function Elements(defs: Definitions, rule: Rule, field: string, depth: nat, elems: seq<Value>, i: nat, out: seq<Value>): (r: Result<Option<seq<Value>>>)
    requires depth >= 1 && i <= |elems| && |out| == i
    ensures r.Ok? && r.value.Some? ==> |r.value.value| == |elems|
    decreases depth, 1, |elems| - i
  {
    if i == |elems| then Ok(Some(out))
    else
      match Step(defs, rule, field, depth, elems[i])
      case ConfigError(m) => ConfigError(m)
      case Ok(None) => Ok(None)
      case Ok(Some(v)) => Elements(defs, rule, field, depth, elems, i + 1, out + [v])
  }

  /** One element: the rule itself one level down, or the descent one level
      further. What it yields is the element as the rule left it. */
  function Step(defs: Definitions, rule: Rule, field: string, depth: nat, e: Value): (r: Result<Option<Value>>)
    requires depth >= 1
    ensures depth == 1 && rule.name !in defs ==> r.ConfigError?
    ensures depth >= 2 && !e.Arr? ==> r.ConfigError?
    decreases depth, 0
  {
    var scratch := map[field := e];
    var o := if depth == 1 then Apply(defs, rule, field, e, scratch) else InArray(defs, rule, field, depth - 1, scratch);
    match o.result
    case ConfigError(m) => ConfigError(m)
    case Ok(pass) => if pass then Ok(Some(o.form[field])) else Ok(None)
  }

  /** An element passes when its step yields a value. */
  predicate Passes(defs: Definitions, rule: Rule, field: string, depth: nat, e: Value)
    requires depth >= 1
  {
    Step(defs, rule, field, depth, e).Ok? && Step(defs, rule, field, depth, e).value.Some?
  }

  /** The elements fold: every element passes exactly when the fold yields
      the values they became, in order. */
  lemma {:induction false} ElementsAllPass(defs: Definitions, rule: Rule, field: string, depth: nat, elems: seq<Value>, i: nat, out: seq<Value>)
    requires depth >= 1 && i <= |elems| && |out| == i
    ensures (forall j :: i <= j < |elems| ==> Passes(defs, rule, field, depth, elems[j])) <==>
      Elements(defs, rule, field, depth, elems, i, out).Ok? && Elements(defs, rule, field, depth, elems, i, out).value.Some?
    ensures Elements(defs, rule, field, depth, elems, i, out).Ok? && Elements(defs, rule, field, depth, elems, i, out).value.Some? ==>
      var r := Elements(defs, rule, field, depth, elems, i, out).value.value;
      r[..i] == out && forall j :: i <= j < |elems| ==> Step(defs, rule, field, depth, elems[j]) == Ok(Some(r[j]))
    decreases |elems| - i
  {
    if i < |elems| {
      var s := Step(defs, rule, field, depth, elems[i]);
      if s.Ok? && s.value.Some? {
        ElementsAllPass(defs, rule, field, depth, elems, i + 1, out + [s.value.value]);
        var e := Elements(defs, rule, field, depth, elems, i, out);
        if e.Ok? && e.value.Some? {
          assert e.value.value[..i + 1][..i] == e.value.value[..i];
        }
      }
    }
  }

  /** A rule on the elements of an array passes iff it passes on every
      element; then each element is replaced by what the rule made of it. */
  lemma InArrayPasses(defs: Definitions, rule: Rule, field: string, depth: nat, data: map<string, Value>)
    requires depth >= 1 && field in data && data[field].Arr?
    ensures InArray(defs, rule, field, depth, data).result == Ok(true) <==>
      forall j :: 0 <= j < |data[field].elems| ==> Passes(defs, rule, field, depth, data[field].elems[j])
    ensures InArray(defs, rule, field, depth, data).result == Ok(true) ==>
      var after := InArray(defs, rule, field, depth, data).form[field].elems;
      forall j :: 0 <= j < |data[field].elems| ==> Step(defs, rule, field, depth, data[field].elems[j]) == Ok(Some(after[j]))
  {
    ElementsAllPass(defs, rule, field, depth, data[field].elems, 0, []);
  }

  /** An empty array passes any rule on its elements, untouched. */
  lemma EmptyArrayPasses(defs: Definitions, rule: Rule, field: string, depth: nat, data: map<string, Value>)
    requires depth >= 1 && field in data && data[field] == Arr([])
    ensures InArray(defs, rule, field, depth, data) == Outcome(Ok(true), data)
  {
    assert data[field := Arr([])] == data;
  }

  /** Where an element rule meets a value that is not an array (at the top
      or further down), the rule declaration is malformed: a panic. */
  lemma NonArrayAtDepthPanics(defs: Definitions, rule: Rule, field: string, data: map<string, Value>)
    requires field in data && !data[field].Arr?
    ensures InArray(defs, rule, field, 1, data).result.ConfigError?
    ensures forall depth: nat :: depth >= 1 ==> InArray(defs, rule, field, depth, data).result.ConfigError?
  {
  }

  /** `validateRuleInArray` over a payload held in place. */
  method ValidateRuleInArray(defs: Definitions, rule: Rule, field: string, depth: nat, form: Form) returns (r: Result<bool>)
    requires depth >= 1
    modifies form
    ensures Outcome(r, form.data) == InArray(defs, rule, field, depth, old(form.data))
    decreases depth
  {
    if field !in form.data || !form.data[field].Arr? {
      return ConfigError("cannot validate array values on a non-array field");
    }
    var elems := form.data[field].elems;
    var out: seq<Value> := [];
    var i := 0;
    while i < |elems|
      invariant 0 <= i <= |elems| && |out| == i
      invariant form.data == old(form.data)
      invariant Elements(defs, rule, field, depth, elems, 0, []) == Elements(defs, rule, field, depth, elems, i, out)
    {
      var scratch := new Form(map[field := elems[i]]);
      var step: Result<bool>;
      if depth == 1 {
        step := ApplyRule(defs, rule, field, elems[i], scratch);
      } else {
        step := ValidateRuleInArray(defs, rule, field, depth - 1, scratch);
      }
      if step.ConfigError? {
        return ConfigError(step.reason);
      }
      if !step.value {
        return Ok(false);
      }
      out := out + [scratch.data[field]];
      i := i + 1;
    }
    form.data := form.data[field := Arr(out)];
    return Ok(true);
  }

  // ---------------------------------------------------------------------
  // One field

  /** The names of the rules, in order. */
  function Names(rules: seq<Rule>): (names: seq<string>)
    ensures |names| == |rules| && forall i :: 0 <= i < |rules| ==> names[i] == rules[i].name
  {
    if rules == [] then [] else [rules[0].name] + Names(rules[1..])
  }

  /** `a` is `b` with some entries left out. */
  predicate Sub(a: seq<string>, b: seq<string>)
    decreases |b|
  {
    if b == [] then a == []
    else (a != [] && a[0] == b[0] && Sub(a[1..], b[1..])) || Sub(a, b[1..])
  }

  /** A rule at the field's own level, or on its elements. */
  function ApplyAtDimension(defs: Definitions, rule: Rule, field: string, data: map<string, Value>): (o: Outcome<bool>)
    requires field in data
    ensures OnlyTouches(data, o.form, field)
    ensures o.result != Ok(true) && (rule.dimension >= 1 || NotCustom(defs, rule.name)) ==> o.form == data
  {
    if rule.dimension == 0 then Apply(defs, rule, field, data[field], data)
    else InArray(defs, rule, field, rule.dimension, data)
  }

  /** The rules of a field from the first on, in declared order, after
      `errs` failed: each rule sees the value as the previous ones left it,
      a failing rule adds its name, and a panic stops everything. */
  function RunRules(defs: Definitions, rules: seq<Rule>, field: string, data: map<string, Value>, errs: seq<string>): (o: Outcome<seq<string>>)
    requires field in data
    ensures OnlyTouches(data, o.form, field) && field in o.form
    decreases |rules|
  {
    if rules == [] then Outcome(Ok(errs), data)
    else
      var o := ApplyAtDimension(defs, rules[0], field, data);
      match o.result
      case ConfigError(m) => Outcome(ConfigError(m), o.form)
      case Ok(pass) =>
        var next := if pass then errs else errs + [rules[0].name];
        RunRules(defs, rules[1..], field, o.form, next)
  }

  /** The errors already reported stay in front, and the ones the rules add
      are their names in order, some left out. */
  lemma {:induction false} RunRulesReports(defs: Definitions, rules: seq<Rule>, field: string, data: map<string, Value>, errs: seq<string>)
    requires field in data
    ensures var o := RunRules(defs, rules, field, data, errs);
      o.result.Ok? ==> |errs| <= |o.result.value| && o.result.value[..|errs|] == errs
    ensures var o := RunRules(defs, rules, field, data, errs);
      o.result.Ok? ==> Sub(o.result.value[|errs|..], Names(rules))
    decreases |rules|
  {
    if rules != [] {
      var o := ApplyAtDimension(defs, rules[0], field, data);
      if o.result.Ok? {
        var pass := o.result.value;
        var next := if pass then errs else errs + [rules[0].name];
        RunRulesReports(defs, rules[1..], field, o.form, next);
        var rest := RunRules(defs, rules[1..], field, o.form, next);
        assert RunRules(defs, rules, field, data, errs) == rest;
        assert Names(rules) == [rules[0].name] + Names(rules[1..]);
        if rest.result.Ok? && !pass {
          AfterNote(rest.result.value, errs, rules[0].name);
        }
      }
    }
  }

  /** An error list that starts with `errs` and then `name` keeps `errs` in
      front, and past `errs` it is `name` and the rest. */
  lemma AfterNote(v: seq<string>, errs: seq<string>, name: string)
    requires |errs| + 1 <= |v| && v[..|errs| + 1] == errs + [name]
    ensures v[..|errs|] == errs
    ensures v[|errs|..] == [name] + v[|errs| + 1..]
  {
    assert v[..|errs|] == v[..|errs| + 1][..|errs|];
    assert v[|errs|] == (errs + [name])[|errs|];
  }

  /** At most one error per rule, whatever the number of failing elements:
      the errors of a field are its rules' names in order, some left out. */
  lemma ErrorsAreRuleNames(defs: Definitions, rules: seq<Rule>, field: string, data: map<string, Value>)
    requires field in data
    ensures var o := RunRules(defs, rules, field, data, []);
      o.result.Ok? ==> Sub(o.result.value, Names(rules)) && |o.result.value| <= |rules|
  {
    RunRulesReports(defs, rules, field, data, []);
    var r := RunRules(defs, rules, field, data, []).result;
    if r.Ok? {
      assert r.value[0..] == r.value;
      SubLength(r.value, Names(rules));
    }
  }

  lemma {:induction false} SubLength(a: seq<string>, b: seq<string>)
    requires Sub(a, b)
    ensures |a| <= |b|
    decreases |b|
  {
    if b != [] {
      if a != [] && a[0] == b[0] && Sub(a[1..], b[1..]) {
        SubLength(a[1..], b[1..]);
      } else {
        SubLength(a, b[1..]);
      }
    }
  }

  /** The names of the rules whose verdict is a failure, in declared order. */
  function Failing(rules: seq<Rule>, verdicts: seq<bool>): (names: seq<string>)
    requires |verdicts| == |rules|
    ensures |names| <= |rules|
  {
    if rules == [] then []
    else (if verdicts[0] then [] else [rules[0].name]) + Failing(rules[1..], verdicts[1..])
  }

  /** Rule `i` leaves `data` alone and reaches the verdict `verdicts[i]`. */
  predicate Reaches(defs: Definitions, rules: seq<Rule>, field: string, data: map<string, Value>, verdicts: seq<bool>)
    requires field in data
    decreases |rules|
  {
    |verdicts| == |rules| &&
    (rules != [] ==>
      ApplyAtDimension(defs, rules[0], field, data) == Outcome(Ok(verdicts[0]), data) &&
      Reaches(defs, rules[1..], field, data, verdicts[1..]))
  }

  /** `Reaches` holds exactly when it holds rule by rule. */
  lemma {:induction false} ReachesPointwise(defs: Definitions, rules: seq<Rule>, field: string, data: map<string, Value>, verdicts: seq<bool>)
    requires field in data && |verdicts| == |rules|
    ensures Reaches(defs, rules, field, data, verdicts) <==>
      forall i :: 0 <= i < |rules| ==> ApplyAtDimension(defs, rules[i], field, data) == Outcome(Ok(verdicts[i]), data)
    decreases |rules|
  {
    if rules != [] {
      ReachesPointwise(defs, rules[1..], field, data, verdicts[1..]);
      assert forall i :: 1 <= i < |rules| ==> rules[1..][i - 1] == rules[i] && verdicts[1..][i - 1] == verdicts[i];
    }
  }

  /** Rules that leave the payload alone, rule `i` reaching `verdicts[i]`:
      they add after the earlier errors exactly the names of those that
      fail, in declared order, and leave the payload as it was. */
  lemma {:induction false} RunRulesCollects(defs: Definitions, rules: seq<Rule>, field: string, data: map<string, Value>, errs: seq<string>, verdicts: seq<bool>)
    requires field in data && Reaches(defs, rules, field, data, verdicts)
    ensures RunRules(defs, rules, field, data, errs) == Outcome(Ok(errs + Failing(rules, verdicts)), data)
    decreases |rules|
  {
    if rules == [] {
      assert errs + [] == errs;
    } else {
      RunRulesStep(defs, rules, field, data, errs);
      var next := if verdicts[0] then errs else errs + [rules[0].name];
      RunRulesCollects(defs, rules[1..], field, data, next, verdicts[1..]);
      var tail := Failing(rules[1..], verdicts[1..]);
      if verdicts[0] {
        assert Failing(rules, verdicts) == [] + tail == tail;
      } else {
        assert Failing(rules, verdicts) == [rules[0].name] + tail;
        Regroup(errs, rules[0].name, tail);
      }
    }
  }

  lemma Regroup(errs: seq<string>, name: string, tail: seq<string>)
    ensures errs + ([name] + tail) == (errs + [name]) + tail
  {
  }

  /** A single element rule that fails reports exactly one error. */
  lemma OneErrorPerRule(defs: Definitions, rule: Rule, field: string, data: map<string, Value>)
    requires field in data && rule.dimension >= 1
    requires InArray(defs, rule, field, rule.dimension, data).result == Ok(false)
    ensures RunRules(defs, [rule], field, data, []) == Outcome(Ok([rule.name]), data)
  {
    assert [rule][1..] == [];
    RunRulesStep(defs, [rule], field, data, []);
    assert ApplyAtDimension(defs, rule, field, data).form == data;
    assert [] + [rule.name] == [rule.name];
  }

  /** The payload once nil and single values are dealt with: a nil value of
      a field that is not nullable is removed, and outside JSON a single
      value of an array field becomes a one-element array. */
  function Prepare(view: FieldView, field: string, isJSON: bool, data: map<string, Value>): map<string, Value> {
    if field in data && data[field] == Nil && !view.isNullable then data - {field}
    else if field in data && data[field] != Nil && !isJSON && view.isArray && !data[field].Arr? then data[field := Arr([data[field]])]
    else data
  }

  /** Preparing a field removes it exactly when it holds nil and is not
      nullable, wraps a single non-nil value of an array field outside
      JSON, and otherwise keeps its value; no other field changes. */
  lemma PrepareShape(view: FieldView, field: string, isJSON: bool, data: map<string, Value>)
    ensures var p := Prepare(view, field, isJSON, data);
      OthersKept(data, p, field) &&
      (field in p <==> field in data && (data[field] != Nil || view.isNullable))
    ensures var p := Prepare(view, field, isJSON, data);
      field in p && data[field] != Nil && !isJSON && view.isArray && !data[field].Arr? ==> p[field] == Arr([data[field]])
    ensures var p := Prepare(view, field, isJSON, data);
      field in p && !(data[field] != Nil && !isJSON && view.isArray && !data[field].Arr?) ==> p[field] == data[field]
  {
  }

  /** Only the field's own entry differs (or is gone). */
  predicate OthersKept(before: map<string, Value>, after: map<string, Value>, field: string) {
    && (forall k :: k in before && k != field ==> k in after && after[k] == before[k])
    && (forall k :: k in after && k != field ==> k in before)
  }

  /** One field: absent (or removed nil), it reports `required` when
      required and nothing otherwise; nil and nullable, it is left alone;
      otherwise its rules run in order. */
  function CheckField(defs: Definitions, view: FieldView, field: string, isJSON: bool, data: map<string, Value>): (o: Outcome<seq<string>>)
    ensures OthersKept(data, o.form, field)
    ensures field !in data ==> o == Outcome(Ok(if view.isRequired then ["required"] else []), data)
    ensures field in data && data[field] == Nil && view.isNullable ==> o == Outcome(Ok([]), data)
    ensures field in data && data[field] == Nil && !view.isNullable ==>
      o == Outcome(Ok(if view.isRequired then ["required"] else []), data - {field})
  {
    var prepared := Prepare(view, field, isJSON, data);
    if field !in prepared then Outcome(Ok(if view.isRequired then ["required"] else []), prepared)
    else if prepared[field] == Nil then Outcome(Ok([]), prepared)
    else RunRules(defs, view.rules, field, prepared, [])
  }

  /** A present, non-nil field stays once prepared (wrapped if need be),
      and its rules run on it in declared order. */
  lemma CheckFieldRuns(defs: Definitions, view: FieldView, field: string, isJSON: bool, data: map<string, Value>)
    requires field in data && data[field] != Nil
    ensures var p := Prepare(view, field, isJSON, data);
      field in p && p[field] != Nil && CheckField(defs, view, field, isJSON, data) == RunRules(defs, view.rules, field, p, [])
  {
  }

  /** A present, non-nil field whose rules leave the prepared payload
      alone, rule `i` reaching `verdicts[i]`: its errors are the names of
      the failing rules, in declared order. */
  lemma CheckFieldCollects(defs: Definitions, view: FieldView, field: string, isJSON: bool, data: map<string, Value>, verdicts: seq<bool>)
    requires field in data && data[field] != Nil
    requires var p := Prepare(view, field, isJSON, data);
      field in p && Reaches(defs, view.rules, field, p, verdicts)
    ensures var p := Prepare(view, field, isJSON, data);
      CheckField(defs, view, field, isJSON, data) == Outcome(Ok(Failing(view.rules, verdicts)), p)
  {
    var p := Prepare(view, field, isJSON, data);
    CheckFieldRuns(defs, view, field, isJSON, data);
    RunRulesCollects(defs, view.rules, field, p, [], verdicts);
    assert [] + Failing(view.rules, verdicts) == Failing(view.rules, verdicts);
  }

  /** A rule at the field's own level or on its elements, the payload
      updated in place. */
  method ValidateAtDimension(defs: Definitions, rule: Rule, field: string, form: Form) returns (r: Result<bool>)
    requires field in form.data
    modifies form
    ensures Outcome(r, form.data) == ApplyAtDimension(defs, rule, field, old(form.data))
  {
    if rule.dimension == 0 {
      r := ApplyRule(defs, rule, field, form.data[field], form);
    } else {
      r := ValidateRuleInArray(defs, rule, field, rule.dimension, form);
    }
  }

  /** One step of the rule loop. */
  lemma RunRulesStep(defs: Definitions, rules: seq<Rule>, field: string, data: map<string, Value>, errs: seq<string>)
    requires field in data && rules != []
    ensures var o := ApplyAtDimension(defs, rules[0], field, data);
      o.result.ConfigError? ==> RunRules(defs, rules, field, data, errs) == Outcome(ConfigError(o.result.reason), o.form)
    ensures var o := ApplyAtDimension(defs, rules[0], field, data);
      o.result.Ok? ==> field in o.form
    ensures var o := ApplyAtDimension(defs, rules[0], field, data);
      o.result.Ok? ==> RunRules(defs, rules, field, data, errs) == RunRules(defs, rules[1..], field, o.form, if o.result.value then errs else errs + [rules[0].name])
  {
  }

  /** The rules of a field in declared order, the payload updated in place. */
  method ValidateRules(defs: Definitions, rules: seq<Rule>, field: string, form: Form) returns (r: Result<seq<string>>)
    requires field in form.data
    modifies form
    ensures Outcome(r, form.data) == RunRules(defs, rules, field, old(form.data), [])
  {
    var errs: seq<string> := [];
    var i := 0;
    while i < |rules|
      invariant 0 <= i <= |rules| && field in form.data
      invariant RunRules(defs, rules, field, old(form.data), []) == RunRules(defs, rules[i..], field, form.data, errs)
    {
      var rule := rules[i];
      assert rules[i..][0] == rule && rules[i..][1..] == rules[i + 1..];
      RunRulesStep(defs, rules[i..], field, form.data, errs);
      var step := ValidateAtDimension(defs, rule, field, form);
      if step.ConfigError? {
        return ConfigError(step.reason);
      }
      if !step.value {
        errs := errs + [rule.name];
      }
      i := i + 1;
    }
    return Ok(errs);
  }

  /** Validating one field, the payload updated in place. */
  method ValidateField(defs: Definitions, view: FieldView, field: string, isJSON: bool, form: Form) returns (r: Result<seq<string>>)
    modifies form
    ensures Outcome(r, form.data) == CheckField(defs, view, field, isJSON, old(form.data))
  {
    form.data := Prepare(view, field, isJSON, form.data);
    if field !in form.data {
      return Ok(if view.isRequired then ["required"] else []);
    }
    if form.data[field] == Nil {
      return Ok([]);
    }
    r := ValidateRules(defs, view.rules, field, form);
  }

  // ---------------------------------------------------------------------
  // The payload

  /** No field name occurs twice. */
  predicate NoRepeats(order: seq<string>) {
    forall i, j :: 0 <= i < j < |order| ==> order[i] != order[j]
  }

  /** The fields from the first of `order` on, after `errors` collected the
      earlier ones: a field with errors gets an entry, a field without
      none, and a panic stops everything. */
  function CheckFields(defs: Definitions, views: map<string, FieldView>, order: seq<string>, isJSON: bool, data: map<string, Value>, errors: Errors): (o: Outcome<Errors>)
    requires forall i :: 0 <= i < |order| ==> order[i] in views
    ensures o.result.Ok? ==> forall k :: k in o.result.value ==> k in errors || k in order
    ensures o.result.Ok? && (forall k :: k in errors ==> errors[k] != []) ==> forall k :: k in o.result.value ==> o.result.value[k] != []
    ensures forall k :: k !in order ==> (k in o.form <==> k in data) && (k in data ==> o.form[k] == data[k])
    decreases |order|
  {
    if order == [] then Outcome(Ok(errors), data)
    else
      var field := order[0];
      var f := CheckField(defs, views[field], field, isJSON, data);
      match f.result
      case ConfigError(m) => Outcome(ConfigError(m), f.form)
      case Ok(errs) =>
        var next := if errs == [] then errors else errors[field := errs];
        assert (forall k :: k in errors ==> errors[k] != []) ==> forall k :: k in next ==> next[k] != [];
        assert forall k :: k in next ==> k in errors || k in order;
        CheckFields(defs, views, order[1..], isJSON, f.form, next)
  }

  /** The entries of `reports` for the fields of `order` that report errors. */
  function NonEmpty(reports: map<string, seq<string>>, order: seq<string>): (errors: Errors)
    ensures forall k :: k in errors <==> k in order && k in reports && reports[k] != []
    ensures forall k :: k in errors ==> errors[k] == reports[k]
  {
    map k | k in order && k in reports && reports[k] != [] :: reports[k]
  }

  /** One field more in front of `order`: its entry, if any, goes in first. */
  lemma NonEmptyStep(reports: map<string, seq<string>>, order: seq<string>, errors: Errors)
    requires order != [] && order[0] in reports
    ensures var e := reports[order[0]];
      errors + NonEmpty(reports, order) == (if e == [] then errors else errors[order[0] := e]) + NonEmpty(reports, order[1..])
  {
    assert forall k :: k in order <==> k == order[0] || k in order[1..];
    var e := reports[order[0]];
    var a := errors + NonEmpty(reports, order);
    var b := (if e == [] then errors else errors[order[0] := e]) + NonEmpty(reports, order[1..]);
    assert a.Keys == b.Keys;
    assert forall k :: k in a ==> a[k] == b[k];
    MapsAgree(a, b);
  }

  /** Fields that leave the payload alone and do not panic, field `k`
      reporting `reports[k]`: validation adds to the earlier errors exactly
      one entry per field that reports errors, holding those errors, and
      leaves the payload as it was. */
  lemma {:induction false} CheckFieldsCollects(defs: Definitions, views: map<string, FieldView>, order: seq<string>, isJSON: bool, data: map<string, Value>, errors: Errors, reports: map<string, seq<string>>)
    requires forall k :: k in order ==> k in views && k in reports
    requires forall k :: k in order ==> CheckField(defs, views[k], k, isJSON, data) == Outcome(Ok(reports[k]), data)
    ensures CheckFields(defs, views, order, isJSON, data, errors) == Outcome(Ok(errors + NonEmpty(reports, order)), data)
    decreases |order|
  {
    if order == [] {
      assert NonEmpty(reports, order) == map[];
      assert errors + map[] == errors;
    } else {
      var field := order[0];
      var e := reports[field];
      var next := if e == [] then errors else errors[field := e];
      assert forall k :: k in order[1..] ==> k in order;
      CheckFieldsCollects(defs, views, order[1..], isJSON, data, next, reports);
      NonEmptyStep(reports, order, errors);
    }
  }

  /** On a payload every field leaves alone, field `k` reporting
      `reports[k]`: a field gets an entry exactly when it reports errors,
      and the entry holds those errors. */
  lemma EntryIffErrors(defs: Definitions, views: map<string, FieldView>, order: seq<string>, isJSON: bool, data: map<string, Value>, reports: map<string, seq<string>>)
    requires forall k :: k in order ==> k in views && k in reports
    requires forall k :: k in order ==> CheckField(defs, views[k], k, isJSON, data) == Outcome(Ok(reports[k]), data)
    ensures var o := CheckFields(defs, views, order, isJSON, data, map[]);
      o.result.Ok? && o.form == data &&
      (forall k :: k in o.result.value <==> k in order && reports[k] != []) &&
      (forall k :: k in o.result.value ==> o.result.value[k] == reports[k])
  {
    CheckFieldsCollects(defs, views, order, isJSON, data, map[], reports);
    assert map[] + NonEmpty(reports, order) == NonEmpty(reports, order);
  }

  /** Validating the fields of `order`, the payload updated in place. */
  method ValidateFields(defs: Definitions, views: map<string, FieldView>, order: seq<string>, isJSON: bool, form: Form) returns (r: Result<Errors>)
    requires forall i :: 0 <= i < |order| ==> order[i] in views
    modifies form
    ensures Outcome(r, form.data) == CheckFields(defs, views, order, isJSON, old(form.data), map[])
  {
    var errors: Errors := map[];
    var i := 0;
    while i < |order|
      invariant 0 <= i <= |order|
      invariant CheckFields(defs, views, order, isJSON, old(form.data), map[]) == CheckFields(defs, views, order[i..], isJSON, form.data, errors)
    {
      var field := order[i];
      assert order[i..][0] == field && order[i..][1..] == order[i + 1..];
      var errs := ValidateField(defs, views[field], field, isJSON, form);
      if errs.ConfigError? {
        return ConfigError(errs.reason);
      }
      if errs.value != [] {
        errors := errors[field := errs.value];
      }
      i := i + 1;
    }
    return Ok(errors);
  }

  /** The single error of a payload that could not be decoded at all. */
  function Malformed(isJSON: bool): Errors {
    map["error" := [if isJSON then "Malformed JSON" else "Malformed request"]]
  }

  /** Validating against a prebuilt rule set, checked first unless it
      already is. */
  method ValidatePrebuilt(defs: Definitions, data: Form, rules: Rules, isJSON: bool, order: seq<string>) returns (r: Result<Errors>)
    requires forall k :: k in order <==> k in rules.fields
    modifies data, rules, rules.fields.Values
    ensures rules.fields == old(rules.fields)
    ensures rules.checked <==> old(rules.checked) || old(rules.AllLegal(defs))
    ensures old(rules.checked) ==> unchanged(rules.fields.Values) && rules.Views() == old(rules.Views())
    ensures !old(rules.checked) && old(rules.AllLegal(defs)) ==> rules.Views() == RaiseAll(old(rules.Views()))
    ensures !old(rules.checked) && !old(rules.AllLegal(defs)) ==> r.ConfigError? && data.data == old(data.data)
    ensures old(rules.checked) ==>
      Outcome(r, data.data) == CheckFields(defs, old(rules.Views()), order, isJSON, old(data.data), map[])
    ensures !old(rules.checked) && old(rules.AllLegal(defs)) ==>
      Outcome(r, data.data) == CheckFields(defs, RaiseAll(old(rules.Views())), order, isJSON, old(data.data), map[])
  {
    var checked := rules.EnsureChecked(defs);
    if checked.ConfigError? {
      return ConfigError(checked.reason);
    }
    var views := rules.Views();
    r := ValidateFields(defs, views, order, isJSON, data);
    assert rules.Views() == views;
  }

  /** Validating against a textual rule set, parsed and checked first. */
  method ValidateTextual(defs: Definitions, data: Form, ruleSet: map<string, seq<string>>, isJSON: bool, order: seq<string>) returns (r: Result<Errors>)
    requires forall k :: k in order <==> k in ruleSet
    modifies data
    ensures !TextualLegal(defs, ruleSet) ==> r.ConfigError? && data.data == old(data.data)
    ensures TextualLegal(defs, ruleSet) ==>
      Outcome(r, data.data) == CheckFields(defs, DeriveAll(ParseSet(ruleSet).value), order, isJSON, old(data.data), map[])
  {
    var rules := AsRules(defs, Textual(ruleSet));
    if rules.ConfigError? {
      return ConfigError(rules.reason);
    }
    r := ValidateFields(defs, rules.value.Views(), order, isJSON, data);
  }

  /** `Validate`: a nil payload yields the malformed-payload error whatever
      the rules; otherwise the rules are checked (once, for a prebuilt rule
      set; after parsing, for a textual one) and every field is validated in
      `order` (the order the source's map iteration takes). */
  method Validate(defs: Definitions, data: Form?, source: RuleSource, isJSON: bool, order: seq<string>) returns (r: Result<Errors>)
    requires NoRepeats(order)
    requires source.Prebuilt? ==> forall k :: k in order <==> k in source.rules.fields
    requires source.Textual? ==> forall k :: k in order <==> k in source.ruleSet
    modifies data
    modifies if source.Prebuilt? then {source.rules} else {}
    modifies if source.Prebuilt? then source.rules.fields.Values else {}
    ensures data == null ==> r == Ok(Malformed(isJSON))
    ensures data != null && source.Textual? && !TextualLegal(defs, source.ruleSet) ==>
      r.ConfigError? && data.data == old(data.data)
    ensures data != null && source.Textual? && TextualLegal(defs, source.ruleSet) ==>
      Outcome(r, data.data) == CheckFields(defs, DeriveAll(ParseSet(source.ruleSet).value), order, isJSON, old(data.data), map[])
    ensures source.Prebuilt? ==> source.rules.fields == old(source.rules.fields)
    ensures data == null && source.Prebuilt? ==> unchanged(source.rules) && unchanged(source.rules.fields.Values)
    ensures data != null && source.Prebuilt? ==>
      (source.rules.checked <==> old(source.rules.checked) || old(source.rules.AllLegal(defs)))
    ensures data != null && source.Prebuilt? && old(source.rules.checked) ==>
      unchanged(source.rules.fields.Values) && source.rules.Views() == old(source.rules.Views())
    ensures data != null && source.Prebuilt? && !old(source.rules.checked) && old(source.rules.AllLegal(defs)) ==>
      source.rules.Views() == RaiseAll(old(source.rules.Views()))
    ensures data != null && source.Prebuilt? && !old(source.rules.checked) && !old(source.rules.AllLegal(defs)) ==>
      r.ConfigError? && data.data == old(data.data)
    ensures data != null && source.Prebuilt? && old(source.rules.checked) ==>
      Outcome(r, data.data) == CheckFields(defs, old(source.rules.Views()), order, isJSON, old(data.data), map[])
    ensures data != null && source.Prebuilt? && !old(source.rules.checked) && old(source.rules.AllLegal(defs)) ==>
      Outcome(r, data.data) == CheckFields(defs, RaiseAll(old(source.rules.Views())), order, isJSON, old(data.data), map[])
  {
    if data == null {
      return Ok(Malformed(isJSON));
    }
    match source
    case Prebuilt(rules) =>
      r := ValidatePrebuilt(defs, data, rules, isJSON, order);
    case Textual(ruleSet) =>
      r := ValidateTextual(defs, data, ruleSet, isJSON, order);
  }
}
