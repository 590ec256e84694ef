/**
 * The rule registry: rule names mapped to their definitions, the built-in
 * table, registration of new rules, and applying a parsed rule by name.
 */
module Registry {
  import opened Values
  import opened RuleLib
  import opened Syntax

  /** A user rule: field name, value, parameters and form to a verdict and
      the value the rule leaves in its field (the value itself when the
      rule does not rewrite it). */
  type RuleFunction = (string, Value, seq<string>, map<string, Value>) -> (bool, Value)

  /** The built-in rules this model implements. */
  datatype Builtin =
    | RequiredRule | NullableRule
    | MinRule | MaxRule | BetweenRule | CompareRule(op: Comparison)
    | NumericRule | IntegerRule | StringRule | ArrayRule | DistinctRule

  datatype Implementation = Builtin(kind: Builtin) | Custom(fn: RuleFunction)

  /** `RuleDefinition`: the function and its metadata. */
  datatype RuleDefinition = RuleDefinition(impl: Implementation, isTypeDependent: bool, isArrayComparable: bool)

  type Definitions = map<string, RuleDefinition>

  /** The rules that make no sense on array elements. */
  const ArrayProhibited: set<string> :=
    {"confirmed", "file", "mime", "image", "extension", "count", "count_min", "count_max", "count_between"}

  /** Registered names whose functions are not part of this model; the
      registry receives them as parameters. */
  const Outside: set<string> := {"email", "uuid"} + ArrayProhibited

  function Plain(kind: Builtin): RuleDefinition {
    RuleDefinition(Builtin(kind), false, true)
  }

  function Sized(kind: Builtin): RuleDefinition {
    RuleDefinition(Builtin(kind), true, true)
  }

  function Given(fn: RuleFunction, arrayComparable: bool): RuleDefinition {
    RuleDefinition(Custom(fn), false, arrayComparable)
  }

  /** The rules implemented in this model, all usable on array elements. */
  function Core(): (defs: Definitions)
    ensures forall name :: name in defs ==> defs[name].impl.Builtin? && defs[name].isArrayComparable
  {
    map[
      "required" := Plain(RequiredRule),
      "nullable" := Plain(NullableRule),
      "min" := Sized(MinRule),
      "max" := Sized(MaxRule),
      "between" := Sized(BetweenRule),
      "greater_than" := Sized(CompareRule(Greater)),
      "greater_than_equal" := Sized(CompareRule(GreaterOrEqual)),
      "lower_than" := Sized(CompareRule(Lower)),
      "lower_than_equal" := Sized(CompareRule(LowerOrEqual)),
      "numeric" := Plain(NumericRule),
      "integer" := Plain(IntegerRule),
      "string" := Plain(StringRule),
      "array" := Plain(ArrayRule),
      "distinct" := Plain(DistinctRule)
    ]
  }

  /** The registered rules whose functions lie outside this model, given
      by `outside`; only the array-prohibited ones refuse array elements. */
  function Outer(outside: string -> RuleFunction): (defs: Definitions)
    ensures defs.Keys == Outside
    ensures forall name :: name in defs ==> defs[name] == Given(outside(name), name !in ArrayProhibited)
  {
    map name | name in Outside :: Given(outside(name), name !in ArrayProhibited)
  }

  /** The built-in registry. */
  function Builtins(outside: string -> RuleFunction): (defs: Definitions)
    ensures forall name :: name in ArrayProhibited ==> name in defs && !defs[name].isArrayComparable
    ensures forall name :: name in defs && !defs[name].isArrayComparable ==> name in ArrayProhibited
    ensures forall name :: name in Outside ==> name in defs && defs[name].impl == Custom(outside(name))
  {
    Core() + Outer(outside)
  }

  /** True when `name` is registered as the built-in `kind`. */
  predicate Is(defs: Definitions, name: string, kind: Builtin) {
    name in defs && defs[name].impl.Builtin? && defs[name].impl.kind == kind
  }

  /** `name` is not registered as a rule given from outside this model. */
  predicate NotCustom(defs: Definitions, name: string) {
    name in defs ==> defs[name].impl.Builtin?
  }

  /** Applies `rule` by name to `value` in `form`. An unregistered name is a
      panic (a nil definition in the source). */
  function Apply(defs: Definitions, rule: Rule, field: string, value: Value, form: map<string, Value>): (o: Outcome<bool>)
    ensures rule.name !in defs ==> o.result.ConfigError?
    ensures OnlyTouches(form, o.form, field)
    ensures o.result != Ok(true) && NotCustom(defs, rule.name) ==> o.form == form
  {
    if rule.name !in defs then Outcome(ConfigError("unregistered rule"), form)
    else match defs[rule.name].impl
      case Custom(fn) =>
        var (pass, v) := fn(field, value, rule.params, form);
        Outcome(Ok(pass), form[field := v])
      case Builtin(kind) =>
        match kind
        case RequiredRule => Outcome(Ok(Required(field, form)), form)
        case NullableRule => Outcome(Ok(true), form)
        case MinRule => Outcome(Min(value, rule.params), form)
        case MaxRule => Outcome(Max(value, rule.params), form)
        case BetweenRule => Outcome(Between(value, rule.params), form)
        case CompareRule(op) => Outcome(CrossCompare(op, value, rule.params, form), form)
        case NumericRule => Numeric(field, value, form)
        case IntegerRule => Integer(field, value, form)
        case StringRule => Outcome(Ok(IsString(value)), form)
        case ArrayRule => RuleLib.ArrayRule(field, value, rule.params, form)
        case DistinctRule => Outcome(Distinct(value), form)
  }

  /** `numeric` written as a rule from outside: the verdict, and the value
      `numeric` leaves in the field. */
  function NumericAsCustom(): RuleFunction {
    (f, v, p, m) =>
      var o := Numeric(f, v, m);
      (o.result == Ok(true), if f in o.form then o.form[f] else v)
  }

  /** A rule registered from outside may rewrite the value it validates:
      registered under any name, `NumericAsCustom` does exactly what the
      built-in `numeric` does to a field that is present. */
  lemma CustomRuleRewrites(defs: Definitions, rule: Rule, field: string, form: map<string, Value>)
    requires rule.name in defs && defs[rule.name].impl == Custom(NumericAsCustom())
    requires field in form
    ensures Apply(defs, rule, field, form[field], form) == Numeric(field, form[field], form)
  {
    var o := Numeric(field, form[field], form);
    assert field in o.form;
    if o.form == form {
      assert form[field := form[field]] == form;
    }
  }

  /** Applies `rule`, letting the coercing rules update `form` in place. */
  method ApplyRule(defs: Definitions, rule: Rule, field: string, value: Value, form: Form) returns (r: Result<bool>)
    modifies form
    ensures Outcome(r, form.data) == Apply(defs, rule, field, value, old(form.data))
  {
    if rule.name !in defs {
      return ConfigError("unregistered rule");
    }
    match defs[rule.name].impl
    case Custom(fn) =>
      var (pass, v) := fn(field, value, rule.params, form.data);
      form.data := form.data[field := v];
      r := Ok(pass);
    case Builtin(kind) =>
      match kind
      case NumericRule =>
        var ok := ValidateNumeric(field, value, form);
        r := Ok(ok);
      case IntegerRule =>
        var ok := ValidateInteger(field, value, form);
        r := Ok(ok);
      case DistinctRule =>
        r := ValidateDistinct(value);
      case ArrayRule =>
        var o := RuleLib.ArrayRule(field, value, rule.params, form.data);
        form.data := o.form;
        r := o.result;
      case _ =>
        r := Apply(defs, rule, field, value, form.data).result;
  }

  /** The process-wide registry (a single writer is assumed). */
  class RuleRegistry {
    var definitions: Definitions

    constructor (outside: string -> RuleFunction)
      ensures definitions == Builtins(outside)
    {
      definitions := Builtins(outside);
    }

    /** `AddRule`: registering a name twice is a panic. */
    method AddRule(name: string, definition: RuleDefinition) returns (r: Result<()>)
      modifies this
      ensures name in old(definitions) ==> r.ConfigError? && definitions == old(definitions)
      ensures name !in old(definitions) ==> r.Ok? && definitions == old(definitions)[name := definition]
    {
      if name in definitions {
        return ConfigError("rule already exists");
      }
      definitions := definitions[name := definition];
      return Ok(());
    }
  }

  /** Registering `required` again fails; a new name becomes registered. */
  method AddRuleScenario() returns (again: Result<()>, added: Result<()>, present: bool)
    ensures again.ConfigError? && added.Ok? && present
  {
    var outside: string -> RuleFunction := name => (f, v, p, m) => (false, v);
    var registry := new RuleRegistry(outside);
    RequiredRegistered();
    NewRuleUnregistered();
    again := registry.AddRule("required", RuleDefinition(Custom((f, v, p, m) => (false, v)), false, true));
    added := registry.AddRule("new_rule", RuleDefinition(Custom((f, v, p, m) => (true, v)), false, true));
    present := "new_rule" in registry.definitions;
  }

  lemma RequiredRegistered()
    ensures "required" in Core()
  {
  }

  lemma NewRuleUnregistered()
    ensures "new_rule" !in Core() && "new_rule" !in Outside
  {
    assert "new_rule"[0] != "required"[0];
  }
}
