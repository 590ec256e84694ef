/**
 * Fields and rule sets: a field's ordered rules and the flags its check pass
 * derives from them, the one-shot checked latch of a rule set, and the
 * textual rule set parsed into a checked one.
 */
module Fields {
  import opened Values
  import opened Syntax
  import opened Registry

  /** What the engine reads of a field: its rules and its three flags. */
  datatype FieldView = FieldView(rules: seq<Rule>, isRequired: bool, isArray: bool, isNullable: bool)

  /** Some rule among the first `n` is `name` at the field's own level. */
  predicate TopBefore(rules: seq<Rule>, n: nat, name: string)
    requires n <= |rules|
  {
    exists j :: 0 <= j < n && rules[j].name == name && rules[j].dimension == 0
  }

  /** Some rule among the first `n` is `name`, at any dimension. */
  predicate AnyBefore(rules: seq<Rule>, n: nat, name: string)
    requires n <= |rules|
  {
    exists j :: 0 <= j < n && rules[j].name == name
  }

  /** A rule the check pass accepts: registered, and allowed on array
      elements when it carries a dimension. */
  predicate Legal(defs: Definitions, rule: Rule) {
    rule.name in defs && (rule.dimension > 0 ==> defs[rule.name].isArrayComparable)
  }

  /** The check of a field's rules, as a value: the first illegal rule is a
      panic. */
  function CheckRules(defs: Definitions, rules: seq<Rule>): (r: Result<()>)
    ensures r.Ok? <==> forall i :: 0 <= i < |rules| ==> Legal(defs, rules[i])
  {
    if rules == [] then Ok(())
    else if !Legal(defs, rules[0]) then ConfigError("illegal rule")
    else
      var rest := CheckRules(defs, rules[1..]);
      assert forall i :: 1 <= i < |rules| ==> rules[i] == rules[1..][i - 1];
      rest
  }

  /** Past a prefix of legal rules, the check is decided by the rest. */
  lemma {:induction false} CheckRulesSkip(defs: Definitions, rules: seq<Rule>, i: nat)
    requires i <= |rules|
    requires forall j :: 0 <= j < i ==> Legal(defs, rules[j])
    ensures CheckRules(defs, rules) == CheckRules(defs, rules[i..])
  {
    if i > 0 {
      CheckRulesSkip(defs, rules[1..], i - 1);
      assert rules[1..][i - 1..] == rules[i..];
    }
  }

  /** The flags after a check pass: each one raised when its rule occurs. */
  function Raise(v: FieldView): FieldView {
    FieldView(v.rules,
      v.isRequired || TopBefore(v.rules, |v.rules|, "required"),
      v.isArray || TopBefore(v.rules, |v.rules|, "array"),
      v.isNullable || AnyBefore(v.rules, |v.rules|, "nullable"))
  }

  /** Every field's flags raised. */
  function RaiseAll(views: map<string, FieldView>): (raised: map<string, FieldView>)
    ensures raised.Keys == views.Keys
    ensures forall name :: name in views ==> raised[name] == Raise(views[name])
  {
    map name | name in views :: Raise(views[name])
  }

  /** The flags a fresh field gets from its rules. */
  function Derive(rules: seq<Rule>): (v: FieldView)
    ensures v.rules == rules
    ensures v.isRequired <==> exists j :: 0 <= j < |rules| && rules[j].name == "required" && rules[j].dimension == 0
    ensures v.isArray <==> exists j :: 0 <= j < |rules| && rules[j].name == "array" && rules[j].dimension == 0
    ensures v.isNullable <==> exists j :: 0 <= j < |rules| && rules[j].name == "nullable"
  {
    Raise(FieldView(rules, false, false, false))
  }

  /** A field: its rules and the flags `check` sets. */
  class Field {
    var rules: seq<Rule>
    var isRequired: bool
    var isArray: bool
    var isNullable: bool

    constructor (rules: seq<Rule>)
      ensures this.rules == rules && !isRequired && !isArray && !isNullable
    {
      this.rules := rules;
      isRequired := false;
      isArray := false;
      isNullable := false;
    }

    function View(): FieldView
      reads this
    {
      FieldView(rules, isRequired, isArray, isNullable)
    }

    /** `check`: walks the rules in order, raising each flag whose rule it
        meets and stopping at the first unregistered or array-prohibited
        rule. The rules themselves are left alone. */
    method Check(defs: Definitions) returns (r: Result<()>)
      modifies this
      ensures rules == old(rules)
      ensures r == CheckRules(defs, rules)
      ensures r.Ok? ==> View() == Raise(old(View()))
    {
      var i := 0;
      while i < |rules|
        invariant 0 <= i <= |rules| && rules == old(rules)
        invariant forall j :: 0 <= j < i ==> Legal(defs, rules[j])
        invariant isRequired == (old(isRequired) || TopBefore(rules, i, "required"))
        invariant isArray == (old(isArray) || TopBefore(rules, i, "array"))
        invariant isNullable == (old(isNullable) || AnyBefore(rules, i, "nullable"))
      {
        var rule := rules[i];
        if rule.dimension == 0 && rule.name == "required" {
          isRequired := true;
        }
        if rule.dimension == 0 && rule.name == "array" {
          isArray := true;
        }
        if rule.name == "nullable" {
          isNullable := true;
        }
        if !Legal(defs, rule) {
          CheckRulesSkip(defs, rules, i);
          return ConfigError("illegal rule");
        }
        i := i + 1;
      }
      CheckRulesSkip(defs, rules, i);
      return Ok(());
    }
  }

  /** A rule set: the fields by name and the checked latch. */
  class Rules {
    var fields: map<string, Field>
    var checked: bool

    constructor (fields: map<string, Field>)
      ensures this.fields == fields && !checked
    {
      this.fields := fields;
      checked := false;
    }

    function Views(): map<string, FieldView>
      reads this, fields.Values
    {
      map name | name in fields :: fields[name].View()
    }

    /** Every field's rules pass the check pass. */
    predicate AllLegal(defs: Definitions)
      reads this, fields.Values
    {
      forall name :: name in fields ==> CheckRules(defs, fields[name].rules).Ok?
    }

    /** `check`: the first call checks every field and closes the latch;
        once closed, later calls do nothing whatever the fields hold now. */
    method Check(defs: Definitions) returns (r: Result<()>)
      modifies this, fields.Values
      ensures fields == old(fields)
      ensures forall name :: name in fields ==> fields[name].rules == old(fields[name].rules)
      ensures old(checked) ==> r == Ok(()) && checked && unchanged(fields.Values)
      ensures !old(checked) ==> (r.Ok? <==> AllLegal(defs))
      ensures !old(checked) ==> checked == r.Ok?
      ensures !old(checked) && r.Ok? ==> forall name :: name in fields ==> fields[name].View() == Raise(old(fields[name].View()))
    {
      if checked {
        return Ok(());
      }
      r := CheckEach(defs);
      if r.Ok? {
        checked := true;
      }
    }

    /** `check` as validation uses it: it succeeds iff the rule set was
        already checked or all its rules are legal; the latch is then
        closed, and the field views are the old ones when it was already
        closed and the old ones with their flags raised otherwise. */
    method EnsureChecked(defs: Definitions) returns (r: Result<()>)
      modifies this, fields.Values
      ensures fields == old(fields)
      ensures forall name :: name in fields ==> fields[name].rules == old(fields[name].rules)
      ensures r.Ok? <==> old(checked) || old(AllLegal(defs))
      ensures checked <==> r.Ok?
      ensures old(checked) ==> unchanged(fields.Values) && Views() == old(Views())
      ensures !old(checked) && r.Ok? ==> Views() == RaiseAll(old(Views()))
    {
      ghost var before := Views();
      r := Check(defs);
      if r.Ok? && !old(checked) {
        MapsAgree(Views(), RaiseAll(before));
      }
    }

    /** Every field checked in turn, stopping at the first that fails. */
    method CheckEach(defs: Definitions) returns (r: Result<()>)
      modifies fields.Values
      ensures forall name :: name in fields ==> fields[name].rules == old(fields[name].rules)
      ensures r.Ok? <==> AllLegal(defs)
      ensures r.Ok? ==> forall name :: name in fields ==> fields[name].View() == Raise(old(fields[name].View()))
    {
      var todo := fields.Keys;
      ghost var done: set<Field> := {};
      while todo != {}
        invariant todo <= fields.Keys && done <= fields.Values
        invariant forall f :: f in fields.Values ==> f.rules == old(f.rules)
        invariant forall name :: name in fields && name !in todo ==> fields[name] in done
        invariant forall f :: f in done ==> CheckRules(defs, f.rules).Ok?
        invariant forall f :: f in done ==> f.View() == Raise(old(f.View()))
        invariant forall f :: f in fields.Values && f !in done ==> f.View() == old(f.View())
        decreases todo
      {
        var name :| name in todo;
        var field := fields[name];
        var ok := field.Check(defs);
        if ok.ConfigError? {
          return ok;
        }
        done := done + {field};
        todo := todo - {name};
      }
      return Ok(());
    }
  }

  /** The rules of every field of a textual rule set, parsed in order; a
      malformed token anywhere is a panic. */
  function ParseAll(tokens: seq<string>): (r: Result<seq<Rule>>)
    ensures r.Ok? ==> |r.value| == |tokens|
  {
    if tokens == [] then Ok([])
    else
      match ParseRule(tokens[0])
      case ConfigError(e) => ConfigError(e)
      case Ok(rule) =>
        match ParseAll(tokens[1..])
        case ConfigError(e) => ConfigError(e)
        case Ok(rest) => Ok([rule] + rest)
  }

  /** The list parses exactly when every token does, and then holds each
      token's rule at the token's position. */
  lemma {:induction false} ParseAllPointwise(tokens: seq<string>)
    ensures ParseAll(tokens).Ok? <==> forall i :: 0 <= i < |tokens| ==> ParseRule(tokens[i]).Ok?
    ensures ParseAll(tokens).Ok? ==> |ParseAll(tokens).value| == |tokens|
    ensures ParseAll(tokens).Ok? ==> forall i :: 0 <= i < |tokens| ==> ParseAll(tokens).value[i] == ParseRule(tokens[i]).value
  {
    if tokens != [] {
      ParseAllPointwise(tokens[1..]);
      assert forall i :: 1 <= i < |tokens| ==> tokens[1..][i - 1] == tokens[i];
    }
  }

  /** One more token in front parses to one more rule in front. */
  lemma ParseAllCons(token: string, rule: Rule, tokens: seq<string>, rules: seq<Rule>)
    requires ParseRule(token) == Ok(rule) && ParseAll(tokens) == Ok(rules)
    ensures ParseAll([token] + tokens) == Ok([rule] + rules)
  {
    assert ([token] + tokens)[1..] == tokens;
  }

  /** The parsed rules of every field, or the panic of a malformed token. */
  function ParseSet(ruleSet: map<string, seq<string>>): (r: Result<map<string, seq<Rule>>>)
    ensures r.Ok? <==> forall name :: name in ruleSet ==> ParseAll(ruleSet[name]).Ok?
    ensures r.Ok? ==> r.value.Keys == ruleSet.Keys && forall name :: name in ruleSet ==> r.value[name] == ParseAll(ruleSet[name]).value
  {
    if forall name :: name in ruleSet ==> ParseAll(ruleSet[name]).Ok?
    then Ok(map name | name in ruleSet :: ParseAll(ruleSet[name]).value)
    else ConfigError("invalid rule")
  }

  /** The field views a textual rule set yields once parsed and checked. */
  function DeriveAll(parsed: map<string, seq<Rule>>): (views: map<string, FieldView>)
    ensures views.Keys == parsed.Keys
    ensures forall name :: name in parsed ==> views[name] == Derive(parsed[name])
  {
    map name | name in parsed :: Derive(parsed[name])
  }

  /** One fresh, unchecked field per entry. */
  method NewFields(parsed: map<string, seq<Rule>>) returns (fields: map<string, Field>)
    ensures fields.Keys == parsed.Keys
    ensures forall name :: name in fields ==> fresh(fields[name])
    ensures forall name :: name in fields ==> fields[name].View() == FieldView(parsed[name], false, false, false)
  {
    fields := map[];
    var todo := parsed.Keys;
    while todo != {}
      invariant todo <= parsed.Keys
      invariant fields.Keys == parsed.Keys - todo
      invariant forall name :: name in fields ==> fresh(fields[name])
      invariant forall name :: name in fields ==> fields[name].View() == FieldView(parsed[name], false, false, false)
      decreases todo
    {
      var name :| name in todo;
      var field := new Field(parsed[name]);
      fields := fields[name := field];
      todo := todo - {name};
    }
  }

  /** `RuleSet.parse`: a fresh rule set of fresh fields, one per entry, their
      rules in the declared order, checked before it is handed out. A
      malformed token, an unknown rule name or an array-prohibited rule used
      on elements is a panic. */
  method ParseRuleSet(defs: Definitions, ruleSet: map<string, seq<string>>) returns (r: Result<Rules>)
    ensures ParseSet(ruleSet).ConfigError? ==> r.ConfigError?
    ensures ParseSet(ruleSet).Ok? ==> (r.Ok? <==> forall name :: name in ruleSet ==> CheckRules(defs, ParseSet(ruleSet).value[name]).Ok?)
    ensures r.Ok? ==> fresh(r.value) && r.value.checked && r.value.fields.Keys == ruleSet.Keys
    ensures r.Ok? ==> forall name :: name in ruleSet ==> fresh(r.value.fields[name])
    ensures r.Ok? ==> r.value.Views() == DeriveAll(ParseSet(ruleSet).value)
  {
    var parsed := ParseSet(ruleSet);
    if parsed.ConfigError? {
      return ConfigError(parsed.reason);
    }
    var fields := NewFields(parsed.value);
    var rules := new Rules(fields);
    ghost var before := rules.Views();
    var ok := rules.Check(defs);
    assert forall name :: name in rules.fields ==> rules.fields[name].rules == parsed.value[name];
    assert rules.AllLegal(defs) <==> forall name :: name in ruleSet ==> CheckRules(defs, parsed.value[name]).Ok?;
    if ok.ConfigError? {
      return ConfigError(ok.reason);
    }
    forall name | name in fields
      ensures fields[name].View() == Raise(FieldView(parsed.value[name], false, false, false))
    {
      assert before[name] == FieldView(parsed.value[name], false, false, false);
      assert fields[name].View() == Raise(before[name]);
    }
    ghost var views := rules.Views();
    assert views.Keys == parsed.value.Keys;
    ghost var derived := DeriveAll(parsed.value);
    assert forall name :: name in views ==> views[name] == derived[name];
    MapsAgree(views, derived);
    r := Ok(rules);
    assert r.value.Views() == views;
  }

  lemma MapsAgree<K, V>(a: map<K, V>, b: map<K, V>)
    requires a.Keys == b.Keys
    requires forall k :: k in a ==> a[k] == b[k]
    ensures a == b
  {
  }

  /** A textual rule set that parses and passes the check pass. */
  predicate TextualLegal(defs: Definitions, ruleSet: map<string, seq<string>>) {
    ParseSet(ruleSet).Ok? && forall name :: name in ruleSet ==> CheckRules(defs, ParseSet(ruleSet).value[name]).Ok?
  }

  /** The sources a rule set comes in: built by hand or as text. */
  datatype RuleSource = Prebuilt(rules: Rules) | Textual(ruleSet: map<string, seq<string>>)

  /** `AsRules`: a prebuilt rule set is checked in place (once) and handed
      back; a textual one is parsed into a fresh checked rule set. */
  method AsRules(defs: Definitions, source: RuleSource) returns (r: Result<Rules>)
    modifies if source.Prebuilt? then {source.rules} else {}
    modifies if source.Prebuilt? then source.rules.fields.Values else {}
    ensures source.Prebuilt? ==> source.rules.fields == old(source.rules.fields)
    ensures source.Prebuilt? ==> (r.Ok? ==> r.value == source.rules && r.value.checked)
    ensures source.Prebuilt? && old(source.rules.checked) ==> r == Ok(source.rules) && unchanged(source.rules.fields.Values)
    ensures source.Prebuilt? && !old(source.rules.checked) ==> (r.Ok? <==> old(source.rules.AllLegal(defs)))
    ensures source.Prebuilt? ==> (source.rules.checked <==> r.Ok?)
    ensures source.Prebuilt? && !old(source.rules.checked) && r.Ok? ==>
      source.rules.Views() == RaiseAll(old(source.rules.Views()))
    ensures source.Textual? ==> (r.Ok? <==> TextualLegal(defs, source.ruleSet))
    ensures source.Textual? && r.Ok? ==> fresh(r.value) && r.value.Views() == DeriveAll(ParseSet(source.ruleSet).value)
  {
    match source
    case Prebuilt(rules) =>
      var ok := rules.EnsureChecked(defs);
      if ok.ConfigError? {
        return ConfigError(ok.reason);
      }
      return Ok(rules);
    case Textual(ruleSet) =>
      r := ParseRuleSet(defs, ruleSet);
  }
}
