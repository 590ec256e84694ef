# Request validation in goyave, modelled in Dafny

This project models the core of goyave's request validation, which checks a
loosely typed request payload (a map from field names to values) against a
set of rules.

- **Values and the payload** (`values.dfy`). A payload value is a closed
  datatype (`Int`, `Uint`, `Uintptr`, `Float`, `Str`, `Arr`, `File`, `Bool`,
  `Nil`, `Other`). `GetFieldType` sorts it into the type classes the rules
  dispatch on. The payload is a `Form` object whose `data` map the coercing
  rules update in place.
- **Number parsing** (`numbers.dfy`). Decimal stand-ins for `strconv.Atoi`
  (64-bit range) and `strconv.ParseFloat`.
- **The built-in rules** (`rules.dfy`): `required`, `min`, `max`,
  `between`, the four cross-field comparators, `numeric`, `integer`,
  `string`, `array` and `distinct`. The coercing rules `numeric` and
  `integer` are methods on a `Form`. `distinct` keeps the source's loop over
  a `found` list, including the panic of comparing two slices. Each method is proved against a pure function, and the
  properties are stated about that function.
  String lengths are counted in bytes of UTF-8, as Go's `len` counts them.
  A float bound becomes an `int` as Go's conversion does on amd64.
- **The rule language** (`syntax.dfy`). In `>`\*name(`:`param(`,`param)\*)?,
  each leading `>` adds one array dimension, counted as a `uint8`. A comma
  before the first colon is a configuration error. Parsing the text printed
  from a well-formed rule gives that rule back.
- **The registry** (`registry.dfy`). It maps rule names to definitions: the
  built-in table, `AddRule` (registering a name twice is an error), and
  applying a rule by name.
- **Fields and rule sets** (`fields.dfy`). `Field.check` derives the
  `isRequired`, `isArray` and `isNullable` flags. It rejects unregistered
  rules and array-prohibited rules on elements. `Rules.check` is a one-shot
  latch. `RuleSet.parse` and `AsRules` turn either kind of rule set into a
  checked one.
- **The engine** (`engine.dfy`).
  - `validateRuleInArray` applies a rule to every element, `dimension`
    levels down.
  - Validating one field covers absent and nil values, a single value
    wrapped into an array, and rules run in their declared order with
    coercion.
  - `Validate` runs over the whole payload, including the nil-payload error.
- **The test suite's scenarios** (`scenarios.dfy`), stated on the model with
  the built-in registry.

Every loop and in-place update of the source (`Field.check`, `Rules.check`,
`validateRuleInArray`, the loops over rules and fields, `validateDistinct`)
is a method. Each method's `ensures` ties its result and the new payload to
a function: `Outcome(r, form.data) == F(old(form.data))`. What the source
promises is then proved about those functions.

A panic of the source is a `ConfigError` result here, kept apart from
validation errors. Panics arise from an unparsable numeric parameter, a
missing parameter, an unregistered rule, an array-prohibited rule on
elements, an element rule on a non-array, or registering a name twice. A
validation error is the name of the failed rule.

The source of the rules (`validation/rules.go`) is older than the test suite
(`validation/validator_test.go`). Where they disagree, the model follows
`rules.go` for the rule functions and the tests for the engine:

- `validateArray` in `rules.go:283-285` only classifies the value.
- The tests expect the engine to wrap a single value into an array outside
  JSON (`validator_test.go:169-193`).
- The tests expect `array:numeric` to retype the elements
  (`validator_test.go:287-330`).

The model has both: `RuleLib.IsArray` is the rule function, and
`RuleLib.ArrayRule` is the rule as the engine runs it.

## Model

| member | source | states |
|---|---|---|
| Values.GetFieldType | validation/rules.go:39-52 | every int kind, every uint kind but `uintptr` and every float kind is numeric; strings are strings, slices are arrays, files are files, and nothing else is any of these (the classifier is reconstructed from its call sites in `rules.go` and the tests) |
| Values.Trunc | validation/rules.go:229 | Go's `int(x)`: truncation toward zero, within one of `x` on the side of zero |
| Values.TruncOfWhole | validation/rules.go:229-233 | truncation leaves a float unchanged exactly when it is a whole number |
| Values.GoInt | validation/rules.go:229 | Go's `int(x)` on amd64: always within the 64-bit range; the truncation when that fits, MinInt64 otherwise |
| Values.ByteLength | validation/rules.go:44 | Go's `len` of a string counts the bytes of its UTF-8 encoding: between one and four per character |
| Values.ByteLengthAscii | validation/rules.go:44 | a string's length in bytes equals its length in characters exactly when every character is ASCII |
| Values.ByteLengthAccented | validation/rules.go:44 | `"né"` is two characters but three bytes long |
| Numbers.ParseInt | validation/rules.go:243 | an accepted integer lies in the 64-bit range and comes from a non-empty string |
| Numbers.ParseIntIsParseFloat | validation/rules.go:210 | every string `Atoi` accepts, `ParseFloat` accepts with the same value |
| Numbers.ParseFloat | validation/rules.go:35-38 | a decimal stand-in for `strconv.ParseFloat`: the empty string never parses (its value for plain decimals is used by the scenarios) |
| RuleLib.Required | validation/rules.go:18-29 | false when the key is absent, the value is nil or the value is the empty string; true otherwise |
| RuleLib.NumberParam | validation/rules.go:35-38 | a parameter past the end or one that does not parse as a float is a panic; otherwise its value |
| RuleLib.Min | validation/rules.go:34-53 | panics iff the bound does not parse; numbers compare by value; strings by their length in bytes and arrays by their element count, against the bound as Go's `int` converts it; files fail; all other types pass |
| RuleLib.Max | validation/rules.go:55-74 | the same as `min`, with at most instead of at least, string lengths again in bytes |
| RuleLib.Between | validation/rules.go:76-85 | panics iff either bound does not parse |
| RuleLib.BetweenIsMinAndMax | validation/rules.go:76-102 | `between:a,b` panics iff `min:a` or `max:b` does, and otherwise holds iff both hold, on every value |
| RuleLib.CrossCompare | validation/rules.go:104-198 | a missing parameter panics; a missing compared field, a different type class, a file or an unsupported type fails; otherwise it compares the numbers, the strings' lengths in bytes, or the arrays' lengths |
| RuleLib.ComparatorsComplement | validation/rules.go:112-124 | on comparable values `greater_than` is the negation of `lower_than_equal`, and `greater_than_equal` of `lower_than` |
| RuleLib.ComparatorsFailTogether | validation/rules.go:107-110 | where no comparison can be made every comparator fails, so none is the negation of another there |
| RuleLib.Numeric | validation/rules.go:203-218 | passes iff the value is an int, uint or float (not `uintptr`) or a string that parses; only a parsed string is replaced, by its float; nothing else in the form changes |
| RuleLib.IntegerAsWritten | validation/rules.go:220-251 | the source's `integer`: ints and uints pass untouched; a float passes iff `x - int(x) <= 0` and is stored as `int(x)`; a string passes iff `Atoi` accepts it and is stored as that integer; anything else fails; a failure leaves the form alone |
| RuleLib.IntegerAsWrittenAcceptsNegativeFraction | validation/rules.go:226-233 | as written, -1.5 passes `integer` and is stored as -1; the corrected rule rejects it and leaves the form alone |
| RuleLib.IntegerAsWrittenAcceptsHugeNegative | validation/rules.go:226-233 | as written, -10^19 passes `integer` and is stored as MinInt64 on amd64; the corrected rule rejects it and leaves the form alone |
| RuleLib.IntegerAsWrittenAgreesElsewhere | validation/rules.go:220-251 | the source's and the corrected `integer` agree exactly on every value but a negative float that is fractional or below the 64-bit range; there the source passes and the corrected rule fails |
| RuleLib.Integer | validation/rules.go:220-251 | the corrected `integer`: ints and uints pass untouched; a string passes iff `Atoi` accepts it and is stored as that integer; anything but a number or a string fails; a failure leaves the form alone; the float case is `IntegerOnFloat` |
| RuleLib.IntegerOnFloat | validation/rules.go:226-241 | the corrected `integer` passes a float iff it is a whole number within the 64-bit range, and then stores that same integer |
| RuleLib.IntegerImpliesNumeric | validation/rules.go:203-251 | whatever `integer` accepts, `numeric` accepts |
| RuleLib.NumericIdempotent | validation/rules.go:203-218 | a value `numeric` has stored passes `numeric` again with no further change |
| RuleLib.IntegerIdempotent | validation/rules.go:220-251 | a value `integer` has stored passes `integer` again with no further change |
| RuleLib.ValidateNumeric | validation/rules.go:203-218 | the in-place `numeric`: its result and the new form are those of `Numeric` on the old form |
| RuleLib.ValidateInteger | validation/rules.go:220-251 | the in-place `integer`: its result and the new form are those of `Integer` on the old form |
| RuleLib.IsString | validation/rules.go:256-259 | passes iff the value is a string |
| RuleLib.IsArray | validation/rules.go:283-285 | passes iff the value is classified as an array |
| RuleLib.ConvertElement | validation/validator_test.go:287-304 | `numeric` converts an element iff it is a number or a string that parses, into the float of that number; `string` keeps exactly the strings |
| RuleLib.ConvertElements | validation/validator_test.go:287-304 | all elements convert or none: the result has the same length, and position `i` holds the conversion of element `i` |
| RuleLib.ArrayRule | validation/validator_test.go:287-330 | passes only on arrays; without an element type it is `IsArray` and leaves the form alone; with one, it passes on an array iff every element converts, and then stores the converted array; a failure leaves the form alone; only `field` can change |
| RuleLib.ConvertNumericIsNumeric | validation/rules.go:203-218 | an element converts for `array:numeric` iff the `numeric` rule passes on it alone, and it becomes the float of what `numeric` left |
| RuleLib.ArrayNumericIsElementwiseNumeric | validation/validator_test.go:287-330 | `array:numeric` passes on an array iff `numeric` passes on every element, and then element `i` is the float of what `numeric` made of element `i` |
| RuleLib.ValidateDistinct | validation/rules.go:287-303 | the loop over `found`: its result is `Distinct` (loop invariants: `found` is the prefix seen, with no repeats and at most one array) |
| RuleLib.DistinctMeaning | validation/rules.go:287-303 | `distinct` passes iff the value is an array with no repeated element and at most one array element; it panics only on an array holding two arrays; with at most one array element it passes iff nothing repeats |
| RuleLib.ContainsValue | validation/rules.go:296 | the membership test with Go's `==`: an array element panics iff an array was seen before it, and is otherwise never found; any other element is found iff it was seen |
| RuleLib.DistinctOnArrays | validation/rules.go:287-303 | `[[1], [2]]` panics; `[1, 1, [], []]` fails at the repeat before reaching the second array; `[1, []]` passes |
| Syntax.ParseRuleShape | validation/validator_test.go:19-46 | rejects a token iff a comma comes before its first colon; otherwise the dimension is the `>` count as a `uint8`, the name holds neither `:` nor `,`, and without a colon there are no parameters |
| Syntax.ParseRule | validation/validator_test.go:19-46 | `parseRule`: the dimension of a parsed rule fits in a `uint8`; its shape is `ParseRuleShape` and its inverse `ParseUnparse` |
| Syntax.ParseUnparse | validation/validator_test.go:19-46 | the text of a well-formed rule parses back to that rule |
| Syntax.JoinSplit | validation/validator_test.go:25-28 | joining the comma-split parts gives the parameter text back |
| Syntax.SplitJoin | validation/validator_test.go:25-28 | splitting joined comma-free parameters gives them back |
| Syntax.ParseBareName | validation/validator_test.go:20-23 | `required` is the name `required`, no parameters, dimension 0 |
| Syntax.ParseWithParameter | validation/validator_test.go:25-29 | `min:5` is `min` with the parameter `5` at dimension 0 |
| Syntax.ParseCommaOutsideParameters | validation/validator_test.go:31-33 | `invalid,rule` is rejected |
| Syntax.ParseOneDimension | validation/validator_test.go:35-39 | `>min:3` is `min` with `3` at dimension 1 |
| Syntax.ParseTwoDimensions | validation/validator_test.go:41-45 | `>>max:5` is `max` with `5` at dimension 2 |
| Registry.Core | validation/validator_test.go:605-620 | every rule this model implements is built in and allowed on array elements |
| Registry.Outer | validation/validator_test.go:605-620 | the registered rules outside the model are exactly `Outside`, and only the array-prohibited ones refuse elements |
| Registry.Builtins | validation/validator_test.go:605-620 | exactly `confirmed`, `file`, `mime`, `image`, `extension`, `count`, `count_min`, `count_max` and `count_between` are not allowed on array elements |
| Registry.Apply | validation/validator_test.go:593-602 | an unregistered name is a panic; a rule changes at most its own field; a built-in rule changes it only when it passes |
| Registry.CustomRuleRewrites | validation/rules.go:11-16 | a rule given from outside may rewrite the value it validates: one written as `numeric` does exactly what the built-in `numeric` does to a present field |
| Registry.ApplyRule | validation/rules.go:203-251 | applying a rule in place: its result and the new form are those of `Apply` on the old form |
| Registry.RuleRegistry.AddRule | validation/validator_test.go:54-70 | registering a present name panics and changes nothing; a new name is added with its definition and nothing else changes |
| Registry.AddRuleScenario | validation/validator_test.go:54-70 | registering `required` again panics; `new_rule` registers and is then present |
| Fields.CheckRules | validation/validator_test.go:593-620 | a field's rules pass the check iff every one is registered and, on elements, allowed there |
| Fields.Derive | validation/validator_test.go:562-591 | `isRequired` and `isArray` are set iff `required` and `array` occur at dimension 0; `isNullable` iff `nullable` occurs |
| Fields.Field.Check | validation/validator_test.go:562-620 | the check's result is `CheckRules`, the rules are unchanged, and on success each flag is raised iff its rule occurs |
| Fields.Rules.Check | validation/validator_test.go:681-705 | the first call checks every field and closes the latch iff all pass; after that, calls succeed and change nothing whatever the rules now say |
| Fields.Rules.EnsureChecked | validation/validator_test.go:681-705 | the latch as validation uses it: succeeds iff the rule set was already checked or all its rules are legal, and then the latch is closed; an already closed latch changes no field; otherwise every field's flags are raised (`RaiseAll` of the old views); the rules stay |
| Fields.Rules.CheckEach | validation/validator_test.go:681-698 | succeeds iff every field passes its check, and then every field's flags are raised |
| Fields.ParseAllPointwise | validation/validator_test.go:622-635 | a field's tokens parse iff each does, into their rules in declared order |
| Fields.ParseAll | validation/validator_test.go:622-635 | a field's parsed rules are as many as its tokens (pointwise: `ParseAllPointwise`) |
| Fields.ParseSet | validation/validator_test.go:622-635 | a textual rule set parses iff each field does, with the same field names |
| Fields.DeriveAll | validation/validator_test.go:622-640 | each parsed field gets the flags its rules derive |
| Fields.NewFields | validation/validator_test.go:622-640 | one fresh field per entry, holding that entry's rules, no flag raised |
| Fields.ParseRuleSet | validation/validator_test.go:622-647 | a malformed token or an illegal rule panics; otherwise a fresh, checked rule set of fresh fields, one per entry, with the parsed rules and derived flags |
| Fields.AsRules | validation/validator_test.go:649-679 | a prebuilt rule set is checked once and handed back itself, with its flags raised on a first check and untouched after; a textual one is parsed into a checked one; either panics iff its rules are illegal |
| Engine.InArray | validation/validator_test.go:195-285 | a non-array at any depth panics; a failure leaves the payload alone; a pass keeps the array's length; only `field` can change |
| Engine.Elements | validation/validator_test.go:195-236 | the element walk yields, when every element passes, as many values as there are elements (pointwise: `ElementsAllPass`) |
| Engine.Step | validation/validator_test.go:195-263 | one element: an unregistered rule panics at the last level, and a non-array element panics when the rule goes deeper |
| Engine.ElementsAllPass | validation/validator_test.go:195-236 | the fold over elements succeeds iff every remaining element passes, and then holds what each became, in order |
| Engine.InArrayPasses | validation/validator_test.go:195-236 | a rule on an array's elements passes iff it passes on every element, and each element is then replaced by what the rule made of it |
| Engine.EmptyArrayPasses | validation/validator_test.go:265-284 | an empty array passes any element rule, at any depth, untouched |
| Engine.NonArrayAtDepthPanics | validation/validator_test.go:259-263 | an element rule on a value that is not an array panics at every depth |
| Engine.ValidateRuleInArray | validation/validator_test.go:195-285 | the recursive in-place method: its result and the new payload are those of `InArray` on the old payload |
| Engine.ApplyAtDimension | validation/validator_test.go:195-236 | a rule at its dimension changes at most its own field; a rule on elements, or a built-in one, changes it only when it passes |
| Engine.RunRules | validation/validator_test.go:89-166 | the rules of a field change at most that field, and never remove it (its errors: `RunRulesCollects`, `RunRulesStep`, `ErrorsAreRuleNames`) |
| Engine.RunRulesStep | validation/validator_test.go:141-166 | one rule: a panic stops the field, a failing rule adds its name and a passing rule adds nothing, and the next rule sees the payload as this one left it |
| Engine.RunRulesCollects | validation/validator_test.go:141-166 | rules that leave the payload alone report after the earlier errors exactly the names of the failing rules, in declared order (`Failing`), and the payload stays |
| Engine.ReachesPointwise | validation/validator_test.go:141-166 | the recursive hypothesis of `RunRulesCollects` holds iff each rule, on the payload, leaves it alone and reaches its verdict |
| Engine.RunRulesReports | validation/validator_test.go:141-166 | running a field's rules keeps the earlier errors in front, and what it adds is a subsequence of the rules' names in declared order |
| Engine.ErrorsAreRuleNames | validation/validator_test.go:495-559 | a field's errors are its rules' names in order, some left out, so there are at most as many as rules, however many elements fail |
| Engine.OneErrorPerRule | validation/validator_test.go:217-236 | an element rule that fails reports exactly one error, its name, and leaves the payload alone |
| Engine.CheckField | validation/validator_test.go:120-193 | an absent field reports `required` iff required; a nullable nil is left alone without errors; a nil that is not nullable is removed and treated as absent (the present non-nil case: `CheckFieldRuns`) |
| Engine.CheckFieldRuns | validation/validator_test.go:141-193 | a present non-nil value stays, non-nil, once prepared (wrapped if need be), and the field's result is that of its rules run on it in declared order (`RunRules`) |
| Engine.CheckFieldCollects | validation/validator_test.go:141-166 | a present non-nil field whose rules leave the prepared payload alone reports exactly the names of its failing rules, in declared order |
| Engine.PrepareShape | validation/validator_test.go:120-193 | a field is removed exactly when it is nil and not nullable; a single non-nil value of an array field is wrapped into a one-element array when the payload is not JSON; otherwise its value stays; no other field changes |
| Engine.ValidateAtDimension | validation/validator_test.go:195-215 | a rule at its dimension applied in place: its result and the new payload are those of `ApplyAtDimension` |
| Engine.ValidateRules | validation/validator_test.go:89-118 | the loop over a field's rules in declared order: its result and the new payload are those of `RunRules` |
| Engine.ValidateField | validation/validator_test.go:120-193 | one field validated in place: its result and the new payload are those of `CheckField` |
| Engine.CheckFields | validation/validator_test.go:89-118 | every entry belongs to a validated field (or was there before) and is never empty; fields outside the rule set are left as they were (entries exactly per field: `CheckFieldsCollects`) |
| Engine.CheckFieldsCollects | validation/validator_test.go:89-166 | fields that leave the payload alone add to the earlier errors exactly one entry per field that reports errors, holding those errors, and the payload stays |
| Engine.EntryIffErrors | validation/validator_test.go:89-166 | on such a payload a field gets an entry iff it reports errors, and the entry holds them |
| Engine.ValidateFields | validation/validator_test.go:89-118 | the loop over the fields: its result and the new payload are those of `CheckFields` |
| Engine.ValidatePrebuilt | validation/validator_test.go:98-118 | an unchecked prebuilt rule set with illegal rules panics and leaves the payload alone; otherwise the latch closes and the payload is validated with the old views, raised on a first check; afterwards the latch is closed iff it was or the rules are legal, an already checked set's fields are untouched, and a first check leaves every field's flags raised |
| Engine.ValidateTextual | validation/validator_test.go:89-96 | a textual rule set that does not parse or check panics and leaves the payload alone; otherwise the payload is validated with the parsed fields |
| Engine.Validate | validation/validator_test.go:72-87 | a nil payload gives the single `error` entry `Malformed JSON` or `Malformed request` whatever the rules, and leaves a prebuilt rule set and its fields untouched; otherwise the rules are checked (a prebuilt set once: its latch ends closed iff it was or the rules are legal, its fields untouched if it was checked and their flags raised on a first check; a textual set after parsing) and every field is validated |
| Scenarios.BuiltinsStandard | validation/validator_test.go:93-94 | the built-in registry holds `required`, `nullable`, `numeric`, `array`, `min`, `max`, `email` and `uuid` |
| Scenarios.ScenarioFlags | validation/validator_test.go:120-193 | the flags `check` derives for the fields of the nil, string and array scenarios |
| Scenarios.FieldFlags | validation/validator_test.go:562-591 | `required numeric` gives a required field, neither array nor nullable; `nullable array` gives a nullable array field that is not required |
| Scenarios.UnknownRuleRejected | validation/validator_test.go:593-602 | `required`, `not a rule` fails the check |
| Scenarios.ProhibitedOnElements | validation/validator_test.go:605-620 | each array-prohibited rule fails the check at dimension 1 and passes it at dimension 0 |
| Scenarios.NilRemovedWhenNotNullable | validation/validator_test.go:120-128 | rules `numeric` on a nil field: no errors and the key is removed |
| Scenarios.NilKeptWhenNullable | validation/validator_test.go:130-139 | rules `required nullable numeric` on a nil field: no errors and the nil stays |
| Scenarios.NonNumericStringOneError | validation/validator_test.go:141-150 | the same rules on `"test"`: the one error `numeric`, and the value stays |
| Scenarios.NonNumericStringReported | validation/validator_test.go:141-150 | validating that payload gives the one entry `nullField: [numeric]` and leaves the payload alone |
| Scenarios.OneField | validation/validator_test.go:141-150 | one field that leaves the payload alone gets an entry exactly when it reports errors |
| Scenarios.SingleValueWrapped | validation/validator_test.go:169-178 | outside JSON, `required array` on `"hello"` makes it `["hello"]` without errors |
| Scenarios.ElementMinimumPasses | validation/validator_test.go:195-202 | `>min:3` passes on `["hello", "world"]` |
| Scenarios.ElementMinimumFails | validation/validator_test.go:217-223 | `>min:3` fails on `["hi", ",", "there"]` |
| Scenarios.ElementRuleOnStringPanics | validation/validator_test.go:259-263 | a dimension-1 rule on the string `"hi"` panics |
| Scenarios.EmptyArrayNoErrors | validation/validator_test.go:265-272 | `array >uuid:5` on an empty array reports nothing and changes nothing, whatever `uuid` is |
| Scenarios.TwoElements | validation/validator_test.go:287-304 | a two-element array whose elements both pass holds their converted forms |
| Scenarios.TwoDimensionalCoercion | validation/validator_test.go:287-304 | `>array:numeric` on `[["0.5", 1.42], [0.6, 7]]` passes and gives `[[0.5, 1.42], [0.6, 7.0]]`, all floats |
| Scenarios.RuleSetParsed | validation/validator_test.go:622-635 | the test's textual rule set parses to its rules in declared order, with empty parameters where there are none and `>` read as a dimension |
| Scenarios.IllegalTokenRejected | validation/validator_test.go:641-646 | an illegal rule in a field's list makes the whole textual rule set fail |
| Scenarios.RuleSetWithUnknownRule | validation/validator_test.go:641-646 | a textual rule set naming `not a rule` fails the check |
| Scenarios.ValidateLatch | validation/validator_test.go:72-118 | validating a nil payload against an unchecked prebuilt rule set leaves its latch open; validating a payload closes it and raises the `required` and `array` flags |
| Scenarios.LatchScenario | validation/validator_test.go:681-705 | checking a rule set closes the latch, and after a rule is renamed to something unregistered, checking again still succeeds |

## Left out

- `validator.go` is not part of this model. `parseRule`, `Field.check`, `Rules.check`, `RuleSet.parse`, `AsRules`, `Validate` and `validateRuleInArray` are modelled from the assertions of `validation/validator_test.go`.
- `getFieldType`, `helpers.ToFloat64` and `helpers.Contains` are not part of this model. They are represented by `GetFieldType`, `ToReal` and `ContainsValue`, which compares with Go's `==` on `interface{}` values: equal values are found, and two slices panic.
- RuleLib.ValidateDistinct: elements are compared as `Value`s, which merge Go's int kinds, its uint kinds and `float32` with `float64`. So `[]interface{}{int(1), int64(1)}`, distinct in Go, has a repeat here. Arrays of different Go slice types, which Go compares without panicking, panic here. The uncomparable dynamic types other than slices (maps, structs holding slices) are not modelled.
- Error messages: localisation, `getMessage` and `lang.LoadDefault` are left out. An error entry is the failed rule's name.
- `strconv.ParseFloat` and `strconv.Atoi` are decimal stand-ins. Exponents, hexadecimal, `inf`/`nan`, underscores and the range limits of floats are not modelled.
- Floats are `real`. Rounding, `float32` precision and NaN are not modelled, and the `float32` branch of `integer` is the same as the `float64` one.
- Reflection-driven retyping is not modelled. A `[][]interface{}` becoming a `[][]float64` is represented by every leaf becoming a `Float`. The Go slice types themselves are not distinguished.
- The `array` rule's element types: only `numeric` and `string` convert elements. Any other parameter only classifies the value.
- Rules named in the registry whose functions are not in `rules.go` (`email`, `uuid`, `confirmed`, `file`, ...) come in as the parameter `outside` and are not defined. The rules that `rules.go` lists only as comments are left out.
- File rules: `min`, `max`, `between` and the comparators fail on files, as the source's stubs do. Upload checks are not modelled.
- The iteration order of Go maps over fields is a parameter `order` of `Validate`.
- Registry thread safety: the registry is a single-writer map.
- `isTypeDependent` is carried as metadata only. No rule of the model reads it.
- Fields.Field.Check: on a failed check the flags are left unspecified. The source panics there and nothing reads them afterwards.
- Syntax.ParseRule: a rule that needs parameters but is written without a colon (`min`) parses and passes the check. It fails only when applied, as `NumberParam`'s panic (`rules.go:35-38`). So `min` on an absent field never panics here. The rule-name grammar `[A-Za-z_]+` is not enforced either: any name without `:` or `,` parses, and unknown names are rejected at check time. `validator.go` is not part of this model, so the parse-time failure for a missing colon is not modelled.
- Syntax.ParseUnparse: stated only for well-formed rules. A rule whose name starts with `>` or holds `:` or `,` cannot be written as text.
- RuleLib.Between: its own contract gives only the error cases. Its verdict is stated through `RuleLib.BetweenIsMinAndMax`.
- Engine.RunRules: its own contract gives only the frame. The errors it reports are stated exactly by `Engine.RunRulesCollects` for rules that leave the payload alone. For rules that coerce the value, only the one-step lemma `Engine.RunRulesStep` and `Engine.ErrorsAreRuleNames` (a subsequence of the names, at most one per rule) state them.
- Engine.CheckFields: its own contract does not tie each entry to its field's errors. `Engine.CheckFieldsCollects` and `Engine.EntryIffErrors` do, for fields that leave the payload alone. For coercing fields the entries are stated only step by step, through the body.
- Registry.Apply: a rule given from outside (`AddRule`, or the `outside` parameter) returns its verdict and the value it leaves in its own field, which `Apply` stores even when the rule fails. A Go rule receives the whole form and could write or delete other fields too. The model does not let it, so "changes at most its own field" holds for such rules because of this restriction, and "changes it only when it passes" is promised only for the built-in rules.
- Registry.Apply: `integer` dispatches to the corrected rule (`RuleLib.Integer`). So the engine and `Validate` reject a negative fractional float, or one below the 64-bit range, where `rules.go:229-233` accepts it. The rule as written is `RuleLib.IntegerAsWritten` (see Findings).
- Engine.InArray: the element values are written back all or nothing. When an element fails, earlier conversions are discarded. `validator.go` is not part of this model, so this is the model's choice, not a transcription.
- Engine.CheckField: its own contract covers the absent and nil cases. The case of a present non-nil value is stated by the lemma `Engine.CheckFieldRuns`, kept apart from the function because as an `ensures` it makes every proof about `CheckField` costlier.
- Engine.PrepareShape: the wrapping of a single value applies whenever the payload is not JSON. The tests pin it only for one non-JSON payload (`validator_test.go:169-193`). The general rule is the model's choice.
- Values.GoInt: an out-of-range float-to-int conversion gives MinInt64, as on amd64. The Go language leaves that value to the implementation, and other platforms are not modelled.
- Values.ByteLength: a Go string is an arbitrary byte sequence. Here it is a sequence of Unicode scalar values, so strings that are not valid UTF-8 are not modelled.

## Findings

| source | as written | input that shows it | evidently intended | confidence | as-written member | corrected member |
|---|---|---|---|---|---|---|
| validation/rules.go:229 | a float fails `integer` when `val - float64(int(val)) > 0`; `int` truncates toward zero, so the difference is never positive for a negative number | the value `-1.5`: `-1.5 - (-1) = -0.5`, so the rule passes and stores `-1` | a float passes `integer` only when it has no fractional part | not executed | RuleLib.IntegerAsWrittenAcceptsNegativeFraction | RuleLib.IntegerOnFloat |
| validation/rules.go:229 | the same test with `int(val)` out of range: on amd64 `int` of a float below -2^63 is MinInt64, so `val - float64(int(val))` is negative | the value `-1e19` passes and is stored as MinInt64 | such a float is not an `int` and fails `integer` | not executed | RuleLib.IntegerAsWrittenAcceptsHugeNegative | RuleLib.IntegerOnFloat |
