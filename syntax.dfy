/**
 * The rule expression language: `>`* name (`:` param (`,` param)*)?.
 * Each leading `>` adds one array dimension; the parameters follow the
 * first colon and are separated by commas.
 */
module Syntax {
  import opened Values
  import opened Numbers

  /** A parsed rule. `dimension` is the source's `uint8` ArrayDimension. */
  datatype Rule = Rule(name: string, params: seq<string>, dimension: nat)

  /** The number of leading `c` characters of `s`. */
  function CountPrefix(s: string, c: char): (n: nat)
    ensures n <= |s|
    ensures forall i :: 0 <= i < n ==> s[i] == c
    ensures n < |s| ==> s[n] != c
  {
    if s != [] && s[0] == c then 1 + CountPrefix(s[1..], c) else 0
  }

  function Repeat(c: char, n: nat): (s: string)
    ensures |s| == n && forall i :: 0 <= i < n ==> s[i] == c
  {
    if n == 0 then "" else [c] + Repeat(c, n - 1)
  }

  /** `strings.Split`: the pieces of `s` between occurrences of `sep`;
      there is always at least one piece. */
  function Split(s: string, sep: char): (parts: seq<string>)
    ensures |parts| >= 1
    ensures forall i :: 0 <= i < |parts| ==> sep !in parts[i]
    decreases |s|
  {
    var k := IndexOf(s, sep);
    if k == |s| then [s] else [s[..k]] + Split(s[k + 1..], sep)
  }

  /** `strings.Join`: the inverse of Split. */
  function Join(parts: seq<string>, sep: char): string
    requires |parts| >= 1
  {
    if |parts| == 1 then parts[0] else parts[0] + [sep] + Join(parts[1..], sep)
  }

  lemma {:induction false} JoinSplit(s: string, sep: char)
    ensures Join(Split(s, sep), sep) == s
    decreases |s|
  {
    var k := IndexOf(s, sep);
    if k < |s| {
      var rest := Split(s[k + 1..], sep);
      assert Split(s, sep) == [s[..k]] + rest;
      JoinSplit(s[k + 1..], sep);
      JoinCons(s[..k], rest, sep);
      Reassemble(s, k, sep);
    } else {
      assert Split(s, sep) == [s];
    }
  }

  /** A string is the text before its `k`-th character, that character
      (here the separator) and the text after it. */
  lemma Reassemble(s: string, k: nat, sep: char)
    requires k < |s| && s[k] == sep
    ensures s == s[..k] + [sep] + s[k + 1..]
  {
  }

  lemma JoinCons(head: string, rest: seq<string>, sep: char)
    requires |rest| >= 1
    ensures Join([head] + rest, sep) == head + [sep] + Join(rest, sep)
  {
    assert ([head] + rest)[1..] == rest;
  }

  lemma {:induction false} SplitJoin(parts: seq<string>, sep: char)
    requires |parts| >= 1
    requires forall i :: 0 <= i < |parts| ==> sep !in parts[i]
    ensures Split(Join(parts, sep), sep) == parts
  {
    if |parts| > 1 {
      var head, tail := parts[0], parts[1..];
      SplitJoin(tail, sep);
      assert parts == [head] + tail;
      SplitJoinStep(head, tail, sep);
    } else {
      SplitPiece(parts[0], sep);
    }
  }

  /** One more separator-free piece in front of parts that split back. */
  lemma SplitJoinStep(head: string, tail: seq<string>, sep: char)
    requires |tail| >= 1 && sep !in head && Split(Join(tail, sep), sep) == tail
    ensures Split(Join([head] + tail, sep), sep) == [head] + tail
  {
    JoinCons(head, tail, sep);
    SplitAfterPiece(head, Join(tail, sep), sep);
  }

  /** A piece without separators, then a separator, splits at that separator. */
  lemma SplitAfterPiece(head: string, rest: string, sep: char)
    requires sep !in head
    ensures Split(head + [sep] + rest, sep) == [head] + Split(rest, sep)
  {
    var s := head + [sep] + rest;
    assert s == head + ([sep] + rest);
    IndexOfAfterFree(head, [sep] + rest, sep);
    assert IndexOf([sep] + rest, sep) == 0;
    assert s[..|head|] == head;
    assert s[|head| + 1..] == rest;
  }

  /** A piece without separators splits to itself. */
  lemma SplitPiece(piece: string, sep: char)
    requires sep !in piece
    ensures Split(piece, sep) == [piece]
  {
    IndexOfAfterFree(piece, "", sep);
    assert piece + "" == piece;
  }

  /** The first `c` of `a + b` lies past `a` when `a` holds none; when `b`
      starts with `c` it is at `|a|`. */
  lemma IndexOfAfterFree(a: string, b: string, c: char)
    requires c !in a
    ensures IndexOf(a + b, c) == |a| + IndexOf(b, c)
  {
    var k := IndexOf(a + b, c);
    var m := IndexOf(b, c);
    assert forall j :: 0 <= j < |a| ==> (a + b)[j] == a[j];
    assert forall j :: 0 <= j < m ==> (a + b)[|a| + j] == b[j];
    if m < |b| {
      assert (a + b)[|a| + m] == c;
    }
  }

  /** The text of a rule: `dimension` markers, the name and the parameters. */
  function Unparse(rule: Rule): string {
    Repeat('>', rule.dimension) + rule.name + Parameters(rule.params)
  }

  /** The parameter text: nothing, or a colon and the comma-joined list. */
  function Parameters(params: seq<string>): string {
    if params == [] then "" else [':'] + Join(params, ',')
  }

  /** A rule whose text parses back to it: a name without markers up front
      and without `:` or `,`, parameters without `,`, and a dimension that
      fits in a `uint8`. */
  predicate WellFormed(rule: Rule) {
    && rule.dimension < 256
    && ':' !in rule.name && ',' !in rule.name
    && (rule.name != [] ==> rule.name[0] != '>')
    && forall i :: 0 <= i < |rule.params| ==> ',' !in rule.params[i]
  }

  /** `parseRule`: counts the leading `>` (as a `uint8` counter), takes the
      name up to the first colon and splits the rest at commas. A comma
      before the first colon is a panic. */
  function ParseRule(token: string): (r: Result<Rule>)
    ensures r.Ok? ==> r.value.dimension < 256
  {
    var n := CountPrefix(token, '>');
    ParseBody(token[n..], n % 256)
  }

  /** The text after the markers: the name up to the first colon, then the
      comma-separated parameters. */
  function ParseBody(rest: string, dimension: nat): Result<Rule> {
    var k := IndexOf(rest, ':');
    if k < |rest| then
      var name := rest[..k];
      if ',' in name then ConfigError("invalid rule")
      else Ok(Rule(name, Split(rest[k + 1..], ','), dimension))
    else if ',' in rest then ConfigError("invalid rule")
    else Ok(Rule(rest, [], dimension))
  }

  lemma ParseBodyShape(rest: string, dimension: nat)
    ensures ParseBody(rest, dimension).ConfigError? <==> ',' in rest[..IndexOf(rest, ':')]
    ensures ParseBody(rest, dimension).Ok? ==> ParseBody(rest, dimension).value.dimension == dimension
    ensures ParseBody(rest, dimension).Ok? ==> ':' !in ParseBody(rest, dimension).value.name && ',' !in ParseBody(rest, dimension).value.name
    ensures ParseBody(rest, dimension).Ok? && IndexOf(rest, ':') == |rest| ==> ParseBody(rest, dimension).value.params == []
  {
  }

  /** A token is rejected exactly when a comma comes before its first
      colon; otherwise the dimension is the marker count as a `uint8`, the
      name holds no separator, and a token without a colon has no
      parameters. */
  lemma ParseRuleShape(token: string)
    ensures ParseRule(token).ConfigError? <==> ',' in token[..IndexOf(token, ':')]
    ensures ParseRule(token).Ok? ==> ParseRule(token).value.dimension == CountPrefix(token, '>') % 256
    ensures ParseRule(token).Ok? ==> ':' !in ParseRule(token).value.name && ',' !in ParseRule(token).value.name
    ensures ParseRule(token).Ok? && IndexOf(token, ':') == |token| ==> ParseRule(token).value.params == []
  {
    var n := CountPrefix(token, '>');
    PrefixFree(token, n);
    ParseBodyShape(token[n..], n % 256);
  }

  /** The leading markers hold neither `:` nor `,`, so the first colon of a
      token and the text before it are found past them. */
  lemma PrefixFree(token: string, n: nat)
    requires n == CountPrefix(token, '>')
    ensures IndexOf(token, ':') == n + IndexOf(token[n..], ':')
    ensures (',' in token[..IndexOf(token, ':')]) <==> (',' in token[n..][..IndexOf(token[n..], ':')])
  {
    assert token == token[..n] + token[n..];
    IndexOfAfterFree(token[..n], token[n..], ':');
    var k := IndexOf(token[n..], ':');
    assert token[..n + k] == token[..n] + token[n..][..k];
  }

  /** Text produced from a well-formed rule parses back to that rule. */
  lemma ParseUnparse(rule: Rule)
    requires WellFormed(rule)
    ensures ParseRule(Unparse(rule)) == Ok(rule)
  {
    var tail := Parameters(rule.params);
    UnparseRest(rule);
    ParseRuleFrom(Unparse(rule), rule.dimension, rule.name, tail);
    if rule.params != [] {
      assert tail[1..] == Join(rule.params, ',');
      SplitJoin(rule.params, ',');
    }
  }

  /** The text of a rule past its markers is its name and parameters. */
  lemma UnparseRest(rule: Rule)
    requires WellFormed(rule)
    ensures CountPrefix(Unparse(rule), '>') == rule.dimension
    ensures Unparse(rule)[rule.dimension..] == rule.name + Parameters(rule.params)
  {
    var markers := Repeat('>', rule.dimension);
    var rest := rule.name + Parameters(rule.params);
    assert Unparse(rule) == markers + rest;
    CountAfterMarkers(markers, rest, rule.dimension);
  }

  /** How a token made of markers, a name free of separators and a
      parameter text starting with a colon (or empty) parses. */
  lemma ParseRuleFrom(token: string, n: nat, name: string, tail: string)
    requires CountPrefix(token, '>') == n && n < 256
    requires token[n..] == name + tail
    requires ':' !in name && ',' !in name
    requires tail != [] ==> tail[0] == ':'
    ensures tail == [] ==> ParseRule(token) == Ok(Rule(name, [], n))
    ensures tail != [] ==> ParseRule(token) == Ok(Rule(name, Split(tail[1..], ','), n))
  {
    assert n % 256 == n;
    ParseBodyFrom(name, tail, n);
  }

  lemma ParseBodyFrom(name: string, tail: string, dimension: nat)
    requires ':' !in name && ',' !in name
    requires tail != [] ==> tail[0] == ':'
    ensures tail == [] ==> ParseBody(name + tail, dimension) == Ok(Rule(name, [], dimension))
    ensures tail != [] ==> ParseBody(name + tail, dimension) == Ok(Rule(name, Split(tail[1..], ','), dimension))
  {
    var rest := name + tail;
    IndexOfAfterFree(name, tail, ':');
    if tail == [] {
      assert rest == name;
    } else {
      assert IndexOf(tail, ':') == 0;
      assert rest[..|name|] == name;
      assert rest[|name| + 1..] == tail[1..];
    }
  }

  lemma CountAfterMarkers(markers: string, s: string, n: nat)
    requires markers == Repeat('>', n)
    requires s != [] ==> s[0] != '>'
    ensures CountPrefix(markers + s, '>') == n
    decreases n
  {
    if n > 0 {
      assert (markers + s)[1..] == Repeat('>', n - 1) + s;
      CountAfterMarkers(Repeat('>', n - 1), s, n - 1);
    } else {
      assert markers + s == s;
    }
  }

  lemma ParsesBack(rule: Rule, token: string)
    requires WellFormed(rule) && Unparse(rule) == token
    ensures ParseRule(token) == Ok(rule)
  {
    ParseUnparse(rule);
  }

  // The examples the rule parser is held to.

  lemma ParseBareName()
    ensures ParseRule("required") == Ok(Rule("required", [], 0))
  {
    ParsesBack(Rule("required", [], 0), "required");
  }

  lemma ParseWithParameter()
    ensures ParseRule("min:5") == Ok(Rule("min", ["5"], 0))
  {
    ParsesBack(Rule("min", ["5"], 0), "min:5");
  }

  lemma ParseOneDimension()
    ensures ParseRule(">min:3") == Ok(Rule("min", ["3"], 1))
  {
    ParsesBack(Rule("min", ["3"], 1), ">min:3");
  }

  lemma ParseTwoDimensions()
    ensures ParseRule(">>max:5") == Ok(Rule("max", ["5"], 2))
  {
    ParsesBack(Rule("max", ["5"], 2), ">>max:5");
  }

  lemma ParseCommaOutsideParameters()
    ensures ParseRule("invalid,rule").ConfigError?
  {
    var t := "invalid,rule";
    assert t[7] == ',';
    assert ':' !in t;
  }
}
