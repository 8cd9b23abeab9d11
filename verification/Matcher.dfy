/** What a compiled policy does with records: normalization, validation, blocking keys, comparison. */
module Matcher {
  import opened Prelude
  import opened Survivorship
  import opened Store
  import opened PolicyCompiler

  /** `values.get(field)`. */
  function Get(values: Values, field: string): Value {
    if field in values then values[field] else Null
  }

  /** `value in (None, "")`. */
  predicate Blank(v: Value) {
    v == Null || v == Text("")
  }

  /** `str(value)`. */
  function Show(lib: Library, v: Value): string {
    match v
    case Text(text) => text
    case Null => "None"
    case _ => lib.show(v)
  }

  // ---- normalization ----

  /** The last attribute with the key. */
  function AttributeOf(attributes: seq<Attribute>, key: string): Option<Attribute> {
    if attributes == [] then None
    else if attributes[|attributes| - 1].key == key then Some(attributes[|attributes| - 1])
    else AttributeOf(attributes[..|attributes| - 1], key)
  }

  function TextMode(a: Attribute): string {
    Or(a.normalizer, if Or(a.kind, "string") in {"string", "reference"} then "unicode_casefold" else "preserve")
  }

  function NormalizedItem(lib: Library, a: Attribute, v: Value): Value {
    if v.Text? then Text(lib.text(v.text, Or(a.normalizer, "unicode_casefold"))) else v
  }

  function NormalizedValue(lib: Library, a: Attribute, v: Value): Value {
    if v.Null? then v
    else if Or(a.kind, "string") == "decimal" then lib.decimal(v)
    else if v.Text? then Text(lib.text(v.text, TextMode(a)))
    else if v.Items? then Items(seq(|v.items|, i requires 0 <= i < |v.items| => NormalizedItem(lib, a, v.items[i])))
    else v
  }

  function Normalize(lib: Library, d: Definition, values: Values): (output: Values)
    ensures output.Keys == values.Keys
  {
    map key | key in values ::
      var a := AttributeOf(d.attributes, key);
      if a.Some? then NormalizedValue(lib, a.value, values[key]) else values[key]
  }

  /** `normalize`: the loop over the values. */
  method NormalizeRecord(lib: Library, d: Definition, values: Values) returns (output: Values)
    ensures output == Normalize(lib, d, values)
  {
    output := map[];
    var rest := values.Keys;
    while rest != {}
      invariant rest <= values.Keys && output.Keys == values.Keys - rest
      invariant forall key :: key in output ==> output[key] == Normalize(lib, d, values)[key]
      decreases rest
    {
      var key :| key in rest;
      var attribute := AttributeOf(d.attributes, key);
      if values[key] == Null || attribute.None? {
        output := output[key := values[key]];
      } else {
        output := output[key := NormalizedValue(lib, attribute.value, values[key])];
      }
      rest := rest - {key};
    }
  }

  /** The library's text and decimal normalizers change nothing the second time. */
  ghost predicate Settles(lib: Library) {
    && (forall t, mode :: lib.text(lib.text(t, mode), mode) == lib.text(t, mode))
    && (forall v :: lib.decimal(lib.decimal(v)) == lib.decimal(v))
  }

  /** Normalizing a normalized record changes nothing. */
  lemma NormalizeIsIdempotent(lib: Library, d: Definition, values: Values)
    requires Settles(lib)
    ensures Normalize(lib, d, Normalize(lib, d, values)) == Normalize(lib, d, values)
  {
    var once := Normalize(lib, d, values);
    forall key | key in values ensures Normalize(lib, d, once)[key] == once[key] {
      var a := AttributeOf(d.attributes, key);
      if a.Some? { NormalizedTwice(lib, a.value, values[key]); }
    }
    assert Normalize(lib, d, once) == once;
  }

  lemma NormalizedTwice(lib: Library, a: Attribute, v: Value)
    requires Settles(lib)
    ensures NormalizedValue(lib, a, NormalizedValue(lib, a, v)) == NormalizedValue(lib, a, v)
  {
    if v.Items? && Or(a.kind, "string") != "decimal" {
      var once := NormalizedValue(lib, a, v);
      forall i | 0 <= i < |v.items| ensures NormalizedItem(lib, a, once.items[i]) == once.items[i] { }
      assert NormalizedValue(lib, a, once).items == once.items;
    }
  }

  // ---- validation ----

  datatype Fault = Fault(attribute: string, code: string)

  const PATTERN_LIMIT := 256

  predicate Missing(a: Attribute, values: Values) {
    a.required && Blank(Get(values, a.key))
  }

  predicate Disallowed(a: Attribute, v: Value) {
    v != Null && a.allowed.Only? && v !in a.allowed.values
  }

  predicate Mismatches(lib: Library, a: Attribute, v: Value) {
    v != Null && Or(a.pattern, "") != "" && !(v.Text? && lib.fullmatch(a.pattern.value, v.text))
  }

  /** The types `validate` checks; a Python boolean is also an integer. */
  predicate WrongType(a: Attribute, v: Value) {
    var kind := Or(a.kind, "string");
    && v != Null
    && (|| (kind in {"string", "reference", "identifier", "enum"} && !v.Text?)
        || (kind == "integer" && !v.Number? && !v.Flag?)
        || (kind == "boolean" && !v.Flag?))
  }

  function Note(condition: bool, key: string, code: string): seq<Fault> {
    if condition then [Fault(key, code)] else []
  }

  /** One turn of the loop over attributes; an over-long pattern raises. */
  function FaultsOf(lib: Library, a: Attribute, values: Values): Result<seq<Fault>> {
    var v := Get(values, a.key);
    if Missing(a, values) then Ok([Fault(a.key, "required")])
    else if |Or(a.pattern, "")| > PATTERN_LIMIT then Err("pattern exceeds 256 characters")
    else Ok(Note(Disallowed(a, v), a.key, "allowed_values") + Note(Mismatches(lib, a, v), a.key, "pattern")
            + Note(WrongType(a, v), a.key, "type"))
  }

  function Faults(lib: Library, attributes: seq<Attribute>, values: Values): Result<seq<Fault>> {
    if attributes == [] then Ok([])
    else
      var before := Faults(lib, attributes[..|attributes| - 1], values);
      if before.Err? then before
      else
        var last := FaultsOf(lib, attributes[|attributes| - 1], values);
        if last.Err? then last else Ok(before.value + last.value)
  }

  // ---- blocking keys ----

  function Digits(n: nat): (s: string)
    ensures |s| > 0 && forall i :: 0 <= i < |s| ==> '0' <= s[i] <= '9'
  {
    if n < 10 then [('0' as int + n) as char] else Digits(n / 10) + [('0' as int + n % 10) as char]
  }

  function Join(parts: seq<string>): string {
    if parts == [] then ""
    else if |parts| == 1 then parts[0]
    else Join(parts[..|parts| - 1]) + "|" + parts[|parts| - 1]
  }

  /** `field=value` for each field, or nothing at all when one of them is blank. */
  function FieldParts(lib: Library, fields: seq<string>, n: Values): seq<string> {
    if exists i :: 0 <= i < |fields| && Blank(Get(n, fields[i])) then []
    else seq(|fields|, i requires 0 <= i < |fields| => fields[i] + "=" + Show(lib, Get(n, fields[i])))
  }

  function Head(s: string, length: int): string {
    if 0 <= length <= |s| then s[..length] else s
  }

  /** A missing field clears the parts, yet a present prefix still adds its own; an empty prefix clears all. */
  function StrategyParts(lib: Library, b: Blocking, n: Values): seq<string> {
    if b.Word? then []
    else
      var parts := FieldParts(lib, b.fields, n);
      if !Set(b.prefix) || b.prefix.value.field.None? || b.prefix.value.length.None? then parts
      else
        var field := b.prefix.value.field.value;
        var value := if field in n then Show(lib, n[field]) else "";
        if value == "" then [] else parts + [field + "^=" + Head(value, b.prefix.value.length.value)]
  }

  function KeyOf(index: nat, parts: seq<string>): string {
    "p" + Digits(index) + "|" + Join(parts)
  }

  function BlockingKeys(lib: Library, blocking: seq<Blocking>, n: Values): seq<string> {
    if blocking == [] then []
    else
      var before := BlockingKeys(lib, blocking[..|blocking| - 1], n);
      var parts := StrategyParts(lib, blocking[|blocking| - 1], n);
      if parts == [] then before else before + [KeyOf(|blocking| - 1, parts)]
  }

  // ---- comparison ----

  /** A hard identifier that both sides carry with different values. */
  predicate Conflicts(item: Identifier, left: Values, right: Values) {
    && item.hard == Some(true) && item.field.Some?
    && !Blank(Get(left, item.field.value)) && !Blank(Get(right, item.field.value))
    && Get(left, item.field.value) != Get(right, item.field.value)
  }

  function Contradictions(items: seq<Identifier>, left: Values, right: Values): seq<Identifier> {
    if items == [] then []
    else
      var before := Contradictions(items[..|items| - 1], left, right);
      if Conflicts(items[|items| - 1], left, right) then before + [items[|items| - 1]] else before
  }

  function Component(lib: Library, c: Comparison, left: Values, right: Values): real {
    var a, b := Get(left, c.field), Get(right, c.field);
    if Blank(a) || Blank(b) then Or(c.missing, 0.0)
    else if c.comparator == "exact" then (if a == b then 1.0 else 0.0)
    else lib.ratio(Show(lib, a), Show(lib, b))
  }

  function Components(lib: Library, cs: seq<Comparison>, left: Values, right: Values): (xs: seq<real>)
    ensures |xs| == |cs|
  {
    seq(|cs|, i requires 0 <= i < |cs| => Component(lib, cs[i], left, right))
  }

  function TotalWeight(cs: seq<Comparison>): real {
    if cs == [] then 0.0 else TotalWeight(cs[..|cs| - 1]) + Or(cs[|cs| - 1].weight, 0.0)
  }

  function Product(x: real, w: real): real { x * w }

  function WeightedSum(cs: seq<Comparison>, xs: seq<real>): real
    requires |xs| == |cs|
  {
    if cs == [] then 0.0
    else WeightedSum(cs[..|cs| - 1], xs[..|cs| - 1]) + Product(xs[|cs| - 1], Or(cs[|cs| - 1].weight, 0.0))
  }

  function Quotient(a: real, b: real): real {
    if b == 0.0 then 0.0 else a / b
  }

  function Agreement(lib: Library, c: Comparison): real {
    lib.ln(Quotient(Or(c.m, 0.0), Or(c.u, 0.0)))
  }

  function Disagreement(lib: Library, c: Comparison): real {
    lib.ln(Quotient(1.0 - Or(c.m, 0.0), 1.0 - Or(c.u, 0.0)))
  }

  function Contribution(lib: Library, c: Comparison, x: real): real {
    Disagreement(lib, c) + Product(x, Agreement(lib, c) - Disagreement(lib, c))
  }

  function LogLikelihood(lib: Library, cs: seq<Comparison>, xs: seq<real>): real
    requires |xs| == |cs|
  {
    if cs == [] then 0.0
    else
      var c := cs[|cs| - 1];
      LogLikelihood(lib, cs[..|cs| - 1], xs[..|cs| - 1]) + Contribution(lib, c, xs[|cs| - 1])
  }

  /** The nearest integer; ties go to the even one. */
  function Nearest(y: real): int {
    var f := y.Floor;
    if y - f as real > 0.5 || (y - f as real == 0.5 && f % 2 == 1) then f + 1 else f
  }

  /** `round(x, digits)` on `scale == 10^digits`: half to even. */
  function Round(x: real, scale: nat): real
    requires scale > 0
  {
    Nearest(Product(x, scale as real)) as real / scale as real
  }

  function Posterior(lib: Library, prior: real, xs: real): real {
    Quotient(1.0, 1.0 + lib.exp(0.0 - (lib.ln(Quotient(prior, 1.0 - prior)) + xs)))
  }

  function Score(lib: Library, m: Matching, xs: seq<real>): real
    requires |xs| == |m.comparisons|
  {
    if m.algorithm == Some("fellegi_sunter") then
      Round(Posterior(lib, Or(m.prior, 0.01), LogLikelihood(lib, m.comparisons, xs)), 1000000)
    else if TotalWeight(m.comparisons) == 0.0 then 0.0
    else Round(WeightedSum(m.comparisons, xs) / TotalWeight(m.comparisons), 10000)
  }

  function DecisionOf(t: Thresholds, contradicted: bool, score: real): Decision {
    if contradicted then KeepSeparate
    else if score >= t.autoLink then AutoLink
    else if score >= t.review then Review
    else NoLink
  }

  function Compare(lib: Library, d: Definition, left: Values, right: Values): Verdict {
    var contradicted := Contradictions(Or(d.identifiers, []), left, right) != [];
    var score := Score(lib, d.matching, Components(lib, d.matching.comparisons, left, right));
    Verdict(score, DecisionOf(ThresholdsOf(d.matching), contradicted, score), contradicted)
  }

  // ---- the loops ----

  method ValidateRecord(lib: Library, d: Definition, values: Values) returns (r: Result<seq<Fault>>)
    ensures r == Faults(lib, d.attributes, values)
  {
    var errors: seq<Fault> := [];
    for i := 0 to |d.attributes|
      invariant Faults(lib, d.attributes[..i], values) == Ok(errors)
    {
      assert d.attributes[..i + 1][..i] == d.attributes[..i];
      var a := d.attributes[i];
      var v := Get(values, a.key);
      if a.required && (a.key !in values || v == Null || v == Text("")) {
        errors := errors + [Fault(a.key, "required")];
        continue;
      }
      if a.pattern.Some? && |a.pattern.value| > PATTERN_LIMIT {
        FirstFaultStays(lib, d.attributes, values, i + 1);
        return Err("pattern exceeds 256 characters");
      }
      var found := ValueFaults(lib, a, v);
      errors := errors + found;
    }
    assert d.attributes[..|d.attributes|] == d.attributes;
    return Ok(errors);
  }

  /** The three checks of a present value. */
  method ValueFaults(lib: Library, a: Attribute, v: Value) returns (found: seq<Fault>)
    ensures found == Note(Disallowed(a, v), a.key, "allowed_values") + Note(Mismatches(lib, a, v), a.key, "pattern")
                     + Note(WrongType(a, v), a.key, "type")
  {
    found := [];
    if v != Null && a.allowed.Only? && v !in a.allowed.values {
      found := found + [Fault(a.key, "allowed_values")];
    }
    assert found == Note(Disallowed(a, v), a.key, "allowed_values");
    if v != Null && a.pattern.Some? && a.pattern.value != "" && (!v.Text? || !lib.fullmatch(a.pattern.value, v.text)) {
      found := found + [Fault(a.key, "pattern")];
    }
    if WrongType(a, v) {
      found := found + [Fault(a.key, "type")];
    }
  }

  lemma {:induction false} FirstFaultStays(lib: Library, attributes: seq<Attribute>, values: Values, n: nat)
    requires n <= |attributes| && Faults(lib, attributes[..n], values).Err?
    ensures Faults(lib, attributes, values) == Faults(lib, attributes[..n], values)
    decreases |attributes| - n
  {
    if n == |attributes| {
      assert attributes[..n] == attributes;
    } else {
      assert attributes[..n + 1][..n] == attributes[..n];
      FirstFaultStays(lib, attributes, values, n + 1);
    }
  }

  /** The loop over the fields of one strategy, left at the first blank value. */
  method CollectFields(lib: Library, fields: seq<string>, n: Values) returns (parts: seq<string>)
    ensures parts == FieldParts(lib, fields, n)
  {
    parts := [];
    for i := 0 to |fields|
      invariant |parts| == i
      invariant forall j :: 0 <= j < i ==>
          !Blank(Get(n, fields[j])) && parts[j] == fields[j] + "=" + Show(lib, Get(n, fields[j]))
    {
      var value := Get(n, fields[i]);
      if Blank(value) { return []; }
      parts := parts + [fields[i] + "=" + Show(lib, value)];
    }
  }

  method ComputeBlockingKeys(lib: Library, blocking: seq<Blocking>, n: Values) returns (output: seq<string>)
    requires forall i :: 0 <= i < |blocking| ==> StrategySound(blocking[i])
    ensures output == BlockingKeys(lib, blocking, n)
  {
    output := [];
    for index := 0 to |blocking|
      invariant output == BlockingKeys(lib, blocking[..index], n)
    {
      assert blocking[..index + 1][..index] == blocking[..index];
      var strategy := blocking[index];
      var parts := CollectFields(lib, strategy.fields, n);
      if Set(strategy.prefix) {
        var field, length := strategy.prefix.value.field.value, strategy.prefix.value.length.value;
        var value := if field in n then Show(lib, n[field]) else "";
        if value == "" {
          parts := [];
        } else {
          parts := parts + [field + "^=" + Head(value, length)];
        }
      }
      assert parts == StrategyParts(lib, strategy, n);
      if parts != [] {
        output := output + ["p" + Digits(index) + "|" + Join(parts)];
      }
    }
    assert blocking[..|blocking|] == blocking;
  }

  method FindContradictions(items: seq<Identifier>, left: Values, right: Values) returns (found: seq<Identifier>)
    ensures found == Contradictions(items, left, right)
  {
    found := [];
    for i := 0 to |items|
      invariant found == Contradictions(items[..i], left, right)
    {
      assert items[..i + 1][..i] == items[..i];
      if Conflicts(items[i], left, right) { found := found + [items[i]]; }
    }
    assert items[..|items|] == items;
  }

  /** The loop over comparison rules. */
  method Accumulate(lib: Library, rules: seq<Comparison>, left: Values, right: Values)
    returns (score: real, totalWeight: real, logLikelihood: real)
    ensures totalWeight == TotalWeight(rules)
    ensures score == WeightedSum(rules, Components(lib, rules, left, right))
    ensures logLikelihood == LogLikelihood(lib, rules, Components(lib, rules, left, right))
  {
    ghost var xs := Components(lib, rules, left, right);
    score, totalWeight, logLikelihood := 0.0, 0.0, 0.0;
    for i := 0 to |rules|
      invariant totalWeight == TotalWeight(rules[..i])
      invariant score == WeightedSum(rules[..i], xs[..i])
      invariant logLikelihood == LogLikelihood(lib, rules[..i], xs[..i])
    {
      OneMoreRule(lib, rules, xs, i);
      var component := Component(lib, rules[i], left, right);
      var weight := Or(rules[i].weight, 0.0);
      totalWeight := totalWeight + weight;
      score := score + Product(component, weight);
      logLikelihood := logLikelihood + Contribution(lib, rules[i], component);
    }
    assert rules[..|rules|] == rules && xs[..|rules|] == xs;
  }

  lemma OneMoreRule(lib: Library, rules: seq<Comparison>, xs: seq<real>, i: nat)
    requires i < |rules| && |xs| == |rules|
    ensures TotalWeight(rules[..i + 1]) == TotalWeight(rules[..i]) + Or(rules[i].weight, 0.0)
    ensures WeightedSum(rules[..i + 1], xs[..i + 1]) == WeightedSum(rules[..i], xs[..i])
      + Product(xs[i], Or(rules[i].weight, 0.0))
    ensures LogLikelihood(lib, rules[..i + 1], xs[..i + 1]) ==
      LogLikelihood(lib, rules[..i], xs[..i]) + Contribution(lib, rules[i], xs[i])
  {
    assert rules[..i + 1][..i] == rules[..i] && xs[..i + 1][..i] == xs[..i];
  }

  /** `compare`: one pass over the identifiers, one over the comparison rules. */
  method ComparePair(lib: Library, d: Definition, left: Values, right: Values) returns (verdict: Verdict)
    ensures verdict == Compare(lib, d, left, right)
  {
    var contradictions := FindContradictions(Or(d.identifiers, []), left, right);
    var score, totalWeight, logLikelihood := Accumulate(lib, d.matching.comparisons, left, right);
    if d.matching.algorithm == Some("fellegi_sunter") {
      score := Round(Posterior(lib, Or(d.matching.prior, 0.01), logLikelihood), 1000000);
    } else {
      score := if totalWeight == 0.0 then 0.0 else Round(score / totalWeight, 10000);
    }
    verdict := Verdict(score, DecisionOf(ThresholdsOf(d.matching), contradictions != [], score), contradictions != []);
  }
}
