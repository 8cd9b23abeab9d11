/** Which definitions the compiler accepts, and what an accepted one does to a record, told by the definition as it is
    written. */
module RecordRules {
  import opened Prelude
  import opened Survivorship
  import opened Store
  import opened PolicyCompiler
  import opened Matcher
  import opened PolicyMeaning
  import opened Wiring
  import opened Agreements

  // ---- normalization ----

  function KindOf(a: Attribute): string {
    if a.kind.Some? then a.kind.value else "string"
  }

  /** How the text of an attribute is normalized: as asked for; names and references by case folding; else not. */
  function ModeOf(a: Attribute): string {
    if a.normalizer.Some? then a.normalizer.value
    else if KindOf(a) == "string" || KindOf(a) == "reference" then "unicode_casefold"
    else "preserve"
  }

  function ItemModeOf(a: Attribute): string {
    if a.normalizer.Some? then a.normalizer.value else "unicode_casefold"
  }

  /** The normal form of one value. */
  ghost predicate NormalForm(lib: Library, a: Attribute, v: Value, out: Value) {
    if v == Null then out == Null
    else if KindOf(a) == "decimal" then out == lib.decimal(v)
    else match v {
      case Text(text) => out == Text(lib.text(text, ModeOf(a)))
      case Items(items) =>
        && out.Items? && |out.items| == |items|
        && forall i :: 0 <= i < |items| ==>
             out.items[i] == if items[i].Text? then Text(lib.text(items[i].text, ItemModeOf(a))) else items[i]
      case _ => out == v
    }
  }

  /** The attribute that decides a key: the last one that has it. */
  ghost predicate Decides(attributes: seq<Attribute>, i: nat, key: string) {
    i < |attributes| && attributes[i].key == key && forall j :: i < j < |attributes| ==> attributes[j].key != key
  }

  lemma {:induction false} DecidingAttribute(attributes: seq<Attribute>, key: string)
    ensures forall i: nat :: Decides(attributes, i, key) ==> AttributeOf(attributes, key) == Some(attributes[i])
    ensures (forall i :: 0 <= i < |attributes| ==> attributes[i].key != key) ==> AttributeOf(attributes, key).None?
  {
    if attributes != [] {
      var n := |attributes| - 1;
      DecidingAttribute(attributes[..n], key);
      forall i: nat | Decides(attributes, i, key) ensures AttributeOf(attributes, key) == Some(attributes[i]) {
        if i < n { assert Decides(attributes[..n], i, key); }
      }
    }
  }

  /** Each value of a record takes the normal form of its attribute, as the definition writes it; a value without an
      attribute stays. */
  lemma NormalizesByDefinition(lib: Library, doc: Document, values: Values, key: string)
    requires Compile(lib, doc).Ok? && key in values
    ensures var out := Normalize(lib, Compile(lib, doc).value.document, values);
      && out.Keys == values.Keys
      && (forall i: nat :: Decides(doc.spec.attributes, i, key) ==>
            NormalForm(lib, doc.spec.attributes[i], values[key], out[key]))
      && ((forall i :: 0 <= i < |doc.spec.attributes| ==> doc.spec.attributes[i].key != key) ==>
            out[key] == values[key])
  {
    CompiledParts(lib, doc);
    var c := Compile(lib, doc).value.document;
    DecidingAttribute(c.attributes, key);
    forall i: nat | Decides(doc.spec.attributes, i, key)
      ensures NormalForm(lib, doc.spec.attributes[i], values[key],
                         Normalize(lib, Compile(lib, doc).value.document, values)[key])
    {
      CompiledAttribute(lib, doc.spec.validation, doc.spec.attributes[i], c.attributes[i]);
      SameKeys(lib, doc.spec, c.attributes);
      assert Decides(c.attributes, i, key);
      NormalizedForm(lib, doc.spec.attributes[i], c.attributes[i], values[key]);
    }
    SameKeys(lib, doc.spec, c.attributes);
  }

  /** Compilation fills in the name and the allowed values of an attribute and changes nothing else. */
  lemma CompiledAttribute(lib: Library, rules: seq<Validation>, a: Attribute, c: Attribute)
    requires CompileAttribute(lib, rules, a) == Ok(c)
    ensures c == a.(name := c.name, allowed := c.allowed, allowedCamel := Absent)
    ensures c.name == Some(if a.name.Some? then a.name.value else lib.title(a.key))
  {
  }

  lemma SameKeys(lib: Library, d: Definition, compiled: seq<Attribute>)
    requires CompileAttributes(lib, d.validation, d.attributes) == Ok(compiled)
    ensures |compiled| == |d.attributes|
    ensures forall i :: 0 <= i < |compiled| ==> compiled[i].key == d.attributes[i].key
  {
    forall i | 0 <= i < |compiled| ensures compiled[i].key == d.attributes[i].key {
      CompiledAttribute(lib, d.validation, d.attributes[i], compiled[i]);
    }
  }

  lemma NormalizedForm(lib: Library, a: Attribute, c: Attribute, v: Value)
    requires c.kind == a.kind && c.normalizer == a.normalizer
    ensures NormalForm(lib, a, v, NormalizedValue(lib, c, v))
  {
  }

  // ---- validation ----

  predicate Wanting(a: Attribute, values: Values) {
    a.required && !Carries(values, a.key)
  }

  predicate Mistyped(a: Attribute, v: Value) {
    || (KindOf(a) in {"string", "reference", "identifier", "enum"} && !v.Text?)
    || (KindOf(a) == "integer" && !v.Number? && !v.Flag?)
    || (KindOf(a) == "boolean" && !v.Flag?)
  }

  predicate Mismatched(lib: Library, a: Attribute, v: Value) {
    a.pattern.Some? && a.pattern.value != "" && (v.Text? ==> !lib.fullmatch(a.pattern.value, v.text))
  }

  /** The definition finds fault with the record in its `i`-th attribute: a required value is missing; or a present one
      is not allowed, does not match the pattern, or has the wrong type. */
  ghost predicate Faulty(lib: Library, d: Definition, i: nat, values: Values)
    requires i < |d.attributes|
  {
    var a := d.attributes[i];
    || Wanting(a, values)
    || (a.key in values && values[a.key] != Null
        && (|| !Allows(d, i, values[a.key]) || Mismatched(lib, a, values[a.key]) || Mistyped(a, values[a.key])))
  }

  predicate WithinLimit(d: Definition) {
    forall i :: 0 <= i < |d.attributes| ==> d.attributes[i].pattern.Some? ==> |d.attributes[i].pattern.value| <= 256
  }

  lemma FaultyIff(lib: Library, d: Definition, i: nat, c: Attribute, values: Values)
    requires i < |d.attributes| && CompileAttribute(lib, d.validation, d.attributes[i]) == Ok(c)
    requires d.attributes[i].pattern.Some? ==> |d.attributes[i].pattern.value| <= 256
    ensures FaultsOf(lib, c, values) != Ok([]) <==> Faulty(lib, d, i, values)
  {
    var a := d.attributes[i];
    CompiledAttribute(lib, d.validation, a, c);
    if !Wanting(a, values) {
      AttributeIsKept(lib, d, i, c, values);
      assert Get(values, a.key) == if a.key in values then values[a.key] else Null;
      FaultsAreNotes(lib, c, values);
    }
  }

  /** A present value is faultless when none of the three tests notes it. */
  lemma FaultsAreNotes(lib: Library, c: Attribute, values: Values)
    requires !Missing(c, values) && |Or(c.pattern, "")| <= PATTERN_LIMIT
    ensures var v := Get(values, c.key);
      && FaultsOf(lib, c, values).Ok?
      && (Fault(c.key, "allowed_values") in FaultsOf(lib, c, values).value <==> Disallowed(c, v))
      && (FaultsOf(lib, c, values) != Ok([]) <==> Disallowed(c, v) || Mismatches(lib, c, v) || WrongType(c, v))
  {
    var v := Get(values, c.key);
    var found := FaultsOf(lib, c, values).value;
    if Disallowed(c, v) { assert found[0] == Fault(c.key, "allowed_values"); }
    if Mismatches(lib, c, v) { assert |found| > 0; }
    if WrongType(c, v) { assert |found| > 0; }
  }

  /** A record is quarantined exactly when the definition, as written, finds fault with one of its attributes. */
  lemma QuarantinedByDefinition(lib: Library, doc: Document, values: Values)
    requires Compile(lib, doc).Ok? && WithinLimit(doc.spec)
    ensures RulesOf(lib, Compile(lib, doc).value.document).invalid(values) <==>
      exists i: nat :: i < |doc.spec.attributes| && Faulty(lib, doc.spec, i, values)
  {
    CompiledParts(lib, doc);
    var c := Compile(lib, doc).value.document.attributes;
    forall i: nat | i < |c|
      ensures |Or(c[i].pattern, "")| <= PATTERN_LIMIT
      ensures FaultAt(lib, c, values, i) <==> Faulty(lib, doc.spec, i, values)
    {
      CompiledAttribute(lib, doc.spec.validation, doc.spec.attributes[i], c[i]);
      FaultyIff(lib, doc.spec, i, c[i], values);
    }
    QuarantineIsAFault(lib, c, values);
  }

  // ---- what the compiler accepts ----

  predicate RolesNamed(roles: Option<set<string>>) {
    roles.Some? ==> "" !in roles.value
  }

  predicate AttributeAccepted(a: Attribute) {
    && a.unknown == {} && RolesNamed(a.readRoles) && RolesNamed(a.writeRoles)
    && KindOf(a) in
         {"string", "reference", "integer", "decimal", "boolean", "date", "datetime", "identifier", "enum"}
    && (a.normalizer.Some? ==> a.normalizer.value in {"preserve", "uppercase_trim", "unicode_casefold"})
  }

  /** A prefix is left out, or it names a field and a length from 1 to 64. */
  predicate PrefixAccepted(prefix: Option<Prefix>) {
    || prefix.None? || prefix.value == Prefix(None, None, {})
    || (prefix.value.unknown == {} && prefix.value.field.Some? && prefix.value.length.Some?
        && 1 <= prefix.value.length.value <= 64)
  }

  /** Only words, or only complete strategies. */
  predicate BlockingAccepted(blocking: seq<Blocking>) {
    || (forall i :: 0 <= i < |blocking| ==> blocking[i].Word?)
    || (forall i :: 0 <= i < |blocking| ==>
          blocking[i].Strategy? && blocking[i].unknown == {} && PrefixAccepted(blocking[i].prefix))
  }

  predicate RuleAccepted(c: Comparison) {
    c.unknown == {} && c.comparator in {"exact", "sequence_ratio"} && c.weight.Some? && c.weight.value > 0.0
  }

  predicate ProbabilitiesAccepted(c: Comparison) {
    c.m.Some? && c.u.Some? && 0.0 < c.u.value < c.m.value < 1.0
  }

  predicate MatchingAccepted(m: Matching) {
    && m.unknown == {} && BlockingAccepted(m.blocking)
    && (forall i :: 0 <= i < |m.comparisons| ==> RuleAccepted(m.comparisons[i]))
    && m.algorithm in {None, Some("weighted_score"), Some("fellegi_sunter")}
    && (m.algorithm == Some("fellegi_sunter") ==>
          && 0.0 < WrittenPrior(m) < 1.0
          && forall i :: 0 <= i < |m.comparisons| ==> ProbabilitiesAccepted(m.comparisons[i]))
    && 0.0 <= Written(m).review <= Written(m).autoLink <= 1.01
  }

  predicate SurvivalAccepted(rule: Survival) {
    var name := if rule.Named? then Some(rule.name) else rule.strategy;
    && (rule.Detailed? ==> rule.unknown == {})
    && name in {Some("source_priority_then_observation_time"),
                Some("verified_then_source_priority_then_observation_time")}
  }

  predicate SurvivorshipAccepted(d: Definition) {
    d.survivorship.Some? ==>
      forall field :: field in d.survivorship.value ==>
        && SurvivalAccepted(d.survivorship.value[field])
        && (field == "default" || exists i :: 0 <= i < |d.attributes| && d.attributes[i].key == field)
  }

  predicate Accepted(doc: Document) {
    var d := doc.spec;
    && (doc.Pack? ==> doc.apiVersion == "recordlane.io/v1alpha1")
    && d.unknown == {} && (forall i :: 0 <= i < |d.validation| ==> d.validation[i].unknown == {})
    && (d.identifiers.Some? ==> forall i :: 0 <= i < |d.identifiers.value| ==> d.identifiers.value[i].unknown == {})
    && (forall i :: 0 <= i < |d.attributes| ==> AttributeAccepted(d.attributes[i]))
    && MatchingAccepted(d.matching) && SurvivorshipAccepted(d)
  }

  lemma {:induction false} AttributesCompileIff(lib: Library, rules: seq<Validation>, items: seq<Attribute>)
    ensures CompileAttributes(lib, rules, items).Ok? <==> forall i :: 0 <= i < |items| ==> AttributeAccepted(items[i])
  {
    if items != [] {
      var n := |items| - 1;
      AttributesCompileIff(lib, rules, items[..n]);
      assert CompileAttribute(lib, rules, items[n]).Ok? <==> AttributeAccepted(items[n]);
      assert forall i :: 0 <= i < n ==> items[..n][i] == items[i];
    }
  }

  lemma PrefixSoundIff(prefix: Option<Prefix>)
    ensures PrefixSound(prefix) <==> PrefixAccepted(prefix)
  {
  }

  lemma BlockingCompilesIff(blocking: seq<Blocking>)
    ensures (forall i :: 0 <= i < |Desugared(blocking)| ==> StrategySound(Desugared(blocking)[i])) <==>
      BlockingAccepted(blocking)
  {
    var b := Desugared(blocking);
    if AllWords(blocking) {
      assert StrategySound(b[0]);
    } else {
      forall i | 0 <= i < |blocking|
        ensures StrategySound(blocking[i]) <==>
          blocking[i].Strategy? && blocking[i].unknown == {} && PrefixAccepted(blocking[i].prefix)
      {
        if blocking[i].Strategy? { PrefixSoundIff(blocking[i].prefix); }
      }
    }
  }

  lemma ProbabilitiesIff(c: Comparison)
    ensures FellegiSunterSound(c) <==> ProbabilitiesAccepted(c)
  {
  }

  lemma MatchingCompilesIff(m: Matching)
    ensures CompileMatching(m).Ok? <==> MatchingAccepted(m)
  {
    BlockingCompilesIff(m.blocking);
    forall i | 0 <= i < |m.comparisons|
      ensures ComparisonSound(m.comparisons[i]) <==> RuleAccepted(m.comparisons[i])
      ensures FellegiSunterSound(m.comparisons[i]) <==> ProbabilitiesAccepted(m.comparisons[i])
    {
      ProbabilitiesIff(m.comparisons[i]);
    }
  }

  lemma IdentifiersDeclaredIff(d: Definition)
    ensures (forall i :: 0 <= i < |Declared(d)| ==> Declared(d)[i].unknown == {}) <==>
      (d.identifiers.Some? ==> forall i :: 0 <= i < |d.identifiers.value| ==> d.identifiers.value[i].unknown == {})
  {
    if d.identifiers.Some? {
      assert Declared(d) == d.identifiers.value;
    } else {
      forall i | 0 <= i < |Declared(d)| ensures Declared(d)[i].unknown == {} { }
    }
  }

  lemma SurvivorshipIff(lib: Library, d: Definition, attributes: seq<Attribute>)
    requires CompileAttributes(lib, d.validation, d.attributes) == Ok(attributes)
    ensures var rules := Or(d.survivorship, DefaultSurvivorship());
      (&& rules.Keys <= KeysOf(attributes) + {"default"}
       && forall field :: field in rules ==> SurvivalSound(rules[field])) <==> SurvivorshipAccepted(d)
  {
    SameKeys(lib, d, attributes);
    forall field
      ensures field in KeysOf(attributes) <==> exists i :: 0 <= i < |d.attributes| && d.attributes[i].key == field
    {
      if i :| 0 <= i < |d.attributes| && d.attributes[i].key == field { assert attributes[i].key == field; }
    }
  }

  /** The compiler accepts exactly the definitions that meet the written conditions. */
  lemma AcceptedIff(lib: Library, doc: Document)
    ensures Compile(lib, doc).Ok? <==> Accepted(doc)
  {
    var d := doc.spec;
    AttributesCompileIff(lib, d.validation, d.attributes);
    MatchingCompilesIff(d.matching);
    IdentifiersDeclaredIff(d);
    var attributes := CompileAttributes(lib, d.validation, d.attributes);
    if attributes.Ok? { SurvivorshipIff(lib, d, attributes.value); }
  }

  /** What a definition leaves out is filled in. */
  lemma DefaultsAreFilled(lib: Library, doc: Document)
    requires Compile(lib, doc).Ok?
    ensures var d, c := doc.spec, Compile(lib, doc).value;
      && c.document.entity == Some(if d.entity.Some? then d.entity.value else "Entity")
      && c.document.mode == Some(if d.mode.Some? then d.mode.value else "coexistence")
      && c.document.relationships == d.relationships
      && c.document.matching.algorithm ==
           Some(if d.matching.algorithm.Some? then d.matching.algorithm.value else "weighted_score")
      && c.document.matching.prior == Some(WrittenPrior(d.matching))
      && c.document.matching.thresholds == Some(Written(d.matching))
      && c.document.matching.comparisons == d.matching.comparisons
      && c.version == match doc {
           case Pack(_, version, _) => if version.Some? then version.value else "unversioned"
           case Plain(spec) =>
             if spec.policyVersion.Some? then spec.policyVersion.value
             else if spec.schemaVersion.Some? then spec.schemaVersion.value else "runtime-1"
         }
  {
  }
}
