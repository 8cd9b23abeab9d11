/** The compiler as the service runs it: loops that build and check the canonical document. */
module PolicyCompilation {
  import opened Prelude
  import opened Survivorship
  import opened PolicyCompiler

  /** The first error of a prefix is the error of the whole list. */
  lemma {:induction false} FirstErrorStays(lib: Library, rules: seq<Validation>, items: seq<Attribute>, n: nat)
    requires n <= |items| && CompileAttributes(lib, rules, items[..n]).Err?
    ensures CompileAttributes(lib, rules, items) == CompileAttributes(lib, rules, items[..n])
    decreases |items| - n
  {
    if n == |items| {
      assert items[..n] == items;
    } else {
      assert items[..n + 1][..n] == items[..n];
      FirstErrorStays(lib, rules, items, n + 1);
    }
  }

  lemma InheritedStep(rules: seq<Validation>, n: nat, key: string)
    requires n < |rules|
    ensures Inherited(rules[..n + 1], key) ==
      if rules[n].attribute == Some(key) && key != "" then rules[n].allowed else Inherited(rules[..n], key)
  {
    assert rules[..n + 1][..n] == rules[..n];
  }

  /** `validation_by_field`. */
  method CollectValidation(rules: seq<Validation>) returns (byField: Result<map<string, Allowed>>)
    ensures byField.Err? <==> exists i :: 0 <= i < |rules| && rules[i].unknown != {}
    ensures byField.Err? ==> byField.code == "unsupported validation settings"
    ensures byField.Ok? ==> forall key ::
        (if key in byField.value then byField.value[key] else Absent) == Inherited(rules, key)
  {
    var m: map<string, Allowed> := map[];
    for i := 0 to |rules|
      invariant forall j :: 0 <= j < i ==> rules[j].unknown == {}
      invariant forall key :: (if key in m then m[key] else Absent) == Inherited(rules[..i], key)
    {
      var rule := rules[i];
      if rule.unknown != {} {
        return Err("unsupported validation settings");
      }
      forall key ensures Inherited(rules[..i + 1], key) ==
        if rule.attribute == Some(key) && key != "" then rule.allowed else Inherited(rules[..i], key)
      {
        InheritedStep(rules, i, key);
      }
      if rule.attribute.Some? && rule.attribute.value != "" {
        m := m[rule.attribute.value := rule.allowed];
      }
    }
    assert rules[..|rules|] == rules;
    return Ok(m);
  }

  /** The attribute loop. */
  method CollectAttributes(lib: Library, ghost rules: seq<Validation>, byField: map<string, Allowed>,
                           items: seq<Attribute>)
    returns (r: Result<seq<Attribute>>)
    requires forall key :: (if key in byField then byField[key] else Absent) == Inherited(rules, key)
    ensures r == CompileAttributes(lib, rules, items)
  {
    var attributes: seq<Attribute> := [];
    for i := 0 to |items|
      invariant CompileAttributes(lib, rules, items[..i]) == Ok(attributes)
    {
      assert items[..i + 1][..i] == items[..i];
      var item := items[i];
      var attribute := item;
      if item.unknown != {} {
        FirstErrorStays(lib, rules, items, i + 1);
        return Err("unsupported attribute settings");
      }
      if !RolesSound(attribute.readRoles) || !RolesSound(attribute.writeRoles) {
        FirstErrorStays(lib, rules, items, i + 1);
        return Err("must be roles");
      }
      if Or(attribute.kind, "string") !in ATTRIBUTE_TYPES {
        FirstErrorStays(lib, rules, items, i + 1);
        return Err("unsupported attribute type");
      }
      if Or(attribute.normalizer, "preserve") !in NORMALIZERS {
        FirstErrorStays(lib, rules, items, i + 1);
        return Err("unsupported normalizer");
      }
      if attribute.name.None? {
        attribute := attribute.(name := Some(lib.title(attribute.key)));
      }
      if attribute.allowedCamel != Absent {
        attribute := attribute.(allowed := attribute.allowedCamel, allowedCamel := Absent);
      }
      var inherited := if attribute.key in byField then byField[attribute.key] else Absent;
      if inherited.Only? && attribute.allowed == Absent {
        attribute := attribute.(allowed := inherited);
      }
      assert inherited == Inherited(rules, item.key);
      assert CompileAttribute(lib, rules, item) == Ok(attribute);
      attributes := attributes + [attribute];
    }
    assert items[..|items|] == items;
    return Ok(attributes);
  }

  /** The blocking list: the short form is rewritten, every strategy is checked. */
  method CollectBlocking(items: seq<Blocking>) returns (r: Result<seq<Blocking>>)
    ensures r == if forall i :: 0 <= i < |Desugared(items)| ==> StrategySound(Desugared(items)[i])
                 then Ok(Desugared(items)) else Err("unsupported blocking")
  {
    var blocking := items;
    if AllWords(items) {
      var fields := [];
      for i := 0 to |items|
        invariant fields == FieldWords(items[..i])
      {
        assert items[..i + 1][..i] == items[..i];
        if items[i].word != "name_prefix" { fields := fields + [items[i].word]; }
      }
      assert items[..|items|] == items;
      blocking := [Strategy(fields, if Word("name_prefix") in items then Some(NAME_PREFIX) else None, {})];
    }
    for i := 0 to |blocking|
      invariant forall j :: 0 <= j < i ==> StrategySound(blocking[j])
    {
      if !StrategySound(blocking[i]) { return Err("unsupported blocking"); }
    }
    return Ok(blocking);
  }

  /** The comparison and probability guards. */
  method CheckComparisons(rules: seq<Comparison>, probabilities: bool) returns (ok: bool)
    ensures ok <==> forall i :: 0 <= i < |rules| ==>
      if probabilities then FellegiSunterSound(rules[i]) else ComparisonSound(rules[i])
  {
    for i := 0 to |rules|
      invariant forall j :: 0 <= j < i ==> if probabilities then FellegiSunterSound(rules[j])
          else ComparisonSound(rules[j])
    {
      if probabilities && !FellegiSunterSound(rules[i]) { return false; }
      if !probabilities && !ComparisonSound(rules[i]) { return false; }
    }
    return true;
  }

  method CollectMatching(m: Matching) returns (r: Result<Matching>)
    ensures r == CompileMatching(m)
  {
    if m.unknown != {} { return Err("unsupported matching settings"); }
    var blocking := CollectBlocking(m.blocking);
    if blocking.Err? { return Err(blocking.code); }
    var ok := CheckComparisons(m.comparisons, false);
    if !ok { return Err("unsupported comparison"); }
    var algorithm := Or(m.algorithm, "weighted_score");
    if algorithm !in ALGORITHMS { return Err("unsupported matching algorithm"); }
    var prior := Or(m.prior, 0.01);
    if algorithm == "fellegi_sunter" {
      if !(0.0 < prior < 1.0) { return Err("prior_match_probability"); }
      ok := CheckComparisons(m.comparisons, true);
      if !ok { return Err("probabilities"); }
    }
    var thresholds := if m.thresholds.Some? then m.thresholds.value
        else Thresholds(Or(m.review, 1.01), Or(m.autoLink, 1.01));
    if !ThresholdsSound(thresholds) { return Err("thresholds"); }
    return Ok(Matching(blocking.value, m.comparisons, Some(thresholds), None, None, [], Some(algorithm), Some(prior),
        {}));
  }

  method CollectIdentifiers(d: Definition) returns (r: Result<seq<Identifier>>)
    ensures r == if forall i :: 0 <= i < |Declared(d)| ==> Declared(d)[i].unknown == {}
                 then Ok(CompileIdentifiers(d.matching.hardConflicts, Declared(d)))
                 else Err("unsupported identifier settings")
  {
    var declared := Declared(d);
    for i := 0 to |declared|
      invariant forall j :: 0 <= j < i ==> declared[j].unknown == {}
    {
      if declared[i].unknown != {} { return Err("unsupported identifier settings"); }
    }
    var identifiers: seq<Identifier> := [];
    for i := 0 to |declared|
      invariant |identifiers| == i
      invariant forall j :: 0 <= j < i ==> identifiers[j] == CompileIdentifier(d.matching.hardConflicts, declared[j])
    {
      identifiers := identifiers + [CompileIdentifier(d.matching.hardConflicts, declared[i])];
    }
    assert identifiers == CompileIdentifiers(d.matching.hardConflicts, declared);
    return Ok(identifiers);
  }

  method CheckSurvivorship(survivorship: map<string, Survival>, keys: set<string>) returns (code: Option<string>)
    ensures code == if !(survivorship.Keys <= keys + {"default"}) then Some("unknown survivorship attribute")
                    else if !forall field :: field in survivorship ==> SurvivalSound(survivorship[field])
                    then Some("unsupported survivorship") else None
  {
    if !(survivorship.Keys <= keys + {"default"}) { return Some("unknown survivorship attribute"); }
    var rest := survivorship.Keys;
    while rest != {}
      invariant rest <= survivorship.Keys
      invariant forall field :: field in survivorship && field !in rest ==> SurvivalSound(survivorship[field])
      decreases rest
    {
      var field :| field in rest;
      if !SurvivalSound(survivorship[field]) { return Some("unsupported survivorship"); }
      rest := rest - {field};
    }
    return None;
  }

  /** `compile_policy`. */
  method CompilePolicy(lib: Library, doc: Document) returns (r: Result<Compiled>)
    ensures r == Compile(lib, doc)
  {
    if doc.Pack? && doc.apiVersion != API_VERSION { return Err("unsupported domain-pack apiVersion"); }
    var d := doc.spec;
    if d.unknown != {} { return Err("unsupported policy settings"); }
    var byField := CollectValidation(d.validation);
    if byField.Err? { return Err(byField.code); }
    var attributes := CollectAttributes(lib, d.validation, byField.value, d.attributes);
    if attributes.Err? { return Err(attributes.code); }
    var identifiers := CollectIdentifiers(d);
    if identifiers.Err? { return Err(identifiers.code); }
    var matching := CollectMatching(d.matching);
    if matching.Err? { return Err(matching.code); }
    var survivorship := Or(d.survivorship, DefaultSurvivorship());
    var problem := CheckSurvivorship(survivorship, KeysOf(attributes.value));
    if problem.Some? { return Err(problem.value); }
    return Ok(Compiled(Canonical(d, attributes.value, matching.value, survivorship), VersionOf(doc)));
  }
}
