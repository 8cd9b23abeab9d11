/** The policy compiler: defaults, desugarings and guards that turn a domain definition into its canonical document. */
module PolicyCompiler {
  import opened Prelude
  import opened Survivorship

  const NORMALIZERS := {"preserve", "uppercase_trim", "unicode_casefold"}
  const ATTRIBUTE_TYPES :=
    {"string", "reference", "integer", "decimal", "boolean", "date", "datetime", "identifier", "enum"}
  const STRATEGIES :=
    {"source_priority_then_observation_time", "verified_then_source_priority_then_observation_time"}
  const COMPARATORS := {"exact", "sequence_ratio"}
  const ALGORITHMS := {"weighted_score", "fellegi_sunter"}
  const API_VERSION := "recordlane.io/v1alpha1"

  /** Library functions the compiler and the matcher call, left uninterpreted. */
  datatype Library = Library(
    title: string -> string,
    text: (string, string) -> string,
    decimal: Value -> Value,
    fullmatch: (string, string) -> bool,
    ratio: (string, string) -> real,
    show: Value -> string,
    ln: real -> real,
    exp: real -> real)

  // ---- documents; `unknown` holds the settings the compiler does not know ----

  /** A list of allowed values: not given, JSON null, or a list. */
  datatype Allowed = Absent | Nothing | Only(values: seq<Value>)

  datatype Attribute = Attribute(
    key: string, name: Option<string>, kind: Option<string>, required: bool, allowed: Allowed, allowedCamel: Allowed,
    pattern: Option<string>, normalizer: Option<string>, readRoles: Option<set<string>>,
    writeRoles: Option<set<string>>, unknown: set<string>)

  datatype Validation = Validation(attribute: Option<string>, allowed: Allowed, unknown: set<string>)

  datatype Identifier = Identifier(
    field: Option<string>, key: Option<string>, namespace: Option<string>, hard: Option<bool>, unknown: set<string>)

  datatype Prefix = Prefix(field: Option<string>, length: Option<int>, unknown: set<string>)

  /** A blocking entry: a bare word of the short form, or a strategy. */
  datatype Blocking = Word(word: string) | Strategy(fields: seq<string>, prefix: Option<Prefix>, unknown: set<string>)

  datatype Comparison = Comparison(
    field: string, comparator: string, weight: Option<real>, missing: Option<real>,
    m: Option<real>, u: Option<real>, unknown: set<string>)

  datatype Thresholds = Thresholds(review: real, autoLink: real)

  datatype Matching = Matching(
    blocking: seq<Blocking>, comparisons: seq<Comparison>, thresholds: Option<Thresholds>,
    autoLink: Option<real>, review: Option<real>, hardConflicts: seq<string>,
    algorithm: Option<string>, prior: Option<real>, unknown: set<string>)

  datatype Survival = Named(name: string) | Detailed(strategy: Option<string>, precedence: seq<string>,
      unknown: set<string>)

  datatype Definition = Definition(
    entity: Option<string>, mode: Option<string>, attributes: seq<Attribute>, identifiers: Option<seq<Identifier>>,
    namespaces: seq<string>, matching: Matching, survivorship: Option<map<string, Survival>>,
    relationships: seq<Value>, validation: seq<Validation>, policyVersion: Option<string>,
    schemaVersion: Option<string>, unknown: set<string>)

  /** A definition as stored, or wrapped in a domain pack. */
  datatype Document = Plain(spec: Definition) | Pack(apiVersion: string, version: Option<string>, spec: Definition)

  /** The canonical document stands for its own checksum. */
  datatype Compiled = Compiled(document: Definition, version: string)

  function Or<T>(x: Option<T>, default: T): T {
    if x.Some? then x.value else default
  }

  // ---- attributes ----

  /** The last validation rule of the field decides what the attribute inherits. */
  function Inherited(rules: seq<Validation>, key: string): Allowed {
    if rules == [] then Absent
    else
      var r := rules[|rules| - 1];
      if r.attribute == Some(key) && key != "" then r.allowed else Inherited(rules[..|rules| - 1], key)
  }

  /** The allowed values in force: the attribute's own list, or else the inherited one. */
  function Effective(a: Attribute, inherited: Allowed): Allowed {
    if a.allowedCamel != Absent then a.allowedCamel
    else if a.allowed != Absent then a.allowed
    else if inherited.Only? then inherited
    else Absent
  }

  predicate RolesSound(roles: Option<set<string>>) {
    roles.Some? ==> "" !in roles.value
  }

  function CompileAttribute(lib: Library, rules: seq<Validation>, a: Attribute): Result<Attribute> {
    if a.unknown != {} then Err("unsupported attribute settings")
    else if !RolesSound(a.readRoles) || !RolesSound(a.writeRoles) then Err("must be roles")
    else if Or(a.kind, "string") !in ATTRIBUTE_TYPES then Err("unsupported attribute type")
    else if Or(a.normalizer, "preserve") !in NORMALIZERS then Err("unsupported normalizer")
    else Ok(a.(name := Some(Or(a.name, lib.title(a.key))),
               allowed := Effective(a, Inherited(rules, a.key)), allowedCamel := Absent))
  }

  function CompileAttributes(lib: Library, rules: seq<Validation>, items: seq<Attribute>): (r: Result<seq<Attribute>>)
    ensures r.Ok? ==> |r.value| == |items|
    ensures r.Ok? ==> forall i :: 0 <= i < |items| ==> CompileAttribute(lib, rules, items[i]) == Ok(r.value[i])
  {
    if items == [] then Ok([])
    else
      var before := CompileAttributes(lib, rules, items[..|items| - 1]);
      if before.Err? then before
      else
        var last := CompileAttribute(lib, rules, items[|items| - 1]);
        if last.Err? then Err(last.code) else Ok(before.value + [last.value])
  }

  // ---- identifiers ----

  function Declared(d: Definition): seq<Identifier> {
    if d.identifiers.Some? then d.identifiers.value
    else seq(|d.namespaces|, i requires 0 <= i < |d.namespaces| =>
           Identifier(Some(d.namespaces[i]), None, Some(d.namespaces[i]), None, {}))
  }

  function FieldOf(item: Identifier): Option<string> {
    if item.field.Some? then item.field else item.key
  }

  function CompileIdentifier(hardConflicts: seq<string>, item: Identifier): Identifier {
    var field := FieldOf(item);
    Identifier(field, None, if item.namespace.Some? then item.namespace else field,
               Some(Or(item.hard, field.Some? && field.value in hardConflicts)), {})
  }

  function CompileIdentifiers(hardConflicts: seq<string>, items: seq<Identifier>): seq<Identifier> {
    seq(|items|, i requires 0 <= i < |items| => CompileIdentifier(hardConflicts, items[i]))
  }

  // ---- matching ----

  function FieldWords(words: seq<Blocking>): (fields: seq<string>) {
    if words == [] then []
    else
      var before := FieldWords(words[..|words| - 1]);
      var last := words[|words| - 1];
      if last.Word? && last.word != "name_prefix" then before + [last.word] else before
  }

  predicate AllWords(blocking: seq<Blocking>) {
    blocking != [] && forall i :: 0 <= i < |blocking| ==> blocking[i].Word?
  }

  const NAME_PREFIX := Prefix(Some("name"), Some(5), {})

  /** A list of words becomes one strategy. */
  function Desugared(blocking: seq<Blocking>): seq<Blocking> {
    if AllWords(blocking) then
      [Strategy(FieldWords(blocking), if Word("name_prefix") in blocking then Some(NAME_PREFIX) else None, {})]
    else blocking
  }

  predicate Set(prefix: Option<Prefix>) {
    prefix.Some? && (prefix.value.field.Some? || prefix.value.length.Some? || prefix.value.unknown != {})
  }

  predicate PrefixSound(prefix: Option<Prefix>) {
    Set(prefix) ==>
      && prefix.value.unknown == {} && prefix.value.field.Some? && prefix.value.length.Some?
      && 1 <= prefix.value.length.value <= 64
  }

  predicate StrategySound(b: Blocking) {
    b.Strategy? && b.unknown == {} && PrefixSound(b.prefix)
  }

  predicate ComparisonSound(c: Comparison) {
    c.unknown == {} && c.comparator in COMPARATORS && c.weight.Some? && c.weight.value > 0.0
  }

  /** `0 < u < m < 1`, a missing probability counting as zero. */
  predicate FellegiSunterSound(c: Comparison) {
    0.0 < Or(c.u, 0.0) < Or(c.m, 0.0) < 1.0
  }

  function ThresholdsOf(m: Matching): Thresholds {
    if m.thresholds.Some? then m.thresholds.value
    else Thresholds(Or(m.review, 1.01), Or(m.autoLink, 1.01))
  }

  predicate ThresholdsSound(t: Thresholds) {
    0.0 <= t.review <= t.autoLink <= 1.01
  }

  function CompileMatching(m: Matching): Result<Matching> {
    var blocking := Desugared(m.blocking);
    var algorithm := Or(m.algorithm, "weighted_score");
    var prior := Or(m.prior, 0.01);
    if m.unknown != {} then Err("unsupported matching settings")
    else if !forall i :: 0 <= i < |blocking| ==> StrategySound(blocking[i]) then Err("unsupported blocking")
    else if !forall i :: 0 <= i < |m.comparisons| ==> ComparisonSound(m.comparisons[i])
    then Err("unsupported comparison")
    else if algorithm !in ALGORITHMS then Err("unsupported matching algorithm")
    else if algorithm == "fellegi_sunter" && !(0.0 < prior < 1.0) then Err("prior_match_probability")
    else if algorithm == "fellegi_sunter" && !forall i :: 0 <= i < |m.comparisons| ==>
        FellegiSunterSound(m.comparisons[i])
    then Err("probabilities")
    else if !ThresholdsSound(ThresholdsOf(m)) then Err("thresholds")
    else Ok(Matching(blocking, m.comparisons, Some(ThresholdsOf(m)), None, None, [], Some(algorithm), Some(prior), {}))
  }

  // ---- survivorship ----

  function StrategyOf(rule: Survival): Option<string> {
    match rule
    case Named(name) => Some(name)
    case Detailed(strategy, _, _) => strategy
  }

  predicate SurvivalSound(rule: Survival) {
    (rule.Detailed? ==> rule.unknown == {}) && StrategyOf(rule).Some? && StrategyOf(rule).value in STRATEGIES
  }

  function KeysOf(attributes: seq<Attribute>): set<string> {
    set i | 0 <= i < |attributes| :: attributes[i].key
  }

  function DefaultSurvivorship(): map<string, Survival> {
    map["default" := Named("verified_then_source_priority_then_observation_time")]
  }

  // ---- the compiler ----

  function VersionOf(doc: Document): string {
    match doc
    case Pack(_, version, _) => Or(version, "unversioned")
    case Plain(spec) => Or(spec.policyVersion, Or(spec.schemaVersion, "runtime-1"))
  }

  function Canonical(d: Definition, attributes: seq<Attribute>, matching: Matching,
                     survivorship: map<string, Survival>): Definition
  {
    Definition(
      Some(Or(d.entity, "Entity")), Some(Or(d.mode, "coexistence")), attributes,
      Some(CompileIdentifiers(d.matching.hardConflicts, Declared(d))), [], matching, Some(survivorship),
      d.relationships, [], None, None, {})
  }

  /** The remaining checks, in their order, and the canonical document. */
  function Assembled(doc: Document, attributes: Result<seq<Attribute>>, matching: Result<Matching>,
                     survivorship: map<string, Survival>): Result<Compiled>
  {
    var d := doc.spec;
    if doc.Pack? && doc.apiVersion != API_VERSION then Err("unsupported domain-pack apiVersion")
    else if d.unknown != {} then Err("unsupported policy settings")
    else if !forall i :: 0 <= i < |d.validation| ==> d.validation[i].unknown == {}
    then Err("unsupported validation settings")
    else if attributes.Err? then Err(attributes.code)
    else if !forall i :: 0 <= i < |Declared(d)| ==> Declared(d)[i].unknown == {}
    then Err("unsupported identifier settings")
    else if matching.Err? then Err(matching.code)
    else if !(survivorship.Keys <= KeysOf(attributes.value) + {"default"}) then Err("unknown survivorship attribute")
    else if !forall field :: field in survivorship ==> SurvivalSound(survivorship[field])
    then Err("unsupported survivorship")
    else Ok(Compiled(Canonical(d, attributes.value, matching.value, survivorship), VersionOf(doc)))
  }

  function Compile(lib: Library, doc: Document): Result<Compiled> {
    Assembled(doc, CompileAttributes(lib, doc.spec.validation, doc.spec.attributes), CompileMatching(doc.spec.matching),
              Or(doc.spec.survivorship, DefaultSurvivorship()))
  }

  /** The parts of a canonical document, each by its own pass. */
  lemma CompiledParts(lib: Library, doc: Document)
    requires Compile(lib, doc).Ok?
    ensures var d := doc.spec;
      var c := Compile(lib, doc).value.document;
      && CompileAttributes(lib, d.validation, d.attributes) == Ok(c.attributes)
      && CompileMatching(d.matching) == Ok(c.matching)
      && c.identifiers == Some(CompileIdentifiers(d.matching.hardConflicts, Declared(d)))
  {
  }

  // ---- compiling twice ----

  lemma CompiledAttributeStays(lib: Library, rules: seq<Validation>, a: Attribute, b: Attribute)
    requires CompileAttribute(lib, rules, a) == Ok(b)
    ensures CompileAttribute(lib, [], b) == Ok(b)
  {
  }

  lemma {:induction false} SettledAttributes(lib: Library, items: seq<Attribute>)
    requires forall i :: 0 <= i < |items| ==> CompileAttribute(lib, [], items[i]) == Ok(items[i])
    ensures CompileAttributes(lib, [], items) == Ok(items)
  {
    if items != [] {
      SettledAttributes(lib, items[..|items| - 1]);
      assert items == items[..|items| - 1] + [items[|items| - 1]];
    }
  }

  lemma CompiledMatchingStays(m: Matching, c: Matching)
    requires CompileMatching(m) == Ok(c)
    ensures CompileMatching(c) == Ok(c)
  {
    assert Desugared(c.blocking) == c.blocking;
  }

  lemma CompiledIdentifiersStay(hardConflicts: seq<string>, items: seq<Identifier>)
    ensures CompileIdentifiers([], CompileIdentifiers(hardConflicts, items)) == CompileIdentifiers(hardConflicts, items)
  {
    var once := CompileIdentifiers(hardConflicts, items);
    forall i | 0 <= i < |once| ensures CompileIdentifier([], once[i]) == once[i] { }
    assert CompileIdentifiers([], once) == once;
  }

  /** Nothing is left for the compiler to rewrite. */
  ghost predicate Settled(lib: Library, c: Definition) {
    && c.entity.Some? && c.mode.Some? && c.identifiers.Some? && c.survivorship.Some?
    && c.namespaces == [] && c.validation == [] && c.unknown == {} && c.policyVersion.None? && c.schemaVersion.None?
    && (forall i :: 0 <= i < |c.attributes| ==> CompileAttribute(lib, [], c.attributes[i]) == Ok(c.attributes[i]))
    && CompileMatching(c.matching) == Ok(c.matching) && c.matching.hardConflicts == []
    && CompileIdentifiers([], c.identifiers.value) == c.identifiers.value
    && (forall i :: 0 <= i < |c.identifiers.value| ==> c.identifiers.value[i].unknown == {})
    && c.survivorship.value.Keys <= KeysOf(c.attributes) + {"default"}
    && (forall field :: field in c.survivorship.value ==> SurvivalSound(c.survivorship.value[field]))
  }

  lemma SettledCanonical(lib: Library, c: Definition, survivorship: map<string, Survival>)
    requires c.entity.Some? && c.mode.Some? && c.identifiers.Some? && c.survivorship == Some(survivorship)
    requires c.namespaces == [] && c.validation == [] && c.unknown == {}
    requires c.policyVersion.None? && c.schemaVersion.None? && c.matching.hardConflicts == []
    requires CompileIdentifiers([], c.identifiers.value) == c.identifiers.value
    ensures Canonical(c, c.attributes, c.matching, survivorship) == c
  {
  }

  lemma SettledAssembles(c: Definition, matching: Result<Matching>)
    requires matching == Ok(c.matching) && c.identifiers.Some? && c.survivorship.Some?
    requires c.validation == [] && c.unknown == {} && c.policyVersion.None? && c.schemaVersion.None?
    requires forall i :: 0 <= i < |c.identifiers.value| ==> c.identifiers.value[i].unknown == {}
    requires c.survivorship.value.Keys <= KeysOf(c.attributes) + {"default"}
    requires forall field :: field in c.survivorship.value ==> SurvivalSound(c.survivorship.value[field])
    requires Canonical(c, c.attributes, c.matching, c.survivorship.value) == c
    ensures Assembled(Plain(c), Ok(c.attributes), matching, c.survivorship.value) == Ok(Compiled(c, "runtime-1"))
  {
  }

  lemma SettledCompiles(lib: Library, c: Definition)
    requires Settled(lib, c)
    ensures Compile(lib, Plain(c)) == Ok(Compiled(c, "runtime-1"))
  {
    SettledAttributes(lib, c.attributes);
    SettledCanonical(lib, c, c.survivorship.value);
    SettledAssembles(c, Ok(c.matching));
  }

  lemma CompiledSettles(lib: Library, doc: Document)
    requires Compile(lib, doc).Ok?
    ensures Settled(lib, Compile(lib, doc).value.document)
  {
    var d := doc.spec;
    var c := Compile(lib, doc).value.document;
    forall i | 0 <= i < |c.attributes| ensures CompileAttribute(lib, [], c.attributes[i]) == Ok(c.attributes[i]) {
      CompiledAttributeStays(lib, d.validation, d.attributes[i], c.attributes[i]);
    }
    CompiledMatchingStays(d.matching, c.matching);
    CompiledIdentifiersStay(d.matching.hardConflicts, Declared(d));
  }

  /** Compiling a canonical document succeeds with the same document, hence the same checksum. */
  lemma CompileIsIdempotent(lib: Library, doc: Document)
    requires Compile(lib, doc).Ok?
    ensures Compile(lib, Plain(Compile(lib, doc).value.document)) ==
      Ok(Compiled(Compile(lib, doc).value.document, "runtime-1"))
  {
    CompiledSettles(lib, doc);
    SettledCompiles(lib, Compile(lib, doc).value.document);
  }
}
