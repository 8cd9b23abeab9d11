/** The desugarings of the compiler preserve what a definition means; blocking keys of one record are distinct. */
module PolicyMeaning {
  import opened Prelude
  import opened Survivorship
  import opened Store
  import opened PolicyCompiler
  import opened Matcher

  // ---- blocking keys ----

  lemma {:induction false} DigitsInjective(i: nat, j: nat)
    requires Digits(i) == Digits(j)
    ensures i == j
  {
    assert i < 10 <==> |Digits(i)| == 1;
    assert j < 10 <==> |Digits(j)| == 1;
    if i >= 10 {
      var a, b := Digits(i), Digits(j);
      assert a[..|a| - 1] == Digits(i / 10) && b[..|b| - 1] == Digits(j / 10);
      assert a[|a| - 1] == ('0' as int + i % 10) as char && b[|b| - 1] == ('0' as int + j % 10) as char;
      DigitsInjective(i / 10, j / 10);
    } else {
      assert Digits(i)[0] == Digits(j)[0];
    }
  }

  /** The `p{index}|` prefix tells the strategy apart. */
  lemma KeysTellStrategiesApart(i: nat, ps: seq<string>, j: nat, qs: seq<string>)
    requires KeyOf(i, ps) == KeyOf(j, qs)
    ensures i == j
  {
    var a, b := Digits(i), Digits(j);
    var s, t := KeyOf(i, ps), KeyOf(j, qs);
    assert s[1 + |a|] == '|' && t[1 + |b|] == '|';
    assert forall k :: 0 <= k < |a| ==> s[1 + k] == a[k] && s[1 + k] != '|';
    assert forall k :: 0 <= k < |b| ==> t[1 + k] == b[k] && t[1 + k] != '|';
    assert |a| == |b|;
    assert s[1..1 + |a|] == a && t[1..1 + |b|] == b;
    DigitsInjective(i, j);
  }

  ghost predicate KeyFrom(lib: Library, blocking: seq<Blocking>, n: Values, i: nat, key: string) {
    i < |blocking| && StrategyParts(lib, blocking[i], n) != [] && key == KeyOf(i, StrategyParts(lib, blocking[i], n))
  }

  lemma KeyFromPrefix(lib: Library, blocking: seq<Blocking>, n: Values, m: nat, i: nat, key: string)
    requires i < m <= |blocking|
    ensures KeyFrom(lib, blocking[..m], n, i, key) <==> KeyFrom(lib, blocking, n, i, key)
  {
    assert blocking[..m][i] == blocking[i];
  }

  lemma LastKey(lib: Library, blocking: seq<Blocking>, n: Values, key: string)
    requires blocking != []
    ensures key in BlockingKeys(lib, blocking, n) <==>
      key in BlockingKeys(lib, blocking[..|blocking| - 1], n) || KeyFrom(lib, blocking, n, |blocking| - 1, key)
  {
  }

  ghost predicate Strategic(lib: Library, blocking: seq<Blocking>, n: Values, key: string) {
    exists i: nat :: KeyFrom(lib, blocking, n, i, key)
  }

  lemma StrategicStep(lib: Library, blocking: seq<Blocking>, n: Values, key: string)
    requires blocking != []
    ensures Strategic(lib, blocking, n, key) <==>
      Strategic(lib, blocking[..|blocking| - 1], n, key) || KeyFrom(lib, blocking, n, |blocking| - 1, key)
  {
    var m := |blocking| - 1;
    forall i: nat | i < m ensures KeyFrom(lib, blocking[..m], n, i, key) <==> KeyFrom(lib, blocking, n, i, key) {
      KeyFromPrefix(lib, blocking, n, m, i, key);
    }
  }

  /** A key is produced exactly when some strategy with something to say about the record yields it. */
  lemma {:induction false} KeysAreStrategies(lib: Library, blocking: seq<Blocking>, n: Values, key: string)
    ensures key in BlockingKeys(lib, blocking, n) <==> Strategic(lib, blocking, n, key)
  {
    if blocking != [] {
      KeysAreStrategies(lib, blocking[..|blocking| - 1], n, key);
      LastKey(lib, blocking, n, key);
      StrategicStep(lib, blocking, n, key);
    }
  }

  ghost predicate Distinct(keys: seq<string>) {
    forall i, j :: 0 <= i < j < |keys| ==> keys[i] != keys[j]
  }

  /** No record is indexed twice under one key. */
  lemma {:induction false} KeysAreDistinct(lib: Library, blocking: seq<Blocking>, n: Values)
    ensures Distinct(BlockingKeys(lib, blocking, n))
  {
    if blocking != [] {
      var m := |blocking| - 1;
      KeysAreDistinct(lib, blocking[..m], n);
      var last := KeyOf(m, StrategyParts(lib, blocking[m], n));
      KeysAreStrategies(lib, blocking[..m], n, last);
      forall i: nat | KeyFrom(lib, blocking[..m], n, i, last) ensures false {
        KeysTellStrategiesApart(i, StrategyParts(lib, blocking[i], n), m, StrategyParts(lib, blocking[m], n));
      }
    }
  }

  predicate LacksAField(b: Blocking, n: Values) {
    b.Strategy? && exists i :: 0 <= i < |b.fields| && Blank(Get(n, b.fields[i]))
  }

  /** The leading characters of the prefix field, or nothing when it is missing. */
  function LeadOf(lib: Library, p: Prefix, n: Values): string {
    if p.field.Some? && p.length.Some? && p.field.value in n then Head(Show(lib, n[p.field.value]), p.length.value)
        else ""
  }

  ghost predicate JoinedBy(lib: Library, blocking: seq<Blocking>, x: Values, y: Values, i: nat) {
    exists key :: KeyFrom(lib, blocking, x, i, key) && KeyFrom(lib, blocking, y, i, key)
  }

  /** A record that lacks a field of the strategy keeps the part of its prefix, and only that. */
  lemma LackingParts(lib: Library, b: Blocking, n: Values)
    requires StrategySound(b) && Set(b.prefix) && LacksAField(b, n)
    ensures var lead := LeadOf(lib, b.prefix.value, n);
      StrategyParts(lib, b, n) == if lead == "" then [] else [b.prefix.value.field.value + "^=" + lead]
  {
    assert FieldParts(lib, b.fields, n) == [];
  }

  lemma SamePart(i: nat, field: string, a: string, b: string)
    requires KeyOf(i, [field + "^=" + a]) == KeyOf(i, [field + "^=" + b])
    ensures a == b
  {
    var front := "p" + Digits(i) + "|";
    var p, q := field + "^=" + a, field + "^=" + b;
    assert Join([p]) == p && Join([q]) == q;
    assert KeyOf(i, [p])[|front|..] == p && KeyOf(i, [q])[|front|..] == q;
    assert p[|field| + 2..] == a && q[|field| + 2..] == b;
  }

  /** A strategy joins two records that both lack one of its fields exactly when they show the same prefix: the
      missing field clears its part of the key, not the prefix. */
  lemma PrefixAloneJoins(lib: Library, blocking: seq<Blocking>, i: nat, x: Values, y: Values)
    requires i < |blocking| && StrategySound(blocking[i]) && Set(blocking[i].prefix)
    requires LacksAField(blocking[i], x) && LacksAField(blocking[i], y)
    ensures JoinedBy(lib, blocking, x, y, i) <==>
      LeadOf(lib, blocking[i].prefix.value, x) == LeadOf(lib, blocking[i].prefix.value, y) != ""
    ensures JoinedBy(lib, blocking, x, y, i) ==>
      exists key :: key in BlockingKeys(lib, blocking, x) && key in BlockingKeys(lib, blocking, y)
  {
    var p := blocking[i].prefix.value;
    LackingParts(lib, blocking[i], x);
    LackingParts(lib, blocking[i], y);
    if key :| KeyFrom(lib, blocking, x, i, key) && KeyFrom(lib, blocking, y, i, key) {
      SamePart(i, p.field.value, LeadOf(lib, p, x), LeadOf(lib, p, y));
      KeysAreStrategies(lib, blocking, x, key);
      KeysAreStrategies(lib, blocking, y, key);
    } else if LeadOf(lib, p, x) == LeadOf(lib, p, y) != "" {
      var key := KeyOf(i, StrategyParts(lib, blocking[i], x));
      assert KeyFrom(lib, blocking, x, i, key) && KeyFrom(lib, blocking, y, i, key);
    }
  }

  /** One strategy: the tax number, and the first five characters of the name. */
  const BY_TAX_AND_NAME := [Strategy(["tax_id"], Some(NAME_PREFIX), {})]

  /** Two different suppliers without a tax number that it joins. */
  lemma NamesakesJoin(lib: Library)
    ensures var x, y := map["name" := Text("Acme Steel")], map["name" := Text("Acme Foods")];
      && StrategySound(BY_TAX_AND_NAME[0])
      && BlockingKeys(lib, BY_TAX_AND_NAME, x) == ["p0|name^=Acme "] == BlockingKeys(lib, BY_TAX_AND_NAME, y)
  {
    NamesakeKey(lib, map["name" := Text("Acme Steel")], "Acme Steel");
    NamesakeKey(lib, map["name" := Text("Acme Foods")], "Acme Foods");
  }

  lemma NamesakeKey(lib: Library, n: Values, name: string)
    requires n == map["name" := Text(name)] && |name| >= 5 && name[..5] == "Acme "
    ensures BlockingKeys(lib, BY_TAX_AND_NAME, n) == ["p0|name^=Acme "]
  {
    var b := BY_TAX_AND_NAME[0];
    assert Blank(Get(n, b.fields[0]));
    LackingParts(lib, b, n);
    assert LeadOf(lib, NAME_PREFIX, n) == "Acme ";
    assert "name" + "^=" + "Acme " == "name^=Acme ";
    assert StrategyParts(lib, b, n) == ["name^=Acme "];
    assert Digits(0) == "0" && KeyOf(0, ["name^=Acme "]) == "p0|name^=Acme ";
    assert BlockingKeys(lib, BY_TAX_AND_NAME[..0], n) == [];
  }

  /** A supplier that shows both is known by both. */
  lemma FullKey(lib: Library)
    ensures BlockingKeys(lib, BY_TAX_AND_NAME, map["tax_id" := Text("77"), "name" := Text("Acme Steel")]) ==
      ["p0|tax_id=77|name^=Acme "]
  {
    var n := map["tax_id" := Text("77"), "name" := Text("Acme Steel")];
    var b := BY_TAX_AND_NAME[0];
    FullParts(lib, b, n);
    BothParts();
    assert BlockingKeys(lib, BY_TAX_AND_NAME[..0], n) == [];
  }

  lemma FullParts(lib: Library, b: Blocking, n: Values)
    requires b == BY_TAX_AND_NAME[0] && n == map["tax_id" := Text("77"), "name" := Text("Acme Steel")]
    ensures StrategyParts(lib, b, n) == ["tax_id=77", "name^=Acme "]
  {
    assert Get(n, "tax_id") == Text("77") && Get(n, "name") == Text("Acme Steel");
    assert "tax_id" + "=" + "77" == "tax_id=77" && "name" + "^=" + "Acme " == "name^=Acme ";
    assert FieldParts(lib, b.fields, n) == ["tax_id=77"];
    assert Head("Acme Steel", 5) == "Acme ";
  }

  lemma BothParts()
    ensures KeyOf(0, ["tax_id=77", "name^=Acme "]) == "p0|tax_id=77|name^=Acme "
  {
    assert ["tax_id=77", "name^=Acme "][..1] == ["tax_id=77"];
    assert "tax_id=77" + "|" + "name^=Acme " == "tax_id=77|name^=Acme ";
    assert Digits(0) == "0" && "p" + "0" + "|" == "p0|";
    assert "p0|" + "tax_id=77|name^=Acme " == "p0|tax_id=77|name^=Acme ";
  }

  // ---- the short blocking form, read directly ----

  /** The parts a list of words asks for, in their order. */
  function WordParts(lib: Library, words: seq<Blocking>, n: Values): seq<string> {
    if words == [] then []
    else
      var before := WordParts(lib, words[..|words| - 1], n);
      var w := words[|words| - 1];
      if w.Word? && w.word != "name_prefix" then before + [w.word + "=" + Show(lib, Get(n, w.word))] else before
  }

  ghost predicate SomeWordBlank(words: seq<Blocking>, n: Values) {
    exists i :: 0 <= i < |words| && words[i].Word? && words[i].word != "name_prefix" && Blank(Get(n, words[i].word))
  }

  /** The fields, unless one is blank, then the first five characters of the name. */
  ghost function ShortParts(lib: Library, words: seq<Blocking>, n: Values): seq<string> {
    var fields := if SomeWordBlank(words, n) then [] else WordParts(lib, words, n);
    var name := if "name" in n then Show(lib, n["name"]) else "";
    if Word("name_prefix") !in words then fields
    else if name == "" then []
    else fields + ["name^=" + if |name| < 5 then name else name[..5]]
  }

  /** One key at most. */
  ghost function ShortKeys(lib: Library, words: seq<Blocking>, n: Values): seq<string> {
    if ShortParts(lib, words, n) == [] then [] else ["p0|" + Join(ShortParts(lib, words, n))]
  }

  lemma {:induction false} WordsAreFields(lib: Library, words: seq<Blocking>, n: Values)
    ensures WordParts(lib, words, n) ==
      seq(|FieldWords(words)|, i requires 0 <= i < |FieldWords(words)| =>
        FieldWords(words)[i] + "=" + Show(lib, Get(n, FieldWords(words)[i])))
  {
    if words != [] { WordsAreFields(lib, words[..|words| - 1], n); }
  }

  lemma {:induction false} BlankWords(words: seq<Blocking>, n: Values)
    ensures SomeWordBlank(words, n) <==>
      exists i :: 0 <= i < |FieldWords(words)| && Blank(Get(n, FieldWords(words)[i]))
  {
    if words != [] {
      var m := |words| - 1;
      var before, all := FieldWords(words[..m]), FieldWords(words);
      BlankWords(words[..m], n);
      assert forall i :: 0 <= i < |before| ==> all[i] == before[i];
      if SomeWordBlank(words, n) {
        var i :| 0 <= i < |words| && words[i].Word? && words[i].word != "name_prefix" && Blank(Get(n, words[i].word));
        if i < m { assert words[..m][i] == words[i]; } else { assert all[|all| - 1] == words[m].word; }
      }
      if exists i :: 0 <= i < |all| && Blank(Get(n, all[i])) {
        var i :| 0 <= i < |all| && Blank(Get(n, all[i]));
        if i < |before| {
          assert Blank(Get(n, before[i]));
          var j :| 0 <= j < m && words[..m][j].Word? && words[..m][j].word != "name_prefix" &&
              Blank(Get(n, words[..m][j].word));
          assert words[j] == words[..m][j];
        } else {
          assert words[m].Word? && words[m].word == all[i];
        }
      }
    }
  }

  /** Rewriting the short form leaves the blocking keys unchanged. */
  lemma ShortFormKeepsKeys(lib: Library, words: seq<Blocking>, n: Values)
    requires AllWords(words)
    ensures BlockingKeys(lib, Desugared(words), n) == ShortKeys(lib, words, n)
  {
    var b := Desugared(words);
    assert |b| == 1 && b[..|b| - 1] == [];
    ShortFormKeepsParts(lib, words, n);
    var parts := ShortParts(lib, words, n);
    assert KeyOf(0, parts) == "p0|" + Join(parts) by {
      assert Digits(0) == "0" && "p" + "0" + "|" == "p0|";
    }
    assert BlockingKeys(lib, b[..|b| - 1], n) == [];
  }

  lemma ShortFormKeepsParts(lib: Library, words: seq<Blocking>, n: Values)
    requires AllWords(words)
    ensures StrategyParts(lib, Desugared(words)[0], n) == ShortParts(lib, words, n)
  {
    WordsAreFields(lib, words, n);
    BlankWords(words, n);
    var fields := FieldWords(words);
    assert FieldParts(lib, fields, n) == if SomeWordBlank(words, n) then [] else WordParts(lib, words, n);
    assert "name" + "^=" == "name^=";
  }

  // ---- validation ----

  ghost predicate LastRule(rules: seq<Validation>, key: string, i: nat) {
    && i < |rules| && rules[i].attribute == Some(key) && key != ""
    && forall j :: i < j < |rules| ==> rules[j].attribute != Some(key)
  }

  /** What an attribute inherits is the list of the last rule that names it. */
  lemma {:induction false} InheritsTheLastRule(rules: seq<Validation>, key: string)
    ensures forall i: nat :: LastRule(rules, key, i) ==> Inherited(rules, key) == rules[i].allowed
    ensures (forall i: nat :: !LastRule(rules, key, i)) ==> Inherited(rules, key) == Absent
  {
    if rules != [] {
      var m := |rules| - 1;
      InheritsTheLastRule(rules[..m], key);
      if rules[m].attribute == Some(key) && key != "" {
        assert LastRule(rules, key, m);
      } else {
        forall i: nat | LastRule(rules[..m], key, i) ensures LastRule(rules, key, i) { }
        forall i: nat | LastRule(rules, key, i) ensures LastRule(rules[..m], key, i) { }
      }
    }
  }

  /** The values a definition allows for its `i`-th attribute, read off the definition itself: the attribute's own
      list, else the list of the last validation rule for it. */
  ghost predicate Allows(d: Definition, i: nat, v: Value)
    requires i < |d.attributes|
  {
    var a := d.attributes[i];
    if a.allowedCamel != Absent then a.allowedCamel.Only? ==> v in a.allowedCamel.values
    else if a.allowed != Absent then a.allowed.Only? ==> v in a.allowed.values
    else forall r: nat :: LastRule(d.validation, a.key, r) && d.validation[r].allowed.Only? ==>
        v in d.validation[r].allowed.values
  }

  /** An attribute and its compiled form, on a value that is not blank where it must not be. */
  lemma AttributeIsKept(lib: Library, d: Definition, i: nat, c: Attribute, values: Values)
    requires i < |d.attributes| && CompileAttribute(lib, d.validation, d.attributes[i]) == Ok(c)
    requires var a := d.attributes[i];
      !(a.required && Blank(Get(values, a.key))) && |Or(a.pattern, "")| <= PATTERN_LIMIT
    ensures var key := d.attributes[i].key;
      && c.key == key && FaultsOf(lib, c, values).Ok?
      && (Fault(key, "allowed_values") in FaultsOf(lib, c, values).value <==>
            Get(values, key) != Null && !Allows(d, i, Get(values, key)))
      && Fault(key, "required") !in FaultsOf(lib, c, values).value
  {
    var a := d.attributes[i];
    InheritsTheLastRule(d.validation, a.key);
    var v := Get(values, a.key);
    if a.allowedCamel == Absent && a.allowed == Absent && Inherited(d.validation, a.key) != Absent {
      assert !forall r: nat :: !LastRule(d.validation, a.key, r);
      var r: nat :| LastRule(d.validation, a.key, r);
    }
    assert Disallowed(c, v) <==> v != Null && !Allows(d, i, v);
  }

  /** A compiled attribute reports a present value exactly when the definition does not allow it. */
  lemma ValidationIsKept(lib: Library, doc: Document, i: nat, values: Values)
    requires Compile(lib, doc).Ok? && i < |doc.spec.attributes|
    requires var a := doc.spec.attributes[i];
      !(a.required && Blank(Get(values, a.key))) && |Or(a.pattern, "")| <= PATTERN_LIMIT
    ensures var a := doc.spec.attributes[i];
      var c := Compile(lib, doc).value.document.attributes;
      && i < |c| && c[i].key == a.key && FaultsOf(lib, c[i], values).Ok?
      && (Fault(a.key, "allowed_values") in FaultsOf(lib, c[i], values).value <==>
            Get(values, a.key) != Null && !Allows(doc.spec, i, Get(values, a.key)))
      && (Fault(a.key, "required") !in FaultsOf(lib, c[i], values).value)
  {
    CompiledParts(lib, doc);
    AttributeIsKept(lib, doc.spec, i, Compile(lib, doc).value.document.attributes[i], values);
  }

  lemma RequirementIsKept(lib: Library, rules: seq<Validation>, a: Attribute, c: Attribute, values: Values)
    requires CompileAttribute(lib, rules, a) == Ok(c)
    ensures FaultsOf(lib, c, values) == Ok([Fault(a.key, "required")]) <==> a.required && Blank(Get(values, a.key))
  {
    if !(a.required && Blank(Get(values, a.key))) && FaultsOf(lib, c, values).Ok? {
      assert Fault(a.key, "required") !in FaultsOf(lib, c, values).value;
      assert [Fault(a.key, "required")][0] == Fault(a.key, "required");
    }
  }

  /** A required attribute reports a blank value, and nothing else about it. */
  lemma RequiredIsKept(lib: Library, doc: Document, i: nat, values: Values)
    requires Compile(lib, doc).Ok? && i < |doc.spec.attributes|
    ensures var a := doc.spec.attributes[i];
      var c := Compile(lib, doc).value.document.attributes;
      i < |c| && (FaultsOf(lib, c[i], values) == Ok([Fault(a.key, "required")]) <==>
          a.required && Blank(Get(values, a.key)))
  {
    CompiledParts(lib, doc);
    RequirementIsKept(lib, doc.spec.validation, doc.spec.attributes[i],
                      Compile(lib, doc).value.document.attributes[i], values);
  }

  // ---- contradictions ----

  /** Whether the definition declares the field a hard identifier: by its own flag, or else by the list of hard
      conflicts. */
  predicate DeclaredHard(d: Definition, item: Identifier) {
    if item.hard.Some? then item.hard.value
    else FieldOf(item).Some? && FieldOf(item).value in d.matching.hardConflicts
  }

  ghost predicate DeclaredConflict(d: Definition, left: Values, right: Values, i: nat) {
    && i < |Declared(d)| && FieldOf(Declared(d)[i]).Some? && DeclaredHard(d, Declared(d)[i])
    && var field := FieldOf(Declared(d)[i]).value;
       !Blank(Get(left, field)) && !Blank(Get(right, field)) && Get(left, field) != Get(right, field)
  }

  ghost predicate ConflictAt(items: seq<Identifier>, left: Values, right: Values, i: nat) {
    i < |items| && Conflicts(items[i], left, right)
  }

  lemma {:induction false} ContradictedBySome(items: seq<Identifier>, left: Values, right: Values)
    ensures Contradictions(items, left, right) != [] <==> exists i :: ConflictAt(items, left, right, i)
  {
    if items != [] {
      var m := |items| - 1;
      ContradictedBySome(items[..m], left, right);
      forall i: nat | ConflictAt(items[..m], left, right, i) ensures ConflictAt(items, left, right, i) { }
      forall i: nat | ConflictAt(items, left, right, i) && i < m ensures ConflictAt(items[..m], left, right, i) { }
      if Conflicts(items[m], left, right) { assert ConflictAt(items, left, right, m); }
    }
  }

  lemma IdentifiersAreKept(d: Definition, left: Values, right: Values)
    ensures Contradictions(CompileIdentifiers(d.matching.hardConflicts, Declared(d)), left, right) != [] <==>
      exists i :: DeclaredConflict(d, left, right, i)
  {
    var items := CompileIdentifiers(d.matching.hardConflicts, Declared(d));
    ContradictedBySome(items, left, right);
    forall i: nat | i < |items| ensures ConflictAt(items, left, right, i) <==> DeclaredConflict(d, left, right, i) {
      assert items[i] == CompileIdentifier(d.matching.hardConflicts, Declared(d)[i]);
    }
  }

  /** The compiled policy contradicts a pair exactly when the definition, in either of its forms, declares a hard
      identifier that both records carry with different values. */
  lemma ContradictionsAreKept(lib: Library, doc: Document, left: Values, right: Values)
    requires Compile(lib, doc).Ok?
    ensures Compare(lib, Compile(lib, doc).value.document, left, right).contradicted <==>
      exists i :: DeclaredConflict(doc.spec, left, right, i)
  {
    CompiledParts(lib, doc);
    IdentifiersAreKept(doc.spec, left, right);
  }

  /** Contradiction does not depend on the order of the pair. */
  lemma ContradictionIsSymmetric(lib: Library, d: Definition, left: Values, right: Values)
    ensures Compare(lib, d, left, right).contradicted == Compare(lib, d, right, left).contradicted
  {
    var items := Or(d.identifiers, []);
    ContradictedBySome(items, left, right);
    ContradictedBySome(items, right, left);
    assert forall i :: ConflictAt(items, left, right, i) <==> ConflictAt(items, right, left, i);
  }

  lemma MatchingIsKept(lib: Library, m: Matching, c: Matching, xs: seq<real>)
    requires CompileMatching(m) == Ok(c) && |xs| == |m.comparisons|
    ensures c.comparisons == m.comparisons && ThresholdsOf(c) == ThresholdsOf(m)
    ensures Score(lib, c, xs) == Score(lib, m, xs)
  {
  }

  /** Scores come from the comparison rules as written: compilation changes neither weights, comparators nor
      probabilities. */
  lemma ScoresAreKept(lib: Library, doc: Document, left: Values, right: Values)
    requires Compile(lib, doc).Ok?
    ensures var c := Compile(lib, doc).value.document;
      var m := doc.spec.matching;
      && Components(lib, c.matching.comparisons, left, right) == Components(lib, m.comparisons, left, right)
      && Compare(lib, c, left, right).score == Score(lib, m, Components(lib, m.comparisons, left, right))
      && ThresholdsOf(c.matching) == ThresholdsOf(m)
  {
    CompiledParts(lib, doc);
    MatchingIsKept(lib, doc.spec.matching, Compile(lib, doc).value.document.matching,
                   Components(lib, doc.spec.matching.comparisons, left, right));
  }
}
