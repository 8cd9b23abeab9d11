/** Which contribution supplies a master value, rule by rule, for survivorship rules as they are written. */
module MasterRules {
  import opened Prelude
  import opened Survivorship
  import opened Store
  import opened Steps
  import opened Grounding
  import opened Drafts
  import opened PolicyCompiler
  import opened Wiring

  /** The contribution holds a value for the attribute. */
  predicate Offered(facts: set<Facts>, field: string, f: Facts) {
    f in facts && field in f.original && f.original[field] != Null
  }

  predicate Marked(f: Facts, field: string) {
    field in f.verification && f.verification[field]
  }

  /** The rule in force for the attribute prefers verified values. */
  predicate VerifiedRule(p: Policy, field: string) {
    if field in p.fields then p.fields[field].strategy == VerifiedThenPriorityThenTime
    else p.default == Some(VerifiedThenPriorityThenTime)
  }

  predicate Listed(p: Policy, field: string, source: string) {
    field in p.fields && source in p.fields[field].precedence
  }

  /** What the master record shows for the attribute is the value of `w`. */
  ghost predicate Shows(p: Policy, sources: map<string, int>, facts: set<Facts>, field: string, w: Facts) {
    && field in MasterValues(p, sources, facts) && field in w.original
    && MasterValues(p, sources, facts)[field] == w.original[field]
  }

  /** The contribution that beats every other one is shown. */
  lemma ChampionIsShown(p: Policy, sources: map<string, int>, facts: set<Facts>, field: string, w: Facts)
    requires DistinctUids(facts) && Offered(facts, field, w)
    requires forall g :: Offered(facts, field, g) && g != w ==> Beats(p, sources, field, w, g)
    ensures Shows(p, sources, facts, field, w)
  {
    forall g | g in facts && field in g.original && g.original[field] != Null ensures !Beats(p, sources, field, g, w) {
      BeatsIsRank(p, sources, field, g, w);
      if g != w {
        assert Offered(facts, field, g);
        BeatsIsRank(p, sources, field, w, g);
      }
    }
    assert Supplies(p, sources, facts, field, w);
    SupplierIsMastered(p, sources, facts, field);
  }

  // ---- time ----

  /** Equally trusted, and of one source or of unlisted sources with one number. */
  predicate OnPar(p: Policy, sources: map<string, int>, field: string, f: Facts, g: Facts) {
    && (VerifiedRule(p, field) ==> Marked(f, field) == Marked(g, field))
    && (|| f.source == g.source
        || (&& !Listed(p, field, f.source) && !Listed(p, field, g.source)
            && f.source in sources && g.source in sources && sources[f.source] == sources[g.source]))
  }

  /** Among contributions on a par the latest observation supplies the value; at one time, the later record. */
  lemma LatestSupplies(p: Policy, sources: map<string, int>, facts: set<Facts>, field: string, w: Facts)
    requires DistinctUids(facts) && Offered(facts, field, w)
    requires forall g :: Offered(facts, field, g) && g != w ==>
      OnPar(p, sources, field, g, w) && (g.observed < w.observed || (g.observed == w.observed && g.uid < w.uid))
    ensures Shows(p, sources, facts, field, w)
  {
    forall g | Offered(facts, field, g) && g != w ensures Beats(p, sources, field, w, g) {
      assert OnPar(p, sources, field, g, w);
    }
    ChampionIsShown(p, sources, facts, field, w);
  }

  // ---- verification ----

  /** Under a rule that prefers verified values a verified contribution beats every unverified one, whatever its
      source and its time. */
  lemma VerifiedSupplies(p: Policy, sources: map<string, int>, facts: set<Facts>, field: string, w: Facts)
    requires DistinctUids(facts) && Offered(facts, field, w) && VerifiedRule(p, field) && Marked(w, field)
    requires forall g :: Offered(facts, field, g) && g != w ==> !Marked(g, field)
    ensures Shows(p, sources, facts, field, w)
  {
    forall g | Offered(facts, field, g) && g != w ensures Beats(p, sources, field, w, g) {
      assert !Marked(g, field);
    }
    ChampionIsShown(p, sources, facts, field, w);
  }

  /** The contributions as if nothing had been verified. */
  function Unmarked(facts: set<Facts>): set<Facts> {
    set f | f in facts :: f.(verification := map[])
  }

  lemma UnmarkedDistinct(facts: set<Facts>)
    requires DistinctUids(facts)
    ensures DistinctUids(Unmarked(facts))
  {
  }

  lemma UnmarkedSupplier(p: Policy, sources: map<string, int>, facts: set<Facts>, field: string, w: Facts)
    requires !VerifiedRule(p, field) && Supplies(p, sources, facts, field, w)
    ensures Supplies(p, sources, Unmarked(facts), field, w.(verification := map[]))
  {
    var v := w.(verification := map[]);
    forall g | g in Unmarked(facts) && field in g.original && g.original[field] != Null
      ensures !Beats(p, sources, field, g, v)
    {
      var f :| f in facts && g == f.(verification := map[]);
      assert !Beats(p, sources, field, f, w);
    }
  }

  lemma MarkedSupplier(p: Policy, sources: map<string, int>, facts: set<Facts>, field: string, v: Facts)
    returns (w: Facts)
    requires !VerifiedRule(p, field) && Supplies(p, sources, Unmarked(facts), field, v)
    ensures Supplies(p, sources, facts, field, w)
  {
    w :| w in facts && v == w.(verification := map[]);
    forall f | f in facts && field in f.original && f.original[field] != Null ensures !Beats(p, sources, field, f, w) {
      assert f.(verification := map[]) in Unmarked(facts);
      assert !Beats(p, sources, field, f.(verification := map[]), v);
    }
  }

  /** Under the other rule verification decides nothing. */
  lemma VerificationIsIgnored(p: Policy, sources: map<string, int>, facts: set<Facts>, field: string)
    requires DistinctUids(facts) && !VerifiedRule(p, field)
    ensures var x, y := MasterValues(p, sources, facts), MasterValues(p, sources, Unmarked(facts));
      (field in x <==> field in y) && (field in x ==> x[field] == y[field])
  {
    UnmarkedDistinct(facts);
    SupplierIsMastered(p, sources, facts, field);
    SupplierIsMastered(p, sources, Unmarked(facts), field);
    if field in MasterValues(p, sources, facts) {
      var w :| Supplies(p, sources, facts, field, w);
      UnmarkedSupplier(p, sources, facts, field, w);
      assert w.(verification := map[]).original == w.original;
    }
    if field in MasterValues(p, sources, Unmarked(facts)) {
      var v :| Supplies(p, sources, Unmarked(facts), field, v);
      var w := MarkedSupplier(p, sources, facts, field, v);
    }
  }

  // ---- sources ----

  predicate EquallyTrusted(p: Policy, field: string, f: Facts, g: Facts) {
    VerifiedRule(p, field) ==> Marked(f, field) == Marked(g, field)
  }

  lemma NotAfter(list: seq<string>, x: string, i: nat)
    requires i < |list| && list[i] == x
    ensures IndexOf(list, x) <= i
  {
    assert forall k :: 0 <= k < IndexOf(list, x) ==> list[k] in list[..IndexOf(list, x)];
  }

  /** With equal trust the source mentioned first in the precedence list supplies the value, before those mentioned
      later and those not mentioned. */
  lemma EarlierSourceSupplies(p: Policy, sources: map<string, int>, facts: set<Facts>, field: string, w: Facts, i: nat)
    requires DistinctUids(facts) && Offered(facts, field, w)
    requires forall source :: source in sources ==> 0 <= sources[source]
    requires field in p.fields && i < |p.fields[field].precedence| && p.fields[field].precedence[i] == w.source
    requires forall g :: Offered(facts, field, g) && g != w ==>
      EquallyTrusted(p, field, g, w) && g.source !in p.fields[field].precedence[..i + 1]
    ensures Shows(p, sources, facts, field, w)
  {
    var precedence := p.fields[field].precedence;
    var n := IndexOf(precedence, w.source);
    NotAfter(precedence, w.source, i);
    forall g | Offered(facts, field, g) && g != w ensures Beats(p, sources, field, w, g) {
      assert EquallyTrusted(p, field, g, w) && g.source !in precedence[..i + 1];
      assert precedence[..n + 1] == precedence[..i + 1][..n + 1];
    }
    ChampionIsShown(p, sources, facts, field, w);
  }

  /** With equal trust, among unlisted sources the one with the smaller number supplies the value. */
  lemma SmallerNumberSupplies(p: Policy, sources: map<string, int>, facts: set<Facts>, field: string, w: Facts)
    requires DistinctUids(facts) && Offered(facts, field, w) && w.source in sources && !Listed(p, field, w.source)
    requires forall g :: Offered(facts, field, g) && g != w ==>
      && EquallyTrusted(p, field, g, w) && !Listed(p, field, g.source)
      && g.source in sources && sources[w.source] < sources[g.source]
    ensures Shows(p, sources, facts, field, w)
  {
    forall g | Offered(facts, field, g) && g != w ensures Beats(p, sources, field, w, g) {
      assert EquallyTrusted(p, field, g, w);
    }
    ChampionIsShown(p, sources, facts, field, w);
  }

  // ---- rules as written ----

  /** The name of the strategy in force for an attribute of a canonical document. */
  function NameInForce(rules: map<string, Survival>, field: string): Option<string> {
    if field in rules then (if rules[field].Named? then Some(rules[field].name) else rules[field].strategy)
    else if "default" in rules then
      (if rules["default"].Named? then Some(rules["default"].name) else rules["default"].strategy)
    else None
  }

  /** The rule prefers verified values exactly when the document names that strategy, for the attribute or as the
      default; the precedence list is the one written beside it. */
  lemma RulesByName(d: Definition, field: string)
    requires d.survivorship.Some?
    ensures VerifiedRule(SurvivorshipOf(d), field) <==>
      NameInForce(d.survivorship.value, field) == Some("verified_then_source_priority_then_observation_time")
    ensures forall source :: Listed(SurvivorshipOf(d), field, source) <==>
      && field in d.survivorship.value && d.survivorship.value[field].Detailed?
      && source in d.survivorship.value[field].precedence
    ensures field in d.survivorship.value && d.survivorship.value[field].Detailed? ==>
      && field in SurvivorshipOf(d).fields
      && SurvivorshipOf(d).fields[field].precedence == d.survivorship.value[field].precedence
  {
  }

  /** A definition without survivorship prefers verified values everywhere. */
  lemma UndeclaredPrefersVerified(lib: Library, doc: Document, field: string)
    requires Compile(lib, doc).Ok? && doc.spec.survivorship.None?
    ensures VerifiedRule(SurvivorshipOf(Compile(lib, doc).value.document), field)
    ensures forall source :: !Listed(SurvivorshipOf(Compile(lib, doc).value.document), field, source)
  {
    assert Compile(lib, doc).value.document.survivorship == Some(DefaultSurvivorship());
    RulesByName(Compile(lib, doc).value.document, field);
  }

  /** What is declared is what is in force. */
  lemma DeclaredRulesStay(lib: Library, doc: Document)
    requires Compile(lib, doc).Ok? && doc.spec.survivorship.Some?
    ensures Compile(lib, doc).value.document.survivorship == doc.spec.survivorship
  {
  }

  // ---- drafts ----

  /** In every run without activations the latest version of an entity shows, attribute by attribute, the value of the
      contribution that supplies it. */
  lemma DraftsShowTheSupplier(sources: map<string, int>, policies: map<string, Rules>, steps: seq<Step>, e: nat,
                              field: string)
    requires forall i :: 0 <= i < |steps| ==> !steps[i].ActivateStep?
    requires FactsOf(Run(Empty(sources, policies), steps), e) != {}
    ensures var s := Run(Empty(sources, policies), steps);
      && e in s.entities && s.entities[e].domain in s.policies && VersionsOf(s, e) != []
      && var values := VersionsOf(s, e)[|VersionsOf(s, e)| - 1].values;
         var p := s.policies[s.entities[e].domain].survivorship;
         && (field in values <==> exists w :: Supplies(p, s.sources, FactsOf(s, e), field, w))
         && (forall w :: Supplies(p, s.sources, FactsOf(s, e), field, w) ==> values[field] == w.original[field])
  {
    var s := Run(Empty(sources, policies), steps);
    DraftsNeverLag(sources, policies, steps, e);
    EmptyGrounded(sources, policies);
    RunGrounded(Empty(sources, policies), steps);
    FactsHaveDistinctUids(s, e);
    SupplierIsMastered(s.policies[s.entities[e].domain].survivorship, s.sources, FactsOf(s, e), field);
  }
}
