/** Compiled policies as the mastering service uses them, and the facts its guarantees rest on. */
module Wiring {
  import opened Prelude
  import opened Survivorship
  import opened Store
  import opened PolicyCompiler
  import opened Matcher
  import opened PolicyMeaning
  import opened Scoring
  import opened Contradictions
  import opened CandidateIndex

  function StrategyNamed(name: string): Strategy {
    if name == "verified_then_source_priority_then_observation_time" then VerifiedThenPriorityThenTime
    else PriorityThenTime
  }

  function RuleOf(rule: Survival): FieldRule {
    FieldRule(StrategyNamed(Or(StrategyOf(rule), "")), if rule.Detailed? then rule.precedence else [])
  }

  /** The survivorship part of a canonical document; its default is a strategy name. */
  function SurvivorshipOf(d: Definition): Policy {
    var rules := Or(d.survivorship, map[]);
    Policy(map field | field in rules :: RuleOf(rules[field]),
           if "default" in rules then Some(StrategyNamed(Or(StrategyOf(rules["default"]), ""))) else None)
  }

  /** What the service calls on a compiled policy. */
  function RulesOf(lib: Library, d: Definition): Rules {
    Rules(
      values => Normalize(lib, d, values),
      values => Faults(lib, d.attributes, values) != Ok([]),
      n => BlockingKeys(lib, d.matching.blocking, n),
      (x, y) => Compare(lib, d, x, y),
      SurvivorshipOf(d))
  }

  lemma RulesAreSymmetric(lib: Library, d: Definition)
    ensures Symmetric(RulesOf(lib, d))
  {
    forall x, y ensures RulesOf(lib, d).compare(x, y).contradicted == RulesOf(lib, d).compare(y, x).contradicted {
      ContradictionIsSymmetric(lib, d, x, y);
    }
  }

  /** With compiled policies the guarantee against contradictions needs no further assumption. */
  lemma CompiledPoliciesAreSymmetric(lib: Library, documents: map<string, Definition>)
    ensures AllSymmetric(map d | d in documents :: RulesOf(lib, documents[d]))
  {
    forall d | d in documents ensures Symmetric(RulesOf(lib, documents[d])) { RulesAreSymmetric(lib, documents[d]); }
  }

  lemma ScoresDecideOutcomes(lib: Library, d: Definition)
    ensures ScoresDecide(RulesOf(lib, d))
  {
    forall x, y, z | RulesOf(lib, d).compare(x, y).decision == AutoLink &&
        RulesOf(lib, d).compare(x, z).decision == Review
      ensures RulesOf(lib, d).compare(x, z).score < RulesOf(lib, d).compare(x, y).score
    {
      AutoLinkOutscoresReview(lib, d, x, y, z);
    }
  }

  /** One record gets one index row per key, so the index is a set. */
  lemma OneRowPerKey(lib: Library, d: Definition, n: Values)
    ensures Distinct(RulesOf(lib, d).keys(n))
  {
    KeysAreDistinct(lib, d.matching.blocking, n);
  }

  /** A verdict contradicts exactly when the definition, as written, declares a hard identifier in conflict. */
  lemma ClashIsDeclared(lib: Library, doc: Document, x: Values, y: Values)
    requires Compile(lib, doc).Ok?
    ensures RulesOf(lib, Compile(lib, doc).value.document).compare(x, y).contradicted <==>
      exists i :: DeclaredConflict(doc.spec, x, y, i)
  {
    ContradictionsAreKept(lib, doc, x, y);
  }

  // ---- what a quarantine means ----

  predicate ShortPatterns(attributes: seq<Attribute>) {
    forall i :: 0 <= i < |attributes| ==> |Or(attributes[i].pattern, "")| <= PATTERN_LIMIT
  }

  ghost predicate FaultAt(lib: Library, attributes: seq<Attribute>, values: Values, i: nat) {
    i < |attributes| && FaultsOf(lib, attributes[i], values) != Ok([])
  }

  /** With patterns within the limit validation never raises, and a record is quarantined exactly when some attribute
      faults it. */
  lemma {:induction false} QuarantineIsAFault(lib: Library, attributes: seq<Attribute>, values: Values)
    requires ShortPatterns(attributes)
    ensures Faults(lib, attributes, values).Ok?
    ensures Faults(lib, attributes, values) != Ok([]) <==> exists i :: FaultAt(lib, attributes, values, i)
  {
    if attributes != [] {
      var m := |attributes| - 1;
      QuarantineIsAFault(lib, attributes[..m], values);
      assert FaultsOf(lib, attributes[m], values).Ok?;
      forall i: nat | i < m
        ensures FaultAt(lib, attributes[..m], values, i) <==> FaultAt(lib, attributes, values, i)
      {
      }
      if FaultsOf(lib, attributes[m], values) != Ok([]) { assert FaultAt(lib, attributes, values, m); }
    }
  }
}
