/** What a comparison score means: the weighted share of agreeing fields, or the probability of a match by Bayes'
    rule. */
module Agreements {
  import opened Prelude
  import opened Survivorship
  import opened Store
  import opened PolicyCompiler
  import opened Matcher
  import opened Scoring
  import opened PolicyMeaning

  predicate Carries(values: Values, field: string) {
    field in values && values[field] != Null && values[field] != Text("")
  }

  predicate SameOn(left: Values, right: Values, field: string) {
    Carries(left, field) && Carries(right, field) && left[field] == right[field]
  }

  predicate DifferOn(left: Values, right: Values, field: string) {
    Carries(left, field) && Carries(right, field) && left[field] != right[field]
  }

  // ---- decisions ----

  /** The thresholds as written; without any, nothing is linked or reviewed. */
  function Written(m: Matching): Thresholds {
    if m.thresholds.Some? then m.thresholds.value
    else
      Thresholds(if m.review.Some? then m.review.value else 1.01, if m.autoLink.Some? then m.autoLink.value else 1.01)
  }

  /** A contradicted pair is kept separate, whatever its score; any other one is decided by the written thresholds,
      which belong to the better decision. */
  lemma ThresholdsDecide(lib: Library, doc: Document, left: Values, right: Values)
    requires Compile(lib, doc).Ok?
    ensures var v := Compare(lib, Compile(lib, doc).value.document, left, right);
      var t := Written(doc.spec.matching);
      && (v.decision == KeepSeparate <==> v.contradicted)
      && (v.decision == AutoLink <==> !v.contradicted && t.autoLink <= v.score)
      && (v.decision == Review <==> !v.contradicted && t.review <= v.score < t.autoLink)
      && (v.decision == NoLink <==> !v.contradicted && v.score < t.review)
  {
    ScoresAreKept(lib, doc, left, right);
    CompiledIsGuarded(lib, doc);
    assert ThresholdsOf(doc.spec.matching) == Written(doc.spec.matching);
  }

  // ---- rounding ----

  /** Rounding returns a multiple of the unit within half a unit, the even one of two. */
  lemma RoundIsNearest(x: real, scale: nat) returns (n: int)
    requires scale > 0
    ensures Round(x, scale) == n as real / scale as real
    ensures -0.5 <= x * scale as real - n as real <= 0.5
    ensures x * scale as real - n as real == 0.5 || x * scale as real - n as real == -0.5 ==> n % 2 == 0
  {
    n := Nearest(Product(x, scale as real));
  }

  // ---- the weighted score ----

  /** Every rule compares exactly, with a positive weight. */
  predicate ExactRules(cs: seq<Comparison>) {
    forall i :: 0 <= i < |cs| ==> cs[i].comparator == "exact" && cs[i].weight.Some? && cs[i].weight.value > 0.0
  }

  predicate ExactWeighted(d: Definition) {
    d.matching.algorithm != Some("fellegi_sunter") && ExactRules(d.matching.comparisons)
  }

  function RuleWeight(c: Comparison): real {
    if c.weight.Some? then c.weight.value else 0.0
  }

  function MissingScore(c: Comparison): real {
    if c.missing.Some? then c.missing.value else 0.0
  }

  function Weights(cs: seq<Comparison>): real {
    if cs == [] then 0.0 else Weights(cs[..|cs| - 1]) + RuleWeight(cs[|cs| - 1])
  }

  /** What one field earns: its weight when the records agree on it, nothing when they differ, the missing score's part
      when a side lacks it. */
  function Part(c: Comparison, left: Values, right: Values): real {
    if SameOn(left, right, c.field) then RuleWeight(c)
    else if DifferOn(left, right, c.field) then 0.0
    else Product(MissingScore(c), RuleWeight(c))
  }

  function Earned(cs: seq<Comparison>, left: Values, right: Values): real {
    if cs == [] then 0.0 else Earned(cs[..|cs| - 1], left, right) + Part(cs[|cs| - 1], left, right)
  }

  lemma {:induction false} WeightsAreTotal(cs: seq<Comparison>)
    ensures Weights(cs) == TotalWeight(cs)
  {
    if cs != [] { WeightsAreTotal(cs[..|cs| - 1]); }
  }

  lemma ExactComponent(lib: Library, c: Comparison, left: Values, right: Values)
    requires c.comparator == "exact"
    ensures Component(lib, c, left, right) ==
      if SameOn(left, right, c.field) then 1.0 else if DifferOn(left, right, c.field) then 0.0 else MissingScore(c)
  {
  }

  lemma PartIsProduct(lib: Library, c: Comparison, left: Values, right: Values)
    requires c.comparator == "exact"
    ensures Product(Component(lib, c, left, right), Or(c.weight, 0.0)) == Part(c, left, right)
  {
    ExactComponent(lib, c, left, right);
    assert Product(1.0, RuleWeight(c)) == RuleWeight(c) && Product(0.0, RuleWeight(c)) == 0.0;
  }

  lemma {:induction false} EarnedIsSum(lib: Library, cs: seq<Comparison>, left: Values, right: Values)
    requires ExactRules(cs)
    ensures WeightedSum(cs, Components(lib, cs, left, right)) == Earned(cs, left, right)
  {
    if cs != [] {
      var n := |cs| - 1;
      EarnedIsSum(lib, cs[..n], left, right);
      assert Components(lib, cs, left, right)[..n] == Components(lib, cs[..n], left, right);
      PartIsProduct(lib, cs[n], left, right);
    }
  }

  lemma {:induction false} WeightsArePositive(cs: seq<Comparison>)
    requires ExactRules(cs)
    ensures Weights(cs) >= 0.0 && (cs != [] ==> Weights(cs) > 0.0)
  {
    if cs != [] { WeightsArePositive(cs[..|cs| - 1]); }
  }

  /** The score is the earned share of the weights, to four decimals. */
  lemma ScoreIsShare(lib: Library, d: Definition, left: Values, right: Values)
    requires ExactWeighted(d) && d.matching.comparisons != []
    ensures Weights(d.matching.comparisons) > 0.0
    ensures Compare(lib, d, left, right).score ==
      Round(Earned(d.matching.comparisons, left, right) / Weights(d.matching.comparisons), 10000)
  {
    WeightsAreTotal(d.matching.comparisons);
    WeightsArePositive(d.matching.comparisons);
    EarnedIsSum(lib, d.matching.comparisons, left, right);
  }

  lemma {:induction false} AllEarned(cs: seq<Comparison>, left: Values, right: Values)
    requires forall i :: 0 <= i < |cs| ==> SameOn(left, right, cs[i].field)
    ensures Earned(cs, left, right) == Weights(cs)
  {
    if cs != [] { AllEarned(cs[..|cs| - 1], left, right); }
  }

  lemma {:induction false} NothingEarned(cs: seq<Comparison>, left: Values, right: Values)
    requires forall i :: 0 <= i < |cs| ==> DifferOn(left, right, cs[i].field)
    ensures Earned(cs, left, right) == 0.0
  {
    if cs != [] { NothingEarned(cs[..|cs| - 1], left, right); }
  }

  predicate Lacking(c: Comparison, left: Values, right: Values, missing: real) {
    !(Carries(left, c.field) && Carries(right, c.field)) && missing == MissingScore(c)
  }

  lemma {:induction false} BlanksEarn(cs: seq<Comparison>, left: Values, right: Values, missing: real)
    requires forall i :: 0 <= i < |cs| ==> Lacking(cs[i], left, right, missing)
    ensures Earned(cs, left, right) == Product(missing, Weights(cs))
  {
    if cs == [] {
      Distribute(missing, 0.0, 0.0);
    } else {
      var n := |cs| - 1;
      BlanksEarn(cs[..n], left, right, missing);
      assert Lacking(cs[n], left, right, missing);
      Distribute(missing, Weights(cs[..n]), RuleWeight(cs[n]));
    }
  }

  lemma Distribute(x: real, a: real, b: real)
    ensures Product(x, a + b) == Product(x, a) + Product(x, b)
    ensures Product(x, 0.0) == 0.0
  {
  }

  lemma Cancel(x: real, w: real)
    requires w > 0.0
    ensures Product(x, w) / w == x
  {
  }

  /** The compiled policy of a definition whose rules all compare exactly and are weighted. */
  predicate Plainly(lib: Library, doc: Document) {
    && Compile(lib, doc).Ok? && doc.spec.matching.algorithm in {None, Some("weighted_score")}
    && doc.spec.matching.comparisons != []
    && forall i :: 0 <= i < |doc.spec.matching.comparisons| ==> doc.spec.matching.comparisons[i].comparator == "exact"
  }

  lemma PlainlyWeighted(lib: Library, doc: Document)
    requires Plainly(lib, doc)
    ensures ExactWeighted(Compile(lib, doc).value.document)
    ensures Compile(lib, doc).value.document.matching.comparisons == doc.spec.matching.comparisons
  {
    CompiledParts(lib, doc);
    CompiledIsGuarded(lib, doc);
  }

  /** A pair that agrees on every compared field scores one, and is linked when nothing contradicts it and the threshold
      is at most one. */
  lemma AgreementScoresOne(lib: Library, doc: Document, left: Values, right: Values)
    requires Plainly(lib, doc)
    requires forall i :: 0 <= i < |doc.spec.matching.comparisons| ==>
      SameOn(left, right, doc.spec.matching.comparisons[i].field)
    ensures var v := Compare(lib, Compile(lib, doc).value.document, left, right);
      && v.score == 1.0
      && (!v.contradicted && Written(doc.spec.matching).autoLink <= 1.0 ==> v.decision == AutoLink)
  {
    PlainlyWeighted(lib, doc);
    var d := Compile(lib, doc).value.document;
    ScoreIsShare(lib, d, left, right);
    AllEarned(d.matching.comparisons, left, right);
    SelfQuotient(Weights(d.matching.comparisons));
    RoundOfEnds(10000);
    ThresholdsDecide(lib, doc, left, right);
  }

  /** A pair that differs on every compared field scores zero. */
  lemma DisagreementScoresZero(lib: Library, doc: Document, left: Values, right: Values)
    requires Plainly(lib, doc)
    requires forall i :: 0 <= i < |doc.spec.matching.comparisons| ==>
      DifferOn(left, right, doc.spec.matching.comparisons[i].field)
    ensures Compare(lib, Compile(lib, doc).value.document, left, right).score == 0.0
  {
    PlainlyWeighted(lib, doc);
    var d := Compile(lib, doc).value.document;
    ScoreIsShare(lib, d, left, right);
    NothingEarned(d.matching.comparisons, left, right);
    SelfQuotient(Weights(d.matching.comparisons));
    RoundOfEnds(10000);
  }

  /** A field that one side lacks counts its missing score: when all do, with one missing score, that is the score. */
  lemma BlankCountsMissing(lib: Library, doc: Document, left: Values, right: Values, missing: real)
    requires Plainly(lib, doc)
    requires forall i :: 0 <= i < |doc.spec.matching.comparisons| ==>
      Lacking(doc.spec.matching.comparisons[i], left, right, missing)
    ensures Compare(lib, Compile(lib, doc).value.document, left, right).score == Round(missing, 10000)
  {
    PlainlyWeighted(lib, doc);
    var d := Compile(lib, doc).value.document;
    ScoreIsShare(lib, d, left, right);
    BlanksEarn(d.matching.comparisons, left, right, missing);
    Cancel(missing, Weights(d.matching.comparisons));
  }

  lemma SoleRule(c: Comparison, x: real)
    requires c.weight.Some?
    ensures TotalWeight([c]) == c.weight.value && WeightedSum([c], [x]) == Product(x, c.weight.value)
  {
    assert [c][..0] == [] && [x][..0] == [];
    assert TotalWeight([c][..0]) == 0.0 && WeightedSum([c][..0], [x][..0]) == 0.0;
  }

  /** A single rule that compares by likeness scores the likeness of the two texts. */
  lemma LikenessIsTheScore(lib: Library, d: Definition, c: Comparison, x: string, y: string,
                           left: Values, right: Values)
    requires d.matching.algorithm != Some("fellegi_sunter") && d.matching.comparisons == [c]
    requires c.comparator == "sequence_ratio" && c.weight.Some? && c.weight.value > 0.0 && x != "" && y != ""
    requires c.field in left && left[c.field] == Text(x) && c.field in right && right[c.field] == Text(y)
    ensures Compare(lib, d, left, right).score == Round(lib.ratio(x, y), 10000)
  {
    assert Components(lib, [c], left, right) == [lib.ratio(x, y)];
    SoleRule(c, lib.ratio(x, y));
    Cancel(lib.ratio(x, y), c.weight.value);
  }

  // ---- the probability ----

  /** What the proofs use of the logarithm and the exponential. */
  ghost predicate Exponential(lib: Library) {
    && (forall x :: lib.exp(x) > 0.0) && lib.exp(0.0) == 1.0
    && (forall x, y :: lib.exp(x + y) == lib.exp(x) * lib.exp(y))
    && (forall x :: x > 0.0 ==> lib.exp(lib.ln(x)) == x)
  }

  /** Exact rules with `0 < u < m < 1`; a field that one side lacks counts as a difference. */
  predicate ExactEvidence(cs: seq<Comparison>) {
    forall i :: 0 <= i < |cs| ==>
      && cs[i].comparator == "exact" && cs[i].missing in {None, Some(0.0)}
      && cs[i].m.Some? && cs[i].u.Some? && 0.0 < cs[i].u.value < cs[i].m.value < 1.0
  }

  /** The probability of what one field shows, among matches. */
  function FieldAmongMatches(c: Comparison, left: Values, right: Values): real {
    var m := if c.m.Some? then c.m.value else 0.0;
    if SameOn(left, right, c.field) then m else 1.0 - m
  }

  /** The same among other pairs. */
  function FieldAmongOthers(c: Comparison, left: Values, right: Values): real {
    var u := if c.u.Some? then c.u.value else 0.0;
    if SameOn(left, right, c.field) then u else 1.0 - u
  }

  /** The probability of what the whole comparison shows, among matches, the fields being independent. */
  function AmongMatches(cs: seq<Comparison>, left: Values, right: Values): real {
    if cs == [] then 1.0
    else Product(AmongMatches(cs[..|cs| - 1], left, right), FieldAmongMatches(cs[|cs| - 1], left, right))
  }

  function AmongOthers(cs: seq<Comparison>, left: Values, right: Values): real {
    if cs == [] then 1.0
    else Product(AmongOthers(cs[..|cs| - 1], left, right), FieldAmongOthers(cs[|cs| - 1], left, right))
  }

  lemma PositiveProduct(a: real, b: real)
    requires a > 0.0 && b > 0.0
    ensures Product(a, b) > 0.0
  {
  }

  lemma {:induction false} ProbabilitiesArePositive(cs: seq<Comparison>, left: Values, right: Values)
    requires ExactEvidence(cs)
    ensures AmongMatches(cs, left, right) > 0.0 && AmongOthers(cs, left, right) > 0.0
  {
    if cs != [] {
      var n := |cs| - 1;
      ProbabilitiesArePositive(cs[..n], left, right);
      PositiveProduct(AmongMatches(cs[..n], left, right), FieldAmongMatches(cs[n], left, right));
      PositiveProduct(AmongOthers(cs[..n], left, right), FieldAmongOthers(cs[n], left, right));
    }
  }

  lemma PositiveRatio(a: real, b: real)
    requires a > 0.0 && b > 0.0
    ensures a / b > 0.0 && Product(a / b, b) == a
  {
    Undivide(a, b);
  }

  lemma RatioOfLogs(lib: Library, a: real, b: real)
    requires Exponential(lib) && a > 0.0 && b > 0.0
    ensures Product(lib.exp(lib.ln(Quotient(a, b))), b) == a
  {
    PositiveRatio(a, b);
  }

  lemma ExactContribution(lib: Library, c: Comparison, left: Values, right: Values)
    requires ExactEvidence([c])
    ensures Contribution(lib, c, Component(lib, c, left, right)) ==
      if SameOn(left, right, c.field) then Agreement(lib, c) else Disagreement(lib, c)
  {
    assert [c][0] == c;
    ExactComponent(lib, c, left, right);
    var d := Agreement(lib, c) - Disagreement(lib, c);
    assert Product(1.0, d) == d && Product(0.0, d) == 0.0;
  }

  /** One rule multiplies the odds by the ratio of the two probabilities. */
  lemma RuleMultiplies(lib: Library, c: Comparison, left: Values, right: Values)
    requires Exponential(lib) && ExactEvidence([c])
    ensures Product(lib.exp(Contribution(lib, c, Component(lib, c, left, right))), FieldAmongOthers(c, left, right)) ==
      FieldAmongMatches(c, left, right)
  {
    assert [c][0] == c;
    ExactContribution(lib, c, left, right);
    RatioOfLogs(lib, FieldAmongMatches(c, left, right), FieldAmongOthers(c, left, right));
  }

  lemma Rearranged(e: real, f: real, q: real, b: real, p: real, a: real)
    requires Product(e, q) == p && Product(f, b) == a
    ensures Product(Product(e, f), Product(q, b)) == Product(p, a)
  {
    assert (e * f) * (q * b) == (e * q) * (f * b);
  }

  /** Evidence adds up in the exponent. */
  lemma EvidenceJoins(lib: Library, y: real, z: real, q: real, b: real, p: real, a: real)
    requires Exponential(lib) && Product(lib.exp(y), q) == p && Product(lib.exp(z), b) == a
    ensures Product(lib.exp(y + z), Product(q, b)) == Product(p, a)
  {
    Rearranged(lib.exp(y), lib.exp(z), q, b, p, a);
  }

  lemma {:induction false} EvidenceIsOdds(lib: Library, cs: seq<Comparison>, left: Values, right: Values)
    requires Exponential(lib) && ExactEvidence(cs)
    ensures Product(lib.exp(LogLikelihood(lib, cs, Components(lib, cs, left, right))), AmongOthers(cs, left, right)) ==
      AmongMatches(cs, left, right)
  {
    if cs != [] {
      var n := |cs| - 1;
      var xs := Components(lib, cs, left, right);
      assert xs[..n] == Components(lib, cs[..n], left, right);
      EvidenceIsOdds(lib, cs[..n], left, right);
      assert [cs[n]][0] == cs[n];
      RuleMultiplies(lib, cs[n], left, right);
      EvidenceJoins(lib, LogLikelihood(lib, cs[..n], xs[..n]), Contribution(lib, cs[n], xs[n]),
                    AmongOthers(cs[..n], left, right), FieldAmongOthers(cs[n], left, right),
                    AmongMatches(cs[..n], left, right), FieldAmongMatches(cs[n], left, right));
    }
  }

  lemma Unfactor(s: real, a: real, b: real, c: real)
    requires Product(s, a) == 1.0 && Product(a, b) == c
    ensures Product(s, c) == b
  {
    assert s * (a * b) == (s * a) * b;
  }

  /** `s (1 + f) = 1` and `f g = 1` say that `s (g + 1) = g`. */
  lemma Inverted(s: real, f: real, g: real)
    requires Product(s, 1.0 + f) == 1.0 && Product(f, g) == 1.0
    ensures Product(s, g + 1.0) == g
  {
    assert Product(1.0 + f, g) == g + 1.0;
    Unfactor(s, 1.0 + f, g, g + 1.0);
  }

  lemma Scaled(s: real, g: real, m: real, n: real)
    requires Product(s, g + 1.0) == g && Product(g, m) == n
    ensures Product(s, n + m) == n
  {
    assert (g + 1.0) * m == n + m;
    assert s * ((g + 1.0) * m) == (s * (g + 1.0)) * m;
  }

  lemma ShareOf(s: real, n: real, whole: real)
    requires whole > 0.0 && Product(s, whole) == n
    ensures s == n / whole
  {
  }

  lemma OddsToShare(s: real, f: real, g: real, m: real, n: real)
    requires Product(s, 1.0 + f) == 1.0 && Product(f, g) == 1.0 && Product(g, m) == n && n + m > 0.0
    ensures s == n / (n + m)
  {
    Inverted(s, f, g);
    Scaled(s, g, m, n);
    ShareOf(s, n, n + m);
  }

  lemma InverseExponential(lib: Library, y: real)
    requires Exponential(lib)
    ensures Product(lib.exp(0.0 - y), lib.exp(y)) == 1.0
  {
    assert (0.0 - y) + y == 0.0;
    assert lib.exp((0.0 - y) + y) == lib.exp(0.0 - y) * lib.exp(y);
  }

  lemma Reciprocal(a: real)
    requires a > 0.0
    ensures Quotient(1.0, a) == 1.0 / a && Product(1.0 / a, a) == 1.0
  {
    Undivide(1.0, a);
  }

  lemma OddsAreRatio(lib: Library, prior: real, x: real, p: real, q: real)
    requires Exponential(lib) && 0.0 < prior < 1.0 && p > 0.0 && q > 0.0 && Product(lib.exp(x), q) == p
    ensures Product(lib.exp(lib.ln(Quotient(prior, 1.0 - prior)) + x), Product(1.0 - prior, q)) == Product(prior, p)
  {
    RatioOfLogs(lib, prior, 1.0 - prior);
    EvidenceJoins(lib, lib.ln(Quotient(prior, 1.0 - prior)), x, 1.0 - prior, q, prior, p);
  }

  lemma LogisticShare(lib: Library, y: real, m: real, n: real)
    requires Exponential(lib) && Product(lib.exp(y), m) == n && n + m > 0.0
    ensures Quotient(1.0, 1.0 + lib.exp(0.0 - y)) == n / (n + m)
  {
    var f := lib.exp(0.0 - y);
    Reciprocal(1.0 + f);
    InverseExponential(lib, y);
    OddsToShare(1.0 / (1.0 + f), f, lib.exp(y), m, n);
  }

  /** Bayes' rule: the posterior is the share of the matches among the pairs that show the same. */
  lemma PosteriorIsShare(lib: Library, prior: real, x: real, p: real, q: real)
    requires Exponential(lib) && 0.0 < prior < 1.0 && p > 0.0 && q > 0.0 && Product(lib.exp(x), q) == p
    ensures Product(prior, p) + Product(1.0 - prior, q) > 0.0
    ensures Posterior(lib, prior, x) == Product(prior, p) / (Product(prior, p) + Product(1.0 - prior, q))
  {
    PositiveProduct(prior, p);
    PositiveProduct(1.0 - prior, q);
    OddsAreRatio(lib, prior, x, p, q);
    LogisticShare(lib, lib.ln(Quotient(prior, 1.0 - prior)) + x, Product(1.0 - prior, q), Product(prior, p));
  }

  /** The prior as written, or one in a hundred. */
  function WrittenPrior(m: Matching): real {
    if m.prior.Some? then m.prior.value else 0.01
  }

  /** The pairs that show what the comparison shows, out of one: the matches, and the others. */
  function MatchesShowing(m: Matching, left: Values, right: Values): real {
    Product(WrittenPrior(m), AmongMatches(m.comparisons, left, right))
  }

  function OthersShowing(m: Matching, left: Values, right: Values): real {
    Product(1.0 - WrittenPrior(m), AmongOthers(m.comparisons, left, right))
  }

  /** The share of matches among the pairs that show what the comparison shows. */
  function MatchProbability(m: Matching, left: Values, right: Values): real {
    Quotient(MatchesShowing(m, left, right), MatchesShowing(m, left, right) + OthersShowing(m, left, right))
  }

  lemma CompiledPrior(lib: Library, doc: Document)
    requires Compile(lib, doc).Ok? && doc.spec.matching.algorithm == Some("fellegi_sunter")
    ensures 0.0 < WrittenPrior(doc.spec.matching) < 1.0
  {
    CompiledParts(lib, doc);
  }

  lemma PosteriorIsProbability(lib: Library, m: Matching, left: Values, right: Values, x: real)
    requires Exponential(lib) && ExactEvidence(m.comparisons) && 0.0 < WrittenPrior(m) < 1.0
    requires Product(lib.exp(x), AmongOthers(m.comparisons, left, right)) == AmongMatches(m.comparisons, left, right)
    ensures MatchesShowing(m, left, right) + OthersShowing(m, left, right) > 0.0
    ensures Posterior(lib, WrittenPrior(m), x) == MatchProbability(m, left, right)
  {
    ProbabilitiesArePositive(m.comparisons, left, right);
    PosteriorIsShare(lib, WrittenPrior(m), x, AmongMatches(m.comparisons, left, right),
                     AmongOthers(m.comparisons, left, right));
  }

  lemma ProbabilisticScore(lib: Library, m: Matching, xs: seq<real>)
    requires m.algorithm == Some("fellegi_sunter") && |xs| == |m.comparisons|
    ensures Score(lib, m, xs) == Round(Posterior(lib, WrittenPrior(m), LogLikelihood(lib, m.comparisons, xs)), 1000000)
  {
  }

  lemma BayesScore(lib: Library, m: Matching, left: Values, right: Values)
    requires Exponential(lib) && m.algorithm == Some("fellegi_sunter") && ExactEvidence(m.comparisons)
    requires 0.0 < WrittenPrior(m) < 1.0
    ensures MatchesShowing(m, left, right) + OthersShowing(m, left, right) > 0.0
    ensures Score(lib, m, Components(lib, m.comparisons, left, right)) ==
      Round(MatchProbability(m, left, right), 1000000)
  {
    var xs := Components(lib, m.comparisons, left, right);
    EvidenceIsOdds(lib, m.comparisons, left, right);
    PosteriorIsProbability(lib, m, left, right, LogLikelihood(lib, m.comparisons, xs));
    ProbabilisticScore(lib, m, xs);
  }

  /** With exact evidence the score is the probability, given what the comparison shows, that the pair is a match, to
      six decimals: Bayes' rule with the prior and with independent fields. */
  lemma ScoreIsBayes(lib: Library, doc: Document, left: Values, right: Values)
    requires Exponential(lib) && Compile(lib, doc).Ok? && doc.spec.matching.algorithm == Some("fellegi_sunter")
    requires ExactEvidence(doc.spec.matching.comparisons)
    ensures MatchesShowing(doc.spec.matching, left, right) + OthersShowing(doc.spec.matching, left, right) > 0.0
    ensures Compare(lib, Compile(lib, doc).value.document, left, right).score ==
      Round(MatchProbability(doc.spec.matching, left, right), 1000000)
  {
    CompiledPrior(lib, doc);
    BayesScore(lib, doc.spec.matching, left, right);
    ScoresAreKept(lib, doc, left, right);
  }
}
