/** Scores and decisions respond monotonically to the comparison components. */
module Scoring {
  import opened Prelude
  import opened Survivorship
  import opened Store
  import opened PolicyCompiler
  import opened Matcher

  /** What the proofs use of the logarithm and the exponential. */
  ghost predicate Analytic(lib: Library) {
    && (forall x, y :: 0.0 < x <= y ==> lib.ln(x) <= lib.ln(y))
    && (forall x :: lib.exp(x) > 0.0)
    && (forall x, y :: x <= y ==> lib.exp(x) <= lib.exp(y))
  }

  ghost predicate AtMost(xs: seq<real>, ys: seq<real>) {
    |xs| == |ys| && forall i :: 0 <= i < |xs| ==> xs[i] <= ys[i]
  }

  /** The guards a compiled policy passed. */
  predicate Guarded(m: Matching) {
    && (forall i :: 0 <= i < |m.comparisons| ==> ComparisonSound(m.comparisons[i]))
    && (m.algorithm == Some("fellegi_sunter") ==>
          && 0.0 < Or(m.prior, 0.01) < 1.0
          && forall i :: 0 <= i < |m.comparisons| ==> FellegiSunterSound(m.comparisons[i]))
    && m.thresholds.Some? && ThresholdsSound(m.thresholds.value)
  }

  lemma CompiledIsGuarded(lib: Library, doc: Document)
    requires Compile(lib, doc).Ok?
    ensures Guarded(Compile(lib, doc).value.document.matching)
  {
  }

  // ---- products and quotients ----

  lemma Times(x: real, y: real, w: real)
    requires x <= y && 0.0 <= w
    ensures Product(x, w) <= Product(y, w)
  {
    Multiply(x, y, w);
  }

  lemma Multiply(x: real, y: real, w: real)
    requires x <= y && 0.0 <= w
    ensures x * w <= y * w
  {
  }

  lemma DivideMonotone(a: real, b: real, w: real)
    requires a <= b && w > 0.0
    ensures a / w <= b / w
  {
    assert (b / w) - (a / w) == (b - a) / w;
  }

  lemma SelfQuotient(w: real)
    requires w > 0.0
    ensures w / w == 1.0 && 0.0 / w == 0.0
  {
  }

  // ---- rounding ----

  lemma UnscaleMonotone(a: int, b: int, s: real)
    requires a <= b && s > 0.0
    ensures a as real / s <= b as real / s
  {
    DivideMonotone(a as real, b as real, s);
  }

  lemma NearestMonotone(x: real, y: real)
    requires x <= y
    ensures Nearest(x) <= Nearest(y)
  {
  }

  lemma RoundMonotone(x: real, y: real, scale: nat)
    requires x <= y && scale > 0
    ensures Round(x, scale) <= Round(y, scale)
  {
    var s := scale as real;
    var a, b := Product(x, s), Product(y, s);
    Times(x, y, s);
    NearestMonotone(a, b);
    UnscaleMonotone(Nearest(a), Nearest(b), s);
  }

  lemma NearestOfWhole(n: int)
    ensures Nearest(n as real) == n
  {
  }

  lemma RoundOfEnds(scale: nat)
    requires scale > 0
    ensures Round(0.0, scale) == 0.0 && Round(1.0, scale) == 1.0
  {
    var s := scale as real;
    assert Product(0.0, s) == 0 as real && Product(1.0, s) == s;
    NearestOfWhole(0);
    NearestOfWhole(scale);
    SelfQuotient(s);
  }

  lemma RoundInUnit(x: real, scale: nat)
    requires 0.0 <= x <= 1.0 && scale > 0
    ensures 0.0 <= Round(x, scale) <= 1.0
  {
    RoundMonotone(0.0, x, scale);
    RoundMonotone(x, 1.0, scale);
    RoundOfEnds(scale);
  }

  // ---- the weighted score ----

  lemma {:induction false} WeightPositive(cs: seq<Comparison>)
    requires forall i :: 0 <= i < |cs| ==> ComparisonSound(cs[i])
    ensures TotalWeight(cs) >= 0.0 && (cs != [] ==> TotalWeight(cs) > 0.0)
  {
    if cs != [] { WeightPositive(cs[..|cs| - 1]); }
  }

  lemma {:induction false} WeightedSumMonotone(cs: seq<Comparison>, xs: seq<real>, ys: seq<real>)
    requires |cs| == |xs| && AtMost(xs, ys)
    requires forall i :: 0 <= i < |cs| ==> ComparisonSound(cs[i])
    ensures WeightedSum(cs, xs) <= WeightedSum(cs, ys)
  {
    if cs != [] {
      var n := |cs| - 1;
      WeightedSumMonotone(cs[..n], xs[..n], ys[..n]);
      Times(xs[n], ys[n], Or(cs[n].weight, 0.0));
    }
  }

  lemma {:induction false} WeightedSumBounds(cs: seq<Comparison>, xs: seq<real>)
    requires |cs| == |xs| && (forall i :: 0 <= i < |xs| ==> 0.0 <= xs[i] <= 1.0)
    requires forall i :: 0 <= i < |cs| ==> ComparisonSound(cs[i])
    ensures 0.0 <= WeightedSum(cs, xs) <= TotalWeight(cs)
  {
    if cs != [] {
      var n := |cs| - 1;
      WeightedSumBounds(cs[..n], xs[..n]);
      var w := Or(cs[n].weight, 0.0);
      Times(0.0, xs[n], w);
      Times(xs[n], 1.0, w);
      assert Product(0.0, w) == 0.0 && Product(1.0, w) == w;
    }
  }

  // ---- the Fellegi-Sunter score ----

  lemma Undivide(a: real, b: real)
    requires b > 0.0
    ensures a / b * b == a
  {
  }

  lemma SmallerProduct(q: real, r: real, b: real)
    requires 0.0 < b && q < r
    ensures q * b < r * b
  {
  }

  lemma PositiveFactor(q: real, b: real)
    requires 0.0 < b && q * b > 0.0
    ensures q > 0.0
  {
  }

  lemma FactorAbove(q: real, b: real, a: real)
    requires q * b == a && 0.0 < b <= a
    ensures q >= 1.0
  {
    if q < 1.0 { SmallerProduct(q, 1.0, b); }
  }

  lemma FactorBelow(q: real, b: real, a: real)
    requires q * b == a && 0.0 < a <= b
    ensures 0.0 < q <= 1.0
  {
    if 1.0 < q { SmallerProduct(1.0, q, b); }
    PositiveFactor(q, b);
  }

  lemma QuotientAboveOne(a: real, b: real)
    requires 0.0 < b <= a
    ensures Quotient(a, b) >= 1.0
  {
    Undivide(a, b);
    FactorAbove(a / b, b, a);
  }

  lemma QuotientBelowOne(a: real, b: real)
    requires 0.0 < a <= b
    ensures 0.0 < Quotient(a, b) <= 1.0
  {
    Undivide(a, b);
    FactorBelow(a / b, b, a);
  }

  /** Agreeing is evidence for a match: with `0 < u < m < 1` the agreement weight is not below the disagreement
      weight. */
  lemma AgreementOutweighs(lib: Library, c: Comparison)
    requires Analytic(lib) && FellegiSunterSound(c)
    ensures Disagreement(lib, c) <= Agreement(lib, c)
  {
    var m, u := Or(c.m, 0.0), Or(c.u, 0.0);
    QuotientAboveOne(m, u);
    QuotientBelowOne(1.0 - m, 1.0 - u);
  }

  lemma {:induction false} LogLikelihoodMonotone(lib: Library, cs: seq<Comparison>, xs: seq<real>, ys: seq<real>)
    requires Analytic(lib) && |cs| == |xs| && AtMost(xs, ys)
    requires forall i :: 0 <= i < |cs| ==> FellegiSunterSound(cs[i])
    ensures LogLikelihood(lib, cs, xs) <= LogLikelihood(lib, cs, ys)
  {
    if cs != [] {
      var n := |cs| - 1;
      LogLikelihoodMonotone(lib, cs[..n], xs[..n], ys[..n]);
      ContributionMonotone(lib, cs[n], xs[n], ys[n]);
    }
  }

  lemma ContributionMonotone(lib: Library, c: Comparison, x: real, y: real)
    requires Analytic(lib) && FellegiSunterSound(c) && x <= y
    ensures Contribution(lib, c, x) <= Contribution(lib, c, y)
  {
    AgreementOutweighs(lib, c);
    Affine(Disagreement(lib, c), Agreement(lib, c) - Disagreement(lib, c), x, y);
  }

  lemma Affine(base: real, slope: real, x: real, y: real)
    requires x <= y && 0.0 <= slope
    ensures base + Product(x, slope) <= base + Product(y, slope)
  {
    Times(x, y, slope);
  }

  lemma ReciprocalAntitone(a: real, b: real)
    requires 0.0 < a <= b
    ensures 1.0 / b <= 1.0 / a
  {
    assert (1.0 / a) - (1.0 / b) == (b - a) / (a * b) by {
      assert a * b > 0.0;
      assert ((1.0 / a) - (1.0 / b)) * (a * b) == b - a;
    }
  }

  lemma PosteriorMonotone(lib: Library, prior: real, x: real, y: real)
    requires Analytic(lib) && x <= y
    ensures Posterior(lib, prior, x) <= Posterior(lib, prior, y)
    ensures 0.0 < Posterior(lib, prior, x) < 1.0
  {
    var base := lib.ln(Quotient(prior, 1.0 - prior));
    var a, b := 1.0 + lib.exp(0.0 - (base + x)), 1.0 + lib.exp(0.0 - (base + y));
    assert 1.0 < b <= a;
    ReciprocalAntitone(b, a);
    assert 1.0 / a < 1.0 by { assert (1.0 / a) * a == 1.0; }
  }

  // ---- main results ----

  /** Raising any component never lowers the score, in either algorithm. */
  lemma ScoreMonotone(lib: Library, m: Matching, xs: seq<real>, ys: seq<real>)
    requires Guarded(m) && Analytic(lib) && |xs| == |m.comparisons| && AtMost(xs, ys)
    ensures Score(lib, m, xs) <= Score(lib, m, ys)
  {
    if m.algorithm == Some("fellegi_sunter") {
      LogLikelihoodMonotone(lib, m.comparisons, xs, ys);
      var a, b := LogLikelihood(lib, m.comparisons, xs), LogLikelihood(lib, m.comparisons, ys);
      PosteriorMonotone(lib, Or(m.prior, 0.01), a, b);
      RoundMonotone(Posterior(lib, Or(m.prior, 0.01), a), Posterior(lib, Or(m.prior, 0.01), b), 1000000);
    } else if m.comparisons != [] {
      WeightPositive(m.comparisons);
      WeightedSumMonotone(m.comparisons, xs, ys);
      DivideMonotone(WeightedSum(m.comparisons, xs), WeightedSum(m.comparisons, ys), TotalWeight(m.comparisons));
      RoundMonotone(WeightedSum(m.comparisons, xs) / TotalWeight(m.comparisons),
        WeightedSum(m.comparisons, ys) / TotalWeight(m.comparisons), 10000);
    }
  }

  function RankOf(d: Decision): int {
    match d
    case KeepSeparate => 0
    case NoLink => 1
    case Review => 2
    case AutoLink => 3
  }

  /** For every compiled policy: with the contradictions unchanged, raising components lowers neither the score nor
      the decision. */
  lemma DecisionMonotone(lib: Library, doc: Document, xs: seq<real>, ys: seq<real>, contradicted: bool)
    requires Compile(lib, doc).Ok? && Analytic(lib)
    requires |xs| == |Compile(lib, doc).value.document.matching.comparisons| && AtMost(xs, ys)
    ensures var m := Compile(lib, doc).value.document.matching;
      && Score(lib, m, xs) <= Score(lib, m, ys)
      && RankOf(DecisionOf(ThresholdsOf(m), contradicted, Score(lib, m, xs)))
           <= RankOf(DecisionOf(ThresholdsOf(m), contradicted, Score(lib, m, ys)))
  {
    CompiledIsGuarded(lib, doc);
    ScoreMonotone(lib, Compile(lib, doc).value.document.matching, xs, ys);
  }

  /** The same for two comparisons: a pair that agrees at least as well on every rule, and is as free of contradictions,
      scores and ranks at least as high. */
  lemma BetterAgreementRanksHigher(lib: Library, doc: Document, a: Values, b: Values, c: Values, d: Values)
    requires Compile(lib, doc).Ok? && Analytic(lib)
    requires var p := Compile(lib, doc).value.document;
      && AtMost(Components(lib, p.matching.comparisons, a, b), Components(lib, p.matching.comparisons, c, d))
      && Compare(lib, p, a, b).contradicted == Compare(lib, p, c, d).contradicted
    ensures var p := Compile(lib, doc).value.document;
      && Compare(lib, p, a, b).score <= Compare(lib, p, c, d).score
      && RankOf(Compare(lib, p, a, b).decision) <= RankOf(Compare(lib, p, c, d).decision)
  {
    var p := Compile(lib, doc).value.document;
    DecisionMonotone(lib, doc, Components(lib, p.matching.comparisons, a, b),
        Components(lib, p.matching.comparisons, c, d),
      Compare(lib, p, a, b).contradicted);
  }

  /** The score stays in the unit interval when the library ratio and the missing scores do. */
  lemma ScoreInUnit(lib: Library, doc: Document, left: Values, right: Values)
    requires Compile(lib, doc).Ok? && Analytic(lib)
    requires forall s, t :: 0.0 <= lib.ratio(s, t) <= 1.0
    requires forall c :: c in Compile(lib, doc).value.document.matching.comparisons ==> 0.0 <= Or(c.missing, 0.0) <= 1.0
    ensures 0.0 <= Compare(lib, Compile(lib, doc).value.document, left, right).score <= 1.0
  {
    CompiledIsGuarded(lib, doc);
    var m := Compile(lib, doc).value.document.matching;
    var xs := Components(lib, m.comparisons, left, right);
    forall i | 0 <= i < |xs| ensures 0.0 <= xs[i] <= 1.0 {
      assert m.comparisons[i] in m.comparisons;
    }
    ComponentsInUnit(lib, m, xs);
  }

  lemma ComponentsInUnit(lib: Library, m: Matching, xs: seq<real>)
    requires Guarded(m) && Analytic(lib) && |xs| == |m.comparisons|
    requires forall i :: 0 <= i < |xs| ==> 0.0 <= xs[i] <= 1.0
    ensures 0.0 <= Score(lib, m, xs) <= 1.0
  {
    if m.algorithm == Some("fellegi_sunter") {
      var a := LogLikelihood(lib, m.comparisons, xs);
      PosteriorMonotone(lib, Or(m.prior, 0.01), a, a);
      RoundInUnit(Posterior(lib, Or(m.prior, 0.01), a), 1000000);
    } else if m.comparisons != [] {
      WeightPositive(m.comparisons);
      WeightedSumBounds(m.comparisons, xs);
      var w := TotalWeight(m.comparisons);
      DivideMonotone(0.0, WeightedSum(m.comparisons, xs), w);
      DivideMonotone(WeightedSum(m.comparisons, xs), w, w);
      assert w / w == 1.0 by { SelfQuotient(w); }
      RoundInUnit(WeightedSum(m.comparisons, xs) / w, 10000);
    }
  }

  /** Among verdicts of one compiled policy an automatic link scores above a review. */
  lemma AutoLinkOutscoresReview(lib: Library, d: Definition, x: Values, y: Values, z: Values)
    requires Compare(lib, d, x, y).decision == AutoLink && Compare(lib, d, x, z).decision == Review
    ensures Compare(lib, d, x, z).score < Compare(lib, d, x, y).score
  {
  }
}
