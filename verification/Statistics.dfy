/** What fitted parameters and evaluation reports count, told by the pairs themselves. */
module Statistics {
  import opened Prelude
  import opened Survivorship
  import opened PolicyCompiler
  import opened Matcher
  import opened Scoring
  import opened Agreements
  import opened Probabilistic
  import opened Evaluation

  // ---- fitted parameters ----

  /** The pair agrees on the field of the rule: equal values, or texts that are alike to eighty-five in a hundred. */
  predicate Agreed(lib: Library, c: Comparison, row: Labeled) {
    && Carries(row.left, c.field) && Carries(row.right, c.field)
    && if c.comparator == "exact" then row.left[c.field] == row.right[c.field]
       else lib.ratio(Show(lib, row.left[c.field]), Show(lib, row.right[c.field])) >= 0.85
  }

  function LabeledAs(rows: seq<Labeled>, isMatch: bool): set<nat> {
    set i: nat | i < |rows| && rows[i].isMatch == isMatch
  }

  function AgreedAs(lib: Library, c: Comparison, rows: seq<Labeled>, isMatch: bool): set<nat> {
    set i: nat | i < |rows| && rows[i].isMatch == isMatch && Agreed(lib, c, rows[i])
  }

  lemma OneMore(before: set<nat>, after: set<nat>, n: nat, added: bool)
    requires n !in before && forall i :: i in after <==> i in before || (added && i == n)
    ensures |after| == |before| + if added then 1 else 0
  {
    assert after == before + if added then {n} else {};
  }

  lemma {:induction false} LabelsCount(rows: seq<Labeled>, isMatch: bool)
    ensures |Labels(rows, isMatch)| == |LabeledAs(rows, isMatch)|
  {
    if rows != [] {
      var n := |rows| - 1;
      LabelsCount(rows[..n], isMatch);
      OneMore(LabeledAs(rows[..n], isMatch), LabeledAs(rows, isMatch), n, rows[n].isMatch == isMatch);
    }
  }

  lemma AgreesIff(lib: Library, row: Labeled, c: Comparison)
    requires c.comparator in {"exact", "sequence_ratio"}
    ensures Agrees(lib, row, c) == Ok(Agreed(lib, c, row))
  {
  }

  lemma MoreAgreed(lib: Library, c: Comparison, rows: seq<Labeled>, isMatch: bool)
    requires rows != []
    ensures var n := |rows| - 1;
      |AgreedAs(lib, c, rows, isMatch)| ==
        |AgreedAs(lib, c, rows[..n], isMatch)| + if rows[n].isMatch == isMatch && Agreed(lib, c, rows[n]) then 1 else 0
  {
    var n := |rows| - 1;
    OneMore(AgreedAs(lib, c, rows[..n], isMatch), AgreedAs(lib, c, rows, isMatch), n,
            rows[n].isMatch == isMatch && Agreed(lib, c, rows[n]));
  }

  lemma CountLast(lib: Library, rows: seq<Labeled>, last: Labeled, c: Comparison, n: nat)
    requires c.comparator in {"exact", "sequence_ratio"} && Count(lib, rows, c) == Ok(n)
    ensures Count(lib, rows + [last], c) == Ok(n + if Agreed(lib, c, last) then 1 else 0)
  {
    assert (rows + [last])[..|rows|] == rows;
    AgreesIff(lib, last, c);
  }

  lemma {:induction false} AgreementsCount(lib: Library, rows: seq<Labeled>, c: Comparison, isMatch: bool)
    requires c.comparator in {"exact", "sequence_ratio"}
    ensures Count(lib, Labels(rows, isMatch), c) == Ok(|AgreedAs(lib, c, rows, isMatch)|)
  {
    if rows != [] {
      var n := |rows| - 1;
      AgreementsCount(lib, rows[..n], c, isMatch);
      MoreAgreed(lib, c, rows, isMatch);
      CountLast(lib, Labels(rows[..n], isMatch), rows[n], c, |AgreedAs(lib, c, rows[..n], isMatch)|);
    }
  }

  /** The share of agreeing pairs, smoothed. */
  function SmoothedShare(agreed: nat, all: nat, smoothing: real): real
    requires all > 0 && smoothing >= 0.0
  {
    (agreed as real + smoothing) / (all as real + 2.0 * smoothing)
  }

  lemma FittedOne(lib: Library, rows: seq<Labeled>, c: Comparison, smoothing: real)
    requires smoothing >= 0.0 && c.comparator in {"exact", "sequence_ratio"}
    requires Labels(rows, true) != [] && Labels(rows, false) != []
    ensures LabeledAs(rows, true) != {} && LabeledAs(rows, false) != {}
    ensures var m := SmoothedShare(|AgreedAs(lib, c, rows, true)|, |LabeledAs(rows, true)|, smoothing);
      var u := SmoothedShare(|AgreedAs(lib, c, rows, false)|, |LabeledAs(rows, false)|, smoothing);
      FitOne(lib, Labels(rows, true), Labels(rows, false), c, smoothing) ==
        if m <= u then Err("does not discriminate")
        else Ok(c.(m := Some(Round(m, 1000000)), u := Some(Round(u, 1000000))))
  {
    LabelsCount(rows, true);
    LabelsCount(rows, false);
    AgreementsCount(lib, rows, c, true);
    AgreementsCount(lib, rows, c, false);
  }

  /** Fitting gives each rule the smoothed shares of the agreeing pairs among the matches and among the others, to six
      decimals, and only when the first is the larger. */
  lemma FittedShares(lib: Library, rows: seq<Labeled>, cs: seq<Comparison>, smoothing: real, i: nat)
    requires smoothing >= 0.0 && Fit(lib, rows, cs, smoothing).Ok?
    requires i < |cs| && cs[i].comparator in {"exact", "sequence_ratio"}
    ensures LabeledAs(rows, true) != {} && LabeledAs(rows, false) != {}
    ensures var m := SmoothedShare(|AgreedAs(lib, cs[i], rows, true)|, |LabeledAs(rows, true)|, smoothing);
      var u := SmoothedShare(|AgreedAs(lib, cs[i], rows, false)|, |LabeledAs(rows, false)|, smoothing);
      var fitted := Fit(lib, rows, cs, smoothing).value;
      && |fitted| == |cs| && u < m
      && fitted[i] == cs[i].(m := Some(Round(m, 1000000)), u := Some(Round(u, 1000000)))
  {
    FittedOne(lib, rows, cs[i], smoothing);
  }

  /** Training data need a match and another pair. */
  lemma TrainingNeedsBoth(lib: Library, rows: seq<Labeled>, cs: seq<Comparison>, smoothing: real)
    requires smoothing >= 0.0 && (LabeledAs(rows, true) == {} || LabeledAs(rows, false) == {})
    ensures Fit(lib, rows, cs, smoothing).Err?
  {
    LabelsCount(rows, true);
    LabelsCount(rows, false);
  }

  // ---- reports ----

  /** The score of a labeled pair under the policy. */
  function PairScore(lib: Library, d: Definition, row: Labeled): real {
    Compare(lib, d, Normalize(lib, d, row.left), Normalize(lib, d, row.right)).score
  }

  /** The pair has this prediction, at one half, and this label. */
  predicate InCell(lib: Library, d: Definition, row: Labeled, predicted: bool, isMatch: bool) {
    (PairScore(lib, d, row) >= 0.5) == predicted && row.isMatch == isMatch
  }

  /** The pairs with this prediction and this label. */
  function Cell(lib: Library, d: Definition, rows: seq<Labeled>, predicted: bool, isMatch: bool): set<nat> {
    set i: nat | i < |rows| && InCell(lib, d, rows[i], predicted, isMatch)
  }

  lemma MoreInCell(lib: Library, d: Definition, rows: seq<Labeled>, predicted: bool, isMatch: bool)
    requires rows != []
    ensures var n := |rows| - 1;
      |Cell(lib, d, rows, predicted, isMatch)| ==
        |Cell(lib, d, rows[..n], predicted, isMatch)| + if InCell(lib, d, rows[n], predicted, isMatch) then 1 else 0
  {
    var n := |rows| - 1;
    OneMore(Cell(lib, d, rows[..n], predicted, isMatch), Cell(lib, d, rows, predicted, isMatch), n,
            InCell(lib, d, rows[n], predicted, isMatch));
  }

  lemma TallyLast(lib: Library, d: Definition, rows: seq<Labeled>, predicted: bool, isMatch: bool)
    requires rows != []
    ensures var n := |rows| - 1;
      Tally(ScoredRows(lib, d, rows), predicted, isMatch) ==
        Tally(ScoredRows(lib, d, rows[..n]), predicted, isMatch) +
        if InCell(lib, d, rows[n], predicted, isMatch) then 1 else 0
  {
    var n := |rows| - 1;
    assert ScoredRows(lib, d, rows)[..n] == ScoredRows(lib, d, rows[..n]);
  }

  lemma {:induction false} TallyIsCell(lib: Library, d: Definition, rows: seq<Labeled>, predicted: bool, isMatch: bool)
    ensures Tally(ScoredRows(lib, d, rows), predicted, isMatch) == |Cell(lib, d, rows, predicted, isMatch)|
  {
    if rows == [] {
      assert ScoredRows(lib, d, rows) == [] && Cell(lib, d, rows, predicted, isMatch) == {};
    } else {
      TallyIsCell(lib, d, rows[..|rows| - 1], predicted, isMatch);
      MoreInCell(lib, d, rows, predicted, isMatch);
      TallyLast(lib, d, rows, predicted, isMatch);
    }
  }

  /** A share to six decimals; nothing out of nothing is zero. */
  function ShareOrZero(part: nat, rest: nat): real {
    if part + rest == 0 then 0.0 else Round(part as real / (part + rest) as real, 1000000)
  }

  lemma SharesAgree(part: nat, rest: nat)
    ensures Share(part as real, part + rest) == ShareOrZero(part, rest)
  {
    if part + rest == 0 {
      RoundOfEnds(1000000);
      SelfQuotient(1.0);
    }
  }

  lemma ReportShares(pairs: seq<Scored>)
    ensures var r := ReportOf(pairs);
      && r.precision == ShareOrZero(r.truePositive, r.falsePositive)
      && r.recall == ShareOrZero(r.truePositive, r.falseNegative)
  {
    SharesAgree(Tally(pairs, true, true), Tally(pairs, true, false));
    SharesAgree(Tally(pairs, true, true), Tally(pairs, false, true));
  }

  /** The counters are the four cells; precision is the share of matches among the predicted pairs, recall the share of
      predicted pairs among the matches. */
  lemma ReportCounts(lib: Library, d: Definition, rows: seq<Labeled>)
    ensures var r := ReportOf(ScoredRows(lib, d, rows));
      && r.pairs == |rows|
      && r.truePositive == |Cell(lib, d, rows, true, true)| && r.falsePositive == |Cell(lib, d, rows, true, false)|
      && r.trueNegative == |Cell(lib, d, rows, false, false)| && r.falseNegative == |Cell(lib, d, rows, false, true)|
      && r.precision == ShareOrZero(r.truePositive, r.falsePositive)
      && r.recall == ShareOrZero(r.truePositive, r.falseNegative)
  {
    TallyIsCell(lib, d, rows, true, true);
    TallyIsCell(lib, d, rows, true, false);
    TallyIsCell(lib, d, rows, false, true);
    TallyIsCell(lib, d, rows, false, false);
    ReportShares(ScoredRows(lib, d, rows));
  }

  /** The distance of a score from its label, squared. */
  function Miss(score: real, isMatch: bool): real {
    if isMatch then (1.0 - score) * (1.0 - score) else score * score
  }

  function Misses(lib: Library, d: Definition, rows: seq<Labeled>): real {
    if rows == [] then 0.0
    else
      var last := rows[|rows| - 1];
      Misses(lib, d, rows[..|rows| - 1]) + Miss(PairScore(lib, d, last), last.isMatch)
  }

  lemma MissIsError(score: real, isMatch: bool)
    ensures ErrorOf(Scored(score, isMatch)) == Miss(score, isMatch)
  {
    assert (score - 1.0) * (score - 1.0) == (1.0 - score) * (1.0 - score);
  }

  lemma {:induction false} MissesAreErrors(lib: Library, d: Definition, rows: seq<Labeled>)
    ensures SquaredError(ScoredRows(lib, d, rows)) == Misses(lib, d, rows)
  {
    if rows != [] {
      var n := |rows| - 1;
      MissesAreErrors(lib, d, rows[..n]);
      assert ScoredRows(lib, d, rows)[..n] == ScoredRows(lib, d, rows[..n]);
      MissIsError(PairScore(lib, d, rows[n]), rows[n].isMatch);
    }
  }

  /** The Brier score is the mean squared distance of the scores from the labels, to six decimals. */
  lemma BrierIsMeanMiss(lib: Library, d: Definition, rows: seq<Labeled>)
    requires rows != []
    ensures ReportOf(ScoredRows(lib, d, rows)).brier == Round(Misses(lib, d, rows) / |rows| as real, 1000000)
  {
    MissesAreErrors(lib, d, rows);
  }

  lemma {:induction false} NoMisses(lib: Library, d: Definition, rows: seq<Labeled>)
    requires forall i :: 0 <= i < |rows| ==> PairScore(lib, d, rows[i]) == if rows[i].isMatch then 1.0 else 0.0
    ensures Misses(lib, d, rows) == 0.0
  {
    if rows != [] { NoMisses(lib, d, rows[..|rows| - 1]); }
  }

  /** A policy that scores every match one and every other pair zero has full precision and recall and no Brier
      score. */
  lemma PerfectReport(lib: Library, d: Definition, rows: seq<Labeled>, i: nat)
    requires forall i :: 0 <= i < |rows| ==> PairScore(lib, d, rows[i]) == if rows[i].isMatch then 1.0 else 0.0
    requires i < |rows| && rows[i].isMatch
    ensures var r := ReportOf(ScoredRows(lib, d, rows));
      r.precision == 1.0 && r.recall == 1.0 && r.brier == 0.0 && r.falsePositive == 0 && r.falseNegative == 0
  {
    ReportCounts(lib, d, rows);
    BrierIsMeanMiss(lib, d, rows);
    NoMisses(lib, d, rows);
    assert i in Cell(lib, d, rows, true, true);
    assert Cell(lib, d, rows, true, false) == {} && Cell(lib, d, rows, false, true) == {};
    RoundOfEnds(1000000);
    SelfQuotient(|Cell(lib, d, rows, true, true)| as real);
    SelfQuotient(|rows| as real);
  }
}
