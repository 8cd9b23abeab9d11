/** Evaluating a compiled policy on labeled pairs. */
module Evaluation {
  import opened Prelude
  import opened PolicyCompiler
  import opened Matcher
  import opened Scoring
  import opened Probabilistic

  /** A pair's score and its label. */
  datatype Scored = Scored(score: real, actual: bool)

  function ScoredRow(lib: Library, d: Definition, row: Labeled): Scored {
    Scored(Compare(lib, d, Normalize(lib, d, row.left), Normalize(lib, d, row.right)).score, row.isMatch)
  }

  function ScoredRows(lib: Library, d: Definition, rows: seq<Labeled>): (pairs: seq<Scored>)
    ensures |pairs| == |rows| && forall i :: 0 <= i < |rows| ==> pairs[i].actual == rows[i].isMatch
  {
    seq(|rows|, i requires 0 <= i < |rows| => ScoredRow(lib, d, rows[i]))
  }

  /** How many pairs have this prediction and this label. */
  function Tally(pairs: seq<Scored>, predicted: bool, actual: bool): nat {
    if pairs == [] then 0
    else
      var last := pairs[|pairs| - 1];
      Tally(pairs[..|pairs| - 1], predicted, actual) +
      if (last.score >= 0.5) == predicted && last.actual == actual then 1 else 0
  }

  function Square(x: real): real { x * x }

  function ErrorOf(pair: Scored): real {
    Square(pair.score - if pair.actual then 1.0 else 0.0)
  }

  function SquaredError(pairs: seq<Scored>): real {
    if pairs == [] then 0.0 else SquaredError(pairs[..|pairs| - 1]) + ErrorOf(pairs[|pairs| - 1])
  }

  /** A share of a possibly empty whole, rounded to six decimals. */
  function Share(part: real, whole: nat): real {
    Round(part / (if whole == 0 then 1 else whole) as real, 1000000)
  }

  datatype Report = Report(
    pairs: nat, truePositive: nat, falsePositive: nat, trueNegative: nat, falseNegative: nat,
    precision: real, recall: real, brier: real)

  function ReportOf(pairs: seq<Scored>): Report {
    var tp, fp, fn := Tally(pairs, true, true), Tally(pairs, true, false), Tally(pairs, false, true);
    Report(|pairs|, tp, fp, Tally(pairs, false, false), fn,
      Share(tp as real, tp + fp), Share(tp as real, tp + fn), Share(SquaredError(pairs), |pairs|))
  }

  /** `evaluate`. */
  method Evaluate(lib: Library, d: Definition, rows: seq<Labeled>) returns (r: Report)
    ensures r == ReportOf(ScoredRows(lib, d, rows))
  {
    var pairs := ScoredRows(lib, d, rows);
    var tp, fp, tn, fn, brier := CountPairs(pairs);
    r := Report(|pairs|, tp, fp, tn, fn, Share(tp as real, tp + fp), Share(tp as real, tp + fn), Share(brier, |pairs|));
  }

  /** The counters partition the pairs, true and false negatives and positives add up to the labels, and precision and
      recall are shares. */
  lemma ReportIsSound(lib: Library, d: Definition, rows: seq<Labeled>)
    ensures var r := ReportOf(ScoredRows(lib, d, rows));
      && r.pairs == |rows| == r.truePositive + r.falsePositive + r.trueNegative + r.falseNegative
      && r.truePositive + r.falseNegative == |Labels(rows, true)|
      && r.falsePositive + r.trueNegative == |Labels(rows, false)|
      && 0.0 <= r.precision <= 1.0 && 0.0 <= r.recall <= 1.0
  {
    SoundReport(rows, ScoredRows(lib, d, rows));
  }

  lemma SoundReport(rows: seq<Labeled>, pairs: seq<Scored>)
    requires |pairs| == |rows| && forall i :: 0 <= i < |rows| ==> pairs[i].actual == rows[i].isMatch
    ensures var r := ReportOf(pairs);
      && r.pairs == |rows| == r.truePositive + r.falsePositive + r.trueNegative + r.falseNegative
      && r.truePositive + r.falseNegative == |Labels(rows, true)|
      && r.falsePositive + r.trueNegative == |Labels(rows, false)|
      && 0.0 <= r.precision <= 1.0 && 0.0 <= r.recall <= 1.0
  {
    TalliesCountLabels(rows, pairs);
    LabelsPartition(rows);
    var tp, fp, fn := Tally(pairs, true, true), Tally(pairs, true, false), Tally(pairs, false, true);
    ShareInUnit(tp as real, tp + fp);
    ShareInUnit(tp as real, tp + fn);
  }

  lemma {:induction false} LabelsPartition(rows: seq<Labeled>)
    ensures |Labels(rows, true)| + |Labels(rows, false)| == |rows|
  {
    if rows != [] { LabelsPartition(rows[..|rows| - 1]); }
  }

  /** One pass that updates the four counters and the Brier accumulator. */
  method CountPairs(pairs: seq<Scored>) returns (tp: nat, fp: nat, tn: nat, fn: nat, brier: real)
    ensures tp == Tally(pairs, true, true) && fp == Tally(pairs, true, false)
    ensures tn == Tally(pairs, false, false) && fn == Tally(pairs, false, true)
    ensures brier == SquaredError(pairs)
  {
    tp, fp, tn, fn, brier := 0, 0, 0, 0, 0.0;
    for i := 0 to |pairs|
      invariant tp == Tally(pairs[..i], true, true) && fp == Tally(pairs[..i], true, false)
      invariant tn == Tally(pairs[..i], false, false) && fn == Tally(pairs[..i], false, true)
      invariant brier == SquaredError(pairs[..i])
    {
      assert pairs[..i + 1][..i] == pairs[..i];
      var pair := pairs[i];
      var predicted := pair.score >= 0.5;
      if predicted && pair.actual { tp := tp + 1; }
      if predicted && !pair.actual { fp := fp + 1; }
      if !predicted && !pair.actual { tn := tn + 1; }
      if !predicted && pair.actual { fn := fn + 1; }
      brier := brier + ErrorOf(pair);
    }
    assert pairs[..|pairs|] == pairs;
  }

  lemma {:induction false} TalliesCountLabels(rows: seq<Labeled>, pairs: seq<Scored>)
    requires |pairs| == |rows| && forall i :: 0 <= i < |rows| ==> pairs[i].actual == rows[i].isMatch
    ensures Tally(pairs, true, true) + Tally(pairs, false, true) == |Labels(rows, true)|
    ensures Tally(pairs, true, false) + Tally(pairs, false, false) == |Labels(rows, false)|
  {
    if rows != [] { TalliesCountLabels(rows[..|rows| - 1], pairs[..|pairs| - 1]); }
  }

  lemma ShareInUnit(part: real, whole: nat)
    requires 0.0 <= part <= whole as real
    ensures 0.0 <= Share(part, whole) <= 1.0
  {
    var w := (if whole == 0 then 1 else whole) as real;
    DivideMonotone(0.0, part, w);
    DivideMonotone(part, w, w);
    SelfQuotient(w);
    RoundInUnit(part / w, 1000000);
  }

  lemma SquareInUnit(x: real)
    requires -1.0 <= x <= 1.0
    ensures 0.0 <= Square(x) <= 1.0
  {
    if x >= 0.0 {
      Multiply(0.0, x, x);
      Multiply(x, 1.0, x);
      assert Square(x) == x * x && x * x <= x;
    } else {
      var y := -x;
      Multiply(0.0, y, y);
      Multiply(y, 1.0, y);
      assert Square(x) == y * y;
    }
  }

  lemma {:induction false} ErrorsInUnit(pairs: seq<Scored>)
    requires forall i :: 0 <= i < |pairs| ==> 0.0 <= pairs[i].score <= 1.0
    ensures 0.0 <= SquaredError(pairs) <= |pairs| as real
  {
    if pairs != [] {
      var last := pairs[|pairs| - 1];
      ErrorsInUnit(pairs[..|pairs| - 1]);
      SquareInUnit(last.score - if last.actual then 1.0 else 0.0);
    }
  }

  /** For every compiled policy the Brier score lies between zero and one when the ratio and the missing scores do. */
  lemma BrierInUnit(lib: Library, doc: Document, rows: seq<Labeled>)
    requires Compile(lib, doc).Ok? && Analytic(lib)
    requires forall s, t :: 0.0 <= lib.ratio(s, t) <= 1.0
    requires forall c :: c in Compile(lib, doc).value.document.matching.comparisons ==> 0.0 <= Or(c.missing, 0.0) <= 1.0
    ensures 0.0 <= Share(SquaredError(ScoredRows(lib, Compile(lib, doc).value.document, rows)), |rows|) <= 1.0
  {
    var d := Compile(lib, doc).value.document;
    var pairs := ScoredRows(lib, d, rows);
    forall i | 0 <= i < |pairs| ensures 0.0 <= pairs[i].score <= 1.0 {
      ScoreInUnit(lib, doc, Normalize(lib, d, rows[i].left), Normalize(lib, d, rows[i].right));
    }
    ErrorsInUnit(pairs);
    ShareInUnit(SquaredError(pairs), |rows|);
  }
}
