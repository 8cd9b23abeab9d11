/** Fitting Fellegi-Sunter parameters to labeled pairs. */
module Probabilistic {
  import opened Prelude
  import opened Survivorship
  import opened PolicyCompiler
  import opened Matcher
  import opened Scoring

  datatype Labeled = Labeled(left: Values, right: Values, isMatch: bool)

  const SEQUENCE_AGREEMENT := 0.85

  /** `_agreement`: blank values never agree; an unknown comparator raises. */
  function Agrees(lib: Library, row: Labeled, c: Comparison): Result<bool> {
    var a, b := Get(row.left, c.field), Get(row.right, c.field);
    if Blank(a) || Blank(b) then Ok(false)
    else if c.comparator == "exact" then Ok(a == b)
    else if c.comparator == "sequence_ratio" then Ok(lib.ratio(Show(lib, a), Show(lib, b)) >= SEQUENCE_AGREEMENT)
    else Err("unsupported comparator")
  }

  function Labels(rows: seq<Labeled>, isMatch: bool): seq<Labeled> {
    if rows == [] then []
    else
      var before := Labels(rows[..|rows| - 1], isMatch);
      if rows[|rows| - 1].isMatch == isMatch then before + [rows[|rows| - 1]] else before
  }

  function Count(lib: Library, rows: seq<Labeled>, c: Comparison): (r: Result<nat>)
    ensures r.Ok? ==> r.value <= |rows|
  {
    if rows == [] then Ok(0)
    else
      var before := Count(lib, rows[..|rows| - 1], c);
      if before.Err? then before
      else
        var last := Agrees(lib, rows[|rows| - 1], c);
        if last.Err? then Err(last.code) else Ok(before.value + if last.value then 1 else 0)
  }

  function Estimate(agree: nat, total: nat, smoothing: real): real
    requires total > 0 && smoothing >= 0.0
  {
    (agree as real + smoothing) / (total as real + 2.0 * smoothing)
  }

  function FitOne(lib: Library, matches: seq<Labeled>, others: seq<Labeled>, c: Comparison,
                  smoothing: real): Result<Comparison>
    requires matches != [] && others != [] && smoothing >= 0.0
  {
    var mAgree := Count(lib, matches, c);
    var uAgree := Count(lib, others, c);
    if mAgree.Err? then Err(mAgree.code)
    else if uAgree.Err? then Err(uAgree.code)
    else
      var m, u := Estimate(mAgree.value, |matches|, smoothing), Estimate(uAgree.value, |others|, smoothing);
      if m <= u then Err("does not discriminate")
      else Ok(c.(m := Some(Round(m, 1000000)), u := Some(Round(u, 1000000))))
  }

  function FitAll(lib: Library, matches: seq<Labeled>, others: seq<Labeled>, cs: seq<Comparison>, smoothing: real):
    (r: Result<seq<Comparison>>)
    requires matches != [] && others != [] && smoothing >= 0.0
    ensures r.Ok? ==> |r.value| == |cs| && forall i :: 0 <= i < |cs| ==>
        FitOne(lib, matches, others, cs[i], smoothing) == Ok(r.value[i])
  {
    if cs == [] then Ok([])
    else
      var before := FitAll(lib, matches, others, cs[..|cs| - 1], smoothing);
      if before.Err? then before
      else
        var last := FitOne(lib, matches, others, cs[|cs| - 1], smoothing);
        if last.Err? then Err(last.code) else Ok(before.value + [last.value])
  }

  function Fit(lib: Library, rows: seq<Labeled>, cs: seq<Comparison>, smoothing: real): Result<seq<Comparison>>
    requires smoothing >= 0.0
  {
    var matches, others := Labels(rows, true), Labels(rows, false);
    if matches == [] || others == [] then Err("training requires both")
    else FitAll(lib, matches, others, cs, smoothing)
  }

  // ---- the loops ----

  method CountAgreements(lib: Library, rows: seq<Labeled>, c: Comparison) returns (r: Result<nat>)
    ensures r == Count(lib, rows, c)
  {
    var total := 0;
    for i := 0 to |rows|
      invariant Count(lib, rows[..i], c) == Ok(total)
    {
      assert rows[..i + 1][..i] == rows[..i];
      var agrees := Agrees(lib, rows[i], c);
      if agrees.Err? {
        FirstCountErrorStays(lib, rows, c, i + 1);
        return Err(agrees.code);
      }
      if agrees.value { total := total + 1; }
    }
    assert rows[..|rows|] == rows;
    return Ok(total);
  }

  lemma {:induction false} FirstCountErrorStays(lib: Library, rows: seq<Labeled>, c: Comparison, n: nat)
    requires n <= |rows| && Count(lib, rows[..n], c).Err?
    ensures Count(lib, rows, c) == Count(lib, rows[..n], c)
    decreases |rows| - n
  {
    if n == |rows| {
      assert rows[..n] == rows;
    } else {
      assert rows[..n + 1][..n] == rows[..n];
      FirstCountErrorStays(lib, rows, c, n + 1);
    }
  }

  lemma {:induction false} FirstFitErrorStays(lib: Library, matches: seq<Labeled>, others: seq<Labeled>,
                                              cs: seq<Comparison>, smoothing: real, n: nat)
    requires matches != [] && others != [] && smoothing >= 0.0
    requires n <= |cs| && FitAll(lib, matches, others, cs[..n], smoothing).Err?
    ensures FitAll(lib, matches, others, cs, smoothing) == FitAll(lib, matches, others, cs[..n], smoothing)
    decreases |cs| - n
  {
    if n == |cs| {
      assert cs[..n] == cs;
    } else {
      assert cs[..n + 1][..n] == cs[..n];
      FirstFitErrorStays(lib, matches, others, cs, smoothing, n + 1);
    }
  }

  method SelectLabels(rows: seq<Labeled>, isMatch: bool) returns (selected: seq<Labeled>)
    ensures selected == Labels(rows, isMatch)
  {
    selected := [];
    for i := 0 to |rows|
      invariant selected == Labels(rows[..i], isMatch)
    {
      assert rows[..i + 1][..i] == rows[..i];
      if rows[i].isMatch == isMatch { selected := selected + [rows[i]]; }
    }
    assert rows[..|rows|] == rows;
  }

  /** `fit_parameters`. */
  method FitParameters(lib: Library, rows: seq<Labeled>, cs: seq<Comparison>, smoothing: real)
    returns (r: Result<seq<Comparison>>)
    requires smoothing >= 0.0
    ensures r == Fit(lib, rows, cs, smoothing)
  {
    var matches := SelectLabels(rows, true);
    var others := SelectLabels(rows, false);
    if matches == [] || others == [] { return Err("training requires both"); }
    var output: seq<Comparison> := [];
    for i := 0 to |cs|
      invariant FitAll(lib, matches, others, cs[..i], smoothing) == Ok(output)
    {
      assert cs[..i + 1][..i] == cs[..i];
      var fitted := FitRule(lib, matches, others, cs[i], smoothing);
      if fitted.Err? {
        FirstFitErrorStays(lib, matches, others, cs, smoothing, i + 1);
        return Err(fitted.code);
      }
      output := output + [fitted.value];
    }
    assert cs[..|cs|] == cs;
    return Ok(output);
  }

  /** One comparison rule: the smoothed shares of agreeing pairs among the matches and among the others. */
  method FitRule(lib: Library, matches: seq<Labeled>, others: seq<Labeled>, c: Comparison, smoothing: real)
    returns (r: Result<Comparison>)
    requires matches != [] && others != [] && smoothing >= 0.0
    ensures r == FitOne(lib, matches, others, c, smoothing)
  {
    var mAgree := CountAgreements(lib, matches, c);
    var uAgree := CountAgreements(lib, others, c);
    if mAgree.Err? { return Err(mAgree.code); }
    if uAgree.Err? { return Err(uAgree.code); }
    var m, u := Estimate(mAgree.value, |matches|, smoothing), Estimate(uAgree.value, |others|, smoothing);
    if m <= u { return Err("does not discriminate"); }
    return Ok(c.(m := Some(Round(m, 1000000)), u := Some(Round(u, 1000000))));
  }

  // ---- fitted parameters pass the compiler's guard ----

  /** Values more than one unit apart round to different integers. */
  lemma NearestSeparates(x: real, y: real)
    requires x + 1.0 < y
    ensures Nearest(x) < Nearest(y)
  {
  }

  lemma NearestBounds(x: real, low: int, high: int)
    requires low as real <= x <= high as real
    ensures low <= Nearest(x) <= high
  {
    NearestMonotone(low as real, x);
    NearestMonotone(x, high as real);
    assert (low as real).Floor == low && (high as real).Floor == high;
  }

  /** Two different fractions differ by at least the product of their denominators' reciprocals. */
  lemma FractionsApart(a: nat, b: nat, p: nat, q: nat)
    requires p > 0 && q > 0 && a as real / p as real > b as real / q as real
    ensures a * q >= b * p + 1
  {
    var x, y := a as real / p as real, b as real / q as real;
    assert x * p as real == a as real && y * q as real == b as real;
    CrossMultiply(x, y, p as real, q as real);
    assert (a * q) as real == x * p as real * q as real;
    assert (b * p) as real == y * q as real * p as real;
  }

  lemma CrossMultiply(x: real, y: real, p: real, q: real)
    requires x > y && p > 0.0 && q > 0.0
    ensures x * p * q > y * q * p
  {
    assert p * q > 0.0;
    assert (x - y) * (p * q) > 0.0;
  }

  /** Scaled by a million, `a/p > b/q` with `p q < 10^6` are more than one apart. */
  lemma ScaledApart(a: nat, b: nat, p: nat, q: nat)
    requires p > 0 && q > 0 && p * q < 1000000 && a * q >= b * p + 1
    ensures b as real / q as real * 1000000.0 + 1.0 < a as real / p as real * 1000000.0
  {
    var x, y := a as real / p as real, b as real / q as real;
    RealProduct(p, q);
    RealProduct(a, q);
    RealProduct(b, p);
    Undivide(a as real, p as real);
    Undivide(b as real, q as real);
    Apart(x, y, a as real, b as real, p as real, q as real, (p * q) as real);
  }

  lemma RealProduct(a: nat, b: nat)
    ensures (a * b) as real == a as real * b as real
    ensures a > 0 && b > 0 ==> a * b > 0
  {
  }

  lemma Apart(x: real, y: real, a: real, b: real, p: real, q: real, w: real)
    requires x * p == a && y * q == b && a * q >= b * p + 1.0
    requires w == p * q && 0.0 < w < 1000000.0
    ensures y * 1000000.0 + 1.0 < x * 1000000.0
  {
    assert (x - y) * w == x * p * q - y * q * p;
    Spread(x - y, w);
  }

  lemma Spread(d: real, w: real)
    requires 0.0 < w < 1000000.0 && d * w >= 1.0
    ensures d * 1000000.0 > 1.0
  {
    PositiveFactor(d, w);
    assert d * 1000000.0 > d * w;
  }

  lemma EstimateIsFraction(agree: nat, total: nat)
    requires total > 0
    ensures Estimate(agree, total, 1.0) == (agree + 1) as real / (total + 2) as real
  {
  }

  /** A smoothed estimate stays clear of zero and one. */
  lemma EstimateInside(agree: nat, total: nat, other: nat)
    requires 0 < total && agree <= total && other > 0 && (total + 2) * (other + 2) < 1000000
    ensures 1.0 <= (agree + 1) as real / (total + 2) as real * 1000000.0 <= 999999.0
  {
    var n := total + 2;
    assert n * 3 <= n * (other + 2);
    assert n < 333334;
    var x := (agree + 1) as real / n as real;
    assert x * n as real == (agree + 1) as real;
    InsideScaled(x, (agree + 1) as real, n as real);
  }

  lemma InsideScaled(x: real, a: real, n: real)
    requires 0.0 < n <= 333333.0 && x * n == a && 1.0 <= a <= n - 1.0
    ensures 1.0 <= x * 1000000.0 <= 999999.0
  {
    PositiveFactor(x, n);
    Multiply(n, 1000000.0, x);
    assert (1.0 - x) * n == n - x * n;
    PositiveFactor(1.0 - x, n);
    Multiply(n, 1000000.0, 1.0 - x);
  }

  /** Rounded to six decimals, estimates of `M` and `U` pairs keep `0 < u < m < 1` when `(M+2)(U+2) < 10^6`. */
  lemma RoundedEstimates(a: nat, b: nat, matched: nat, unmatched: nat)
    requires 0 < matched && 0 < unmatched && a <= matched && b <= unmatched
    requires (matched + 2) * (unmatched + 2) < 1000000
    requires Estimate(a, matched, 1.0) > Estimate(b, unmatched, 1.0)
    ensures 0.0 < Round(Estimate(b, unmatched, 1.0), 1000000) < Round(Estimate(a, matched, 1.0), 1000000) < 1.0
  {
    RoundedInside(b, unmatched, matched);
    RoundedInside(a, matched, unmatched);
    RoundedApart(a, b, matched, unmatched);
  }

  lemma NearestInside(n: int)
    requires 1 <= n <= 999999
    ensures 0.0 < n as real / 1000000.0 < 1.0
  {
  }

  lemma RoundedInside(agree: nat, total: nat, other: nat)
    requires 0 < total && agree <= total && other > 0 && (total + 2) * (other + 2) < 1000000
    ensures 0.0 < Round(Estimate(agree, total, 1.0), 1000000) < 1.0
  {
    var x := Estimate(agree, total, 1.0);
    EstimateIsFraction(agree, total);
    EstimateInside(agree, total, other);
    NearestBounds(Product(x, 1000000.0), 1, 999999);
    NearestInside(Nearest(Product(x, 1000000.0)));
  }

  /** Values more than a millionth apart round apart at six decimals. */
  lemma RoundsApart(u: real, m: real)
    requires u * 1000000.0 + 1.0 < m * 1000000.0
    ensures Round(u, 1000000) < Round(m, 1000000)
  {
    NearestSeparates(Product(u, 1000000.0), Product(m, 1000000.0));
  }

  lemma RoundedApart(a: nat, b: nat, matched: nat, unmatched: nat)
    requires 0 < matched && 0 < unmatched && (matched + 2) * (unmatched + 2) < 1000000
    requires Estimate(a, matched, 1.0) > Estimate(b, unmatched, 1.0)
    ensures Round(Estimate(b, unmatched, 1.0), 1000000) < Round(Estimate(a, matched, 1.0), 1000000)
  {
    EstimateIsFraction(a, matched);
    EstimateIsFraction(b, unmatched);
    FractionsApart(a + 1, b + 1, matched + 2, unmatched + 2);
    ScaledApart(a + 1, b + 1, matched + 2, unmatched + 2);
    RoundsApart(Estimate(b, unmatched, 1.0), Estimate(a, matched, 1.0));
  }

  /** Every parameter list the fit returns is accepted by the compiler's guard, for training sets within the bound. */
  lemma FittedParametersAreSound(lib: Library, rows: seq<Labeled>, cs: seq<Comparison>)
    requires (|Labels(rows, true)| + 2) * (|Labels(rows, false)| + 2) < 1000000
    requires Fit(lib, rows, cs, 1.0).Ok?
    ensures forall i :: 0 <= i < |cs| ==>
        i < |Fit(lib, rows, cs, 1.0).value| && FellegiSunterSound(Fit(lib, rows, cs, 1.0).value[i])
  {
    var matches, others := Labels(rows, true), Labels(rows, false);
    var fitted := Fit(lib, rows, cs, 1.0).value;
    forall i | 0 <= i < |cs| ensures FellegiSunterSound(fitted[i]) {
      assert FitOne(lib, matches, others, cs[i], 1.0) == Ok(fitted[i]);
      RoundedEstimates(Count(lib, matches, cs[i]).value, Count(lib, others, cs[i]).value, |matches|, |others|);
    }
  }

  // ---- beyond the bound ----

  function Copies(row: Labeled, n: nat): (rows: seq<Labeled>)
    ensures |rows| == n && forall i :: 0 <= i < n ==> rows[i] == row
  {
    seq(n, _ => row)
  }

  lemma {:induction false} AllAgree(lib: Library, rows: seq<Labeled>, c: Comparison)
    requires forall i :: 0 <= i < |rows| ==> Agrees(lib, rows[i], c) == Ok(true)
    ensures Count(lib, rows, c) == Ok(|rows|)
  {
    if rows != [] { AllAgree(lib, rows[..|rows| - 1], c); }
  }

  lemma {:induction false} LabelsAppend(a: seq<Labeled>, b: seq<Labeled>, isMatch: bool)
    ensures Labels(a + b, isMatch) == Labels(a, isMatch) + Labels(b, isMatch)
  {
    if b == [] {
      assert a + b == a;
    } else {
      assert (a + b)[..|a + b| - 1] == a + b[..|b| - 1];
      LabelsAppend(a, b[..|b| - 1], isMatch);
    }
  }

  lemma {:induction false} LabelsOfCopies(rows: seq<Labeled>, isMatch: bool)
    requires forall i :: 0 <= i < |rows| ==> rows[i].isMatch == isMatch
    ensures Labels(rows, isMatch) == rows && Labels(rows, !isMatch) == []
  {
    if rows != [] {
      LabelsOfCopies(rows[..|rows| - 1], isMatch);
      assert rows == rows[..|rows| - 1] + [rows[|rows| - 1]];
    }
  }

  /** 1998 matched and 1997 unmatched pairs that all agree. */
  function Crowded(): seq<Labeled> {
    var v := map["k" := Text("x")];
    Copies(Labeled(v, v, true), 1998) + Copies(Labeled(v, v, false), 1997)
  }

  lemma FitsOne(lib: Library, a: seq<Labeled>, b: seq<Labeled>, c: Comparison)
    requires |a| == 1998 && |b| == 1997 && Count(lib, a, c) == Ok(1998) && Count(lib, b, c) == Ok(1997)
    ensures var p := Round(Estimate(1998, 1998, 1.0), 1000000);
      FitOne(lib, a, b, c, 1.0) == Ok(c.(m := Some(p), u := Some(p)))
  {
    CollidingEstimates();
  }

  lemma FitSingle(lib: Library, a: seq<Labeled>, b: seq<Labeled>, c: Comparison, fitted: Comparison)
    requires a != [] && b != [] && FitOne(lib, a, b, c, 1.0) == Ok(fitted)
    ensures FitAll(lib, a, b, [c], 1.0) == Ok([fitted])
  {
    var cs := [c];
    assert cs[..|cs| - 1] == [] && cs[|cs| - 1] == c;
    var none: seq<Comparison> := [];
    assert FitAll(lib, a, b, cs[..|cs| - 1], 1.0) == Ok(none);
    assert none + [fitted] == [fitted];
  }

  /** Beyond the bound both probabilities can round to the same value, and the compiler refuses the fitted rule. */
  lemma RoundingCanCollide(lib: Library)
    ensures var c := Comparison("k", "exact", Some(1.0), None, None, None, {});
      Fit(lib, Crowded(), [c], 1.0).Ok? && |Fit(lib, Crowded(), [c], 1.0).value| == 1
      && !FellegiSunterSound(Fit(lib, Crowded(), [c], 1.0).value[0])
  {
    var c := Comparison("k", "exact", Some(1.0), None, None, None, {});
    var v := map["k" := Text("x")];
    var a, b := Copies(Labeled(v, v, true), 1998), Copies(Labeled(v, v, false), 1997);
    LabelsAppend(a, b, true);
    LabelsAppend(a, b, false);
    LabelsOfCopies(a, true);
    LabelsOfCopies(b, false);
    assert Labels(Crowded(), true) == a && Labels(Crowded(), false) == b;
    AllAgree(lib, a, c);
    AllAgree(lib, b, c);
    assert Count(lib, a, c) == Ok(1998) && Count(lib, b, c) == Ok(1997);
    FitsOne(lib, a, b, c);
    FitSingle(lib, a, b, c, FitOne(lib, a, b, c, 1.0).value);
  }

  lemma CollidingEstimates()
    ensures Estimate(1998, 1998, 1.0) > Estimate(1997, 1997, 1.0)
    ensures Round(Estimate(1998, 1998, 1.0), 1000000) == Round(Estimate(1997, 1997, 1.0), 1000000)
  {
    var m, u := Estimate(1998, 1998, 1.0), Estimate(1997, 1997, 1.0);
    assert m == 0.9995 && u == 1998.0 / 1999.0;
    assert (m * 1000000.0).Floor == 999500;
    assert (u * 1000000.0).Floor == 999499;
  }
}
