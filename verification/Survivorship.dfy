/** Survivorship: which contribution supplies each attribute of a master record
    (`_master_values` of the mastering service). */
module Survivorship {
  import opened Prelude

  datatype Value = Null | Flag(flag: bool) | Number(number: int) | Text(text: string) | Items(items: seq<Value>)
  type Values = map<string, Value>

  datatype Strategy = PriorityThenTime | VerifiedThenPriorityThenTime

  /** A survivorship rule of one attribute; the plain string form has no precedence list. */
  datatype FieldRule = FieldRule(strategy: Strategy, precedence: seq<string>)
  datatype Policy = Policy(fields: map<string, FieldRule>, default: Option<Strategy>)

  /** The part of a source record that survivorship reads; it never changes after ingestion. */
  datatype Facts = Facts(
    uid: nat, source: string, original: Values, verification: map<string, bool>, observed: int)

  datatype Rank = Rank(verified: int, precedence: int, observed: int, uid: nat)

  predicate Below(a: Rank, b: Rank) {
    || a.verified < b.verified
    || (a.verified == b.verified && a.precedence < b.precedence)
    || (a.verified == b.verified && a.precedence == b.precedence && a.observed < b.observed)
    || (a.verified == b.verified && a.precedence == b.precedence && a.observed == b.observed && a.uid < b.uid)
  }

  /** First position of `x` in `s`, or `|s|`. */
  function IndexOf(s: seq<string>, x: string): (i: nat)
    ensures i <= |s|
    ensures i < |s| <==> x in s
    ensures i < |s| ==> s[i] == x && x !in s[..i]
  {
    if s == [] then 0 else if s[0] == x then 0 else
      assert s == [s[0]] + s[1..];
      var j := IndexOf(s[1..], x);
      assert j < |s[1..]| ==> s[..1 + j] == [s[0]] + s[1..][..j];
      1 + j
  }

  function Priority(sources: map<string, int>, source: string): int {
    if source in sources then sources[source] else 0
  }

  function PrecedenceOf(p: Policy, field: string): seq<string> {
    if field in p.fields then p.fields[field].precedence else []
  }

  /** Whether a verified value outranks an unverified one for this attribute. */
  predicate PrefersVerified(p: Policy, field: string) {
    if field in p.fields then p.fields[field].strategy == VerifiedThenPriorityThenTime
    else p.default == Some(VerifiedThenPriorityThenTime)
  }

  predicate Verified(f: Facts, field: string) {
    field in f.verification && f.verification[field]
  }

  function RankOf(p: Policy, sources: map<string, int>, field: string, f: Facts): Rank {
    var precedence := PrecedenceOf(p, field);
    Rank(
      if Verified(f, field) && PrefersVerified(p, field) then 1 else 0,
      if f.source in precedence then 0 - IndexOf(precedence, f.source)
      else -|precedence| - Priority(sources, f.source),
      f.observed,
      f.uid)
  }

  /** A contribution takes part for a field when it holds a non-null value. */
  predicate Offers(f: Facts, field: string) {
    field in f.original && f.original[field] != Null
  }

  function Options(facts: set<Facts>, field: string): set<Facts> {
    set f | f in facts && Offers(f, field)
  }

  function FieldsOf(facts: set<Facts>): set<string> {
    set f, field | f in facts && field in f.original.Keys :: field
  }

  predicate Unbeaten(p: Policy, sources: map<string, int>, field: string, options: set<Facts>, w: Facts) {
    w in options && forall f :: f in options ==> !Below(RankOf(p, sources, field, w), RankOf(p, sources, field, f))
  }

  /** Every nonempty set of options has an unbeaten one. */
  lemma {:induction false} SomeoneWins(p: Policy, sources: map<string, int>, field: string, options: set<Facts>)
    requires options != {}
    ensures exists w :: Unbeaten(p, sources, field, options, w)
  {
    var f :| f in options;
    var rest := options - {f};
    if rest == {} {
      assert options == {f};
      assert Unbeaten(p, sources, field, options, f);
    } else {
      SomeoneWins(p, sources, field, rest);
      var w :| Unbeaten(p, sources, field, rest, w);
      if Below(RankOf(p, sources, field, w), RankOf(p, sources, field, f)) {
        assert Unbeaten(p, sources, field, options, f);
      } else {
        assert Unbeaten(p, sources, field, options, w);
      }
    }
  }

  ghost predicate DistinctUids(facts: set<Facts>) {
    forall f, g :: f in facts && g in facts && f.uid == g.uid ==> f == g
  }

  /** Record identities are unique, so the winner is. */
  lemma OneWinner(p: Policy, sources: map<string, int>, field: string, options: set<Facts>, v: Facts, w: Facts)
    requires DistinctUids(options)
    requires Unbeaten(p, sources, field, options, v) && Unbeaten(p, sources, field, options, w)
    ensures v == w
  {
    assert v.uid == w.uid;
  }

  ghost function Winner(p: Policy, sources: map<string, int>, field: string, options: set<Facts>): (w: Facts)
    requires options != {}
    ensures Unbeaten(p, sources, field, options, w)
  {
    SomeoneWins(p, sources, field, options);
    var w :| Unbeaten(p, sources, field, options, w);
    w
  }

  /** The mastered values of a set of contributions. */
  ghost function MasterValues(p: Policy, sources: map<string, int>, facts: set<Facts>): (values: Values)
    ensures values.Keys <= FieldsOf(facts)
    ensures forall field :: field in values <==> Options(facts, field) != {}
    ensures forall field :: field in values ==> values[field] != Null
  {
    assert forall field :: Options(facts, field) != {} ==> field in FieldsOf(facts) by {
      forall field | Options(facts, field) != {} ensures field in FieldsOf(facts) {
        var f :| f in Options(facts, field);
      }
    }
    map field | field in FieldsOf(facts) && Options(facts, field) != {} ::
      Winner(p, sources, field, Options(facts, field)).original[field]
  }

  lemma NoFactsNoValues(p: Policy, sources: map<string, int>)
    ensures MasterValues(p, sources, {}) == map[]
  {
  }

  lemma BestIsMastered(p: Policy, sources: map<string, int>, field: string, facts: set<Facts>, best: Facts)
    requires DistinctUids(facts)
    requires Unbeaten(p, sources, field, Options(facts, field), best)
    ensures field in MasterValues(p, sources, facts)
    ensures MasterValues(p, sources, facts)[field] == best.original[field]
  {
    OneWinner(p, sources, field, Options(facts, field), best, Winner(p, sources, field, Options(facts, field)));
  }

  // ---- the winner without ranks ----

  /** The strategy that applies to an attribute: its own, or the default. */
  function RuleFor(p: Policy, field: string): Strategy {
    if field in p.fields then p.fields[field].strategy
    else if p.default.Some? then p.default.value
    else PriorityThenTime
  }

  /** Source `a` stands before source `b`: listed sources stand in the order of their first mention, the others by
      their number. With numbers from zero on every listed source stands before every other one. */
  predicate StandsBefore(precedence: seq<string>, sources: map<string, int>, a: string, b: string) {
    if a in precedence && b in precedence then b !in precedence[..IndexOf(precedence, a) + 1]
    else if a in precedence then IndexOf(precedence, a) < |precedence| + Priority(sources, b)
    else if b in precedence then |precedence| + Priority(sources, a) < IndexOf(precedence, b)
    else Priority(sources, a) < Priority(sources, b)
  }

  /** Contribution `f` beats `g`: trusted before not trusted, where the rule asks for it; then the source that stands
      before the other; then the later observation; then the later identifier. */
  predicate Beats(p: Policy, sources: map<string, int>, field: string, f: Facts, g: Facts) {
    var trusts := RuleFor(p, field) == VerifiedThenPriorityThenTime;
    var precedence := if field in p.fields then p.fields[field].precedence else [];
    if trusts && Verified(f, field) != Verified(g, field) then Verified(f, field)
    else if StandsBefore(precedence, sources, f.source, g.source) then true
    else if StandsBefore(precedence, sources, g.source, f.source) then false
    else if f.observed != g.observed then f.observed > g.observed
    else f.uid > g.uid
  }

  /** Contribution `w` supplies the attribute: it holds a value and is beaten by no other that does. */
  ghost predicate Supplies(p: Policy, sources: map<string, int>, facts: set<Facts>, field: string, w: Facts) {
    && w in facts && field in w.original && w.original[field] != Null
    && forall g :: g in facts && field in g.original && g.original[field] != Null ==> !Beats(p, sources, field, g, w)
  }

  lemma StandingIsPrecedence(p: Policy, sources: map<string, int>, field: string, f: Facts, g: Facts)
    ensures StandsBefore(PrecedenceOf(p, field), sources, f.source, g.source) <==>
      RankOf(p, sources, field, f).precedence > RankOf(p, sources, field, g).precedence
  {
    var precedence := PrecedenceOf(p, field);
    if f.source in precedence && g.source in precedence {
      var i, j := IndexOf(precedence, f.source), IndexOf(precedence, g.source);
      if j <= i { assert precedence[..i + 1][j] == g.source; }
      if i < j { assert forall n :: 0 <= n <= i ==> precedence[n] == precedence[..j][n] != g.source; }
    }
  }

  lemma BeatsIsRank(p: Policy, sources: map<string, int>, field: string, f: Facts, g: Facts)
    ensures Beats(p, sources, field, f, g) <==> Below(RankOf(p, sources, field, g), RankOf(p, sources, field, f))
  {
    StandingIsPrecedence(p, sources, field, f, g);
    StandingIsPrecedence(p, sources, field, g, f);
  }

  lemma SuppliesIff(p: Policy, sources: map<string, int>, facts: set<Facts>, field: string, w: Facts)
    ensures Supplies(p, sources, facts, field, w) <==> Unbeaten(p, sources, field, Options(facts, field), w)
  {
    forall g { BeatsIsRank(p, sources, field, g, w); }
  }

  /** An attribute is mastered exactly when some contribution supplies it, and its value is that contribution's. */
  lemma SupplierIsMastered(p: Policy, sources: map<string, int>, facts: set<Facts>, field: string)
    requires DistinctUids(facts)
    ensures field in MasterValues(p, sources, facts) <==> exists w :: Supplies(p, sources, facts, field, w)
    ensures forall w :: Supplies(p, sources, facts, field, w) ==>
      MasterValues(p, sources, facts)[field] == w.original[field]
  {
    forall w { SuppliesIff(p, sources, facts, field, w); }
    var options := Options(facts, field);
    if options != {} { assert Unbeaten(p, sources, field, options, Winner(p, sources, field, options)); }
    forall w | Supplies(p, sources, facts, field, w)
      ensures field in MasterValues(p, sources, facts) && MasterValues(p, sources, facts)[field] == w.original[field]
    {
      BestIsMastered(p, sources, field, facts, w);
    }
  }

  // ---- source priorities ----

  /** The winners of the attribute under the two tables of priorities hold the same value. */
  ghost predicate SameWinner(p: Policy, a: map<string, int>, b: map<string, int>, facts: set<Facts>, field: string) {
    forall v, w ::
      Unbeaten(p, a, field, Options(facts, field), v) && Unbeaten(p, b, field, Options(facts, field), w) ==>
        v.original[field] == w.original[field]
  }

  ghost predicate SameWinners(p: Policy, a: map<string, int>, b: map<string, int>, facts: set<Facts>) {
    forall field :: SameWinner(p, a, b, facts, field)
  }

  lemma FieldAgreesIff(p: Policy, a: map<string, int>, b: map<string, int>, facts: set<Facts>, field: string)
    requires DistinctUids(facts)
    ensures field in MasterValues(p, a, facts) <==> field in MasterValues(p, b, facts)
    ensures SameWinner(p, a, b, facts, field) <==>
      (field in MasterValues(p, a, facts) ==> MasterValues(p, a, facts)[field] == MasterValues(p, b, facts)[field])
  {
    var options := Options(facts, field);
    forall v, w | Unbeaten(p, a, field, options, v) && Unbeaten(p, b, field, options, w)
      ensures MasterValues(p, a, facts)[field] == v.original[field]
      ensures MasterValues(p, b, facts)[field] == w.original[field]
    {
      BestIsMastered(p, a, field, facts, v);
      BestIsMastered(p, b, field, facts, w);
    }
    if options != {} {
      var v, w := Winner(p, a, field, options), Winner(p, b, field, options);
      assert Unbeaten(p, a, field, options, v) && Unbeaten(p, b, field, options, w);
    }
  }

  /** Another table of priorities leaves the mastered values alone exactly when no attribute goes to another value. */
  lemma ValuesAgreeIff(p: Policy, a: map<string, int>, b: map<string, int>, facts: set<Facts>)
    requires DistinctUids(facts)
    ensures MasterValues(p, a, facts) == MasterValues(p, b, facts) <==> SameWinners(p, a, b, facts)
  {
    var x, y := MasterValues(p, a, facts), MasterValues(p, b, facts);
    forall field
      ensures field in x <==> field in y
      ensures SameWinner(p, a, b, facts, field) <==> (field in x ==> x[field] == y[field])
    {
      FieldAgreesIff(p, a, b, facts, field);
    }
    AgreeIff(x, y, field => SameWinner(p, a, b, facts, field));
  }

  lemma AgreeIff(x: Values, y: Values, alike: string -> bool)
    requires forall field :: field in x <==> field in y
    requires forall field :: alike(field) <==> (field in x ==> x[field] == y[field])
    ensures x == y <==> forall field :: alike(field)
  {
    if forall field :: alike(field) {
      assert forall field :: field in x ==> alike(field);
    }
  }

  /** Priorities are positive, as the interface demands. */
  predicate Positive(sources: map<string, int>) {
    forall source :: source in sources ==> 1 <= sources[source]
  }

  /** The two tables order the sources of the contributions alike. */
  ghost predicate OrderedAlike(a: map<string, int>, b: map<string, int>, facts: set<Facts>) {
    forall f, g :: f in facts && g in facts ==>
      (Priority(a, f.source) <= Priority(a, g.source) <==> Priority(b, f.source) <= Priority(b, g.source))
  }

  lemma RanksAlike(p: Policy, a: map<string, int>, b: map<string, int>, facts: set<Facts>, field: string,
                   f: Facts, g: Facts)
    requires Positive(a) && Positive(b) && OrderedAlike(a, b, facts) && f in facts && g in facts
    ensures Below(RankOf(p, a, field, f), RankOf(p, a, field, g)) <==>
        Below(RankOf(p, b, field, f), RankOf(p, b, field, g))
  {
  }

  /** Only the order of the priorities matters. */
  lemma OrderDecides(p: Policy, a: map<string, int>, b: map<string, int>, facts: set<Facts>)
    requires DistinctUids(facts) && Positive(a) && Positive(b) && OrderedAlike(a, b, facts)
    ensures MasterValues(p, a, facts) == MasterValues(p, b, facts)
  {
    forall field, v, w |
      Unbeaten(p, a, field, Options(facts, field), v) && Unbeaten(p, b, field, Options(facts, field), w)
      ensures v == w
    {
      assert !Below(RankOf(p, a, field, v), RankOf(p, a, field, w));
      assert !Below(RankOf(p, b, field, w), RankOf(p, b, field, v));
      RanksAlike(p, a, b, facts, field, w, v);
    }
    assert forall field :: SameWinner(p, a, b, facts, field);
    ValuesAgreeIff(p, a, b, facts);
  }

  // ---- provenance ----

  /** Where a mastered value comes from; `alternatives` counts the contributions that lost. */
  datatype Provenance = Provenance(
    uid: nat, source: string, verified: bool, rule: Strategy, observed: int, alternatives: int)

  /** The value and its provenance are those of the contribution that supplies the attribute. */
  ghost predicate Documents(p: Policy, sources: map<string, int>, facts: set<Facts>, field: string,
                            value: Value, from: Provenance)
  {
    exists w ::
      && Supplies(p, sources, facts, field, w) && value == w.original[field]
      && from.uid == w.uid && from.source == w.source && from.observed == w.observed
      && (from.verified <==> field in w.verification && w.verification[field])
      && from.rule == RuleFor(p, field)
      && from.alternatives + 1 == |set f | f in facts && field in f.original && f.original[field] != Null|
  }

  // ---- the loops ----

  /** The attributes outside `rest` are done: they hold the value of `spec`, documented as `sound` demands. */
  ghost predicate Mastering(spec: Values, sound: (string, Value, Provenance) -> bool, rest: set<string>,
                            values: Values, provenance: map<string, Provenance>)
  {
    && (forall field :: field in values <==> field in spec && field !in rest)
    && (forall field :: field in provenance <==> field in values)
    && (forall field :: field in values ==>
          values[field] == spec[field] && sound(field, values[field], provenance[field]))
  }

  lemma MasteringStep(spec: Values, sound: (string, Value, Provenance) -> bool, rest: set<string>,
                      values: Values, provenance: map<string, Provenance>, field: string, from: Provenance)
    requires Mastering(spec, sound, rest, values, provenance) && field in rest
    requires field in spec ==> sound(field, spec[field], from)
    ensures field in spec ==>
      Mastering(spec, sound, rest - {field}, values[field := spec[field]], provenance[field := from])
    ensures field !in spec ==> Mastering(spec, sound, rest - {field}, values, provenance)
  {
  }

  lemma MasteringDone(spec: Values, sound: (string, Value, Provenance) -> bool,
                      values: Values, provenance: map<string, Provenance>)
    requires Mastering(spec, sound, {}, values, provenance)
    ensures values == spec && provenance.Keys == values.Keys
    ensures forall field :: field in values ==> sound(field, values[field], provenance[field])
  {
  }

  /** The nested loops of `_master_values`: for each attribute, rank the options and keep the maximum. */
  method ComputeMasterValues(p: Policy, sources: map<string, int>, facts: set<Facts>)
    returns (values: Values, provenance: map<string, Provenance>)
    requires DistinctUids(facts)
    ensures values == MasterValues(p, sources, facts)
    ensures provenance.Keys == values.Keys
    ensures forall field :: field in values ==> Documents(p, sources, facts, field, values[field], provenance[field])
  {
    values, provenance := map[], map[];
    var fields := FieldsOf(facts);
    ghost var spec := MasterValues(p, sources, facts);
    ghost var sound := (field, value, from) => Documents(p, sources, facts, field, value, from);
    while fields != {}
      invariant Mastering(spec, sound, fields, values, provenance)
      decreases fields
    {
      var field :| field in fields;
      var found, value, from := MasterField(p, sources, field, facts);
      MasteringStep(spec, sound, fields, values, provenance, field, from);
      if found {
        values := values[field := value];
        provenance := provenance[field := from];
      }
      fields := fields - {field};
    }
    MasteringDone(spec, sound, values, provenance);
  }

  /** One attribute. */
  method MasterField(p: Policy, sources: map<string, int>, field: string, facts: set<Facts>)
    returns (found: bool, value: Value, from: Provenance)
    requires DistinctUids(facts)
    ensures found <==> field in MasterValues(p, sources, facts)
    ensures found ==> value == MasterValues(p, sources, facts)[field]
    ensures found ==> Documents(p, sources, facts, field, value, from)
  {
    var best, offered := BestOption(p, sources, field, facts);
    found := best.Some?;
    if found {
      var w := best.value;
      BestIsMastered(p, sources, field, facts, w);
      assert Options(facts, field) == set f | f in facts && field in f.original && f.original[field] != Null;
      value := w.original[field];
      from := Provenance(w.uid, w.source, Verified(w, field), RuleFor(p, field), w.observed, offered - 1);
    } else {
      value, from := Null, Provenance(0, "", false, PriorityThenTime, 0, 0);
    }
  }

  /** `best` is what the maximum of `options` may return. */
  ghost predicate Leads(p: Policy, sources: map<string, int>, field: string, options: set<Facts>, best: Option<Facts>) {
    if best.None? then options == {} else Unbeaten(p, sources, field, options, best.value)
  }

  /** A new option takes the lead exactly when the leader ranks below it. */
  lemma LeadChanges(p: Policy, sources: map<string, int>, field: string, options: set<Facts>, best: Option<Facts>,
                    f: Facts)
    requires Leads(p, sources, field, options, best)
    ensures
      if best.None? || Below(RankOf(p, sources, field, best.value), RankOf(p, sources, field, f))
      then Leads(p, sources, field, options + {f}, Some(f))
      else Leads(p, sources, field, options + {f}, best)
  {
  }

  /** `max(options, key=...)` for one attribute, and the number of options. */
  method BestOption(p: Policy, sources: map<string, int>, field: string, facts: set<Facts>)
    returns (best: Option<Facts>, offered: nat)
    ensures offered == |Options(facts, field)|
    ensures best.None? <==> Options(facts, field) == {}
    ensures best.Some? ==> Unbeaten(p, sources, field, Options(facts, field), best.value)
    ensures best.Some? ==> Supplies(p, sources, facts, field, best.value)
  {
    best, offered := None, 0;
    var rest := facts;
    ghost var options: set<Facts> := {};
    assert Options(facts - rest, field) == {};
    while rest != {}
      invariant rest <= facts
      invariant options == Options(facts - rest, field) && offered == |options|
      invariant Leads(p, sources, field, options, best)
      decreases rest
    {
      var f :| f in rest;
      OneMoreOption(facts, rest, f, field);
      if Offers(f, field) {
        LeadChanges(p, sources, field, options, best, f);
        offered := offered + 1;
        options := options + {f};
        if best.None? || Below(RankOf(p, sources, field, best.value), RankOf(p, sources, field, f)) {
          best := Some(f);
        }
      }
      rest := rest - {f};
    }
    assert facts - rest == facts;
    if best.Some? { SuppliesIff(p, sources, facts, field, best.value); }
  }

  lemma OneMoreOption(facts: set<Facts>, rest: set<Facts>, f: Facts, field: string)
    requires f in rest && rest <= facts
    ensures var done := Options(facts - rest, field);
      && Options(facts - (rest - {f}), field) == (if Offers(f, field) then done + {f} else done)
      && |Options(facts - (rest - {f}), field)| == |done| + if Offers(f, field) then 1 else 0
  {
    var done := Options(facts - rest, field);
    assert Options(facts - (rest - {f}), field) == (if Offers(f, field) then done + {f} else done);
    assert f !in done;
  }
}
