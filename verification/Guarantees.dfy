/** The guarantees of mastering, stated for policies as they are written. */
module Guarantees {
  import opened Prelude
  import opened Survivorship
  import opened Store
  import opened Steps
  import opened Effects
  import opened Grounding
  import opened Contradictions
  import opened CandidateIndex
  import opened PolicyCompiler
  import opened PolicyMeaning
  import opened Wiring
  import Activation

  // ---- a store under compiled definitions ----

  predicate AllCompile(lib: Library, documents: map<string, Document>) {
    forall domain :: domain in documents ==> Compile(lib, documents[domain]).Ok?
  }

  /** The rules the service works with when each domain has the given definition. */
  function PoliciesOf(lib: Library, documents: map<string, Document>): map<string, Rules>
    requires AllCompile(lib, documents)
  {
    var canonicals := Activation.Canonicals(lib, documents);
    map domain | domain in canonicals :: RulesOf(lib, canonicals[domain])
  }

  function NewStore(lib: Library, sources: map<string, int>, documents: map<string, Document>): Store
    requires AllCompile(lib, documents)
  {
    Empty(sources, PoliciesOf(lib, documents))
  }

  predicate NoActivation(steps: seq<Step>) {
    forall i :: 0 <= i < |steps| ==> !steps[i].ActivateStep?
  }

  lemma {:induction false} RunKeepsPolicies(s: Store, steps: seq<Step>)
    requires Grounded(s) && NoActivation(steps)
    ensures Grounded(Run(s, steps)) && Run(s, steps).policies == s.policies
    decreases |steps|
  {
    if steps != [] {
      Activation.PoliciesStay(s, steps[0]);
      NextGrounded(s, steps[0]);
      RunKeepsPolicies(Next(s, steps[0]), steps[1..]);
    }
  }

  lemma {:induction false} CoveredRunActivatesNothing(s: Store, steps: seq<Step>)
    requires CoveredRun(s, steps)
    ensures NoActivation(steps)
    decreases |steps|
  {
    if steps != [] {
      CoveredRunActivatesNothing(Next(s, steps[0]), steps[1..]);
      forall i | 0 <= i < |steps| ensures !steps[i].ActivateStep? {
        if i > 0 { assert steps[i] == steps[1..][i - 1]; }
      }
    }
  }

  // ---- contradictions ----

  /** With compiled definitions the guarantee needs no assumption on the policies: in a run without approved merges,
      in-place updates or activations no entity holds two current contributions that contradict each other. */
  lemma NoContradictionUnderCompiled(lib: Library, sources: map<string, int>, documents: map<string, Document>,
                                     steps: seq<Step>, a: ObjectKey, b: ObjectKey)
    requires AllCompile(lib, documents) && CoveredRun(NewStore(lib, sources, documents), steps)
    ensures var s := Run(NewStore(lib, sources, documents), steps);
      a != b && Placed(s, a) && Placed(s, b) && s.objects[a].entity == s.objects[b].entity ==> !Clash(s, a, b)
  {
    CompiledPoliciesAreSymmetric(lib, Activation.Canonicals(lib, documents));
    NoContradictionWithinEntity(sources, PoliciesOf(lib, documents), steps, a, b);
  }

  /** Whatever definitions the domains have: no two current contributions of an entity carry different values for an
      identifier that the definition declares hard, in whichever of its forms. */
  lemma NoDeclaredConflictWithinEntity(lib: Library, sources: map<string, int>, documents: map<string, Document>,
                                       steps: seq<Step>, a: ObjectKey, b: ObjectKey, i: nat)
    requires AllCompile(lib, documents) && CoveredRun(NewStore(lib, sources, documents), steps)
    requires var s := Run(NewStore(lib, sources, documents), steps);
      && a != b && Placed(s, a) && Placed(s, b) && s.objects[a].entity == s.objects[b].entity
      && IsCurrent(s, a) && IsCurrent(s, b)
    ensures var s := Run(NewStore(lib, sources, documents), steps);
      && a.domain in documents
      && !DeclaredConflict(documents[a.domain].spec, CurrentRecord(s, a).normalized, CurrentRecord(s, b).normalized, i)
  {
    var policies := PoliciesOf(lib, documents);
    var s := Run(Empty(sources, policies), steps);
    EmptyGrounded(sources, policies);
    CoveredRunActivatesNothing(Empty(sources, policies), steps);
    RunKeepsPolicies(Empty(sources, policies), steps);
    NoContradictionUnderCompiled(lib, sources, documents, steps, a, b);
    assert AtHome(s, a);
    NoClashNoConflict(lib, documents, s, a, b, i);
  }

  lemma NoClashNoConflict(lib: Library, documents: map<string, Document>, s: Store, a: ObjectKey, b: ObjectKey, i: nat)
    requires AllCompile(lib, documents) && s.policies == PoliciesOf(lib, documents) && a.domain in documents
    requires IsCurrent(s, a) && IsCurrent(s, b) && !Clash(s, a, b)
    ensures !DeclaredConflict(documents[a.domain].spec, CurrentRecord(s, a).normalized, CurrentRecord(s, b).normalized,
        i)
  {
    ClashIsDeclared(lib, documents[a.domain], CurrentRecord(s, a).normalized, CurrentRecord(s, b).normalized);
  }

  // ---- the outcome of a first observation ----

  /** `c` would be linked automatically, or reviewed, were it the only candidate. */
  ghost predicate Linkable(s: Store, rules: Rules, k: ObjectKey, n: Values, scan: set<ObjectKey>, c: ObjectKey) {
    EligibleIn(s, rules, k, n, scan, c) && VerdictOn(s, rules, n, c).decision == AutoLink
  }

  /** With a compiled policy the outcome of resolution needs no assumption on the scores. */
  lemma CompiledOutcome(lib: Library, d: Definition, s: Store, k: ObjectKey, n: Values, scan: set<ObjectKey>,
                        pick: Option<ObjectKey>)
    requires IsBest(s, RulesOf(lib, d), k, n, scan, pick)
    ensures pick.None? <==> !exists c :: EligibleIn(s, RulesOf(lib, d), k, n, scan, c)
    ensures (pick.Some? && VerdictOn(s, RulesOf(lib, d), n, pick.value).decision == AutoLink) <==>
      exists c :: Linkable(s, RulesOf(lib, d), k, n, scan, c)
  {
    ScoresDecideOutcomes(lib, d);
    OutcomeByCandidates(s, RulesOf(lib, d), k, n, scan, pick);
    forall c ensures Linkable(s, RulesOf(lib, d), k, n, scan, c) <==>
      (EligibleIn(s, RulesOf(lib, d), k, n, scan, c) && VerdictOn(s, RulesOf(lib, d), n, c).decision == AutoLink)
    {
    }
  }

  /** The object is in an entity that existed before. */
  ghost predicate JoinsEntity(s: Store, t: Store, k: ObjectKey) {
    Placed(t, k) && t.objects[k].entity.value in s.entities && t.matches == s.matches
  }

  /** The object is in an entity of its own, under a new review. */
  ghost predicate OpensReview(s: Store, t: Store, k: ObjectKey) {
    && Placed(t, k) && t.objects[k].entity.value !in s.entities
    && var e := t.objects[k].entity.value;
       e !in s.matches && e in t.matches && t.matches[e].left == k && t.matches[e].status == Open
  }

  /** The object is in an entity of its own, without a review. */
  ghost predicate StandsAlone(s: Store, t: Store, k: ObjectKey) {
    Placed(t, k) && t.objects[k].entity.value !in s.entities && t.matches == s.matches
  }

  /** Each decision of the resolution shows in the store. */
  lemma OutcomeShows(s: Store, k: ObjectKey, rid: RecordKey, pick: Option<ObjectKey>)
    requires Allocated(s) && s.next !in s.matches && JustReceived(s, k, rid) && Resolved(s, k, rid, pick).Commit?
    ensures var t := Resolved(s, k, rid, pick).db;
      if pick.None? then StandsAlone(s, t, k)
      else if IsCurrent(s, pick.value)
              && VerdictOn(s, s.policies[k.domain], s.records[rid].normalized, pick.value).decision == AutoLink
      then JoinsEntity(s, t, k) && t.objects[k].entity == s.objects[pick.value].entity
      else OpensReview(s, t, k)
  {
    var r := Resolved(s, k, rid, pick);
    if pick.None? {
      CreationShows(s, k, r.db);
    } else {
      var c := pick.value;
      if VerdictOn(s, s.policies[k.domain], s.records[rid].normalized, c).decision == AutoLink
         && s.objects[c].entity.value in s.entities
      {
        JoinShows(s, k, s.objects[c].entity.value, r.db);
      } else {
        ReviewShows(s, k, rid, c, r.db);
      }
    }
  }

  lemma CreationShows(s: Store, k: ObjectKey, t: Store)
    requires Allocated(s) && k in s.objects && s.objects[k].entity.None? && t == Creating(s, k)
    ensures StandsAlone(s, t, k)
  {
    CreatingRows(s, k);
  }

  lemma JoinShows(s: Store, k: ObjectKey, e: nat, t: Store)
    requires k in s.objects && s.objects[k].entity.None? && e in s.entities && t == Joining(s, k, e)
    ensures JoinsEntity(s, t, k) && t.objects[k].entity == Some(e)
  {
    JoiningRows(s, k, e);
  }

  lemma ReviewShows(s: Store, k: ObjectKey, rid: RecordKey, c: ObjectKey, t: Store)
    requires Allocated(s) && s.next !in s.matches && k in s.objects && s.objects[k].entity.None?
    requires IsCurrent(s, c) && s.objects[c].entity.Some? && s.objects[c].entity.value in s.entities
    requires t == Reviewing(s, k, rid, c)
    ensures OpensReview(s, t, k)
  {
    ReviewingRows(s, k, rid, c);
  }

  // ---- reviews are filed under identifiers already handed out ----

  ghost predicate Filed(s: Store) {
    forall e :: e in s.matches ==> e < s.next
  }

  /** Every new review is filed under a new identifier. */
  ghost predicate Files(s: Store, t: Store) {
    s.next <= t.next && forall e :: e in t.matches ==> e in s.matches || e < t.next
  }

  lemma ObserveFiles(s: Store, k: ObjectKey, item: Item, pick: Option<ObjectKey>, r: Reply<Store>)
    requires ObserveOutcome(s, k, item, pick, r)
    ensures Files(s, After(s, r))
  {
    if r.Commit? && RecordKey(k, item.version) !in s.records {
      SettlesFiles(Received(s, k, item), k, RecordKey(k, item.version), pick, r.db);
    }
  }

  lemma SettlesFiles(s: Store, k: ObjectKey, rid: RecordKey, pick: Option<ObjectKey>, t: Store)
    requires Settles(s, k, rid, pick, t)
    ensures Files(s, t)
  {
    if t == s {
    } else if Placing(s, k, rid, pick, t) {
      PlacingFiles(s, k, rid, pick, t);
    } else {
      RefreshedFiles(s, s.objects[k].entity.value);
    }
  }

  lemma RefreshedFiles(s: Store, e: nat)
    requires e in s.entities
    ensures Files(s, Refreshed(s, e))
  {
  }

  lemma PlacingFiles(s: Store, k: ObjectKey, rid: RecordKey, pick: Option<ObjectKey>, t: Store)
    requires Placing(s, k, rid, pick, t)
    ensures Files(s, t)
  {
    CreatingRows(s, k);
    if t != Creating(s, k) {
      JoiningRows(s, k, s.objects[pick.value].entity.value);
      ReviewingRows(s, k, rid, pick.value);
    }
  }

  lemma MatchFiles(s: Store, e: nat, link: bool, r: Reply<Store>)
    requires MatchOutcome(s, e, link, r)
    ensures Files(s, After(s, r))
  {
    if r.Commit? && link {
      assert Linking(s, e).next == s.next && Linking(s, e).matches.Keys == s.matches.Keys;
    }
  }

  lemma SplitFiles(s: Store, id: nat, approve: bool, r: Reply<Store>)
    requires SplitOutcome(s, id, approve, r)
    ensures Files(s, After(s, r))
  {
    if r.Commit? && approve {
      assert Splitting(s, id).next == s.next + 1 && Splitting(s, id).matches == s.matches;
    }
  }

  lemma MergeFiles(s: Store, id: nat, approve: bool, r: Reply<Store>)
    requires MergeOutcome(s, id, approve, r)
    ensures Files(s, After(s, r))
  {
  }

  lemma MasterFiles(s: Store, e: nat, v: nat, approve: bool, r: Reply<Store>)
    requires MasterOutcome(s, e, v, approve, r)
    ensures Files(s, After(s, r))
  {
  }

  lemma RemasterFiles(s: Store, domain: string)
    ensures Files(s, Next(s, RemasterStep(domain)))
  {
    assert Next(s, RemasterStep(domain)).matches == s.matches;
  }

  lemma ActivateFiles(s: Store, domain: string, rules: Rules)
    ensures Files(s, Next(s, ActivateStep(domain, rules)))
  {
    assert Next(s, ActivateStep(domain, rules)).matches == s.matches;
  }

  lemma DecisionFiles(s: Store, step: Step)
    requires step.MatchStep? || step.MasterStep? || step.MergeStep? || step.SplitStep?
    ensures Files(s, Next(s, step))
  {
    match step
    case MatchStep(e, link) => DecideMatchCases(s, e, link); MatchFiles(s, e, link, Attempt(s, step));
    case MasterStep(e, v, approve) =>
      DecideMasterCases(s, e, v, approve);
      MasterFiles(s, e, v, approve, Attempt(s, step));
    case MergeStep(id, approve, actor) =>
      DecideMergeCases(s, id, approve, actor);
      MergeFiles(s, id, approve, Attempt(s, step));
    case SplitStep(id, approve, actor) =>
      DecideSplitCases(s, id, approve, actor);
      SplitFiles(s, id, approve, Attempt(s, step));
  }

  lemma NextFiles(s: Store, step: Step)
    ensures Files(s, Next(s, step))
  {
    match step
    case ObserveStep(k, item, pick) => ObserveCases(s, k, item, pick); ObserveFiles(s, k, item, pick, Attempt(s, step));
    case MatchStep(_, _) => DecisionFiles(s, step);
    case MasterStep(_, _, _) => DecisionFiles(s, step);
    case MergeStep(_, _, _) => DecisionFiles(s, step);
    case SplitStep(_, _, _) => DecisionFiles(s, step);
    case RemasterStep(domain) => RemasterFiles(s, domain);
    case ActivateStep(domain, rules) => ActivateFiles(s, domain, rules);
    case _ => AdministrativeAside(s, step);
  }

  lemma {:induction false} RunFiled(s: Store, steps: seq<Step>)
    requires Filed(s)
    ensures Filed(Run(s, steps))
    decreases |steps|
  {
    if steps != [] {
      NextFiles(s, steps[0]);
      RunFiled(Next(s, steps[0]), steps[1..]);
    }
  }

  // ---- main result ----

  /** An accepted observation, not a deletion, of an object that has no entity yet. */
  ghost predicate FirstAccepted(s: Store, k: ObjectKey, item: Item) {
    && k.source in s.sources && k.domain in s.policies && RecordKey(k, item.version) !in s.records
    && JustReceived(Received(s, k, item), k, RecordKey(k, item.version))
  }

  /** What the observation does, told by the candidates of a full scan. */
  ghost predicate DecidedBy(s: Store, rules: Rules, k: ObjectKey, n: Values, scan: set<ObjectKey>, t: Store) {
    && (JoinsEntity(s, t, k) <==> exists c :: Linkable(s, rules, k, n, scan, c))
    && (StandsAlone(s, t, k) <==> !exists c :: EligibleIn(s, rules, k, n, scan, c))
    && (OpensReview(s, t, k) <==>
          (exists c :: EligibleIn(s, rules, k, n, scan, c)) && !exists c :: Linkable(s, rules, k, n, scan, c))
  }

  /** With an exact index, a committed first observation joins an entity exactly when some current, placed record of
      the domain that shares a key and is eligible is an automatic link; it opens a review exactly when some is
      eligible but none is an automatic link; it stands alone exactly when none is eligible. */
  lemma ObservationOutcome(lib: Library, d: Definition, s: Store, k: ObjectKey, item: Item, pick: Option<ObjectKey>)
    requires Grounded(s) && Filed(s) && FirstAccepted(s, k, item)
    requires Indexed(s, k.domain) && BlocksOwned(s) && s.policies[k.domain] == RulesOf(lib, d)
    requires Observe(s, k, item, pick).Commit?
    ensures var s1 := Received(s, k, item);
      var n := s1.records[RecordKey(k, item.version)].normalized;
      DecidedBy(s1, RulesOf(lib, d), k, n, FullScan(s1, k, RulesOf(lib, d).keys(n)), Observe(s, k, item, pick).db)
  {
    var s1 := Received(s, k, item);
    var rid := RecordKey(k, item.version);
    var n := s1.records[rid].normalized;
    ReceivedGrounded(s, k, item);
    ResolutionIsComplete(s, k, item, pick);
    ObserveResolves(s, k, item, pick);
    OutcomeShows(s1, k, rid, pick);
    PickDecides(lib, d, s1, k, n, FullScan(s1, k, RulesOf(lib, d).keys(n)), pick, Observe(s, k, item, pick).db);
  }

  lemma PickDecides(lib: Library, d: Definition, s: Store, k: ObjectKey, n: Values, scan: set<ObjectKey>,
                    pick: Option<ObjectKey>, t: Store)
    requires IsBest(s, RulesOf(lib, d), k, n, scan, pick)
    requires
      if pick.None? then StandsAlone(s, t, k)
      else if VerdictOn(s, RulesOf(lib, d), n, pick.value).decision == AutoLink then JoinsEntity(s, t, k)
      else OpensReview(s, t, k)
    ensures DecidedBy(s, RulesOf(lib, d), k, n, scan, t)
  {
    CompiledOutcome(lib, d, s, k, n, scan, pick);
  }

  /** The same over runs: under the compiled definitions the store began with, and with no hypothesis on the index. */
  lemma FirstObservationOutcome(lib: Library, sources: map<string, int>, documents: map<string, Document>,
                                steps: seq<Step>, k: ObjectKey, item: Item, pick: Option<ObjectKey>)
    requires AllCompile(lib, documents) && NoActivation(steps) && k.domain in documents
    requires FirstAccepted(Run(NewStore(lib, sources, documents), steps), k, item)
    requires Observe(Run(NewStore(lib, sources, documents), steps), k, item, pick).Commit?
    ensures var s := Run(NewStore(lib, sources, documents), steps);
      var s1 := Received(s, k, item);
      var n := s1.records[RecordKey(k, item.version)].normalized;
      var rules := RulesOf(lib, Compile(lib, documents[k.domain]).value.document);
      DecidedBy(s1, rules, k, n, FullScan(s1, k, rules.keys(n)), Observe(s, k, item, pick).db)
  {
    var start := NewStore(lib, sources, documents);
    EmptyGrounded(sources, PoliciesOf(lib, documents));
    RunKeepsPolicies(start, steps);
    RunFiled(start, steps);
    IndexedFromTheStart(sources, PoliciesOf(lib, documents), k.domain, steps);
    ObservationOutcome(lib, Compile(lib, documents[k.domain]).value.document, Run(start, steps), k, item, pick);
  }

  // ---- one index row per key ----

  lemma {:induction false} DistinctRows(rid: RecordKey, keys: seq<string>)
    requires Distinct(keys)
    ensures |set key | key in keys :: Block(rid, key)| == |keys|
  {
    if keys != [] {
      var m := |keys| - 1;
      var before := set key | key in keys[..m] :: Block(rid, key);
      assert Distinct(keys[..m]);
      DistinctRows(rid, keys[..m]);
      assert keys == keys[..m] + [keys[m]];
      assert (set key | key in keys :: Block(rid, key)) == before + {Block(rid, keys[m])};
      assert keys[m] !in keys[..m];
    }
  }

  /** The unique constraint of the index is never violated: a record gets as many rows as it has keys. */
  lemma IndexRowsPerRecord(lib: Library, d: Definition, rid: RecordKey, n: Values)
    ensures |BlocksOf(RulesOf(lib, d), rid, n)| == |RulesOf(lib, d).keys(n)|
  {
    OneRowPerKey(lib, d, n);
    DistinctRows(rid, RulesOf(lib, d).keys(n));
  }
}
