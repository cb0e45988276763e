/** One context build or guard evaluation as a whole: index, overlays, state, route and guard decisions
    (`internal/rgdcli/rgdcli.go`, `RunContextBuild` and `RunGuardEval`). */
module ContextBuild {
  import opened Results
  import opened Json
  import opened Text
  import opened Signals
  import opened SignalsIndex
  import opened Filters
  import opened Resolve
  import opened ResolveTheorems
  import opened Pipeline
  import Match
  import MatchLaws
  import ClauseLaws
  import ValidateWhen
  import Observe
  import Observation
  import Gate
  import Roles
  import Pagination
  import Guard

  function KindText(kind: Kind): string {
    match kind
    case Resolved => "resolved"
    case Ambiguous => "ambiguous"
    case Degraded => "degraded"
    case Unsupported => "unsupported"
  }

  /** The state signals that a state decision lays over the index. */
  function StateSignals(state: Outcome): Object {
    map["state" :=
        Obj(map["kind" := Str(KindText(state.kind)), "state_id" := Str(state.stateID), "rule_id" := Str(state.ruleID)])]
  }

  datatype Decision = Decision(state: Outcome, route: Outcome, guard: Guard.Verdict)

  /** What is fixed for one build besides the observation: rules, the trace flag, the gate files with the git view and
      role contract, and the text functions. */
  datatype Setting = Setting(rules: seq<Rule>, withTrace: bool, files: Gate.Files, view: Gate.GitView,
                             roles: Roles.RolesSpec, pf: Match.Parser, lower: Guard.Lower)

  function GatesOf(c: Setting): Object {
    Gate.GateSignals(c.files, c.view, c.roles)
  }

  /** `d` decides on the index `flat` with the overlays `gates` and `state`. */
  ghost predicate DecidesOn(c: Setting, degraded: set<string>, flat: Object, gates: Object, state: Object,
                            d: Decision) {
    && IsOutcome(c.rules, flat + gates, degraded, "state", c.withTrace, c.pf, d.state)
    && IsFlat(StateSignals(d.state), state)
    && IsOutcome(c.rules, flat + gates + state, degraded, "route", c.withTrace, c.pf, d.route)
    && Guard.IsVerdict(c.rules, Guard.MERGE_READINESS, flat + gates + state, degraded, c.pf, c.lower, d.guard)
  }

  ghost predicate DecidesWith(c: Setting, m: Observe.Merged, flat: Object, gates: Object, state: Object, d: Decision) {
    && IsFlat(m.signals, flat) && IsFlat(GatesOf(c), gates)
    && DecidesOn(c, Observation.DegradedSet(m.diags, m.degraded), flat, gates, state, d)
  }

  /** `d` is a possible decision on the collected observation, for some order of every map and some sort of ties. */
  ghost predicate Decides(c: Setting, m: Observe.Merged, d: Decision) {
    exists flat, gates, state :: DecidesWith(c, m, flat, gates, state, d)
  }

  /** The index every command decides on: the flattened observation, overwritten in place by the gate signals. */
  method IndexWithGates(signals: Object, store: Gate.GateStore, view: Gate.GitView)
    returns (index: FlatIndex, ghost flat: Object, ghost gates: Object)
    ensures fresh(index) && index.out == flat + gates
    ensures IsFlat(signals, flat) && IsFlat(Gate.GateSignals(store.files, view, store.roles), gates)
  {
    index := new FlatIndex();
    index.Walk("", Obj(signals));
    flat := index.out;
    var gateSignals := store.LoadSignals(view);
    gates := index.Overlay(gateSignals);
  }

  lemma Assembled(c: Setting, m: Observe.Merged, degraded: set<string>, flat: Object, gates: Object, added: Object,
                  index: Object, d: Decision)
    requires degraded == Observation.DegradedSet(m.diags, m.degraded)
    requires IsFlat(m.signals, flat) && IsFlat(GatesOf(c), gates) && IsFlat(StateSignals(d.state), added)
    requires index == flat + gates + added
    requires IsOutcome(c.rules, flat + gates, degraded, "state", c.withTrace, c.pf, d.state)
    requires IsOutcome(c.rules, index, degraded, "route", c.withTrace, c.pf, d.route)
    requires Guard.IsVerdict(c.rules, Guard.MERGE_READINESS, index, degraded, c.pf, c.lower, d.guard)
    ensures Decides(c, m, d)
  {
    assert DecidesWith(c, m, flat, gates, added, d);
  }

  /** The decision part of `RunContextBuild`. */
  method Build(rules: seq<Rule>, withTrace: bool, m: Observe.Merged, store: Gate.GateStore, view: Gate.GitView,
               pf: Match.Parser, lower: Guard.Lower)
    returns (d: Decision)
    ensures Decides(Setting(rules, withTrace, store.files, view, store.roles, pf, lower), m, d)
  {
    ghost var c := Setting(rules, withTrace, store.files, view, store.roles, pf, lower);
    var degraded := Observation.DegradedSet(m.diags, m.degraded);
    var index, flat, gates := IndexWithGates(m.signals, store, view);
    ghost var added;
    d, added := DecideOn(rules, withTrace, degraded, index, pf, lower);
    Assembled(c, m, degraded, flat, gates, added, index.out, d);
  }

  /** The three decisions in turn on one index. */
  method DecideOn(rules: seq<Rule>, withTrace: bool, degraded: set<string>, index: FlatIndex, pf: Match.Parser,
                  lower: Guard.Lower)
    returns (d: Decision, ghost added: Object)
    modifies index
    ensures IsFlat(StateSignals(d.state), added) && index.out == old(index.out) + added
    ensures IsOutcome(rules, old(index.out), degraded, "state", withTrace, pf, d.state)
    ensures IsOutcome(rules, index.out, degraded, "route", withTrace, pf, d.route)
    ensures Guard.IsVerdict(rules, Guard.MERGE_READINESS, index.out, degraded, pf, lower, d.guard)
  {
    var state;
    state, added := DecideState(rules, withTrace, degraded, index, pf);
    var route, verdict := DecideRest(rules, withTrace, degraded, index.out, pf, lower);
    d := Decision(state, route, verdict);
  }

  /** The route decision and the guard verdict on the finished index. */
  method DecideRest(rules: seq<Rule>, withTrace: bool, degraded: set<string>, index: Object, pf: Match.Parser,
                    lower: Guard.Lower)
    returns (route: Outcome, verdict: Guard.Verdict)
    ensures IsOutcome(rules, index, degraded, "route", withTrace, pf, route)
    ensures Guard.IsVerdict(rules, Guard.MERGE_READINESS, index, degraded, pf, lower, verdict)
  {
    route := ResolveCore(rules, index, degraded, "route", withTrace, pf);
    verdict := Guard.EvalWithRules(rules, Guard.MERGE_READINESS, index, degraded, pf, lower);
  }

  /** The state decision, whose signals overwrite the index it was taken on. */
  method DecideState(rules: seq<Rule>, withTrace: bool, degraded: set<string>, index: FlatIndex, pf: Match.Parser)
    returns (state: Outcome, ghost added: Object)
    modifies index
    ensures IsOutcome(rules, old(index.out), degraded, "state", withTrace, pf, state)
    ensures IsFlat(StateSignals(state), added) && index.out == old(index.out) + added
  {
    state := ResolveCore(rules, index.out, degraded, "state", withTrace, pf);
    added := index.Overlay(StateSignals(state));
  }

  // ---------------------------------------------------------------- what the decisions rest on

  /** After an overlay the entries of its namespace are those of the overlaid object. */
  lemma OverlaidEntry(index: Object, ns: string, m: Object, added: Object, key: string)
    requires CleanKey(ns) && CleanKey(key) && IsFlat(map[ns := Obj(m)], added)
    ensures PathValue(index + added, Guard.At(ns, key)) == if key in m then Some(m[key]) else None
  {
    var root: Object := map[ns := Obj(m)];
    TwoSegments(ns, key);
    LookupTwo(root, m, ns, key);
    OverlayLookup(index, ns, Obj(m), added, Guard.At(ns, key));
  }

  lemma StateEntries(state: Outcome)
    ensures "state" in StateSignals(state) && StateSignals(state)["state"].Obj?
    ensures StateSignals(state) == map["state" := StateSignals(state)["state"]]
    ensures var m := StateSignals(state)["state"].fields;
            && "state_id" in m && m["state_id"] == Str(state.stateID)
            && "rule_id" in m && m["rule_id"] == Str(state.ruleID)
            && "kind" in m && (m["kind"] == Str("resolved") <==> state.kind == Resolved)
            && (m["kind"] == Str("ambiguous") <==> state.kind == Ambiguous)
            && (m["kind"] == Str("degraded") <==> state.kind == Degraded)
            && (m["kind"] == Str("unsupported") <==> state.kind == Unsupported)
  {
  }

  /** On the index on which route and guard are decided, the state namespace shows the state decision. */
  lemma StateShown(state: Outcome, index: Object, added: Object)
    requires IsFlat(StateSignals(state), added)
    ensures PathValue(index + added, Guard.At("state", "state_id")) == Some(Str(state.stateID))
    ensures PathValue(index + added, Guard.At("state", "rule_id")) == Some(Str(state.ruleID))
    ensures var shown := PathValue(index + added, Guard.At("state", "kind"));
            && (state.kind == Resolved <==> shown == Some(Str("resolved")))
            && (state.kind == Ambiguous <==> shown == Some(Str("ambiguous")))
            && (state.kind == Degraded <==> shown == Some(Str("degraded")))
            && (state.kind == Unsupported <==> shown == Some(Str("unsupported")))
  {
    StateEntries(state);
    var m := StateSignals(state)["state"].fields;
    assert CleanKey("state") && CleanKey("state_id") && CleanKey("rule_id") && CleanKey("kind");
    OverlaidEntry(index, "state", m, added, "state_id");
    OverlaidEntry(index, "state", m, added, "rule_id");
    OverlaidEntry(index, "state", m, added, "kind");
  }

  /** So a rule that asks for a state fires on this index exactly when that state was decided. */
  lemma StateClause(state: Outcome, index: Object, added: Object, want: string, pf: Match.Parser)
    requires IsFlat(StateSignals(state), added) && pf(want).None?
    ensures Match.EvalValue(MatchLaws.Clause("eq", Guard.At("state", "state_id"), Str(want)), index + added, pf) ==
            Ok(state.stateID == want)
  {
    StateShown(state, index, added);
    ClauseLaws.EqText(Guard.At("state", "state_id"), want, index + added, pf);
  }

  /** Every decision of a build: state on the gate overlay, route and guard on the state overlay as well, each by the
      rules of its own kind. */
  lemma DecisionMeaning(c: Setting, m: Observe.Merged, flat: Object, gates: Object, added: Object, d: Decision)
    requires DecidesWith(c, m, flat, gates, added, d)
    ensures var degraded := Observation.DegradedSet(m.diags, m.degraded);
            && (if AnyFails(c.rules, "state", flat + gates, c.pf) then d.state.kind == Unsupported
                else Verdict(ActiveRules(c.rules, "state", flat + gates, degraded, c.pf), d.state))
            && (if AnyFails(c.rules, "route", flat + gates + added, c.pf) then d.route.kind == Unsupported
                else Verdict(ActiveRules(c.rules, "route", flat + gates + added, degraded, c.pf), d.route))
  {
    var degraded := Observation.DegradedSet(m.diags, m.degraded);
    assert "state" in RULE_TYPES && "route" in RULE_TYPES;
    OutcomeCharacterized(c.rules, flat + gates, degraded, "state", c.withTrace, c.pf, d.state);
    OutcomeCharacterized(c.rules, flat + gates + added, degraded, "route", c.withTrace, c.pf, d.route);
  }

  // ---------------------------------------------------------------- the decision is unique

  lemma OutcomesAgree(rules: seq<Rule>, rules': seq<Rule>, a: Object, a': Object, degraded: set<string>, typ: string,
                      withTrace: bool, withTrace': bool, pf: Match.Parser, lower: Guard.Lower, res: Outcome,
                      res': Outcome)
    requires multiset(rules) == multiset(rules') && Loaded(rules) && SameCoded(a, a')
    requires IsOutcome(rules, a, degraded, typ, withTrace, pf, res)
    requires IsOutcome(rules', a', degraded, typ, withTrace', pf, res')
    ensures SameDecision(res, res')
  {
    CodedAlike(rules, a, a', pf, lower);
    OutcomeAlike(rules, a, a', degraded, typ, withTrace, pf, res);
    OrderIndependent(rules, rules', a', degraded, typ, withTrace, withTrace', pf, res, res');
  }

  lemma ScopedPermutation(rules: seq<Rule>, rules': seq<Rule>, guardID: string)
    requires multiset(rules) == multiset(rules')
    ensures multiset(ScopeGuard(rules, guardID)) == multiset(ScopeGuard(rules', guardID))
    ensures Guard.HasGuardRules(rules, guardID) <==> Guard.HasGuardRules(rules', guardID)
    ensures Loaded(rules) ==> Loaded(ScopeGuard(rules, guardID))
  {
    var keep := (r: Rule) => r.typ == "guard" && r.guardID == guardID;
    FilterPermutation(rules, rules', keep);
    FilterMembers(rules, keep);
    SameMembers(rules, rules');
    HasGuardRulesMembers(rules, rules', guardID);
    HasGuardRulesMembers(rules', rules, guardID);
    var scoped := ScopeGuard(rules, guardID);
    forall i | 0 <= i < |scoped| && Loaded(rules) ensures ValidateWhen.Validate(scoped[i].when).None? {
      assert scoped[i] in rules;
    }
  }

  lemma HasGuardRulesMembers(rules: seq<Rule>, rules': seq<Rule>, guardID: string)
    requires forall r :: r in rules ==> r in rules'
    ensures Guard.HasGuardRules(rules, guardID) ==> Guard.HasGuardRules(rules', guardID)
  {
    if Guard.HasGuardRules(rules, guardID) {
      var i :| 0 <= i < |rules| && rules[i].typ == "guard" && rules[i].guardID == guardID;
      assert rules[i] in rules';
      var j :| 0 <= j < |rules'| && rules'[j] == rules[i];
    }
  }

  lemma VerdictsAgree(rules: seq<Rule>, rules': seq<Rule>, guardID: string, a: Object, a': Object,
                      degraded: set<string>,
                      pf: Match.Parser, lower: Guard.Lower, res: Guard.Verdict, res': Guard.Verdict)
    requires multiset(rules) == multiset(rules') && Loaded(rules) && SameCoded(a, a')
    requires Guard.IsVerdict(rules, guardID, a, degraded, pf, lower, res)
    requires Guard.IsVerdict(rules', guardID, a', degraded, pf, lower, res')
    ensures res == res'
  {
    CodedAlike(rules, a, a', pf, lower);
    ScopedPermutation(rules, rules', guardID);
    if guardID == Guard.MERGE_READINESS && Guard.HasGuardRules(rules, guardID) {
      var scoped, scoped' := ScopeGuard(rules, guardID), ScopeGuard(rules', guardID);
      var out :| IsOutcome(scoped, a, degraded, "guard", false, pf, out)
                 && res == if out.kind == Resolved then Guard.EvalMergeReadiness(a, lower)
                    else Some(Guard.RuleResolution(out.kind));
      var out' :| IsOutcome(scoped', a', degraded, "guard", false, pf, out')
                  && res' == if out'.kind == Resolved then Guard.EvalMergeReadiness(a', lower)
                     else Some(Guard.RuleResolution(out'.kind));
      OutcomesAgree(scoped, scoped', a, a', degraded, "guard", false, false, pf, lower, out, out');
    }
  }

  lemma DecisionsAgree(c: Setting, c': Setting, degraded: set<string>, flat: Object, flat': Object, gates: Object,
                       gates': Object, state: Object, state': Object, d: Decision, d': Decision)
    requires multiset(c.rules) == multiset(c'.rules) && Loaded(c.rules) && c.pf == c'.pf && c.lower == c'.lower
    requires SameCoded(flat, flat') && SameCoded(gates, gates')
    requires DecidesOn(c, degraded, flat, gates, state, d) && DecidesOn(c', degraded, flat', gates', state', d')
    ensures SameDecision(d.state, d'.state) && SameDecision(d.route, d'.route) && d.guard == d'.guard
    ensures StateSignals(d.state) == StateSignals(d'.state)
  {
    SameOverlaid(flat, flat', gates, gates');
    var a, a' := flat + gates, flat' + gates';
    OutcomesAgree(c.rules, c'.rules, a, a', degraded, "state", c.withTrace, c'.withTrace, c.pf, c.lower, d.state,
                  d'.state);
    assert PlainTop(StateSignals(d.state));
    PlainUnambiguous(StateSignals(d.state));
    SameIndexes(StateSignals(d.state), state, state');
    SameOverlaid(a, a', state, state');
    OutcomesAgree(c.rules, c'.rules, a + state, a' + state', degraded, "route", c.withTrace, c'.withTrace, c.pf,
                  c.lower, d.route, d'.route);
    VerdictsAgree(c.rules, c'.rules, Guard.MERGE_READINESS, a + state, a' + state', degraded, c.pf, c.lower, d.guard,
                  d'.guard);
  }

  lemma PlainUnambiguous(signals: Object)
    requires PlainTop(signals)
    ensures CodedUnambiguous(signals)
  {
    PlainTopUnambiguous(signals);
    UnambiguousCoded(signals);
  }

  /** Provider ids are the top-level keys of collected signals, so without an empty id the top is plain. */
  lemma NamedProvidersPlain(job: Observe.Job)
    requires Observe.WellFormed(job) && "" !in job.enabled
    ensures PlainTop(Observe.Collect(job).signals) && CodedUnambiguous(Observe.Collect(job).signals)
  {
    var slots, signals := Observe.Slots(job), Observe.Collect(job).signals;
    Observe.SignalsMeaning(slots);
    forall id | id in signals ensures id in job.enabled {
      var i :| Observe.Decides(slots, id, i);
      assert job.enabled[i] == id;
    }
    PlainUnambiguous(signals);
  }

  /** With fixed provider results, any two schedules of the providers, orders of the rules, orders of map iteration
      and resolutions of sort ties lead to the same state decision and state signals, the same route decision and
      the same guard verdict, provided no segment is ambiguous. */
  lemma ContextDeterministic(job: Observe.Job, states: seq<Observe.Threads>, steps: seq<Observe.Step>,
                             states': seq<Observe.Threads>, steps': seq<Observe.Step>, c: Setting, rules': seq<Rule>,
                             withTrace': bool, d: Decision, d': Decision)
    requires Observe.WellFormed(job) && CodedUnambiguous(Observe.Collect(job).signals) && Loaded(c.rules)
    requires Observe.IsSchedule(job, states, steps) && Observe.Finished(job, states[|steps|])
    requires Observe.IsSchedule(job, states', steps') && Observe.Finished(job, states'[|steps'|])
    requires multiset(c.rules) == multiset(rules')
    requires Decides(c, Observe.MergedOf(states[|steps|].results), d)
    requires Decides(c.(rules := rules', withTrace := withTrace'), Observe.MergedOf(states'[|steps'|].results), d')
    ensures SameDecision(d.state, d'.state) && SameDecision(d.route, d'.route) && d.guard == d'.guard
    ensures StateSignals(d.state) == StateSignals(d'.state)
  {
    Observe.ConcurrentEqualsSerial(job, states, steps);
    Observe.ConcurrentEqualsSerial(job, states', steps');
    var m := Observe.Collect(job);
    forall flat, flat' | IsFlat(m.signals, flat) && IsFlat(m.signals, flat') ensures SameCoded(flat, flat') {
      SameIndexes(m.signals, flat, flat');
    }
    SameBuilds(m, m, c, c.(rules := rules', withTrace := withTrace'), d, d');
  }

  /** Signals that agree once coded as JSON, with the same degraded set. */
  ghost predicate SameObservation(m: Observe.Merged, m': Observe.Merged) {
    && Observation.DegradedSet(m.diags, m.degraded) == Observation.DegradedSet(m'.diags, m'.degraded)
    && forall flat, flat' :: IsFlat(m.signals, flat) && IsFlat(m'.signals, flat') ==> SameCoded(flat, flat')
  }

  lemma SameBuilds(m: Observe.Merged, m': Observe.Merged, c: Setting, c': Setting, d: Decision, d': Decision)
    requires SameObservation(m, m') && Loaded(c.rules) && multiset(c.rules) == multiset(c'.rules)
    requires c' == c.(rules := c'.rules, withTrace := c'.withTrace)
    requires Decides(c, m, d) && Decides(c', m', d')
    ensures SameDecision(d.state, d'.state) && SameDecision(d.route, d'.route) && d.guard == d'.guard
    ensures StateSignals(d.state) == StateSignals(d'.state)
  {
    var flat, gates, state :| DecidesWith(c, m, flat, gates, state, d);
    var flat', gates', state' :| DecidesWith(c', m', flat', gates', state', d');
    assert PlainTop(GatesOf(c));
    PlainUnambiguous(GatesOf(c));
    SameIndexes(GatesOf(c), gates, gates');
    DecisionsAgree(c, c', Observation.DegradedSet(m.diags, m.degraded), flat, flat', gates, gates', state, state', d,
                   d');
  }

  /** A build on a saved observation decides like a build on the live one. */
  lemma SavedBuildReplays(m: Observe.Merged, meta: Object, m': Observe.Merged, c: Setting, d: Decision, d': Decision)
    requires CodedUnambiguous(m.signals) && Loaded(c.rules)
    requires var parsed :=
               Observation.Parse(RecodeObject(Observation.DocumentOf(m.signals, m.diags, m.degraded, meta)));
             parsed.Ok? ==> m' == Observe.Merged(parsed.value.signals, parsed.value.diags, parsed.value.degraded)
    requires Decides(c, m, d) && Decides(c, m', d')
    ensures SameDecision(d.state, d'.state) && SameDecision(d.route, d'.route) && d.guard == d'.guard
    ensures StateSignals(d.state) == StateSignals(d'.state)
  {
    Observation.DocumentRoundTrip(m.signals, m.diags, m.degraded, meta);
    forall flat, flat' | IsFlat(m.signals, flat) && IsFlat(m'.signals, flat') ensures SameCoded(flat, flat') {
      ReloadedIndex(m.signals, flat, flat');
    }
    SameBuilds(m, m', c, c, d, d');
  }

  // ---------------------------------------------------------------- an OK verdict means really reviewed

  /** If guard rules are declared for the id, none of them fails and exactly one active rule contends. */
  ghost predicate RulesAllow(rules: seq<Rule>, guardID: string, index: Object, degraded: set<string>,
                             pf: Match.Parser) {
    Guard.HasGuardRules(rules, guardID) ==>
      && !AnyFails(ScopeGuard(rules, guardID), "guard", index, pf)
      && |Contenders(ActiveRules(ScopeGuard(rules, guardID), "guard", index, degraded, pf))| == 1
  }

  /** The checks outside review data pass, all threads on the server were fetched and are resolved, and every
      required bot is satisfied. */
  ghost predicate ReadyAndReviewed(index: Object, l: Pagination.ThreadList, t: Pagination.Timeline, anyBots: bool,
                                   statuses: seq<Value>, headSHA: string, lower: Guard.Lower)
    requires Pagination.GoodThreadList(l) && Pagination.GoodTimeline(t) && MergedTimeline(t, anyBots).Ok?
  {
    ReadyIn(index, l, t, anyBots, statuses, headSHA, "git", "github", lower)
  }

  ghost predicate CollectedReviews(sigs: Object, l: Pagination.ThreadList, t: Pagination.Timeline, anyBots: bool,
                                   decisions: Object, statuses: seq<Value>, headSHA: string)
    requires Pagination.GoodThreadList(l) && Pagination.GoodTimeline(t)
  {
    Collected(sigs, "github", l, t, anyBots, decisions, statuses, headSHA)
  }

  lemma MergeIffReviewed(l: Pagination.ThreadList, t: Pagination.Timeline, anyBots: bool, decisions: Object,
                         statuses: seq<Value>, headSHA: string, sigs: Object, index: Object, lower: Guard.Lower)
    requires Pagination.GoodThreadList(l) && Pagination.GoodTimeline(t)
    requires CollectedReviews(sigs, l, t, anyBots, decisions, statuses, headSHA) && SameBelow(index, sigs, "github")
    ensures MergedTimeline(t, anyBots).Ok?
    ensures Guard.EvalMergeReadiness(index, lower).None? <==>
              ReadyAndReviewed(index, l, t, anyBots, statuses, headSHA, lower)
  {
    MergeIn(l, t, anyBots, decisions, statuses, headSHA, sigs, index, "git", "github", lower);
  }

  /** The same over any two namespaces. */
  ghost predicate ReadyIn(index: Object, l: Pagination.ThreadList, t: Pagination.Timeline, anyBots: bool,
                          statuses: seq<Value>, headSHA: string, git: string, github: string, lower: Guard.Lower)
    requires Pagination.GoodThreadList(l) && Pagination.GoodTimeline(t) && MergedTimeline(t, anyBots).Ok?
  {
    && Guard.RestReady(index, git, github, lower)
    && Pagination.PageThreads(l).1 == |l.pages| && AllResolved(Pagination.Concat(l.pages))
    && Guard.AllSatisfied(statuses, headSHA, MergedTimeline(t, anyBots).value.1)
  }

  lemma MergeIn(l: Pagination.ThreadList, t: Pagination.Timeline, anyBots: bool, decisions: Object,
                statuses: seq<Value>, headSHA: string, sigs: Object, index: Object, git: string, github: string,
                lower: Guard.Lower)
    requires Pagination.GoodThreadList(l) && Pagination.GoodTimeline(t) && CleanKey(github)
    requires Collected(sigs, github, l, t, anyBots, decisions, statuses, headSHA) && SameBelow(index, sigs, github)
    ensures MergedTimeline(t, anyBots).Ok?
    ensures Guard.EvalIn(index, git, github, lower).None? <==>
              ReadyIn(index, l, t, anyBots, statuses, headSHA, git, github, lower)
  {
    OkIffReviewed(l, t, anyBots, decisions, statuses, headSHA, sigs, index, git, github, lower);
  }

  lemma ReviewedReally(index: Object, l: Pagination.ThreadList, t: Pagination.Timeline, anyBots: bool,
                       statuses: seq<Value>, headSHA: string, lower: Guard.Lower)
    requires Pagination.GoodThreadList(l) && Pagination.GoodTimeline(t) && MergedTimeline(t, anyBots).Ok?
    requires ReadyAndReviewed(index, l, t, anyBots, statuses, headSHA, lower)
    ensures ReallyReviewed(l, t, MergedTimeline(t, anyBots).value.0, statuses, headSHA)
  {
    CommentsAnswered(t, anyBots);
    BotsSatisfied(statuses, headSHA, MergedTimeline(t, anyBots).value.1);
  }

  /** The verdict with declared rules, on any index that agrees with the collected tree: OK exactly when the rules
      allow it and everything is ready and reviewed. */
  lemma VerdictIffReviewed(l: Pagination.ThreadList, t: Pagination.Timeline, anyBots: bool, decisions: Object,
                           statuses: seq<Value>, headSHA: string, sigs: Object, index: Object, rules: seq<Rule>,
                           guardID: string, degraded: set<string>, pf: Match.Parser, lower: Guard.Lower,
                           res: Guard.Verdict)
    requires Pagination.GoodThreadList(l) && Pagination.GoodTimeline(t)
    requires CollectedReviews(sigs, l, t, anyBots, decisions, statuses, headSHA) && SameBelow(index, sigs, "github")
    requires Guard.IsVerdict(rules, guardID, index, degraded, pf, lower, res)
    ensures MergedTimeline(t, anyBots).Ok?
    ensures res.None? <==>
            && guardID == Guard.MERGE_READINESS && RulesAllow(rules, guardID, index, degraded, pf)
            && ReadyAndReviewed(index, l, t, anyBots, statuses, headSHA, lower)
    ensures res.None? ==> ReallyReviewed(l, t, MergedTimeline(t, anyBots).value.0, statuses, headSHA)
  {
    GuardOkIff(rules, guardID, index, degraded, pf, lower, res);
    MergeIffReviewed(l, t, anyBots, decisions, statuses, headSHA, sigs, index, lower);
    if res.None? {
      ReviewedReally(index, l, t, anyBots, statuses, headSHA, lower);
    }
  }

  lemma OverlaidElsewhere(sigs: Object, index: Object, ns: string, tree: Value, added: Object, other: string)
    requires CleanKey(ns) && ns != other && IsFlat(map[ns := tree], added) && SameBelow(index, sigs, other)
    ensures SameBelow(index + added, sigs, other)
  {
    OverlayKeepsOthers(index, ns, tree, added, other);
  }

  lemma GatesElsewhere(c: Setting, sigs: Object, index: Object, gates: Object, ns: string)
    requires IsFlat(GatesOf(c), gates) && SameBelow(index, sigs, ns) && ns != "gates"
    ensures SameBelow(index + gates, sigs, ns)
  {
    if GatesOf(c) == map[] {
      NothingAdded(index, gates);
    } else {
      assert CleanKey("gates");
      OverlaidElsewhere(sigs, index, "gates", GatesOf(c)["gates"], gates, ns);
    }
  }

  lemma StateElsewhere(d: Decision, sigs: Object, index: Object, state: Object, ns: string)
    requires IsFlat(StateSignals(d.state), state) && SameBelow(index, sigs, ns) && ns != "state"
    ensures SameBelow(index + state, sigs, ns)
  {
    assert CleanKey("state");
    OverlaidElsewhere(sigs, index, "state", StateSignals(d.state)["state"], state, ns);
  }

  /** The index of a build agrees with the collected tree below every namespace it does not overlay. */
  lemma BuildIndexAgrees(c: Setting, m: Observe.Merged, flat: Object, gates: Object, state: Object, d: Decision,
                         ns: string)
    requires PlainTop(m.signals) && ns != "gates" && ns != "state"
    requires IsFlat(m.signals, flat) && IsFlat(GatesOf(c), gates) && IsFlat(StateSignals(d.state), state)
    ensures SameBelow(flat + gates + state, m.signals, ns)
  {
    FlatSameLookups(m.signals, flat);
    GatesElsewhere(c, m.signals, flat, gates, ns);
    StateElsewhere(d, m.signals, flat + gates, state, ns);
  }

  /** End to end for a whole build: an OK guard verdict in its decision means the pull request was really reviewed. */
  lemma BuildOkMeansReviewed(l: Pagination.ThreadList, t: Pagination.Timeline, anyBots: bool, decisions: Object,
                             statuses: seq<Value>, headSHA: string, c: Setting, m: Observe.Merged, d: Decision)
    requires Pagination.GoodThreadList(l) && Pagination.GoodTimeline(t) && PlainTop(m.signals)
    requires CollectedReviews(m.signals, l, t, anyBots, decisions, statuses, headSHA)
    requires Decides(c, m, d) && d.guard.None?
    ensures MergedTimeline(t, anyBots).Ok?
    ensures ReallyReviewed(l, t, MergedTimeline(t, anyBots).value.0, statuses, headSHA)
  {
    var degraded := Observation.DegradedSet(m.diags, m.degraded);
    var flat, gates, state :| DecidesWith(c, m, flat, gates, state, d);
    BuildIndexAgrees(c, m, flat, gates, state, d, "github");
    VerdictIffReviewed(l, t, anyBots, decisions, statuses, headSHA, m.signals, flat + gates + state, c.rules,
                       Guard.MERGE_READINESS, degraded, c.pf, c.lower, d.guard);
  }

  lemma KeptBelow(sigs: Object, index: Object, over: Object, ns: string)
    requires ns !in over && SameBelow(index, sigs, ns)
    ensures SameBelow(index + over, sigs, ns)
  {
    forall path | Segments(path) != [] && Segments(path)[0] == ns
      ensures PathValue(index + over, path) == PathValue(sigs, path)
    {
      assert PathValue(index + over, path) == PathValue(index, path);
    }
  }

  /** The guard says OK on the index of the saved observation exactly when it does on that of the live one. */
  lemma SavedMerge(sigs: Object, flat: Object, flat': Object, over: Object, pf: Match.Parser, lower: Guard.Lower)
    requires CodedUnambiguous(sigs) && IsFlat(sigs, flat) && IsFlat(RecodeObject(sigs), flat')
    ensures Guard.EvalMergeReadiness(flat' + over, lower) == Guard.EvalMergeReadiness(flat + over, lower)
  {
    ReloadedIndex(sigs, flat, flat');
    SameOverlaid(flat', flat, over, over);
    CodedAlike([], flat' + over, flat + over, pf, lower);
  }

  /** A guard evaluation reads the saved observation: collected, coded as JSON, flattened, and overlaid with signals of
      other namespaces. If its verdict is OK, the pull request was really reviewed. */
  lemma SavedOkMeansReviewed(l: Pagination.ThreadList, t: Pagination.Timeline, anyBots: bool, decisions: Object,
                             statuses: seq<Value>, headSHA: string, sigs: Object, flat': Object, over: Object,
                             rules: seq<Rule>, guardID: string, degraded: set<string>, pf: Match.Parser,
                             lower: Guard.Lower, res: Guard.Verdict)
    requires Pagination.GoodThreadList(l) && Pagination.GoodTimeline(t) && PlainTop(sigs)
    requires CollectedReviews(sigs, l, t, anyBots, decisions, statuses, headSHA)
    requires IsFlat(RecodeObject(sigs), flat') && "github" !in over
    requires Guard.IsVerdict(rules, guardID, flat' + over, degraded, pf, lower, res) && res.None?
    ensures MergedTimeline(t, anyBots).Ok?
    ensures ReallyReviewed(l, t, MergedTimeline(t, anyBots).value.0, statuses, headSHA)
  {
    var flat := SomeFlat(sigs);
    GuardOkIff(rules, guardID, flat' + over, degraded, pf, lower, res);
    PlainUnambiguous(sigs);
    SavedMerge(sigs, flat, flat', over, pf, lower);
    FlatSameLookups(sigs, flat);
    KeptBelow(sigs, flat, over, "github");
    MergeIffReviewed(l, t, anyBots, decisions, statuses, headSHA, sigs, flat + over, lower);
    ReviewedReally(flat + over, l, t, anyBots, statuses, headSHA, lower);
  }
}
