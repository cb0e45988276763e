/** Outcome characterization, order independence, trace replay and degradation laws of rule resolution. */
module ResolveTheorems {
  import opened Results
  import opened Json
  import opened Text
  import opened Filters
  import opened Resolve
  import Match

  // ---------------------------------------------------------------- what resolution is about

  predicate Fires(r: Rule, signals: Object, pf: Match.Parser) {
    Match.Eval(r.when, signals, pf) == Ok(true)
  }

  predicate Fails(r: Rule, typ: string, signals: Object, pf: Match.Parser) {
    r.typ == typ && Match.Eval(r.when, signals, pf).Err?
  }

  predicate IsSuppressed(r: Rule, degraded: set<string>) {
    exists d :: d in r.dependsOn && d in degraded
  }

  predicate IsMatched(r: Rule, typ: string, signals: Object, pf: Match.Parser) {
    r.typ == typ && Fires(r, signals, pf)
  }

  predicate IsActive(r: Rule, typ: string, signals: Object, degraded: set<string>, pf: Match.Parser) {
    IsMatched(r, typ, signals, pf) && !IsSuppressed(r, degraded)
  }

  predicate AnyFails(rules: seq<Rule>, typ: string, signals: Object, pf: Match.Parser) {
    exists i :: 0 <= i < |rules| && Fails(rules[i], typ, signals, pf)
  }

  function MatchedRules(rules: seq<Rule>, typ: string, signals: Object, pf: Match.Parser): seq<Rule> {
    Filter(rules, r => IsMatched(r, typ, signals, pf))
  }

  function ActiveRules(rules: seq<Rule>, typ: string, signals: Object, degraded: set<string>, pf: Match.Parser)
    : seq<Rule>
  {
    Filter(rules, r => IsActive(r, typ, signals, degraded, pf))
  }

  /** No active rule beats `r` by more than the epsilon. */
  ghost predicate Contends(r: Rule, active: seq<Rule>) {
    forall s :: s in active ==> r.priority <= s.priority + EPSILON
  }

  ghost function Contenders(active: seq<Rule>): seq<Rule> {
    Filter(active, r => Contends(r, active))
  }

  /** The verdict on the active rules, without any mention of sorting or running minima. */
  ghost predicate Verdict(active: seq<Rule>, res: Outcome) {
    var best := Contenders(active);
    if active == [] then res.kind == Degraded
    else if |best| >= 2 then
      res.kind == Ambiguous && multiset(res.candidates) == multiset(Map(best, IdOf)) && IsLowest(res.priority, active)
    else
      && |best| == 1
      && if TargetOf(best[0]) == "" then res.kind == Unsupported && res.reason == MissingTarget(best[0].id)
         else res.kind == Resolved && res.priority == best[0].priority && Names(res, best[0])
  }

  /** `p` is the lowest priority that occurs. */
  ghost predicate IsLowest(p: real, active: seq<Rule>) {
    (forall s :: s in active ==> p <= s.priority) && exists s :: s in active && s.priority == p
  }

  /** The result names the rule and its target, under the field of the rule's own kind only. */
  predicate Names(res: Outcome, w: Rule) {
    && res.ruleID == w.id && res.targetID == TargetOf(w)
    && res.stateID == (if w.typ == "state" then w.stateID else "")
    && res.routeID == (if w.typ == "route" then w.routeID else "")
    && res.guardID == (if w.typ == "guard" then w.guardID else "")
  }

  // ---------------------------------------------------------------- evaluation

  lemma SuppressedByEmpty(r: Rule, degraded: set<string>)
    ensures (if degraded != {} then SuppressedBy(r, degraded) else []) == [] <==> !IsSuppressed(r, degraded)
  {
    FilterMembers(r.dependsOn, d => d in degraded);
    var hits := SuppressedBy(r, degraded);
    if hits != [] {
      assert hits[0] in hits;
    }
  }

  /** Evaluation fails exactly when some clause fails; the recorded entries are one per rule, or exactly the
      prefix before the first failing rule. */
  lemma {:induction false} EvaluationShape(rules: seq<Rule>, signals: Object, degraded: set<string>, pf: Match.Parser)
    ensures var ev := EvaluateRules(rules, signals, degraded, pf);
            var n := |ev.evals|;
            && n <= |rules|
            && (forall i :: 0 <= i < n ==> Match.Eval(rules[i].when, signals, pf).Ok?)
            && (forall i :: 0 <= i < n ==> ev.evals[i] == EvalRule(rules[i], Fires(rules[i], signals, pf), degraded))
            && (ev.failure == NoReason ==> n == |rules|)
            && (ev.failure != NoReason ==>
                  && n < |rules| && Match.Eval(rules[n].when, signals, pf).Err?
                  && ev.failure == MatchFailed(rules[n].id, Match.Eval(rules[n].when, signals, pf).error))
  {
    if rules != [] && Match.Eval(rules[0].when, signals, pf).Ok? {
      EvaluationShape(rules[1..], signals, degraded, pf);
    }
  }

  lemma FailureIff(rules: seq<Rule>, typ: string, signals: Object, degraded: set<string>, pf: Match.Parser)
    ensures EvaluateRules(FilterType(rules, typ), signals, degraded, pf).failure != NoReason <==>
              AnyFails(rules, typ, signals, pf)
  {
    var typed := FilterType(rules, typ);
    EvaluationShape(typed, signals, degraded, pf);
    FilterMembers(rules, r => HasType(r, typ));
    var n := |EvaluateRules(typed, signals, degraded, pf).evals|;
    if n < |typed| {
      assert typed[n] in rules && HasType(typed[n], typ);
    }
    if AnyFails(rules, typ, signals, pf) {
      var i :| 0 <= i < |rules| && Fails(rules[i], typ, signals, pf);
      assert rules[i] in typed;
    }
  }

  lemma {:induction false} SplitCharacterized(rules: seq<Rule>, signals: Object, degraded: set<string>,
                                              pf: Match.Parser)
    requires EvaluateRules(rules, signals, degraded, pf).failure == NoReason
    ensures var evals := EvaluateRules(rules, signals, degraded, pf).evals;
            && Candidates(evals) == Filter(rules, r => Fires(r, signals, pf))
            && Active(evals) == Filter(rules, r => Fires(r, signals, pf) && !IsSuppressed(r, degraded))
  {
    if rules != [] {
      SplitCharacterized(rules[1..], signals, degraded, pf);
      SuppressedByEmpty(rules[0], degraded);
      var evals := EvaluateRules(rules, signals, degraded, pf).evals;
      assert evals[1..] == EvaluateRules(rules[1..], signals, degraded, pf).evals;
    }
  }

  /** Without failures the split yields the matched and the active rules, in their order. */
  lemma SplitIsFilter(rules: seq<Rule>, typ: string, signals: Object, degraded: set<string>, pf: Match.Parser)
    requires !AnyFails(rules, typ, signals, pf)
    ensures var evals := EvaluateRules(FilterType(rules, typ), signals, degraded, pf).evals;
            && Candidates(evals) == MatchedRules(rules, typ, signals, pf)
            && Active(evals) == ActiveRules(rules, typ, signals, degraded, pf)
  {
    FailureIff(rules, typ, signals, degraded, pf);
    SplitCharacterized(FilterType(rules, typ), signals, degraded, pf);
    FilterTwice(rules, r => HasType(r, typ), r => Fires(r, signals, pf), r => IsMatched(r, typ, signals, pf));
    FilterTwice(rules, r => HasType(r, typ), r => Fires(r, signals, pf) && !IsSuppressed(r, degraded),
                r => IsActive(r, typ, signals, degraded, pf));
  }

  // ---------------------------------------------------------------- selection

  lemma ContendersAtBest(active: seq<Rule>, ordered: seq<Rule>)
    requires active != [] && multiset(ordered) == multiset(active)
    ensures ordered != [] && multiset(AtBest(ordered)) == multiset(Contenders(active))
    ensures ordered == active ==> AtBest(ordered) == Contenders(active)
  {
    SingletonPermutation(ordered, active);
    var best := MinPriority(ordered);
    MinPriorityBound(ordered);
    forall r | r in ordered ensures Near(best, r) == Contends(r, active) {
      SameMembers(ordered, active);
    }
    FilterCongruence(ordered, r => Near(best, r), r => Contends(r, active));
    FilterPermutation(ordered, active, r => Contends(r, active));
  }

  lemma SameMembers(xs: seq<Rule>, ys: seq<Rule>)
    requires multiset(xs) == multiset(ys)
    ensures forall r :: r in xs <==> r in ys
  {
    forall r ensures r in xs <==> r in ys {
      assert r in multiset(xs) <==> r in multiset(ys);
    }
  }

  lemma ContendersTyped(active: seq<Rule>, typ: string)
    requires forall r :: r in active ==> r.typ == typ
    ensures forall i :: 0 <= i < |Contenders(active)| ==>
              Contenders(active)[i].typ == typ && Contenders(active)[i] in active
  {
    FilterMembers(active, r => Contends(r, active));
    forall i | 0 <= i < |Contenders(active)| ensures Contenders(active)[i] in active {
      assert Contenders(active)[i] in Contenders(active);
    }
  }

  /** Selection on any admissible order reaches the declarative verdict. */
  lemma SelectVerdict(typ: string, candidates: seq<Rule>, active: seq<Rule>, ordered: seq<Rule>)
    requires typ in RULE_TYPES && OrderFor(typ, active, ordered)
    requires forall r :: r in active ==> r.typ == typ
    requires candidates == [] ==> active == []
    ensures Verdict(active, Select(typ, candidates, ordered))
  {
    SingletonPermutation(active, ordered);
    if active != [] {
      ContendersAtBest(active, ordered);
      SingletonPermutation(AtBest(ordered), Contenders(active));
      MapPermutation(AtBest(ordered), Contenders(active), IdOf);
      ContendersTyped(active, typ);
      MinPriorityBound(ordered);
      SameMembers(ordered, active);
    }
  }

  lemma SelectedRoutes(typ: string, candidates: seq<Rule>, active: seq<Rule>, ordered: seq<Rule>)
    requires OrderFor(typ, active, ordered) && (candidates == [] ==> active == [])
    ensures var routes := Select(typ, candidates, ordered).routeCandidates;
            if typ != "route" then routes == []
            else multiset(routes) == multiset(Map(Filter(active, HasRoute), CandidateOf)) && RoutesOrdered(routes)
  {
    var routes := Select(typ, candidates, ordered).routeCandidates;
    SingletonPermutation(active, ordered);
    assert routes == RouteCandidatesOf(typ, ordered) by {
      SelectKeepsRoutes(typ, candidates, ordered);
    }
    if typ == "route" {
      FilterPermutation(ordered, active, HasRoute);
      MapPermutation(Filter(ordered, HasRoute), Filter(active, HasRoute), CandidateOf);
      FilterSorted(ordered);
    }
  }

  lemma SelectKeepsRoutes(typ: string, candidates: seq<Rule>, ordered: seq<Rule>)
    requires candidates == [] ==> ordered == []
    ensures Select(typ, candidates, ordered).routeCandidates == RouteCandidatesOf(typ, ordered)
  {
    if ordered != [] {
      MinPriorityBound(ordered);
    }
  }

  /** Route resolution offers every active rule that has a route, best priority first and ties by rule id; other
      kinds offer none. */
  lemma RouteCandidatesMeaning(rules: seq<Rule>, signals: Object, degraded: set<string>, typ: string, withTrace: bool,
                               pf: Match.Parser, res: Outcome)
    requires typ in RULE_TYPES && IsOutcome(rules, signals, degraded, typ, withTrace, pf, res)
    requires !AnyFails(rules, typ, signals, pf)
    ensures typ != "route" ==> res.routeCandidates == []
    ensures typ == "route" ==>
              var offered := Filter(ActiveRules(rules, typ, signals, degraded, pf), HasRoute);
              multiset(res.routeCandidates) == multiset(Map(offered, CandidateOf)) && RoutesOrdered(res.routeCandidates)
  {
    FailureIff(rules, typ, signals, degraded, pf);
    SplitIsFilter(rules, typ, signals, degraded, pf);
    ActiveTyped(rules, typ, signals, degraded, pf);
    var ev := EvaluateRules(FilterType(rules, typ), signals, degraded, pf);
    var trace := if withTrace then TraceFrom(ev.evals) else [];
    var ordered :|
      OrderFor(typ, Active(ev.evals), ordered) && res == Select(typ, Candidates(ev.evals), ordered).(trace := trace);
    SelectedRoutes(typ, Candidates(ev.evals), Active(ev.evals), ordered);
  }

  predicate RoutesOrdered(routes: seq<RouteCandidate>) {
    forall i, j :: 0 <= i < j < |routes| ==>
      routes[i].priority < routes[j].priority
      || (routes[i].priority == routes[j].priority && AtMost(routes[i].ruleID, routes[j].ruleID))
  }

  lemma {:induction false} FilterSorted(ordered: seq<Rule>)
    requires Sorted(ordered)
    ensures Sorted(Filter(ordered, HasRoute))
    ensures RoutesOrdered(Map(Filter(ordered, HasRoute), CandidateOf))
  {
    if ordered != [] {
      var rest, kept := ordered[1..], Filter(ordered[1..], HasRoute);
      FilterSorted(rest);
      FilterMembers(rest, HasRoute);
      forall j | 0 <= j < |kept| ensures !Less(kept[j], ordered[0]) {
        assert kept[j] in kept;
        var k :| 0 <= k < |rest| && rest[k] == kept[j];
        assert ordered[k + 1] == rest[k];
      }
    }
  }

  lemma ActiveTyped(rules: seq<Rule>, typ: string, signals: Object, degraded: set<string>, pf: Match.Parser)
    ensures var active := ActiveRules(rules, typ, signals, degraded, pf);
            forall r :: r in active <==> r in rules && IsActive(r, typ, signals, degraded, pf)
    ensures MatchedRules(rules, typ, signals, pf) == [] ==> ActiveRules(rules, typ, signals, degraded, pf) == []
  {
    var active, matched := ActiveRules(rules, typ, signals, degraded, pf), MatchedRules(rules, typ, signals, pf);
    FilterMembers(rules, r => IsActive(r, typ, signals, degraded, pf));
    FilterMembers(rules, r => IsMatched(r, typ, signals, pf));
    if active != [] {
      assert active[0] in active;
      assert active[0] in matched;
    }
  }

  /** The outcome of every resolution of a known rule type: unsupported when some typed clause fails, and
      otherwise the verdict on the active rules. */
  lemma OutcomeCharacterized(rules: seq<Rule>, signals: Object, degraded: set<string>, typ: string, withTrace: bool,
                             pf: Match.Parser, res: Outcome)
    requires typ in RULE_TYPES && IsOutcome(rules, signals, degraded, typ, withTrace, pf, res)
    ensures AnyFails(rules, typ, signals, pf) ==> res.kind == Unsupported && res.reason.MatchFailed?
    ensures !AnyFails(rules, typ, signals, pf) ==> Verdict(ActiveRules(rules, typ, signals, degraded, pf), res)
  {
    FailureIff(rules, typ, signals, degraded, pf);
    EvaluationShape(FilterType(rules, typ), signals, degraded, pf);
    if !AnyFails(rules, typ, signals, pf) {
      SplitIsFilter(rules, typ, signals, degraded, pf);
      ActiveTyped(rules, typ, signals, degraded, pf);
      var ev := EvaluateRules(FilterType(rules, typ), signals, degraded, pf);
      var trace := if withTrace then TraceFrom(ev.evals) else [];
      var ordered :| OrderFor(typ, Active(ev.evals), ordered) &&
                     res == Select(typ, Candidates(ev.evals), ordered).(trace := trace);
      SelectVerdict(typ, Candidates(ev.evals), Active(ev.evals), ordered);
    }
  }

  // ---------------------------------------------------------------- order independence

  lemma VerdictPermutation(active: seq<Rule>, active': seq<Rule>, res: Outcome, res': Outcome)
    requires multiset(active) == multiset(active')
    requires Verdict(active, res) && Verdict(active', res')
    ensures res.kind == res'.kind
    ensures res.kind == Resolved ==> res.priority == res'.priority && exists w :: Names(res, w) && Names(res', w)
    ensures res.kind == Ambiguous ==>
              res.priority == res'.priority && multiset(res.candidates) == multiset(res'.candidates)
    ensures res.kind == Unsupported ==> res.reason == res'.reason
  {
    SingletonPermutation(active, active');
    SameMembers(active, active');
    FilterPermutation(active, active', r => Contends(r, active));
    FilterCongruence(active', r => Contends(r, active), r => Contends(r, active'));
    SingletonPermutation(Contenders(active), Contenders(active'));
    MapPermutation(Contenders(active), Contenders(active'), IdOf);
  }

  /** What an outcome leaves blank, and the reason it gives. */
  predicate Shaped(noMatch: bool, res: Outcome) {
    && (res.kind != Resolved ==> res.stateID == res.routeID == res.guardID == res.targetID == res.ruleID == "")
    && (res.kind != Ambiguous ==> res.candidates == [])
    && (res.kind in {Degraded, Unsupported} ==> res.priority == 0.0)
    && match res.kind
       case Resolved => res.reason == NoReason
       case Ambiguous => res.reason == MultipleBest
       case Degraded => res.reason == if noMatch then NoMatch else AllSuppressed
       case Unsupported => res.reason.MissingTarget?
  }

  lemma SelectShaped(typ: string, candidates: seq<Rule>, ordered: seq<Rule>)
    ensures Shaped(candidates == [], Select(typ, candidates, ordered))
  {
  }

  lemma OutcomeShaped(rules: seq<Rule>, signals: Object, degraded: set<string>, typ: string, withTrace: bool,
                      pf: Match.Parser, res: Outcome)
    requires typ in RULE_TYPES && IsOutcome(rules, signals, degraded, typ, withTrace, pf, res)
    ensures AnyFails(rules, typ, signals, pf) ==>
              res.reason.MatchFailed? && res.(trace := []) == BLANK.(reason := res.reason)
    ensures !AnyFails(rules, typ, signals, pf) ==> Shaped(MatchedRules(rules, typ, signals, pf) == [], res)
  {
    FailureIff(rules, typ, signals, degraded, pf);
    EvaluationShape(FilterType(rules, typ), signals, degraded, pf);
    if !AnyFails(rules, typ, signals, pf) {
      SplitIsFilter(rules, typ, signals, degraded, pf);
      var ev := EvaluateRules(FilterType(rules, typ), signals, degraded, pf);
      var trace := if withTrace then TraceFrom(ev.evals) else [];
      var ordered :|
        OrderFor(typ, Active(ev.evals), ordered) && res == Select(typ, Candidates(ev.evals), ordered).(trace := trace);
      SelectShaped(typ, Candidates(ev.evals), ordered);
    }
  }

  /** The same decision in every field: only the order of the candidate lists, the trace and the choice of the failing
      rule that is reported may differ. */
  ghost predicate SameDecision(a: Outcome, b: Outcome) {
    && a.kind == b.kind && a.ruleID == b.ruleID && a.targetID == b.targetID && a.priority == b.priority
    && a.stateID == b.stateID && a.routeID == b.routeID && a.guardID == b.guardID
    && (a.reason == b.reason || (a.reason.MatchFailed? && b.reason.MatchFailed?))
    && multiset(a.candidates) == multiset(b.candidates)
    && multiset(a.routeCandidates) == multiset(b.routeCandidates)
  }

  /** Permuting the rules changes no decision, whatever the sort does with ties. */
  lemma OrderIndependent(rules: seq<Rule>, rules': seq<Rule>, signals: Object, degraded: set<string>, typ: string,
                         withTrace: bool, withTrace': bool, pf: Match.Parser, res: Outcome, res': Outcome)
    requires multiset(rules) == multiset(rules')
    requires IsOutcome(rules, signals, degraded, typ, withTrace, pf, res)
    requires IsOutcome(rules', signals, degraded, typ, withTrace', pf, res')
    ensures SameDecision(res, res')
  {
    if typ in RULE_TYPES {
      OutcomeShaped(rules, signals, degraded, typ, withTrace, pf, res);
      OutcomeShaped(rules', signals, degraded, typ, withTrace', pf, res');
      SameMembers(rules, rules');
      AnyFailsMembers(rules, rules', typ, signals, pf);
      AnyFailsMembers(rules', rules, typ, signals, pf);
      if !AnyFails(rules, typ, signals, pf) {
        UnfailingIndependent(rules, rules', signals, degraded, typ, withTrace, withTrace', pf, res, res');
      }
    }
  }

  lemma UnfailingIndependent(rules: seq<Rule>, rules': seq<Rule>, signals: Object, degraded: set<string>, typ: string,
                             withTrace: bool, withTrace': bool, pf: Match.Parser, res: Outcome, res': Outcome)
    requires multiset(rules) == multiset(rules') && typ in RULE_TYPES
    requires IsOutcome(rules, signals, degraded, typ, withTrace, pf, res)
    requires IsOutcome(rules', signals, degraded, typ, withTrace', pf, res')
    requires !AnyFails(rules, typ, signals, pf) && !AnyFails(rules', typ, signals, pf)
    requires Shaped(MatchedRules(rules, typ, signals, pf) == [], res)
             && Shaped(MatchedRules(rules', typ, signals, pf) == [], res')
    ensures SameDecision(res, res')
  {
    OutcomeCharacterized(rules, signals, degraded, typ, withTrace, pf, res);
    OutcomeCharacterized(rules', signals, degraded, typ, withTrace', pf, res');
    FilterPermutation(rules, rules', r => IsActive(r, typ, signals, degraded, pf));
    FilterPermutation(rules, rules', r => IsMatched(r, typ, signals, pf));
    SingletonPermutation(MatchedRules(rules, typ, signals, pf), MatchedRules(rules', typ, signals, pf));
    var active, active' := ActiveRules(rules, typ, signals, degraded, pf),
      ActiveRules(rules', typ, signals, degraded, pf);
    VerdictPermutation(active, active', res, res');
    RouteCandidatesMeaning(rules, signals, degraded, typ, withTrace, pf, res);
    RouteCandidatesMeaning(rules', signals, degraded, typ, withTrace', pf, res');
    FilterPermutation(active, active', HasRoute);
    MapPermutation(Filter(active, HasRoute), Filter(active', HasRoute), CandidateOf);
  }

  lemma AnyFailsMembers(rules: seq<Rule>, rules': seq<Rule>, typ: string, signals: Object, pf: Match.Parser)
    requires forall r :: r in rules ==> r in rules'
    ensures AnyFails(rules, typ, signals, pf) ==> AnyFails(rules', typ, signals, pf)
  {
    if AnyFails(rules, typ, signals, pf) {
      var i :| 0 <= i < |rules| && Fails(rules[i], typ, signals, pf);
      assert rules[i] in rules';
      var j :| 0 <= j < |rules'| && rules'[j] == rules[i];
      assert Fails(rules'[j], typ, signals, pf);
    }
  }

  // ---------------------------------------------------------------- trace

  /** Erasing the trace of a traced resolution leaves exactly an untraced one, and conversely. */
  lemma TraceErasure(rules: seq<Rule>, signals: Object, degraded: set<string>, typ: string, pf: Match.Parser,
                     res: Outcome)
    ensures IsOutcome(rules, signals, degraded, typ, true, pf, res) ==>
            IsOutcome(rules, signals, degraded, typ, false, pf, res.(trace := []))
    ensures IsOutcome(rules, signals, degraded, typ, false, pf, res) ==>
            exists traced :: IsOutcome(rules, signals, degraded, typ, true, pf, traced) && traced.(trace := []) == res
  {
    var ev := EvaluateRules(FilterType(rules, typ), signals, degraded, pf);
    if IsOutcome(rules, signals, degraded, typ, false, pf, res) {
      var traced := if typ in RULE_TYPES then res.(trace := TraceFrom(ev.evals)) else res;
      assert IsOutcome(rules, signals, degraded, typ, true, pf, traced);
    }
  }

  /** The trace has one entry per typed rule in order, or exactly the prefix before the first failing rule. */
  lemma TraceShape(rules: seq<Rule>, signals: Object, degraded: set<string>, typ: string, pf: Match.Parser,
                   res: Outcome)
    requires typ in RULE_TYPES && IsOutcome(rules, signals, degraded, typ, true, pf, res)
    ensures var typed := FilterType(rules, typ);
            var n := |res.trace|;
            && n <= |typed|
            && (forall i :: 0 <= i < n ==> !Fails(typed[i], typ, signals, pf))
            && (forall i :: 0 <= i < n ==>
                  res.trace[i] == EntryOf(EvalRule(typed[i], Fires(typed[i], signals, pf), degraded)))
            && (if AnyFails(rules, typ, signals, pf) then n < |typed| && Fails(typed[n], typ, signals, pf)
                else n == |typed|)
  {
    var typed := FilterType(rules, typ);
    FilterMembers(rules, r => HasType(r, typ));
    assert forall i :: 0 <= i < |typed| ==> typed[i] in typed;
    EvaluationShape(typed, signals, degraded, pf);
    FailureIff(rules, typ, signals, degraded, pf);
  }

  /** Kind and target recomputed from trace entries alone. */
  datatype Replayed = Replayed(kind: Kind, targetID: string)

  predicate Live(e: TraceEntry) {
    e.matched && !e.suppressed
  }

  ghost predicate Leads(e: TraceEntry, live: seq<TraceEntry>) {
    forall f :: f in live ==> e.priority <= f.priority + EPSILON
  }

  ghost function Replay(trace: seq<TraceEntry>): Replayed {
    var live := Filter(trace, Live);
    var best := Filter(live, e => Leads(e, live));
    if live == [] then Replayed(Degraded, "")
    else if |best| != 1 then Replayed(Ambiguous, "")
    else if best[0].targetID == "" then Replayed(Unsupported, "")
    else Replayed(Resolved, best[0].targetID)
  }

  ghost function EntryFor(degraded: set<string>): Rule -> TraceEntry {
    r => EntryOf(EvalRule(r, true, degraded))
  }

  /** The live trace entries are the entries of the active rules, in order. */
  lemma {:induction false} LiveEntries(rules: seq<Rule>, signals: Object, degraded: set<string>, pf: Match.Parser)
    requires EvaluateRules(rules, signals, degraded, pf).failure == NoReason
    ensures Filter(TraceFrom(EvaluateRules(rules, signals, degraded, pf).evals), Live) ==
            Map(Active(EvaluateRules(rules, signals, degraded, pf).evals), EntryFor(degraded))
  {
    if rules != [] {
      LiveEntries(rules[1..], signals, degraded, pf);
      var ev := EvaluateRules(rules, signals, degraded, pf);
      assert ev.evals[1..] == EvaluateRules(rules[1..], signals, degraded, pf).evals;
      var e := ev.evals[0];
      if e.matched && e.suppressedBy == [] {
        assert Active(ev.evals) == [rules[0]] + Active(ev.evals[1..]);
      }
    }
  }

  lemma {:induction false} LeadersAreContenders(rules: seq<Rule>, active: seq<Rule>, live: seq<TraceEntry>,
                                                degraded: set<string>)
    requires live == Map(active, EntryFor(degraded))
    ensures Filter(Map(rules, EntryFor(degraded)), e => Leads(e, live)) ==
            Map(Filter(rules, r => Contends(r, active)), EntryFor(degraded))
  {
    if rules != [] {
      LeadersAreContenders(rules[1..], active, live, degraded);
      var r := rules[0];
      assert Leads(EntryFor(degraded)(r), live) == Contends(r, active) by {
        forall s | s in active ensures EntryFor(degraded)(s) in live {
          var i :| 0 <= i < |active| && active[i] == s;
          assert live[i] == EntryFor(degraded)(s);
        }
        forall f | f in live ensures exists s :: s in active && f == EntryFor(degraded)(s) {
          var i :| 0 <= i < |live| && live[i] == f;
          assert active[i] in active;
        }
      }
      assert Map(rules, EntryFor(degraded))[1..] == Map(rules[1..], EntryFor(degraded));
    }
  }

  /** Without an evaluation error the trace alone determines kind and target. */
  lemma TraceReplay(rules: seq<Rule>, signals: Object, degraded: set<string>, typ: string, pf: Match.Parser,
                    res: Outcome)
    requires typ in RULE_TYPES && IsOutcome(rules, signals, degraded, typ, true, pf, res)
    requires !AnyFails(rules, typ, signals, pf)
    ensures Replay(res.trace) == Replayed(res.kind, res.targetID)
  {
    OutcomeCharacterized(rules, signals, degraded, typ, true, pf, res);
    SplitIsFilter(rules, typ, signals, degraded, pf);
    FailureIff(rules, typ, signals, degraded, pf);
    ActiveTyped(rules, typ, signals, degraded, pf);
    var ev := EvaluateRules(FilterType(rules, typ), signals, degraded, pf);
    var active := Active(ev.evals);
    LiveEntries(FilterType(rules, typ), signals, degraded, pf);
    LeadersAreContenders(active, active, Filter(res.trace, Live), degraded);
    ContendersTyped(active, typ);
    UndecidedHasNoTarget(rules, signals, degraded, typ, pf, res);
    if active != [] {
      ContendersAtBest(active, active);
    }
  }

  lemma UndecidedHasNoTarget(rules: seq<Rule>, signals: Object, degraded: set<string>, typ: string, pf: Match.Parser,
                             res: Outcome)
    requires typ in RULE_TYPES && IsOutcome(rules, signals, degraded, typ, true, pf, res)
    ensures res.kind != Resolved ==> res.targetID == ""
  {
    OutcomeShaped(rules, signals, degraded, typ, true, pf, res);
  }

  // ---------------------------------------------------------------- degradation

  /** Enlarging the degraded set keeps the matched rules and only removes active ones; a degraded outcome stays
      degraded, and a winner that depends on no newly degraded provider stays the winner. */
  lemma DegradationMonotone(rules: seq<Rule>, signals: Object, degraded: set<string>, more: set<string>, typ: string,
                            withTrace: bool, pf: Match.Parser, res: Outcome, res': Outcome)
    requires degraded <= more
    requires IsOutcome(rules, signals, degraded, typ, withTrace, pf, res)
    requires IsOutcome(rules, signals, more, typ, withTrace, pf, res')
    ensures forall r :: IsActive(r, typ, signals, more, pf) ==> IsActive(r, typ, signals, degraded, pf)
    ensures res.kind == Degraded ==> res'.kind == Degraded
    ensures res.kind == Unsupported && res.reason.MatchFailed? ==> res'.kind == Unsupported
    ensures res.kind == Resolved ==>
              var best := Contenders(ActiveRules(rules, typ, signals, degraded, pf));
              && |best| == 1 && best[0] in rules && best[0].id == res.ruleID && TargetOf(best[0]) == res.targetID
              && (!IsSuppressed(best[0], more) ==>
                    res'.kind == Resolved && res'.ruleID == res.ruleID && res'.targetID == res.targetID)
  {
    if typ in RULE_TYPES {
      OutcomeCharacterized(rules, signals, degraded, typ, withTrace, pf, res);
      OutcomeCharacterized(rules, signals, more, typ, withTrace, pf, res');
      ActiveTyped(rules, typ, signals, degraded, pf);
      ActiveTyped(rules, typ, signals, more, pf);
      if !AnyFails(rules, typ, signals, pf) {
        FewerActive(rules, signals, degraded, more, typ, pf);
      }
    }
  }

  lemma FewerActive(rules: seq<Rule>, signals: Object, degraded: set<string>, more: set<string>, typ: string,
                    pf: Match.Parser)
    requires degraded <= more
    ensures var active, fewer := ActiveRules(rules, typ, signals, degraded, pf),
            ActiveRules(rules, typ, signals, more, pf);
            && (active == [] ==> fewer == [])
            && (|Contenders(active)| == 1 ==>
                  && Contenders(active)[0] in rules
                  && (!IsSuppressed(Contenders(active)[0], more) ==>
                        fewer != [] && Contenders(fewer) == Contenders(active)))
  {
    var active, fewer := ActiveRules(rules, typ, signals, degraded, pf), ActiveRules(rules, typ, signals, more, pf);
    ActiveTyped(rules, typ, signals, degraded, pf);
    ActiveTyped(rules, typ, signals, more, pf);
    if fewer != [] {
      assert fewer[0] in fewer;
    }
    if |Contenders(active)| == 1 {
      var w := Contenders(active)[0];
      ContendersTyped(active, typ);
      if !IsSuppressed(w, more) {
        FilterTwice(rules, r => IsActive(r, typ, signals, degraded, pf), r => !IsSuppressed(r, more),
                    r => IsActive(r, typ, signals, more, pf));
        WinnerStays(active, fewer, more, w);
      }
    }
  }

  /** Removing rivals of the only contender leaves it the only contender. */
  lemma WinnerStays(active: seq<Rule>, fewer: seq<Rule>, more: set<string>, w: Rule)
    requires Contenders(active) == [w] && fewer == Filter(active, r => !IsSuppressed(r, more))
    requires !IsSuppressed(w, more)
    ensures fewer != [] && Contenders(fewer) == [w]
  {
    FilterMembers(active, r => !IsSuppressed(r, more));
    FilterMembers(active, r => Contends(r, active));
    FilterMembers(fewer, r => Contends(r, fewer));
    assert w in Contenders(active);
    assert w in fewer;
    forall r | r in fewer ensures Contends(r, fewer) == Contends(r, active) {
      if Contends(r, fewer) {
        OnlyContender(active, w);
      }
    }
    FilterCongruence(fewer, r => Contends(r, fewer), r => Contends(r, active));
    FilterTwice(active, r => !IsSuppressed(r, more), r => Contends(r, active),
                r => !IsSuppressed(r, more) && Contends(r, active));
    FilterTwice(active, r => Contends(r, active), r => !IsSuppressed(r, more),
                r => !IsSuppressed(r, more) && Contends(r, active));
    assert Filter([w], r => !IsSuppressed(r, more)) == [w];
  }

  /** The only contender is strictly below every other rule by more than the epsilon. */
  lemma OnlyContender(active: seq<Rule>, w: Rule)
    requires Contenders(active) == [w]
    ensures forall r :: r in active && r != w ==> w.priority + EPSILON < r.priority
  {
    FilterMembers(active, r => Contends(r, active));
    assert w in Contenders(active);
    MinPriorityBound(active);
    var best :| best in active && best.priority == MinPriority(active);
    assert best in Contenders(active);
    assert best == w;
    forall r | r in active && r != w ensures w.priority + EPSILON < r.priority {
      assert r !in Contenders(active);
    }
  }

  // ---------------------------------------------------------------- literals of the resolver

  /** Two priorities tie when they are at most one billionth apart. */
  lemma TieMeaning(a: real, b: real)
    ensures NearlyEqual(a, b) <==> a - b <= 1.0 / 1000000000.0 && b - a <= 1.0 / 1000000000.0
  {
  }

  /** Only the three rule kinds can be resolved. */
  lemma KindsResolved(rules: seq<Rule>, signals: Object, degraded: set<string>, typ: string, withTrace: bool,
                      pf: Match.Parser, res: Outcome)
    requires IsOutcome(rules, signals, degraded, typ, withTrace, pf, res)
    ensures res.reason == BadRuleType <==> typ != "state" && typ != "route" && typ != "guard"
    ensures res.reason == BadRuleType ==> res.kind == Unsupported && res.trace == [] && res.candidates == []
  {
    if typ in RULE_TYPES {
      OutcomeShaped(rules, signals, degraded, typ, withTrace, pf, res);
    }
  }

  /** What the trace tells of each rule. */
  lemma TraceTells(r: Rule, signals: Object, degraded: set<string>, pf: Match.Parser)
    ensures var e := EntryOf(EvalRule(r, Fires(r, signals, pf), degraded));
            && e.ruleID == r.id && e.typ == r.typ && e.priority == r.priority
            && (e.matched <==> Match.Eval(r.when, signals, pf) == Ok(true))
            && (r.typ == "state" ==> e.targetID == r.stateID) && (r.typ == "route" ==> e.targetID == r.routeID)
            && (r.typ == "guard" ==> e.targetID == r.guardID)
            && (r.typ !in {"state", "route", "guard"} ==> e.targetID == "")
            && (e.suppressed <==> e.matched && exists d :: d in r.dependsOn && d in degraded)
            && (forall d :: d in e.suppressedBy <==> e.matched && d in r.dependsOn && d in degraded)
  {
    SuppressedByEmpty(r, degraded);
    FilterMembers(r.dependsOn, d => d in degraded);
  }

  /** What candidates tell of a rule. */
  lemma CandidateTells(r: Rule)
    ensures IdOf(r) == r.id && CandidateOf(r) == RouteCandidate(r.id, r.routeID, r.priority)
    ensures HasRoute(r) <==> r.routeID != ""
  {
  }

  /** Scoping keeps exactly the guard rules of the id, each as often as it is declared. */
  lemma ScopeMeaning(rules: seq<Rule>, guardID: string, r: Rule)
    ensures multiset(ScopeGuard(rules, guardID))[r] ==
            if r.typ == "guard" && r.guardID == guardID then multiset(rules)[r] else 0
  {
    FilterCount(rules, (x: Rule) => x.typ == "guard" && x.guardID == guardID, r);
  }
}
