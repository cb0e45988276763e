/** Priority-based rule resolution (`internal/resolve`). */
module Resolve {
  import opened Json
  import opened Text
  import opened Filters
  import Match

  datatype Rule = Rule(
    when: Value, typ: string, id: string,
    stateID: string, routeID: string, guardID: string,
    dependsOn: seq<string>, priority: real)

  datatype Kind = Resolved | Ambiguous | Degraded | Unsupported

  datatype Reason =
    | NoReason | BadRuleType | MatchFailed(ruleID: string, error: Match.MatchError) | MissingTarget(missingFor: string)
    | NoMatch | AllSuppressed | MultipleBest

  datatype RouteCandidate = RouteCandidate(ruleID: string, routeID: string, priority: real)

  datatype TraceEntry = TraceEntry(
    ruleID: string, typ: string, targetID: string, priority: real,
    matched: bool, suppressed: bool, suppressedBy: seq<string>)

  datatype Outcome = Outcome(
    kind: Kind, stateID: string, routeID: string, guardID: string, targetID: string, ruleID: string,
    reason: Reason, candidates: seq<string>, routeCandidates: seq<RouteCandidate>, priority: real,
    trace: seq<TraceEntry>)

  const BLANK := Outcome(Unsupported, "", "", "", "", "", NoReason, [], [], 0.0, [])

  const EPSILON: real := 0.000000001

  const RULE_TYPES: set<string> := {"state", "route", "guard"}

  // ---------------------------------------------------------------- evaluation of the rules

  datatype RuleEval = RuleEval(rule: Rule, matched: bool, suppressedBy: seq<string>)

  datatype Evaluation = Evaluation(evals: seq<RuleEval>, failure: Reason)

  predicate HasType(r: Rule, typ: string) {
    r.typ == typ
  }

  function FilterType(rules: seq<Rule>, typ: string): seq<Rule> {
    Filter(rules, r => HasType(r, typ))
  }

  function SuppressedBy(r: Rule, degraded: set<string>): seq<string> {
    Filter(r.dependsOn, d => d in degraded)
  }

  function EvalRule(r: Rule, matched: bool, degraded: set<string>): RuleEval {
    RuleEval(r, matched, if matched && degraded != {} then SuppressedBy(r, degraded) else [])
  }

  /** `evaluateRules`: stops at the first rule whose clause fails. */
  function EvaluateRules(rules: seq<Rule>, signals: Object, degraded: set<string>, pf: Match.Parser): Evaluation {
    if rules == [] then Evaluation([], NoReason)
    else
      match Match.Eval(rules[0].when, signals, pf)
      case Err(e) => Evaluation([], MatchFailed(rules[0].id, e))
      case Ok(matched) =>
        var rest := EvaluateRules(rules[1..], signals, degraded, pf);
        Evaluation([EvalRule(rules[0], matched, degraded)] + rest.evals, rest.failure)
  }

  /** The evaluation `rest` continued after the entries `done`. */
  function After(done: seq<RuleEval>, rest: Evaluation): Evaluation {
    Evaluation(done + rest.evals, rest.failure)
  }

  lemma EvaluateNext(rules: seq<Rule>, signals: Object, degraded: set<string>, pf: Match.Parser, done: seq<RuleEval>)
    requires rules != [] && Match.Eval(rules[0].when, signals, pf).Ok?
    ensures var e := EvalRule(rules[0], Match.Eval(rules[0].when, signals, pf).value, degraded);
            After(done, EvaluateRules(rules, signals, degraded, pf)) ==
            After(done + [e], EvaluateRules(rules[1..], signals, degraded, pf))
  {
    var e := EvalRule(rules[0], Match.Eval(rules[0].when, signals, pf).value, degraded);
    var rest := EvaluateRules(rules[1..], signals, degraded, pf);
    assert done + ([e] + rest.evals) == (done + [e]) + rest.evals;
  }

  method RunSuppressedBy(r: Rule, degraded: set<string>) returns (found: seq<string>)
    ensures found == SuppressedBy(r, degraded)
  {
    found := [];
    for j := 0 to |r.dependsOn|
      invariant found == Filter(r.dependsOn[..j], d => d in degraded)
    {
      assert r.dependsOn[..j + 1] == r.dependsOn[..j] + [r.dependsOn[j]];
      FilterAppend(r.dependsOn[..j], [r.dependsOn[j]], d => d in degraded);
      if r.dependsOn[j] in degraded {
        found := found + [r.dependsOn[j]];
      }
    }
    assert r.dependsOn[..|r.dependsOn|] == r.dependsOn;
  }

  method RunEvaluateRules(rules: seq<Rule>, signals: Object, degraded: set<string>, pf: Match.Parser)
    returns (r: Evaluation)
    ensures r == EvaluateRules(rules, signals, degraded, pf)
  {
    var out: seq<RuleEval> := [];
    for i := 0 to |rules|
      invariant EvaluateRules(rules, signals, degraded, pf) ==
                After(out, EvaluateRules(rules[i..], signals, degraded, pf))
    {
      var verdict := Match.Eval(rules[i].when, signals, pf);
      if verdict.Err? {
        return Evaluation(out, MatchFailed(rules[i].id, verdict.error));
      }
      var suppressedBy: seq<string> := [];
      if verdict.value && degraded != {} {
        suppressedBy := RunSuppressedBy(rules[i], degraded);
      }
      EvaluateNext(rules[i..], signals, degraded, pf, out);
      assert rules[i..][1..] == rules[i + 1..];
      out := out + [RuleEval(rules[i], verdict.value, suppressedBy)];
    }
    return Evaluation(out, NoReason);
  }

  function RuleOf(e: RuleEval): Rule {
    e.rule
  }

  function Candidates(evals: seq<RuleEval>): seq<Rule> {
    Map(Filter(evals, (e: RuleEval) => e.matched), RuleOf)
  }

  function Active(evals: seq<RuleEval>): seq<Rule> {
    Map(Filter(evals, (e: RuleEval) => e.matched && e.suppressedBy == []), RuleOf)
  }

  /** `splitMatchedRules`. */
  method SplitMatchedRules(evals: seq<RuleEval>) returns (candidates: seq<Rule>, active: seq<Rule>)
    ensures candidates == Candidates(evals) && active == Active(evals)
  {
    candidates, active := [], [];
    for i := 0 to |evals|
      invariant candidates == Candidates(evals[..i]) && active == Active(evals[..i])
    {
      assert evals[..i + 1] == evals[..i] + [evals[i]];
      FilterAppend(evals[..i], [evals[i]], (e: RuleEval) => e.matched);
      FilterAppend(evals[..i], [evals[i]], (e: RuleEval) => e.matched && e.suppressedBy == []);
      if !evals[i].matched {
        continue;
      }
      candidates := candidates + [evals[i].rule];
      if |evals[i].suppressedBy| == 0 {
        active := active + [evals[i].rule];
      }
    }
    assert evals[..|evals|] == evals;
  }

  // ---------------------------------------------------------------- selection

  predicate NearlyEqual(a: real, b: real) {
    -EPSILON <= a - b <= EPSILON
  }

  function MinPriority(rules: seq<Rule>): real
    requires rules != []
  {
    if |rules| == 1 then rules[0].priority
    else
      var rest := MinPriority(rules[1..]);
      if rest < rules[0].priority then rest else rules[0].priority
  }

  /** `minPriority`. */
  method RunMinPriority(rules: seq<Rule>) returns (best: real)
    requires rules != []
    ensures forall r :: r in rules ==> best <= r.priority
    ensures exists r :: r in rules && r.priority == best
    ensures best == MinPriority(rules)
  {
    best := rules[0].priority;
    ghost var at := 0;
    for i := 1 to |rules|
      invariant 0 <= at < i && rules[at].priority == best
      invariant forall j :: 0 <= j < i ==> best <= rules[j].priority
    {
      if rules[i].priority < best {
        best := rules[i].priority;
        at := i;
      }
    }
    MinPriorityUnique(rules, best);
  }

  lemma {:induction false} MinPriorityBound(rules: seq<Rule>)
    requires rules != []
    ensures forall r :: r in rules ==> MinPriority(rules) <= r.priority
    ensures exists r :: r in rules && r.priority == MinPriority(rules)
  {
    if |rules| > 1 {
      MinPriorityBound(rules[1..]);
      assert rules == [rules[0]] + rules[1..];
      var r :| r in rules[1..] && r.priority == MinPriority(rules[1..]);
      assert rules[0] in rules && r in rules;
    } else {
      assert rules[0] in rules;
    }
  }

  lemma MinPriorityUnique(rules: seq<Rule>, best: real)
    requires rules != []
    requires forall j :: 0 <= j < |rules| ==> best <= rules[j].priority
    requires exists j :: 0 <= j < |rules| && rules[j].priority == best
    ensures best == MinPriority(rules)
  {
    MinPriorityBound(rules);
    var j :| 0 <= j < |rules| && rules[j].priority == best;
    assert rules[j] in rules;
  }

  /** The comparison that orders route rules. */
  predicate Less(a: Rule, b: Rule) {
    a.priority < b.priority || (a.priority == b.priority && Before(a.id, b.id))
  }

  predicate Sorted(rules: seq<Rule>) {
    forall i, j :: 0 <= i < j < |rules| ==> !Less(rules[j], rules[i])
  }

  lemma LessChain(a: Rule, b: Rule, c: Rule)
    requires !Less(b, a) && !Less(c, b)
    ensures !Less(c, a)
  {
    AtMostTotal(a.id, b.id);
    AtMostTotal(b.id, c.id);
    AtMostTotal(a.id, c.id);
    if AtMost(a.id, b.id) && AtMost(b.id, c.id) {
      AtMostTransitive(a.id, b.id, c.id);
    }
  }

  lemma LessAsymmetric(a: Rule, b: Rule)
    ensures !(Less(a, b) && Less(b, a))
  {
    AtMostTotal(a.id, b.id);
  }

  function Insert(r: Rule, rules: seq<Rule>): seq<Rule> {
    if rules == [] || Less(r, rules[0]) then [r] + rules else [rules[0]] + Insert(r, rules[1..])
  }

  /** One sort that meets the contract of `sort.Slice`, which leaves the order of equal elements open. */
  function SortRules(rules: seq<Rule>): seq<Rule> {
    if rules == [] then [] else Insert(rules[0], SortRules(rules[1..]))
  }

  lemma {:induction false} InsertPermutes(r: Rule, rules: seq<Rule>)
    ensures multiset(Insert(r, rules)) == multiset(rules) + multiset{r}
    ensures forall s :: s in Insert(r, rules) ==> s == r || s in rules
  {
    if !(rules == [] || Less(r, rules[0])) {
      InsertPermutes(r, rules[1..]);
      assert rules == [rules[0]] + rules[1..];
    }
  }

  lemma SortedCons(r: Rule, rules: seq<Rule>)
    requires Sorted(rules) && forall s :: s in rules ==> !Less(s, r)
    ensures Sorted([r] + rules)
  {
  }

  lemma {:induction false} InsertSorted(r: Rule, rules: seq<Rule>)
    requires Sorted(rules)
    ensures Sorted(Insert(r, rules))
  {
    if rules == [] || Less(r, rules[0]) {
      forall s | s in rules ensures !Less(s, r) {
        var j :| 0 <= j < |rules| && rules[j] == s;
        LessAsymmetric(r, rules[0]);
        if j > 0 {
          LessChain(r, rules[0], rules[j]);
        }
      }
      SortedCons(r, rules);
    } else {
      InsertSorted(r, rules[1..]);
      InsertPermutes(r, rules[1..]);
      SortedCons(rules[0], Insert(r, rules[1..]));
    }
  }

  lemma {:induction false} SortRulesSorts(rules: seq<Rule>)
    ensures multiset(SortRules(rules)) == multiset(rules) && Sorted(SortRules(rules))
  {
    if rules != [] {
      SortRulesSorts(rules[1..]);
      InsertSorted(rules[0], SortRules(rules[1..]));
      InsertPermutes(rules[0], SortRules(rules[1..]));
      assert rules == [rules[0]] + rules[1..];
    }
  }

  /** The orders `orderRulesForResolve` may hand to selection. */
  ghost predicate OrderFor(typ: string, active: seq<Rule>, ordered: seq<Rule>) {
    if typ == "route" then multiset(ordered) == multiset(active) && Sorted(ordered) else ordered == active
  }

  function RouteCandidatesOf(typ: string, ordered: seq<Rule>): seq<RouteCandidate> {
    if typ == "route" then Map(Filter(ordered, HasRoute), CandidateOf) else []
  }

  predicate HasRoute(r: Rule) {
    r.routeID != ""
  }

  function CandidateOf(r: Rule): RouteCandidate {
    RouteCandidate(r.id, r.routeID, r.priority)
  }

  method OrderRulesForResolve(typ: string, active: seq<Rule>) returns (ordered: seq<Rule>, routes: seq<RouteCandidate>)
    ensures OrderFor(typ, active, ordered) && routes == RouteCandidatesOf(typ, ordered)
  {
    if typ != "route" {
      return active, [];
    }
    SortRulesSorts(active);
    ordered := SortRules(active);
    routes := CollectRoutes(ordered);
  }

  method CollectRoutes(ordered: seq<Rule>) returns (routes: seq<RouteCandidate>)
    ensures routes == RouteCandidatesOf("route", ordered)
  {
    routes := [];
    for i := 0 to |ordered|
      invariant routes == Map(Filter(ordered[..i], HasRoute), CandidateOf)
    {
      assert ordered[..i + 1] == ordered[..i] + [ordered[i]];
      FilterAppend(ordered[..i], [ordered[i]], HasRoute);
      MapAppend(Filter(ordered[..i], HasRoute), Filter([ordered[i]], HasRoute), CandidateOf);
      if ordered[i].routeID == "" {
        continue;
      }
      routes := routes + [CandidateOf(ordered[i])];
    }
    assert ordered[..|ordered|] == ordered;
  }

  /** `ruleTargetID`. */
  function TargetOf(r: Rule): string {
    if r.typ == "state" then r.stateID
    else if r.typ == "route" then r.routeID
    else if r.typ == "guard" then r.guardID
    else ""
  }

  function AtBest(ordered: seq<Rule>): (atBest: seq<Rule>)
    requires ordered != []
    ensures atBest != []
  {
    var best := MinPriority(ordered);
    MinPriorityBound(ordered);
    FilterMembers(ordered, r => Near(best, r));
    Filter(ordered, r => Near(best, r))
  }

  function IdOf(r: Rule): string {
    r.id
  }

  /** `singleRuleResolveResult`. */
  function SingleResult(typ: string, r: Rule, routes: seq<RouteCandidate>): Outcome {
    if typ == "route" then
      if r.routeID == "" then BLANK.(reason := MissingTarget(r.id), routeCandidates := routes)
      else BLANK.(kind := Resolved, routeID := r.routeID, targetID := r.routeID, ruleID := r.id,
                  priority := r.priority, routeCandidates := routes)
    else if typ == "guard" then
      if r.guardID == "" then BLANK.(reason := MissingTarget(r.id))
      else BLANK.(kind := Resolved, guardID := r.guardID, targetID := r.guardID, ruleID := r.id, priority := r.priority)
    else
      if r.stateID == "" then BLANK.(reason := MissingTarget(r.id))
      else BLANK.(kind := Resolved, stateID := r.stateID, targetID := r.stateID, ruleID := r.id, priority := r.priority)
  }

  /** `selectFromActive` on rules already ordered. */
  function Select(typ: string, candidates: seq<Rule>, ordered: seq<Rule>): Outcome {
    if candidates == [] then BLANK.(kind := Degraded, reason := NoMatch)
    else if ordered == [] then BLANK.(kind := Degraded, reason := AllSuppressed)
    else
      var routes := RouteCandidatesOf(typ, ordered);
      var atBest := AtBest(ordered);
      if |atBest| > 1 then
        BLANK.(kind := Ambiguous, priority := MinPriority(ordered), candidates := Map(atBest, IdOf),
               routeCandidates := routes, reason := MultipleBest)
      else
        SingleResult(typ, atBest[0], routes)
  }

  predicate Near(best: real, r: Rule) {
    NearlyEqual(r.priority, best)
  }

  method CollectAtBest(ordered: seq<Rule>, best: real) returns (atBest: seq<Rule>)
    ensures atBest == Filter(ordered, r => Near(best, r))
  {
    atBest := [];
    for i := 0 to |ordered|
      invariant atBest == Filter(ordered[..i], r => Near(best, r))
    {
      assert ordered[..i + 1] == ordered[..i] + [ordered[i]];
      FilterAppend(ordered[..i], [ordered[i]], r => Near(best, r));
      if NearlyEqual(ordered[i].priority, best) {
        atBest := atBest + [ordered[i]];
      }
    }
    assert ordered[..|ordered|] == ordered;
  }

  lemma SomeOrder(typ: string, active: seq<Rule>) returns (ordered: seq<Rule>)
    ensures OrderFor(typ, active, ordered)
  {
    SortRulesSorts(active);
    ordered := if typ == "route" then SortRules(active) else active;
  }

  method SelectFromActive(typ: string, candidates: seq<Rule>, active: seq<Rule>) returns (res: Outcome)
    ensures exists ordered :: OrderFor(typ, active, ordered) && res == Select(typ, candidates, ordered)
  {
    ghost var some := SomeOrder(typ, active);
    SingletonPermutation(active, some);
    if |candidates| == 0 {
      return BLANK.(kind := Degraded, reason := NoMatch);
    }
    if |active| == 0 {
      return BLANK.(kind := Degraded, reason := AllSuppressed);
    }
    var ordered, routes := OrderRulesForResolve(typ, active);
    SingletonPermutation(active, ordered);
    var best := RunMinPriority(ordered);
    var atBest := CollectAtBest(ordered, best);
    assert atBest == AtBest(ordered);
    if |atBest| > 1 {
      res := BLANK.(kind := Ambiguous, priority := best, candidates := Map(atBest, IdOf),
                    routeCandidates := routes, reason := MultipleBest);
    } else {
      res := SingleResult(typ, atBest[0], routes);
    }
  }

  // ---------------------------------------------------------------- trace and entry points

  function EntryOf(e: RuleEval): TraceEntry {
    TraceEntry(e.rule.id, e.rule.typ, TargetOf(e.rule), e.rule.priority, e.matched, e.suppressedBy != [],
               e.suppressedBy)
  }

  /** `traceFromEvals`. */
  function TraceFrom(evals: seq<RuleEval>): seq<TraceEntry> {
    Map(evals, EntryOf)
  }

  /** `res` is a possible result of `resolveCore`; only ties in the route sort leave a choice. */
  ghost predicate IsOutcome(rules: seq<Rule>, signals: Object, degraded: set<string>, typ: string, withTrace: bool,
                            pf: Match.Parser, res: Outcome)
  {
    if typ !in RULE_TYPES then res == BLANK.(reason := BadRuleType)
    else
      var ev := EvaluateRules(FilterType(rules, typ), signals, degraded, pf);
      var trace := if withTrace then TraceFrom(ev.evals) else [];
      if ev.failure != NoReason then res == BLANK.(reason := ev.failure, trace := trace)
      else exists ordered :: OrderFor(typ, Active(ev.evals), ordered) &&
                             res == Select(typ, Candidates(ev.evals), ordered).(trace := trace)
  }

  method ResolveCore(rules: seq<Rule>, signals: Object, degraded: set<string>, typ: string, withTrace: bool,
                     pf: Match.Parser)
    returns (res: Outcome)
    ensures IsOutcome(rules, signals, degraded, typ, withTrace, pf, res)
  {
    if typ !in RULE_TYPES {
      return BLANK.(reason := BadRuleType);
    }
    var ev := RunEvaluateRules(FilterType(rules, typ), signals, degraded, pf);
    var trace := if withTrace then TraceFrom(ev.evals) else [];
    if ev.failure != NoReason {
      return BLANK.(reason := ev.failure, trace := trace);
    }
    var candidates, active := SplitMatchedRules(ev.evals);
    var selected := SelectFromActive(typ, candidates, active);
    res := selected.(trace := trace);
  }

  /** `scopeGuardRules`. */
  function ScopeGuard(rules: seq<Rule>, guardID: string): seq<Rule> {
    Filter(rules, (r: Rule) => r.typ == "guard" && r.guardID == guardID)
  }
}
