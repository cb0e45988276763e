/** Load-time duplicate-priority warnings, and how they relate to run-time ambiguity. */
module PriorityLint {
  import opened Results
  import opened Json
  import opened Filters
  import opened Resolve
  import opened ResolveTheorems
  import Match
  import MatchLaws

  datatype Warning =
    | SameKind(typ: string, priority: real, ids: seq<string>)
    | CrossKind(priority: real, ids: seq<string>)

  /** The ids of the rules of type `typ` at priority `p`, in order. */
  function IdsAt(rules: seq<Rule>, typ: string, p: real): seq<string> {
    Map(Filter(rules, (r: Rule) => r.typ == typ && r.priority == p), IdOf)
  }

  function GroupAt(rules: seq<Rule>, p: real): seq<Rule> {
    Filter(rules, (r: Rule) => r.priority == p)
  }

  predicate TwoTypes(group: seq<Rule>) {
    exists i, j :: 0 <= i < j < |group| && group[i].typ != group[j].typ
  }

  /** Exactly the groups of two or more rules of one type at one priority, and the groups at one priority that
      span two or more types. */
  ghost predicate IsWarning(rules: seq<Rule>, w: Warning) {
    match w
    case SameKind(typ, p, ids) => ids == IdsAt(rules, typ, p) && |ids| >= 2
    case CrossKind(p, ids) => TwoTypes(GroupAt(rules, p)) && ids == Map(GroupAt(rules, p), IdOf)
  }

  /** The exact decimal text of a priority, which identifies its value. */
  datatype Key = Key(exact: real)

  type ByType = map<(string, Key), seq<string>>
  type ByPriority = map<Key, seq<Rule>>

  ghost predicate GroupedByType(rules: seq<Rule>, byType: ByType) {
    && (forall t, p :: (t, Key(p)) in byType <==> IdsAt(rules, t, p) != [])
    && (forall t, p :: (t, Key(p)) in byType ==> byType[(t, Key(p))] == IdsAt(rules, t, p))
  }

  ghost predicate GroupedByPriority(rules: seq<Rule>, global: ByPriority) {
    && (forall p :: Key(p) in global <==> GroupAt(rules, p) != [])
    && (forall p :: Key(p) in global ==> global[Key(p)] == GroupAt(rules, p))
  }

  /** `DuplicatePriorityWarnings`, with exact priorities as keys and the final sort by text left out. */
  method DuplicatePriorityWarnings(rules: seq<Rule>) returns (warnings: set<Warning>)
    ensures forall w :: w in warnings <==> IsWarning(rules, w)
  {
    var byType := GroupByType(rules);
    var global := GroupByPriority(rules);
    var same := SameKindWarnings(rules, byType);
    var cross := CrossKindWarnings(rules, global);
    warnings := same + cross;
  }

  method GroupByType(rules: seq<Rule>) returns (byType: ByType)
    ensures GroupedByType(rules, byType)
  {
    byType := map[];
    for i := 0 to |rules|
      invariant GroupedByType(rules[..i], byType)
    {
      var r := rules[i];
      var key := (r.typ, Key(r.priority));
      AppendRule(rules[..i], r);
      assert rules[..i + 1] == rules[..i] + [r];
      byType := byType[key := (if key in byType then byType[key] else []) + [r.id]];
    }
    assert rules[..|rules|] == rules;
  }

  method GroupByPriority(rules: seq<Rule>) returns (global: ByPriority)
    ensures GroupedByPriority(rules, global)
  {
    global := map[];
    for i := 0 to |rules|
      invariant GroupedByPriority(rules[..i], global)
    {
      var r := rules[i];
      var key := Key(r.priority);
      AppendRule(rules[..i], r);
      assert rules[..i + 1] == rules[..i] + [r];
      global := global[key := (if key in global then global[key] else []) + [r]];
    }
    assert rules[..|rules|] == rules;
  }

  method SameKindWarnings(rules: seq<Rule>, byType: ByType) returns (warnings: set<Warning>)
    requires GroupedByType(rules, byType)
    ensures forall w :: w in warnings <==> w.SameKind? && IsWarning(rules, w)
  {
    warnings := {};
    var keys := byType.Keys;
    while keys != {}
      invariant keys <= byType.Keys
      invariant forall w :: w in warnings <==> w.SameKind? && IsWarning(rules, w) && (w.typ, Key(w.priority)) !in keys
      decreases keys
    {
      var key :| key in keys;
      if |byType[key]| >= 2 {
        warnings := warnings + {SameKind(key.0, key.1.exact, byType[key])};
      }
      keys := keys - {key};
    }
  }

  method CrossKindWarnings(rules: seq<Rule>, global: ByPriority) returns (warnings: set<Warning>)
    requires GroupedByPriority(rules, global)
    ensures forall w :: w in warnings <==> w.CrossKind? && IsWarning(rules, w)
  {
    warnings := {};
    var priorities := global.Keys;
    while priorities != {}
      invariant priorities <= global.Keys
      invariant forall w :: w in warnings <==> w.CrossKind? && IsWarning(rules, w) && Key(w.priority) !in priorities
      decreases priorities
    {
      var key :| key in priorities;
      var group := global[key];
      if TwoTypes(group) {
        warnings := warnings + {CrossKind(key.exact, Map(group, IdOf))};
      }
      priorities := priorities - {key};
    }
  }

  lemma AppendRule(rules: seq<Rule>, r: Rule)
    ensures forall t, p :: IdsAt(rules + [r], t, p) ==
                           IdsAt(rules, t, p) + if r.typ == t && r.priority == p then [r.id] else []
    ensures forall p :: GroupAt(rules + [r], p) == GroupAt(rules, p) + if r.priority == p then [r] else []
  {
    forall t, p ensures IdsAt(rules + [r], t, p) ==
                        IdsAt(rules, t, p) + if r.typ == t && r.priority == p then [r.id] else []
    {
      var keep := (x: Rule) => x.typ == t && x.priority == p;
      FilterAppend(rules, [r], keep);
      MapAppend(Filter(rules, keep), Filter([r], keep), IdOf);
    }
    forall p ensures GroupAt(rules + [r], p) == GroupAt(rules, p) + if r.priority == p then [r] else [] {
      FilterAppend(rules, [r], (x: Rule) => x.priority == p);
    }
  }

  predicate PairwiseDistinct(rules: seq<Rule>) {
    forall i, j :: 0 <= i < j < |rules| ==> rules[i].priority != rules[j].priority
  }

  lemma {:induction false} GroupOfTwo(rules: seq<Rule>, keep: Rule -> bool, i: nat, j: nat)
    requires i < j < |rules| && keep(rules[i]) && keep(rules[j])
    ensures |Filter(rules, keep)| >= 2
    ensures exists a, b ::
              0 <= a < b < |Filter(rules, keep)| && Filter(rules, keep)[a] == rules[i]
                && Filter(rules, keep)[b] == rules[j]
  {
    assert rules == rules[..i] + ([rules[i]] + (rules[i + 1..j] + ([rules[j]] + rules[j + 1..])));
    FilterAppend(rules[..i], [rules[i]] + (rules[i + 1..j] + ([rules[j]] + rules[j + 1..])), keep);
    FilterAppend([rules[i]], rules[i + 1..j] + ([rules[j]] + rules[j + 1..]), keep);
    FilterAppend(rules[i + 1..j], [rules[j]] + rules[j + 1..], keep);
    FilterAppend([rules[j]], rules[j + 1..], keep);
    var a := |Filter(rules[..i], keep)|;
    var b := a + 1 + |Filter(rules[i + 1..j], keep)|;
    assert Filter(rules, keep)[a] == rules[i] && Filter(rules, keep)[b] == rules[j];
  }

  lemma {:induction false} TwoOfGroup(rules: seq<Rule>, keep: Rule -> bool)
    requires |Filter(rules, keep)| >= 2
    ensures exists i, j :: 0 <= i < j < |rules| && keep(rules[i]) && keep(rules[j])
  {
    FilterMembers(rules[1..], keep);
    var rest := Filter(rules[1..], keep);
    if |rest| >= 2 {
      TwoOfGroup(rules[1..], keep);
      var i, j :| 0 <= i < j < |rules[1..]| && keep(rules[1..][i]) && keep(rules[1..][j]);
      assert keep(rules[i + 1]) && keep(rules[j + 1]);
    } else {
      assert rest[0] in rest;
      var j :| 0 <= j < |rules[1..]| && rules[1..][j] == rest[0];
      assert keep(rules[0]) && keep(rules[j + 1]);
    }
  }

  /** The lint is silent exactly when all priorities, across all rule kinds, are pairwise distinct. */
  lemma LintComplete(rules: seq<Rule>)
    ensures (forall w :: !IsWarning(rules, w)) <==> PairwiseDistinct(rules)
  {
    if !PairwiseDistinct(rules) {
      var i, j :| 0 <= i < j < |rules| && rules[i].priority == rules[j].priority;
      var p := rules[i].priority;
      if rules[i].typ == rules[j].typ {
        GroupOfTwo(rules, (r: Rule) => r.typ == rules[i].typ && r.priority == p, i, j);
        assert IsWarning(rules, SameKind(rules[i].typ, p, IdsAt(rules, rules[i].typ, p)));
      } else {
        GroupOfTwo(rules, (r: Rule) => r.priority == p, i, j);
        assert IsWarning(rules, CrossKind(p, Map(GroupAt(rules, p), IdOf)));
      }
    }
    forall w | IsWarning(rules, w) ensures !PairwiseDistinct(rules) {
      match w
      case SameKind(typ, p, _) => TwoOfGroup(rules, (r: Rule) => r.typ == typ && r.priority == p);
      case CrossKind(p, _) => TwoOfGroup(rules, (r: Rule) => r.priority == p);
    }
  }

  // ---------------------------------------------------------------- lint against ambiguity

  /** Rules of one type are more than the epsilon apart. */
  predicate Separated(rules: seq<Rule>, typ: string) {
    forall i, j :: 0 <= i < j < |rules| && rules[i].typ == typ && rules[j].typ == typ ==>
      !NearlyEqual(rules[i].priority, rules[j].priority)
  }

  /** Two active rules within the epsilon of each other that no active rule beats clearly. */
  lemma {:induction false} ContendersApart(rules: seq<Rule>, keep: Rule -> bool, active: seq<Rule>)
    requires |Filter(rules, keep)| >= 2
    requires forall r :: keep(r) ==> r in active && Contends(r, active)
    ensures exists i, j :: 0 <= i < j < |rules| && keep(rules[i]) && keep(rules[j])
                           && NearlyEqual(rules[i].priority, rules[j].priority)
  {
    TwoOfGroup(rules, keep);
    var i, j :| 0 <= i < j < |rules| && keep(rules[i]) && keep(rules[j]);
    assert Contends(rules[i], active) && Contends(rules[j], active);
  }

  /** Separated priorities are never ambiguous, whatever the clauses, signals and degraded providers. */
  lemma SeparatedNeverAmbiguous(rules: seq<Rule>, signals: Object, degraded: set<string>, typ: string, withTrace: bool,
                                pf: Match.Parser, res: Outcome)
    requires Separated(rules, typ) && IsOutcome(rules, signals, degraded, typ, withTrace, pf, res)
    ensures res.kind != Ambiguous
  {
    if typ in RULE_TYPES {
      OutcomeCharacterized(rules, signals, degraded, typ, withTrace, pf, res);
      if res.kind == Ambiguous {
        var active := ActiveRules(rules, typ, signals, degraded, pf);
        ActiveTyped(rules, typ, signals, degraded, pf);
        var keep := r => IsActive(r, typ, signals, degraded, pf) && Contends(r, active) && r in active;
        FilterCongruence(rules, keep, r => IsActive(r, typ, signals, degraded, pf) && Contends(r, active));
        FilterTwice(rules, r => IsActive(r, typ, signals, degraded, pf), r => Contends(r, active),
                    r => IsActive(r, typ, signals, degraded, pf) && Contends(r, active));
        ContendersApart(rules, keep, active);
      }
    }
  }

  /** With whole-number priorities a silent lint does rule ambiguity out. */
  lemma SilentLintOnIntegers(rules: seq<Rule>, signals: Object, degraded: set<string>, typ: string, withTrace: bool,
                             pf: Match.Parser, res: Outcome)
    requires forall w :: !IsWarning(rules, w)
    requires forall i :: 0 <= i < |rules| ==> rules[i].priority == rules[i].priority.Floor as real
    requires IsOutcome(rules, signals, degraded, typ, withTrace, pf, res)
    ensures res.kind != Ambiguous
  {
    LintComplete(rules);
    forall i, j | 0 <= i < j < |rules| ensures !NearlyEqual(rules[i].priority, rules[j].priority) {
      var a, b := rules[i].priority.Floor, rules[j].priority.Floor;
      assert a != b;
      assert a as real - b as real == (a - b) as real;
    }
    SeparatedNeverAmbiguous(rules, signals, degraded, typ, withTrace, pf, res);
  }

  function WithClause(r: Rule, when: Value): Rule {
    r.(when := when)
  }

  /** The same rules under other when-clauses. */
  function WithClauses(rules: seq<Rule>, whens: seq<Value>): seq<Rule>
    requires |whens| == |rules|
  {
    seq(|rules|, i requires 0 <= i < |rules| => WithClause(rules[i], whens[i]))
  }

  /** The rules at `i` and `j` fire and no other. */
  ghost predicate FireAlone(rules: seq<Rule>, i: nat, j: nat, signals: Object, pf: Match.Parser) {
    forall k :: 0 <= k < |rules| ==> Match.Eval(rules[k].when, signals, pf) == Ok(k == i || k == j)
  }

  lemma BothActive(rules: seq<Rule>, typ: string, i: nat, j: nat, signals: Object, pf: Match.Parser)
    requires i < j < |rules| && rules[i].typ == typ && rules[j].typ == typ && FireAlone(rules, i, j, signals, pf)
    ensures var active := ActiveRules(rules, typ, signals, {}, pf);
            |active| >= 2 && forall r :: r in active ==> r == rules[i] || r == rules[j]
  {
    var keep := r => IsActive(r, typ, signals, {}, pf);
    FilterMembers(rules, keep);
    GroupOfTwo(rules, keep, i, j);
    forall r | r in ActiveRules(rules, typ, signals, {}, pf) ensures r == rules[i] || r == rules[j] {
      var a :| 0 <= a < |rules| && rules[a] == r;
    }
  }

  lemma AllContend(active: seq<Rule>, a: Rule, b: Rule)
    requires NearlyEqual(a.priority, b.priority) && forall r :: r in active ==> r == a || r == b
    ensures Contenders(active) == active
  {
    forall r | r in active ensures Contends(r, active) {
    }
    FilterCongruence(active, r => Contends(r, active), r => true);
    KeepAll(active);
  }

  /** Two rules of one type within the epsilon, firing alone together, are ambiguous. */
  lemma CloseRulesAmbiguous(rules: seq<Rule>, typ: string, i: nat, j: nat, signals: Object, pf: Match.Parser)
    returns (whens: seq<Value>, res: Outcome)
    requires typ in RULE_TYPES && i < j < |rules| && rules[i].typ == typ && rules[j].typ == typ
    requires NearlyEqual(rules[i].priority, rules[j].priority)
    ensures |whens| == |rules|
    ensures IsOutcome(WithClauses(rules, whens), signals, {}, typ, false, pf, res) && res.kind == Ambiguous
  {
    whens := seq(|rules|, k requires 0 <= k < |rules| => MatchLaws.Constant(k == i || k == j));
    var changed := WithClauses(rules, whens);
    forall k | 0 <= k < |changed|
      ensures Match.Eval(changed[k].when, signals, pf) == Ok(k == i || k == j)
    {
      MatchLaws.ConstantClause(k == i || k == j, signals, pf);
    }
    assert FireAlone(changed, i, j, signals, pf) && !AnyFails(changed, typ, signals, pf);
    BothActive(changed, typ, i, j, signals, pf);
    AllContend(ActiveRules(changed, typ, signals, {}, pf), changed[i], changed[j]);
    res := SomeOutcome(changed, signals, {}, typ, pf);
    OutcomeCharacterized(changed, signals, {}, typ, false, pf, res);
  }

  lemma {:induction false} KeepAll(rules: seq<Rule>)
    ensures Filter(rules, r => true) == rules
  {
    if rules != [] {
      KeepAll(rules[1..]);
    }
  }

  /** Resolution always has an outcome. */
  lemma SomeOutcome(rules: seq<Rule>, signals: Object, degraded: set<string>, typ: string, pf: Match.Parser)
    returns (res: Outcome)
    ensures IsOutcome(rules, signals, degraded, typ, false, pf, res)
  {
    var ev := EvaluateRules(FilterType(rules, typ), signals, degraded, pf);
    var active := Active(ev.evals);
    var ordered := SomeOrder(typ, active);
    if typ !in RULE_TYPES {
      res := BLANK.(reason := BadRuleType);
    } else if ev.failure != NoReason {
      res := BLANK.(reason := ev.failure);
    } else {
      res := Select(typ, Candidates(ev.evals), ordered).(trace := []);
    }
  }

  /** The exact condition under which priorities alone rule ambiguity out. */
  lemma NeverAmbiguousIffSeparated(rules: seq<Rule>, typ: string, pf: Match.Parser)
    requires typ in RULE_TYPES
    ensures Separated(rules, typ) <==>
            forall whens: seq<Value>, signals, degraded, res ::
              |whens| == |rules| && IsOutcome(WithClauses(rules, whens), signals, degraded, typ, false, pf, res) ==>
              res.kind != Ambiguous
  {
    if Separated(rules, typ) {
      forall whens: seq<Value>, signals, degraded, res |
        |whens| == |rules| && IsOutcome(WithClauses(rules, whens), signals, degraded, typ, false, pf, res)
        ensures res.kind != Ambiguous
      {
        assert Separated(WithClauses(rules, whens), typ);
        SeparatedNeverAmbiguous(WithClauses(rules, whens), signals, degraded, typ, false, pf, res);
      }
    } else {
      var i, j :| 0 <= i < j < |rules| && rules[i].typ == typ && rules[j].typ == typ
                  && NearlyEqual(rules[i].priority, rules[j].priority);
      var whens, res := CloseRulesAmbiguous(rules, typ, i, j, map[], pf);
    }
  }

  /** A silent lint is not enough: distinct priorities within the epsilon still tie at run time. */
  lemma SilentLintAmbiguous(signals: Object, pf: Match.Parser)
    ensures exists rules, res :: (forall w :: !IsWarning(rules, w))
                                 && IsOutcome(rules, signals, {}, "state", false, pf, res) && res.kind == Ambiguous
  {
    var a := Rule(Null, "state", "a", "A", "", "", [], 10.0);
    var b := Rule(Null, "state", "b", "B", "", "", [], 10.0000000005);
    var rules := [a, b];
    var whens, res := CloseRulesAmbiguous(rules, "state", 0, 1, signals, pf);
    var changed := WithClauses(rules, whens);
    assert changed[0].priority == 10.0 && changed[1].priority == 10.0000000005;
    assert PairwiseDistinct(changed);
    LintComplete(changed);
  }
}
