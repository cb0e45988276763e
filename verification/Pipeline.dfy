/** The decision pipeline end to end: flattening, overlays, saved observations, degraded providers, gate
    signals and the merge guard (`internal/rgdcli/rgdcli.go`, `RunContextBuild` and `RunGuardEval`). */
module Pipeline {
  import opened Results
  import opened Json
  import opened Text
  import opened Signals
  import opened SignalsIndex
  import opened Filters
  import Match
  import ValidateWhen
  import MatchTheorems
  import MatchLaws
  import opened Resolve
  import opened ResolveTheorems
  import Observe
  import Observation
  import Gate
  import Roles
  import Diagnostics
  import BotFindings
  import Pagination
  import opened Guard

  // ---------------------------------------------------------------- equal lookups

  /** A path whose first character starts a segment. */
  predicate Rooted(path: string) {
    path != "" && path[0] != '.'
  }

  lemma RootedSegments(path: string)
    requires Rooted(path)
    ensures Segments(path) != []
  {
    assert Split(path)[0] != "";
  }

  lemma FlatSameLookups(signals: Object, flat: Object)
    requires PlainTop(signals) && IsFlat(signals, flat)
    ensures SameLookups(flat, signals)
  {
    forall path | Segments(path) != [] ensures PathValue(flat, path) == PathValue(signals, path) {
      FlatLookup(signals, flat, path);
    }
  }

  lemma LookupAt(a: Object, b: Object, path: string)
    requires SameLookups(a, b) && Rooted(path)
    ensures PathValue(a, path) == PathValue(b, path)
  {
    RootedSegments(path);
  }

  lemma AcceptedRooted(m: Object)
    requires ValidateWhen.PathOk(m) && ValidateWhen.PrefixOk(m["path"].s)
    ensures Rooted(m["path"].s) && Match.PathFrom(m) == Some(m["path"].s)
  {
  }

  lemma OpSameLookups(op: string, v: Value, a: Object, b: Object, pf: Match.Parser)
    requires SameLookups(a, b) && v.Obj? && ValidateWhen.WalkOp(v, op).None?
    ensures Match.EvalOp(op, v, a, pf) == Match.EvalOp(op, v, b, pf)
  {
    MatchTheorems.KnownOpsAgree(op);
    AcceptedRooted(v.fields);
    LookupAt(a, b, v.fields["path"].s);
    SameAtPath(op, v, a, b, pf);
  }

  lemma SameAtPath(op: string, v: Value, a: Object, b: Object, pf: Match.Parser)
    requires v.Obj? && Match.PathFrom(v.fields).Some? && Match.OpOf(op).Some?
    requires PathValue(a, Match.PathFrom(v.fields).value) == PathValue(b, Match.PathFrom(v.fields).value)
    ensures Match.EvalOp(op, v, a, pf) == Match.EvalOp(op, v, b, pf)
  {
    match Match.OpOf(op).value
    case Count => assert Match.EvalCount(v, a, pf) == Match.EvalCount(v, b, pf);
    case Any => assert Match.EvalQuant(false, v, a, pf) == Match.EvalQuant(false, v, b, pf);
    case All => assert Match.EvalQuant(true, v, a, pf) == Match.EvalQuant(true, v, b, pf);
    case _ =>
  }

  /** Accepted clauses cannot tell maps with equal lookups apart. */
  lemma {:induction false} ClauseSameLookups(v: Value, a: Object, b: Object, pf: Match.Parser)
    requires SameLookups(a, b) && ValidateWhen.WalkWhen(v).None?
    ensures Match.EvalValue(v, a, pf) == Match.EvalValue(v, b, pf)
    decreases v, 1
  {
    match v
    case Arr(es) => ClausesSameLookups(es, a, b, pf);
    case Obj(m) =>
      MatchTheorems.AcceptedShape(v);
      assert Match.EvalValue(v, a, pf) == Match.EvalMap(v, a, pf);
      assert Match.EvalValue(v, b, pf) == Match.EvalMap(v, b, pf);
      if "eval" in m {
      } else if "op" in m {
        OpSameLookups(m["op"].s, v, a, b, pf);
      } else if "and" in m {
        ClausesSameLookups(m["and"].elts, a, b, pf);
      } else if "or" in m {
        ClausesSameLookups(m["or"].elts, a, b, pf);
      } else {
        ClauseSameLookups(m["not"], a, b, pf);
      }
  }

  lemma {:induction false} ClausesSameLookups(es: seq<Value>, a: Object, b: Object, pf: Match.Parser)
    requires SameLookups(a, b) && ValidateWhen.WalkAll(es).None?
    ensures Match.EvalAnd(es, a, pf) == Match.EvalAnd(es, b, pf)
    ensures Match.EvalOr(es, a, pf) == Match.EvalOr(es, b, pf)
    decreases es, 0
  {
    if es != [] {
      ClauseSameLookups(es[0], a, b, pf);
      ClausesSameLookups(es[1..], a, b, pf);
    }
  }

  // ---------------------------------------------------------------- resolution under equal evaluation

  /** Rules whose clauses passed the load-time check. */
  predicate Loaded(rules: seq<Rule>) {
    forall i :: 0 <= i < |rules| ==> ValidateWhen.Validate(rules[i].when).None?
  }

  ghost predicate EvalAlike(rules: seq<Rule>, a: Object, b: Object, pf: Match.Parser) {
    forall r :: r in rules ==> Match.Eval(r.when, a, pf) == Match.Eval(r.when, b, pf)
  }

  lemma {:induction false} EvaluateAlike(rules: seq<Rule>, a: Object, b: Object, degraded: set<string>,
                                         pf: Match.Parser)
    requires EvalAlike(rules, a, b, pf)
    ensures EvaluateRules(rules, a, degraded, pf) == EvaluateRules(rules, b, degraded, pf)
  {
    if rules != [] {
      assert rules[0] in rules;
      EvaluateAlike(rules[1..], a, b, degraded, pf);
    }
  }

  lemma OutcomeAlike(rules: seq<Rule>, a: Object, b: Object, degraded: set<string>, typ: string, withTrace: bool,
                     pf: Match.Parser, res: Outcome)
    requires EvalAlike(rules, a, b, pf)
    ensures IsOutcome(rules, a, degraded, typ, withTrace, pf, res) <==>
              IsOutcome(rules, b, degraded, typ, withTrace, pf, res)
  {
    FilterMembers(rules, r => HasType(r, typ));
    EvaluateAlike(FilterType(rules, typ), a, b, degraded, pf);
  }

  lemma LoadedAlike(rules: seq<Rule>, a: Object, b: Object, pf: Match.Parser)
    requires Loaded(rules) && SameLookups(a, b)
    ensures EvalAlike(rules, a, b, pf)
  {
    forall r | r in rules ensures Match.Eval(r.when, a, pf) == Match.Eval(r.when, b, pf) {
      if !r.when.Null? {
        ClauseSameLookups(r.when, a, b, pf);
      }
    }
  }

  // ---------------------------------------------------------------- the guard under equal lookups

  /** Both maps answer the guard's typed lookups at `path` alike. */
  ghost predicate GettersAgree(a: Object, b: Object, path: string) {
    GetBool(a, path) == GetBool(b, path) && GetString(a, path) == GetString(b, path)
      && GetInt(a, path) == GetInt(b, path)
  }

  ghost predicate AgreeUnder(a: Object, b: Object, base: string) {
    forall key :: GettersAgree(a, b, At(base, key))
  }

  lemma FlagAgrees(a: Object, b: Object, diag: string, key: string, bad: bool, refusal: Refusal)
    requires AgreeUnder(a, b, diag)
    ensures CheckFlag(a, diag, key, bad, refusal) == CheckFlag(b, diag, key, bad, refusal)
  {
    assert GettersAgree(a, b, At(diag, key));
  }

  lemma BlockedAgrees(a: Object, b: Object, diag: string, lower: Lower)
    requires AgreeUnder(a, b, diag)
    ensures CheckBlocked(a, diag, lower) == CheckBlocked(b, diag, lower)
  {
    assert GettersAgree(a, b, At(diag, "bot_review_blocked"));
    assert GettersAgree(a, b, At(diag, "bot_review_block_reason"));
  }

  lemma DiagnosticsAgree(a: Object, b: Object, diag: string, lower: Lower)
    requires AgreeUnder(a, b, diag)
    ensures CheckDiagnostics(a, diag, lower) == CheckDiagnostics(b, diag, lower)
  {
    FlagAgrees(a, b, diag, "bot_review_pending", true, BotPending);
    BlockedAgrees(a, b, diag, lower);
    FlagAgrees(a, b, diag, "non_thread_findings_present", true, Refusal.NonThreadFindings);
    FlagAgrees(a, b, diag, "bot_review_trigger_awaiting_ack", true, AwaitingAck);
    FlagAgrees(a, b, diag, "bot_review_terminal", false, NotTerminal);
    FlagAgrees(a, b, diag, "bot_review_failed", true, BotFailed);
    FlagAgrees(a, b, diag, "bot_review_stale", true, BotStale);
  }

  lemma ZeroAgrees(a: Object, b: Object, reviews: string, key: string, refusal: int -> Refusal)
    requires AgreeUnder(a, b, reviews)
    ensures CheckZero(a, reviews, key, refusal) == CheckZero(b, reviews, key, refusal)
  {
    assert GettersAgree(a, b, At(reviews, key));
  }

  lemma CompleteAgrees(a: Object, b: Object, reviews: string, key: string, refusal: Refusal)
    requires AgreeUnder(a, b, reviews)
    ensures CheckComplete(a, reviews, key, refusal) == CheckComplete(b, reviews, key, refusal)
  {
    assert GettersAgree(a, b, At(reviews, key));
  }

  lemma ReviewsAgree(a: Object, b: Object, reviews: string, lower: Lower)
    requires AgreeUnder(a, b, reviews) && AgreeUnder(a, b, DiagnosticsOf(reviews))
    ensures CheckReviews(a, reviews, lower) == CheckReviews(b, reviews, lower)
  {
    ZeroAgrees(a, b, reviews, "review_threads_unresolved", n => UnresolvedThreads(n));
    DiagnosticsAgree(a, b, DiagnosticsOf(reviews), lower);
    ZeroAgrees(a, b, reviews, "review_decisions_changes_requested", n => ChangesRequested(n));
    CompleteAgrees(a, b, reviews, "pagination_incomplete", PaginationIncomplete);
    CompleteAgrees(a, b, reviews, "review_decisions_truncated", DecisionsTruncated);
  }

  lemma TextAgrees(a: Object, b: Object, base: string, key: string, want: string, lower: Lower,
                   refusal: string -> Refusal)
    requires AgreeUnder(a, b, base)
    ensures CheckText(a, At(base, key), want, lower, refusal) == CheckText(b, At(base, key), want, lower, refusal)
  {
    assert GettersAgree(a, b, At(base, key));
  }

  lemma GitAgrees(a: Object, b: Object, git: string)
    requires AgreeUnder(a, b, git)
    ensures CheckGit(a, git) == CheckGit(b, git)
  {
    assert GettersAgree(a, b, At(git, "working_tree_clean"));
  }

  lemma ChecksAgree(a: Object, b: Object, git: string, github: string, lower: Lower)
    requires Rooted(git) && Rooted(github)
    requires forall path :: Rooted(path) ==> GettersAgree(a, b, path)
    ensures EvalIn(a, git, github, lower) == EvalIn(b, git, github, lower)
  {
    AgreeBelow(a, b, git);
    AgreeBelow(a, b, Reviews(github));
    AgreeBelow(a, b, DiagnosticsOf(Reviews(github)));
    AgreeBelow(a, b, At(github, "pull_requests"));
    AgreeBelow(a, b, At(github, "ci"));
    EvalAgrees(a, b, git, github, lower);
  }

  lemma EvalAgrees(a: Object, b: Object, git: string, github: string, lower: Lower)
    requires AgreeUnder(a, b, git) && AgreeUnder(a, b, Reviews(github))
             && AgreeUnder(a, b, DiagnosticsOf(Reviews(github)))
    requires AgreeUnder(a, b, At(github, "pull_requests")) && AgreeUnder(a, b, At(github, "ci"))
    ensures EvalIn(a, git, github, lower) == EvalIn(b, git, github, lower)
  {
    GitAgrees(a, b, git);
    ReviewsAgree(a, b, Reviews(github), lower);
    TextAgrees(a, b, At(github, "pull_requests"), "merge_state_status", "clean", lower, s => MergeState(s));
    TextAgrees(a, b, At(github, "ci"), "ci_status", "success", lower, s => CiStatus(s));
  }

  lemma AgreeBelow(a: Object, b: Object, base: string)
    requires Rooted(base)
    requires forall path :: Rooted(path) ==> GettersAgree(a, b, path)
    ensures AgreeUnder(a, b, base)
  {
    forall key ensures GettersAgree(a, b, At(base, key)) {
      assert At(base, key)[0] == base[0];
    }
  }

  lemma GuardSameLookups(a: Object, b: Object, lower: Lower)
    requires SameLookups(a, b)
    ensures EvalMergeReadiness(a, lower) == EvalMergeReadiness(b, lower)
  {
    forall path | Rooted(path) ensures GettersAgree(a, b, path) {
      LookupAt(a, b, path);
    }
    ChecksAgree(a, b, "git", "github", lower);
  }

  /** Numbers as floats change no verdict of the guard. */
  lemma GuardRecode(signals: Object, lower: Lower)
    ensures EvalMergeReadiness(RecodeObject(signals), lower) == EvalMergeReadiness(signals, lower)
  {
    forall path | Rooted(path) ensures GettersAgree(RecodeObject(signals), signals, path) {
      MatchLaws.PathRecode(signals, path);
    }
    ChecksAgree(RecodeObject(signals), signals, "git", "github", lower);
  }

  // ---------------------------------------------------------------- saved observations replay

  /** Coding as JSON changes values and no key chain. */
  lemma CodedChain(signals: Object, segs: seq<string>, k: string)
    ensures Stores("", Obj(RecodeObject(signals)), segs, k) <==> Stores("", Obj(signals), segs, k)
    ensures Stores("", Obj(signals), segs, k) ==>
              Lookup(Obj(RecodeObject(signals)), segs) == Some(Recode(Lookup(Obj(signals), segs).value))
  {
    MatchLaws.LookupRecode(Obj(signals), segs);
    assert Recode(Obj(signals)) == Obj(RecodeObject(signals));
  }

  /** No segment is ambiguous, apart from differences that JSON does not keep. */
  ghost predicate CodedUnambiguous(signals: Object) {
    TopUnambiguous(RecodeObject(signals))
  }

  lemma UnambiguousCoded(signals: Object)
    requires TopUnambiguous(signals)
    ensures CodedUnambiguous(signals)
  {
    var coded := Obj(RecodeObject(signals));
    forall segs, segs', s | CleanKey(s) && Stores("", coded, segs, s) && Stores("", coded, segs', s)
      ensures Lookup(coded, segs) == Lookup(coded, segs')
    {
      CodedChain(signals, segs, s);
      CodedChain(signals, segs', s);
    }
  }

  lemma {:induction false} RecodeTwice(v: Value)
    ensures Recode(Recode(v)) == Recode(v)
  {
    match v
    case Arr(es) => RecodeSeqTwice(es);
    case Typed(es) => RecodeSeqTwice(es);
    case Obj(m) =>
      forall k | k in m ensures Recode(Recode(m[k])) == Recode(m[k]) {
        RecodeTwice(m[k]);
      }
    case _ =>
  }

  lemma {:induction false} RecodeSeqTwice(es: seq<Value>)
    ensures RecodeSeq(RecodeSeq(es)) == RecodeSeq(es)
  {
    forall i | 0 <= i < |es| ensures Recode(Recode(es[i])) == Recode(es[i]) {
      RecodeTwice(es[i]);
    }
  }

  /** Once both are coded as JSON, the maps agree at their top. */
  ghost predicate SameCoded(a: Object, b: Object) {
    SameTop(RecodeObject(a), RecodeObject(b))
  }

  lemma SameOverlaid(a: Object, a': Object, b: Object, b': Object)
    requires SameCoded(a, a') && SameCoded(b, b')
    ensures SameCoded(a + b, a' + b')
  {
    forall s | CleanKey(s)
      ensures (s in a + b <==> s in a' + b') && (s in a + b ==> Recode((a + b)[s]) == Recode((a' + b')[s]))
    {
      assert s in a <==> s in RecodeObject(a);
      assert s in b <==> s in RecodeObject(b);
    }
  }

  /** Neither accepted clauses nor the guard can tell such maps apart. */
  lemma CodedAlike(rules: seq<Rule>, a: Object, b: Object, pf: Match.Parser, lower: Lower)
    requires Loaded(rules) && SameCoded(a, b)
    ensures EvalAlike(rules, a, b, pf)
    ensures EvalMergeReadiness(a, lower) == EvalMergeReadiness(b, lower)
  {
    SameTopLookups(RecodeObject(a), RecodeObject(b));
    LoadedAlike(rules, RecodeObject(a), RecodeObject(b), pf);
    forall r | r in rules ensures Match.Eval(r.when, a, pf) == Match.Eval(r.when, b, pf) {
      MatchLaws.EvalRecode(r.when, a, pf);
      MatchLaws.EvalRecode(r.when, b, pf);
    }
    GuardRecode(a, lower);
    GuardRecode(b, lower);
    GuardSameLookups(RecodeObject(a), RecodeObject(b), lower);
  }

  lemma RecodeObjectTwice(signals: Object)
    ensures RecodeObject(RecodeObject(signals)) == RecodeObject(signals)
  {
    RecodeTwice(Obj(signals));
    assert Recode(Obj(signals)) == Obj(RecodeObject(signals));
    assert Recode(Obj(RecodeObject(signals))) == Obj(RecodeObject(RecodeObject(signals)));
  }

  /** Coding an index gives an index of the coded signals. */
  lemma CodedIndex(signals: Object, flat: Object)
    requires IsFlat(signals, flat)
    ensures IsFlat(RecodeObject(signals), RecodeObject(flat))
  {
    var root, coded := Obj(signals), Obj(RecodeObject(signals));
    forall k
      ensures k in RecodeObject(flat) <==> StoresSome("", coded, k)
      ensures k in flat ==> StoresValue("", coded, k, Recode(flat[k]))
    {
      IndexEntry(signals, flat, k);
      if k in flat {
        var segs :| Stores("", root, segs, k) && Lookup(root, segs) == Some(flat[k]);
        CodedChain(signals, segs, k);
      }
      if StoresSome("", coded, k) {
        var segs :| Stores("", coded, segs, k);
        CodedChain(signals, segs, k);
      }
    }
  }

  /** Any two indexes of the same signals. */
  lemma SameIndexes(signals: Object, flat: Object, flat': Object)
    requires CodedUnambiguous(signals) && IsFlat(signals, flat) && IsFlat(signals, flat')
    ensures SameCoded(flat, flat')
  {
    CodedIndex(signals, flat);
    CodedIndex(signals, flat');
    SameIndexTops(RecodeObject(signals), RecodeObject(flat), RecodeObject(flat'));
  }

  lemma CodedTops(coded: Object, a: Object, b: Object)
    requires RecodeObject(coded) == coded && TopUnambiguous(coded) && IsFlat(coded, a) && IsFlat(coded, b)
    ensures SameTop(a, RecodeObject(b)) && SameTop(RecodeObject(b), a)
  {
    CodedIndex(coded, b);
    SameIndexTops(coded, a, RecodeObject(b));
    SameIndexTops(coded, RecodeObject(b), a);
  }

  /** The index of the live signals and the index of the reloaded ones. */
  lemma ReloadedIndex(signals: Object, flat: Object, flat': Object)
    requires CodedUnambiguous(signals) && IsFlat(signals, flat) && IsFlat(RecodeObject(signals), flat')
    ensures SameCoded(flat', flat) && SameCoded(flat, flat')
  {
    CodedIndex(signals, flat);
    RecodeObjectTwice(signals);
    CodedTops(RecodeObject(signals), RecodeObject(flat), flat');
  }

  // ---------------------------------------------------------------- an ambiguous segment

  /** Two entries for one namespace: its own, and one that spills from below an empty key. */
  function Clashing(ns: string, own: Object, spilled: Object): Object
    requires CleanKey(ns)
  {
    map["" := Obj(map[ns := Obj(spilled)]), ns := Obj(own)]
  }

  lemma EitherSurvives(ns: string, own: Object, spilled: Object) returns (flat: Object, flat': Object)
    requires CleanKey(ns)
    ensures IsFlat(Clashing(ns, own, spilled), flat) && IsFlat(Clashing(ns, own, spilled), flat')
    ensures ns in flat && flat[ns] == Obj(own) && ns in flat' && flat'[ns] == Obj(spilled)
  {
    var signals: Object := Clashing(ns, own, spilled);
    var below: Object := map[ns := Obj(spilled)];
    var some := SomeFlat(signals);
    assert [ns][1..] == [] && ["", ns][1..] == [ns];
    assert Lookup(Obj(signals), [ns]) == Lookup(Obj(own), []);
    assert Lookup(Obj(below), [ns]) == Lookup(Obj(spilled), []);
    assert Lookup(Obj(signals), ["", ns]) == Lookup(Obj(below), [ns]);
    assert KeyFrom("", [ns]) == KeyFrom(ns, []) == ns;
    assert KeyFrom("", ["", ns]) == KeyFrom("", [ns]);
    OtherSurvivor(signals, some, [ns], ns);
    OtherSurvivor(signals, some, ["", ns], ns);
    flat, flat' := some[ns := Obj(own)], some[ns := Obj(spilled)];
  }

  lemma FlagOf(index: Object, ns: string, key: string, b: bool)
    requires CleanKey(ns) && CleanKey(key) && ns in index && index[ns] == Obj(map[key := Bool(b)])
    ensures GetBool(index, At(ns, key)) == Some(b)
  {
    TwoSegments(ns, key);
    LookupTwo(index, map[key := Bool(b)], ns, key);
  }

  lemma OnlyGitIsDirty(sigs: Object, git: string, github: string, lower: Lower)
    ensures EvalIn(sigs, git, github, lower) == Some(TreeDirty) <==> CheckGit(sigs, git) == Some(TreeDirty)
  {
    DiagnosticsNotDirty(sigs, DiagnosticsOf(Reviews(github)), lower);
  }

  lemma DiagnosticsNotDirty(sigs: Object, diag: string, lower: Lower)
    ensures CheckDiagnostics(sigs, diag, lower) != Some(TreeDirty)
  {
  }

  lemma DirtyByFlag(sigs: Object, git: string, github: string, lower: Lower, clean: bool)
    requires GetBool(sigs, At(git, "working_tree_clean")) == Some(clean)
    ensures EvalIn(sigs, git, github, lower) == Some(TreeDirty) <==> !clean
  {
    OnlyGitIsDirty(sigs, git, github, lower);
  }

  const CLEAN_KEY := "working_tree_clean"

  lemma ClashingVerdicts(git: string, github: string, lower: Lower) returns (flat: Object, flat': Object)
    requires CleanKey(git) && CleanKey(CLEAN_KEY)
    ensures var signals := Clashing(git, map[CLEAN_KEY := Bool(false)], map[CLEAN_KEY := Bool(true)]);
            && IsFlat(signals, flat) && EvalIn(flat, git, github, lower) == Some(TreeDirty)
            && IsFlat(signals, flat') && EvalIn(flat', git, github, lower) != Some(TreeDirty)
  {
    flat, flat' := EitherSurvives(git, map[CLEAN_KEY := Bool(false)], map[CLEAN_KEY := Bool(true)]);
    FlagOf(flat, git, CLEAN_KEY, false);
    FlagOf(flat', git, CLEAN_KEY, true);
    DirtyByFlag(flat, git, github, lower, false);
    DirtyByFlag(flat', git, github, lower, true);
  }

  /** With an ambiguous segment the guard's verdict can depend on the order of map iteration. */
  lemma AmbiguousVerdict(lower: Lower)
    ensures var signals := Clashing("git", map[CLEAN_KEY := Bool(false)], map[CLEAN_KEY := Bool(true)]);
            exists flat, flat' ::
              && IsFlat(signals, flat) && EvalMergeReadiness(flat, lower) == Some(TreeDirty)
              && IsFlat(signals, flat') && EvalMergeReadiness(flat', lower) != Some(TreeDirty)
  {
    assert CleanKey("git") && CleanKey(CLEAN_KEY);
    var flat, flat' := ClashingVerdicts("git", "github", lower);
    assert EvalMergeReadiness(flat, lower) == EvalIn(flat, "git", "github", lower);
    assert EvalMergeReadiness(flat', lower) == EvalIn(flat', "git", "github", lower);
  }

  // ---------------------------------------------------------------- saved observations

  /** Saving an observation, reading it back and flattening it decides like the live observation: the same
      degraded set and, whatever gate and state signals are then laid over the index, the same resolution
      outcomes and the same guard verdict. */
  lemma SavedObservationReplays(signals: Object, diags: seq<Observe.Diagnostic>, degraded: bool, meta: Object,
                                over: Object,
                                rules: seq<Rule>, typ: string, withTrace: bool, pf: Match.Parser, lower: Lower,
                                flat: Object, flat': Object, res: Outcome)
    requires CodedUnambiguous(signals) && Loaded(rules) && IsFlat(signals, flat)
    requires var parsed := Observation.Parse(RecodeObject(Observation.DocumentOf(signals, diags, degraded, meta)));
             parsed.Ok? ==> IsFlat(parsed.value.signals, flat')
    ensures var parsed := Observation.Parse(RecodeObject(Observation.DocumentOf(signals, diags, degraded, meta)));
            && parsed.Ok?
            && var deg, deg' := Observation.DegradedSet(diags, degraded),
               Observation.DegradedSet(parsed.value.diags, parsed.value.degraded);
            && deg == deg'
            && (IsOutcome(rules, flat' + over, deg', typ, withTrace, pf, res) <==>
                IsOutcome(rules, flat + over, deg, typ, withTrace, pf, res))
            && EvalMergeReadiness(flat' + over, lower) == EvalMergeReadiness(flat + over, lower)
  {
    Observation.DocumentRoundTrip(signals, diags, degraded, meta);
    ReloadedIndex(signals, flat, flat');
    SameOverlaid(flat', flat, over, over);
    CodedAlike(rules, flat' + over, flat + over, pf, lower);
    OutcomeAlike(rules, flat' + over, flat + over, Observation.DegradedSet(diags, degraded), typ, withTrace, pf, res);
  }

  // ---------------------------------------------------------------- degraded providers never win

  /** No rule that depends on a failed or degraded provider is the resolved winner of a run. */
  lemma ImpairedProviderNeverWins(job: Observe.Job, i: nat, rules: seq<Rule>, signals: Object, typ: string,
                                  withTrace: bool, pf: Match.Parser, res: Outcome)
    requires Observe.WellFormed(job) && i < |job.enabled| && job.enabled[i] != ""
    requires Observe.Impaired(Observe.SlotOf(job, i))
    requires var m := Observe.Collect(job);
             IsOutcome(rules, signals, Observation.DegradedSet(m.diags, m.degraded), typ, withTrace, pf, res)
    requires res.kind == Resolved
    ensures var m := Observe.Collect(job);
            var best := Contenders(ActiveRules(rules, typ, signals, Observation.DegradedSet(m.diags, m.degraded), pf));
            && |best| == 1 && best[0] in rules && best[0].id == res.ruleID && job.enabled[i] !in best[0].dependsOn
  {
    Observation.FailureIsDegraded(job, i);
    var m := Observe.Collect(job);
    var degraded := Observation.DegradedSet(m.diags, m.degraded);
    OutcomeCharacterized(rules, signals, degraded, typ, withTrace, pf, res);
    ActiveTyped(rules, typ, signals, degraded, pf);
    ContendersTyped(ActiveRules(rules, typ, signals, degraded, pf), typ);
  }

  // ---------------------------------------------------------------- gate signals

  lemma GateStatusPath(trees: Object, g: string, status: string, root: Object, base: string)
    requires PathValue(root, base) == Some(Obj(trees)) && CleanKey(g)
    requires g in trees ==> trees[g].Obj? && "status" in trees[g].fields && trees[g].fields["status"] == Str(status)
    ensures PathValue(root, At(At(base, g), "status")) == if g in trees then Some(Str(status)) else None
  {
    PathBelow(root, base, g, trees);
    assert CleanKey("status");
    if g in trees {
      PathBelow(root, At(base, g), "status", trees[g].fields);
    } else {
      MissingBelow(root, At(base, g), "status");
    }
  }

  lemma MissingBelow(root: Object, base: string, key: string)
    requires PathValue(root, base).None? && CleanKey(key)
    ensures PathValue(root, At(base, key)).None?
  {
    SplitDotAppend(base, key);
    SplitDotFree(key);
    NonEmptyAppend(Split(base), [key]);
    NonEmptyId([key]);
    LookupAppend(Obj(root), Segments(base), [key]);
  }

  lemma StatusMapFields(res: Gate.StatusResult)
    ensures Gate.StatusMap(res).Obj? && "status" in Gate.StatusMap(res).fields
            && Gate.StatusMap(res).fields["status"] == Str(res.status)
  {
  }

  /** After the gate overlay, `gates.<id>.status` resolves exactly for the gates that have a file, to the status
      derived for the view, provided some gate has a file at all: otherwise nothing is laid over, and a `gates`
      namespace that was observed stays visible. All other namespaces resolve as before. */
  lemma GateOverlay(files: Gate.Files, view: Gate.GitView, roles: Roles.RolesSpec, flat: Object, added: Object,
                    g: string, path: string)
    requires IsFlat(Gate.GateSignals(files, view, roles), added) && Gate.ValidateGateID(g).None?
    ensures Gate.GateTrees(files, view, roles) == map[] ==> flat + added == flat && g !in files
    ensures Gate.GateTrees(files, view, roles) != map[] ==>
              PathValue(flat + added, At(At("gates", g), "status")) ==
              if g in files then Some(Str(Gate.StatusText(files, view, g, roles))) else None
    ensures Segments(path) != [] && Segments(path)[0] != "gates" ==>
              PathValue(flat + added, path) == PathValue(flat, path)
  {
    var trees := Gate.GateTrees(files, view, roles);
    if trees == map[] {
      assert g in files ==> g in trees;
      NothingAdded(flat, added);
    } else {
      Gate.GateIDCharacterized(g);
      GatesNamespace(Obj(trees));
      OverlayStatus(files, view, roles, trees, flat, "gates", added, g);
      if Segments(path) != [] {
        OverlayLookup(flat, "gates", Obj(trees), added, path);
      }
    }
  }

  lemma NothingAdded(flat: Object, added: Object)
    requires IsFlat(map[], added)
    ensures flat + added == flat
  {
    forall segs, k ensures !Stores("", Obj(map[]), segs, k) {
    }
    assert forall k :: k !in added;
  }

  lemma OverlayStatus(files: Gate.Files, view: Gate.GitView, roles: Roles.RolesSpec, trees: Object, flat: Object,
                      ns: string, added: Object, g: string)
    requires trees == Gate.GateTrees(files, view, roles) && CleanKey(ns)
    requires IsFlat(map[ns := Obj(trees)], added)
    requires Gate.ValidateGateID(g).None? && CleanKey(g)
    requires PathValue(map[ns := Obj(trees)], ns) == Some(Obj(trees))
    ensures PathValue(flat + added, At(At(ns, g), "status")) ==
            if g in files then Some(Str(Gate.StatusText(files, view, g, roles))) else None
  {
    var root := map[ns := Obj(trees)];
    var status := if g in files then Gate.StatusText(files, view, g, roles) else "";
    if g in files {
      StatusMapFields(Gate.StatusOf(files, view, g, roles).value);
    }
    GateStatusPath(trees, g, status, root, ns);
    StatusPathSegments(ns, g);
    OverlayLookup(flat, ns, Obj(trees), added, At(At(ns, g), "status"));
  }

  lemma GatesNamespace(tree: Value)
    ensures CleanKey("gates") && PathValue(map["gates" := tree], "gates") == Some(tree)
  {
    TopLevel(map["gates" := tree], "gates");
  }

  lemma StatusPathSegments(ns: string, g: string)
    requires CleanKey(ns) && CleanKey(g)
    ensures Segments(At(At(ns, g), "status")) != [] && Segments(At(At(ns, g), "status"))[0] == ns
  {
    SplitDotAppend(ns, g);
    SplitDotAppend(At(ns, g), "status");
    SplitDotFree(ns);
    SplitDotFree(g);
    SplitDotFree("status");
    NonEmptyId([ns, g, "status"]);
    assert ([ns] + [g]) + ["status"] == [ns, g, "status"];
  }

  /** The clause of a rule that asks for a passing gate. */
  function GatePass(g: string): Value {
    MatchLaws.Clause("eq", At(At("gates", g), "status"), Str(Gate.PASS))
  }

  /** The stored record of the gate derives to pass. */
  predicate PassRecorded(files: Gate.Files, view: Gate.GitView, g: string, roles: Roles.RolesSpec)
    requires Gate.ValidateGateID(g).None?
  {
    g in files && Gate.StatusText(files, view, g, roles) == Gate.PASS
  }

  /** A rule that asks for a passing gate fires exactly when a pass is recorded, if and only if some gate has a file
      or the index does not itself show the gate as passing. */
  lemma GatePassClause(files: Gate.Files, view: Gate.GitView, roles: Roles.RolesSpec, flat: Object, added: Object,
                       g: string, pf: Match.Parser)
    requires IsFlat(Gate.GateSignals(files, view, roles), added) && Gate.ValidateGateID(g).None?
    requires pf(Gate.PASS).None?
    ensures var shown := PathValue(flat, At(At("gates", g), "status")) == Some(Str(Gate.PASS));
            var someGate := Gate.GateTrees(files, view, roles) != map[];
            && Match.EvalValue(GatePass(g), flat + added, pf) ==
               Ok(if someGate then PassRecorded(files, view, g, roles) else shown)
            && (Match.EvalValue(GatePass(g), flat + added, pf) == Ok(PassRecorded(files, view, g, roles)) <==>
                someGate || !shown)
  {
    var path := At(At("gates", g), "status");
    Gate.GateIDCharacterized(g);
    GateOverlay(files, view, roles, flat, added, g, path);
    EqTextClause(path, Gate.PASS, flat + added, pf);
  }

  /** Without any gate file a status written into the observation document satisfies the clause. */
  lemma ObservedGatePasses(view: Gate.GitView, roles: Roles.RolesSpec, g: string, pf: Match.Parser)
    requires Gate.ValidateGateID(g).None? && pf(Gate.PASS).None?
    ensures exists flat, added ::
              && IsFlat(map["gates" := Obj(map[g := Obj(map["status" := Str(Gate.PASS)])])], flat)
              && IsFlat(Gate.GateSignals(map[], view, roles), added)
              && !PassRecorded(map[], view, g, roles)
              && Match.EvalValue(GatePass(g), flat + added, pf) == Ok(true)
  {
    var trees := map[g := Obj(map["status" := Str(Gate.PASS)])];
    var signals := map["gates" := Obj(trees)];
    var path := At(At("gates", g), "status");
    var flat := SomeFlat(signals);
    var added := SomeFlat(Gate.GateSignals(map[], view, roles));
    Gate.GateIDCharacterized(g);
    GatesNamespace(Obj(trees));
    GateStatusPath(trees, g, Gate.PASS, signals, "gates");
    StatusPathSegments("gates", g);
    FlatLookup(signals, flat, path);
    GatePassClause(map[], view, roles, flat, added, g, pf);
  }

  lemma EqTextClause(path: string, want: string, signals: Object, pf: Match.Parser)
    requires path != "" && pf(want).None?
    ensures Match.EvalValue(MatchLaws.Clause("eq", path, Str(want)), signals, pf) ==
            Ok(PathValue(signals, path) == Some(Str(want)))
  {
    MatchLaws.EvalClause("eq", path, Str(want), signals, pf);
  }

  // ---------------------------------------------------------------- declarative guard rules

  /** The verdict is OK exactly when the built-in guard is, and, if rules are declared for the guard, no clause
      of theirs fails and exactly one active rule contends. */
  lemma GuardOkIff(rules: seq<Rule>, guardID: string, sigs: Object, degraded: set<string>, pf: Match.Parser,
                   lower: Lower, res: Guard.Verdict)
    requires IsVerdict(rules, guardID, sigs, degraded, pf, lower, res)
    ensures var scoped := ScopeGuard(rules, guardID);
            res.None? <==>
            && guardID == MERGE_READINESS && EvalMergeReadiness(sigs, lower).None?
            && (HasGuardRules(rules, guardID) ==>
                  && !AnyFails(scoped, "guard", sigs, pf)
                  && |Contenders(ActiveRules(scoped, "guard", sigs, degraded, pf))| == 1)
  {
    if guardID == MERGE_READINESS && HasGuardRules(rules, guardID) {
      var scoped := ScopeGuard(rules, guardID);
      var out :| IsOutcome(scoped, sigs, degraded, "guard", false, pf, out)
                 && res == if out.kind == Resolved then EvalMergeReadiness(sigs, lower)
                    else Some(RuleResolution(out.kind));
      ScopedOutcome(rules, guardID, sigs, degraded, pf, out);
    }
  }

  lemma ScopedOutcome(rules: seq<Rule>, guardID: string, sigs: Object, degraded: set<string>, pf: Match.Parser,
                      out: Outcome)
    requires guardID != "" && IsOutcome(ScopeGuard(rules, guardID), sigs, degraded, "guard", false, pf, out)
    ensures out.kind == Resolved <==>
            && !AnyFails(ScopeGuard(rules, guardID), "guard", sigs, pf)
            && |Contenders(ActiveRules(ScopeGuard(rules, guardID), "guard", sigs, degraded, pf))| == 1
  {
    var scoped := ScopeGuard(rules, guardID);
    var active := ActiveRules(scoped, "guard", sigs, degraded, pf);
    OutcomeCharacterized(scoped, sigs, degraded, "guard", false, pf, out);
    ActiveTyped(scoped, "guard", sigs, degraded, pf);
    ContendersTyped(active, "guard");
    FilterMembers(rules, (r: Rule) => r.typ == "guard" && r.guardID == guardID);
  }

  // ---------------------------------------------------------------- an OK verdict means really reviewed

  /** The `github.reviews` subtree that collection assembles over the review decisions. */
  ghost function ReviewsInner(decisions: Object, report: Pagination.Report, incomplete: bool, statuses: seq<Value>,
                              headSHA: string): Object
  {
    decisions[
      "review_threads_total" := Int(report.total)][
      "review_threads_unresolved" := Int(report.unresolved)][
      "pagination_incomplete" := Bool(report.incomplete)][
      "conversation_comments_incomplete" := Bool(incomplete)][
      "bot_reviewer_status" := Arr(statuses)][
      "bot_review_diagnostics" := Obj(Diagnostics.Signals(Diagnostics.Compute(statuses, headSHA, incomplete)))]
  }

  lemma InnerFields(decisions: Object, report: Pagination.Report, incomplete: bool, statuses: seq<Value>,
                    headSHA: string)
    ensures var m := ReviewsInner(decisions, report, incomplete, statuses, headSHA);
            && "review_threads_unresolved" in m && m["review_threads_unresolved"] == Int(report.unresolved)
            && "pagination_incomplete" in m && m["pagination_incomplete"] == Bool(report.incomplete)
            && "bot_review_diagnostics" in m
            && m["bot_review_diagnostics"] ==
               Obj(Diagnostics.Signals(Diagnostics.Compute(statuses, headSHA, incomplete)))
  {
  }

  /** The remaining entries that collection sets, over whatever the decisions hold. */
  lemma InnerOthers(decisions: Object, report: Pagination.Report, incomplete: bool, statuses: seq<Value>,
                    headSHA: string, key: string)
    ensures var m := ReviewsInner(decisions, report, incomplete, statuses, headSHA);
            && "review_threads_total" in m && m["review_threads_total"] == Int(report.total)
            && "conversation_comments_incomplete" in m && m["conversation_comments_incomplete"] == Bool(incomplete)
            && "bot_reviewer_status" in m && m["bot_reviewer_status"] == Arr(statuses)
            && (key in decisions && key !in {"review_threads_total", "review_threads_unresolved",
                                             "pagination_incomplete", "conversation_comments_incomplete",
                                             "bot_reviewer_status", "bot_review_diagnostics"} ==>
                  key in m && m[key] == decisions[key])
  {
  }

  predicate AllResolved(threads: seq<Pagination.Thread>) {
    forall i :: 0 <= i < |threads| ==> threads[i].isResolved
  }

  lemma {:induction false} NoneUnresolved(threads: seq<Pagination.Thread>)
    ensures Pagination.UnresolvedCount(threads) == 0 <==> AllResolved(threads)
  {
    if threads != [] {
      var n := |threads| - 1;
      NoneUnresolved(threads[..n]);
      assert AllResolved(threads) <==> AllResolved(threads[..n]) && threads[n].isResolved by {
        assert forall i :: 0 <= i < n ==> threads[..n][i] == threads[i];
      }
    }
  }

  /** What an OK verdict guarantees about the pull request on the server. */
  ghost predicate ReallyReviewed(l: Pagination.ThreadList, t: Pagination.Timeline, comments: seq<Pagination.Comment>,
                                 statuses: seq<Value>, headSHA: string)
    requires Pagination.GoodTimeline(t)
  {
    && AllResolved(Pagination.Concat(l.pages))
    && (forall v :: v in statuses && BotFindings.Required(v) ==>
          ReallyDone(v.fields, headSHA) && comments == Pagination.Suffix(t, 0))
  }

  /** The bot has reviewed the known head; no acknowledgement is awaited, and no finding is outstanding. */
  ghost predicate ReallyDone(m: Object, headSHA: string) {
    && BotFindings.Reviewed(m) && (headSHA != "" ==> BotFindings.ReviewOf(m, headSHA))
    && !BotFindings.IsTrue(m, "review_trigger_awaiting_ack")
    && (BotFindings.MarkedClean(m) ||
        (!BotFindings.Actionable(m) && !BotFindings.OutsideDiff(m) && !BotFindings.InConversation(m)))
  }

  /** Maps that resolve every path below the namespace `ns` alike. */
  ghost predicate SameBelow(a: Object, b: Object, ns: string) {
    forall path :: Segments(path) != [] && Segments(path)[0] == ns ==> PathValue(a, path) == PathValue(b, path)
  }

  /** Overlaying one namespace leaves everything below every other one as it was. */
  lemma OverlayKeepsOthers(flat: Object, ns: string, tree: Value, added: Object, other: string)
    requires CleanKey(ns) && ns != other && IsFlat(map[ns := tree], added)
    ensures SameBelow(flat + added, flat, other)
  {
    forall path | Segments(path) != [] && Segments(path)[0] == other
      ensures PathValue(flat + added, path) == PathValue(flat, path)
    {
      OverlayLookup(flat, ns, tree, added, path);
    }
  }

  lemma PathBelowNamespace(base: string, key: string)
    requires Segments(base) != [] && CleanKey(key)
    ensures Segments(At(base, key)) == Segments(base) + [key]
  {
    SplitDotAppend(base, key);
    SplitDotFree(key);
    NonEmptyAppend(Split(base), [key]);
    NonEmptyId([key]);
  }

  /** Reading a review signal off an index that agrees with the collected tree below the namespace. */
  lemma SignalBelow(sigs: Object, index: Object, ns: string, base: string, m: Object, key: string)
    requires SameBelow(index, sigs, ns) && PathValue(sigs, base) == Some(Obj(m))
    requires Segments(base) != [] && Segments(base)[0] == ns && CleanKey(key) && key in m
    ensures PathValue(index, At(base, key)) == Some(m[key])
  {
    PathBelow(sigs, base, key, m);
    PathBelowNamespace(base, key);
  }

  lemma InnerBelow(sigs: Object, index: Object, ns: string, base: string, m: Object, report: Pagination.Report,
                   d: Diagnostics.Report)
    requires SameBelow(index, sigs, ns) && PathValue(sigs, base) == Some(Obj(m))
    requires Segments(base) != [] && Segments(base)[0] == ns
    requires "review_threads_unresolved" in m && m["review_threads_unresolved"] == Int(report.unresolved)
    requires "pagination_incomplete" in m && m["pagination_incomplete"] == Bool(report.incomplete)
    requires "bot_review_diagnostics" in m && m["bot_review_diagnostics"] == Obj(Diagnostics.Signals(d))
    ensures GetInt(index, At(base, "review_threads_unresolved")) == Some(report.unresolved)
    ensures GetBool(index, At(base, "pagination_incomplete")) == Some(report.incomplete)
    ensures CarriesDiagnostics(index, DiagnosticsOf(base), d)
  {
    SignalBelow(sigs, index, ns, base, m, "review_threads_unresolved");
    SignalBelow(sigs, index, ns, base, m, "pagination_incomplete");
    SignalBelow(sigs, index, ns, base, m, "bot_review_diagnostics");
  }

  lemma ReviewsSegments(github: string)
    requires CleanKey(github)
    ensures Segments(Reviews(github)) == [github, "reviews"]
  {
    SplitDotFree(github);
    NonEmptyId([github]);
    assert CleanKey("reviews");
    PathBelowNamespace(github, "reviews");
  }

  /** The verdict on collected reviews, read off the report and the statuses. */
  lemma GuardReadsReviews(sigs: Object, index: Object, git: string, github: string, decisions: Object,
                          report: Pagination.Report, incomplete: bool, statuses: seq<Value>, headSHA: string,
                          lower: Lower)
    requires CleanKey(github) && SameBelow(index, sigs, github)
    requires PathValue(sigs, Reviews(github)) ==
             Some(Obj(ReviewsInner(decisions, report, incomplete, statuses, headSHA)))
    ensures EvalIn(index, git, github, lower).None? <==>
            && RestReady(index, git, github, lower)
            && report.unresolved == 0 && !report.incomplete && AllSatisfied(statuses, headSHA, incomplete)
  {
    var reviews, m := Reviews(github), ReviewsInner(decisions, report, incomplete, statuses, headSHA);
    FailsClosed(index, git, github, lower);
    InnerFields(decisions, report, incomplete, statuses, headSHA);
    ReviewsSegments(github);
    InnerBelow(sigs, index, github, reviews, m, report, Diagnostics.Compute(statuses, headSHA, incomplete));
    DiagnosticsReadyIff(index, DiagnosticsOf(reviews), statuses, headSHA, incomplete);
  }

  /** A required bot is satisfied exactly with a review of the known head, nothing awaited, nothing outstanding and all
      comments seen. */
  lemma SatisfiedIff(m: Object, headSHA: string, incomplete: bool)
    ensures Satisfied(m, headSHA, incomplete) <==>
            && BotFindings.Reviewed(m) && (headSHA != "" ==> BotFindings.ReviewOf(m, headSHA))
            && !BotFindings.IsTrue(m, "review_trigger_awaiting_ack") && !BotFindings.Outstanding(m) && !incomplete
  {
    BotFindings.TiersRead(m, headSHA);
    BotFindings.FindingsMeaning(m);
  }

  lemma SatisfiedDone(m: Object, headSHA: string, incomplete: bool)
    requires Satisfied(m, headSHA, incomplete)
    ensures ReallyDone(m, headSHA) && !incomplete
  {
    SatisfiedIff(m, headSHA, incomplete);
  }

  lemma BotsSatisfied(statuses: seq<Value>, headSHA: string, incomplete: bool)
    requires AllSatisfied(statuses, headSHA, incomplete)
    ensures forall v :: v in statuses && BotFindings.Required(v) ==> ReallyDone(v.fields, headSHA) && !incomplete
  {
    forall v | v in statuses && BotFindings.Required(v) ensures ReallyDone(v.fields, headSHA) && !incomplete {
      var i :| 0 <= i < |statuses| && statuses[i] == v;
      assert Diagnostics.RequiredBot(statuses[i]);
      SatisfiedDone(v.fields, headSHA, incomplete);
    }
  }

  /** Thread paging and comment merging against one server, as collection runs them. */
  function PagedThreads(l: Pagination.ThreadList): Pagination.Paged
    requires Pagination.GoodThreadList(l)
  {
    Pagination.PageThreads(l).0
  }

  function MergedTimeline(t: Pagination.Timeline, anyBots: bool): Pagination.MergedComments
    requires Pagination.GoodTimeline(t)
  {
    Pagination.MergeTimeline(t, anyBots).0
  }

  /** The signals hold, as `reviews` of the namespace, what collection assembles for this pull request. */
  ghost predicate Collected(sigs: Object, github: string, l: Pagination.ThreadList, t: Pagination.Timeline,
                            anyBots: bool,
                            decisions: Object, statuses: seq<Value>, headSHA: string)
    requires Pagination.GoodThreadList(l) && Pagination.GoodTimeline(t)
  {
    && PagedThreads(l).Ok? && PagedThreads(l).value.Some? && MergedTimeline(t, anyBots).Ok?
    && PathValue(sigs, Reviews(github)) ==
       Some(Obj(ReviewsInner(decisions, PagedThreads(l).value.value, MergedTimeline(t, anyBots).value.1, statuses,
                             headSHA)))
  }

  /** End to end: threads and comments are paged from the server, diagnostics computed, and the tree flattened and
      overlaid. The guard says OK exactly when the checks that do not concern reviews pass, every thread page was
      fetched and every thread on the server is resolved, and every required bot is satisfied. */
  lemma OkIffReviewed(l: Pagination.ThreadList, t: Pagination.Timeline, anyBots: bool, decisions: Object,
                      statuses: seq<Value>, headSHA: string, sigs: Object, index: Object, git: string,
                      github: string, lower: Lower)
    requires Pagination.GoodThreadList(l) && Pagination.GoodTimeline(t) && CleanKey(github)
    requires Collected(sigs, github, l, t, anyBots, decisions, statuses, headSHA) && SameBelow(index, sigs, github)
    ensures EvalIn(index, git, github, lower).None? <==>
            && RestReady(index, git, github, lower)
            && Pagination.PageThreads(l).1 == |l.pages| && AllResolved(Pagination.Concat(l.pages))
            && AllSatisfied(statuses, headSHA, MergedTimeline(t, anyBots).value.1)
  {
    ThreadsAnswered(l);
    var report, incomplete := PagedThreads(l).value.value, MergedTimeline(t, anyBots).value.1;
    GuardReadsReviews(sigs, index, git, github, decisions, report, incomplete, statuses, headSHA, lower);
    NoneUnresolved(Pagination.Concat(l.pages));
  }

  /** So an OK verdict means that every review thread on the server is resolved and every required bot has really
      reviewed the head, with nothing outstanding and all comments seen. */
  lemma OkMeansReallyReviewed(l: Pagination.ThreadList, t: Pagination.Timeline, anyBots: bool, decisions: Object,
                              statuses: seq<Value>, headSHA: string, sigs: Object, index: Object, git: string,
                              github: string, lower: Lower)
    requires Pagination.GoodThreadList(l) && Pagination.GoodTimeline(t) && CleanKey(github)
    requires Collected(sigs, github, l, t, anyBots, decisions, statuses, headSHA) && SameBelow(index, sigs, github)
    ensures EvalIn(index, git, github, lower).None? ==>
            ReallyReviewed(l, t, MergedTimeline(t, anyBots).value.0, statuses, headSHA)
  {
    if EvalIn(index, git, github, lower).None? {
      OkIffReviewed(l, t, anyBots, decisions, statuses, headSHA, sigs, index, git, github, lower);
      CommentsAnswered(t, anyBots);
      BotsSatisfied(statuses, headSHA, MergedTimeline(t, anyBots).value.1);
    }
  }

  /** Thread paging always yields a report, and it is complete exactly when every page was fetched; then it is about
      all threads on the server. */
  lemma ThreadsAnswered(l: Pagination.ThreadList)
    requires Pagination.GoodThreadList(l)
    ensures PagedThreads(l).Ok? && PagedThreads(l).value.Some?
    ensures !PagedThreads(l).value.value.incomplete <==> Pagination.PageThreads(l).1 == |l.pages|
    ensures !PagedThreads(l).value.value.incomplete ==>
              PagedThreads(l).value.value == Pagination.ReportOn(Pagination.Concat(l.pages), false)
  {
    Pagination.ThreadPaginationRefines(l);
  }

  /** Comment merging always succeeds, and a complete merge is the entire timeline. */
  lemma CommentsAnswered(t: Pagination.Timeline, anyBots: bool)
    requires Pagination.GoodTimeline(t)
    ensures MergedTimeline(t, anyBots).Ok?
    ensures !MergedTimeline(t, anyBots).value.1 ==> MergedTimeline(t, anyBots).value.0 == Pagination.Suffix(t, 0)
  {
    Pagination.CommentMergeRefines(t, anyBots);
  }

  /** The index that a context build or guard evaluation uses agrees with the collected tree below every
      namespace other than the overlaid ones. */
  lemma IndexAgreesBelow(sigs: Object, flat: Object, gates: Value, addedGates: Object, state: Value,
                         addedState: Object, ns: string)
    requires PlainTop(sigs) && IsFlat(sigs, flat)
    requires IsFlat(map["gates" := gates], addedGates) && IsFlat(map["state" := state], addedState)
    requires ns != "gates" && ns != "state"
    ensures SameBelow(flat, sigs, ns) && SameBelow(flat + addedGates, sigs, ns)
    ensures SameBelow(flat + addedGates + addedState, sigs, ns)
  {
    FlatSameLookups(sigs, flat);
    OverlayKeepsOthers(flat, "gates", gates, addedGates, ns);
    OverlayKeepsOthers(flat + addedGates, "state", state, addedState, ns);
  }
}
