/** The merge-readiness guard and declarative guard rules (`internal/guard`). `lower` stands for
    `strings.ToLower`. */
module Guard {
  import opened Results
  import opened Json
  import opened Text
  import opened Signals
  import Diagnostics
  import Match
  import Resolve

  type Lower = string -> string

  datatype Refusal =
    | Missing(path: string) | TreeDirty | UnresolvedThreads(n: int)
    | BotPending | RateLimited | Paused | BlockedMixed | BlockedOther(reason: string) | NonThreadFindings
    | AwaitingAck | NotTerminal | BotFailed | BotStale
    | ChangesRequested(n: int) | PaginationIncomplete | DecisionsTruncated
    | MergeState(state: string) | CiStatus(status: string)
    | UnknownGuard | RuleResolution(kind: Resolve.Kind)

  /** `None` is an OK verdict. */
  type Verdict = Option<Refusal>

  const MERGE_READINESS := "merge-readiness"

  function At(base: string, key: string): string {
    base + "." + key
  }

  function Reviews(github: string): string {
    At(github, "reviews")
  }

  function DiagnosticsOf(reviews: string): string {
    At(reviews, "bot_review_diagnostics")
  }

  /** A diagnostic flag that must be present; `bad` is its refusing value. */
  function CheckFlag(sigs: Object, diag: string, key: string, bad: bool, refusal: Refusal): Verdict {
    match GetBool(sigs, At(diag, key))
    case None => Some(Missing(At(diag, key)))
    case Some(b) => if b == bad then Some(refusal) else None
  }

  function CheckGit(sigs: Object, git: string): Verdict {
    match GetBool(sigs, At(git, "working_tree_clean"))
    case None => Some(Missing(At(git, "working_tree_clean")))
    case Some(clean) => if clean then None else Some(TreeDirty)
  }

  function CheckBlocked(sigs: Object, diag: string, lower: Lower): Verdict {
    match GetBool(sigs, At(diag, "bot_review_blocked"))
    case None => Some(Missing(At(diag, "bot_review_blocked")))
    case Some(false) => None
    case Some(true) =>
      match GetString(sigs, At(diag, "bot_review_block_reason"))
      case None => Some(Missing(At(diag, "bot_review_block_reason")))
      case Some(text) =>
        var reason := lower(Trim(text));
        if reason == "" then Some(Missing(At(diag, "bot_review_block_reason")))
        else if reason == Diagnostics.RATE_LIMITED then Some(RateLimited)
        else if reason == Diagnostics.REVIEW_PAUSED then Some(Paused)
        else if reason == Diagnostics.MIXED then Some(BlockedMixed)
        else Some(BlockedOther(reason))
  }

  function Then(first: Verdict, next: Verdict): Verdict {
    if first.Some? then first else next
  }

  /** `checkBotReviewDiagnostics`, in its order. */
  function CheckDiagnostics(sigs: Object, diag: string, lower: Lower): Verdict {
    Then(CheckFlag(sigs, diag, "bot_review_pending", true, BotPending),
    Then(CheckBlocked(sigs, diag, lower),
    Then(CheckFlag(sigs, diag, "non_thread_findings_present", true, NonThreadFindings),
    Then(CheckFlag(sigs, diag, "bot_review_trigger_awaiting_ack", true, AwaitingAck),
    Then(CheckFlag(sigs, diag, "bot_review_terminal", false, NotTerminal),
    Then(CheckFlag(sigs, diag, "bot_review_failed", true, BotFailed),
         CheckFlag(sigs, diag, "bot_review_stale", true, BotStale)))))))
  }

  function CheckZero(sigs: Object, reviews: string, key: string, refusal: int -> Refusal): Verdict {
    match GetInt(sigs, At(reviews, key))
    case None => Some(Missing(At(reviews, key)))
    case Some(n) => if n != 0 then Some(refusal(n)) else None
  }

  function CheckComplete(sigs: Object, reviews: string, key: string, refusal: Refusal): Verdict {
    match GetBool(sigs, At(reviews, key))
    case None => Some(Missing(At(reviews, key)))
    case Some(b) => if b then Some(refusal) else None
  }

  /** `checkReviewSignals`. */
  function CheckReviews(sigs: Object, reviews: string, lower: Lower): Verdict {
    Then(CheckZero(sigs, reviews, "review_threads_unresolved", n => UnresolvedThreads(n)),
    Then(CheckDiagnostics(sigs, DiagnosticsOf(reviews), lower),
    Then(CheckZero(sigs, reviews, "review_decisions_changes_requested", n => ChangesRequested(n)),
    Then(CheckComplete(sigs, reviews, "pagination_incomplete", PaginationIncomplete),
         CheckComplete(sigs, reviews, "review_decisions_truncated", DecisionsTruncated)))))
  }

  function CheckText(sigs: Object, path: string, want: string, lower: Lower, refusal: string -> Refusal): Verdict {
    match GetString(sigs, path)
    case None => Some(Missing(path))
    case Some(s) => if lower(s) == want then None else Some(refusal(s))
  }

  /** The guard over the namespaces `git` and `github`: the first refusing check decides. */
  function EvalIn(sigs: Object, git: string, github: string, lower: Lower): Verdict {
    Then(CheckGit(sigs, git),
    Then(CheckReviews(sigs, Reviews(github), lower),
    Then(CheckText(sigs, At(At(github, "pull_requests"), "merge_state_status"), "clean", lower, s => MergeState(s)),
         CheckText(sigs, At(At(github, "ci"), "ci_status"), "success", lower, s => CiStatus(s)))))
  }

  /** `evalMergeReadiness`. */
  function EvalMergeReadiness(sigs: Object, lower: Lower): Verdict {
    EvalIn(sigs, "git", "github", lower)
  }

  // ---------------------------------------------------------------- what OK means

  predicate Flag(sigs: Object, base: string, key: string, want: bool) {
    GetBool(sigs, At(base, key)) == Some(want)
  }

  predicate TextIs(sigs: Object, path: string, want: string, lower: Lower) {
    GetString(sigs, path).Some? && lower(GetString(sigs, path).value) == want
  }

  /** The checks of an OK verdict that do not concern review threads or bots. */
  predicate RestReady(sigs: Object, git: string, github: string, lower: Lower) {
    && Flag(sigs, git, "working_tree_clean", true)
    && GetInt(sigs, At(Reviews(github), "review_decisions_changes_requested")) == Some(0)
    && Flag(sigs, Reviews(github), "review_decisions_truncated", false)
    && TextIs(sigs, At(At(github, "pull_requests"), "merge_state_status"), "clean", lower)
    && TextIs(sigs, At(At(github, "ci"), "ci_status"), "success", lower)
  }

  predicate ThreadsReady(sigs: Object, reviews: string) {
    GetInt(sigs, At(reviews, "review_threads_unresolved")) == Some(0)
      && Flag(sigs, reviews, "pagination_incomplete", false)
  }

  predicate DiagnosticsReady(sigs: Object, diag: string) {
    && Flag(sigs, diag, "bot_review_pending", false)
    && Flag(sigs, diag, "bot_review_blocked", false)
    && Flag(sigs, diag, "non_thread_findings_present", false)
    && Flag(sigs, diag, "bot_review_trigger_awaiting_ack", false)
    && Flag(sigs, diag, "bot_review_terminal", true)
    && Flag(sigs, diag, "bot_review_failed", false)
    && Flag(sigs, diag, "bot_review_stale", false)
  }

  lemma DiagnosticsFailClosed(sigs: Object, diag: string, lower: Lower)
    ensures CheckDiagnostics(sigs, diag, lower).None? <==> DiagnosticsReady(sigs, diag)
  {
  }

  lemma ReviewsFailClosed(sigs: Object, reviews: string, lower: Lower)
    ensures CheckReviews(sigs, reviews, lower).None? <==>
            && GetInt(sigs, At(reviews, "review_threads_unresolved")) == Some(0)
            && CheckDiagnostics(sigs, DiagnosticsOf(reviews), lower).None?
            && GetInt(sigs, At(reviews, "review_decisions_changes_requested")) == Some(0)
            && Flag(sigs, reviews, "pagination_incomplete", false)
            && Flag(sigs, reviews, "review_decisions_truncated", false)
  {
  }

  /** The guard fails closed: it is OK only if every signal is present with its passing value. */
  lemma FailsClosed(sigs: Object, git: string, github: string, lower: Lower)
    ensures EvalIn(sigs, git, github, lower).None? <==>
            && RestReady(sigs, git, github, lower) && ThreadsReady(sigs, Reviews(github))
            && DiagnosticsReady(sigs, DiagnosticsOf(Reviews(github)))
  {
    DiagnosticsFailClosed(sigs, DiagnosticsOf(Reviews(github)), lower);
    ReviewsFailClosed(sigs, Reviews(github), lower);
  }

  // ---------------------------------------------------------------- what a refusal means

  /** What the signals show when the guard refuses for the given reason. */
  predicate Explained(sigs: Object, git: string, github: string, lower: Lower, r: Refusal) {
    var reviews := Reviews(github);
    var diag := DiagnosticsOf(reviews);
    match r
    case Missing(_) => true
    case TreeDirty => Flag(sigs, git, "working_tree_clean", false)
    case UnresolvedThreads(n) => n != 0 && GetInt(sigs, At(reviews, "review_threads_unresolved")) == Some(n)
    case BotPending => Flag(sigs, diag, "bot_review_pending", true)
    case RateLimited => Flag(sigs, diag, "bot_review_blocked", true) && ReasonIs(sigs, diag, lower, "rate_limited")
    case Paused => Flag(sigs, diag, "bot_review_blocked", true) && ReasonIs(sigs, diag, lower, "review_paused")
    case BlockedMixed => Flag(sigs, diag, "bot_review_blocked", true) && ReasonIs(sigs, diag, lower, "mixed")
    case BlockedOther(text) => Flag(sigs, diag, "bot_review_blocked", true) && ReasonIs(sigs, diag, lower, text)
    case NonThreadFindings => Flag(sigs, diag, "non_thread_findings_present", true)
    case AwaitingAck => Flag(sigs, diag, "bot_review_trigger_awaiting_ack", true)
    case NotTerminal => Flag(sigs, diag, "bot_review_terminal", false)
    case BotFailed => Flag(sigs, diag, "bot_review_failed", true)
    case BotStale => Flag(sigs, diag, "bot_review_stale", true)
    case ChangesRequested(n) => n != 0 && GetInt(sigs, At(reviews, "review_decisions_changes_requested")) == Some(n)
    case PaginationIncomplete => Flag(sigs, reviews, "pagination_incomplete", true)
    case DecisionsTruncated => Flag(sigs, reviews, "review_decisions_truncated", true)
    case MergeState(s) =>
      GetString(sigs, At(At(github, "pull_requests"), "merge_state_status")) == Some(s) && lower(s) != "clean"
    case CiStatus(s) => GetString(sigs, At(At(github, "ci"), "ci_status")) == Some(s) && lower(s) != "success"
    case UnknownGuard => false
    case RuleResolution(_) => false
  }

  predicate ReasonIs(sigs: Object, diag: string, lower: Lower, want: string) {
    var text := GetString(sigs, At(diag, "bot_review_block_reason"));
    text.Some? && want != "" && lower(Trim(text.value)) == want
  }

  lemma FlagExplained(sigs: Object, git: string, github: string, lower: Lower, key: string, bad: bool, r: Refusal)
    requires r in {BotPending, Refusal.NonThreadFindings, AwaitingAck, NotTerminal, BotFailed, BotStale}
    requires Flag(sigs, DiagnosticsOf(Reviews(github)), key, bad) ==> Explained(sigs, git, github, lower, r)
    ensures var v := CheckFlag(sigs, DiagnosticsOf(Reviews(github)), key, bad, r);
            v.Some? ==> Explained(sigs, git, github, lower, v.value)
  {
  }

  lemma BlockedExplained(sigs: Object, git: string, github: string, lower: Lower)
    ensures var v := CheckBlocked(sigs, DiagnosticsOf(Reviews(github)), lower);
            v.Some? ==> Explained(sigs, git, github, lower, v.value)
  {
  }

  lemma DiagnosticsExplained(sigs: Object, git: string, github: string, lower: Lower)
    ensures var v := CheckDiagnostics(sigs, DiagnosticsOf(Reviews(github)), lower);
            v.Some? ==> Explained(sigs, git, github, lower, v.value)
  {
    FlagExplained(sigs, git, github, lower, "bot_review_pending", true, BotPending);
    BlockedExplained(sigs, git, github, lower);
    FlagExplained(sigs, git, github, lower, "non_thread_findings_present", true, Refusal.NonThreadFindings);
    FlagExplained(sigs, git, github, lower, "bot_review_trigger_awaiting_ack", true, AwaitingAck);
    FlagExplained(sigs, git, github, lower, "bot_review_terminal", false, NotTerminal);
    FlagExplained(sigs, git, github, lower, "bot_review_failed", true, BotFailed);
    FlagExplained(sigs, git, github, lower, "bot_review_stale", true, BotStale);
  }

  lemma ReviewsExplained(sigs: Object, git: string, github: string, lower: Lower)
    ensures var v := CheckReviews(sigs, Reviews(github), lower);
            v.Some? ==> Explained(sigs, git, github, lower, v.value)
  {
    DiagnosticsExplained(sigs, git, github, lower);
  }

  lemma OthersExplained(sigs: Object, git: string, github: string, lower: Lower)
    ensures var v := CheckGit(sigs, git); v.Some? ==> Explained(sigs, git, github, lower, v.value)
    ensures var v := CheckText(sigs, At(At(github, "pull_requests"), "merge_state_status"), "clean", lower,
                               s => MergeState(s));
            v.Some? ==> Explained(sigs, git, github, lower, v.value)
    ensures var v := CheckText(sigs, At(At(github, "ci"), "ci_status"), "success", lower, s => CiStatus(s));
            v.Some? ==> Explained(sigs, git, github, lower, v.value)
  {
  }

  /** Whatever the guard refuses for is what the signals show. */
  lemma RefusalsExplained(sigs: Object, git: string, github: string, lower: Lower)
    ensures var v := EvalIn(sigs, git, github, lower);
            v.Some? ==> Explained(sigs, git, github, lower, v.value)
  {
    ReviewsExplained(sigs, git, github, lower);
    OthersExplained(sigs, git, github, lower);
  }

  // ---------------------------------------------------------------- paths below a known object

  lemma {:induction false} LookupAppend(v: Value, a: seq<string>, b: seq<string>)
    ensures Lookup(v, a + b) == match Lookup(v, a) case None => None case Some(w) => Lookup(w, b)
  {
    if a == [] {
      assert a + b == b;
    } else if v.Obj? && a[0] in v.fields {
      LookupAppend(v.fields[a[0]], a[1..], b);
      assert (a + b)[1..] == a[1..] + b;
    }
  }

  lemma PathBelow(root: Object, base: string, key: string, m: Object)
    requires CleanKey(key) && PathValue(root, base) == Some(Obj(m))
    ensures PathValue(root, At(base, key)) == if key in m then Some(m[key]) else None
  {
    SplitDotAppend(base, key);
    SplitDotFree(key);
    NonEmptyAppend(Split(base), [key]);
    NonEmptyId([key]);
    LookupAppend(Obj(root), Segments(base), [key]);
    assert [key][1..] == [];
    assert Lookup(Obj(m), [key]) == if key in m then Lookup(m[key], []) else None;
  }

  // ---------------------------------------------------------------- guard on computed diagnostics

  /** Diagnostics that `ComputeBotReviewDiagnostics` produced are in the signals. */
  predicate CarriesDiagnostics(sigs: Object, diag: string, report: Diagnostics.Report) {
    PathValue(sigs, diag) == Some(Obj(Diagnostics.Signals(report)))
  }

  predicate HasFlag(m: Object, key: string, b: bool) {
    key in m && m[key] == Bool(b)
  }

  lemma BelowBool(sigs: Object, base: string, key: string, m: Object, b: bool)
    requires PathValue(sigs, base) == Some(Obj(m)) && CleanKey(key) && HasFlag(m, key, b)
    ensures GetBool(sigs, At(base, key)) == Some(b)
  {
    PathBelow(sigs, base, key, m);
  }

  /** The flags of `report` that the guard reads, as the signals show them. */
  predicate ShowsFlags(sigs: Object, diag: string, report: Diagnostics.Report) {
    && GetBool(sigs, At(diag, "bot_review_pending")) == Some(report.pending)
    && GetBool(sigs, At(diag, "bot_review_blocked")) == Some(report.blocked)
    && GetBool(sigs, At(diag, "non_thread_findings_present")) == Some(report.nonThreadFindings)
    && GetBool(sigs, At(diag, "bot_review_trigger_awaiting_ack")) == Some(report.triggerAwaitingAck)
    && GetBool(sigs, At(diag, "bot_review_terminal")) == Some(report.terminal)
    && GetBool(sigs, At(diag, "bot_review_failed")) == Some(report.failed)
    && GetBool(sigs, At(diag, "bot_review_stale")) == Some(report.stale)
  }

  lemma BlockReasonSignal(sigs: Object, base: string, report: Diagnostics.Report)
    requires PathValue(sigs, base) == Some(Obj(Diagnostics.Signals(report)))
    ensures GetString(sigs, At(base, "bot_review_block_reason")) == Some(report.blockReason)
  {
    PathBelow(sigs, base, "bot_review_block_reason", Diagnostics.Signals(report));
  }

  /** `m` holds the flags of `report` that the guard reads. */
  predicate HoldsFlags(m: Object, report: Diagnostics.Report) {
    && HasFlag(m, "bot_review_pending", report.pending)
    && HasFlag(m, "bot_review_blocked", report.blocked)
    && HasFlag(m, "non_thread_findings_present", report.nonThreadFindings)
    && HasFlag(m, "bot_review_trigger_awaiting_ack", report.triggerAwaitingAck)
    && HasFlag(m, "bot_review_terminal", report.terminal)
    && HasFlag(m, "bot_review_failed", report.failed)
    && HasFlag(m, "bot_review_stale", report.stale)
  }

  lemma SignalsHoldFlags(report: Diagnostics.Report)
    ensures HoldsFlags(Diagnostics.Signals(report), report)
  {
  }

  lemma FlagKeysClean()
    ensures CleanKey("bot_review_pending") && CleanKey("bot_review_blocked") && CleanKey("non_thread_findings_present")
    ensures CleanKey("bot_review_trigger_awaiting_ack") && CleanKey("bot_review_terminal")
    ensures CleanKey("bot_review_failed") && CleanKey("bot_review_stale")
  {
  }

  lemma DiagnosticFlags(sigs: Object, diag: string, m: Object, report: Diagnostics.Report)
    requires PathValue(sigs, diag) == Some(Obj(m)) && HoldsFlags(m, report)
    ensures ShowsFlags(sigs, diag, report)
  {
    FlagKeysClean();
    BelowBool(sigs, diag, "bot_review_pending", m, report.pending);
    BelowBool(sigs, diag, "bot_review_blocked", m, report.blocked);
    BelowBool(sigs, diag, "non_thread_findings_present", m, report.nonThreadFindings);
    BelowBool(sigs, diag, "bot_review_trigger_awaiting_ack", m, report.triggerAwaitingAck);
    BelowBool(sigs, diag, "bot_review_terminal", m, report.terminal);
    BelowBool(sigs, diag, "bot_review_failed", m, report.failed);
    BelowBool(sigs, diag, "bot_review_stale", m, report.stale);
  }

  lemma ReadyByFlags(sigs: Object, diag: string, r: Diagnostics.Report)
    requires ShowsFlags(sigs, diag, r)
    ensures DiagnosticsReady(sigs, diag) <==>
            !r.pending && !r.blocked && !r.nonThreadFindings && !r.triggerAwaitingAck && r.terminal && !r.failed
              && !r.stale
  {
  }

  /** A required bot with a finished review of the known head, nothing outstanding, and comments seen in full. */
  predicate Satisfied(m: Object, headSHA: string, incomplete: bool) {
    && Diagnostics.IsReviewed(m) && !Diagnostics.StaleReview(m, headSHA)
    && !Diagnostics.AwaitsAck(m) && !Diagnostics.NonThreadFindings(m) && !incomplete
  }

  ghost predicate AllSatisfied(statuses: seq<Value>, headSHA: string, incomplete: bool) {
    !Diagnostics.SomeBot(statuses, m => !Satisfied(m, headSHA, incomplete))
  }

  /** On computed diagnostics the guard's bot checks pass exactly when every required bot is satisfied. */
  lemma DiagnosticsReadyIff(sigs: Object, diag: string, statuses: seq<Value>, headSHA: string, incomplete: bool)
    requires CarriesDiagnostics(sigs, diag, Diagnostics.Compute(statuses, headSHA, incomplete))
    ensures DiagnosticsReady(sigs, diag) <==> AllSatisfied(statuses, headSHA, incomplete)
  {
    var report := Diagnostics.Compute(statuses, headSHA, incomplete);
    SignalsHoldFlags(report);
    DiagnosticFlags(sigs, diag, Diagnostics.Signals(report), report);
    ReadyByFlags(sigs, diag, report);
    Diagnostics.FlagsMeaning(statuses, headSHA, incomplete);
    AllSatisfiedSplit(statuses, headSHA, incomplete);
    Diagnostics.BlockedOrFailedUnreviewed(statuses);
  }

  lemma AllSatisfiedSplit(statuses: seq<Value>, headSHA: string, incomplete: bool)
    ensures AllSatisfied(statuses, headSHA, incomplete) <==>
            && !Diagnostics.SomeBot(statuses, m => !Diagnostics.IsReviewed(m))
            && !Diagnostics.SomeBot(statuses, m => Diagnostics.StaleReview(m, headSHA))
            && !Diagnostics.SomeBot(statuses, Diagnostics.AwaitsAck)
            && !Diagnostics.SomeBot(statuses, Diagnostics.NonThreadFindings)
            && !(incomplete && Diagnostics.SomeBot(statuses, m => true))
  {
    var bad := m => !Satisfied(m, headSHA, incomplete);
    Diagnostics.Weaken(statuses, m => !Diagnostics.IsReviewed(m), bad);
    Diagnostics.Weaken(statuses, m => Diagnostics.StaleReview(m, headSHA), bad);
    Diagnostics.Weaken(statuses, Diagnostics.AwaitsAck, bad);
    Diagnostics.Weaken(statuses, Diagnostics.NonThreadFindings, bad);
    if incomplete {
      Diagnostics.Weaken(statuses, m => true, bad);
    }
    if Diagnostics.SomeBot(statuses, bad) {
      var i :| 0 <= i < |statuses| && Diagnostics.RequiredBot(statuses[i]) && bad(statuses[i].fields);
    }
  }

  predicate KeepsReasons(lower: Lower) {
    forall s :: s in {Diagnostics.RATE_LIMITED, Diagnostics.REVIEW_PAUSED, Diagnostics.MIXED} ==> lower(s) == s
  }

  lemma ReasonRecognised(sigs: Object, diag: string, blocked: bool, reason: string, lower: Lower)
    requires GetBool(sigs, At(diag, "bot_review_blocked")) == Some(blocked)
    requires GetString(sigs, At(diag, "bot_review_block_reason")) == Some(reason) && Trim(reason) == reason
    requires reason in {"", Diagnostics.RATE_LIMITED, Diagnostics.REVIEW_PAUSED, Diagnostics.MIXED}
             && blocked == (reason != "")
    requires KeepsReasons(lower)
    ensures CheckBlocked(sigs, diag, lower) in {None, Some(RateLimited), Some(Paused), Some(BlockedMixed)}
  {
  }

  /** On computed diagnostics the refusal for a missing block reason cannot occur. */
  lemma BlockReasonPresent(sigs: Object, diag: string, statuses: seq<Value>, headSHA: string, incomplete: bool,
                           lower: Lower)
    requires CarriesDiagnostics(sigs, diag, Diagnostics.Compute(statuses, headSHA, incomplete))
    requires KeepsReasons(lower)
    ensures CheckBlocked(sigs, diag, lower) in {None, Some(RateLimited), Some(Paused), Some(BlockedMixed)}
  {
    var report := Diagnostics.Compute(statuses, headSHA, incomplete);
    SignalsHoldFlags(report);
    DiagnosticFlags(sigs, diag, Diagnostics.Signals(report), report);
    BlockReasonSignal(sigs, diag, report);
    Diagnostics.FlagsMeaning(statuses, headSHA, incomplete);
    ReasonTrimmed(report.blockReason);
    ReasonRecognised(sigs, diag, report.blocked, report.blockReason, lower);
  }

  lemma ReasonTrimmed(reason: string)
    requires reason in {"", Diagnostics.RATE_LIMITED, Diagnostics.REVIEW_PAUSED, Diagnostics.MIXED}
    ensures Trim(reason) == reason
  {
    TrimFixpoint(reason);
  }

  // ---------------------------------------------------------------- declarative guard rules

  predicate HasGuardRules(rules: seq<Resolve.Rule>, guardID: string) {
    exists i :: 0 <= i < |rules| && rules[i].typ == "guard" && rules[i].guardID == guardID
  }

  /** `hasGuardRulesForID`. */
  method RunHasGuardRules(rules: seq<Resolve.Rule>, guardID: string) returns (found: bool)
    ensures found <==> HasGuardRules(rules, guardID)
  {
    for i := 0 to |rules|
      invariant forall j :: 0 <= j < i ==> !(rules[j].typ == "guard" && rules[j].guardID == guardID)
    {
      if rules[i].typ == "guard" && rules[i].guardID == guardID {
        return true;
      }
    }
    return false;
  }

  /** `res` is a possible verdict of `EvalWithRules` with the default registry. */
  ghost predicate IsVerdict(rules: seq<Resolve.Rule>, guardID: string, sigs: Object, degraded: set<string>,
                            pf: Match.Parser, lower: Lower, res: Verdict)
  {
    if guardID != MERGE_READINESS then res == Some(UnknownGuard)
    else if HasGuardRules(rules, guardID) then
      exists out :: Resolve.IsOutcome(Resolve.ScopeGuard(rules, guardID), sigs, degraded, "guard", false, pf, out)
                    && res == if out.kind == Resolve.Resolved then EvalMergeReadiness(sigs, lower)
                              else Some(RuleResolution(out.kind))
    else res == EvalMergeReadiness(sigs, lower)
  }

  /** The one guard there is. */
  lemma UnknownGuardIff(rules: seq<Resolve.Rule>, guardID: string, sigs: Object, degraded: set<string>,
                        pf: Match.Parser, lower: Lower, res: Verdict)
    requires IsVerdict(rules, guardID, sigs, degraded, pf, lower, res)
    ensures res == Some(UnknownGuard) <==> guardID != "merge-readiness"
  {
    RefusalsExplained(sigs, "git", "github", lower);
    assert EvalMergeReadiness(sigs, lower) != Some(UnknownGuard);
  }

  /** `EvalWithRules`. */
  method EvalWithRules(rules: seq<Resolve.Rule>, guardID: string, sigs: Object, degraded: set<string>,
                       pf: Match.Parser, lower: Lower)
    returns (res: Verdict)
    ensures IsVerdict(rules, guardID, sigs, degraded, pf, lower, res)
  {
    if guardID != MERGE_READINESS {
      return Some(UnknownGuard);
    }
    var declared := RunHasGuardRules(rules, guardID);
    if declared {
      var out := Resolve.ResolveCore(Resolve.ScopeGuard(rules, guardID), sigs, degraded, "guard", false, pf);
      if out.kind != Resolve.Resolved {
        return Some(RuleResolution(out.kind));
      }
    }
    return EvalMergeReadiness(sigs, lower);
  }
}
