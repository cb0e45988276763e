/** Aggregated diagnostics over per-bot review statuses (`internal/observe/github/prquery/diagnostics.go`). */
module Diagnostics {
  import opened Results
  import opened Json

  const COMPLETED := "completed"
  const COMPLETED_CLEAN := "completed_clean"
  const RATE_LIMITED := "rate_limited"
  const REVIEW_PAUSED := "review_paused"
  const REVIEW_FAILED := "review_failed"
  const MIXED := "mixed"

  predicate ReviewedTier(s: string) {
    s == COMPLETED || s == COMPLETED_CLEAN
  }

  predicate BlockedTier(s: string) {
    s == RATE_LIMITED || s == REVIEW_PAUSED
  }

  predicate FailedTier(s: string) {
    s == REVIEW_FAILED
  }

  /** The ten diagnostic flags. */
  datatype Report = Report(
    completed: bool, pending: bool, terminal: bool, blocked: bool, blockReason: string, failed: bool, stale: bool,
    triggerAwaitingAck: bool, duplicateFindings: bool, nonThreadFindings: bool)

  // ---------------------------------------------------------------- reading one status map

  predicate BoolField(m: Object, k: string) {
    k in m && m[k] == Bool(true)
  }

  function StrField(m: Object, k: string): string {
    if k in m && m[k].Str? then m[k].s else ""
  }

  /** `intFromStatusMapAny` for a key and its older alias: the first that holds a number. */
  function IntField(m: Object, k: string, alias: string): Option<int> {
    var own := NumberAt(m, k);
    if own.Some? then own else NumberAt(m, alias)
  }

  function NumberAt(m: Object, k: string): Option<int> {
    if k !in m then None
    else match m[k]
      case Int(i) => Some(i)
      case Real(r) => Some(Truncate(r))
      case _ => None
  }

  function IntOrZero(m: Object, k: string, alias: string): int {
    match IntField(m, k, alias) case Some(n) => n case None => 0
  }

  /** An entry of the status list that describes a required bot. */
  predicate RequiredBot(v: Value) {
    v.Obj? && BoolField(v.fields, "required")
  }

  predicate DuplicatesReported(m: Object) {
    IntOrZero(m, "duplicate_findings_count", "cr_duplicate_findings_count") > 0
  }

  predicate NonThreadFindings(m: Object) {
    if StrField(m, "status") == COMPLETED_CLEAN then false
    else if BoolField(m, "cr_review_completed_clean") || BoolField(m, "review_completed_clean") then false
    else
      var a := IntOrZero(m, "actionable_findings_count", "cr_actionable_comments_count");
      var o := IntOrZero(m, "outside_diff_findings_count", "cr_outside_diff_comments_count");
      var d := IntOrZero(m, "duplicate_findings_count", "cr_duplicate_findings_count");
      var f := IntOrZero(m, "finding_conversation_comments_count", "cr_finding_conversation_comments_count");
      var d := if a == 0 && o == 0 && d > 0 then 0 else d;
      a > 0 || o > 0 || d > 0 || f > 0
  }

  predicate AwaitsAck(m: Object) {
    BoolField(m, "review_trigger_awaiting_ack")
  }

  /** A reviewed bot whose review is not of the known head. */
  predicate StaleReview(m: Object, headSHA: string) {
    var sha := StrField(m, "review_commit_sha");
    ReviewedTier(StrField(m, "status")) && headSHA != "" && (sha == "" || sha != headSHA)
  }

  // ---------------------------------------------------------------- the fold

  datatype Agg = Agg(blockedReason: string, sawRequired: bool, anyBlocked: bool, anyFailed: bool, allReviewed: bool,
                     anyStale: bool)

  const EMPTY_AGG := Agg("", false, false, false, true, false)

  /** `combineBlockedReason`. */
  function Combine(current: string, next: string): string {
    if next == "" || next == current then current
    else if current == "" then next
    else MIXED
  }

  /** Combining keeps a reason that is repeated or followed by none, and mixes different ones. */
  lemma CombineMeaning(current: string, next: string)
    ensures Combine(current, "") == current && Combine("", next) == next && Combine(current, current) == current
    ensures current != "" && next != "" && current != next ==> Combine(current, next) == "mixed"
  {
  }

  /** What `accumulateRequiredBotReviewState` does to the aggregate. */
  function Absorb(agg: Agg, v: Value, headSHA: string): Agg {
    if !RequiredBot(v) then agg
    else
      var st := StrField(v.fields, "status");
      var seen := agg.(sawRequired := true);
      if BlockedTier(st) then
        seen.(anyBlocked := true, allReviewed := false, blockedReason := Combine(agg.blockedReason, st))
      else if FailedTier(st) then seen.(anyFailed := true, allReviewed := false)
      else if ReviewedTier(st) then seen.(anyStale := agg.anyStale || StaleReview(v.fields, headSHA))
      else seen.(allReviewed := false)
  }

  function Fold(statuses: seq<Value>, headSHA: string): Agg {
    if statuses == [] then EMPTY_AGG
    else Absorb(Fold(statuses[..|statuses| - 1], headSHA), statuses[|statuses| - 1], headSHA)
  }

  /** The mutable aggregate that the accumulation loop updates field by field. */
  class BotReviewAggregate {
    var blockedReason: string
    var sawRequired: bool
    var anyBlocked: bool
    var anyFailed: bool
    var allReviewed: bool
    var anyStale: bool

    function View(): Agg
      reads this
    {
      Agg(blockedReason, sawRequired, anyBlocked, anyFailed, allReviewed, anyStale)
    }

    constructor ()
      ensures View() == EMPTY_AGG
    {
      blockedReason, sawRequired, anyBlocked, anyFailed, allReviewed, anyStale := "", false, false, false, true, false;
    }

    method Accumulate(v: Value, headSHA: string)
      modifies this
      ensures View() == Absorb(old(View()), v, headSHA)
    {
      if !v.Obj? || !BoolField(v.fields, "required") {
        return;
      }
      sawRequired := true;
      var st := StrField(v.fields, "status");
      if BlockedTier(st) {
        anyBlocked := true;
        allReviewed := false;
        blockedReason := Combine(blockedReason, st);
      } else if FailedTier(st) {
        anyFailed := true;
        allReviewed := false;
      } else if ReviewedTier(st) {
        var reviewSHA := StrField(v.fields, "review_commit_sha");
        if headSHA != "" && (reviewSHA == "" || reviewSHA != headSHA) {
          anyStale := true;
        }
      } else {
        allReviewed := false;
      }
    }
  }

  /** Some required bot of the list has the property. */
  ghost predicate SomeBot(statuses: seq<Value>, p: Object -> bool) {
    exists i :: 0 <= i < |statuses| && RequiredBot(statuses[i]) && p(statuses[i].fields)
  }

  method AnyBot(statuses: seq<Value>, p: Object -> bool) returns (found: bool)
    ensures found <==> SomeBot(statuses, p)
  {
    for i := 0 to |statuses|
      invariant forall j :: 0 <= j < i ==> !(RequiredBot(statuses[j]) && p(statuses[j].fields))
    {
      if RequiredBot(statuses[i]) && p(statuses[i].fields) {
        return true;
      }
    }
    return false;
  }

  /** `buildBotReviewDiagnostics`. */
  function Build(agg: Agg, duplicates: bool, nonThread: bool, awaiting: bool): Report {
    if !agg.sawRequired then Report(true, false, true, false, "", false, false, false, duplicates, nonThread)
    else
      var completed := !agg.anyFailed && !agg.anyBlocked && agg.allReviewed;
      var terminal := agg.anyFailed || completed;
      var pending := !terminal && !agg.anyBlocked;
      Report(completed, pending, terminal, agg.anyBlocked, agg.blockedReason, agg.anyFailed, agg.anyStale, awaiting,
             duplicates, nonThread)
  }

  ghost function Compute(statuses: seq<Value>, headSHA: string, incomplete: bool): Report {
    Build(Fold(statuses, headSHA),
          SomeBot(statuses, DuplicatesReported),
          SomeBot(statuses, NonThreadFindings) || (incomplete && SomeBot(statuses, m => true)),
          SomeBot(statuses, AwaitsAck))
  }

  /** `ComputeBotReviewDiagnostics`. */
  method ComputeBotReviewDiagnostics(statuses: seq<Value>, headSHA: string, incomplete: bool) returns (r: Report)
    ensures r == Compute(statuses, headSHA, incomplete)
  {
    var duplicates := AnyBot(statuses, DuplicatesReported);
    var nonThread := AnyBot(statuses, NonThreadFindings);
    if incomplete {
      var hasRequired := AnyBot(statuses, m => true);
      nonThread := nonThread || hasRequired;
    }
    var agg := new BotReviewAggregate();
    for i := 0 to |statuses|
      invariant agg.View() == Fold(statuses[..i], headSHA)
    {
      assert statuses[..i + 1][..i] == statuses[..i];
      agg.Accumulate(statuses[i], headSHA);
    }
    assert statuses[..|statuses|] == statuses;
    var awaiting := AnyBot(statuses, AwaitsAck);
    r := Build(agg.View(), duplicates, nonThread, awaiting);
  }

  // ---------------------------------------------------------------- what the flags mean

  predicate HasStatus(m: Object, s: string) {
    StrField(m, "status") == s
  }

  predicate IsBlocked(m: Object) {
    BlockedTier(StrField(m, "status"))
  }

  predicate IsFailed(m: Object) {
    FailedTier(StrField(m, "status"))
  }

  predicate IsReviewed(m: Object) {
    ReviewedTier(StrField(m, "status"))
  }

  /** "mixed" when both blocked tiers occur, else the one that occurs, else empty. */
  function ReasonOf(limited: bool, paused: bool): string {
    if limited && paused then MIXED else if limited then RATE_LIMITED else if paused then REVIEW_PAUSED else ""
  }

  /** The common tier of the blocked required bots, "mixed" when they differ, empty when there is none. */
  ghost function BlockReason(statuses: seq<Value>): string {
    ReasonOf(SomeBot(statuses, m => HasStatus(m, RATE_LIMITED)), SomeBot(statuses, m => HasStatus(m, REVIEW_PAUSED)))
  }

  function AggOf(required: bool, limited: bool, paused: bool, failed: bool, unreviewed: bool, stale: bool): Agg {
    Agg(ReasonOf(limited, paused), required, limited || paused, failed, !unreviewed, stale)
  }

  lemma AbsorbFacts(v: Value, headSHA: string, required: bool, limited: bool, paused: bool, failed: bool,
                    unreviewed: bool, stale: bool)
    ensures var bot := RequiredBot(v);
            Absorb(AggOf(required, limited, paused, failed, unreviewed, stale), v, headSHA) ==
            AggOf(required || bot,
                  limited || (bot && HasStatus(v.fields, RATE_LIMITED)),
                  paused || (bot && HasStatus(v.fields, REVIEW_PAUSED)),
                  failed || (bot && IsFailed(v.fields)),
                  unreviewed || (bot && !IsReviewed(v.fields)),
                  stale || (bot && StaleReview(v.fields, headSHA)))
  {
  }

  /** The aggregate read off the list by order-free questions about the required bots. */
  ghost function Summary(statuses: seq<Value>, headSHA: string): Agg {
    AggOf(SomeBot(statuses, m => true),
          SomeBot(statuses, m => HasStatus(m, RATE_LIMITED)), SomeBot(statuses, m => HasStatus(m, REVIEW_PAUSED)),
          SomeBot(statuses, IsFailed), SomeBot(statuses, m => !IsReviewed(m)),
          SomeBot(statuses, m => StaleReview(m, headSHA)))
  }

  lemma SomeBotLast(statuses: seq<Value>, p: Object -> bool)
    requires statuses != []
    ensures var n := |statuses| - 1;
            SomeBot(statuses, p) == (SomeBot(statuses[..n], p) || (RequiredBot(statuses[n]) && p(statuses[n].fields)))
  {
    var n := |statuses| - 1;
    assert forall i :: 0 <= i < n ==> statuses[..n][i] == statuses[i];
  }

  lemma TiersLast(statuses: seq<Value>)
    requires statuses != []
    ensures var before, last := statuses[..|statuses| - 1], statuses[|statuses| - 1];
            var bot := RequiredBot(last);
            && SomeBot(statuses, m => true) == (SomeBot(before, m => true) || bot)
            && SomeBot(statuses, m => HasStatus(m, RATE_LIMITED)) ==
               (SomeBot(before, m => HasStatus(m, RATE_LIMITED)) || (bot && HasStatus(last.fields, RATE_LIMITED)))
            && SomeBot(statuses, m => HasStatus(m, REVIEW_PAUSED)) ==
               (SomeBot(before, m => HasStatus(m, REVIEW_PAUSED)) || (bot && HasStatus(last.fields, REVIEW_PAUSED)))
  {
    SomeBotLast(statuses, m => true);
    SomeBotLast(statuses, m => HasStatus(m, RATE_LIMITED));
    SomeBotLast(statuses, m => HasStatus(m, REVIEW_PAUSED));
  }

  lemma ReviewsLast(statuses: seq<Value>, headSHA: string)
    requires statuses != []
    ensures var before, last := statuses[..|statuses| - 1], statuses[|statuses| - 1];
            var bot := RequiredBot(last);
            && SomeBot(statuses, IsFailed) == (SomeBot(before, IsFailed) || (bot && IsFailed(last.fields)))
            && SomeBot(statuses, m => !IsReviewed(m)) ==
               (SomeBot(before, m => !IsReviewed(m)) || (bot && !IsReviewed(last.fields)))
            && SomeBot(statuses, m => StaleReview(m, headSHA)) ==
               (SomeBot(before, m => StaleReview(m, headSHA)) || (bot && StaleReview(last.fields, headSHA)))
  {
    SomeBotLast(statuses, IsFailed);
    SomeBotLast(statuses, m => !IsReviewed(m));
    SomeBotLast(statuses, m => StaleReview(m, headSHA));
  }

  lemma SummaryLast(statuses: seq<Value>, headSHA: string)
    requires statuses != []
    ensures Summary(statuses, headSHA) ==
            Absorb(Summary(statuses[..|statuses| - 1], headSHA), statuses[|statuses| - 1], headSHA)
  {
    var before, last := statuses[..|statuses| - 1], statuses[|statuses| - 1];
    TiersLast(statuses);
    ReviewsLast(statuses, headSHA);
    AbsorbFacts(last, headSHA,
                SomeBot(before, m => true),
                SomeBot(before, m => HasStatus(m, RATE_LIMITED)), SomeBot(before, m => HasStatus(m, REVIEW_PAUSED)),
                SomeBot(before, IsFailed), SomeBot(before, m => !IsReviewed(m)),
                SomeBot(before, m => StaleReview(m, headSHA)));
  }

  /** The running fold computes the order-free summary. */
  lemma {:induction false} FoldMeaning(statuses: seq<Value>, headSHA: string)
    ensures Fold(statuses, headSHA) == Summary(statuses, headSHA)
  {
    if statuses != [] {
      FoldMeaning(statuses[..|statuses| - 1], headSHA);
      SummaryLast(statuses, headSHA);
    }
  }

  /** The diagnostics depend only on which statuses occur, so permuting or repeating entries changes no flag. */
  lemma OrderFree(statuses: seq<Value>, statuses': seq<Value>, headSHA: string, incomplete: bool)
    requires forall v :: v in statuses <==> v in statuses'
    ensures Compute(statuses, headSHA, incomplete) == Compute(statuses', headSHA, incomplete)
  {
    SameSummary(statuses, statuses', headSHA);
    SameFindings(statuses, statuses');
    ComputeDetermined(statuses, statuses', headSHA, incomplete);
  }

  ghost function Findings(statuses: seq<Value>): (bool, bool, bool, bool) {
    (SomeBot(statuses, DuplicatesReported), SomeBot(statuses, NonThreadFindings), SomeBot(statuses, m => true),
     SomeBot(statuses, AwaitsAck))
  }

  lemma SameFindings(statuses: seq<Value>, statuses': seq<Value>)
    requires forall v :: v in statuses <==> v in statuses'
    ensures Findings(statuses) == Findings(statuses')
  {
    SameBots(statuses, statuses', m => true);
    SameBots(statuses, statuses', DuplicatesReported);
    SameBots(statuses, statuses', NonThreadFindings);
    SameBots(statuses, statuses', AwaitsAck);
  }

  lemma ComputeByFindings(statuses: seq<Value>, headSHA: string, incomplete: bool)
    ensures var f := Findings(statuses);
            Compute(statuses, headSHA, incomplete) ==
              Build(Summary(statuses, headSHA), f.0, f.1 || (incomplete && f.2), f.3)
  {
    FoldMeaning(statuses, headSHA);
  }

  lemma ComputeDetermined(statuses: seq<Value>, statuses': seq<Value>, headSHA: string, incomplete: bool)
    requires Summary(statuses, headSHA) == Summary(statuses', headSHA) && Findings(statuses) == Findings(statuses')
    ensures Compute(statuses, headSHA, incomplete) == Compute(statuses', headSHA, incomplete)
  {
    ComputeByFindings(statuses, headSHA, incomplete);
    ComputeByFindings(statuses', headSHA, incomplete);
  }

  lemma SameSummary(statuses: seq<Value>, statuses': seq<Value>, headSHA: string)
    requires forall v :: v in statuses <==> v in statuses'
    ensures Summary(statuses, headSHA) == Summary(statuses', headSHA)
  {
    SameBots(statuses, statuses', m => true);
    SameBots(statuses, statuses', m => HasStatus(m, RATE_LIMITED));
    SameBots(statuses, statuses', m => HasStatus(m, REVIEW_PAUSED));
    SameBots(statuses, statuses', IsFailed);
    SameBots(statuses, statuses', m => !IsReviewed(m));
    SameBots(statuses, statuses', m => StaleReview(m, headSHA));
  }

  lemma SameBots(statuses: seq<Value>, statuses': seq<Value>, p: Object -> bool)
    requires forall v :: v in statuses <==> v in statuses'
    ensures SomeBot(statuses, p) == SomeBot(statuses', p)
  {
    SomeBotMembers(statuses, statuses', p);
    SomeBotMembers(statuses', statuses, p);
  }

  lemma SomeBotMembers(statuses: seq<Value>, statuses': seq<Value>, p: Object -> bool)
    requires forall v :: v in statuses ==> v in statuses'
    ensures SomeBot(statuses, p) ==> SomeBot(statuses', p)
  {
    if SomeBot(statuses, p) {
      var i :| 0 <= i < |statuses| && RequiredBot(statuses[i]) && p(statuses[i].fields);
      assert statuses[i] in statuses';
    }
  }

  lemma Weaken(statuses: seq<Value>, p: Object -> bool, q: Object -> bool)
    requires forall m :: p(m) ==> q(m)
    ensures SomeBot(statuses, p) ==> SomeBot(statuses, q)
  {
    if SomeBot(statuses, p) {
      var i :| 0 <= i < |statuses| && RequiredBot(statuses[i]) && p(statuses[i].fields);
      assert q(statuses[i].fields);
    }
  }

  lemma BlockedIsEither(statuses: seq<Value>)
    ensures SomeBot(statuses, IsBlocked) ==
            (SomeBot(statuses, m => HasStatus(m, RATE_LIMITED)) || SomeBot(statuses, m => HasStatus(m, REVIEW_PAUSED)))
  {
    Weaken(statuses, m => HasStatus(m, RATE_LIMITED), IsBlocked);
    Weaken(statuses, m => HasStatus(m, REVIEW_PAUSED), IsBlocked);
    if SomeBot(statuses, IsBlocked) {
      var i :| 0 <= i < |statuses| && RequiredBot(statuses[i]) && IsBlocked(statuses[i].fields);
      assert HasStatus(statuses[i].fields, RATE_LIMITED) || HasStatus(statuses[i].fields, REVIEW_PAUSED);
    }
  }

  /** Every flag by what it says about the required bots: pending is exactly neither terminal nor blocked, and
      a block reason is given exactly when some required bot is blocked. */
  lemma FlagsMeaning(statuses: seq<Value>, headSHA: string, incomplete: bool)
    ensures var r := Compute(statuses, headSHA, incomplete);
            && r.completed == !SomeBot(statuses, m => !IsReviewed(m))
            && r.failed == SomeBot(statuses, IsFailed)
            && r.terminal == (r.failed || r.completed)
            && r.blocked == SomeBot(statuses, IsBlocked)
            && r.pending == (!r.terminal && !r.blocked)
            && r.blockReason == BlockReason(statuses)
            && (r.blockReason != "") == r.blocked
            && r.stale == SomeBot(statuses, m => StaleReview(m, headSHA))
            && r.triggerAwaitingAck == SomeBot(statuses, AwaitsAck)
            && r.duplicateFindings == SomeBot(statuses, DuplicatesReported)
            && r.nonThreadFindings ==
               (SomeBot(statuses, NonThreadFindings) || (incomplete && SomeBot(statuses, m => true)))
  {
    ComputeByFindings(statuses, headSHA, incomplete);
    SummaryFacts(statuses, headSHA);
    var f := Findings(statuses);
    BuildFacts(Summary(statuses, headSHA), f.0, f.1 || (incomplete && f.2), f.3);
  }

  lemma SummaryFacts(statuses: seq<Value>, headSHA: string)
    ensures var agg := Summary(statuses, headSHA);
            && agg.anyBlocked == SomeBot(statuses, IsBlocked)
            && (agg.anyBlocked ==> !agg.allReviewed) && (agg.anyFailed ==> !agg.allReviewed)
            && (!agg.allReviewed || agg.anyStale || SomeBot(statuses, AwaitsAck) ==> agg.sawRequired)
            && agg.anyBlocked == (agg.blockedReason != "")
            && agg.blockedReason == BlockReason(statuses)
  {
    BlockedIsEither(statuses);
    Weaken(statuses, IsBlocked, m => !IsReviewed(m));
    Weaken(statuses, IsFailed, m => !IsReviewed(m));
    Weaken(statuses, m => !IsReviewed(m), m => true);
    Weaken(statuses, m => StaleReview(m, headSHA), m => true);
    Weaken(statuses, AwaitsAck, m => true);
  }

  lemma BlockedOrFailedUnreviewed(statuses: seq<Value>)
    ensures SomeBot(statuses, IsBlocked) || SomeBot(statuses, IsFailed) ==> SomeBot(statuses, m => !IsReviewed(m))
  {
    Weaken(statuses, IsBlocked, m => !IsReviewed(m));
    Weaken(statuses, IsFailed, m => !IsReviewed(m));
  }

  lemma BuildFacts(agg: Agg, duplicates: bool, nonThread: bool, awaiting: bool)
    requires agg.anyBlocked ==> !agg.allReviewed
    requires agg.anyFailed ==> !agg.allReviewed
    requires !agg.allReviewed || agg.anyStale || awaiting ==> agg.sawRequired
    requires agg.anyBlocked == (agg.blockedReason != "")
    ensures var r := Build(agg, duplicates, nonThread, awaiting);
            && r.completed == agg.allReviewed && r.failed == agg.anyFailed && r.blocked == agg.anyBlocked
            && r.terminal == (r.failed || r.completed) && r.pending == (!r.terminal && !r.blocked)
            && r.blockReason == agg.blockedReason && r.stale == agg.anyStale && r.triggerAwaitingAck == awaiting
  {
  }

  /** The diagnostics as signals. */
  function Signals(r: Report): Object {
    map[
      "bot_review_completed" := Bool(r.completed),
      "bot_review_pending" := Bool(r.pending),
      "bot_review_terminal" := Bool(r.terminal),
      "bot_review_blocked" := Bool(r.blocked),
      "bot_review_block_reason" := Str(r.blockReason),
      "bot_review_failed" := Bool(r.failed),
      "bot_review_stale" := Bool(r.stale),
      "bot_review_trigger_awaiting_ack" := Bool(r.triggerAwaitingAck),
      "duplicate_findings_detected" := Bool(r.duplicateFindings),
      "non_thread_findings_present" := Bool(r.nonThreadFindings)
    ]
  }
}
