/** What the bot diagnostics say, read off the status maps entry by entry. */
module BotFindings {
  import opened Json
  import Results
  import D = Diagnostics

  // ---------------------------------------------------------------- one status map

  predicate IsTrue(m: Object, k: string) {
    k in m && m[k] == Bool(true)
  }

  predicate TextIn(m: Object, k: string, texts: set<string>) {
    k in m && m[k].Str? && m[k].s in texts
  }

  predicate HasNumber(m: Object, k: string) {
    k in m && (m[k].Int? || m[k].Real?)
  }

  /** The entry is the number `n`, a float counting without its fraction. */
  predicate IsNumber(m: Object, k: string, n: int) {
    k in m && (m[k] == Int(n) || (m[k].Real? && Truncate(m[k].r) == n))
  }

  /** The count is `n`: under its key, or under the older alias when the key holds no number. */
  predicate Counts(m: Object, k: string, alias: string, n: int) {
    if HasNumber(m, k) then IsNumber(m, k, n) else IsNumber(m, alias, n)
  }

  lemma CountRead(m: Object, k: string, alias: string, n: int)
    ensures n != 0 ==> (D.IntOrZero(m, k, alias) == n <==> Counts(m, k, alias, n))
  {
  }

  ghost predicate Positive(m: Object, k: string, alias: string) {
    exists n :: n > 0 && Counts(m, k, alias, n)
  }

  ghost predicate Negative(m: Object, k: string, alias: string) {
    exists n :: n < 0 && Counts(m, k, alias, n)
  }

  lemma SignRead(m: Object, k: string, alias: string)
    ensures D.IntOrZero(m, k, alias) > 0 <==> Positive(m, k, alias)
    ensures D.IntOrZero(m, k, alias) < 0 <==> Negative(m, k, alias)
  {
    var x := D.IntOrZero(m, k, alias);
    CountRead(m, k, alias, x);
    if n :| n > 0 && Counts(m, k, alias, n) {
      CountRead(m, k, alias, n);
    }
    if n :| n < 0 && Counts(m, k, alias, n) {
      CountRead(m, k, alias, n);
    }
  }

  ghost predicate Actionable(m: Object) {
    Positive(m, "actionable_findings_count", "cr_actionable_comments_count")
  }

  ghost predicate OutsideDiff(m: Object) {
    Positive(m, "outside_diff_findings_count", "cr_outside_diff_comments_count")
  }

  ghost predicate InConversation(m: Object) {
    Positive(m, "finding_conversation_comments_count", "cr_finding_conversation_comments_count")
  }

  ghost predicate Duplicated(m: Object) {
    Positive(m, "duplicate_findings_count", "cr_duplicate_findings_count")
  }

  /** Counts that no tool reports, but under which a duplicate count is not alone. */
  ghost predicate OddCounts(m: Object) {
    || Negative(m, "actionable_findings_count", "cr_actionable_comments_count")
    || Negative(m, "outside_diff_findings_count", "cr_outside_diff_comments_count")
  }

  predicate MarkedClean(m: Object) {
    || TextIn(m, "status", {"completed_clean"})
    || IsTrue(m, "cr_review_completed_clean") || IsTrue(m, "review_completed_clean")
  }

  /** Findings outside threads: actionable, outside the diff or in the conversation, unless the review is marked
      clean. A duplicate count alone is none. */
  ghost predicate Outstanding(m: Object) {
    !MarkedClean(m) && (Actionable(m) || OutsideDiff(m) || InConversation(m) || (Duplicated(m) && OddCounts(m)))
  }

  lemma FindingsMeaning(m: Object)
    ensures D.NonThreadFindings(m) <==> Outstanding(m)
  {
    SignRead(m, "actionable_findings_count", "cr_actionable_comments_count");
    SignRead(m, "outside_diff_findings_count", "cr_outside_diff_comments_count");
    SignRead(m, "duplicate_findings_count", "cr_duplicate_findings_count");
    SignRead(m, "finding_conversation_comments_count", "cr_finding_conversation_comments_count");
    CleanRead(m);
    FindingsByCounts(m,
                     D.IntOrZero(m, "actionable_findings_count", "cr_actionable_comments_count"),
                     D.IntOrZero(m, "outside_diff_findings_count", "cr_outside_diff_comments_count"),
                     D.IntOrZero(m, "duplicate_findings_count", "cr_duplicate_findings_count"),
                     D.IntOrZero(m, "finding_conversation_comments_count", "cr_finding_conversation_comments_count"));
  }

  lemma CleanRead(m: Object)
    ensures MarkedClean(m) <==>
            || D.StrField(m, "status") == "completed_clean"
            || D.BoolField(m, "cr_review_completed_clean") || D.BoolField(m, "review_completed_clean")
  {
  }

  lemma FindingsByCounts(m: Object, a: int, o: int, d: int, f: int)
    requires a == D.IntOrZero(m, "actionable_findings_count", "cr_actionable_comments_count")
    requires o == D.IntOrZero(m, "outside_diff_findings_count", "cr_outside_diff_comments_count")
    requires d == D.IntOrZero(m, "duplicate_findings_count", "cr_duplicate_findings_count")
    requires f == D.IntOrZero(m, "finding_conversation_comments_count", "cr_finding_conversation_comments_count")
    ensures D.NonThreadFindings(m) <==>
            && !(|| D.StrField(m, "status") == "completed_clean"
                 || D.BoolField(m, "cr_review_completed_clean") || D.BoolField(m, "review_completed_clean"))
            && (a > 0 || o > 0 || f > 0 || (d > 0 && (a < 0 || o < 0)))
  {
  }

  predicate Reviewed(m: Object) {
    TextIn(m, "status", {"completed", "completed_clean"})
  }

  /** The review is of the given commit. */
  predicate ReviewOf(m: Object, sha: string) {
    TextIn(m, "review_commit_sha", {sha})
  }

  lemma TiersRead(m: Object, headSHA: string)
    ensures D.IsReviewed(m) <==> Reviewed(m)
    ensures D.IsBlocked(m) <==> TextIn(m, "status", {"rate_limited", "review_paused"})
    ensures D.IsFailed(m) <==> TextIn(m, "status", {"review_failed"})
    ensures D.AwaitsAck(m) <==> IsTrue(m, "review_trigger_awaiting_ack")
    ensures D.StaleReview(m, headSHA) <==> Reviewed(m) && headSHA != "" && !ReviewOf(m, headSHA)
  {
  }

  // ---------------------------------------------------------------- the flags

  predicate Required(v: Value) {
    v.Obj? && IsTrue(v.fields, "required")
  }

  /** Some required bot of the list has the property. */
  ghost predicate Some(statuses: seq<Value>, p: Object -> bool) {
    exists v :: v in statuses && Required(v) && p(v.fields)
  }

  lemma SomeRead(statuses: seq<Value>, p: Object -> bool, q: Object -> bool)
    requires forall m :: p(m) == q(m)
    ensures D.SomeBot(statuses, p) <==> Some(statuses, q)
  {
    if D.SomeBot(statuses, p) {
      var i :| 0 <= i < |statuses| && D.RequiredBot(statuses[i]) && p(statuses[i].fields);
      assert statuses[i] in statuses && Required(statuses[i]) && q(statuses[i].fields);
    }
    if Some(statuses, q) {
      var v :| v in statuses && Required(v) && q(v.fields);
      var i :| 0 <= i < |statuses| && statuses[i] == v;
      assert D.RequiredBot(statuses[i]) && p(statuses[i].fields);
    }
  }

  ghost function Has(k: string, texts: set<string>): Object -> bool {
    m => TextIn(m, k, texts)
  }

  /** The flags about the progress of reviews. */
  lemma ProgressFlags(statuses: seq<Value>, headSHA: string, incomplete: bool)
    ensures var r := D.Compute(statuses, headSHA, incomplete);
            && r.completed == !Some(statuses, m => !Reviewed(m))
            && r.failed == Some(statuses, Has("status", {"review_failed"}))
            && r.blocked == Some(statuses, Has("status", {"rate_limited", "review_paused"}))
            && r.terminal == (r.failed || r.completed) && r.pending == (!r.terminal && !r.blocked)
  {
    D.FlagsMeaning(statuses, headSHA, incomplete);
    forall m ensures D.IsReviewed(m) == Reviewed(m)
      && D.IsBlocked(m) == TextIn(m, "status", {"rate_limited", "review_paused"})
                     && D.IsFailed(m) == TextIn(m, "status", {"review_failed"})
    {
      TiersRead(m, headSHA);
    }
    SomeRead(statuses, m => !D.IsReviewed(m), m => !Reviewed(m));
    SomeRead(statuses, D.IsFailed, Has("status", {"review_failed"}));
    SomeRead(statuses, D.IsBlocked, Has("status", {"rate_limited", "review_paused"}));
  }

  /** The block reason names the one blocked tier that occurs, or says that both do. */
  lemma ReasonFlag(statuses: seq<Value>, headSHA: string, incomplete: bool)
    ensures var limited := Some(statuses, Has("status", {"rate_limited"}));
            var paused := Some(statuses, Has("status", {"review_paused"}));
            D.Compute(statuses, headSHA, incomplete).blockReason ==
            if limited && paused then "mixed"
            else if limited then "rate_limited"
            else if paused then "review_paused"
            else ""
  {
    D.FlagsMeaning(statuses, headSHA, incomplete);
    forall m ensures D.HasStatus(m, D.RATE_LIMITED) == TextIn(m, "status", {"rate_limited"})
                     && D.HasStatus(m, D.REVIEW_PAUSED) == TextIn(m, "status", {"review_paused"})
    {
    }
    SomeRead(statuses, m => D.HasStatus(m, D.RATE_LIMITED), Has("status", {"rate_limited"}));
    SomeRead(statuses, m => D.HasStatus(m, D.REVIEW_PAUSED), Has("status", {"review_paused"}));
  }

  /** The flags about what is outstanding. */
  lemma OutstandingFlags(statuses: seq<Value>, headSHA: string, incomplete: bool)
    ensures var r := D.Compute(statuses, headSHA, incomplete);
            && r.stale == Some(statuses, m => Reviewed(m) && headSHA != "" && !ReviewOf(m, headSHA))
            && r.triggerAwaitingAck == Some(statuses, m => IsTrue(m, "review_trigger_awaiting_ack"))
            && r.duplicateFindings == Some(statuses, m => Duplicated(m))
            && r.nonThreadFindings == (Some(statuses, m => Outstanding(m)) || (incomplete && Some(statuses, m => true)))
  {
    D.FlagsMeaning(statuses, headSHA, incomplete);
    forall m ensures D.StaleReview(m, headSHA) == (Reviewed(m) && headSHA != "" && !ReviewOf(m, headSHA))
                     && D.AwaitsAck(m) == IsTrue(m, "review_trigger_awaiting_ack")
    {
      TiersRead(m, headSHA);
    }
    SomeRead(statuses, m => D.StaleReview(m, headSHA), m => Reviewed(m) && headSHA != "" && !ReviewOf(m, headSHA));
    SomeRead(statuses, D.AwaitsAck, m => IsTrue(m, "review_trigger_awaiting_ack"));
    FindingFlags(statuses, headSHA, incomplete);
  }

  lemma FindingFlags(statuses: seq<Value>, headSHA: string, incomplete: bool)
    ensures var r := D.Compute(statuses, headSHA, incomplete);
            && r.duplicateFindings == Some(statuses, m => Duplicated(m))
            && r.nonThreadFindings == (Some(statuses, m => Outstanding(m)) || (incomplete && Some(statuses, m => true)))
  {
    forall m ensures D.NonThreadFindings(m) == Outstanding(m) && D.DuplicatesReported(m) == Duplicated(m) {
      FindingsMeaning(m);
      SignRead(m, "duplicate_findings_count", "cr_duplicate_findings_count");
    }
    SomeRead(statuses, D.NonThreadFindings, m => Outstanding(m));
    SomeRead(statuses, D.DuplicatesReported, m => Duplicated(m));
    SomeRead(statuses, m => true, m => true);
  }

  /** The signals show each flag under its own key. */
  lemma SignalsShow(r: D.Report)
    ensures var m := D.Signals(r);
            && "bot_review_completed" in m && m["bot_review_completed"] == Bool(r.completed)
            && "duplicate_findings_detected" in m && m["duplicate_findings_detected"] == Bool(r.duplicateFindings)
            && "bot_review_block_reason" in m && m["bot_review_block_reason"] == Str(r.blockReason)
  {
  }
}
