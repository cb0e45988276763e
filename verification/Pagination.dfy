/** Bounded pagination over review threads (forward) and issue comments (backward)
    (`internal/observe/github/prquery/prquery.go`). */
module Pagination {
  import opened Results
  import opened Text
  import opened Filters

  function Concat<T>(pages: seq<seq<T>>): seq<T> {
    if pages == [] then [] else Concat(pages[..|pages| - 1]) + pages[|pages| - 1]
  }

  // ---------------------------------------------------------------- review threads

  datatype Thread = Thread(id: string, isResolved: bool, isOutdated: bool)

  /** The identity part of one unresolved-thread entry. */
  datatype InboxEntry = InboxEntry(threadID: string, isOutdated: bool)

  datatype ThreadPage = ThreadPage(nodes: seq<Thread>, hasNext: bool, endCursor: string)

  /** One GraphQL answer: a transport error, no such pull request, or a pull request with or without threads. */
  datatype ThreadAnswer = ThreadsFailed | NoPullRequest | PullRequest(threads: Option<ThreadPage>)

  type ThreadServer = Option<string> -> ThreadAnswer

  const MAX_THREAD_PAGES: nat := 500

  datatype Report = Report(inbox: seq<InboxEntry>, total: nat, unresolved: nat, incomplete: bool)

  /** `None` is the missing pull request. */
  type Paged = Result<Option<Report>, ()>

  function Entries(nodes: seq<Thread>): seq<InboxEntry> {
    if nodes == [] then []
    else
      var last := nodes[|nodes| - 1];
      Entries(nodes[..|nodes| - 1]) +
      if last.isResolved || Blank(last.id) then [] else [InboxEntry(Trim(last.id), last.isOutdated)]
  }

  function UnresolvedCount(nodes: seq<Thread>): nat {
    if nodes == [] then 0
    else UnresolvedCount(nodes[..|nodes| - 1]) + if nodes[|nodes| - 1].isResolved then 0 else 1
  }

  /** The report over a list of threads. */
  function ReportOn(nodes: seq<Thread>, incomplete: bool): Report {
    Report(Entries(nodes), |nodes|, UnresolvedCount(nodes), incomplete)
  }

  lemma {:induction false} ReportAppend(a: seq<Thread>, b: seq<Thread>)
    ensures Entries(a + b) == Entries(a) + Entries(b)
    ensures UnresolvedCount(a + b) == UnresolvedCount(a) + UnresolvedCount(b)
  {
    if b == [] {
      assert a + b == a;
    } else {
      var n := |b| - 1;
      ReportAppend(a, b[..n]);
      assert (a + b)[..|a + b| - 1] == a + b[..n];
    }
  }

  predicate Listed(n: Thread) {
    !n.isResolved && Trim(n.id) != ""
  }

  function EntryOf(n: Thread): InboxEntry {
    InboxEntry(Trim(n.id), n.isOutdated)
  }

  /** The inbox lists exactly the unresolved threads with an id, in order, outdated ones included and marked. */
  lemma {:induction false} EntriesMeaning(nodes: seq<Thread>)
    ensures Entries(nodes) == Map(Filter(nodes, Listed), EntryOf)
    ensures UnresolvedCount(nodes) == |Filter(nodes, (n: Thread) => !n.isResolved)|
  {
    if nodes != [] {
      var n := |nodes| - 1;
      var before, last := nodes[..n], nodes[n];
      EntriesMeaning(before);
      assert nodes == before + [last];
      FilterAppend(before, [last], Listed);
      FilterAppend(before, [last], (n: Thread) => !n.isResolved);
      MapAppend(Filter(before, Listed), Filter([last], Listed), EntryOf);
      assert [last][1..] == [];
      assert Filter([last], Listed) == if Listed(last) then [last] else [];
      assert Map(Filter([last], Listed), EntryOf) == if Listed(last) then [EntryOf(last)] else [];
    }
  }

  function Extended(r: Report, nodes: seq<Thread>): Report {
    r.(inbox := r.inbox + Entries(nodes), total := r.total + |nodes|,
       unresolved := r.unresolved + UnresolvedCount(nodes))
  }

  /** The page loop from page `page` at `cursor`, having gathered `r`; also counts requests. */
  function Paginate(serve: ThreadServer, cursor: Option<string>, page: nat, r: Report): (Paged, nat)
    requires page <= MAX_THREAD_PAGES
    decreases MAX_THREAD_PAGES - page
  {
    if page == MAX_THREAD_PAGES then (Ok(Some(r)), page)
    else
      match serve(cursor)
      case ThreadsFailed => (Err(()), page + 1)
      case NoPullRequest => (Ok(None), page + 1)
      case PullRequest(None) => (Ok(Some(r)), page + 1)
      case PullRequest(Some(p)) =>
        var r' := Extended(r, p.nodes);
        if !p.hasNext then (Ok(Some(r')), page + 1)
        else if page == MAX_THREAD_PAGES - 1 || Blank(p.endCursor) then (Ok(Some(r'.(incomplete := true))), page + 1)
        else Paginate(serve, Some(Trim(p.endCursor)), page + 1, r')
  }

  /** `paginatePRContext`. */
  method PaginatePRContext(serve: ThreadServer) returns (res: Paged, requests: nat)
    ensures (res, requests) == Paginate(serve, None, 0, Report([], 0, 0, false))
    ensures requests <= MAX_THREAD_PAGES
  {
    var cursor: Option<string> := None;
    var inbox: seq<InboxEntry> := [];
    var total, unresolved: nat := 0, 0;
    requests := 0;
    for page := 0 to MAX_THREAD_PAGES
      invariant requests == page
      invariant Paginate(serve, None, 0, Report([], 0, 0, false)) ==
                Paginate(serve, cursor, page, Report(inbox, total, unresolved, false))
    {
      var answer := serve(cursor);
      requests := requests + 1;
      if answer.ThreadsFailed? {
        return Err(()), requests;
      }
      if answer.NoPullRequest? {
        return Ok(None), requests;
      }
      if answer.threads.None? {
        return Ok(Some(Report(inbox, total, unresolved, false))), requests;
      }
      var rt := answer.threads.value;
      inbox, total, unresolved := AddNodes(rt.nodes, inbox, total, unresolved);
      if !rt.hasNext {
        return Ok(Some(Report(inbox, total, unresolved, false))), requests;
      }
      if page == MAX_THREAD_PAGES - 1 {
        return Ok(Some(Report(inbox, total, unresolved, true))), requests;
      }
      var end := Trim(rt.endCursor);
      if end == "" {
        return Ok(Some(Report(inbox, total, unresolved, true))), requests;
      }
      cursor := Some(end);
    }
    return Ok(Some(Report(inbox, total, unresolved, false))), requests;
  }

  /** The loop over one page's nodes. */
  method AddNodes(nodes: seq<Thread>, inbox0: seq<InboxEntry>, total0: nat, unresolved0: nat)
    returns (inbox: seq<InboxEntry>, total: nat, unresolved: nat)
    ensures Report(inbox, total, unresolved, false) == Extended(Report(inbox0, total0, unresolved0, false), nodes)
  {
    inbox, total, unresolved := inbox0, total0, unresolved0;
    for i := 0 to |nodes|
      invariant inbox == inbox0 + Entries(nodes[..i])
      invariant total == total0 + i && unresolved == unresolved0 + UnresolvedCount(nodes[..i])
    {
      var n := nodes[i];
      assert nodes[..i + 1][..i] == nodes[..i];
      total := total + 1;
      if !n.isResolved {
        unresolved := unresolved + 1;
      }
      if !n.isResolved && Trim(n.id) != "" {
        inbox := inbox + [InboxEntry(Trim(n.id), n.isOutdated)];
      }
    }
    assert nodes[..|nodes|] == nodes;
  }

  // ---------------------------------------------------------------- a server that holds a list of thread pages

  /** Pages in order; `ends[k]` is the cursor text page `k` reports for the page after it. */
  datatype ThreadList = ThreadList(pages: seq<seq<Thread>>, ends: seq<string>)

  /** Cursors that are not blank identify one page. */
  predicate GoodThreadList(l: ThreadList) {
    && |l.pages| == |l.ends| + 1
    && forall i, j :: 0 <= i < j < |l.ends| && !Blank(l.ends[i]) ==> Trim(l.ends[i]) != Trim(l.ends[j])
  }

  function Find(texts: seq<string>, cursor: string): Option<nat> {
    if texts == [] then None
    else if Trim(texts[|texts| - 1]) == cursor then Some(|texts| - 1)
    else Find(texts[..|texts| - 1], cursor)
  }

  function PageAt(l: ThreadList, k: nat): ThreadAnswer
    requires GoodThreadList(l) && k < |l.pages|
  {
    PullRequest(Some(ThreadPage(l.pages[k], k < |l.ends|, if k < |l.ends| then l.ends[k] else "")))
  }

  function ServeThreads(l: ThreadList): ThreadServer
    requires GoodThreadList(l)
  {
    (cursor: Option<string>) => AnswerAt(l, cursor)
  }

  function AnswerAt(l: ThreadList, cursor: Option<string>): ThreadAnswer
    requires GoodThreadList(l)
  {
    if cursor.None? then PageAt(l, 0)
    else
      var k := Find(l.ends, cursor.value);
      if k.Some? && k.value < |l.ends| then PageAt(l, k.value + 1) else NoPullRequest
  }

  lemma {:induction false} FindDistinct(texts: seq<string>, k: nat)
    requires k < |texts| && forall j :: k < j < |texts| ==> Trim(texts[k]) != Trim(texts[j])
    ensures Find(texts, Trim(texts[k])) == Some(k)
  {
    if k < |texts| - 1 {
      FindDistinct(texts[..|texts| - 1], k);
    }
  }

  /** How many pages the loop fetches: up to the last page, the budget, or the first blank cursor. */
  function Fetched(l: ThreadList, k: nat): (n: nat)
    requires GoodThreadList(l) && k < |l.pages|
    ensures k < n <= |l.pages|
    decreases |l.pages| - k
  {
    if k == |l.ends| || k >= MAX_THREAD_PAGES - 1 || Blank(l.ends[k]) then k + 1 else Fetched(l, k + 1)
  }

  lemma {:induction false} FetchedBounds(l: ThreadList, k: nat)
    requires GoodThreadList(l) && k < |l.pages| && k < MAX_THREAD_PAGES
    ensures k < Fetched(l, k) <= |l.pages| && Fetched(l, k) <= MAX_THREAD_PAGES
    ensures Fetched(l, k) < |l.pages| ==> Fetched(l, k) == MAX_THREAD_PAGES || Blank(l.ends[Fetched(l, k) - 1])
    ensures forall i :: k <= i < Fetched(l, k) - 1 ==> !Blank(l.ends[i])
    decreases |l.pages| - k
  {
    if !(k == |l.ends| || k >= MAX_THREAD_PAGES - 1 || Blank(l.ends[k])) {
      FetchedBounds(l, k + 1);
    }
  }

  function CursorFor(l: ThreadList, k: nat): Option<string>
    requires GoodThreadList(l) && k < |l.pages|
  {
    if k == 0 then None else Some(Trim(l.ends[k - 1]))
  }

  /** The report on the first `k` pages, extended by page `k`, is the report on the first `k + 1`. */
  lemma NextReport(l: ThreadList, k: nat)
    requires k < |l.pages|
    ensures Extended(ReportOn(Concat(l.pages[..k]), false), l.pages[k]) == ReportOn(Concat(l.pages[..k + 1]), false)
  {
    assert l.pages[..k + 1][..k] == l.pages[..k];
    ReportAppend(Concat(l.pages[..k]), l.pages[k]);
  }

  lemma NextAnswer(l: ThreadList, k: nat)
    requires GoodThreadList(l) && k < |l.pages| && (k > 0 ==> !Blank(l.ends[k - 1]))
    ensures ServeThreads(l)(CursorFor(l, k)) == PageAt(l, k)
  {
    if k > 0 {
      FindDistinct(l.ends, k - 1);
    }
  }

  lemma {:induction false} PaginateFrom(l: ThreadList, k: nat)
    requires GoodThreadList(l) && k < |l.pages| && k < MAX_THREAD_PAGES
    requires k > 0 ==> !Blank(l.ends[k - 1])
    ensures var n := Fetched(l, k);
            Paginate(ServeThreads(l), CursorFor(l, k), k, ReportOn(Concat(l.pages[..k]), false)) ==
            (Ok(Some(ReportOn(Concat(l.pages[..n]), n < |l.pages|))), n)
    decreases |l.pages| - k
  {
    NextAnswer(l, k);
    NextReport(l, k);
    if !(k == |l.ends| || k >= MAX_THREAD_PAGES - 1 || Blank(l.ends[k])) {
      PaginateFrom(l, k + 1);
    }
  }

  /** Thread paging as collection does it; also counts the requests. */
  function PageThreads(l: ThreadList): (Paged, nat)
    requires GoodThreadList(l)
  {
    Paginate(ServeThreads(l), None, 0, Report([], 0, 0, false))
  }

  /** Against a page-list server the loop always reports, within the request budget, on a prefix of the pages;
      it says complete exactly when that prefix is the whole list, and then the counts and the inbox are those
      of all threads. */
  lemma ThreadPaginationRefines(l: ThreadList)
    requires GoodThreadList(l)
    ensures var n := PageThreads(l).1;
            && 1 <= n <= MAX_THREAD_PAGES && n <= |l.pages|
            && PageThreads(l).0 == Ok(Some(ReportOn(Concat(l.pages[..n]), n < |l.pages|)))
            && (n < |l.pages| ==> n == MAX_THREAD_PAGES == 500 || Trim(l.ends[n - 1]) == "")
            && (n == |l.pages| ==> PageThreads(l).0 == Ok(Some(ReportOn(Concat(l.pages), false))))
  {
    FetchedBounds(l, 0);
    PaginateFrom(l, 0);
    assert Concat(l.pages[..0]) == [];
    assert l.pages[..|l.pages|] == l.pages;
  }

  // ---------------------------------------------------------------- issue comments

  datatype Comment = Comment(author: Option<string>, body: string, updatedAt: string)

  datatype CommentPage = CommentPage(nodes: seq<Comment>, hasPrevious: bool, startCursor: string)

  datatype CommentAnswer = CommentsFailed | NoConnection | Comments(page: CommentPage)

  type CommentServer = string -> CommentAnswer

  const MAX_COMMENT_PAGES: nat := 30

  /** Merged nodes and whether older pages may remain. */
  type MergedComments = Result<(seq<Comment>, bool), ()>

  /** The back-pagination loop; also counts the extra requests. */
  function Walk(serve: CommentServer, merged: seq<Comment>, hasPrev: bool, before: string, page: nat)
    : (MergedComments, nat)
    requires page <= MAX_COMMENT_PAGES
    decreases MAX_COMMENT_PAGES - page
  {
    if page == MAX_COMMENT_PAGES || !hasPrev || before == "" then (Ok((merged, hasPrev)), page)
    else
      match serve(before)
      case CommentsFailed => (Err(()), page + 1)
      case NoConnection => (Ok((merged, hasPrev)), page + 1)
      case Comments(p) => Walk(serve, p.nodes + merged, p.hasPrevious, Trim(p.startCursor), page + 1)
  }

  lemma WalkOnce(serve: CommentServer, merged: seq<Comment>, hasPrev: bool, before: string, page: nat)
    requires page < MAX_COMMENT_PAGES && hasPrev && before != ""
    ensures Walk(serve, merged, hasPrev, before, page) ==
            match serve(before)
            case CommentsFailed => (Err(()), page + 1)
            case NoConnection => (Ok((merged, hasPrev)), page + 1)
            case Comments(p) => Walk(serve, p.nodes + merged, p.hasPrevious, Trim(p.startCursor), page + 1)
  {
  }

  function MergeSpec(serve: CommentServer, seed: Option<CommentPage>, anyBots: bool): (MergedComments, nat) {
    if !anyBots then
      (match seed case None => Ok(([], false)) case Some(p) => Ok((p.nodes, p.hasPrevious)), 0)
    else
      match seed
      case None => Walk(serve, [], false, "", 0)
      case Some(p) => Walk(serve, p.nodes, p.hasPrevious, Trim(p.startCursor), 0)
  }

  function Prepend(older: seq<Comment>, merged: seq<Comment>): (r: seq<Comment>)
    ensures r == older + merged
  {
    if |older| > 0 then older + merged else merged
  }

  /** `mergeCommentNodesForBots`; the logins wanted play no part in what is merged. */
  method MergeCommentNodes(serve: CommentServer, seed: Option<CommentPage>, anyBots: bool)
    returns (res: MergedComments, extra: nat)
    ensures (res, extra) == MergeSpec(serve, seed, anyBots)
    ensures extra <= MAX_COMMENT_PAGES
  {
    if !anyBots {
      if seed.None? {
        return Ok(([], false)), 0;
      }
      return Ok((seed.value.nodes, seed.value.hasPrevious)), 0;
    }
    var merged: seq<Comment> := [];
    var hasPrev, before := false, "";
    if seed.Some? {
      merged := seed.value.nodes;
      hasPrev := seed.value.hasPrevious;
      before := Trim(seed.value.startCursor);
    }
    res, extra := WalkBack(serve, merged, hasPrev, before);
  }

  /** The page loop, prepending one older page at a time. */
  method WalkBack(serve: CommentServer, merged0: seq<Comment>, hasPrev0: bool, before0: string)
    returns (res: MergedComments, extra: nat)
    ensures (res, extra) == Walk(serve, merged0, hasPrev0, before0, 0)
    ensures extra <= MAX_COMMENT_PAGES
  {
    var merged, hasPrev, before := merged0, hasPrev0, before0;
    var page: nat := 0;
    while page < MAX_COMMENT_PAGES && hasPrev
      invariant page <= MAX_COMMENT_PAGES
      invariant Walk(serve, merged0, hasPrev0, before0, 0) == Walk(serve, merged, hasPrev, before, page)
    {
      if before == "" {
        break;
      }
      var answer := serve(before);
      WalkOnce(serve, merged, hasPrev, before, page);
      if answer.CommentsFailed? {
        return Err(()), page + 1;
      }
      if answer.NoConnection? {
        return Ok((merged, hasPrev)), page + 1;
      }
      var conn := answer.page;
      merged := Prepend(conn.nodes, merged);
      hasPrev := conn.hasPrevious;
      before := Trim(conn.startCursor);
      page := page + 1;
    }
    return Ok((merged, hasPrev)), page;
  }

  // ---------------------------------------------------------------- a server that holds the comment timeline

  /** Pages oldest first; `starts[k]` is the start cursor of page `k`; requests with a cursor in `gone` find
      no connection any more. */
  datatype Timeline = Timeline(pages: seq<seq<Comment>>, starts: seq<string>, gone: set<string>)

  predicate GoodTimeline(t: Timeline) {
    && |t.pages| == |t.starts| > 0
    && forall i, j :: 0 <= i < j < |t.starts| && !Blank(t.starts[i]) ==> Trim(t.starts[i]) != Trim(t.starts[j])
  }

  function CommentPageAt(t: Timeline, k: nat): CommentPage
    requires GoodTimeline(t) && k < |t.pages|
  {
    CommentPage(t.pages[k], k > 0, t.starts[k])
  }

  /** Answers a `before` cursor with the page that precedes the page starting there. */
  function ServeComments(t: Timeline): CommentServer
    requires GoodTimeline(t)
  {
    (before: string) =>
      if before in t.gone then NoConnection
      else match Find(t.starts, before)
        case Some(k) => if 0 < k <= |t.pages| then Comments(CommentPageAt(t, k - 1)) else NoConnection
        case None => NoConnection
  }

  /** Everything from page `j` on. */
  function Suffix(t: Timeline, j: nat): seq<Comment>
    requires j <= |t.pages|
    decreases |t.pages| - j
  {
    if j == |t.pages| then [] else t.pages[j] + Suffix(t, j + 1)
  }

  /** The answer to the start cursor of page `k`, unless that request finds nothing any more. */
  lemma PreviousPage(t: Timeline, k: nat)
    requires GoodTimeline(t) && 0 < k < |t.pages| && Trim(t.starts[k]) != "" && Trim(t.starts[k]) !in t.gone
    ensures ServeComments(t)(Trim(t.starts[k])) == Comments(CommentPageAt(t, k - 1))
  {
    FindDistinct(t.starts, k);
  }

  /** The walk from page `k`, having made `page` requests. */
  function WalkFrom(t: Timeline, k: nat, page: nat): (MergedComments, nat)
    requires GoodTimeline(t) && k < |t.pages| && page <= MAX_COMMENT_PAGES
  {
    Walk(ServeComments(t), Suffix(t, k), k > 0, Trim(t.starts[k]), page)
  }

  /** Another page is requested and found. */
  predicate Continues(t: Timeline, k: nat, page: nat)
    requires GoodTimeline(t) && k < |t.pages|
  {
    page < MAX_COMMENT_PAGES && k > 0 && Trim(t.starts[k]) != "" && Trim(t.starts[k]) !in t.gone
  }

  lemma WalkStep(t: Timeline, k: nat, page: nat)
    requires GoodTimeline(t) && k < |t.pages| && Continues(t, k, page)
    ensures WalkFrom(t, k, page) == WalkFrom(t, k - 1, page + 1)
  {
    PreviousPage(t, k);
    assert Suffix(t, k - 1) == t.pages[k - 1] + Suffix(t, k);
  }

  lemma WalkStops(t: Timeline, k: nat, page: nat)
    requires GoodTimeline(t) && k < |t.pages| && page <= MAX_COMMENT_PAGES
    requires !Continues(t, k, page)
    ensures WalkFrom(t, k, page).0 == Ok((Suffix(t, k), k > 0)) && WalkFrom(t, k, page).1 <= MAX_COMMENT_PAGES
  {
  }

  /** The walk stops at some page: it returns the suffix from there and says whether anything precedes it. */
  lemma {:induction false} WalkIsSuffix(t: Timeline, k: nat, page: nat) returns (j: nat)
    requires GoodTimeline(t) && k < |t.pages| && page <= MAX_COMMENT_PAGES
    ensures j <= k && page + (k - j) <= MAX_COMMENT_PAGES
    ensures j > 0 ==> page + (k - j) == MAX_COMMENT_PAGES || Trim(t.starts[j]) == "" || Trim(t.starts[j]) in t.gone
    ensures WalkFrom(t, k, page).0 == Ok((Suffix(t, j), j > 0)) && WalkFrom(t, k, page).1 <= MAX_COMMENT_PAGES
    decreases k
  {
    if Continues(t, k, page) {
      WalkStep(t, k, page);
      j := WalkIsSuffix(t, k - 1, page + 1);
    } else {
      WalkStops(t, k, page);
      j := k;
    }
  }

  /** Merging as collection does it, seeded with the newest page; also counts the extra requests. */
  function MergeTimeline(t: Timeline, anyBots: bool): (MergedComments, nat)
    requires GoodTimeline(t)
  {
    MergeSpec(ServeComments(t), Some(CommentPageAt(t, |t.pages| - 1)), anyBots)
  }

  lemma MergeStart(t: Timeline, anyBots: bool)
    requires GoodTimeline(t)
    ensures var last := |t.pages| - 1;
            MergeTimeline(t, anyBots) == if anyBots then WalkFrom(t, last, 0) else (Ok((Suffix(t, last), last > 0)), 0)
  {
    var last := |t.pages| - 1;
    assert Suffix(t, last) == t.pages[last] + [] == t.pages[last];
  }

  /** Where the walk back ends: at the oldest page, after thirty more pages, or where a cursor is blank or gone. Without
      bots it does not start. */
  predicate StopsAt(t: Timeline, anyBots: bool, j: nat)
    requires GoodTimeline(t) && j < |t.pages|
  {
    var extra := |t.pages| - 1 - j;
    if anyBots then extra <= 30 && (j == 0 || extra == 30 || Trim(t.starts[j]) == "" || Trim(t.starts[j]) in t.gone)
    else extra == 0
  }

  /** Seeded with the newest page, the merge always succeeds and is a contiguous suffix of the timeline in order,
      with at most the allowed number of extra pages; when it says nothing remains it is the entire timeline. */
  lemma CommentMergeRefines(t: Timeline, anyBots: bool)
    requires GoodTimeline(t)
    ensures MergeTimeline(t, anyBots).1 <= MAX_COMMENT_PAGES
    ensures exists j: nat :: j < |t.pages| && StopsAt(t, anyBots, j)
                             && MergeTimeline(t, anyBots).0 == Ok((Suffix(t, j), j > 0))
    ensures !MergeTimeline(t, anyBots).0.value.1 ==> MergeTimeline(t, anyBots).0.value.0 == Suffix(t, 0)
  {
    MergeStart(t, anyBots);
    var j := |t.pages| - 1;
    if anyBots {
      j := WalkIsSuffix(t, |t.pages| - 1, 0);
    }
    assert StopsAt(t, anyBots, j);
  }
}
