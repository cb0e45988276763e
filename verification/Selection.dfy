/** Which comment and which review speak for a bot (`internal/observe/github/prquery/prquery.go`). `norm` stands
    for login normalization and `tier` for the semantic tier of a comment body. */
module Selection {
  import opened Results
  import opened Text
  import opened Pagination

  type Norm = string -> string
  type Tier = string -> int

  // ---------------------------------------------------------------- comments

  predicate By(c: Comment, login: string, norm: Norm) {
    c.author.Some? && norm(c.author.value) == norm(login)
  }

  predicate Marked(c: Comment, login: string, norm: Norm, tier: Tier) {
    By(c, login, norm) && tier(c.body) > 0
  }

  /** `a` ranks at most `b`: first by tier, then by update time. */
  predicate RanksAtMost(a: Comment, b: Comment, tier: Tier) {
    tier(a.body) < tier(b.body) || (tier(a.body) == tier(b.body) && AtMost(a.updatedAt, b.updatedAt))
  }

  /** Position `i` holds the last lexicographic maximum of (tier, time) among the marked comments. */
  ghost predicate IsStatusChoice(nodes: seq<Comment>, login: string, norm: Norm, tier: Tier, i: int) {
    && 0 <= i < |nodes| && Marked(nodes[i], login, norm, tier)
    && (forall j :: 0 <= j < |nodes| && Marked(nodes[j], login, norm, tier) ==> RanksAtMost(nodes[j], nodes[i], tier))
    && (forall j :: i < j < |nodes| && Marked(nodes[j], login, norm, tier) ==> !RanksAtMost(nodes[i], nodes[j], tier))
  }

  /** Position `i` holds the last newest comment of the login. */
  ghost predicate IsLatest(nodes: seq<Comment>, login: string, norm: Norm, i: int) {
    && 0 <= i < |nodes| && By(nodes[i], login, norm)
    && (forall j :: 0 <= j < |nodes| && By(nodes[j], login, norm) ==> AtMost(nodes[j].updatedAt, nodes[i].updatedAt))
    && (forall j :: i < j < |nodes| && By(nodes[j], login, norm) ==> !AtMost(nodes[i].updatedAt, nodes[j].updatedAt))
  }

  predicate AnyBy(nodes: seq<Comment>, login: string, norm: Norm) {
    exists i :: 0 <= i < |nodes| && By(nodes[i], login, norm)
  }

  predicate AnyMarked(nodes: seq<Comment>, login: string, norm: Norm, tier: Tier) {
    exists i :: 0 <= i < |nodes| && Marked(nodes[i], login, norm, tier)
  }

  ghost predicate LatestText(nodes: seq<Comment>, login: string, norm: Norm, body: string, at: string) {
    if AnyBy(nodes, login, norm)
    then exists i :: IsLatest(nodes, login, norm, i) && body == nodes[i].body && at == nodes[i].updatedAt
    else body == "" && at == ""
  }

  /** `latestCommentForLogin`. */
  method LatestComment(nodes: seq<Comment>, login: string, norm: Norm) returns (body: string, at: string)
    ensures LatestText(nodes, login, norm, body, at)
  {
    var best := "";
    body, at := "", "";
    ghost var pick := -1;
    for i := 0 to |nodes|
      invariant pick == -1 ==> best == "" && body == "" && at == ""
      invariant pick == -1 ==> forall j :: 0 <= j < i ==> !By(nodes[j], login, norm)
      invariant pick != -1 ==>
                  IsLatest(nodes[..i], login, norm, pick) && best == at == nodes[pick].updatedAt
                    && body == nodes[pick].body
    {
      var n := nodes[i];
      assert nodes[..i + 1] == nodes[..i] + [n];
      if n.author.None? || norm(n.author.value) != norm(login) {
        continue;
      }
      if AtMost(best, n.updatedAt) {
        NewLatest(nodes[..i], n, login, norm, best);
        best, body, at := n.updatedAt, n.body, n.updatedAt;
        pick := i;
      } else {
        AtMostTotal(best, n.updatedAt);
      }
    }
    assert nodes[..|nodes|] == nodes;
  }

  lemma NewLatest(nodes: seq<Comment>, n: Comment, login: string, norm: Norm, best: string)
    requires By(n, login, norm) && AtMost(best, n.updatedAt)
    requires forall j :: 0 <= j < |nodes| && By(nodes[j], login, norm) ==> AtMost(nodes[j].updatedAt, best)
    ensures IsLatest(nodes + [n], login, norm, |nodes|)
  {
    AtMostTotal(n.updatedAt, n.updatedAt);
    forall j | 0 <= j < |nodes| && By(nodes[j], login, norm) ensures AtMost(nodes[j].updatedAt, n.updatedAt) {
      AtMostTransitive(nodes[j].updatedAt, best, n.updatedAt);
    }
  }

  /** Positions of the marked comments, in order. */
  ghost predicate AreCandidates(nodes: seq<Comment>, login: string, norm: Norm, tier: Tier, candidates: seq<nat>) {
    && (forall c: nat :: c in candidates <==> c < |nodes| && Marked(nodes[c], login, norm, tier))
    && (forall a, b :: 0 <= a < b < |candidates| ==> candidates[a] < candidates[b])
  }

  method CollectCandidates(nodes: seq<Comment>, login: string, norm: Norm, tier: Tier) returns (candidates: seq<nat>)
    ensures AreCandidates(nodes, login, norm, tier, candidates)
    ensures forall a :: 0 <= a < |candidates| ==> candidates[a] < |nodes|
  {
    candidates := [];
    for i := 0 to |nodes|
      invariant forall c: nat :: c in candidates <==> c < i && Marked(nodes[c], login, norm, tier)
      invariant forall a :: 0 <= a < |candidates| ==> candidates[a] < i
      invariant forall a, b :: 0 <= a < b < |candidates| ==> candidates[a] < candidates[b]
    {
      var n := nodes[i];
      if n.author.Some? && norm(n.author.value) == norm(login) && tier(n.body) > 0 {
        candidates := candidates + [i];
      }
    }
  }

  method TopTier(nodes: seq<Comment>, candidates: seq<nat>, tier: Tier) returns (maxTier: int)
    requires candidates != []
             && forall a :: 0 <= a < |candidates| ==> candidates[a] < |nodes| && tier(nodes[candidates[a]].body) > 0
    ensures forall a :: 0 <= a < |candidates| ==> tier(nodes[candidates[a]].body) <= maxTier
    ensures exists a :: 0 <= a < |candidates| && tier(nodes[candidates[a]].body) == maxTier
  {
    maxTier := 0;
    for k := 0 to |candidates|
      invariant forall a :: 0 <= a < k ==> tier(nodes[candidates[a]].body) <= maxTier
      invariant if k == 0 then maxTier == 0 else exists a :: 0 <= a < k && tier(nodes[candidates[a]].body) == maxTier
    {
      if tier(nodes[candidates[k]].body) > maxTier {
        maxTier := tier(nodes[candidates[k]].body);
      }
    }
  }

  /** `selectStatusCommentForLogin`: collect candidates, find the top tier, then the last newest within it. */
  method SelectStatusComment(nodes: seq<Comment>, login: string, norm: Norm, tier: Tier)
    returns (body: string, at: string, marker: bool)
    ensures marker <==> AnyMarked(nodes, login, norm, tier)
    ensures marker ==>
              exists i ::
                IsStatusChoice(nodes, login, norm, tier, i) && body == nodes[i].body && at == nodes[i].updatedAt
    ensures !marker ==> LatestText(nodes, login, norm, body, at)
  {
    var latestBody, latestAt := LatestComment(nodes, login, norm);
    var candidates := CollectCandidates(nodes, login, norm, tier);
    if |candidates| == 0 {
      return latestBody, latestAt, false;
    }
    assert forall a :: 0 <= a < |candidates| ==> candidates[a] in candidates;
    var maxTier := TopTier(nodes, candidates, tier);
    var best, found := PickNewest(nodes, candidates, tier, maxTier);
    NewestIsChoice(nodes, login, norm, tier, candidates, maxTier, best);
    return nodes[best].body, nodes[best].updatedAt, true;
  }

  lemma NewestIsChoice(nodes: seq<Comment>, login: string, norm: Norm, tier: Tier, candidates: seq<nat>, maxTier: int,
                       best: nat)
    requires AreCandidates(nodes, login, norm, tier, candidates)
    requires forall a :: 0 <= a < |candidates| ==> candidates[a] < |nodes| && tier(nodes[candidates[a]].body) <= maxTier
    requires best in candidates && tier(nodes[best].body) == maxTier
    requires forall a :: 0 <= a < |candidates| && tier(nodes[candidates[a]].body) == maxTier ==>
               AtMost(nodes[candidates[a]].updatedAt, nodes[best].updatedAt)
    requires forall a :: 0 <= a < |candidates| && candidates[a] > best && tier(nodes[candidates[a]].body) == maxTier ==>
               !AtMost(nodes[best].updatedAt, nodes[candidates[a]].updatedAt)
    ensures IsStatusChoice(nodes, login, norm, tier, best)
  {
    forall j: nat | j < |nodes| && Marked(nodes[j], login, norm, tier)
      ensures RanksAtMost(nodes[j], nodes[best], tier)
      ensures j > best ==> !RanksAtMost(nodes[best], nodes[j], tier)
    {
      assert j in candidates;
      var a :| 0 <= a < |candidates| && candidates[a] == j;
    }
  }

  /** The last newest of the candidates at the top tier. */
  method PickNewest(nodes: seq<Comment>, candidates: seq<nat>, tier: Tier, maxTier: int)
    returns (best: nat, found: bool)
    requires forall a :: 0 <= a < |candidates| ==> candidates[a] < |nodes|
    requires forall a, b :: 0 <= a < b < |candidates| ==> candidates[a] < candidates[b]
    requires exists a :: 0 <= a < |candidates| && tier(nodes[candidates[a]].body) == maxTier
    ensures found && best in candidates && tier(nodes[best].body) == maxTier
    ensures forall a :: 0 <= a < |candidates| && tier(nodes[candidates[a]].body) == maxTier ==>
              AtMost(nodes[candidates[a]].updatedAt, nodes[best].updatedAt)
    ensures forall a :: 0 <= a < |candidates| && candidates[a] > best && tier(nodes[candidates[a]].body) == maxTier ==>
              !AtMost(nodes[best].updatedAt, nodes[candidates[a]].updatedAt)
  {
    best, found := 0, false;
    for k := 0 to |candidates|
      invariant found ==> best in candidates[..k] && best < |nodes| && tier(nodes[best].body) == maxTier
      invariant !found ==> forall a :: 0 <= a < k ==> tier(nodes[candidates[a]].body) != maxTier
      invariant found ==> forall a :: 0 <= a < k && tier(nodes[candidates[a]].body) == maxTier ==>
                            AtMost(nodes[candidates[a]].updatedAt, nodes[best].updatedAt)
      invariant found ==>
                  forall a :: 0 <= a < k && candidates[a] > best && tier(nodes[candidates[a]].body) == maxTier ==>
                            !AtMost(nodes[best].updatedAt, nodes[candidates[a]].updatedAt)
    {
      var n := nodes[candidates[k]];
      assert candidates[..k + 1] == candidates[..k] + [candidates[k]];
      if tier(n.body) != maxTier {
        continue;
      }
      if !found || AtMost(nodes[best].updatedAt, n.updatedAt) {
        AtMostTotal(n.updatedAt, n.updatedAt);
        forall a | found && 0 <= a < k && tier(nodes[candidates[a]].body) == maxTier
          ensures AtMost(nodes[candidates[a]].updatedAt, n.updatedAt)
        {
          AtMostTransitive(nodes[candidates[a]].updatedAt, nodes[best].updatedAt, n.updatedAt);
        }
        best, found := candidates[k], true;
      } else {
        AtMostTotal(nodes[best].updatedAt, n.updatedAt);
      }
    }
    assert candidates[..|candidates|] == candidates;
  }

  lemma ChoiceUnique(nodes: seq<Comment>, login: string, norm: Norm, tier: Tier, i: int, j: int)
    requires IsStatusChoice(nodes, login, norm, tier, i) && IsStatusChoice(nodes, login, norm, tier, j)
    ensures i == j
  {
  }

  /** Inserting an unmarked comment anywhere, by anyone and however new, keeps a marker-based choice. */
  lemma UnmarkedCommentIrrelevant(before: seq<Comment>, c: Comment, after: seq<Comment>, login: string, norm: Norm,
                                  tier: Tier, i: int)
    requires IsStatusChoice(before + after, login, norm, tier, i) && !Marked(c, login, norm, tier)
    ensures IsStatusChoice(before + [c] + after, login, norm, tier, if i < |before| then i else i + 1)
    ensures (before + [c] + after)[if i < |before| then i else i + 1] == (before + after)[i]
  {
    var xs, ys, n := before + after, before + [c] + after, |before|;
    forall j | 0 <= j < |ys| && j != n ensures ys[j] == xs[if j < n then j else j - 1] {
    }
  }

  // ---------------------------------------------------------------- what newest means

  /** `a` is a proper prefix of `b`, or has the smaller character where they first differ. */
  ghost predicate Older(a: string, b: string) {
    (a <= b && a != b) || exists i :: FirstDifference(a, b, i)
  }

  lemma OlderIff(a: string, b: string)
    ensures Older(a, b) <==> Before(a, b)
    ensures AtMost(a, b) <==> a == b || Older(a, b)
  {
    AtMostMeaning(a, b);
    AtMostMeaning(b, a);
    AtMostTotal(a, b);
  }

  /** No comment of the login is newer than the latest, and every later one of it is older. */
  lemma LatestIsNewest(nodes: seq<Comment>, login: string, norm: Norm, i: int)
    requires 0 <= i < |nodes|
    ensures IsLatest(nodes, login, norm, i) <==>
            && By(nodes[i], login, norm)
            && forall j :: 0 <= j < |nodes| && By(nodes[j], login, norm) ==>
                 if j <= i then !Older(nodes[i].updatedAt, nodes[j].updatedAt)
                 else Older(nodes[j].updatedAt, nodes[i].updatedAt)
  {
    forall j | 0 <= j < |nodes|
      ensures Older(nodes[i].updatedAt, nodes[j].updatedAt) <==> !AtMost(nodes[j].updatedAt, nodes[i].updatedAt)
      ensures Older(nodes[j].updatedAt, nodes[i].updatedAt) <==> !AtMost(nodes[i].updatedAt, nodes[j].updatedAt)
      ensures AtMost(nodes[i].updatedAt, nodes[j].updatedAt) || AtMost(nodes[j].updatedAt, nodes[i].updatedAt)
    {
      OlderIff(nodes[i].updatedAt, nodes[j].updatedAt);
      OlderIff(nodes[j].updatedAt, nodes[i].updatedAt);
      AtMostTotal(nodes[i].updatedAt, nodes[j].updatedAt);
    }
  }

  /** The same for the choice among marked comments: the tier decides, and within the tier the newest. */
  lemma ChoiceIsNewest(nodes: seq<Comment>, login: string, norm: Norm, tier: Tier, i: int)
    requires 0 <= i < |nodes|
    ensures IsStatusChoice(nodes, login, norm, tier, i) <==>
            && Marked(nodes[i], login, norm, tier)
            && forall j :: 0 <= j < |nodes| && Marked(nodes[j], login, norm, tier) ==>
                 && tier(nodes[j].body) <= tier(nodes[i].body)
                 && (tier(nodes[j].body) == tier(nodes[i].body) ==>
                       if j <= i then !Older(nodes[i].updatedAt, nodes[j].updatedAt)
                       else Older(nodes[j].updatedAt, nodes[i].updatedAt))
  {
    forall j | 0 <= j < |nodes|
      ensures Older(nodes[i].updatedAt, nodes[j].updatedAt) <==> !AtMost(nodes[j].updatedAt, nodes[i].updatedAt)
      ensures Older(nodes[j].updatedAt, nodes[i].updatedAt) <==> !AtMost(nodes[i].updatedAt, nodes[j].updatedAt)
      ensures AtMost(nodes[i].updatedAt, nodes[j].updatedAt) || AtMost(nodes[j].updatedAt, nodes[i].updatedAt)
    {
      OlderIff(nodes[i].updatedAt, nodes[j].updatedAt);
      OlderIff(nodes[j].updatedAt, nodes[i].updatedAt);
      AtMostTotal(nodes[i].updatedAt, nodes[j].updatedAt);
    }
  }

  /** Of two comments with stamps of one width, the larger digit at the first difference is the newer one. */
  lemma NewerDigitWins(a: Comment, b: Comment, login: string, norm: Norm, k: nat)
    requires By(a, login, norm) && By(b, login, norm)
    requires |a.updatedAt| == |b.updatedAt| && k < |a.updatedAt| && a.updatedAt[..k] == b.updatedAt[..k]
    requires a.updatedAt[k] < b.updatedAt[k]
    ensures IsLatest([a, b], login, norm, 1) && IsLatest([b, a], login, norm, 0)
    ensures !IsLatest([a, b], login, norm, 0) && !IsLatest([b, a], login, norm, 1)
  {
    FixedWidthOrder(a.updatedAt, b.updatedAt, k);
    AtMostTotal(a.updatedAt, b.updatedAt);
    AtMostTotal(a.updatedAt, a.updatedAt);
    AtMostTotal(b.updatedAt, b.updatedAt);
  }

  // ---------------------------------------------------------------- reviews

  datatype Review = Review(author: Option<string>, state: string, body: string, submittedAt: string, commit: string)

  datatype Pick = Pick(state: string, commit: string, body: string, submittedAt: string)

  function PickOf(r: Review): Pick {
    Pick(r.state, r.commit, r.body, Trim(r.submittedAt))
  }

  predicate Speaks(r: Review, key: string, norm: Norm) {
    r.author.Some? && r.author.value != "" && norm(r.author.value) == key
  }

  /** Position `i` holds the last maximum by submission time among the reviews of `key`. */
  ghost predicate IsReviewChoice(reviews: seq<Review>, key: string, norm: Norm, i: int) {
    && 0 <= i < |reviews| && Speaks(reviews[i], key, norm)
    && (forall j :: 0 <= j < |reviews| && Speaks(reviews[j], key, norm) ==>
          AtMost(Trim(reviews[j].submittedAt), Trim(reviews[i].submittedAt)))
    && (forall j :: i < j < |reviews| && Speaks(reviews[j], key, norm) ==>
          !AtMost(Trim(reviews[i].submittedAt), Trim(reviews[j].submittedAt)))
  }

  ghost predicate PicksFor(reviews: seq<Review>, norm: Norm, out: map<string, Pick>, key: string) {
    if key in out then exists i :: IsReviewChoice(reviews, key, norm, i) && out[key] == PickOf(reviews[i])
    else forall i :: 0 <= i < |reviews| ==> !Speaks(reviews[i], key, norm)
  }

  /** `reviewsByBotLogin`: its three-way comparison of possibly missing times is one order in which a missing
      time comes first. */
  method ReviewsByLogin(reviews: seq<Review>, norm: Norm) returns (out: map<string, Pick>)
    ensures forall key :: PicksFor(reviews, norm, out, key)
  {
    out := map[];
    for i := 0 to |reviews|
      invariant forall key :: PicksFor(reviews[..i], norm, out, key)
    {
      var n := reviews[i];
      ghost var was := out;
      if n.author.Some? && n.author.value != "" {
        var ri := Pick(n.state, n.commit, n.body, Trim(n.submittedAt));
        var key := norm(n.author.value);
        var skip := false;
        if key in out {
          var prev := out[key];
          if ri.submittedAt == "" && prev.submittedAt != "" {
            skip := true;
          } else if ri.submittedAt != "" && prev.submittedAt != "" && Before(ri.submittedAt, prev.submittedAt) {
            skip := true;
          }
          assert skip <==> !AtMost(prev.submittedAt, ri.submittedAt);
        }
        if !skip {
          out := out[key := ri];
        }
      }
      ghost var seen, next := reviews[..i], reviews[..i + 1];
      assert next == seen + [n];
      forall key: string ensures PicksFor(next, norm, out, key) {
        assert PicksFor(seen, norm, was, key);
        PickNext(seen, n, norm, was, key);
      }
    }
    assert reviews[..|reviews|] == reviews;
  }

  /** The chosen review is the last newest of its login, by the trimmed time of submission. */
  lemma ReviewIsNewest(reviews: seq<Review>, key: string, norm: Norm, i: int)
    requires 0 <= i < |reviews|
    ensures IsReviewChoice(reviews, key, norm, i) <==>
            && Speaks(reviews[i], key, norm)
            && forall j :: 0 <= j < |reviews| && Speaks(reviews[j], key, norm) ==>
                 if j <= i then !Older(Trim(reviews[i].submittedAt), Trim(reviews[j].submittedAt))
                 else Older(Trim(reviews[j].submittedAt), Trim(reviews[i].submittedAt))
  {
    forall j | 0 <= j < |reviews|
      ensures Older(Trim(reviews[i].submittedAt), Trim(reviews[j].submittedAt)) <==>
                !AtMost(Trim(reviews[j].submittedAt), Trim(reviews[i].submittedAt))
      ensures Older(Trim(reviews[j].submittedAt), Trim(reviews[i].submittedAt)) <==>
                !AtMost(Trim(reviews[i].submittedAt), Trim(reviews[j].submittedAt))
      ensures AtMost(Trim(reviews[i].submittedAt), Trim(reviews[j].submittedAt))
              || AtMost(Trim(reviews[j].submittedAt), Trim(reviews[i].submittedAt))
    {
      OlderIff(Trim(reviews[i].submittedAt), Trim(reviews[j].submittedAt));
      OlderIff(Trim(reviews[j].submittedAt), Trim(reviews[i].submittedAt));
      AtMostTotal(Trim(reviews[i].submittedAt), Trim(reviews[j].submittedAt));
    }
  }

  /** What one more review does to the entry of `key`. */
  function NextPick(out: map<string, Pick>, n: Review, norm: Norm, key: string): Option<Pick> {
    if Speaks(n, key, norm) && (key !in out || AtMost(out[key].submittedAt, Trim(n.submittedAt))) then Some(PickOf(n))
    else if key in out then Some(out[key])
    else None
  }

  lemma PickNext(reviews: seq<Review>, n: Review, norm: Norm, was: map<string, Pick>, key: string)
    requires PicksFor(reviews, norm, was, key)
    ensures forall out: map<string, Pick> ::
              (match NextPick(was, n, norm, key)
               case None => key !in out
               case Some(p) => key in out && out[key] == p) ==>
              PicksFor(reviews + [n], norm, out, key)
  {
    var more := reviews + [n];
    var k := |reviews|;
    if Speaks(n, key, norm) && (key !in was || AtMost(was[key].submittedAt, Trim(n.submittedAt))) {
      AtMostTotal(Trim(n.submittedAt), Trim(n.submittedAt));
      forall j | 0 <= j < k && Speaks(more[j], key, norm)
        ensures AtMost(Trim(more[j].submittedAt), Trim(n.submittedAt)) {
        assert more[j] == reviews[j];
        assert key in was;
        var i :| IsReviewChoice(reviews, key, norm, i) && was[key] == PickOf(reviews[i]);
        AtMostTransitive(Trim(reviews[j].submittedAt), Trim(reviews[i].submittedAt), Trim(n.submittedAt));
      }
      assert IsReviewChoice(more, key, norm, k);
    } else if key in was {
      var i :| IsReviewChoice(reviews, key, norm, i) && was[key] == PickOf(reviews[i]);
      AtMostTotal(Trim(reviews[i].submittedAt), Trim(n.submittedAt));
      assert IsReviewChoice(more, key, norm, i);
    }
  }
}
