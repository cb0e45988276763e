/** String helpers of the Go standard library that the decision pipeline relies on:
    `strings.TrimSpace`, `strings.Split(_, ".")`, `strings.Contains` and byte-wise ordering. */
module Text {

  // ---------------------------------------------------------------- TrimSpace

  /** Unicode white space as Go's `unicode.IsSpace` defines it. */
  predicate IsSpace(c: char) {
    var n := c as int;
    || 9 <= n <= 13 || n == 0x20 || n == 0x85 || n == 0xA0 || n == 0x1680
    || 0x2000 <= n <= 0x200A || n == 0x2028 || n == 0x2029 || n == 0x202F || n == 0x205F || n == 0x3000
  }

  function TrimLeft(s: string): string {
    if s != "" && IsSpace(s[0]) then TrimLeft(s[1..]) else s
  }

  function TrimRight(s: string): string {
    if s != "" && IsSpace(s[|s| - 1]) then TrimRight(s[..|s| - 1]) else s
  }

  function Trim(s: string): string {
    TrimRight(TrimLeft(s))
  }

  predicate Blank(s: string) {
    Trim(s) == ""
  }

  /** A string whose first and last characters are not white space. */
  predicate Trimmed(s: string) {
    s == "" || (!IsSpace(s[0]) && !IsSpace(s[|s| - 1]))
  }

  lemma {:induction false} TrimRightKeepsHead(s: string)
    requires s != "" && !IsSpace(s[0])
    ensures TrimRight(s) != "" && TrimRight(s)[0] == s[0] && !IsSpace(TrimRight(s)[|TrimRight(s)| - 1])
  {
    if IsSpace(s[|s| - 1]) {
      TrimRightKeepsHead(s[..|s| - 1]);
    }
  }

  lemma {:induction false} TrimLeftHead(s: string)
    ensures TrimLeft(s) == "" || !IsSpace(TrimLeft(s)[0])
  {
    if s != "" && IsSpace(s[0]) {
      TrimLeftHead(s[1..]);
    }
  }

  /** Trimming yields a trimmed string, and trimmed strings are exactly the fixed points. */
  lemma TrimFixpoint(s: string)
    ensures Trimmed(Trim(s))
    ensures Trim(s) == s <==> Trimmed(s)
    ensures Trim(Trim(s)) == Trim(s)
  {
    TrimmedUnchanged(s);
    TrimLeftHead(s);
    if TrimLeft(s) != "" {
      TrimRightKeepsHead(TrimLeft(s));
    }
    TrimmedUnchanged(Trim(s));
  }

  lemma TrimmedUnchanged(s: string)
    ensures Trimmed(s) ==> Trim(s) == s
  {
  }

  predicate AllSpace(s: string) {
    forall i :: 0 <= i < |s| ==> IsSpace(s[i])
  }

  lemma {:induction false} TrimLeftCuts(s: string) returns (k: nat)
    ensures k <= |s| && AllSpace(s[..k]) && TrimLeft(s) == s[k..]
  {
    k := 0;
    if s != "" && IsSpace(s[0]) {
      k := TrimLeftCuts(s[1..]);
      assert s[..k + 1] == [s[0]] + s[1..][..k];
      k := k + 1;
    }
  }

  lemma {:induction false} TrimRightCuts(s: string) returns (k: nat)
    ensures k <= |s| && AllSpace(s[k..]) && TrimRight(s) == s[..k]
  {
    k := |s|;
    if s != "" && IsSpace(s[|s| - 1]) {
      var t := s[..|s| - 1];
      k := TrimRightCuts(t);
      assert s[k..] == t[k..] + [s[|s| - 1]] && t[..k] == s[..k];
    }
  }

  /** Trimming cuts white space off both ends and nothing else. */
  lemma TrimCuts(s: string) returns (l: string, r: string)
    ensures AllSpace(l) && AllSpace(r) && s == l + Trim(s) + r
  {
    var k := TrimLeftCuts(s);
    var m := TrimRightCuts(s[k..]);
    l, r := s[..k], s[k..][m..];
  }

  /** The characters that Unicode marks as white space. */
  lemma SpaceCharacters(c: char)
    ensures IsSpace(c) <==>
            || '\U{0009}' <= c <= '\U{000D}' || c in {' ', '\U{0085}', '\U{00A0}', '\U{1680}'}
            || '\U{2000}' <= c <= '\U{200A}' || c in {'\U{2028}', '\U{2029}', '\U{202F}', '\U{205F}', '\U{3000}'}
  {
  }

  // ---------------------------------------------------------------- dot paths

  /** `strings.Split(s, ".")`. */
  function Split(s: string): (parts: seq<string>)
    ensures parts != []
  {
    if s == "" then [""]
    else
      var rest := Split(s[1..]);
      if s[0] == '.' then [""] + rest else [[s[0]] + rest[0]] + rest[1..]
  }

  function NonEmpty(parts: seq<string>): seq<string> {
    if parts == [] then []
    else if parts[0] == "" then NonEmpty(parts[1..])
    else [parts[0]] + NonEmpty(parts[1..])
  }

  /** The path segments a lookup follows: empty segments are skipped. */
  function Segments(path: string): seq<string> {
    NonEmpty(Split(path))
  }

  /** A key that can stand as one path segment. */
  predicate CleanKey(k: string) {
    k != "" && '.' !in k
  }

  /** A path without empty segments. */
  predicate Canonical(path: string) {
    "" !in Split(path)
  }

  lemma {:induction false} SplitDotFree(k: string)
    requires '.' !in k
    ensures Split(k) == [k]
  {
    if k != "" {
      assert '.' !in k[1..];
      SplitDotFree(k[1..]);
      assert k == [k[0]] + k[1..];
    }
  }

  lemma {:induction false} SplitPartsDotFree(s: string)
    ensures forall p :: p in Split(s) ==> '.' !in p
  {
    if s != "" {
      SplitPartsDotFree(s[1..]);
    }
  }

  lemma SplitCons(c: char, s: string)
    ensures Split([c] + s) == if c == '.' then [""] + Split(s) else [[c] + Split(s)[0]] + Split(s)[1..]
  {
    assert ([c] + s)[1..] == s;
  }

  lemma {:induction false} SplitDotAppend(a: string, b: string)
    ensures Split(a + "." + b) == Split(a) + Split(b)
  {
    if a == "" {
      assert a + "." + b == ['.'] + b;
      SplitCons('.', b);
    } else {
      var c, tail := a[0], a[1..];
      var rest, last := Split(tail), Split(b);
      assert a == [c] + tail && a + "." + b == [c] + (tail + "." + b);
      SplitDotAppend(tail, b);
      SplitCons(c, tail);
      SplitCons(c, tail + "." + b);
      SplitHead(rest, last);
      Reassociate([""], rest, last);
      Reassociate([[c] + rest[0]], rest[1..], last);
    }
  }

  lemma Reassociate(a: seq<string>, b: seq<string>, c: seq<string>)
    ensures a + (b + c) == (a + b) + c
  {
  }

  lemma SplitHead(rest: seq<string>, last: seq<string>)
    requires rest != []
    ensures (rest + last)[0] == rest[0] && (rest + last)[1..] == rest[1..] + last
  {
  }

  lemma NonEmptyCons(p: string, rest: seq<string>)
    ensures NonEmpty([p] + rest) == if p == "" then NonEmpty(rest) else [p] + NonEmpty(rest)
  {
    assert ([p] + rest)[1..] == rest;
  }

  lemma {:induction false} NonEmptyAppend(a: seq<string>, b: seq<string>)
    ensures NonEmpty(a + b) == NonEmpty(a) + NonEmpty(b)
  {
    if a == [] {
      assert a + b == b;
    } else {
      var p, rest := a[0], a[1..];
      assert a == [p] + rest && a + b == [p] + (rest + b);
      NonEmptyAppend(rest, b);
      NonEmptyCons(p, rest);
      NonEmptyCons(p, rest + b);
      Reassociate([p], NonEmpty(rest), NonEmpty(b));
    }
  }

  lemma {:induction false} NonEmptyId(parts: seq<string>)
    ensures "" !in parts ==> NonEmpty(parts) == parts
  {
    if parts != [] {
      NonEmptyId(parts[1..]);
    }
  }

  lemma {:induction false} NonEmptyMembers(parts: seq<string>)
    ensures forall p :: p in NonEmpty(parts) <==> p in parts && p != ""
  {
    if parts != [] {
      NonEmptyMembers(parts[1..]);
      assert parts == [parts[0]] + parts[1..];
    }
  }

  lemma SegmentsClean(path: string)
    ensures forall p :: p in Segments(path) ==> CleanKey(p)
  {
    SplitPartsDotFree(path);
    NonEmptyMembers(Split(path));
  }

  // ---------------------------------------------------------------- ordering and search

  /** Go's `a <= b` on strings. Code-point order agrees with the byte order of UTF-8. */
  predicate AtMost(a: string, b: string) {
    a == "" || (b != "" && (a[0] < b[0] || (a[0] == b[0] && AtMost(a[1..], b[1..]))))
  }

  predicate Before(a: string, b: string) {
    !AtMost(b, a)
  }

  lemma {:induction false} AtMostTotal(a: string, b: string)
    ensures AtMost(a, b) || AtMost(b, a)
    ensures AtMost(a, b) && AtMost(b, a) ==> a == b
    ensures AtMost(a, a)
  {
    if a != "" {
      if b != "" {
        AtMostTotal(a[1..], b[1..]);
        if a[0] == b[0] && a[1..] == b[1..] {
          assert a == [a[0]] + a[1..] == b;
        }
      } else {
        AtMostTotal(a[1..], b);
      }
    }
  }

  lemma {:induction false} AtMostTransitive(a: string, b: string, c: string)
    requires AtMost(a, b) && AtMost(b, c)
    ensures AtMost(a, c)
  {
    if a != "" && a[0] == b[0] && b[0] == c[0] {
      AtMostTransitive(a[1..], b[1..], c[1..]);
    }
  }

  /** `a` and `b` first differ at `i`, where `a` has the smaller character. */
  predicate FirstDifference(a: string, b: string, i: int) {
    0 <= i < |a| && i < |b| && a[..i] == b[..i] && a[i] < b[i]
  }

  /** The order of strings without recursion: a prefix comes first, and else the first difference decides. */
  lemma {:induction false} AtMostMeaning(a: string, b: string)
    ensures AtMost(a, b) <==> a <= b || exists i :: FirstDifference(a, b, i)
  {
    if a != "" && b != "" {
      if a[0] == b[0] {
        AtMostMeaning(a[1..], b[1..]);
        DifferenceShifts(a, b);
        assert a == [a[0]] + a[1..] && b == [b[0]] + b[1..];
      } else {
        assert FirstDifference(a, b, 0) <==> a[0] < b[0];
        assert forall i :: 0 < i <= |a| && i <= |b| ==> a[..i][0] == a[0] && b[..i][0] == b[0];
      }
    }
  }

  lemma DifferenceShifts(a: string, b: string)
    requires a != "" && b != "" && a[0] == b[0]
    ensures (exists i :: FirstDifference(a, b, i)) <==> exists i :: FirstDifference(a[1..], b[1..], i)
  {
    if exists i :: FirstDifference(a, b, i) {
      var i :| FirstDifference(a, b, i);
      assert a[1..][..i - 1] == a[..i][1..] && b[1..][..i - 1] == b[..i][1..];
      assert FirstDifference(a[1..], b[1..], i - 1);
    }
    if exists i :: FirstDifference(a[1..], b[1..], i) {
      var i :| FirstDifference(a[1..], b[1..], i);
      assert a[..i + 1] == [a[0]] + a[1..][..i] && b[..i + 1] == [b[0]] + b[1..][..i];
      assert FirstDifference(a, b, i + 1);
    }
  }

  /** For stamps of one width the larger character at the first difference wins. */
  lemma FixedWidthOrder(a: string, b: string, i: nat)
    requires |a| == |b| && i < |a| && a[..i] == b[..i] && a[i] != b[i]
    ensures AtMost(a, b) <==> a[i] < b[i]
    ensures Before(a, b) <==> a[i] < b[i]
  {
    AtMostMeaning(a, b);
    AtMostMeaning(b, a);
    AtMostTotal(a, b);
    if a[i] < b[i] {
      assert FirstDifference(a, b, i);
    } else {
      assert FirstDifference(b, a, i);
    }
  }

  /** `strings.Compare`. */
  function Compare(a: string, b: string): int {
    if a == b then 0 else if AtMost(a, b) then -1 else 1
  }

  /** `strings.Contains`. */
  predicate Contains(s: string, sub: string) {
    sub <= s || (s != "" && Contains(s[1..], sub))
  }

  predicate OccursAt(s: string, sub: string, i: int) {
    0 <= i && i + |sub| <= |s| && s[i..i + |sub|] == sub
  }

  lemma {:induction false} ContainsMeaning(s: string, sub: string)
    ensures Contains(s, sub) <==> exists i :: OccursAt(s, sub, i)
  {
    assert OccursAt(s, sub, 0) <==> sub <= s;
    if s != "" {
      ContainsMeaning(s[1..], sub);
      forall i | i > 0 ensures OccursAt(s, sub, i) <==> OccursAt(s[1..], sub, i - 1) {
        if i + |sub| <= |s| {
          assert s[1..][i - 1..i - 1 + |sub|] == s[i..i + |sub|];
        }
      }
      if Contains(s[1..], sub) {
        var i :| OccursAt(s[1..], sub, i);
        assert OccursAt(s, sub, i + 1);
      }
    }
  }

  lemma CompareMeaning(a: string, b: string)
    ensures Compare(a, b) == 0 <==> a == b
    ensures Compare(a, b) < 0 <==> Before(a, b)
  {
    AtMostTotal(a, b);
  }

  predicate HasPrefix(s: string, prefix: string) {
    prefix <= s
  }
}
