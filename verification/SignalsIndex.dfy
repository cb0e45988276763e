/** The dotted-key index agrees with plain path lookup, and overlays touch only their own namespace. */
module SignalsIndex {
  import opened Results
  import opened Json
  import opened Text
  import opened Signals

  /** Every object key of the tree is non-empty and contains no dot. */
  predicate CleanTree(v: Value) {
    v.Obj? ==> forall k :: k in v.fields ==> CleanKey(k) && CleanTree(v.fields[k])
  }

  predicate CleanSegs(segs: seq<string>) {
    forall i :: 0 <= i < |segs| ==> CleanKey(segs[i])
  }

  lemma {:induction false} LookupClean(v: Value, segs: seq<string>)
    requires CleanTree(v) && Lookup(v, segs).Some?
    ensures CleanSegs(segs)
  {
    if segs != [] {
      LookupClean(v.fields[segs[0]], segs[1..]);
    }
  }

  lemma {:induction false} SplitKeyFrom(prefix: string, segs: seq<string>)
    requires CleanSegs(segs) && (prefix != "" || segs != [])
    ensures Split(KeyFrom(prefix, segs)) == (if prefix == "" then segs else Split(prefix) + segs)
    decreases segs
  {
    if segs != [] {
      var p := Extend(prefix, segs[0]);
      SplitKeyFrom(p, segs[1..]);
      SplitDotFree(segs[0]);
      if prefix != "" {
        SplitDotAppend(prefix, segs[0]);
        Reassociate(Split(prefix), [segs[0]], segs[1..]);
      }
      assert segs == [segs[0]] + segs[1..];
    }
  }

  /** Rejoining the parts of a split restores the string. */
  lemma {:induction false} KeyFromSplit(prefix: string, segs: seq<string>, k: string)
    requires Split(k) == segs && "" !in segs
    ensures KeyFrom(prefix, segs) == Extend(prefix, k)
  {
    KeyFromJoin(prefix, segs);
    JoinSplit(k);
  }

  function Join(segs: seq<string>): string
    requires segs != []
  {
    if |segs| == 1 then segs[0] else segs[0] + "." + Join(segs[1..])
  }

  lemma {:induction false} JoinSplit(k: string)
    ensures Join(Split(k)) == k
  {
    if k != "" {
      JoinSplit(k[1..]);
      var rest := Split(k[1..]);
      assert k == [k[0]] + k[1..];
      if k[0] == '.' {
        assert ([""] + rest)[1..] == rest;
      } else {
        var parts := [[k[0]] + rest[0]] + rest[1..];
        assert parts[1..] == rest[1..];
        if |rest| > 1 {
          assert [k[0]] + (rest[0] + "." + Join(rest[1..])) == ([k[0]] + rest[0]) + "." + Join(rest[1..]);
        }
      }
    }
  }

  lemma {:induction false} KeyFromJoin(prefix: string, segs: seq<string>)
    requires segs != [] && "" !in segs
    ensures KeyFrom(prefix, segs) == Extend(prefix, Join(segs))
    decreases segs
  {
    var p := Extend(prefix, segs[0]);
    if |segs| > 1 {
      assert segs[1] in segs[1..];
      KeyFromJoin(p, segs[1..]);
      if prefix != "" {
        assert (prefix + "." + segs[0]) + "." + Join(segs[1..]) == prefix + "." + (segs[0] + "." + Join(segs[1..]));
      }
    } else {
      assert segs[1..] == [];
    }
  }

  /** For clean signals the index has a key exactly when the key is a canonical path that resolves, and it
      holds the value the path resolves to. */
  lemma IndexAgreement(signals: Object, flat: Object, k: string)
    requires CleanTree(Obj(signals)) && IsFlat(signals, flat)
    ensures k in flat <==> Canonical(k) && PathValue(signals, k).Some?
    ensures k in flat ==> PathValue(signals, k) == Some(flat[k])
  {
    var root := Obj(signals);
    forall segs | Stores("", root, segs, k)
      ensures Canonical(k) && PathValue(signals, k) == Lookup(root, segs)
    {
      LookupClean(root, segs);
      SplitKeyFrom("", segs);
      NonEmptyId(segs);
    }
    if Canonical(k) && PathValue(signals, k).Some? {
      NonEmptyId(Split(k));
      KeyFromSplit("", Split(k), k);
      assert Stores("", root, Split(k), k);
    }
  }

  lemma TwoSegments(a: string, b: string)
    requires CleanKey(a) && CleanKey(b)
    ensures Split(a + "." + b) == Segments(a + "." + b) == [a, b] && Canonical(a + "." + b)
  {
    SplitDotAppend(a, b);
    SplitDotFree(a);
    SplitDotFree(b);
    NonEmptyId([a, b]);
  }

  lemma LookupTwo(root: Object, m: Object, a: string, b: string)
    requires a in root && root[a] == Obj(m)
    ensures Lookup(Obj(root), [a, b]) == if b in m then Some(m[b]) else None
  {
    assert [a, b][1..] == [b] && [b][1..] == [];
    assert Lookup(Obj(m), [b]) == if b in m then Lookup(m[b], []) else None;
  }

  /** A path with an empty segment resolves and is never a key. */
  lemma EmptySegmentNoKey(flat: Object)
    requires IsFlat(map["a" := Obj(map["b" := Int(1)])], flat)
    ensures PathValue(map["a" := Obj(map["b" := Int(1)])], "a..b") == Some(Int(1)) && "a..b" !in flat
  {
    var inner := map["b" := Int(1)];
    var signals := map["a" := Obj(inner)];
    assert "a..b" == "a." + "." + "b" && "a." == "a" + "." + "";
    SplitDotAppend("a.", "b");
    SplitDotAppend("a", "");
    SplitDotFree("a");
    SplitDotFree("b");
    assert Split("a..b") == ["a", "", "b"];
    NonEmptyAppend(["a"], ["", "b"]);
    NonEmptyCons("", ["b"]);
    NonEmptyId(["a"]);
    NonEmptyId(["b"]);
    LookupTwo(signals, inner, "a", "b");
    assert CleanTree(Obj(inner)) && CleanTree(Obj(signals));
    IndexAgreement(signals, flat, "a..b");
  }

  // ---------------------------------------------------------------- map order

  /** No two key chains of the tree spell one dotted key with different values. */
  ghost predicate Unambiguous(signals: Object) {
    forall segs, segs', k :: Stores("", Obj(signals), segs, k) && Stores("", Obj(signals), segs', k) ==>
      Lookup(Obj(signals), segs) == Lookup(Obj(signals), segs')
  }

  /** Any value that some key chain stores may survive. */
  lemma OtherSurvivor(signals: Object, flat: Object, segs: seq<string>, k: string)
    requires IsFlat(signals, flat) && Stores("", Obj(signals), segs, k)
    ensures IsFlat(signals, flat[k := Lookup(Obj(signals), segs).value])
  {
    assert StoresSome("", Obj(signals), k);
    assert StoresValue("", Obj(signals), k, Lookup(Obj(signals), segs).value);
  }

  /** The index is the same for every order of map iteration exactly when the tree is unambiguous. */
  lemma FlattenDeterministic(signals: Object, flat: Object)
    requires IsFlat(signals, flat)
    ensures Unambiguous(signals) <==> forall flat' :: IsFlat(signals, flat') ==> flat' == flat
  {
    var root := Obj(signals);
    if Unambiguous(signals) {
      forall flat' | IsFlat(signals, flat') ensures flat' == flat {
        forall k ensures k in flat <==> k in flat'
                 ensures k in flat ==> flat[k] == flat'[k]
        {
          if k in flat {
            assert StoresValue("", root, k, flat[k]) && StoresValue("", root, k, flat'[k]);
          }
        }
      }
    } else {
      var segs, segs', k :|
        Stores("", root, segs, k) && Stores("", root, segs', k) && Lookup(root, segs) != Lookup(root, segs');
      OtherSurvivor(signals, flat, segs, k);
      OtherSurvivor(signals, flat, segs', k);
      assert flat[k := Lookup(root, segs).value][k] != flat[k := Lookup(root, segs').value][k];
    }
  }

  /** Clean keys suffice. */
  lemma CleanUnambiguous(signals: Object)
    requires CleanTree(Obj(signals))
    ensures Unambiguous(signals)
  {
    var root := Obj(signals);
    forall segs, segs', k | Stores("", root, segs, k) && Stores("", root, segs', k)
      ensures Lookup(root, segs) == Lookup(root, segs')
    {
      LookupClean(root, segs);
      LookupClean(root, segs');
      SplitKeyFrom("", segs);
      SplitKeyFrom("", segs');
    }
  }

  /** Every tree has an index: the walk itself, visiting keys in some order. */
  lemma {:induction false} SomeWalk(before: Object, prefix: string, v: Value) returns (after: Object)
    ensures Walked(before, after, prefix, v)
    decreases v
  {
    after := if prefix != "" then before[prefix := v] else before;
    if v.Obj? {
      var start, todo, done := after, v.fields.Keys, {};
      WalkNothing(after, prefix, v.fields);
      while todo != {}
        invariant done + todo == v.fields.Keys && done !! todo
        invariant WalkedKeys(start, after, prefix, v.fields, done)
        decreases todo
      {
        var key :| key in todo;
        var was := after;
        after := SomeWalk(was[Extend(prefix, key) := v.fields[key]], Extend(prefix, key), v.fields[key]);
        WalkStep(start, was, after, prefix, v.fields, done, key);
        todo, done := todo - {key}, done + {key};
      }
      assert done == v.fields.Keys;
    }
    WalkAll(before, after, prefix, v);
  }

  lemma SomeFlat(signals: Object) returns (flat: Object)
    ensures IsFlat(signals, flat)
  {
    flat := SomeWalk(map[], "", Obj(signals));
  }

  /** A dotted key that spells another key's path: two runs of `Flatten` may return different indexes. */
  lemma DottedKeysCollide()
    ensures var signals := map["a.b" := Int(1), "a" := Obj(map["b" := Int(2)])];
            exists flat, flat' :: IsFlat(signals, flat) && IsFlat(signals, flat') && flat != flat'
  {
    var signals := map["a.b" := Int(1), "a" := Obj(map["b" := Int(2)])];
    var flat := SomeFlat(signals);
    DottedChain(signals, ["a.b"]);
    DottedChain(signals, ["a", "b"]);
    FlattenDeterministic(signals, flat);
  }

  lemma DottedChain(signals: Object, segs: seq<string>)
    requires signals == map["a.b" := Int(1), "a" := Obj(map["b" := Int(2)])] && segs in {["a.b"], ["a", "b"]}
    ensures Stores("", Obj(signals), segs, "a.b")
    ensures Lookup(Obj(signals), segs) == Some(Int(if |segs| == 1 then 1 else 2))
  {
    if |segs| == 1 {
      assert segs[1..] == [];
    } else {
      assert segs[1..] == ["b"] && ["b"][1..] == [];
      assert KeyFrom("", segs) == "a" + "." + "b" == "a.b";
    }
  }

  // ---------------------------------------------------------------- lookup on the index

  lemma TopLevel(signals: Object, s: string)
    requires CleanKey(s)
    ensures Canonical(s)
    ensures PathValue(signals, s) == if s in signals then Some(signals[s]) else None
  {
    SplitDotFree(s);
    NonEmptyId([s]);
    var segs := Segments(s);
    assert segs == [s] && segs[1..] == [];
    assert Lookup(Obj(signals), segs) == if s in signals then Lookup(signals[s], segs[1..]) else None;
  }

  /** Objects below a chain of empty keys spill their own keys to the top of the index. They are harmless if the
      tree has the same entries at its top. */
  predicate Harmless(root: Object, v: Value) {
    v.Obj? && "" in v.fields && v.fields[""].Obj? ==>
      && (forall k :: k in v.fields[""].fields && CleanKey(k) ==> k in root && root[k] == v.fields[""].fields[k])
      && Harmless(root, v.fields[""])
  }

  /** No harm at all when no top-level key is empty. */
  predicate PlainTop(signals: Object) {
    Harmless(signals, Obj(signals))
  }

  lemma {:induction false} KeyHasDot(prefix: string, segs: seq<string>)
    requires prefix != "" && (segs != [] || '.' in prefix)
    ensures '.' in KeyFrom(prefix, segs)
    decreases segs
  {
    if segs != [] {
      var p := Extend(prefix, segs[0]);
      assert p[|prefix|] == '.';
      KeyHasDot(p, segs[1..]);
    }
  }

  /** A key without dot is stored by its own entry, or by one spilled from below empty keys. */
  lemma {:induction false} DotFreeStore(root: Object, v: Value, segs: seq<string>, s: string)
    requires CleanKey(s) && Stores("", v, segs, s) && Harmless(root, v)
    requires v.Obj? && forall k :: k in v.fields && CleanKey(k) ==> k in root && root[k] == v.fields[k]
    ensures s in root && Lookup(v, segs) == Some(root[s])
    decreases segs
  {
    var k, rest := segs[0], segs[1..];
    assert KeyFrom(k, rest) == s;
    if k == "" {
      DotFreeStore(root, v.fields[""], rest, s);
    } else if rest != [] {
      KeyHasDot(k, rest);
    }
  }

  lemma TopOfIndex(signals: Object, flat: Object, s: string)
    requires PlainTop(signals) && IsFlat(signals, flat) && CleanKey(s)
    ensures s in flat <==> s in signals
    ensures s in flat ==> flat[s] == signals[s]
  {
    var root := Obj(signals);
    if s in signals {
      assert [s][1..] == [];
      assert Lookup(root, [s]) == Lookup(signals[s], []);
      assert Stores("", root, [s], s);
    }
    if s in flat {
      var segs :| Stores("", root, segs, s) && Lookup(root, segs) == Some(flat[s]);
      DotFreeStore(signals, root, segs, s);
    }
  }

  /** Path lookup on the flattened map is path lookup on the original tree, dotted keys or not. So although the
      index may vary with map order, no reader of paths can tell. */
  lemma FlatLookup(signals: Object, flat: Object, path: string)
    requires PlainTop(signals) && IsFlat(signals, flat)
    requires Segments(path) != []
    ensures PathValue(flat, path) == PathValue(signals, path)
  {
    var s := Segments(path)[0];
    SegmentsClean(path);
    assert CleanKey(s);
    TopOfIndex(signals, flat, s);
  }

  lemma {:induction false} Spilled(root: Object, v: Value) returns (segs: seq<string>, s: string)
    requires !Harmless(root, v)
    ensures CleanKey(s) && Stores("", v, segs, s) && !(s in root && Lookup(v, segs) == Some(root[s]))
  {
    var below := v.fields[""];
    if k :| k in below.fields && CleanKey(k) && !(k in root && root[k] == below.fields[k]) {
      segs, s := ["", k], k;
      assert segs[1..] == [k] && [k][1..] == [];
      assert Lookup(below, [k]) == Lookup(below.fields[k], []);
      assert KeyFrom("", segs) == KeyFrom("", [k]) == KeyFrom(k, []) == k;
    } else {
      var rest;
      rest, s := Spilled(root, below);
      segs := [""] + rest;
      assert segs[1..] == rest;
      assert KeyFrom("", segs) == KeyFrom("", rest) == s;
    }
  }

  /** The condition on empty keys is exact. */
  lemma FlatLookupExact(signals: Object, flat: Object)
    requires IsFlat(signals, flat)
    ensures PlainTop(signals) <==>
            forall flat', path :: IsFlat(signals, flat') && Segments(path) != [] ==>
              PathValue(flat', path) == PathValue(signals, path)
  {
    if PlainTop(signals) {
      forall flat', path | IsFlat(signals, flat') && Segments(path) != []
        ensures PathValue(flat', path) == PathValue(signals, path)
      {
        FlatLookup(signals, flat', path);
      }
    } else {
      var segs, s := Spilled(signals, Obj(signals));
      var flat' := flat[s := Lookup(Obj(signals), segs).value];
      OtherSurvivor(signals, flat, segs, s);
      TopLevel(flat', s);
      TopLevel(signals, s);
      SplitDotFree(s);
      NonEmptyId([s]);
    }
  }

  // ---------------------------------------------------------------- lookup and map order

  /** Both maps resolve every path that has a segment to the same value. */
  ghost predicate SameLookups(a: Object, b: Object) {
    forall path :: Segments(path) != [] ==> PathValue(a, path) == PathValue(b, path)
  }

  /** Equal entries under every key that can stand as a path segment. */
  ghost predicate SameTop(a: Object, b: Object) {
    forall s :: CleanKey(s) ==> (s in a <==> s in b) && (s in a ==> a[s] == b[s])
  }

  lemma SameTopLookups(a: Object, b: Object)
    requires SameTop(a, b)
    ensures SameLookups(a, b)
  {
    forall path | Segments(path) != [] ensures PathValue(a, path) == PathValue(b, path) {
      SegmentsClean(path);
      assert CleanKey(Segments(path)[0]);
    }
  }

  /** No two key chains of the tree spell one segment with different values. */
  ghost predicate TopUnambiguous(signals: Object) {
    forall segs, segs', s ::
      CleanKey(s) && Stores("", Obj(signals), segs, s) && Stores("", Obj(signals), segs', s) ==>
        Lookup(Obj(signals), segs) == Lookup(Obj(signals), segs')
  }

  lemma SameIndexTops(signals: Object, flat: Object, flat': Object)
    requires TopUnambiguous(signals) && IsFlat(signals, flat) && IsFlat(signals, flat')
    ensures SameTop(flat, flat')
  {
    var root := Obj(signals);
    forall s | CleanKey(s) ensures (s in flat <==> s in flat') && (s in flat ==> flat[s] == flat'[s]) {
      if s in flat {
        assert StoresValue("", root, s, flat[s]) && StoresValue("", root, s, flat'[s]);
      }
    }
  }

  /** Readers of paths see the same for every order of map iteration exactly when no segment is ambiguous. */
  lemma LookupsDeterministic(signals: Object, flat: Object)
    requires IsFlat(signals, flat)
    ensures TopUnambiguous(signals) <==> forall flat' :: IsFlat(signals, flat') ==> SameLookups(flat, flat')
  {
    var root := Obj(signals);
    if TopUnambiguous(signals) {
      forall flat' | IsFlat(signals, flat') ensures SameLookups(flat, flat') {
        SameIndexTops(signals, flat, flat');
        SameTopLookups(flat, flat');
      }
    } else {
      var segs, segs', s :| && CleanKey(s) && Stores("", root, segs, s) && Stores("", root, segs', s)
                            && Lookup(root, segs) != Lookup(root, segs');
      OtherSurvivor(signals, flat, segs, s);
      OtherSurvivor(signals, flat, segs', s);
      var a, b := flat[s := Lookup(root, segs).value], flat[s := Lookup(root, segs').value];
      TopLevel(a, s);
      TopLevel(b, s);
      SplitDotFree(s);
      NonEmptyId([s]);
      assert PathValue(a, s) != PathValue(b, s) && Segments(s) != [];
    }
  }

  /** Harmless empty keys leave no segment ambiguous. */
  lemma PlainTopUnambiguous(signals: Object)
    requires PlainTop(signals)
    ensures TopUnambiguous(signals)
  {
    var root := Obj(signals);
    forall segs, segs', s | CleanKey(s) && Stores("", root, segs, s) && Stores("", root, segs', s)
      ensures Lookup(root, segs) == Lookup(root, segs')
    {
      DotFreeStore(signals, root, segs, s);
      DotFreeStore(signals, root, segs', s);
    }
  }

  /** An entry below an empty top-level key resolves on the index as if it stood at the top. */
  lemma EmptyKeySpills()
    ensures var signals := map["" := Obj(map["a" := Int(1)])];
            exists flat, path ::
              IsFlat(signals, flat) && Segments(path) != [] && PathValue(flat, path) != PathValue(signals, path)
  {
    var below: Object := map["a" := Int(1)];
    var signals: Object := map["" := Obj(below)];
    var flat := SomeFlat(signals);
    assert "a" in below && CleanKey("a") && "a" !in signals;
    FlatLookupExact(signals, flat);
  }

  /** Overlaying one flattened namespace changes exactly the paths whose first segment names it: those
      resolve in the new tree, all others as before. */
  lemma OverlayLookup(flat: Object, ns: string, tree: Value, added: Object, path: string)
    requires CleanKey(ns) && IsFlat(map[ns := tree], added)
    requires Segments(path) != []
    ensures PathValue(flat + added, path) ==
            if Segments(path)[0] == ns then PathValue(map[ns := tree], path) else PathValue(flat, path)
  {
    var s := Segments(path)[0];
    SegmentsClean(path);
    assert CleanKey(s);
    TopOfIndex(map[ns := tree], added, s);
  }

  // ---------------------------------------------------------------- what an overlay leaves behind

  /** The chains of a merged tree are those of the overlaid namespace and those of the rest. */
  lemma MergedChain(signals: Object, ns: string, tree: Value, segs: seq<string>, k: string)
    ensures Stores("", Obj(signals[ns := tree]), segs, k) <==>
            if segs != [] && segs[0] == ns then Stores("", Obj(map[ns := tree]), segs, k)
            else Stores("", Obj(signals - {ns}), segs, k)
    ensures Stores("", Obj(signals[ns := tree]), segs, k) ==>
              Lookup(Obj(signals[ns := tree]), segs) ==
              Lookup(Obj(if segs[0] == ns then map[ns := tree] else signals - {ns}), segs)
    ensures Stores("", Obj(map[ns := tree]), segs, k) ==> segs[0] == ns
    ensures Stores("", Obj(signals - {ns}), segs, k) ==>
              segs[0] != ns && Stores("", Obj(signals), segs, k)
  {
  }

  lemma MergedStores(signals: Object, ns: string, tree: Value, k: string, w: Value)
    ensures StoresValue("", Obj(signals[ns := tree]), k, w) <==>
            StoresValue("", Obj(map[ns := tree]), k, w) || StoresValue("", Obj(signals - {ns}), k, w)
  {
    forall segs ensures Stores("", Obj(signals[ns := tree]), segs, k) <==>
                        Stores("", Obj(map[ns := tree]), segs, k) || Stores("", Obj(signals - {ns}), segs, k)
    {
      MergedChain(signals, ns, tree, segs, k);
    }
    forall segs | Stores("", Obj(signals[ns := tree]), segs, k)
      ensures Lookup(Obj(signals[ns := tree]), segs) ==
              Lookup(Obj(if segs[0] == ns then map[ns := tree] else signals - {ns}), segs)
      ensures if segs[0] == ns then Stores("", Obj(map[ns := tree]), segs, k)
              else Stores("", Obj(signals - {ns}), segs, k)
    {
      MergedChain(signals, ns, tree, segs, k);
    }
    forall segs | Stores("", Obj(map[ns := tree]), segs, k) || Stores("", Obj(signals - {ns}), segs, k)
      ensures Stores("", Obj(map[ns := tree]), segs, k) ==> segs[0] == ns
      ensures Stores("", Obj(signals - {ns}), segs, k) ==> segs[0] != ns
    {
      MergedChain(signals, ns, tree, segs, k);
    }
  }

  lemma RestStores(signals: Object, ns: string, k: string)
    requires StoresSome("", Obj(signals - {ns}), k)
    ensures StoresSome("", Obj(signals), k)
  {
    var segs :| Stores("", Obj(signals - {ns}), segs, k);
    MergedChain(signals, ns, Null, segs, k);
  }

  lemma SomeValue(root: Value, k: string)
    ensures StoresSome("", root, k) <==> exists w :: StoresValue("", root, k, w)
  {
    if StoresSome("", root, k) {
      var segs :| Stores("", root, segs, k);
      assert StoresValue("", root, k, Lookup(root, segs).value);
    }
  }

  lemma IndexEntry(signals: Object, flat: Object, k: string)
    requires IsFlat(signals, flat)
    ensures k in flat <==> StoresSome("", Obj(signals), k)
    ensures k in flat ==> StoresValue("", Obj(signals), k, flat[k])
  {
  }

  /** Keys of an overlaid namespace survive the overlay. So the overlaid map is an index of the merged tree exactly
      when every surviving entry is stored by the rest of the tree as well. */
  lemma OverlayStaleKeys(signals: Object, flat: Object, ns: string, tree: Value, added: Object)
    requires IsFlat(signals, flat) && IsFlat(map[ns := tree], added)
    ensures IsFlat(signals[ns := tree], flat + added) <==>
            forall k :: k in flat && k !in added ==> StoresValue("", Obj(signals - {ns}), k, flat[k])
  {
    var merged, both := signals[ns := tree], flat + added;
    if IsFlat(merged, both) {
      forall k | k in flat && k !in added ensures StoresValue("", Obj(signals - {ns}), k, flat[k]) {
        IndexEntry(merged, both, k);
        IndexEntry(map[ns := tree], added, k);
        MergedStores(signals, ns, tree, k, flat[k]);
        SomeValue(Obj(map[ns := tree]), k);
      }
    }
    if forall k :: k in flat && k !in added ==> StoresValue("", Obj(signals - {ns}), k, flat[k]) {
      forall k
        ensures k in both <==> StoresSome("", Obj(merged), k)
        ensures k in both ==> StoresValue("", Obj(merged), k, both[k])
      {
        MergedEntry(signals, flat, ns, tree, added, k);
      }
    }
  }

  lemma MergedEntry(signals: Object, flat: Object, ns: string, tree: Value, added: Object, k: string)
    requires IsFlat(signals, flat) && IsFlat(map[ns := tree], added)
    requires k in flat && k !in added ==> StoresValue("", Obj(signals - {ns}), k, flat[k])
    ensures k in flat + added <==> StoresSome("", Obj(signals[ns := tree]), k)
    ensures k in flat + added ==> StoresValue("", Obj(signals[ns := tree]), k, (flat + added)[k])
  {
    var merged, both := Obj(signals[ns := tree]), flat + added;
    IndexEntry(signals, flat, k);
    IndexEntry(map[ns := tree], added, k);
    if k in both {
      MergedStores(signals, ns, tree, k, both[k]);
      SomeValue(merged, k);
    }
    if StoresSome("", merged, k) {
      SomeValue(merged, k);
      var w :| StoresValue("", merged, k, w);
      MergedStores(signals, ns, tree, k, w);
      SomeValue(Obj(map[ns := tree]), k);
      SomeValue(Obj(signals - {ns}), k);
      if StoresSome("", Obj(signals - {ns}), k) {
        RestStores(signals, ns, k);
      }
    }
  }

  /** With clean keys: exactly when every key the index had under the namespace resolves in the new tree. */
  lemma OverlayStaleKeysClean(signals: Object, flat: Object, ns: string, tree: Value, added: Object)
    requires CleanTree(Obj(signals)) && IsFlat(signals, flat) && IsFlat(map[ns := tree], added)
    ensures IsFlat(signals[ns := tree], flat + added) <==>
            forall k :: k in flat && Split(k)[0] == ns ==> k in added
  {
    OverlayStaleKeys(signals, flat, ns, tree, added);
    forall k | k in flat ensures StoresValue("", Obj(signals - {ns}), k, flat[k]) <==> Split(k)[0] != ns {
      CleanRest(signals, flat, ns, k);
    }
  }

  lemma CleanRest(signals: Object, flat: Object, ns: string, k: string)
    requires CleanTree(Obj(signals)) && IsFlat(signals, flat) && k in flat
    ensures StoresValue("", Obj(signals - {ns}), k, flat[k]) <==> Split(k)[0] != ns
  {
    forall segs | Stores("", Obj(signals), segs, k) ensures Split(k) == segs {
      LookupClean(Obj(signals), segs);
      SplitKeyFrom("", segs);
    }
    forall segs | Stores("", Obj(signals - {ns}), segs, k) ensures segs == Split(k) && segs[0] != ns {
      MergedChain(signals, ns, Null, segs, k);
    }
    if Split(k)[0] != ns {
      assert StoresValue("", Obj(signals), k, flat[k]);
      var segs :| Stores("", Obj(signals), segs, k) && Lookup(Obj(signals), segs) == Some(flat[k]);
      assert Lookup(Obj(signals - {ns}), segs) == Lookup(Obj(signals), segs);
    }
  }

  /** A key that the overlaid namespace no longer has survives in the index. */
  lemma StaleKeySurvives(ns: string, gone: string)
    requires CleanKey(ns) && CleanKey(gone)
    ensures exists flat, added ::
              && IsFlat(map[ns := Obj(map[gone := Null])], flat) && IsFlat(map[ns := Obj(map[])], added)
              && ns + "." + gone in flat + added && !IsFlat(map[ns := Obj(map[])], flat + added)
  {
    var inner, tree := map[gone := Null], Obj(map[]);
    var signals, extra := map[ns := Obj(inner)], map[ns := tree];
    var flat := SomeFlat(signals);
    var added := SomeFlat(extra);
    var k := ns + "." + gone;
    assert CleanTree(Obj(inner)) && CleanTree(Obj(signals)) && CleanTree(tree) && CleanTree(Obj(extra));
    TwoSegments(ns, gone);
    LookupTwo(signals, inner, ns, gone);
    LookupTwo(extra, map[], ns, gone);
    IndexAgreement(signals, flat, k);
    IndexAgreement(extra, added, k);
    OverlayStaleKeysClean(signals, flat, ns, tree, added);
    assert signals[ns := tree] == extra;
  }
}
