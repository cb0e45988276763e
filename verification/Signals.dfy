/** Path lookup, typed getters and the dotted-key index over nested signal trees (`internal/signals`). */
module Signals {
  import opened Results
  import opened Json
  import opened Text

  // ---------------------------------------------------------------- lookup

  /** The value below `v` along `segs`. */
  function Lookup(v: Value, segs: seq<string>): Option<Value> {
    if segs == [] then Some(v)
    else if v.Obj? && segs[0] in v.fields then Lookup(v.fields[segs[0]], segs[1..])
    else None
  }

  /** What `GetPath` finds: the value along the path's non-empty segments. */
  function PathValue(root: Object, path: string): Option<Value> {
    Lookup(Obj(root), Segments(path))
  }

  method GetPath(root: Object, path: string) returns (found: Option<Value>)
    ensures found == PathValue(root, path)
  {
    var parts := Split(path);
    var cur := Obj(root);
    for i := 0 to |parts|
      invariant Lookup(cur, NonEmpty(parts[i..])) == PathValue(root, path)
    {
      assert parts[i..] == [parts[i]] + parts[i + 1..];
      var p := parts[i];
      if p == "" {
        continue;
      }
      if !cur.Obj? {
        return None;
      }
      if p !in cur.fields {
        return None;
      }
      cur := cur.fields[p];
    }
    return Some(cur);
  }

  function GetString(root: Object, path: string): Option<string> {
    match PathValue(root, path)
    case Some(Str(s)) => Some(s)
    case _ => None
  }

  function GetBool(root: Object, path: string): Option<bool> {
    match PathValue(root, path)
    case Some(Bool(b)) => Some(b)
    case _ => None
  }

  function GetInt(root: Object, path: string): Option<int> {
    match PathValue(root, path)
    case Some(Int(i)) => Some(i)
    case Some(Real(r)) => Some(Truncate(r))
    case _ => None
  }

  // ---------------------------------------------------------------- the dotted-key index

  function Extend(prefix: string, key: string): string {
    if prefix == "" then key else prefix + "." + key
  }

  /** The index key built by walking from `prefix` down `segs`. */
  function KeyFrom(prefix: string, segs: seq<string>): string
    decreases segs
  {
    if segs == [] then prefix else KeyFrom(Extend(prefix, segs[0]), segs[1..])
  }

  /** Walking `v` under `prefix` stores the value found along `segs` at key `k`. */
  ghost predicate Stores(prefix: string, v: Value, segs: seq<string>, k: string) {
    && (segs != [] || prefix != "")
    && Lookup(v, segs).Some?
    && KeyFrom(prefix, segs) == k
  }

  ghost predicate StoresSome(prefix: string, v: Value, k: string) {
    exists segs :: Stores(prefix, v, segs, k)
  }

  ghost predicate StoresValue(prefix: string, v: Value, k: string, w: Value) {
    exists segs :: Stores(prefix, v, segs, k) && Lookup(v, segs) == Some(w)
  }

  /** `after` is `before` overwritten by a walk of `v` under `prefix`: every key of the walk is present and
      carries a value the walk stores there; every other key is as it was. When two key chains spell the
      same dotted key, either value may survive. */
  ghost predicate Walked(before: Object, after: Object, prefix: string, v: Value) {
    && (forall k :: k in after <==> k in before || StoresSome(prefix, v, k))
    && (forall k :: k in after ==>
          if StoresSome(prefix, v, k) then StoresValue(prefix, v, k, after[k])
          else k in before && after[k] == before[k])
  }

  /** One dotted-key index under construction: the shared `out` map that the recursive walk fills and that
      overlays overwrite in place. */
  class FlatIndex {
    var out: Object

    constructor ()
      ensures out == map[]
    {
      out := map[];
    }

    /** The recursive closure of `Flatten`. Keys are visited in an arbitrary order, as Go ranges over a map. */
    method Walk(prefix: string, v: Value)
      modifies this
      ensures Walked(old(out), out, prefix, v)
      decreases v
    {
      ghost var before := out;
      if prefix != "" {
        out := out[prefix := v];
      }
      if v.Obj? {
        var todo := v.fields.Keys;
        ghost var done: set<string> := {};
        ghost var start := out;
        WalkNothing(out, prefix, v.fields);
        while todo != {}
          invariant done + todo == v.fields.Keys && done !! todo
          invariant WalkedKeys(start, out, prefix, v.fields, done)
          decreases todo
        {
          var key :| key in todo;
          ghost var was := out;
          var p := Extend(prefix, key);
          out := out[p := v.fields[key]];
          Walk(p, v.fields[key]);
          WalkStep(start, was, out, prefix, v.fields, done, key);
          todo := todo - {key};
          done := done + {key};
        }
        assert done == v.fields.Keys;
      }
      WalkAll(before, out, prefix, v);
    }

    /** The overlay loops of `rgd`: every entry of the flattened `extra` is written over the index. */
    method Overlay(extra: Object) returns (ghost added: Object)
      modifies this
      ensures IsFlat(extra, added)
      ensures out == old(out) + added
    {
      var flat := Flatten(extra);
      var todo := flat.Keys;
      while todo != {}
        invariant todo <= flat.Keys
        invariant forall k :: k in out <==> k in old(out) || (k in flat && k !in todo)
        invariant forall k :: k in out ==> out[k] == if k in flat && k !in todo then flat[k] else old(out)[k]
        decreases todo
      {
        var k :| k in todo;
        out := out[k := flat[k]];
        todo := todo - {k};
      }
      added := flat;
    }
  }

  /** `flat` is a possible result of flattening `signals`; the outcome is unique when keys are clean. */
  ghost predicate IsFlat(signals: Object, flat: Object) {
    Walked(map[], flat, "", Obj(signals))
  }

  /** `Flatten`: its loop over namespaces is the walk of the whole tree under the empty prefix. */
  method Flatten(signals: Object) returns (out: Object)
    ensures IsFlat(signals, out)
  {
    var index := new FlatIndex();
    index.Walk("", Obj(signals));
    out := index.out;
  }

  /** Some walk that starts with a key of `keys` stores at `k`. */
  ghost predicate StoresVia(prefix: string, m: Object, keys: set<string>, k: string) {
    exists key :: key in keys && key in m && StoresFirst(prefix, m, key, k)
  }

  ghost predicate StoresFirst(prefix: string, m: Object, key: string, k: string)
    requires key in m
  {
    k == Extend(prefix, key) || StoresSome(Extend(prefix, key), m[key], k)
  }

  ghost predicate StoresFirstValue(prefix: string, m: Object, key: string, k: string, w: Value)
    requires key in m
  {
    (k == Extend(prefix, key) && w == m[key]) || StoresValue(Extend(prefix, key), m[key], k, w)
  }

  /** `after` is `before` overwritten by the walks of the entries of `m` whose key is in `keys`. */
  ghost predicate WalkedKeys(before: Object, after: Object, prefix: string, m: Object, keys: set<string>) {
    && (forall k :: k in after <==> k in before || StoresVia(prefix, m, keys, k))
    && (forall k :: k in after ==>
          if StoresVia(prefix, m, keys, k)
          then exists key :: key in keys && key in m && StoresFirstValue(prefix, m, key, k, after[k])
          else k in before && after[k] == before[k])
  }

  lemma WalkNothing(out: Object, prefix: string, m: Object)
    ensures WalkedKeys(out, out, prefix, m, {})
  {
  }

  lemma WalkStep(before: Object, was: Object, after: Object, prefix: string, m: Object, done: set<string>, key: string)
    requires key in m && key !in done
    requires WalkedKeys(before, was, prefix, m, done)
    requires Walked(was[Extend(prefix, key) := m[key]], after, Extend(prefix, key), m[key])
    ensures WalkedKeys(before, after, prefix, m, done + {key})
  {
    var p, next := Extend(prefix, key), done + {key};
    forall k
      ensures StoresVia(prefix, m, next, k) <==> StoresVia(prefix, m, done, k) || StoresFirst(prefix, m, key, k)
    {
      if StoresFirst(prefix, m, key, k) {
        assert key in next;
      }
      if StoresVia(prefix, m, done, k) {
        var key' :| key' in done && key' in m && StoresFirst(prefix, m, key', k);
        assert key' in next;
      }
    }
    forall k | k in after && StoresVia(prefix, m, next, k)
      ensures exists key' :: key' in next && key' in m && StoresFirstValue(prefix, m, key', k, after[k])
    {
      if StoresSome(p, m[key], k) || k == p {
        assert key in next && StoresFirstValue(prefix, m, key, k, after[k]);
      } else {
        var key' :| key' in done && key' in m && StoresFirstValue(prefix, m, key', k, after[k]);
        assert key' in next;
      }
    }
  }

  /** Splitting a walk at its first key. */
  lemma WalkFirst(prefix: string, m: Object, segs: seq<string>, k: string)
    requires segs != [] && Stores(prefix, Obj(m), segs, k)
    ensures segs[0] in m && StoresFirstValue(prefix, m, segs[0], k, Lookup(Obj(m), segs).value)
    ensures StoresFirst(prefix, m, segs[0], k)
  {
    var p := Extend(prefix, segs[0]);
    if segs[1..] != [] || p != "" {
      assert Stores(p, m[segs[0]], segs[1..], k);
    }
  }

  lemma WalkExtend(prefix: string, m: Object, key: string, k: string, w: Value)
    requires key in m && StoresFirstValue(prefix, m, key, k, w)
    ensures StoresValue(prefix, Obj(m), k, w)
  {
    var p := Extend(prefix, key);
    var segs: seq<string> := [];
    if StoresValue(p, m[key], k, w) {
      segs :| Stores(p, m[key], segs, k) && Lookup(m[key], segs) == Some(w);
    }
    var chain := [key] + segs;
    assert chain[0] == key && chain[1..] == segs;
    assert KeyFrom(prefix, chain) == KeyFrom(p, segs) == k;
    assert Lookup(Obj(m), chain) == Lookup(m[key], segs) == Some(w);
    assert Stores(prefix, Obj(m), chain, k);
  }

  lemma WalkAll(before: Object, after: Object, prefix: string, v: Value)
    requires var start := if prefix != "" then before[prefix := v] else before;
             if v.Obj? then WalkedKeys(start, after, prefix, v.fields, v.fields.Keys) else after == start
    ensures Walked(before, after, prefix, v)
  {
    if prefix != "" {
      assert Stores(prefix, v, [], prefix);
      assert StoresValue(prefix, v, prefix, v);
    }
    if v.Obj? {
      var m := v.fields;
      forall k
        ensures StoresSome(prefix, v, k) <==> (prefix != "" && k == prefix) || StoresVia(prefix, m, m.Keys, k)
      {
        if StoresSome(prefix, v, k) {
          var segs :| Stores(prefix, v, segs, k);
          if segs != [] {
            WalkFirst(prefix, m, segs, k);
          }
        }
        if StoresVia(prefix, m, m.Keys, k) {
          var key :| key in m && StoresFirst(prefix, m, key, k);
          WalkFirstSome(prefix, m, key, k);
        }
      }
      forall k | k in after && StoresSome(prefix, v, k)
        ensures StoresValue(prefix, v, k, after[k])
      {
        if StoresVia(prefix, m, m.Keys, k) {
          var key :| key in m && StoresFirstValue(prefix, m, key, k, after[k]);
          WalkExtend(prefix, m, key, k, after[k]);
        }
      }
    } else {
      assert forall segs, k :: Stores(prefix, v, segs, k) ==> segs == [];
    }
  }

  lemma WalkFirstSome(prefix: string, m: Object, key: string, k: string)
    requires key in m && StoresFirst(prefix, m, key, k)
    ensures StoresSome(prefix, Obj(m), k)
  {
    var p := Extend(prefix, key);
    if StoresSome(p, m[key], k) {
      var segs :| Stores(p, m[key], segs, k);
      assert StoresValue(p, m[key], k, Lookup(m[key], segs).value);
      WalkExtend(prefix, m, key, k, Lookup(m[key], segs).value);
    } else {
      WalkExtend(prefix, m, key, k, m[key]);
    }
  }
}
