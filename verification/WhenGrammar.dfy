/** The grammar of when-clauses, stated shape by shape, and the load-time checker as its exact decision. */
module WhenGrammar {
  import opened Results
  import opened Json
  import opened Text
  import opened ValidateWhen
  import MatchTheorems
  import SignalsIndex

  const NAMESPACES: set<string> := {"$", "git", "github", "state", "gates"}

  /** A path names the array element or starts, without surrounding white space, with a known namespace. */
  predicate SignalPath(m: Object) {
    && "path" in m && m["path"].Str?
    && var path := m["path"].s;
       path != "" && Trimmed(path) && (path == "$" || (|Split(path)| > 1 && Split(path)[0] in NAMESPACES))
  }

  predicate NoLogical(m: Object) {
    "and" !in m && "or" !in m && "not" !in m
  }

  predicate ConstantForm(m: Object) {
    && "eval" in m && m["eval"] == Str("constant") && "op" !in m && NoLogical(m)
    && "params" in m && m["params"].Obj?
    && "value" in m["params"].fields && m["params"].fields["value"].Bool?
  }

  /** Exactly one of the logical keys, and nothing else that makes a clause. */
  predicate OnlyLogical(m: Object, key: string) {
    && "eval" !in m && "op" !in m && key in m
    && (key == "and" || "and" !in m) && (key == "or" || "or" !in m) && (key == "not" || "not" !in m)
  }

  predicate WellFormed(v: Value)
    decreases v, 1
  {
    match v
    case Arr(es) => forall i :: 0 <= i < |es| ==> WellFormed(es[i])
    case Obj(m) =>
      || ConstantForm(m)
      || ("eval" !in m && "op" in m && m["op"].Str? && NoLogical(m) && OpForm(v, m["op"].s))
      || (OnlyLogical(m, "and") && WellFormedList(m["and"]))
      || (OnlyLogical(m, "or") && WellFormedList(m["or"]))
      || (OnlyLogical(m, "not") && WellFormed(m["not"]))
    case _ => false
  }

  predicate WellFormedList(v: Value)
    decreases v, 0
  {
    v.Arr? && forall i :: 0 <= i < |v.elts| ==> WellFormed(v.elts[i])
  }

  /** The operands each operator needs. */
  predicate OpForm(v: Value, op: string)
    requires v.Obj?
    decreases v, 0
  {
    var m := v.fields;
    && SignalPath(m)
    && (|| (op in {"eq", "ne", "gt", "lt", "gte", "lte", "contains"} && "value" in m)
        || (op == "in" && "value" in m && m["value"].Arr?)
        || op in {"exists", "not_exists"}
        || (op == "count" && "eq" in m && ("when" in m ==> WellFormed(m["when"])))
        || (op in {"any", "all"} && "when" in m && WellFormed(m["when"])))
  }

  // ---------------------------------------------------------------- paths

  lemma DotPrefix(path: string, ns: string)
    requires '.' !in ns
    ensures ns + "." <= path <==> |Split(path)| > 1 && Split(path)[0] == ns
  {
    if ns + "." <= path {
      var rest := path[|ns| + 1..];
      assert path == ns + "." + rest;
      SplitDotAppend(ns, rest);
      SplitDotFree(ns);
    }
    if |Split(path)| > 1 && Split(path)[0] == ns {
      SignalsIndex.JoinSplit(path);
      assert path == ns + "." + SignalsIndex.Join(Split(path)[1..]);
    }
  }

  lemma PathForm(m: Object)
    ensures PathOk(m) && PrefixOk(m["path"].s) <==> SignalPath(m)
  {
    if "path" in m && m["path"].Str? {
      var path := m["path"].s;
      TrimFixpoint(path);
      if path != "" && Trimmed(path) {
        PrefixForm(path);
      }
    }
  }

  lemma PrefixForm(path: string)
    ensures PrefixOk(path) <==> path == "$" || (|Split(path)| > 1 && Split(path)[0] in NAMESPACES)
  {
    DotPrefix(path, "$");
    DotPrefix(path, "git");
    DotPrefix(path, "github");
    DotPrefix(path, "state");
    DotPrefix(path, "gates");
    assert "$" + "." == "$." && "git" + "." == "git." && "github" + "." == "github.";
    assert "state" + "." == "state." && "gates" + "." == "gates.";
  }

  // ---------------------------------------------------------------- the checker decides the grammar

  lemma {:induction false} ListForm(es: seq<Value>)
    ensures WalkAll(es).None? <==> forall i :: 0 <= i < |es| ==> WellFormed(es[i])
    decreases es, 0
  {
    MatchTheorems.WalkAllEach(es);
    forall i | 0 <= i < |es| ensures WalkWhen(es[i]).None? <==> WellFormed(es[i]) {
      ClauseForm(es[i]);
    }
  }

  lemma {:induction false} OpFormExact(v: Value, op: string)
    requires v.Obj?
    ensures WalkOp(v, op).None? <==> OpForm(v, op)
    decreases v, 0
  {
    var m := v.fields;
    PathForm(m);
    if "when" in m {
      ClauseForm(m["when"]);
    }
  }

  /** The checker on an object with at most one logical key. */
  lemma OneLogical(v: Value)
    requires v.Obj? && "eval" !in v.fields && "op" !in v.fields && LogicalCount(v.fields) <= 1
    ensures var m := v.fields;
            WalkWhen(v) == if "and" in m then WalkList(m["and"])
                           else if "or" in m then WalkList(m["or"])
                           else if "not" in m then WalkWhen(m["not"])
                           else Some(UnknownShape)
  {
    var m, children := v.fields, WalkLogical(v);
    assert WalkWhen(v) == WalkMap(v);
    if "and" in m {
      assert children == WalkList(m["and"]);
    } else if "or" in m {
      assert children == WalkList(m["or"]);
    } else if "not" in m {
      assert children == WalkWhen(m["not"]);
    }
  }

  lemma ManyLogical(v: Value)
    requires v.Obj? && LogicalCount(v.fields) > 1
    ensures WalkWhen(v).Some?
    ensures !OnlyLogical(v.fields, "and") && !OnlyLogical(v.fields, "or") && !OnlyLogical(v.fields, "not")
  {
    assert WalkWhen(v) == WalkMap(v);
  }

  lemma LogicalForm(v: Value)
    requires v.Obj? && "eval" !in v.fields && "op" !in v.fields
    ensures var m := v.fields;
            WalkWhen(v).None? <==>
            || (OnlyLogical(m, "and") && WalkList(m["and"]).None?)
            || (OnlyLogical(m, "or") && WalkList(m["or"]).None?)
            || (OnlyLogical(m, "not") && WalkWhen(m["not"]).None?)
  {
    if LogicalCount(v.fields) > 1 {
      ManyLogical(v);
    } else {
      OneLogical(v);
    }
  }

  lemma {:induction false} ClauseForm(v: Value)
    ensures WalkWhen(v).None? <==> WellFormed(v)
    decreases v, 1
  {
    match v
    case Arr(es) => ListForm(es);
    case Obj(m) =>
      assert WalkWhen(v) == WalkMap(v);
      if "eval" !in m && "op" in m {
        if m["op"].Str? {
          OpFormExact(v, m["op"].s);
        }
      } else if "eval" !in m {
        LogicalForm(v);
        if "and" in m && m["and"].Arr? {
          ListForm(m["and"].elts);
        }
        if "or" in m && m["or"].Arr? {
          ListForm(m["or"].elts);
        }
        if "not" in m {
          ClauseForm(m["not"]);
        }
      }
    case _ =>
  }

  /** Configuration loading accepts an absent clause and exactly the well-formed ones. */
  lemma ValidatorExact(when: Value)
    ensures Validate(when).None? <==> when.Null? || WellFormed(when)
  {
    ClauseForm(when);
  }
}
