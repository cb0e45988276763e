/** Laws of the when-clause language: clause order is irrelevant, derived operators, exactness of the operand
    checks, and evaluation after a JSON round trip of the signals. */
module MatchLaws {
  import opened Results
  import opened Json
  import opened Text
  import opened Signals
  import opened Match
  import opened MatchTheorems
  import ValidateWhen

  // ---------------------------------------------------------------- clause order

  /** Equal up to the order and repetition of the children of `and`, `or` and bare arrays, at any depth
      (also below `not` and below the `when` of array operators). */
  ghost predicate Same(a: Value, b: Value)
    decreases a, 1
  {
    || a == b
    || (a.Arr? && b.Arr? && SameChildren(a.elts, b.elts))
    || (a.Obj? && b.Obj? && a.fields.Keys == b.fields.Keys
        && forall k :: k in a.fields ==> SameField(k, a.fields[k], b.fields[k]))
  }

  ghost predicate SameField(k: string, a: Value, b: Value)
    decreases a, 2
  {
    || a == b
    || (k in {"and", "or"} && a.Arr? && b.Arr? && SameChildren(a.elts, b.elts))
    || (k in {"not", "when"} && Same(a, b))
  }

  ghost predicate SameChildren(es: seq<Value>, fs: seq<Value>)
    decreases es, 1
  {
    && (forall i {:trigger MatchesOne(es[i], fs)} :: 0 <= i < |es| ==> MatchesOne(es[i], fs))
    && (forall j {:trigger OneMatches(es, fs[j])} :: 0 <= j < |fs| ==> OneMatches(es, fs[j]))
  }

  ghost predicate MatchesOne(x: Value, fs: seq<Value>)
    decreases x, 2
  {
    exists j :: 0 <= j < |fs| && Same(x, fs[j])
  }

  ghost predicate OneMatches(es: seq<Value>, y: Value)
    decreases es, 0
  {
    exists i :: 0 <= i < |es| && Same(es[i], y)
  }

  /** Permuting a child list is an instance. */
  lemma PermutedChildren(es: seq<Value>, fs: seq<Value>)
    requires multiset(es) == multiset(fs)
    ensures SameChildren(es, fs)
  {
    forall i | 0 <= i < |es| ensures MatchesOne(es[i], fs) {
      assert es[i] in multiset(fs);
      var j :| 0 <= j < |fs| && fs[j] == es[i];
      assert Same(es[i], fs[j]);
    }
    forall j | 0 <= j < |fs| ensures OneMatches(es, fs[j]) {
      assert fs[j] in multiset(es);
      var i :| 0 <= i < |es| && es[i] == fs[j];
      assert Same(es[i], fs[j]);
    }
  }

  /** What reordering must keep: acceptance, operand checks and meaning. */
  ghost predicate Agree(a: Value, b: Value, signals: Object, pf: Parser) {
    && ValidateWhen.WalkWhen(b).None?
    && OperandsOk(a, pf) == OperandsOk(b, pf)
    && Holds(a, signals, pf) == Holds(b, signals, pf)
  }

  lemma {:induction false} RightChild(es: seq<Value>, fs: seq<Value>, i: nat, signals: Object, pf: Parser)
    returns (j: nat)
    requires SameChildren(es, fs) && i < |es| && ValidateWhen.WalkWhen(es[i]).None?
    ensures j < |fs| && Agree(es[i], fs[j], signals, pf)
    decreases es, 0
  {
    assert MatchesOne(es[i], fs);
    j :| 0 <= j < |fs| && Same(es[i], fs[j]);
    SameAgree(es[i], fs[j], signals, pf);
  }

  lemma {:induction false} LeftChild(es: seq<Value>, fs: seq<Value>, j: nat, signals: Object, pf: Parser)
    returns (i: nat)
    requires SameChildren(es, fs) && j < |fs| && forall i :: 0 <= i < |es| ==> ValidateWhen.WalkWhen(es[i]).None?
    ensures i < |es| && Agree(es[i], fs[j], signals, pf)
    decreases es, 0
  {
    assert OneMatches(es, fs[j]);
    i :| 0 <= i < |es| && Same(es[i], fs[j]);
    SameAgree(es[i], fs[j], signals, pf);
  }

  lemma {:induction false} ChildrenAgree(es: seq<Value>, fs: seq<Value>, signals: Object, pf: Parser)
    requires SameChildren(es, fs) && ValidateWhen.WalkAll(es).None?
    ensures ValidateWhen.WalkAll(fs).None?
    ensures AllOperandsOk(es, pf) == AllOperandsOk(fs, pf)
    ensures AllHold(es, signals, pf) == AllHold(fs, signals, pf)
    ensures SomeHold(es, signals, pf) == SomeHold(fs, signals, pf)
    decreases es, 1
  {
    WalkAllEach(es);
    forall j | 0 <= j < |fs|
      ensures ValidateWhen.WalkWhen(fs[j]).None?
      ensures AllOperandsOk(es, pf) ==> OperandsOk(fs[j], pf)
      ensures AllHold(es, signals, pf) ==> Holds(fs[j], signals, pf)
      ensures Holds(fs[j], signals, pf) ==> SomeHold(es, signals, pf)
    {
      var i := LeftChild(es, fs, j, signals, pf);
    }
    forall i | 0 <= i < |es|
      ensures AllOperandsOk(fs, pf) ==> OperandsOk(es[i], pf)
      ensures AllHold(fs, signals, pf) ==> Holds(es[i], signals, pf)
      ensures Holds(es[i], signals, pf) ==> SomeHold(fs, signals, pf)
    {
      var j := RightChild(es, fs, i, signals, pf);
    }
    WalkAllEach(fs);
  }

  lemma {:induction false} SameAgree(a: Value, b: Value, signals: Object, pf: Parser)
    requires Same(a, b) && ValidateWhen.WalkWhen(a).None?
    ensures Agree(a, b, signals, pf)
    decreases a, 2
  {
    if a != b {
      if a.Arr? {
        ChildrenAgree(a.elts, b.elts, signals, pf);
        assert Holds(a, signals, pf) == AllHold(a.elts, signals, pf);
        assert Holds(b, signals, pf) == AllHold(b.elts, signals, pf);
        assert OperandsOk(a, pf) == AllOperandsOk(a.elts, pf);
        assert OperandsOk(b, pf) == AllOperandsOk(b.elts, pf);
      } else {
        ObjectAgree(a, b, signals, pf);
      }
    }
  }

  lemma {:induction false} ObjectAgree(a: Value, b: Value, signals: Object, pf: Parser)
    requires a.Obj? && b.Obj? && a.fields.Keys == b.fields.Keys && ValidateWhen.WalkWhen(a).None?
    requires forall k :: k in a.fields ==> SameField(k, a.fields[k], b.fields[k])
    ensures Agree(a, b, signals, pf)
    decreases a, 1
  {
    AcceptedShape(a);
    var m, n := a.fields, b.fields;
    assert ValidateWhen.WalkWhen(b) == ValidateWhen.WalkMap(b);
    assert ValidateWhen.LogicalCount(m) == ValidateWhen.LogicalCount(n) <= 1 by {
      assert ValidateWhen.WalkMap(a).None?;
    }
    if "eval" in m {
      assert SameField("eval", m["eval"], n["eval"]) && SameField("params", m["params"], n["params"]);
    } else if "op" in m {
      assert SameField("op", m["op"], n["op"]);
      assert ValidateWhen.LogicalCount(m) == 0 by {
        assert ValidateWhen.WalkMap(a).None?;
      }
      OpAgree(m["op"].s, a, b, signals, pf);
    } else if "not" in m {
      assert SameField("not", m["not"], n["not"]);
      SameAgree(m["not"], n["not"], signals, pf);
      assert ValidateWhen.WalkLogical(b) == ValidateWhen.WalkWhen(n["not"]);
    } else {
      LogicalAgree(if "and" in m then "and" else "or", a, b, signals, pf);
    }
  }

  lemma {:induction false} LogicalAgree(key: string, a: Value, b: Value, signals: Object, pf: Parser)
    requires a.Obj? && b.Obj? && a.fields.Keys == b.fields.Keys
    requires key == "and" || (key == "or" && "and" !in a.fields)
    requires "eval" !in a.fields && "op" !in a.fields && "not" !in a.fields && ValidateWhen.LogicalCount(a.fields) == 1
    requires key in a.fields && a.fields[key].Arr? && ValidateWhen.WalkAll(a.fields[key].elts).None?
    requires SameField(key, a.fields[key], b.fields[key])
    ensures Agree(a, b, signals, pf)
    decreases a, 0
  {
    var x, y := a.fields[key], b.fields[key];
    if x != y {
      ChildrenAgree(x.elts, y.elts, signals, pf);
    }
    assert ValidateWhen.WalkWhen(b) == ValidateWhen.WalkMap(b);
    assert ValidateWhen.WalkLogical(b) == ValidateWhen.WalkList(y) == ValidateWhen.WalkAll(y.elts);
    LogicalMeaning(key, a, signals, pf);
    LogicalMeaning(key, b, signals, pf);
  }

  lemma LogicalMeaning(key: string, a: Value, signals: Object, pf: Parser)
    requires a.Obj? && "eval" !in a.fields && "op" !in a.fields
    requires key == "and" || (key == "or" && "and" !in a.fields)
    requires key in a.fields && a.fields[key].Arr?
    ensures var es := a.fields[key].elts;
            && OperandsOk(a, pf) == AllOperandsOk(es, pf)
            && Holds(a, signals, pf) == if key == "and" then AllHold(es, signals, pf) else SomeHold(es, signals, pf)
  {
  }

  lemma {:induction false} OpAgree(op: string, a: Value, b: Value, signals: Object, pf: Parser)
    requires a.Obj? && b.Obj? && a.fields.Keys == b.fields.Keys && ValidateWhen.WalkOp(a, op).None?
    requires forall k :: k in a.fields ==> SameField(k, a.fields[k], b.fields[k])
    ensures ValidateWhen.WalkOp(b, op).None?
    ensures OpOperandsOk(op, a, pf) == OpOperandsOk(op, b, pf)
    ensures HoldsOp(op, a, signals, pf) == HoldsOp(op, b, signals, pf)
    decreases a, 0
  {
    var m, n := a.fields, b.fields;
    WalkedOperands(op, a);
    assert SameField("path", m["path"], n["path"]);
    assert "value" in m ==> SameField("value", m["value"], n["value"]);
    assert "eq" in m ==> SameField("eq", m["eq"], n["eq"]);
    if RangesOverArray(op) && "when" in m {
      assert SameField("when", m["when"], n["when"]);
      SubclauseAgree(m["when"], n["when"], Elements(m["path"].s, signals), pf);
    }
    OpDetermined(op, a, b, signals, pf);
  }

  lemma {:induction false} SubclauseAgree(x: Value, y: Value, arr: Option<seq<Value>>, pf: Parser)
    requires Same(x, y) && ValidateWhen.WalkWhen(x).None?
    ensures SameSubclause(x, y, arr, pf)
    decreases x, 3
  {
    SameAgree(x, y, map[], pf);
    if arr.Some? {
      forall i | 0 <= i < |arr.value|
        ensures Holds(x, Scope(arr.value[i]), pf) == Holds(y, Scope(arr.value[i]), pf)
      {
        SameAgree(x, y, Scope(arr.value[i]), pf);
      }
    }
  }

  /** Equal operands and, for array operators, sub-clauses that agree on the elements. */
  ghost predicate SameOperands(op: string, a: Value, b: Value, arr: Option<seq<Value>>, pf: Parser)
    requires a.Obj? && b.Obj?
  {
    var m, n := a.fields, b.fields;
    && m.Keys == n.Keys && "path" in m && m["path"] == n["path"]
    && ("value" in m ==> m["value"] == n["value"]) && ("eq" in m ==> m["eq"] == n["eq"])
    && (RangesOverArray(op) && "when" in m ==> SameSubclause(m["when"], n["when"], arr, pf))
  }

  ghost predicate SameSubclause(x: Value, y: Value, arr: Option<seq<Value>>, pf: Parser) {
    && ValidateWhen.WalkWhen(y).None?
    && OperandsOk(x, pf) == OperandsOk(y, pf)
    && (arr.Some? ==> forall i :: 0 <= i < |arr.value| ==>
          Holds(x, Scope(arr.value[i]), pf) == Holds(y, Scope(arr.value[i]), pf))
  }

  lemma WalkDetermined(op: string, a: Value, b: Value, arr: Option<seq<Value>>, pf: Parser)
    requires a.Obj? && b.Obj? && SameOperands(op, a, b, arr, pf) && ValidateWhen.WalkOp(a, op).None?
    ensures ValidateWhen.WalkOp(b, op).None?
  {
  }

  lemma LeafDetermined(op: string, a: Value, b: Value, signals: Object, pf: Parser)
    requires a.Obj? && b.Obj? && !RangesOverArray(op) && SameOperands(op, a, b, None, pf)
    ensures OpOperandsOk(op, a, pf) == OpOperandsOk(op, b, pf)
    ensures HoldsOp(op, a, signals, pf) == HoldsOp(op, b, signals, pf)
  {
  }

  lemma CountDetermined(op: string, a: Value, b: Value, signals: Object, pf: Parser)
    requires a.Obj? && b.Obj? && OpOf(op) == Some(Count) && ValidateWhen.PathOk(a.fields) && "eq" in a.fields
    requires SameOperands(op, a, b, Elements(a.fields["path"].s, signals), pf)
    ensures OpOperandsOk(op, a, pf) == OpOperandsOk(op, b, pf)
    ensures HoldsOp(op, a, signals, pf) == HoldsOp(op, b, signals, pf)
  {
    var m, n := a.fields, b.fields;
    var arr := Elements(m["path"].s, signals);
    if "when" in m && arr.Some? {
      assert HoldingPositions(m["when"], arr.value, pf) == HoldingPositions(n["when"], arr.value, pf);
    }
  }

  lemma QuantDetermined(op: string, a: Value, b: Value, signals: Object, pf: Parser)
    requires a.Obj? && b.Obj? && OpOf(op) in {Some(Any), Some(All)} && ValidateWhen.PathOk(a.fields)
    requires SameOperands(op, a, b, Elements(a.fields["path"].s, signals), pf)
    ensures OpOperandsOk(op, a, pf) == OpOperandsOk(op, b, pf)
    ensures HoldsOp(op, a, signals, pf) == HoldsOp(op, b, signals, pf)
  {
  }

  /** An operator clause is determined by its operands and by what its sub-clause means on the elements. */
  lemma OpDetermined(op: string, a: Value, b: Value, signals: Object, pf: Parser)
    requires a.Obj? && b.Obj? && ValidateWhen.WalkOp(a, op).None? && ValidateWhen.PathOk(a.fields)
    requires SameOperands(op, a, b, Elements(a.fields["path"].s, signals), pf)
    ensures ValidateWhen.WalkOp(b, op).None?
    ensures OpOperandsOk(op, a, pf) == OpOperandsOk(op, b, pf)
    ensures HoldsOp(op, a, signals, pf) == HoldsOp(op, b, signals, pf)
  {
    WalkedOperands(op, a);
    WalkDetermined(op, a, b, Elements(a.fields["path"].s, signals), pf);
    if !RangesOverArray(op) {
      LeafDetermined(op, a, b, signals, pf);
    } else if OpOf(op) == Some(Count) {
      CountDetermined(op, a, b, signals, pf);
    } else {
      QuantDetermined(op, a, b, signals, pf);
    }
  }

  /** Reordering or repeating children anywhere in an accepted clause keeps it accepted, and keeps its verdict exactly
      when the reordered clause has one: two verdicts that both exist are equal. */
  lemma ClauseOrderIrrelevant(a: Value, b: Value, signals: Object, pf: Parser)
    requires Accepted(a) && Same(a, b)
    ensures Accepted(b) && OperandsOk(b, pf) == OperandsOk(a, pf)
    ensures Eval(a, signals, pf).Ok? ==> (Eval(b, signals, pf) == Eval(a, signals, pf) <==> Eval(b, signals, pf).Ok?)
  {
    SameAgree(a, b, signals, pf);
    ValueFaithful(a, signals, pf);
    ValueFaithful(b, signals, pf);
  }

  /** With the operand checks both always exist, so no verdict changes. */
  lemma CheckedOrderIrrelevant(a: Value, b: Value, signals: Object, pf: Parser)
    requires Accepted(a) && OperandsOk(a, pf) && Same(a, b)
    ensures Eval(a, signals, pf).Ok? && Eval(b, signals, pf) == Eval(a, signals, pf)
  {
    ClauseOrderIrrelevant(a, b, signals, pf);
    DenotationalAgreement(a, signals, pf);
    DenotationalAgreement(b, signals, pf);
  }

  // ---------------------------------------------------------------- when order matters

  /** Evaluation of a child list: `or` stops at a true child, `and` at a false one. */
  function RunList(decisive: bool, es: seq<Value>, signals: Object, pf: Parser): Verdict {
    if decisive then EvalOr(es, signals, pf) else EvalAnd(es, signals, pf)
  }

  predicate Yields(r: Verdict, b: bool) {
    r.Ok? && r.value == b
  }

  ghost predicate SomeDecides(decisive: bool, es: seq<Value>, signals: Object, pf: Parser) {
    exists i :: 0 <= i < |es| && Yields(EvalValue(es[i], signals, pf), decisive)
  }

  ghost predicate SomeErrs(es: seq<Value>, signals: Object, pf: Parser) {
    exists i :: 0 <= i < |es| && EvalValue(es[i], signals, pf).Err?
  }

  /** The same verdict, or an error on both sides. */
  predicate SameOutcome(a: Verdict, b: Verdict) {
    a == b || (a.Err? && b.Err?)
  }

  lemma ChildFirst(decisive: bool, es: seq<Value>, signals: Object, pf: Parser)
    requires es != []
    ensures SomeDecides(decisive, es, signals, pf) <==>
              (Yields(EvalValue(es[0], signals, pf), decisive) || SomeDecides(decisive, es[1..], signals, pf))
    ensures SomeErrs(es, signals, pf) <==> (EvalValue(es[0], signals, pf).Err? || SomeErrs(es[1..], signals, pf))
  {
    assert forall i :: 0 <= i < |es[1..]| ==> es[1..][i] == es[i + 1];
    assert forall i :: 1 <= i < |es| ==> es[i] == es[1..][i - 1];
  }

  lemma RunFirst(decisive: bool, es: seq<Value>, signals: Object, pf: Parser)
    requires es != []
    ensures var head := EvalValue(es[0], signals, pf);
            RunList(decisive, es, signals, pf) ==
            if Yields(head, !decisive) then RunList(decisive, es[1..], signals, pf) else head
  {
  }

  /** Without both a deciding and a failing child, the outcome is read off the children whatever their order. */
  lemma {:induction false} ListOutcome(decisive: bool, es: seq<Value>, signals: Object, pf: Parser)
    requires !(SomeDecides(decisive, es, signals, pf) && SomeErrs(es, signals, pf))
    ensures var r := RunList(decisive, es, signals, pf);
            if SomeErrs(es, signals, pf) then r.Err?
            else Yields(r, if SomeDecides(decisive, es, signals, pf) then decisive else !decisive)
  {
    if es != [] {
      ChildFirst(decisive, es, signals, pf);
      RunFirst(decisive, es, signals, pf);
      ListOutcome(decisive, es[1..], signals, pf);
    }
  }

  lemma ChildPermutation(decisive: bool, es: seq<Value>, fs: seq<Value>, signals: Object, pf: Parser)
    requires multiset(es) == multiset(fs)
    ensures SomeDecides(decisive, es, signals, pf) ==> SomeDecides(decisive, fs, signals, pf)
    ensures SomeErrs(es, signals, pf) ==> SomeErrs(fs, signals, pf)
  {
    forall i | 0 <= i < |es| ensures exists j :: 0 <= j < |fs| && fs[j] == es[i] {
      assert es[i] in multiset(fs);
    }
  }

  /** Some order puts a given child first. */
  lemma ToFront(es: seq<Value>, i: nat) returns (fs: seq<Value>)
    requires i < |es|
    ensures multiset(fs) == multiset(es) && fs != [] && fs[0] == es[i]
  {
    fs := [es[i]] + (es[..i] + es[i + 1..]);
    assert es == es[..i] + ([es[i]] + es[i + 1..]);
  }

  /** Exactly when the order of a child list is irrelevant: unless one child decides and another one fails. */
  lemma ChildOrderExact(decisive: bool, es: seq<Value>, signals: Object, pf: Parser)
    ensures (forall fs :: multiset(fs) == multiset(es) ==>
               SameOutcome(RunList(decisive, fs, signals, pf), RunList(decisive, es, signals, pf))) <==>
            !(SomeDecides(decisive, es, signals, pf) && SomeErrs(es, signals, pf))
  {
    if SomeDecides(decisive, es, signals, pf) && SomeErrs(es, signals, pf) {
      var i :| 0 <= i < |es| && Yields(EvalValue(es[i], signals, pf), decisive);
      var j :| 0 <= j < |es| && EvalValue(es[j], signals, pf).Err?;
      var decided := ToFront(es, i);
      var failed := ToFront(es, j);
      RunFirst(decisive, decided, signals, pf);
      RunFirst(decisive, failed, signals, pf);
    } else {
      forall fs | multiset(fs) == multiset(es)
        ensures SameOutcome(RunList(decisive, fs, signals, pf), RunList(decisive, es, signals, pf))
      {
        ChildPermutation(decisive, es, fs, signals, pf);
        ChildPermutation(decisive, fs, es, signals, pf);
        ListOutcome(decisive, es, signals, pf);
        ListOutcome(decisive, fs, signals, pf);
      }
    }
  }

  // ---------------------------------------------------------------- derived operators

  function Clause(op: string, path: string, value: Value): Value {
    Obj(map["op" := Str(op), "path" := Str(path), "value" := value])
  }

  function AnyOf(clauses: seq<Value>): Value {
    Obj(map["or" := Arr(clauses)])
  }

  lemma EvalClause(op: string, path: string, value: Value, signals: Object, pf: Parser)
    ensures EvalValue(Clause(op, path, value), signals, pf) == EvalOp(op, Clause(op, path, value), signals, pf)
  {
    var v := Clause(op, path, value);
    assert EvalValue(v, signals, pf) == EvalMap(v, signals, pf);
  }

  function Not(v: Value): Value {
    Obj(map["not" := v])
  }

  lemma NotClause(v: Value, signals: Object, pf: Parser)
    ensures EvalValue(Not(v), signals, pf) ==
            match EvalValue(v, signals, pf) case Err(e) => Err(e) case Ok(b) => Ok(!b)
  {
    assert EvalValue(Not(v), signals, pf) == EvalMap(Not(v), signals, pf);
  }

  lemma BothClauses(v: Value, w: Value, signals: Object, pf: Parser)
    ensures EvalValue(Arr([v, w]), signals, pf) ==
            if EvalValue(v, signals, pf) == Ok(true) then EvalValue(w, signals, pf) else EvalValue(v, signals, pf)
  {
    assert [v, w][1..] == [w] && [w][1..] == [];
    assert EvalAnd([w], signals, pf) == EvalValue(w, signals, pf);
    assert EvalValue(Arr([v, w]), signals, pf) == EvalAnd([v, w], signals, pf);
  }

  /** What comparison clauses yield, with and without a path. */
  lemma EqClause(path: string, value: Value, signals: Object, pf: Parser)
    ensures EvalValue(Clause("eq", path, value), signals, pf) ==
            if path == "" then Err(MissingPath)
            else match PathValue(signals, path)
                 case None => Ok(false)
                 case Some(got) => Ok(CompareValues(got, value, pf) == 0)
  {
    EvalClause("eq", path, value, signals, pf);
  }

  lemma NeClause(path: string, value: Value, signals: Object, pf: Parser)
    ensures EvalValue(Clause("ne", path, value), signals, pf) ==
            if path == "" then Err(MissingPath)
            else match PathValue(signals, path)
                 case None => Ok(false)
                 case Some(got) => Ok(CompareValues(got, value, pf) != 0)
  {
    EvalClause("ne", path, value, signals, pf);
  }

  lemma ExistsClause(path: string, value: Value, signals: Object, pf: Parser)
    ensures EvalValue(Clause("exists", path, value), signals, pf) ==
            if path == "" then Err(MissingPath) else Ok(PathValue(signals, path).Some?)
  {
    EvalClause("exists", path, value, signals, pf);
  }

  /** `ne` is `exists` and not `eq`, errors included. */
  lemma NeIsExistsAndNotEq(path: string, value: Value, signals: Object, pf: Parser)
    ensures EvalValue(Clause("ne", path, value), signals, pf) ==
            EvalValue(Arr([Clause("exists", path, value), Not(Clause("eq", path, value))]), signals, pf)
  {
    NeClause(path, value, signals, pf);
    EqClause(path, value, signals, pf);
    ExistsClause(path, value, signals, pf);
    NotClause(Clause("eq", path, value), signals, pf);
    BothClauses(Clause("exists", path, value), Not(Clause("eq", path, value)), signals, pf);
  }

  /** So `ne` is the negation of `eq` exactly where the path resolves (or is empty, and both fail). */
  lemma NeIsNotEqIff(path: string, value: Value, signals: Object, pf: Parser)
    ensures EvalValue(Clause("ne", path, value), signals, pf) ==
            EvalValue(Not(Clause("eq", path, value)), signals, pf) <==>
            path == "" || PathValue(signals, path).Some?
  {
    NeClause(path, value, signals, pf);
    EqClause(path, value, signals, pf);
    NotClause(Clause("eq", path, value), signals, pf);
  }

  /** Without signals no path resolves, and the two differ. */
  lemma NeOnMissingPath(value: Value, pf: Parser)
    ensures EvalValue(Clause("ne", "git.branch", value), map[], pf) == Ok(false)
    ensures EvalValue(Not(Clause("eq", "git.branch", value)), map[], pf) == Ok(true)
  {
    NothingResolves("git.branch");
    NeClause("git.branch", value, map[], pf);
    EqClause("git.branch", value, map[], pf);
    NotClause(Clause("eq", "git.branch", value), map[], pf);
  }

  lemma NothingResolves(path: string)
    requires path != "" && path[0] != '.'
    ensures PathValue(map[], path).None?
  {
    assert Split(path)[0] != "";
  }

  function EqEach(path: string, values: seq<Value>): seq<Value> {
    seq(|values|, i requires 0 <= i < |values| => Clause("eq", path, values[i]))
  }

  /** `in` is a disjunction of `eq` clauses in the same order, errors included; only on an empty list without path does
      the disjunction have no clause left to fail. */
  lemma InIsOrOfEq(path: string, values: seq<Value>, signals: Object, pf: Parser)
    ensures var single, split := Clause("in", path, Arr(values)), AnyOf(EqEach(path, values));
            EvalValue(single, signals, pf) == EvalValue(split, signals, pf) <==> path != "" || values != []
  {
    var eqs := EqEach(path, values);
    InClause(path, values, signals, pf);
    OrClause(eqs, signals, pf);
    if path != "" {
      OrOfEqs(path, values, eqs, signals, pf);
    } else if values != [] {
      EqClause(path, values[0], signals, pf);
    }
  }

  lemma InClause(path: string, values: seq<Value>, signals: Object, pf: Parser)
    ensures EvalValue(Clause("in", path, Arr(values)), signals, pf) ==
            if path == "" then Err(MissingPath)
            else Ok(PathValue(signals, path).Some? &&
                    exists i :: 0 <= i < |values| && CompareValues(PathValue(signals, path).value, values[i], pf) == 0)
  {
    EvalClause("in", path, Arr(values), signals, pf);
  }

  lemma OrClause(clauses: seq<Value>, signals: Object, pf: Parser)
    ensures EvalValue(AnyOf(clauses), signals, pf) == EvalOr(clauses, signals, pf)
  {
    assert EvalValue(AnyOf(clauses), signals, pf) == EvalMap(AnyOf(clauses), signals, pf);
  }

  lemma {:induction false} OrOfEqs(path: string, values: seq<Value>, eqs: seq<Value>, signals: Object, pf: Parser)
    requires path != ""
    requires |eqs| == |values| && forall i :: 0 <= i < |values| ==> eqs[i] == Clause("eq", path, values[i])
    ensures EvalOr(eqs, signals, pf) ==
            Ok(PathValue(signals, path).Some? &&
               exists i :: 0 <= i < |values| && CompareValues(PathValue(signals, path).value, values[i], pf) == 0)
  {
    if values != [] {
      var rest := values[1..];
      EqClause(path, values[0], signals, pf);
      OrOfEqs(path, rest, eqs[1..], signals, pf);
      assert forall i :: 0 <= i < |rest| ==> rest[i] == values[i + 1];
      assert forall i :: 1 <= i < |values| ==> values[i] == rest[i - 1];
    }
  }

  // ---------------------------------------------------------------- exactness of the operand checks

  /** The tree that holds `v` along `segs`. */
  function Nest(segs: seq<string>, v: Value): Value {
    if segs == [] then v else Obj(map[segs[0] := Nest(segs[1..], v)])
  }

  lemma {:induction false} NestLookup(segs: seq<string>, v: Value)
    ensures Lookup(Nest(segs, v), segs) == Some(v)
  {
    if segs != [] {
      NestLookup(segs[1..], v);
    }
  }

  /** An accepted path always has a segment, so some signals make it resolve to any chosen value. */
  lemma ResolvingSignals(m: Object, v: Value) returns (signals: Object)
    requires ValidateWhen.PathOk(m) && ValidateWhen.PrefixOk(m["path"].s)
    ensures PathValue(signals, m["path"].s) == Some(v)
  {
    var path := m["path"].s;
    assert path != "" && path[0] != '.';
    assert Split(path)[0] != "";
    var segs := Segments(path);
    NestLookup(segs, v);
    signals := Nest(segs, v).fields;
  }

  /** An operator clause, possibly over an array with a sub-clause that is again such a clause and reads the element. */
  predicate Chain(v: Value) {
    && v.Obj? && "eval" !in v.fields && "op" in v.fields && v.fields["op"].Str?
    && (RangesOverArray(v.fields["op"].s) && "when" in v.fields ==>
          Chain(v.fields["when"]) && ReadsElement(v.fields["when"].fields))
  }

  predicate ReadsElement(m: Object) {
    PathFrom(m).Some? && Segments(PathFrom(m).value) != [] && Segments(PathFrom(m).value)[0] == "$"
  }

  lemma ElementHolding(m: Object, v: Value) returns (elt: Value)
    requires ReadsElement(m)
    ensures PathValue(Scope(elt), PathFrom(m).value) == Some(v)
  {
    var segs := Segments(PathFrom(m).value);
    NestLookup(segs[1..], v);
    elt := Nest(segs[1..], v);
    assert Scope(elt) == map["$" := elt];
  }

  lemma BadLeaf(op: string, v: Value, pf: Parser) returns (probe: Value)
    requires v.Obj? && !RangesOverArray(op) && ValidateWhen.WalkOp(v, op).None? && !OpOperandsOk(op, v, pf)
    ensures forall signals :: PathValue(signals, v.fields["path"].s) == Some(probe) ==> EvalOp(op, v, signals, pf).Err?
  {
    WalkedOperands(op, v);
    probe := if OpOf(op) == Some(Contains) then Str("") else Real(0.0);
  }

  /** A sub-clause that fails on the only element makes an array operator fail. */
  lemma BadSubclause(op: string, v: Value, elt: Value, pf: Parser)
    requires v.Obj? && RangesOverArray(op) && PathFrom(v.fields).Some? && "when" in v.fields
    requires EvalValue(v.fields["when"], Scope(elt), pf).Err?
    ensures forall signals :: PathValue(signals, PathFrom(v.fields).value) == Some(Arr([elt])) ==>
              EvalOp(op, v, signals, pf).Err?
  {
    var m, sub := v.fields, v.fields["when"];
    forall signals | PathValue(signals, PathFrom(m).value) == Some(Arr([elt]))
      ensures EvalOp(op, v, signals, pf).Err?
    {
      assert [elt][1..] == [];
      assert CountMatches(sub, [elt], pf).Err?;
      assert Quantify(OpOf(op) == Some(All), sub, [elt], pf).Err?;
      assert OpOf(op) == Some(Count) ==> EvalCount(v, signals, pf).Err?;
      assert OpOf(op) != Some(Count) ==> EvalQuant(OpOf(op) == Some(All), v, signals, pf).Err?;
    }
  }

  /** A count that is compared with no natural number fails on the empty array. */
  lemma BadCount(op: string, v: Value, pf: Parser)
    requires v.Obj? && OpOf(op) == Some(Count) && PathFrom(v.fields).Some? && ExpectCount(v.fields, pf).Err?
    ensures forall signals :: PathValue(signals, PathFrom(v.fields).value) == Some(Arr([])) ==>
              EvalOp(op, v, signals, pf).Err?
  {
    forall signals | PathValue(signals, PathFrom(v.fields).value) == Some(Arr([]))
      ensures EvalOp(op, v, signals, pf).Err?
    {
      assert EvalCount(v, signals, pf).Err?;
    }
  }

  /** Some value at the clause's path brings a bad operand to light. */
  lemma {:induction false} BadChain(v: Value, pf: Parser) returns (probe: Value)
    requires Chain(v) && ValidateWhen.WalkWhen(v).None? && !OperandsOk(v, pf)
    ensures "path" in v.fields && v.fields["path"].Str?
    ensures forall signals :: PathValue(signals, v.fields["path"].s) == Some(probe) ==> EvalValue(v, signals, pf).Err?
    decreases v
  {
    var m, op := v.fields, v.fields["op"].s;
    AcceptedShape(v);
    WalkedOperands(op, v);
    assert forall signals :: EvalValue(v, signals, pf) == EvalMap(v, signals, pf) == EvalOp(op, v, signals, pf);
    if !RangesOverArray(op) {
      probe := BadLeaf(op, v, pf);
    } else if OpOf(op) == Some(Count) && ExpectCount(m, pf).Err? {
      BadCount(op, v, pf);
      probe := Arr([]);
    } else {
      var inner := BadChain(m["when"], pf);
      var elt := ElementHolding(m["when"].fields, inner);
      BadSubclause(op, v, elt, pf);
      probe := Arr([elt]);
    }
  }

  /** For accepted operator clauses, down through any chain of array operators, the operand checks are exact: they
      hold if and only if evaluation succeeds on all signals. */
  lemma OperandChecksExact(v: Value, pf: Parser)
    requires Chain(v) && Accepted(v)
    ensures OperandsOk(v, pf) <==> forall signals :: Eval(v, signals, pf).Ok?
  {
    if OperandsOk(v, pf) {
      forall signals ensures Eval(v, signals, pf).Ok? {
        DenotationalAgreement(v, signals, pf);
      }
    } else {
      AcceptedShape(v);
      WalkedOperands(v.fields["op"].s, v);
      assert ValidateWhen.PrefixOk(v.fields["path"].s);
      var probe := BadChain(v, pf);
      var signals := ResolvingSignals(v.fields, probe);
      assert Eval(v, signals, pf).Err?;
    }
  }

  function Constant(b: bool): Value {
    Obj(map["eval" := Str("constant"), "params" := Obj(map["value" := Bool(b)])])
  }

  lemma ConstantClause(b: bool, signals: Object, pf: Parser)
    ensures ValidateWhen.WalkWhen(Constant(b)).None? && OperandsOk(Constant(b), pf)
    ensures EvalValue(Constant(b), signals, pf) == Ok(b)
  {
    var v := Constant(b);
    assert ValidateWhen.WalkWhen(v) == ValidateWhen.WalkMap(v);
    assert EvalValue(v, signals, pf) == EvalMap(v, signals, pf);
  }

  lemma NullComparison(pf: Parser)
    ensures var v := Clause("gt", "git.ahead", Null);
            ValidateWhen.WalkWhen(v).None? && !OperandsOk(v, pf)
  {
    var v := Clause("gt", "git.ahead", Null);
    assert ValidateWhen.WalkWhen(v) == ValidateWhen.WalkMap(v) == ValidateWhen.WalkOp(v, "gt");
    assert "git." <= "git.ahead" && "git." in ValidateWhen.PATH_PREFIXES;
    assert Trimmed("git.ahead");
    TrimFixpoint("git.ahead");
    assert !OpOperandsOk("gt", v, pf);
  }

  const BAD := Clause("gt", "git.ahead", Null)

  lemma AnyOfAccepted(es: seq<Value>, pf: Parser)
    requires forall i :: 0 <= i < |es| ==> ValidateWhen.WalkWhen(es[i]).None?
    ensures ValidateWhen.WalkWhen(AnyOf(es)).None?
    ensures OperandsOk(AnyOf(es), pf) <==> forall i :: 0 <= i < |es| ==> OperandsOk(es[i], pf)
  {
    var v := AnyOf(es);
    WalkAllEach(es);
    assert ValidateWhen.WalkWhen(v) == ValidateWhen.WalkMap(v);
    assert ValidateWhen.WalkLogical(v) == ValidateWhen.WalkList(Arr(es)) == ValidateWhen.WalkAll(es);
  }

  /** For logical clauses the operand checks are sufficient only: short-circuiting can hide a bad operand for ever. */
  lemma HiddenBadOperand(signals: Object, pf: Parser)
    ensures var v := AnyOf([Constant(true), BAD]);
            Accepted(v) && !OperandsOk(v, pf) && Eval(v, signals, pf) == Ok(true)
  {
    var es := [Constant(true), BAD];
    ConstantClause(true, signals, pf);
    NullComparison(pf);
    OrClause(es, signals, pf);
    AnyOfAccepted(es, pf);
    assert !OperandsOk(es[1], pf);
  }

  lemma BadFails(path: string, signals: Object, pf: Parser)
    requires path != "" && PathValue(signals, path) == Some(Int(1))
    ensures EvalValue(Clause("gt", path, Null), signals, pf) == Err(ValueNotNumeric)
  {
    var v := Clause("gt", path, Null);
    EvalClause("gt", path, Null, signals, pf);
    assert PathFrom(v.fields) == Some(path);
    assert EvalOp("gt", v, signals, pf) == CmpNum(v.fields, signals, (a, b) => a > b, pf);
  }

  /** Swapping its two children brings the bad operand to light: the swapped clause is the same up to order, and
      fails. */
  lemma SwappedBadOperand(signals: Object, pf: Parser)
    requires PathValue(signals, "git.ahead") == Some(Int(1))
    ensures Same(AnyOf([Constant(true), BAD]), AnyOf([BAD, Constant(true)]))
    ensures Eval(AnyOf([Constant(true), BAD]), signals, pf) == Ok(true)
    ensures Eval(AnyOf([BAD, Constant(true)]), signals, pf) == Err(ValueNotNumeric)
  {
    var es, fs := [Constant(true), BAD], [BAD, Constant(true)];
    HiddenBadOperand(signals, pf);
    BadFails("git.ahead", signals, pf);
    OrClause(fs, signals, pf);
    PermutedChildren(es, fs);
    SwappedSame(es, fs);
  }

  lemma SwappedSame(es: seq<Value>, fs: seq<Value>)
    requires SameChildren(es, fs)
    ensures Same(AnyOf(es), AnyOf(fs))
  {
    var a, b := AnyOf(es), AnyOf(fs);
    assert SameField("or", a.fields["or"], b.fields["or"]);
  }

  // ---------------------------------------------------------------- signals after a JSON round trip

  lemma {:induction false} LookupRecode(v: Value, segs: seq<string>)
    ensures Lookup(Recode(v), segs) ==
            match Lookup(v, segs) case None => None case Some(w) => Some(Recode(w))
  {
    if segs != [] && v.Obj? && segs[0] in v.fields {
      LookupRecode(v.fields[segs[0]], segs[1..]);
    }
  }

  lemma PathRecode(signals: Object, path: string)
    ensures PathValue(RecodeObject(signals), path) ==
            match PathValue(signals, path) case None => None case Some(w) => Some(Recode(w))
  {
    LookupRecode(Obj(signals), Segments(path));
    assert Recode(Obj(signals)) == Obj(RecodeObject(signals));
  }

  lemma CompareRecode(a: Value, b: Value, pf: Parser)
    ensures ToFloat(Recode(a), pf) == ToFloat(a, pf)
    ensures CompareValues(Recode(a), b, pf) == CompareValues(a, b, pf)
  {
  }

  lemma ElementsRecode(path: string, signals: Object)
    ensures Elements(path, RecodeObject(signals)) ==
            match Elements(path, signals) case None => None case Some(es) => Some(RecodeSeq(es))
  {
    PathRecode(signals, path);
  }

  /** Numbers as floats and typed slices as arrays: no clause can tell the difference. */
  lemma {:induction false} EvalRecode(v: Value, signals: Object, pf: Parser)
    ensures EvalValue(v, RecodeObject(signals), pf) == EvalValue(v, signals, pf)
    decreases v, 2
  {
    var signals' := RecodeObject(signals);
    match v
    case Arr(es) => AndRecode(es, signals, pf);
    case Obj(m) =>
      assert EvalValue(v, signals, pf) == EvalMap(v, signals, pf);
      assert EvalValue(v, signals', pf) == EvalMap(v, signals', pf);
      if "eval" in m {
      } else if "op" in m && m["op"].Str? {
        OpRecode(m["op"].s, v, signals, pf);
      } else if "and" in m {
        if m["and"].Arr? {
          AndRecode(m["and"].elts, signals, pf);
        }
      } else if "or" in m {
        if m["or"].Arr? {
          OrRecode(m["or"].elts, signals, pf);
        }
      } else if "not" in m {
        EvalRecode(m["not"], signals, pf);
      }
    case _ =>
  }

  lemma {:induction false} AndRecode(es: seq<Value>, signals: Object, pf: Parser)
    ensures EvalAnd(es, RecodeObject(signals), pf) == EvalAnd(es, signals, pf)
    decreases es, 0
  {
    if es != [] {
      EvalRecode(es[0], signals, pf);
      AndRecode(es[1..], signals, pf);
    }
  }

  lemma {:induction false} OrRecode(es: seq<Value>, signals: Object, pf: Parser)
    ensures EvalOr(es, RecodeObject(signals), pf) == EvalOr(es, signals, pf)
    decreases es, 0
  {
    if es != [] {
      EvalRecode(es[0], signals, pf);
      OrRecode(es[1..], signals, pf);
    }
  }

  lemma ScopeRecode(elt: Value)
    ensures Scope(Recode(elt)) == RecodeObject(Scope(elt))
  {
  }

  lemma {:induction false} CountRecode(sub: Value, arr: seq<Value>, pf: Parser)
    ensures CountMatches(sub, RecodeSeq(arr), pf) == CountMatches(sub, arr, pf)
    decreases sub, 3, |arr|
  {
    if arr != [] {
      ScopeRecode(arr[0]);
      EvalRecode(sub, Scope(arr[0]), pf);
      CountRecode(sub, arr[1..], pf);
      assert RecodeSeq(arr)[1..] == RecodeSeq(arr[1..]);
    }
  }

  lemma {:induction false} QuantRecode(universal: bool, sub: Value, arr: seq<Value>, pf: Parser)
    ensures Quantify(universal, sub, RecodeSeq(arr), pf) == Quantify(universal, sub, arr, pf)
    decreases sub, 3, |arr|
  {
    if arr != [] {
      ScopeRecode(arr[0]);
      EvalRecode(sub, Scope(arr[0]), pf);
      QuantRecode(universal, sub, arr[1..], pf);
      assert RecodeSeq(arr)[1..] == RecodeSeq(arr[1..]);
    }
  }

  lemma {:induction false} OpRecode(op: string, v: Value, signals: Object, pf: Parser)
    requires v.Obj?
    ensures EvalOp(op, v, RecodeObject(signals), pf) == EvalOp(op, v, signals, pf)
    decreases v, 1
  {
    var m := v.fields;
    if OpOf(op).Some? && PathFrom(m).Some? {
      var path := PathFrom(m).value;
      var arr := Elements(path, signals);
      ElementsRecode(path, signals);
      match OpOf(op).value
      case Count =>
        if arr.Some? && "when" in m {
          CountRecode(m["when"], arr.value, pf);
        }
        assert EvalCount(v, RecodeObject(signals), pf) == EvalCount(v, signals, pf);
      case Any =>
        if arr.Some? && "when" in m {
          QuantRecode(false, m["when"], arr.value, pf);
        }
        assert EvalQuant(false, v, RecodeObject(signals), pf) == EvalQuant(false, v, signals, pf);
      case All =>
        if arr.Some? && "when" in m {
          QuantRecode(true, m["when"], arr.value, pf);
        }
        assert EvalQuant(true, v, RecodeObject(signals), pf) == EvalQuant(true, v, signals, pf);
      case _ => LeafRecode(op, v, signals, pf);
    }
  }

  lemma ScalarRecode(m: Object, signals: Object, pred: int -> bool, pf: Parser)
    ensures CmpScalar(m, RecodeObject(signals), pred, pf) == CmpScalar(m, signals, pred, pf)
  {
    if PathFrom(m).Some? && "value" in m {
      PathRecode(signals, PathFrom(m).value);
      var got := PathValue(signals, PathFrom(m).value);
      if got.Some? {
        CompareRecode(got.value, m["value"], pf);
      }
    }
  }

  lemma NumberRecode(m: Object, signals: Object, pred: (real, real) -> bool, pf: Parser)
    ensures CmpNum(m, RecodeObject(signals), pred, pf) == CmpNum(m, signals, pred, pf)
  {
    if PathFrom(m).Some? && "value" in m {
      PathRecode(signals, PathFrom(m).value);
      var got := PathValue(signals, PathFrom(m).value);
      if got.Some? {
        CompareRecode(got.value, m["value"], pf);
      }
    }
  }

  lemma InRecode(m: Object, signals: Object, pf: Parser)
    ensures EvalIn(m, RecodeObject(signals), pf) == EvalIn(m, signals, pf)
  {
    if PathFrom(m).Some? && "value" in m && m["value"].Arr? {
      PathRecode(signals, PathFrom(m).value);
      var got := PathValue(signals, PathFrom(m).value);
      if got.Some? {
        forall i | 0 <= i < |m["value"].elts| {
          CompareRecode(got.value, m["value"].elts[i], pf);
        }
      }
    }
  }

  lemma ContainsRecode(m: Object, signals: Object)
    ensures EvalContains(m, RecodeObject(signals)) == EvalContains(m, signals)
  {
    if PathFrom(m).Some? {
      PathRecode(signals, PathFrom(m).value);
    }
  }

  lemma ExistsRecode(m: Object, signals: Object, want: bool)
    ensures EvalExists(m, RecodeObject(signals), want) == EvalExists(m, signals, want)
  {
    if PathFrom(m).Some? {
      PathRecode(signals, PathFrom(m).value);
    }
  }

  lemma LeafRecode(op: string, v: Value, signals: Object, pf: Parser)
    requires v.Obj? && !RangesOverArray(op)
    ensures EvalOp(op, v, RecodeObject(signals), pf) == EvalOp(op, v, signals, pf)
  {
    var m := v.fields;
    match OpOf(op)
    case Some(Eq) => ScalarRecode(m, signals, c => c == 0, pf);
    case Some(Ne) => ScalarRecode(m, signals, c => c != 0, pf);
    case Some(Gt) => NumberRecode(m, signals, (a, b) => a > b, pf);
    case Some(Lt) => NumberRecode(m, signals, (a, b) => a < b, pf);
    case Some(Gte) => NumberRecode(m, signals, (a, b) => a >= b, pf);
    case Some(Lte) => NumberRecode(m, signals, (a, b) => a <= b, pf);
    case Some(In) => InRecode(m, signals, pf);
    case Some(Contains) => ContainsRecode(m, signals);
    case Some(Exists) => ExistsRecode(m, signals, true);
    case Some(NotExists) => ExistsRecode(m, signals, false);
    case _ =>
  }
}
