/** What each operator of the when-clause language answers, in terms of the signal found and the operand alone. */
module ClauseLaws {
  import opened Results
  import opened Json
  import opened Text
  import opened Signals
  import opened Match
  import opened MatchTheorems
  import opened MatchLaws

  // ---------------------------------------------------------------- numbers and equality

  /** Numbers are read off integers, floats and parsable strings. */
  lemma Numbers(i: int, r: real, s: string, b: bool, es: seq<Value>, m: Object, pf: Parser)
    ensures ToFloat(Int(i), pf) == Some(i as real) && ToFloat(Real(r), pf) == Some(r) && ToFloat(Str(s), pf) == pf(s)
    ensures ToFloat(Null, pf).None? && ToFloat(Bool(b), pf).None? && ToFloat(Obj(m), pf).None?
    ensures ToFloat(Arr(es), pf).None? && ToFloat(Typed(es), pf).None?
  {
  }

  /** Two values are equal as numbers when both are numbers, and else as booleans or strings. */
  predicate Equal(a: Value, b: Value, pf: Parser) {
    var x, y := ToFloat(a, pf), ToFloat(b, pf);
    if x.Some? && y.Some? then x == y else (a.Bool? || a.Str?) && a == b
  }

  lemma ComparesEqual(a: Value, b: Value, pf: Parser)
    ensures CompareValues(a, b, pf) == 0 <==> Equal(a, b, pf)
  {
    if a.Str? && b.Str? {
      CompareMeaning(a.s, b.s);
    }
  }

  /** An `eq` clause with a boolean holds exactly of that boolean. */
  lemma EqBool(path: string, b: bool, signals: Object, pf: Parser)
    requires path != ""
    ensures EvalValue(Clause("eq", path, Bool(b)), signals, pf) == Ok(PathValue(signals, path) == Some(Bool(b)))
  {
    EqClause(path, Bool(b), signals, pf);
    if PathValue(signals, path).Some? {
      ComparesEqual(PathValue(signals, path).value, Bool(b), pf);
    }
  }

  /** An `eq` clause with a number holds exactly of what reads as that number. */
  lemma EqNumber(path: string, n: Value, x: real, signals: Object, pf: Parser)
    requires path != "" && (n == Real(x) || (n.Int? && n.i as real == x))
    ensures EvalValue(Clause("eq", path, n), signals, pf) ==
            Ok(PathValue(signals, path).Some? && ToFloat(PathValue(signals, path).value, pf) == Some(x))
  {
    EqClause(path, n, signals, pf);
    if PathValue(signals, path).Some? {
      ComparesEqual(PathValue(signals, path).value, n, pf);
    }
  }

  /** An `eq` clause with a text that is no number holds exactly of that text. */
  lemma EqText(path: string, want: string, signals: Object, pf: Parser)
    requires path != "" && pf(want).None?
    ensures EvalValue(Clause("eq", path, Str(want)), signals, pf) == Ok(PathValue(signals, path) == Some(Str(want)))
  {
    EqClause(path, Str(want), signals, pf);
    if PathValue(signals, path).Some? {
      ComparesEqual(PathValue(signals, path).value, Str(want), pf);
    }
  }

  // ---------------------------------------------------------------- order

  /** The number found at the path, if there is one. */
  function NumberAt(path: string, signals: Object, pf: Parser): Option<real> {
    match PathValue(signals, path) case None => None case Some(got) => ToFloat(got, pf)
  }

  lemma NumericClause(op: string, path: string, x: real, signals: Object, pred: (real, real) -> bool, pf: Parser)
    requires path != ""
    requires forall v: Value :: v.Obj? ==> EvalOp(op, v, signals, pf) == CmpNum(v.fields, signals, pred, pf)
    ensures EvalValue(Clause(op, path, Real(x)), signals, pf) ==
            match NumberAt(path, signals, pf) case None => Ok(false) case Some(a) => Ok(pred(a, x))
  {
    var v := Clause(op, path, Real(x));
    EvalClause(op, path, Real(x), signals, pf);
    assert EvalOp(op, v, signals, pf) == CmpNum(v.fields, signals, pred, pf);
  }

  lemma GtClause(path: string, x: real, signals: Object, pf: Parser)
    requires path != ""
    ensures var a := NumberAt(path, signals, pf);
            EvalValue(Clause("gt", path, Real(x)), signals, pf) == Ok(a.Some? && a.value > x)
  {
    NumericClause("gt", path, x, signals, (a, b) => a > b, pf);
  }

  lemma LtClause(path: string, x: real, signals: Object, pf: Parser)
    requires path != ""
    ensures var a := NumberAt(path, signals, pf);
            EvalValue(Clause("lt", path, Real(x)), signals, pf) == Ok(a.Some? && a.value < x)
  {
    NumericClause("lt", path, x, signals, (a, b) => a < b, pf);
  }

  lemma GteClause(path: string, x: real, signals: Object, pf: Parser)
    requires path != ""
    ensures var a := NumberAt(path, signals, pf);
            EvalValue(Clause("gte", path, Real(x)), signals, pf) == Ok(a.Some? && a.value >= x)
  {
    NumericClause("gte", path, x, signals, (a, b) => a >= b, pf);
  }

  lemma LteClause(path: string, x: real, signals: Object, pf: Parser)
    requires path != ""
    ensures var a := NumberAt(path, signals, pf);
            EvalValue(Clause("lte", path, Real(x)), signals, pf) == Ok(a.Some? && a.value <= x)
  {
    NumericClause("lte", path, x, signals, (a, b) => a <= b, pf);
  }

  // ---------------------------------------------------------------- text and presence

  lemma ContainsClause(path: string, part: string, signals: Object, pf: Parser)
    requires path != ""
    ensures var got := PathValue(signals, path);
            EvalValue(Clause("contains", path, Str(part)), signals, pf) ==
            Ok(got.Some? && got.value.Str? && exists i :: OccursAt(got.value.s, part, i))
  {
    var v, got := Clause("contains", path, Str(part)), PathValue(signals, path);
    EvalClause("contains", path, Str(part), signals, pf);
    assert EvalOp("contains", v, signals, pf) == EvalContains(v.fields, signals);
    if got.Some? && got.value.Str? {
      ContainsMeaning(got.value.s, part);
    }
  }

  lemma NotExistsClause(path: string, value: Value, signals: Object, pf: Parser)
    requires path != ""
    ensures EvalValue(Clause("not_exists", path, value), signals, pf) == Ok(PathValue(signals, path).None?)
  {
    var v := Clause("not_exists", path, value);
    EvalClause("not_exists", path, value, signals, pf);
    assert EvalOp("not_exists", v, signals, pf) == EvalExists(v.fields, signals, false);
  }

  // ---------------------------------------------------------------- arrays

  function ArrayClause(op: string, path: string, more: Object): Value {
    Obj(map["op" := Str(op), "path" := Str(path)] + more)
  }

  /** The array found at the path, of any element type, if there is one. */
  predicate ArrayAt(path: string, signals: Object, es: seq<Value>) {
    PathValue(signals, path) == Some(Arr(es)) || PathValue(signals, path) == Some(Typed(es))
  }

  /** The sub-clause has a verdict on every element, read as `$`. */
  predicate Decided(sub: Value, es: seq<Value>, pf: Parser) {
    forall i :: 0 <= i < |es| ==> EvalValue(sub, map["$" := es[i]], pf).Ok?
  }

  predicate TrueOf(sub: Value, e: Value, pf: Parser) {
    EvalValue(sub, map["$" := e], pf) == Ok(true)
  }

  lemma ElementsAt(path: string, signals: Object, es: seq<Value>)
    requires ArrayAt(path, signals, es)
    ensures Elements(path, signals) == Some(es)
  {
  }

  lemma {:induction false} QuantifyMeaning(universal: bool, sub: Value, es: seq<Value>, pf: Parser)
    requires Decided(sub, es, pf)
    ensures var r := Quantify(universal, sub, es, pf);
            r.Ok? && (r.value <==> if universal then forall i :: 0 <= i < |es| ==> TrueOf(sub, es[i], pf)
                                   else exists i :: 0 <= i < |es| && TrueOf(sub, es[i], pf))
  {
    if es != [] {
      var rest := es[1..];
      assert forall i :: 0 <= i < |rest| ==> rest[i] == es[i + 1];
      assert forall i :: 1 <= i < |es| ==> es[i] == rest[i - 1];
      assert EvalValue(sub, map["$" := es[0]], pf).Ok?;
      QuantifyMeaning(universal, sub, rest, pf);
    }
  }

  lemma AnyClause(path: string, sub: Value, es: seq<Value>, signals: Object, pf: Parser)
    requires path != "" && ArrayAt(path, signals, es) && Decided(sub, es, pf)
    ensures EvalValue(ArrayClause("any", path, map["when" := sub]), signals, pf) ==
            Ok(exists i :: 0 <= i < |es| && TrueOf(sub, es[i], pf))
  {
    var v := ArrayClause("any", path, map["when" := sub]);
    ElementsAt(path, signals, es);
    QuantifyMeaning(false, sub, es, pf);
    assert EvalValue(v, signals, pf) == EvalMap(v, signals, pf) == EvalOp("any", v, signals, pf);
    assert EvalOp("any", v, signals, pf) == EvalQuant(false, v, signals, pf);
  }

  lemma AllClause(path: string, sub: Value, es: seq<Value>, signals: Object, pf: Parser)
    requires path != "" && ArrayAt(path, signals, es) && Decided(sub, es, pf)
    ensures EvalValue(ArrayClause("all", path, map["when" := sub]), signals, pf) ==
            Ok(forall i :: 0 <= i < |es| ==> TrueOf(sub, es[i], pf))
  {
    var v := ArrayClause("all", path, map["when" := sub]);
    ElementsAt(path, signals, es);
    QuantifyMeaning(true, sub, es, pf);
    assert EvalValue(v, signals, pf) == EvalMap(v, signals, pf) == EvalOp("all", v, signals, pf);
    assert EvalOp("all", v, signals, pf) == EvalQuant(true, v, signals, pf);
  }

  /** A count is compared with a natural number only. */
  lemma CountOperand(m: Object, n: int, pf: Parser)
    ensures ExpectCount(m, pf) == Ok(n) <==> "eq" in m && ToFloat(m["eq"], pf) == Some(n as real) && n >= 0
  {
  }

  lemma CountClause(path: string, n: nat, es: seq<Value>, signals: Object, pf: Parser)
    requires path != "" && ArrayAt(path, signals, es)
    ensures EvalValue(ArrayClause("count", path, map["eq" := Int(n)]), signals, pf) == Ok(|es| == n)
  {
    var v := ArrayClause("count", path, map["eq" := Int(n)]);
    ElementsAt(path, signals, es);
    CountOperand(v.fields, n, pf);
    assert EvalValue(v, signals, pf) == EvalMap(v, signals, pf) == EvalOp("count", v, signals, pf);
    assert EvalOp("count", v, signals, pf) == EvalCount(v, signals, pf);
  }

  /** The positions from `k` on whose element satisfies the sub-clause. */
  function TruePositions(sub: Value, es: seq<Value>, k: nat, pf: Parser): set<int> {
    set i | k <= i < |es| && TrueOf(sub, es[i], pf)
  }

  lemma PositionsFrom(sub: Value, es: seq<Value>, k: nat, pf: Parser)
    requires k < |es|
    ensures |TruePositions(sub, es, k, pf)| ==
            |TruePositions(sub, es, k + 1, pf)| + if TrueOf(sub, es[k], pf) then 1 else 0
  {
    var rest := TruePositions(sub, es, k + 1, pf);
    assert TruePositions(sub, es, k, pf) == rest + if TrueOf(sub, es[k], pf) then {k} else {};
  }

  lemma CountFirst(sub: Value, arr: seq<Value>, n: int, pf: Parser)
    requires arr != [] && EvalValue(sub, map["$" := arr[0]], pf).Ok? && CountMatches(sub, arr[1..], pf) == Ok(n)
    ensures CountMatches(sub, arr, pf) == Ok(n + if TrueOf(sub, arr[0], pf) then 1 else 0)
  {
  }

  lemma {:induction false} CountMeaning(sub: Value, es: seq<Value>, k: nat, pf: Parser)
    requires Decided(sub, es, pf) && k <= |es|
    ensures CountMatches(sub, es[k..], pf) == Ok(|TruePositions(sub, es, k, pf)|)
    decreases |es| - k
  {
    if k < |es| {
      assert es[k..][0] == es[k] && es[k..][1..] == es[k + 1..];
      assert EvalValue(sub, map["$" := es[k]], pf).Ok?;
      CountMeaning(sub, es, k + 1, pf);
      CountFirst(sub, es[k..], |TruePositions(sub, es, k + 1, pf)|, pf);
      PositionsFrom(sub, es, k, pf);
    } else {
      assert TruePositions(sub, es, k, pf) == {};
    }
  }

  lemma CountWhenClause(path: string, sub: Value, n: nat, es: seq<Value>, signals: Object, pf: Parser)
    requires path != "" && ArrayAt(path, signals, es) && Decided(sub, es, pf)
    ensures EvalValue(ArrayClause("count", path, map["eq" := Int(n), "when" := sub]), signals, pf) ==
            Ok(|TruePositions(sub, es, 0, pf)| == n)
  {
    var v := ArrayClause("count", path, map["eq" := Int(n), "when" := sub]);
    ElementsAt(path, signals, es);
    CountOperand(v.fields, n, pf);
    CountMeaning(sub, es, 0, pf);
    assert es[0..] == es;
    assert EvalValue(v, signals, pf) == EvalMap(v, signals, pf) == EvalOp("count", v, signals, pf);
    assert EvalOp("count", v, signals, pf) == EvalCount(v, signals, pf);
  }
}
