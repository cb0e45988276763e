/** Type soundness of the static checker and the denotational meaning of when-clauses. */
module MatchTheorems {
  import opened Results
  import opened Json
  import opened Signals
  import opened Match
  import ValidateWhen

  // ---------------------------------------------------------------- static operand checks

  /** The clause passes the load-time checker (which accepts a nil clause that evaluation refuses). */
  predicate Accepted(v: Value) {
    !v.Null? && ValidateWhen.Validate(v).None?
  }

  /** The operand checks that the load-time checker leaves to evaluation. */
  predicate OperandsOk(v: Value, pf: Parser)
    decreases v, 1
  {
    match v
    case Arr(es) => forall i :: 0 <= i < |es| ==> OperandsOk(es[i], pf)
    case Obj(m) =>
      if "eval" in m then true
      else if "op" in m && m["op"].Str? then OpOperandsOk(m["op"].s, v, pf)
      else if "and" in m then
        m["and"].Arr? && forall i :: 0 <= i < |m["and"].elts| ==> OperandsOk(m["and"].elts[i], pf)
      else if "or" in m then
        m["or"].Arr? && forall i :: 0 <= i < |m["or"].elts| ==> OperandsOk(m["or"].elts[i], pf)
      else "not" in m && OperandsOk(m["not"], pf)
    case _ => true
  }

  predicate OpOperandsOk(op: string, v: Value, pf: Parser)
    requires v.Obj?
    decreases v, 0
  {
    var m := v.fields;
    match OpOf(op)
    case Some(Gt) => "value" in m ==> ToFloat(m["value"], pf).Some?
    case Some(Lt) => "value" in m ==> ToFloat(m["value"], pf).Some?
    case Some(Gte) => "value" in m ==> ToFloat(m["value"], pf).Some?
    case Some(Lte) => "value" in m ==> ToFloat(m["value"], pf).Some?
    case Some(Contains) => "value" in m ==> m["value"].Str?
    case Some(Count) => ExpectCount(m, pf).Ok? && ("when" in m ==> OperandsOk(m["when"], pf))
    case Some(Any) => "when" in m ==> OperandsOk(m["when"], pf)
    case Some(All) => "when" in m ==> OperandsOk(m["when"], pf)
    case _ => true
  }

  /** Errors about the value of an operand rather than the shape of the clause. */
  predicate OperandError(e: MatchError) {
    e in {ValueNotNumeric, ContainsValueNotString, CountEqNotNumeric, CountEqNotNatural}
  }

  // ---------------------------------------------------------------- denotation

  /** What a clause means, without evaluation order: conjunction, disjunction, negation, and quantifiers and
      cardinality over array positions. */
  ghost predicate Holds(v: Value, signals: Object, pf: Parser)
    decreases v, 1
  {
    match v
    case Arr(es) => forall i :: 0 <= i < |es| ==> Holds(es[i], signals, pf)
    case Obj(m) =>
      if "eval" in m then ValidateWhen.ConstantParamsOk(m) && m["params"].fields["value"].b
      else if "op" in m && m["op"].Str? then HoldsOp(m["op"].s, v, signals, pf)
      else if "and" in m then
        m["and"].Arr? && forall i :: 0 <= i < |m["and"].elts| ==> Holds(m["and"].elts[i], signals, pf)
      else if "or" in m then
        m["or"].Arr? && exists i :: 0 <= i < |m["or"].elts| && Holds(m["or"].elts[i], signals, pf)
      else "not" in m && !Holds(m["not"], signals, pf)
    case _ => false
  }

  ghost predicate HoldsOp(op: string, v: Value, signals: Object, pf: Parser)
    requires v.Obj?
    decreases v, 0
  {
    var m := v.fields;
    if PathFrom(m).None? then false
    else
      var got := PathValue(signals, PathFrom(m).value);
      var arr := Elements(PathFrom(m).value, signals);
      match OpOf(op)
      case Some(Exists) => got.Some?
      case Some(NotExists) => got.None?
      case Some(Count) =>
        && arr.Some? && ExpectCount(m, pf).Ok?
        && ExpectCount(m, pf).value ==
           if "when" in m then |HoldingPositions(m["when"], arr.value, pf)| else |arr.value|
      case Some(Any) =>
        && "when" in m && arr.Some?
        && exists i :: 0 <= i < |arr.value| && Holds(m["when"], Scope(arr.value[i]), pf)
      case Some(All) =>
        && "when" in m && arr.Some?
        && forall i :: 0 <= i < |arr.value| ==> Holds(m["when"], Scope(arr.value[i]), pf)
      case Some(leaf) => "value" in m && got.Some? && HoldsLeaf(leaf, got.value, m["value"], pf)
      case None => false
  }

  /** The array positions whose element satisfies `sub`. */
  ghost function HoldingPositions(sub: Value, arr: seq<Value>, pf: Parser): set<int>
    decreases sub, 2
  {
    set i | 0 <= i < |arr| && Holds(sub, Scope(arr[i]), pf)
  }

  /** The relation a scalar operator tests between a present signal and its operand. */
  predicate HoldsLeaf(op: Op, got: Value, want: Value, pf: Parser) {
    var a, b := ToFloat(got, pf), ToFloat(want, pf);
    match op
    case Eq => CompareValues(got, want, pf) == 0
    case Ne => CompareValues(got, want, pf) != 0
    case Gt => a.Some? && b.Some? && a.value > b.value
    case Lt => a.Some? && b.Some? && a.value < b.value
    case Gte => a.Some? && b.Some? && a.value >= b.value
    case Lte => a.Some? && b.Some? && a.value <= b.value
    case In => want.Arr? && exists i :: 0 <= i < |want.elts| && CompareValues(got, want.elts[i], pf) == 0
    case Contains => got.Str? && want.Str? && Text.Contains(got.s, want.s)
    case _ => false
  }

  // ---------------------------------------------------------------- soundness and agreement

  /** The verdict is the meaning `holds`, or an operand error of a clause whose operands were not checked. */
  ghost predicate Faithful(r: Verdict, holds: bool, operandsOk: bool) {
    if r.Ok? then r.value == holds else OperandError(r.error) && !operandsOk
  }

  lemma KnownOpsAgree(op: string)
    ensures op in ValidateWhen.KNOWN_WHEN_OPS <==> OpOf(op).Some?
  {
  }

  lemma AcceptedPath(m: Object)
    requires ValidateWhen.PathOk(m)
    ensures PathFrom(m) == Some(m["path"].s)
  {
  }

  /** The shapes an accepted object can have, by the branch that evaluation takes. */
  lemma AcceptedShape(v: Value)
    requires v.Obj? && ValidateWhen.WalkWhen(v).None?
    ensures var m := v.fields;
            if "eval" in m then
              && m["eval"] == Str("constant") && ValidateWhen.ConstantParamsOk(m)
              && "op" !in m && "and" !in m && "or" !in m && "not" !in m
            else if "op" in m then m["op"].Str? && ValidateWhen.WalkOp(v, m["op"].s).None?
            else if "and" in m then m["and"].Arr? && ValidateWhen.WalkAll(m["and"].elts).None?
            else if "or" in m then m["or"].Arr? && ValidateWhen.WalkAll(m["or"].elts).None?
            else "not" in m && ValidateWhen.WalkWhen(m["not"]).None?
  {
    var m := v.fields;
    assert ValidateWhen.WalkMap(v).None?;
    if "eval" !in m && "op" !in m {
      assert ValidateWhen.WalkLogical(v).None?;
      if "and" in m {
        assert ValidateWhen.WalkList(m["and"]).None?;
      } else if "or" in m {
        assert ValidateWhen.WalkList(m["or"]).None?;
      }
    }
  }

  lemma {:induction false} WalkAllEach(es: seq<Value>)
    ensures ValidateWhen.WalkAll(es).None? <==> forall i :: 0 <= i < |es| ==> ValidateWhen.WalkWhen(es[i]).None?
  {
    if es != [] {
      WalkAllEach(es[1..]);
      assert forall i :: 1 <= i < |es| ==> es[i] == es[1..][i - 1];
      assert forall i :: 0 <= i < |es[1..]| ==> es[1..][i] == es[i + 1];
    }
  }

  ghost predicate AllHold(es: seq<Value>, signals: Object, pf: Parser) {
    forall i :: 0 <= i < |es| ==> Holds(es[i], signals, pf)
  }

  ghost predicate SomeHold(es: seq<Value>, signals: Object, pf: Parser) {
    exists i :: 0 <= i < |es| && Holds(es[i], signals, pf)
  }

  predicate AllOperandsOk(es: seq<Value>, pf: Parser) {
    forall i :: 0 <= i < |es| ==> OperandsOk(es[i], pf)
  }

  lemma ConsHold(es: seq<Value>, signals: Object, pf: Parser)
    requires es != []
    ensures AllHold(es, signals, pf) <==> Holds(es[0], signals, pf) && AllHold(es[1..], signals, pf)
    ensures SomeHold(es, signals, pf) <==> Holds(es[0], signals, pf) || SomeHold(es[1..], signals, pf)
    ensures AllOperandsOk(es, pf) <==> OperandsOk(es[0], pf) && AllOperandsOk(es[1..], pf)
  {
    var rest := es[1..];
    assert forall i :: 0 <= i < |rest| ==> rest[i] == es[i + 1];
    assert forall i :: 1 <= i < |es| ==> es[i] == rest[i - 1];
  }

  lemma {:induction false} AndFaithful(es: seq<Value>, signals: Object, pf: Parser)
    requires ValidateWhen.WalkAll(es).None?
    ensures Faithful(EvalAnd(es, signals, pf), AllHold(es, signals, pf), AllOperandsOk(es, pf))
    decreases es, 0
  {
    if es != [] {
      ValueFaithful(es[0], signals, pf);
      AndFaithful(es[1..], signals, pf);
      ConsHold(es, signals, pf);
    }
  }

  lemma {:induction false} OrFaithful(es: seq<Value>, signals: Object, pf: Parser)
    requires ValidateWhen.WalkAll(es).None?
    ensures Faithful(EvalOr(es, signals, pf), SomeHold(es, signals, pf), AllOperandsOk(es, pf))
    decreases es, 0
  {
    if es != [] {
      ValueFaithful(es[0], signals, pf);
      OrFaithful(es[1..], signals, pf);
      ConsHold(es, signals, pf);
    }
  }

  /** `marks` records which elements of `arr` the sub-clause holds of. */
  ghost predicate Marks(marks: seq<bool>, sub: Value, arr: seq<Value>, pf: Parser) {
    |marks| == |arr| && forall i :: 0 <= i < |arr| ==> marks[i] == Holds(sub, Scope(arr[i]), pf)
  }

  ghost function MarksOf(sub: Value, arr: seq<Value>, pf: Parser): (marks: seq<bool>)
    ensures Marks(marks, sub, arr, pf)
  {
    seq(|arr|, i requires 0 <= i < |arr| => Holds(sub, Scope(arr[i]), pf))
  }

  /** Marked positions from `k` on. */
  ghost function Positions(marks: seq<bool>, k: nat): set<int> {
    set i | k <= i < |marks| && marks[i]
  }

  lemma PositionsFirst(marks: seq<bool>, k: nat)
    requires k < |marks|
    ensures |Positions(marks, k)| == |Positions(marks, k + 1)| + if marks[k] then 1 else 0
  {
    assert Positions(marks, k) == Positions(marks, k + 1) + if marks[k] then {k} else {};
  }

  lemma {:induction false} QuantFaithful(universal: bool, sub: Value, arr: seq<Value>, marks: seq<bool>, pf: Parser)
    requires ValidateWhen.WalkWhen(sub).None? && Marks(marks, sub, arr, pf)
    ensures Faithful(Quantify(universal, sub, arr, pf), if universal then false !in marks else true in marks,
                     OperandsOk(sub, pf))
    decreases sub, 2, |arr|
  {
    if arr != [] {
      ValueFaithful(sub, Scope(arr[0]), pf);
      assert marks[0] == Holds(sub, Scope(arr[0]), pf);
      TailMarks(marks, sub, arr, pf);
      QuantFaithful(universal, sub, arr[1..], marks[1..], pf);
      assert marks == [marks[0]] + marks[1..];
    }
  }

  lemma TailMarks(marks: seq<bool>, sub: Value, arr: seq<Value>, pf: Parser)
    requires arr != [] && Marks(marks, sub, arr, pf)
    ensures Marks(marks[1..], sub, arr[1..], pf)
  {
    forall i | 0 <= i < |arr[1..]| ensures marks[1..][i] == Holds(sub, Scope(arr[1..][i]), pf) {
      assert marks[i + 1] == Holds(sub, Scope(arr[i + 1]), pf);
    }
  }

  lemma {:induction false} CountFaithful(sub: Value, arr: seq<Value>, marks: seq<bool>, k: nat, pf: Parser)
    requires ValidateWhen.WalkWhen(sub).None? && Marks(marks, sub, arr, pf) && k <= |arr|
    ensures var r := CountMatches(sub, arr[k..], pf);
            if r.Ok? then r.value == |Positions(marks, k)| else OperandError(r.error) && !OperandsOk(sub, pf)
    decreases sub, 2, |arr| - k
  {
    if k < |arr| {
      assert arr[k..][0] == arr[k] && arr[k..][1..] == arr[k + 1..];
      ValueFaithful(sub, Scope(arr[k]), pf);
      assert marks[k] == Holds(sub, Scope(arr[k]), pf);
      CountFaithful(sub, arr, marks, k + 1, pf);
      PositionsFirst(marks, k);
    } else {
      assert arr[k..] == [] && Positions(marks, k) == {};
    }
  }

  predicate RangesOverArray(op: string) {
    OpOf(op) in {Some(Count), Some(Any), Some(All)}
  }

  /** What acceptance of an operator clause says about its operands. */
  lemma WalkedOperands(op: string, v: Value)
    requires v.Obj? && ValidateWhen.WalkOp(v, op).None?
    ensures ValidateWhen.PathOk(v.fields) && PathFrom(v.fields) == Some(v.fields["path"].s) && OpOf(op).Some?
    ensures OpOf(op) !in {Some(Exists), Some(NotExists)} && !RangesOverArray(op) ==> "value" in v.fields
    ensures OpOf(op) == Some(In) ==> v.fields["value"].Arr?
    ensures OpOf(op) == Some(Count) ==> "eq" in v.fields
    ensures OpOf(op) in {Some(Any), Some(All)} ==> "when" in v.fields
    ensures RangesOverArray(op) && "when" in v.fields ==> ValidateWhen.WalkWhen(v.fields["when"]).None?
  {
    KnownOpsAgree(op);
    AcceptedPath(v.fields);
  }

  lemma ScalarFaithful(op: string, v: Value, signals: Object, pf: Parser)
    requires v.Obj? && PathFrom(v.fields).Some? && "value" in v.fields && OpOf(op) in {Some(Eq), Some(Ne)}
    ensures Faithful(EvalOp(op, v, signals, pf), HoldsOp(op, v, signals, pf), OpOperandsOk(op, v, pf))
  {
  }

  lemma OrderFaithful(op: string, v: Value, signals: Object, pf: Parser)
    requires v.Obj? && PathFrom(v.fields).Some? && "value" in v.fields && OpOf(op) in {Some(Gt), Some(Lt)}
    ensures Faithful(EvalOp(op, v, signals, pf), HoldsOp(op, v, signals, pf), OpOperandsOk(op, v, pf))
  {
  }

  lemma WeakOrderFaithful(op: string, v: Value, signals: Object, pf: Parser)
    requires v.Obj? && PathFrom(v.fields).Some? && "value" in v.fields && OpOf(op) in {Some(Gte), Some(Lte)}
    ensures Faithful(EvalOp(op, v, signals, pf), HoldsOp(op, v, signals, pf), OpOperandsOk(op, v, pf))
  {
  }

  lemma SearchFaithful(op: string, v: Value, signals: Object, pf: Parser)
    requires v.Obj? && PathFrom(v.fields).Some? && "value" in v.fields && OpOf(op) in {Some(In), Some(Contains)}
    requires OpOf(op) == Some(In) ==> v.fields["value"].Arr?
    ensures Faithful(EvalOp(op, v, signals, pf), HoldsOp(op, v, signals, pf), OpOperandsOk(op, v, pf))
  {
  }

  lemma PresenceFaithful(op: string, v: Value, signals: Object, pf: Parser)
    requires v.Obj? && PathFrom(v.fields).Some? && OpOf(op) in {Some(Exists), Some(NotExists)}
    ensures Faithful(EvalOp(op, v, signals, pf), HoldsOp(op, v, signals, pf), OpOperandsOk(op, v, pf))
  {
  }

  lemma LeafFaithful(op: string, v: Value, signals: Object, pf: Parser)
    requires v.Obj? && ValidateWhen.WalkOp(v, op).None? && !RangesOverArray(op)
    ensures Faithful(EvalOp(op, v, signals, pf), HoldsOp(op, v, signals, pf), OpOperandsOk(op, v, pf))
  {
    WalkedOperands(op, v);
    if OpOf(op) in {Some(Eq), Some(Ne)} {
      ScalarFaithful(op, v, signals, pf);
    } else if OpOf(op) in {Some(Gt), Some(Lt)} {
      OrderFaithful(op, v, signals, pf);
    } else if OpOf(op) in {Some(Gte), Some(Lte)} {
      WeakOrderFaithful(op, v, signals, pf);
    } else if OpOf(op) in {Some(In), Some(Contains)} {
      SearchFaithful(op, v, signals, pf);
    } else {
      PresenceFaithful(op, v, signals, pf);
    }
  }

  lemma HoldsCount(v: Value, op: string, signals: Object, sub: Value, arr: seq<Value>, marks: seq<bool>, pf: Parser)
    requires v.Obj? && OpOf(op) == Some(Count) && ValidateWhen.PathOk(v.fields)
    requires Elements(v.fields["path"].s, signals) == Some(arr)
    requires "when" in v.fields && v.fields["when"] == sub && Marks(marks, sub, arr, pf)
    ensures HoldsOp(op, v, signals, pf) <==> ExpectCount(v.fields, pf) == Ok(|Positions(marks, 0)|)
  {
    AcceptedPath(v.fields);
    assert Positions(marks, 0) == HoldingPositions(sub, arr, pf);
  }

  lemma {:induction false} CountOpFaithful(v: Value, op: string, signals: Object, pf: Parser)
    requires v.Obj? && ValidateWhen.WalkOp(v, op).None? && OpOf(op) == Some(Count)
    ensures Faithful(EvalCount(v, signals, pf), HoldsOp(op, v, signals, pf), OpOperandsOk(op, v, pf))
    decreases v, 0, 0
  {
    var m := v.fields;
    AcceptedPath(m);
    var arr := Elements(m["path"].s, signals);
    if "when" in m && arr.Some? {
      var sub, marks := m["when"], MarksOf(m["when"], arr.value, pf);
      assert arr.value[0..] == arr.value;
      CountFaithful(sub, arr.value, marks, 0, pf);
      HoldsCount(v, op, signals, sub, arr.value, marks, pf);
    }
  }

  lemma HoldsQuant(v: Value, op: string, signals: Object, sub: Value, arr: seq<Value>, marks: seq<bool>, pf: Parser)
    requires v.Obj? && OpOf(op) in {Some(Any), Some(All)} && PathFrom(v.fields).Some?
    requires Elements(PathFrom(v.fields).value, signals) == Some(arr)
    requires "when" in v.fields && v.fields["when"] == sub && Marks(marks, sub, arr, pf)
    ensures HoldsOp(op, v, signals, pf) <==> if OpOf(op) == Some(All) then false !in marks else true in marks
  {
  }

  lemma {:induction false} QuantOpFaithful(v: Value, op: string, signals: Object, pf: Parser)
    requires v.Obj? && ValidateWhen.WalkOp(v, op).None? && OpOf(op) in {Some(Any), Some(All)}
    ensures Faithful(EvalQuant(OpOf(op) == Some(All), v, signals, pf), HoldsOp(op, v, signals, pf),
                     OpOperandsOk(op, v, pf))
    decreases v, 0, 0
  {
    WalkedOperands(op, v);
    var sub, arr := v.fields["when"], Elements(v.fields["path"].s, signals);
    if arr.Some? {
      var marks := MarksOf(sub, arr.value, pf);
      QuantFaithful(OpOf(op) == Some(All), sub, arr.value, marks, pf);
      HoldsQuant(v, op, signals, sub, arr.value, marks, pf);
    }
  }

  lemma {:induction false} OpFaithful(op: string, v: Value, signals: Object, pf: Parser)
    requires v.Obj? && ValidateWhen.WalkOp(v, op).None?
    ensures Faithful(EvalOp(op, v, signals, pf), HoldsOp(op, v, signals, pf), OpOperandsOk(op, v, pf))
    decreases v, 0, 1
  {
    match OpOf(op)
    case Some(Count) => CountOpFaithful(v, op, signals, pf);
    case Some(Any) => QuantOpFaithful(v, op, signals, pf);
    case Some(All) => QuantOpFaithful(v, op, signals, pf);
    case _ => LeafFaithful(op, v, signals, pf);
  }

  /** The induction behind every result below: on accepted clauses evaluation yields the clause's meaning, and
      the only errors are operand errors of unchecked operands. */
  lemma {:induction false} ValueFaithful(v: Value, signals: Object, pf: Parser)
    requires ValidateWhen.WalkWhen(v).None?
    ensures Faithful(EvalValue(v, signals, pf), Holds(v, signals, pf), OperandsOk(v, pf))
    decreases v, 1
  {
    match v
    case Arr(es) => AndFaithful(es, signals, pf);
    case Obj(m) =>
      AcceptedShape(v);
      assert EvalValue(v, signals, pf) == EvalMap(v, signals, pf);
      if "eval" in m {
      } else if "op" in m {
        OpFaithful(m["op"].s, v, signals, pf);
      } else if "and" in m {
        AndFaithful(m["and"].elts, signals, pf);
        assert OperandsOk(v, pf) == forall i :: 0 <= i < |m["and"].elts| ==> OperandsOk(m["and"].elts[i], pf);
      } else if "or" in m {
        OrFaithful(m["or"].elts, signals, pf);
        assert OperandsOk(v, pf) == forall i :: 0 <= i < |m["or"].elts| ==> OperandsOk(m["or"].elts[i], pf);
      } else {
        ValueFaithful(m["not"], signals, pf);
      }
  }

  /** Type soundness: an accepted clause never fails on shape, operator, path, missing operand, sub-clause or
      evaluator, whatever the signals; only the value of an operand can still be wrong. */
  lemma ValidatorSound(when: Value, signals: Object, pf: Parser)
    requires Accepted(when)
    ensures Eval(when, signals, pf).Err? ==> OperandError(Eval(when, signals, pf).error)
  {
    ValueFaithful(when, signals, pf);
  }

  /** With the operand checks added, evaluation is total and computes the clause's meaning. */
  lemma DenotationalAgreement(when: Value, signals: Object, pf: Parser)
    requires Accepted(when) && OperandsOk(when, pf)
    ensures Eval(when, signals, pf) == Ok(Holds(when, signals, pf))
  {
    ValueFaithful(when, signals, pf);
  }
}
