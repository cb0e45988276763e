/** Decoded JSON/YAML trees (`any` in the Go code). `Int` and `Real` are the integer and floating-point
    representations of one number; `Typed` is a Go slice whose element type is not `any`. */
module Json {

  datatype Value =
    | Null
    | Bool(b: bool)
    | Int(i: int)
    | Real(r: real)
    | Str(s: string)
    | Arr(elts: seq<Value>)
    | Typed(items: seq<Value>)
    | Obj(fields: map<string, Value>)

  type Object = map<string, Value>

  /** What encoding to JSON and decoding again does to a tree: every number becomes a float and every
      slice an array. */
  function Recode(v: Value): Value {
    match v
    case Int(i) => Real(i as real)
    case Arr(es) => Arr(RecodeSeq(es))
    case Typed(es) => Arr(RecodeSeq(es))
    case Obj(m) => Obj(map k | k in m :: Recode(m[k]))
    case _ => v
  }

  function RecodeSeq(es: seq<Value>): (rs: seq<Value>)
    ensures |rs| == |es| && forall i :: 0 <= i < |es| ==> rs[i] == Recode(es[i])
  {
    if es == [] then [] else [Recode(es[0])] + RecodeSeq(es[1..])
  }

  function RecodeObject(m: Object): Object {
    map k | k in m :: Recode(m[k])
  }

  /** `int(x)` on a float: truncation toward zero. */
  function Truncate(x: real): int {
    if x >= 0.0 then x.Floor else -((-x).Floor)
  }

  /** Truncation drops the fraction toward zero. */
  lemma TruncateMeaning(x: real)
    ensures x >= 0.0 ==> 0.0 <= Truncate(x) as real <= x < Truncate(x) as real + 1.0
    ensures x <= 0.0 ==> Truncate(x) as real - 1.0 < x <= Truncate(x) as real <= 0.0
  {
  }

  /** A tree as JSON represents it. */
  predicate IsJson(v: Value) {
    match v
    case Int(_) => false
    case Typed(_) => false
    case Arr(es) => forall i :: 0 <= i < |es| ==> IsJson(es[i])
    case Obj(m) => forall k :: k in m ==> IsJson(m[k])
    case _ => true
  }

  /** Coding yields JSON, and what is JSON already stays as it is. */
  lemma {:induction false} RecodeIsJson(v: Value)
    ensures IsJson(Recode(v))
    ensures IsJson(v) ==> Recode(v) == v
  {
    match v
    case Arr(es) => RecodeSeqIsJson(es);
    case Typed(es) => RecodeSeqIsJson(es);
    case Obj(m) =>
      forall k | k in m ensures IsJson(Recode(m[k])) && (IsJson(m[k]) ==> Recode(m[k]) == m[k]) {
        RecodeIsJson(m[k]);
      }
      assert IsJson(v) ==> (map k | k in m :: Recode(m[k])) == m;
    case _ =>
  }

  lemma {:induction false} RecodeSeqIsJson(es: seq<Value>)
    ensures forall i :: 0 <= i < |es| ==> IsJson(RecodeSeq(es)[i]) && (IsJson(es[i]) ==> RecodeSeq(es)[i] == es[i])
  {
    forall i | 0 <= i < |es| ensures IsJson(Recode(es[i])) && (IsJson(es[i]) ==> Recode(es[i]) == es[i]) {
      RecodeIsJson(es[i]);
    }
  }
}
