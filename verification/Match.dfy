/** The when-clause interpreter (`internal/match`). `pf` stands for `strconv.ParseFloat` on strings. */
module Match {
  import opened Results
  import opened Json
  import opened Text
  import Signals

  type Parser = string -> Option<real>

  datatype MatchError =
    | NilWhen | UnsupportedWhen
    | EvalNameInvalid | EvalCombined | UnknownEvaluator | ParamsNotObject | EvaluatorFailed
    | NotArray | UnknownShape | UnknownOp
    | MissingPath | MissingValue | InValueNotArray | MissingWhen | CountMissingEq
    | ValueNotNumeric | ContainsValueNotString | CountEqNotNumeric | CountEqNotNatural

  type Verdict = Result<bool, MatchError>

  datatype Op = Eq | Ne | Gt | Lt | Gte | Lte | In | Contains | Exists | NotExists | Count | Any | All

  /** The operator switch of `evalOp`. */
  function OpOf(name: string): Option<Op> {
    match name
    case "eq" => Some(Eq)
    case "ne" => Some(Ne)
    case "gt" => Some(Gt)
    case "lt" => Some(Lt)
    case "gte" => Some(Gte)
    case "lte" => Some(Lte)
    case "in" => Some(In)
    case "contains" => Some(Contains)
    case "exists" => Some(Exists)
    case "not_exists" => Some(NotExists)
    case "count" => Some(Count)
    case "any" => Some(Any)
    case "all" => Some(All)
    case _ => None
  }

  // ---------------------------------------------------------------- values

  function ToFloat(v: Value, pf: Parser): Option<real> {
    match v
    case Real(r) => Some(r)
    case Int(i) => Some(i as real)
    case Str(s) => pf(s)
    case _ => None
  }

  predicate NumericEqual(a: real, b: Value, pf: Parser) {
    ToFloat(b, pf) == Some(a)
  }

  predicate EqScalar(a: Value, b: Value, pf: Parser) {
    match a
    case Bool(x) => b == Bool(x)
    case Str(s) => b == Str(s)
    case Int(i) => NumericEqual(i as real, b, pf)
    case Real(r) => NumericEqual(r, b, pf)
    case _ => false
  }

  function CompareValues(a: Value, b: Value, pf: Parser): int {
    var fa, fb := ToFloat(a, pf), ToFloat(b, pf);
    if fa.Some? && fb.Some? then
      if fa.value < fb.value then -1 else if fa.value > fb.value then 1 else 0
    else if a.Str? && b.Str? then Compare(a.s, b.s)
    else if EqScalar(a, b, pf) then 0
    else 1
  }

  /** `asSlice`: only untyped arrays. */
  function AsSlice(v: Value): Option<seq<Value>> {
    match v
    case Arr(es) => Some(es)
    case _ => None
  }

  /** `asSignalSlice`: slices of any element type. */
  function AsSignalSlice(v: Value): Option<seq<Value>> {
    match v
    case Arr(es) => Some(es)
    case Typed(es) => Some(es)
    case _ => None
  }

  function PathFrom(m: Object): Option<string> {
    if "path" in m && m["path"].Str? && m["path"].s != "" then Some(m["path"].s) else None
  }

  predicate IsNatural(x: real) {
    x >= 0.0 && x.Floor as real == x
  }

  function ExpectCount(m: Object, pf: Parser): Result<int, MatchError> {
    if "eq" !in m then Err(CountMissingEq)
    else match ToFloat(m["eq"], pf)
      case None => Err(CountEqNotNumeric)
      case Some(f) => if IsNatural(f) then Ok(f.Floor) else Err(CountEqNotNatural)
  }

  /** The signal scope of one array element inside `count`, `any` and `all`. */
  function Scope(elt: Value): Object {
    map["$" := elt]
  }

  // ---------------------------------------------------------------- clauses

  function Eval(when: Value, signals: Object, pf: Parser): Verdict {
    if when.Null? then Err(NilWhen) else EvalValue(when, signals, pf)
  }

  function EvalValue(v: Value, signals: Object, pf: Parser): Verdict
    decreases v, 3
  {
    match v
    case Obj(_) => EvalMap(v, signals, pf)
    case Arr(es) => EvalAnd(es, signals, pf)
    case _ => Err(UnsupportedWhen)
  }

  function EvalMap(v: Value, signals: Object, pf: Parser): Verdict
    requires v.Obj?
    decreases v, 2
  {
    var m := v.fields;
    if "eval" in m then
      if !m["eval"].Str? || m["eval"].s == "" then Err(EvalNameInvalid)
      else if "op" in m || "and" in m || "or" in m || "not" in m then Err(EvalCombined)
      else EvalNamed(m["eval"].s, m)
    else if "op" in m && m["op"].Str? then EvalOp(m["op"].s, v, signals, pf)
    else if "and" in m then
      match AsSlice(m["and"])
      case None => Err(NotArray)
      case Some(es) => assert m["and"] == Arr(es); EvalAnd(es, signals, pf)
    else if "or" in m then
      match AsSlice(m["or"])
      case None => Err(NotArray)
      case Some(es) => assert m["or"] == Arr(es); EvalOr(es, signals, pf)
    else if "not" in m then
      match EvalValue(m["not"], signals, pf)
      case Err(e) => Err(e)
      case Ok(b) => Ok(!b)
    else Err(UnknownShape)
  }

  /** `evalNamed` with the default registry, whose only evaluator is `constant`. */
  function EvalNamed(name: string, m: Object): Verdict {
    if name != "constant" then Err(UnknownEvaluator)
    else if "params" in m && !m["params"].Obj? then Err(ParamsNotObject)
    else if "params" !in m then Err(EvaluatorFailed)
    else
      var params := m["params"].fields;
      if "value" in params && params["value"].Bool? then Ok(params["value"].b) else Err(EvaluatorFailed)
  }

  function EvalAnd(nodes: seq<Value>, signals: Object, pf: Parser): Verdict
    decreases nodes, 0
  {
    if nodes == [] then Ok(true)
    else
      var head := EvalValue(nodes[0], signals, pf);
      if head == Ok(true) then EvalAnd(nodes[1..], signals, pf) else head
  }

  function EvalOr(nodes: seq<Value>, signals: Object, pf: Parser): Verdict
    decreases nodes, 0
  {
    if nodes == [] then Ok(false)
    else
      var head := EvalValue(nodes[0], signals, pf);
      if head == Ok(false) then EvalOr(nodes[1..], signals, pf) else head
  }

  function EvalOp(op: string, v: Value, signals: Object, pf: Parser): Verdict
    requires v.Obj?
    decreases v, 1
  {
    var m := v.fields;
    match OpOf(op)
    case None => Err(UnknownOp)
    case Some(Eq) => CmpScalar(m, signals, c => c == 0, pf)
    case Some(Ne) => CmpScalar(m, signals, c => c != 0, pf)
    case Some(Gt) => CmpNum(m, signals, (a, b) => a > b, pf)
    case Some(Lt) => CmpNum(m, signals, (a, b) => a < b, pf)
    case Some(Gte) => CmpNum(m, signals, (a, b) => a >= b, pf)
    case Some(Lte) => CmpNum(m, signals, (a, b) => a <= b, pf)
    case Some(In) => EvalIn(m, signals, pf)
    case Some(Contains) => EvalContains(m, signals)
    case Some(Exists) => EvalExists(m, signals, true)
    case Some(NotExists) => EvalExists(m, signals, false)
    case Some(Count) => EvalCount(v, signals, pf)
    case Some(Any) => EvalQuant(false, v, signals, pf)
    case Some(All) => EvalQuant(true, v, signals, pf)
  }

  function CmpScalar(m: Object, signals: Object, pred: int -> bool, pf: Parser): Verdict {
    match PathFrom(m)
    case None => Err(MissingPath)
    case Some(path) =>
      if "value" !in m then Err(MissingValue)
      else match Signals.PathValue(signals, path)
        case None => Ok(false)
        case Some(got) => Ok(pred(CompareValues(got, m["value"], pf)))
  }

  function CmpNum(m: Object, signals: Object, pred: (real, real) -> bool, pf: Parser): Verdict {
    match PathFrom(m)
    case None => Err(MissingPath)
    case Some(path) =>
      if "value" !in m then Err(MissingValue)
      else match Signals.PathValue(signals, path)
        case None => Ok(false)
        case Some(got) =>
          match (ToFloat(got, pf), ToFloat(m["value"], pf))
          case (None, _) => Ok(false)
          case (_, None) => Err(ValueNotNumeric)
          case (Some(a), Some(b)) => Ok(pred(a, b))
  }

  function EvalIn(m: Object, signals: Object, pf: Parser): Verdict {
    match PathFrom(m)
    case None => Err(MissingPath)
    case Some(path) =>
      if "value" !in m then Err(MissingValue)
      else match AsSlice(m["value"])
        case None => Err(InValueNotArray)
        case Some(arr) =>
          match Signals.PathValue(signals, path)
          case None => Ok(false)
          case Some(needle) => Ok(exists i :: 0 <= i < |arr| && CompareValues(needle, arr[i], pf) == 0)
  }

  function EvalContains(m: Object, signals: Object): Verdict {
    match PathFrom(m)
    case None => Err(MissingPath)
    case Some(path) =>
      if "value" !in m then Err(MissingValue)
      else match Signals.PathValue(signals, path)
        case Some(Str(s)) => if m["value"].Str? then Ok(Text.Contains(s, m["value"].s)) else Err(ContainsValueNotString)
        case _ => Ok(false)
  }

  function EvalExists(m: Object, signals: Object, wantExists: bool): Verdict {
    match PathFrom(m)
    case None => Err(MissingPath)
    case Some(path) => Ok(Signals.PathValue(signals, path).Some? == wantExists)
  }

  /** The array an array operator ranges over, if its path resolves to one. */
  function Elements(path: string, signals: Object): Option<seq<Value>> {
    match Signals.PathValue(signals, path)
    case None => None
    case Some(got) => AsSignalSlice(got)
  }

  function EvalCount(v: Value, signals: Object, pf: Parser): Verdict
    requires v.Obj?
    decreases v, 0
  {
    var m := v.fields;
    match PathFrom(m)
    case None => Err(MissingPath)
    case Some(path) =>
      match Elements(path, signals)
      case None => Ok(false)
      case Some(arr) =>
        var counted := if "when" in m then CountMatches(m["when"], arr, pf) else Ok(|arr|);
        match (counted, ExpectCount(m, pf))
        case (Err(e), _) => Err(e)
        case (_, Err(e)) => Err(e)
        case (Ok(n), Ok(expected)) => Ok(n == expected)
  }

  /** The number of elements the sub-clause holds of, or the first error met. */
  function CountMatches(sub: Value, arr: seq<Value>, pf: Parser): Result<int, MatchError>
    decreases sub, 4, |arr|
  {
    if arr == [] then Ok(0)
    else
      match EvalValue(sub, Scope(arr[0]), pf)
      case Err(e) => Err(e)
      case Ok(b) =>
        match CountMatches(sub, arr[1..], pf)
        case Err(e) => Err(e)
        case Ok(n) => Ok(n + if b then 1 else 0)
  }

  function EvalQuant(universal: bool, v: Value, signals: Object, pf: Parser): Verdict
    requires v.Obj?
    decreases v, 0
  {
    var m := v.fields;
    match PathFrom(m)
    case None => Err(MissingPath)
    case Some(path) =>
      if "when" !in m then Err(MissingWhen)
      else match Elements(path, signals)
        case None => Ok(false)
        case Some(arr) => Quantify(universal, m["when"], arr, pf)
  }

  /** Short-circuit evaluation: `any` stops at the first true element, `all` at the first false one. */
  function Quantify(universal: bool, sub: Value, arr: seq<Value>, pf: Parser): Verdict
    decreases sub, 4, |arr|
  {
    if arr == [] then Ok(universal)
    else
      var head := EvalValue(sub, Scope(arr[0]), pf);
      if head == Ok(universal) then Quantify(universal, sub, arr[1..], pf) else head
  }

  // ---------------------------------------------------------------- the loops

  /** The loop of `evalAnd`. */
  method RunAnd(nodes: seq<Value>, signals: Object, pf: Parser) returns (r: Verdict)
    ensures r == EvalAnd(nodes, signals, pf)
  {
    for i := 0 to |nodes|
      invariant EvalAnd(nodes, signals, pf) == EvalAnd(nodes[i..], signals, pf)
    {
      var one := EvalValue(nodes[i], signals, pf);
      if one.Err? {
        return one;
      }
      if !one.value {
        return Ok(false);
      }
    }
    return Ok(true);
  }

  /** The loop of `evalOr`. */
  method RunOr(nodes: seq<Value>, signals: Object, pf: Parser) returns (r: Verdict)
    ensures r == EvalOr(nodes, signals, pf)
  {
    for i := 0 to |nodes|
      invariant EvalOr(nodes, signals, pf) == EvalOr(nodes[i..], signals, pf)
    {
      var one := EvalValue(nodes[i], signals, pf);
      if one.Err? {
        return one;
      }
      if one.value {
        return Ok(true);
      }
    }
    return Ok(false);
  }

  /** The search loop of `evalIn`. */
  method RunIn(needle: Value, arr: seq<Value>, pf: Parser) returns (found: bool)
    ensures found <==> exists i :: 0 <= i < |arr| && CompareValues(needle, arr[i], pf) == 0
  {
    for i := 0 to |arr|
      invariant forall j :: 0 <= j < i ==> CompareValues(needle, arr[j], pf) != 0
    {
      if CompareValues(needle, arr[i], pf) == 0 {
        return true;
      }
    }
    return false;
  }

  /** The counting loop of `evalCount`. */
  method RunCount(sub: Value, arr: seq<Value>, pf: Parser) returns (r: Result<int, MatchError>)
    ensures r == CountMatches(sub, arr, pf)
  {
    var cnt := 0;
    for i := 0 to |arr|
      invariant CountMatches(sub, arr, pf) ==
                match CountMatches(sub, arr[i..], pf)
                case Err(e) => Err(e)
                case Ok(n) => Ok(cnt + n)
    {
      var one := EvalValue(sub, Scope(arr[i]), pf);
      if one.Err? {
        return Err(one.error);
      }
      if one.value {
        cnt := cnt + 1;
      }
    }
    return Ok(cnt);
  }

  /** The loop of `evalQuant` over a non-empty array, with its early exit for the empty one. */
  method RunQuant(universal: bool, sub: Value, arr: seq<Value>, pf: Parser) returns (r: Verdict)
    ensures r == Quantify(universal, sub, arr, pf)
  {
    if |arr| == 0 {
      return Ok(universal);
    }
    for i := 0 to |arr|
      invariant Quantify(universal, sub, arr, pf) == Quantify(universal, sub, arr[i..], pf)
    {
      var one := EvalValue(sub, Scope(arr[i]), pf);
      if one.Err? {
        return one;
      }
      if !universal && one.value {
        return Ok(true);
      }
      if universal && !one.value {
        return Ok(false);
      }
    }
    return Ok(universal);
  }
}
