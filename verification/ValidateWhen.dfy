/** The static checker for when-clauses run at configuration load (`internal/evaluator/validate.go`),
    with the default evaluator registry. */
module ValidateWhen {
  import opened Results
  import opened Json
  import opened Text

  datatype WhenError =
    | NilClause | NotObjectOrArray | MultipleLogical
    | EvalName | UnknownEvaluator | EvalCombined | ConstantParams
    | OpName | OpCombined | UnknownOp | BadPath | BadPathPrefix
    | MissingValue | ValueNotArray | MissingEq | MissingWhen | ArrayExpected | UnknownShape

  /** `None` is Go's nil error. */
  type Check = Option<WhenError>

  const LOGICAL: seq<string> := ["and", "or", "not"]

  /** `knownWhenOps`. */
  const KNOWN_WHEN_OPS: set<string> := {
    "eq", "ne", "gt", "lt", "gte", "lte", "in", "contains", "exists", "not_exists", "count", "any", "all"}

  const REGISTERED: set<string> := {"constant"}

  const PATH_PREFIXES: set<string> := {"git.", "github.", "state.", "gates."}

  function Validate(when: Value): Check {
    if when.Null? then None else WalkWhen(when)
  }

  function WalkWhen(when: Value): Check
    decreases when, 3
  {
    match when
    case Null => Some(NilClause)
    case Obj(_) => WalkMap(when)
    case Arr(es) => WalkAll(es)
    case _ => Some(NotObjectOrArray)
  }

  function WalkAll(es: seq<Value>): Check
    decreases es, 0
  {
    if es == [] then None
    else
      var head := WalkWhen(es[0]);
      if head.Some? then head else WalkAll(es[1..])
  }

  function WalkMap(v: Value): Check
    requires v.Obj?
    decreases v, 2
  {
    var m := v.fields;
    if LogicalCount(m) > 1 then Some(MultipleLogical)
    else if "eval" in m then
      if !m["eval"].Str? || m["eval"].s == "" then Some(EvalName)
      else if m["eval"].s !in REGISTERED then Some(UnknownEvaluator)
      else if "op" in m || LogicalCount(m) > 0 then Some(EvalCombined)
      else if m["eval"].s == "constant" && !ConstantParamsOk(m) then Some(ConstantParams)
      else None
    else if "op" in m then
      if !m["op"].Str? || m["op"].s == "" then Some(OpName)
      else if LogicalCount(m) > 0 then Some(OpCombined)
      else WalkOp(v, m["op"].s)
    else
      var children := WalkLogical(v);
      if children.Some? then children
      else if LogicalCount(m) > 0 then None
      else Some(UnknownShape)
  }

  predicate ConstantParamsOk(m: Object) {
    "params" in m && m["params"].Obj? && "value" in m["params"].fields && m["params"].fields["value"].Bool?
  }

  /** How many of `and`, `or`, `not` the object has. */
  function LogicalCount(m: Object): nat {
    (if "and" in m then 1 else 0) + (if "or" in m then 1 else 0) + (if "not" in m then 1 else 0)
  }

  /** The counter loop of `rejectMultipleLogicalRoots`. */
  method RejectMultipleLogicalRoots(m: Object) returns (r: Check)
    ensures r == if LogicalCount(m) > 1 then Some(MultipleLogical) else None
  {
    var n := 0;
    for i := 0 to |LOGICAL|
      invariant n == (if i > 0 && "and" in m then 1 else 0) + (if i > 1 && "or" in m then 1 else 0)
                     + (if i > 2 && "not" in m then 1 else 0)
    {
      if LOGICAL[i] in m {
        n := n + 1;
      }
    }
    return if n > 1 then Some(MultipleLogical) else None;
  }

  /** The loop over a clause list. */
  method RunWalkAll(es: seq<Value>) returns (r: Check)
    ensures r == WalkAll(es)
  {
    for i := 0 to |es|
      invariant WalkAll(es) == WalkAll(es[i..])
    {
      var one := WalkWhen(es[i]);
      if one.Some? {
        return one;
      }
    }
    return None;
  }

  function WalkLogical(v: Value): Check
    requires v.Obj?
    decreases v, 1
  {
    var m := v.fields;
    var ands := if "and" in m then WalkList(m["and"]) else None;
    if ands.Some? then ands
    else
      var ors := if "or" in m then WalkList(m["or"]) else None;
      if ors.Some? then ors
      else if "not" in m then WalkWhen(m["not"])
      else None
  }

  function WalkList(v: Value): Check
    decreases v, 0
  {
    match v
    case Arr(es) => WalkAll(es)
    case _ => Some(ArrayExpected)
  }

  function WalkOp(v: Value, op: string): Check
    requires v.Obj?
    decreases v, 1
  {
    var m := v.fields;
    if op !in KNOWN_WHEN_OPS then Some(UnknownOp)
    else if !PathOk(m) then Some(BadPath)
    else if !PrefixOk(m["path"].s) then Some(BadPathPrefix)
    else if op in {"eq", "ne", "gt", "lt", "gte", "lte", "contains"} then
      if "value" in m then None else Some(MissingValue)
    else if op == "in" then
      if "value" !in m then Some(MissingValue) else if m["value"].Arr? then None else Some(ValueNotArray)
    else if op == "count" then
      if "eq" !in m then Some(MissingEq) else if "when" in m then WalkWhen(m["when"]) else None
    else if op in {"any", "all"} then
      if "when" in m then WalkWhen(m["when"]) else Some(MissingWhen)
    else None
  }

  /** `requirePathString`: present, a string, not blank, without surrounding white space. */
  predicate PathOk(m: Object) {
    "path" in m && m["path"].Str? && !Blank(m["path"].s) && Trim(m["path"].s) == m["path"].s
  }

  /** `validateSignalPathPrefix`. */
  predicate PrefixOk(path: string) {
    path == "$" || HasPrefix(path, "$.") || exists prefix :: prefix in PATH_PREFIXES && HasPrefix(path, prefix)
  }
}
