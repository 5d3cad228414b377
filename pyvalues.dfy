/**
 * Python values as they flow through the service: JSON-decoded answers,
 * primitive maps read back from the graph, and the values extracted by the
 * LLM. `isinstance` order matters in the source (a `bool` is also an `int`),
 * so the cases are kept distinct and the dispatching code tests them in the
 * source's order.
 */
module PyValues {
  import opened Wrappers
  import opened Text

  datatype Value =
    | VNone
    | VBool(b: bool)
    | VInt(i: int)
    | VFloat(f: real)
    | VStr(s: string)
      /** Any other object (a list, a dict): its type's name, the text `str()` gives for it and its truthiness. */
    | VOther(typeName: string, text: string, nonEmpty: bool)

  /** Python truthiness. */
  predicate Truthy(v: Value)
  {
    match v
    case VNone => false
    case VBool(b) => b
    case VInt(i) => i != 0
    case VFloat(f) => f != 0.0
    case VStr(s) => s != ""
    case VOther(_, _, nonEmpty) => nonEmpty
  }

  /** Python's `v == False`: true for `False`, `0` and `0.0`. */
  predicate EqFalse(v: Value)
  {
    v == VBool(false) || v == VInt(0) || v == VFloat(0.0)
  }

  /** Python's `v == True`: true for `True`, `1` and `1.0`. */
  predicate EqTrue(v: Value)
  {
    v == VBool(true) || v == VInt(1) || v == VFloat(1.0)
  }

  /** Python's `str(v)`. */
  function Str(v: Value): string
  {
    match v
    case VNone => "None"
    case VBool(b) => if b then "True" else "False"
    case VInt(i) => IntToString(i)
    case VFloat(f) => FloatToString(f)
    case VStr(s) => s
    case VOther(_, text, _) => text
  }

  /** Python's `type(v).__name__`. */
  function TypeName(v: Value): (name: string)
    ensures v.VStr? <==> name == "str"
    ensures v.VNone? <==> name == "NoneType"
  {
    match v
    case VNone => "NoneType"
    case VBool(_) => "bool"
    case VInt(_) => "int"
    case VFloat(_) => "float"
    case VStr(_) => "str"
    case VOther(typeName, _, _) => if typeName in {"str", "NoneType"} then "object" else typeName
  }

  /** Python's AttributeError text for a field an object does not have. */
  function NoAttribute(typeName: string, field: string): string
  {
    "'" + typeName + "' object has no attribute '" + field + "'"
  }

  /** `dict.get(key)` on a map of Python values: a missing key reads as None. */
  function Get(m: map<string, Value>, key: string): Value
  {
    if key in m then m[key] else VNone
  }

  /** Numeric view of an int or float, used by `<` and `>` comparisons. */
  predicate IsNumber(v: Value)
  {
    v.VBool? || v.VInt? || v.VFloat?
  }

  function AsReal(v: Value): real
    requires IsNumber(v)
  {
    match v
    case VBool(b) => if b then 1.0 else 0.0
    case VInt(i) => i as real
    case VFloat(f) => f
  }

  /** Python's `int(x)` for a finite float: truncation toward zero. */
  function TruncToZero(f: real): (i: int)
    ensures (i as real) <= f < (i as real) + 1.0 || (i as real) - 1.0 < f <= (i as real)
    ensures f >= 0.0 ==> i >= 0
    ensures f <= 0.0 ==> i <= 0
  {
    if f >= 0.0 then f.Floor else -((-f).Floor)
  }

  /** Python's `float(v)`; text is parsed by the supplied `parseFloat` (None for a ValueError). */
  function PyFloat(v: Value, parseFloat: string -> Option<real>): (r: Result<real>)
    ensures IsNumber(v) ==> r == Success(AsReal(v))
  {
    match v
    case VBool(b) => Success(if b then 1.0 else 0.0)
    case VInt(i) => Success(i as real)
    case VFloat(f) => Success(f)
    case VStr(s) =>
      (match parseFloat(s)
       case Some(f) => Success(f)
       case None => Failure("could not convert string to float: '" + s + "'"))
    case _ => Failure("float() argument must be a string or a real number")
  }

  /** Python's `int(v)`; text is parsed by the supplied `parseInt` (None for a ValueError). */
  function PyInt(v: Value, parseInt: string -> Option<int>): (r: Result<int>)
    ensures v.VBool? ==> r == Success(if v.b then 1 else 0)
    ensures v.VInt? ==> r == Success(v.i)
    ensures v.VFloat? ==> r.Success? && (r.value as real) <= v.f + 1.0 && v.f - 1.0 <= (r.value as real)
  {
    match v
    case VBool(b) => Success(if b then 1 else 0)
    case VInt(i) => Success(i)
    case VFloat(f) => Success(TruncToZero(f))
    case VStr(s) =>
      (match parseInt(s)
       case Some(i) => Success(i)
       case None => Failure("invalid literal for int() with base 10: '" + s + "'"))
    case _ => Failure("int() argument must be a string, a bytes-like object or a real number")
  }
}
