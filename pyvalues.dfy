/** The dynamically typed values that flow through the system's dictionaries
    (chunk metadata, raw retriever records, decoded JSON), with Python's
    truthiness, `str()` rendering and `float()` conversion. */
module PyValues {
  import opened Wrappers
  import opened PyStrings

  /** A Python value as far as the modelled code can tell values apart.
      `Object` is any other object (an image, say): truthy and opaque. */
  datatype Value =
    | Str(s: string)
    | Int(i: int)
    | Num(r: real)
    | Bool(b: bool)
    | Null
    | Dict(entries: map<string, Value>)
    | Object(tag: nat)

  /** A dictionary with string keys. */
  type Record = map<string, Value>

  /** `bool(v)`. */
  predicate Truthy(v: Value) {
    match v
    case Str(s) => s != ""
    case Int(i) => i != 0
    case Num(r) => r != 0.0
    case Bool(b) => b
    case Null => false
    case Dict(e) => |e| != 0
    case Object(_) => true
  }

  /** `a or b`: the first operand when it is truthy, else the second. */
  function Or(a: Value, b: Value): (r: Value)
    ensures Truthy(a) ==> r == a
    ensures !Truthy(a) ==> r == b
  {
    if Truthy(a) then a else b
  }

  /** `d.get(key, default)`. */
  function Get(d: Record, key: string, default: Value): (r: Value)
    ensures key in d ==> r == d[key]
    ensures key !in d ==> r == default
  {
    if key in d then d[key] else default
  }

  /** `str(v)`. Floats, dictionaries and other objects render as a fixed
      placeholder: their exact Python rendering is not modelled. */
  function Display(v: Value): string {
    match v
    case Str(s) => s
    case Int(i) => IntToString(i)
    case Bool(b) => if b then "True" else "False"
    case Null => "None"
    case Num(_) => "<float>"
    case Dict(_) => "<dict>"
    case Object(_) => "<object>"
  }

  /** `float(v)`: `ParseFloat` stands for Python's parsing of a numeric
      string (None when it raises, and for "inf"/"nan", which are not reals). */
  function ToFloat(v: Value, parseFloat: string -> Option<real>): (r: Result<real>)
    ensures v.Num? ==> r == Ok(v.r)
    ensures v.Int? ==> r == Ok(v.i as real)
    ensures v.Null? || v.Dict? || v.Object? ==> r.Err?
  {
    match v
    case Num(x) => Ok(x)
    case Int(i) => Ok(i as real)
    case Bool(b) => Ok(if b then 1.0 else 0.0)
    case Str(s) =>
      (match parseFloat(s)
       case Some(x) => Ok(x)
       case None => Err(ValueError))
    case Null => Err(TypeError)
    case Dict(_) => Err(TypeError)
    case Object(_) => Err(TypeError)
  }

  /** `isinstance(v, (int, float))`; `bool` is a subclass of `int`. */
  predicate IsNumber(v: Value) {
    v.Int? || v.Num? || v.Bool?
  }

  /** The numeric value of a number; `True` and `False` are 1 and 0. */
  function NumberValue(v: Value): real
    requires IsNumber(v)
  {
    match v
    case Int(i) => i as real
    case Num(x) => x
    case Bool(b) => if b then 1.0 else 0.0
  }

  /** `a == b`: numbers are equal when their values are, whatever their
      types; any other value is equal only to itself. */
  predicate PyEquals(a: Value, b: Value) {
    if IsNumber(a) && IsNumber(b) then NumberValue(a) == NumberValue(b) else a == b
  }

  /** Dictionaries cannot be dict keys or set members. */
  predicate Hashable(v: Value) {
    !v.Dict?
  }

  /** The dict key a value stands for: `True`, `1` and `1.0` are one key,
      so booleans and integers are replaced by the float of their value.
      Truthiness and hashability are kept. */
  function HashKey(v: Value): (r: Value)
    ensures Truthy(r) <==> Truthy(v)
    ensures Hashable(r) <==> Hashable(v)
  {
    if IsNumber(v) then Num(NumberValue(v)) else v
  }

  /** Two hashable values are the same dict key exactly when Python's `==`
      holds between them. */
  lemma HashKeyEquality(a: Value, b: Value)
    requires Hashable(a) && Hashable(b)
    ensures HashKey(a) == HashKey(b) <==> PyEquals(a, b)
  {
  }
}
