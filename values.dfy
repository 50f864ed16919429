/** JavaScript values as the pipeline engine observes them: the shape tests it makes
    (`Array.isArray`, `typeof`, truthiness) and the outcome of calling a function. */
module Values {

  /** A JavaScript value. Numbers are modelled as integers. Three kinds of function
      value exist: a function written by the caller (known by its identity, its
      behaviour supplied separately), the closure `parallel(shape)` builds for an
      array or object, and the closure `po` that `Po(...)` returns over its steps. */
  datatype Value =
    | Undefined
    | Null
    | Bool(b: bool)
    | Num(n: int)
    | Str(s: string)
    | Arr(items: seq<Value>)
    | Obj(entries: seq<(string, Value)>)
    | Fn(id: nat)
    | FanOut(shape: Value)
    | Pipeline(steps: seq<Value>)

  /** The strings the helper `type` can return. */
  datatype JsType =
    | UndefinedType
    | BooleanType
    | NumberType
    | StringType
    | ObjectType
    | ArrayType
    | FunctionType

  /** `type(v)`: `'array'` for arrays, otherwise `typeof v` (so `null` is an object). */
  function Type(v: Value): (t: JsType)
    ensures t == ArrayType <==> v.Arr?
    ensures t == ObjectType <==> v.Obj? || v.Null?
    ensures t == FunctionType <==> v.Fn? || v.FanOut? || v.Pipeline?
    ensures t == UndefinedType <==> v.Undefined?
  {
    match v
    case Undefined => UndefinedType
    case Null => ObjectType
    case Bool(_) => BooleanType
    case Num(_) => NumberType
    case Str(_) => StringType
    case Arr(_) => ArrayType
    case Obj(_) => ObjectType
    case Fn(_) => FunctionType
    case FanOut(_) => FunctionType
    case Pipeline(_) => FunctionType
  }

  /** `!v` in JavaScript: false for undefined, null, false, 0 and the empty string. */
  predicate Falsy(v: Value) {
    v == Undefined || v == Null || v == Bool(false) || v == Num(0) || v == Str("")
  }

  /** What a failed call carries. The engine never wraps or rewrites an error. */
  datatype Error =
    | Raised(payload: Value)        // a value a callable threw or rejected with
    | NotAFunction(callee: Value)   // the TypeError of calling a value that is not a function
    | NotIterable                   // the TypeError of walking a fan-out over `null`

  /** What calling a function does: it returns a value (directly or as a promise that
      fulfils with it), throws synchronously, or returns a promise that rejects. */
  datatype Reply =
    | Returned(value: Value)
    | Threw(error: Error)
    | Rejected(error: Error)

  /** The settlement of a promise. */
  datatype Result<T> = Ok(value: T) | Err(error: Error)

  datatype Option<T> = None | Some(value: T)
}
