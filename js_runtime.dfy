/** The slice of JavaScript semantics the modelled code relies on: values,
    truthiness, `||` and `??`, property reads, `String(v)`, thrown errors, and
    `filter`/`map`/`find` whose callback may throw. */
module JsRuntime {
  import opened Seqs

  datatype Option<+T> = None | Some(value: T)

  /** A JavaScript value as it travels through JSON and the parsed XML tree.
      Numbers are integers: the modelled code never does arithmetic on them.
      Error objects are a case of their own, because `String()` prints them
      through `Error.prototype.toString` rather than as "[object Object]". */
  datatype Js =
    | Undefined
    | Null
    | Bool(b: bool)
    | Num(n: int)
    | Str(s: string)
    | Arr(items: seq<Js>)
    | Obj(fields: map<string, Js>)
    | Error(name: string, message: string)

  /** The outcome of an expression that may throw; `error` is the thrown value. */
  datatype Result<+T> = Ok(value: T) | Err(error: Js) {
    predicate IsFailure() { Err? }

    function PropagateFailure<U>(): Result<U>
      requires Err?
    {
      Err(error)
    }

    function Extract(): T
      requires Ok?
    {
      value
    }
  }

  predicate Nullish(v: Js) { v.Undefined? || v.Null? }

  /** ToBoolean. */
  predicate Truthy(v: Js)
  {
    match v
    case Undefined => false
    case Null => false
    case Bool(b) => b
    case Num(n) => n != 0
    case Str(s) => s != ""
    case Arr(_) => true
    case Obj(_) => true
    case Error(_, _) => true
  }

  /** `a || b` */
  function Or(a: Js, b: Js): Js { if Truthy(a) then a else b }

  /** `a ?? b` */
  function Coalesce(a: Js, b: Js): Js { if Nullish(a) then b else a }

  /** `v?.k`: an own field of an object; every other value, null and undefined
      included, yields undefined.  (Built-in properties such as `length` are
      modelled separately where the code reads them.) */
  function Field(v: Js, k: string): Js
  {
    match v
    case Obj(f) => if k in f then f[k] else Undefined
    case Error(name, message) =>
      if k == "name" then Str(name) else if k == "message" then Str(message) else Undefined
    case _ => Undefined
  }

  /** An Error object as thrown by the runtime or by `new Error(message)`. */
  function ErrorValue(name: string, message: string): Js
  {
    Error(name, message)
  }

  function ReadError(v: Js, k: string): Js
  {
    ErrorValue("TypeError", "Cannot read properties of " + (if v.Null? then "null" else "undefined")
                            + " (reading '" + k + "')")
  }

  /** `v.k`: throws a TypeError when `v` is null or undefined. */
  function Member(v: Js, k: string): (r: Result<Js>)
    ensures r.Err? <==> Nullish(v)
    ensures r.Ok? ==> r.value == Field(v, k)
  {
    if Nullish(v) then Err(ReadError(v, k)) else Ok(Field(v, k))
  }

  /** `v.m(...)` for a method `m` of String.prototype: it throws unless `v` is a string. */
  function StringReceiver(v: Js, m: string): (r: Result<string>)
    ensures r.Ok? <==> v.Str?
    ensures v.Str? ==> r == Ok(v.s)
  {
    match v
    case Str(s) => Ok(s)
    case Undefined => Err(ReadError(v, m))
    case Null => Err(ReadError(v, m))
    case _ => Err(ErrorValue("TypeError", m + " is not a function"))
  }

  // ---- String(v) ----

  function Digit(d: nat): char
    requires d < 10
  {
    "0123456789"[d]
  }

  function NatToDecimal(n: nat): (r: string)
    ensures |r| >= 1
    ensures forall i :: 0 <= i < |r| ==> '0' <= r[i] <= '9'
  {
    if n < 10 then [Digit(n)] else NatToDecimal(n / 10) + [Digit(n % 10)]
  }

  /** The decimal numeral of `n`, as `String(n)` writes an integral number. */
  function IntToDecimal(n: int): string
  {
    if n < 0 then "-" + NatToDecimal(-n) else NatToDecimal(n)
  }

  function Join(parts: seq<string>, sep: string): string
  {
    if parts == [] then "" else if |parts| == 1 then parts[0] else parts[0] + sep + Join(parts[1..], sep)
  }

  /** `String(v)`: arrays join their elements with "," and print null and
      undefined elements as empty; a plain object prints as "[object Object]";
      an Error prints as `name: message`, or only the one that is not empty. */
  function ToStr(v: Js): string
  {
    match v
    case Undefined => "undefined"
    case Null => "null"
    case Bool(b) => if b then "true" else "false"
    case Num(n) => IntToDecimal(n)
    case Str(s) => s
    case Arr(items) =>
      Join(seq(|items|, i requires 0 <= i < |items| => if Nullish(items[i]) then "" else ToStr(items[i])), ",")
    case Obj(_) => "[object Object]"
    case Error(name, message) =>
      if name == "" then message else if message == "" then name else name + ": " + message
  }

  // ---- Array.prototype methods with a callback that may throw ----

  /** The elements a callback keeps, for a callback that does not throw on them. */
  function Kept<T>(pred: T -> Result<bool>): T -> bool
  {
    x => pred(x).Ok? && pred(x).value
  }

  /** `xs.filter(pred)`: the callback runs on every element in order and the
      first exception escapes. */
  function FilterThrowing<T(!new)>(xs: seq<T>, pred: T -> Result<bool>): (r: Result<seq<T>>)
    ensures r.Ok? <==> forall i :: 0 <= i < |xs| ==> pred(xs[i]).Ok?
    ensures r.Ok? ==> r.value == Filter(Kept(pred), xs)
    ensures r.Err? ==> exists i :: 0 <= i < |xs| && pred(xs[i]) == Err(r.error)
                                   && forall j :: 0 <= j < i ==> pred(xs[j]).Ok?
  {
    if xs == [] then Ok([])
    else
      match pred(xs[0])
      case Err(e) => Err(e)
      case Ok(keep) =>
        match FilterThrowing(xs[1..], pred)
        case Err(e) =>
          assert forall i :: 1 <= i < |xs| ==> xs[i] == xs[1..][i - 1];
          Err(e)
        case Ok(rest) =>
          assert forall i :: 1 <= i < |xs| ==> xs[i] == xs[1..][i - 1];
          Ok((if keep then [xs[0]] else []) + rest)
  }

  /** `xs.map(f)`: the callback runs on every element in order and the first
      exception escapes. */
  function MapThrowing<A, B>(xs: seq<A>, f: A -> Result<B>): (r: Result<seq<B>>)
    ensures r.Ok? <==> forall i :: 0 <= i < |xs| ==> f(xs[i]).Ok?
    ensures r.Ok? ==> |r.value| == |xs| && forall i :: 0 <= i < |xs| ==> r.value[i] == f(xs[i]).value
    ensures r.Err? ==> exists i :: 0 <= i < |xs| && f(xs[i]) == Err(r.error)
                                   && forall j :: 0 <= j < i ==> f(xs[j]).Ok?
  {
    if xs == [] then Ok([])
    else
      match f(xs[0])
      case Err(e) => Err(e)
      case Ok(y) =>
        match MapThrowing(xs[1..], f)
        case Err(e) =>
          assert forall i :: 1 <= i < |xs| ==> xs[i] == xs[1..][i - 1];
          Err(e)
        case Ok(rest) =>
          assert forall i :: 1 <= i < |xs| ==> xs[i] == xs[1..][i - 1];
          Ok([y] + rest)
  }

  /** `xs.find(pred)`: the first element the callback accepts, or None when
      there is none; the callback stops running at the element it accepts. */
  function FindThrowing<T>(xs: seq<T>, pred: T -> Result<bool>): (r: Result<Option<T>>)
    ensures r == Ok(None) <==> forall i :: 0 <= i < |xs| ==> pred(xs[i]) == Ok(false)
    ensures r.Ok? && r.value.Some? ==>
      exists i :: 0 <= i < |xs| && xs[i] == r.value.value && pred(xs[i]) == Ok(true)
                  && forall j :: 0 <= j < i ==> pred(xs[j]) == Ok(false)
  {
    if xs == [] then Ok(None)
    else
      match pred(xs[0])
      case Err(e) => Err(e)
      case Ok(found) =>
        if found then Ok(Some(xs[0]))
        else
          assert forall i :: 1 <= i < |xs| ==> xs[i] == xs[1..][i - 1];
          FindThrowing(xs[1..], pred)
  }

  // ---- URLSearchParams ----

  /** `params.toString()`: name=value pairs joined by "&", each side passed
      through the form encoding `encode`. */
  function Serialize(params: seq<(string, string)>, encode: string -> string): string
  {
    Join(Map((kv: (string, string)) => encode(kv.0) + "=" + encode(kv.1), params), "&")
  }
}
