/** The small part of JavaScript's value semantics that the error taxonomy
    depends on: truthiness, the `code` property of an arbitrary thrown value,
    and `Error.prototype.toString`. */
module JsValues {

  /** A JavaScript value as far as `equals` inspects it. An object is reduced
      to its `code` property (`Undefined` when it has none). Numbers are
      integers here; NaN is not modelled. */
  datatype Value =
    | Undefined
    | Null
    | Boolean(b: bool)
    | Number(n: int)
    | Str(s: string)
    | Object(code: Value)

  /** JavaScript truthiness: `undefined`, `null`, `false`, `0` and `''` are
      falsy, every object is truthy. */
  predicate Truthy(v: Value) {
    match v
    case Undefined => false
    case Null => false
    case Boolean(b) => b
    case Number(n) => n != 0
    case Str(s) => s != ""
    case Object(_) => true
  }

  /** A native `Error`: the two properties that `toString` reads. */
  datatype NativeError = NativeError(name: string, message: string) {

    /** `Error.prototype.toString`: `name: message`, dropping the separator
        when either side is empty. */
    function ToString(): (r: string)
      ensures name == "" ==> r == message
      ensures message == "" ==> r == name
      ensures name != "" && message != "" ==> |r| == |name| + 2 + |message|
      ensures name != "" && message != "" ==> r[..|name|] == name && r[|name| + 2..] == message
      ensures name != "" && message != "" ==> r[|name|..|name| + 2] == ": "
    {
      if name == "" then message
      else if message == "" then name
      else name + ": " + message
    }
  }
}
