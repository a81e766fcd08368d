/**
 * The small part of JavaScript's value and exception semantics that the
 * haste-map worker relies on: the values `JSON.parse` can produce, truthiness,
 * the `||` operator, reading the `name` property, and thrown values.
 */
module Js {
  import opened Wrappers

  /** A JavaScript value. `JSON.parse` yields only Null, Bool, Number, Str,
      Array and Object; Undefined and NaN arise elsewhere in the language. */
  datatype JsValue =
    | Undefined
    | Null
    | Bool(b: bool)
    | Number(x: real)
    | NaN
    | Str(s: string)
    | Array(elements: seq<JsValue>)
    | Object(properties: map<string, JsValue>)

  /** JavaScript truthiness: `undefined`, `null`, `false`, `0`, `-0`, `NaN`
      and `""` are falsy; every other value, including every array and
      object, is truthy. */
  function Truthy(v: JsValue): (t: bool)
    ensures !t <==> v in {Undefined, Null, Bool(false), NaN, Str("")} || (v.Number? && v.x == 0.0)
  {
    match v
    case Undefined => false
    case Null => false
    case Bool(b) => b
    case Number(x) => x != 0.0
    case NaN => false
    case Str(s) => s != ""
    case Array(_) => true
    case Object(_) => true
  }

  /** The value of `a || b`: the left operand when it is truthy, otherwise the
      right one (which is returned as it is, truthy or not). */
  function Or(a: JsValue, b: JsValue): (r: JsValue)
    ensures Truthy(r) <==> Truthy(a) || Truthy(b)
    ensures Truthy(a) ==> r == a
    ensures !Truthy(a) ==> r == b
  {
    if Truthy(a) then a else b
  }

  /** A value that a `throw` can carry into a `catch` clause: either a bare
      string or an Error-like object with a message, an optional stack
      trace and an optional `type` property (Undefined when absent). */
  datatype Thrown =
    | ThrownString(text: string)
    | ThrownError(message: string, stack: Option<string>, errorType: JsValue)

  /** The completion of a JavaScript computation: it either returns a value
      normally or throws. */
  datatype Completion<+T> = Normal(value: T) | Abrupt(thrown: Thrown)

  /** The text of a TypeError the runtime raises: its message and stack
      trace are chosen by the JavaScript engine. */
  datatype TypeErrorText = TypeErrorText(message: string, stack: Option<string>)

  /** The TypeError object the runtime throws. It is an Error with the
      engine's message and stack and no `type` property. */
  function TypeError(text: TypeErrorText): (e: Thrown)
    ensures e.ThrownError?
    ensures e.message == text.message && e.stack == text.stack
    ensures !Truthy(e.errorType)
  {
    ThrownError(text.message, text.stack, Undefined)
  }

  /** The value of the expression `v.name`. Reading a property of `null` or
      `undefined` throws a TypeError; an object yields its own `name` entry
      or Undefined; arrays, strings, numbers and booleans have no `name`
      property in their prototype chain and yield Undefined. */
  function NameOf(v: JsValue, typeError: TypeErrorText): (r: Completion<JsValue>)
    ensures r.Abrupt? <==> v.Null? || v.Undefined?
    ensures r.Abrupt? ==> r.thrown == TypeError(typeError)
    ensures r.Normal? && r.value != Undefined ==> v.Object? && "name" in v.properties && v.properties["name"] == r.value
    ensures v.Object? && "name" in v.properties ==> r == Normal(v.properties["name"])
  {
    match v
    case Undefined => Abrupt(TypeError(typeError))
    case Null => Abrupt(TypeError(typeError))
    case Object(props) => Normal(if "name" in props then props["name"] else Undefined)
    case _ => Normal(Undefined)
  }

  /** The value of `doc.key` for the plain object the docblock parser
      returns: a string when the pragma was present, Undefined otherwise. */
  function Lookup(doc: map<string, string>, key: string): (r: JsValue)
    ensures r.Undefined? <==> key !in doc
    ensures key in doc ==> r == Str(doc[key])
    ensures Truthy(r) <==> key in doc && doc[key] != ""
  {
    if key in doc then Str(doc[key]) else Undefined
  }
}
