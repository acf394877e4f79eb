/**
 * The slice of Python the handlers rely on: JSON-decoded event values,
 * truthiness, `dict.get` with a default, and the text an exception is
 * rendered to by the handlers' failure template.
 */
module Python {

  /** A value decoded from a JSON event payload (non-integer numbers are not modelled). */
  datatype Value =
    | Null
    | Bool(b: bool)
    | Int(i: int)
    | Str(s: string)
    | List(items: seq<Value>)
    | Dict(entries: map<string, Value>)

  /** Python's truth value: None, False, 0 and empty strings, lists and dicts are false. */
  predicate Truthy(v: Value) {
    match v
    case Null => false
    case Bool(b) => b
    case Int(i) => i != 0
    case Str(s) => s != ""
    case List(items) => items != []
    case Dict(entries) => entries != map[]
  }

  /** `type(v).__name__` */
  function TypeName(v: Value): string {
    match v
    case Null => "NoneType"
    case Bool(_) => "bool"
    case Int(_) => "int"
    case Str(_) => "str"
    case List(_) => "list"
    case Dict(_) => "dict"
  }

  /** `d.get(key, default)` */
  function Get(d: map<string, Value>, key: string, default: Value): Value {
    if key in d then d[key] else default
  }

  /** A raised exception: its class name and the reprs of its arguments. */
  datatype Exception = Exception(typeName: string, args: seq<string>)

  /**
   * `repr(s)` for a string without backslashes or unprintable characters that
   * does not hold both kinds of quote.
   */
  function Quote(s: string): string {
    if '\'' in s && '"' !in s then "\"" + s + "\"" else "'" + s + "'"
  }

  function KeyError(key: string): Exception {
    Exception("KeyError", [Quote(key)])
  }

  function TypeError(message: string): Exception {
    Exception("TypeError", [Quote(message)])
  }

  function ValueError(message: string): Exception {
    Exception("ValueError", [Quote(message)])
  }

  /** Reading a local variable no branch assigned (Python 3.8 wording). */
  function UnboundLocalError(name: string): Exception {
    Exception("UnboundLocalError", [Quote("local variable '" + name + "' referenced before assignment")])
  }

  function JoinArgs(args: seq<string>): string {
    if args == [] then ""
    else if |args| == 1 then args[0]
    else args[0] + ", " + JoinArgs(args[1..])
  }

  /** `repr(ex.args)`: the repr of a tuple, with the trailing comma of a one-element tuple. */
  function ArgsRepr(args: seq<string>): string {
    if |args| == 1 then "(" + args[0] + ",)" else "(" + JoinArgs(args) + ")"
  }

  /** The handlers' template "An exception of type {0} occurred. Arguments:\n{1!r}". */
  function Report(e: Exception): string {
    "An exception of type " + e.typeName + " occurred. Arguments:\n" + ArgsRepr(e.args)
  }
}
