/** JavaScript values as they travel in scraped records, messages and the
    playbook context. */
module Values {
  import opened Text

  /** A JavaScript value. Arrays of strings are kept; any other object is opaque. */
  datatype Value =
    | Undefined
    | Null
    | Bool(b: bool)
    | Num(n: int)
    | Str(s: string)
    | List(items: seq<string>)
    | Object
  {
    /** JavaScript truthiness: `false`, `0`, `""`, `null` and `undefined` are falsy. */
    predicate Truthy() {
      match this
      case Undefined => false
      case Null => false
      case Bool(b) => b
      case Num(n) => n != 0
      case Str(s) => s != []
      case List(_) => true
      case Object => true
    }

    /** `String(value)`, as a template literal or `String.prototype.replace` renders it. */
    function Render(): string {
      match this
      case Undefined => "undefined"
      case Null => "null"
      case Bool(b) => if b then "true" else "false"
      case Num(n) => if n < 0 then "-" + NatToString(-n) else NatToString(n)
      case Str(s) => s
      case List(items) => Join(items, ",")
      case Object => "[object Object]"
    }
  }

  /** A plain JavaScript object: property name to value. */
  type Record = map<string, Value>

  /** `o || ''` for an optional string field. */
  function OrEmpty(o: Option<string>): string {
    if o.Some? then o.value else ""
  }

  /** A string field that is present and not empty. */
  predicate Present(o: Option<string>) { o.Some? && o.value != "" }

  /** A string field as a template literal renders it (`undefined` when absent). */
  function RenderField(o: Option<string>): string {
    if o.Some? then o.value else "undefined"
  }
}
