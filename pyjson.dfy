/** The slice of Python's runtime that the scraper leans on: a decoded JSON
    document, Python's truth value of it, dictionary access (`d.get`, `d[k]`),
    iteration with `for`, and the exceptions those raise. Every failure the
    scraper can meet is an `Error`, returned in a `Result`, instead of a
    raised exception. */
module PyJson {

  /** A value as `json.loads` hands it to Python: `None`, a bool, a number,
      a str, a list or a dict with string keys. Numbers are integers only. */
  datatype Json =
    | JNull
    | JBool(b: bool)
    | JNum(n: int)
    | JStr(s: string)
    | JArr(items: seq<Json>)
    | JObj(fields: map<string, Json>)

  datatype Option<+T> = None | Some(value: T)

  /** The three filter fields checked against a lookup table. */
  datatype FilterField = MainLocationField | OptionField | PropertyTypeField

  /** What ends a request early: a filter value missing from its lookup
      table (answered with 404), or one of the Python exceptions the code
      can raise (answered with 500). */
  datatype Error =
    | NotFound(field: FilterField, value: Json)
    | KeyError(key: Json)      // `d[k]` on a dict without the key `k`
    | TypeError                // subscript or iteration on a value that has none
    | AttributeError           // `.get`, `.lower` or `urlparse` on the wrong kind of value
    | IndexError               // `[0]` on an empty list or string

  datatype Result<+T> = Ok(value: T) | Err(error: Error) {

    predicate IsFailure() {
      Err?
    }

    function PropagateFailure<U>(): Result<U>
      requires Err?
    {
      Err(error)
    }

    function Extract(): T
      requires Ok?
    {
      value
    }
  }

  /** The empty dict `{}`, the default of most `.get` calls. */
  const Empty: Json := JObj(map[])

  /** Python's `bool(v)`: `None`, `False`, `0`, `""`, `[]` and `{}` are false. */
  predicate Truthy(v: Json) {
    match v
    case JNull => false
    case JBool(b) => b
    case JNum(n) => n != 0
    case JStr(s) => s != ""
    case JArr(items) => items != []
    case JObj(fields) => fields != map[]
  }

  /** `m.get(key, default)` on a value already known to be a dict. */
  function Field(m: map<string, Json>, key: string, default: Json): Json {
    if key in m then m[key] else default
  }

  /** `v.get(key, default)`: only a dict has a `get` method. */
  function Get(v: Json, key: string, default: Json): (r: Result<Json>)
    ensures r.Ok? <==> v.JObj?
  {
    match v
    case JObj(m) => Ok(Field(m, key, default))
    case _ => Err(AttributeError)
  }

  /** `v[key]` with a string key: a KeyError on a dict without it, a
      TypeError on anything else (a list, a str or None cannot be indexed
      by a string). */
  function Index(v: Json, key: string): (r: Result<Json>)
    ensures r.Ok? <==> v.JObj? && key in v.fields
    ensures r.Ok? ==> r.value == v.fields[key]
    ensures v.JObj? && key !in v.fields ==> r == Err(KeyError(JStr(key)))
    ensures !v.JObj? ==> r == Err(TypeError)
  {
    match v
    case JObj(m) => if key in m then Ok(m[key]) else Err(KeyError(JStr(key)))
    case _ => Err(TypeError)
  }

  /** The elements `for x in v` visits. A list visits its items; None, a
      bool and a number are not iterable. A str or a dict visits strings
      (characters or keys), and the loop body fails on the first of them
      with `onString`, the error its first use of an element raises on a
      string; an empty str or dict visits nothing. */
  function Elements(v: Json, onString: Error): (r: Result<seq<Json>>)
    ensures v.JArr? ==> r == Ok(v.items)
  {
    match v
    case JArr(items) => Ok(items)
    case JObj(m) => if m == map[] then Ok([]) else Err(onString)
    case JStr(s) => if s == "" then Ok([]) else Err(onString)
    case _ => Err(TypeError)
  }

  /** `v in table` for a dict with string keys: a list or a dict is not
      hashable and raises a TypeError; None, a bool or a number is never
      equal to a string key. */
  function IsKeyOf(v: Json, table: map<string, string>): (r: Result<bool>)
    ensures r == Ok(true) <==> v.JStr? && v.s in table
    ensures r.Err? <==> v.JArr? || v.JObj?
  {
    match v
    case JStr(s) => Ok(s in table)
    case JArr(_) => Err(TypeError)
    case JObj(_) => Err(TypeError)
    case _ => Ok(false)
  }
}
