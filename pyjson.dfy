/** JSON documents as Python's json module decodes them, and the Python
    operations the bot applies to them: `in`, subscripting, `len`,
    `dict.get` and `str`. Each operation returns the built-in exception it
    would raise instead of a value. */
module PyJson {

  /** A decoded JSON document (numbers are integers only). */
  datatype Json =
    | JNull
    | JBool(b: bool)
    | JInt(i: int)
    | JStr(s: string)
    | JList(items: seq<Json>)
    | JObject(fields: map<string, Json>)

  /** The built-in exceptions these operations raise. */
  datatype PyError =
    | KeyError(key: Json)
    | IndexError
    | TypeError

  /** A value or the exception raised while computing it. */
  datatype Result<T> = Ok(value: T) | Err(error: PyError) {
    predicate IsFailure() { Err? }

    function PropagateFailure<U>(): Result<U>
      requires Err?
    {
      Err(error)
    }

    function Extract(): T
      requires Ok?
    {
      value
    }
  }

  /** Python's `Optional`: `None` or a value. */
  datatype Option<T> = None | Some(value: T)

  /** Python's index conversion: an int, or a bool (an int subclass). */
  function AsIndex(key: Json): Option<int> {
    match key
    case JInt(i) => Some(i)
    case JBool(b) => Some(if b then 1 else 0)
    case _ => None
  }

  /** Lists and dicts cannot be dictionary keys. */
  predicate Hashable(key: Json) {
    !key.JList? && !key.JObject?
  }

  /** Python's `container[key]`: a dict looks the key up, a list or a str
      takes an integer position (negative ones count from the end), and
      nothing else can be subscripted. */
  function Subscript(container: Json, key: Json): (r: Result<Json>)
    ensures r.Ok? ==> container.JObject? || container.JList? || container.JStr?
    ensures container.JObject? && key.JStr? ==>
      r == (if key.s in container.fields then Ok(container.fields[key.s]) else Err(KeyError(key)))
    ensures container.JList? && key.JInt? && 0 <= key.i < |container.items| ==>
      r == Ok(container.items[key.i])
    ensures container.JStr? && key.JInt? && 0 <= key.i < |container.s| ==>
      r == Ok(JStr([container.s[key.i]]))
    ensures (container == JList([]) || container == JStr("")) && key.JInt? ==> r == Err(IndexError)
    ensures key.JStr? && !container.JObject? ==> r == Err(TypeError)
  {
    match container
    case JObject(fields) =>
      if !Hashable(key) then Err(TypeError)
      else if key.JStr? && key.s in fields then Ok(fields[key.s])
      else Err(KeyError(key))
    case JList(items) =>
      var index := AsIndex(key);
      if index.None? then Err(TypeError)
      else if -|items| <= index.value < |items| then
        Ok(items[if index.value < 0 then index.value + |items| else index.value])
      else Err(IndexError)
    case JStr(s) =>
      var index := AsIndex(key);
      if index.None? then Err(TypeError)
      else if -|s| <= index.value < |s| then
        Ok(JStr([s[if index.value < 0 then index.value + |s| else index.value]]))
      else Err(IndexError)
    case _ => Err(TypeError)
  }

  /** `needle` occurs as a contiguous block of `haystack`. */
  predicate IsSubstring(needle: string, haystack: string) {
    needle <= haystack || (haystack != [] && IsSubstring(needle, haystack[1..]))
  }

  /** Python's `item in container` for a str item: a dict tests its keys, a
      list its elements, a str its substrings; anything else raises. */
  function Contains(container: Json, item: string): (r: Result<bool>)
    ensures r.Ok? <==> container.JObject? || container.JList? || container.JStr?
    ensures container.JObject? ==> r == Ok(item in container.fields)
  {
    match container
    case JObject(fields) => Ok(item in fields)
    case JList(items) => Ok(JStr(item) in items)
    case JStr(s) => Ok(IsSubstring(item, s))
    case _ => Err(TypeError)
  }

  /** Python's `len`. */
  function Len(j: Json): (r: Result<nat>)
    ensures r.Ok? <==> j.JObject? || j.JList? || j.JStr?
    ensures j.JObject? ==> r == Ok(|j.fields|)
  {
    match j
    case JObject(fields) => Ok(|fields|)
    case JList(items) => Ok(|items|)
    case JStr(s) => Ok(|s|)
    case _ => Err(TypeError)
  }

  /** Python's `d.get(key)`: the value, or None when the key is absent. */
  function DictGet(fields: map<string, Json>, key: string): (r: Json)
    ensures key in fields ==> r == fields[key]
    ensures key !in fields ==> r == JNull
  {
    if key in fields then fields[key] else JNull
  }

  function DigitChar(d: nat): (c: char)
    requires d < 10
    ensures '0' <= c <= '9'
  {
    "0123456789"[d]
  }

  /** The decimal digits of `n`, most significant first. */
  function Decimal(n: nat): (r: string)
    ensures 1 <= |r|
    ensures forall k :: 0 <= k < |r| ==> '0' <= r[k] <= '9'
  {
    if n < 10 then [DigitChar(n)] else Decimal(n / 10) + [DigitChar(n % 10)]
  }

  /** Python's `str`, as an f-string applies it. A list or a dict is shown
      only by its brackets. */
  function Str(j: Json): (r: string)
    ensures j.JStr? ==> r == j.s
    ensures j.JInt? ==> 1 <= |r| && (r[0] == '-' <==> j.i < 0)
  {
    match j
    case JNull => "None"
    case JBool(b) => if b then "True" else "False"
    case JInt(i) => if i < 0 then "-" + Decimal(-i) else Decimal(i)
    case JStr(s) => s
    case JList(_) => "[...]"
    case JObject(_) => "{...}"
  }
}
