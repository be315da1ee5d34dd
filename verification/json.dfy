/** Python exceptions raised by the modelled code, as values. */
module Exceptions {

  datatype Error =
    | HttpError(status: int, message: string)      // requests.HTTPError
    | RequestException(message: string)            // requests.RequestException
    | ValueError(message: string)
    | KeyError(key: string)
    | TypeError(message: string)
    | AttributeError(name: string)
    | IndexError
    | ValidationError(errors: seq<(string, string)>) // django ValidationError built from a dict
    | IntegrityError(message: string)              // a database constraint refused a row
}

/** JSON documents as the Python code sees them (`dict`, `list`, `str`, `int`,
    `bool`, `None`), with dictionaries kept in insertion order, and the
    subscripting, `in`, `.get` and `.append` operations the code applies to them. */
module Json {
  import opened Wrappers
  import opened Dict
  import opened Strings
  import opened Exceptions

  datatype Json =
    | JNull
    | JBool(b: bool)
    | JInt(i: int)
    | JStr(s: string)
    | JArr(items: seq<Json>)
    | JObj(fields: Assoc<Json>)

  function TypeName(j: Json): string {
    match j
    case JNull => "NoneType"
    case JBool(_) => "bool"
    case JInt(_) => "int"
    case JStr(_) => "str"
    case JArr(_) => "list"
    case JObj(_) => "dict"
  }

  /** Python truthiness, `bool(j)`. */
  predicate Truthy(j: Json) {
    match j
    case JNull => false
    case JBool(b) => b
    case JInt(i) => i != 0
    case JStr(s) => |s| > 0
    case JArr(items) => |items| > 0
    case JObj(fields) => |fields| > 0
  }

  /** `j[key]` with a string key. */
  function Index(j: Json, key: string): (r: Result<Json, Error>)
    ensures r.Ok? <==> j.JObj? && HasKey(j.fields, key)
    ensures r.Ok? ==> Get(j.fields, key) == Some(r.value)
    ensures j.JObj? && !HasKey(j.fields, key) ==> r == Err(KeyError(key))
  {
    match j
    case JObj(fields) =>
      (match Get(fields, key)
       case Some(v) => Ok(v)
       case None => Err(KeyError(key)))
    case JArr(_) => Err(TypeError("list indices must be integers or slices, not str"))
    case JStr(_) => Err(TypeError("string indices must be integers"))
    case _ => Err(TypeError("'" + TypeName(j) + "' object is not subscriptable"))
  }

  /** `j.get(key)`: only dictionaries have it. */
  function GetKey(j: Json, key: string): (r: Result<Option<Json>, Error>)
    ensures r.Ok? <==> j.JObj?
    ensures r.Ok? ==> r.value == Get(j.fields, key)
  {
    if j.JObj? then Ok(Get(j.fields, key)) else Err(AttributeError("get"))
  }

  /** `key in j` for a string `key`. */
  function Contains(j: Json, key: string): (r: Result<bool, Error>)
    ensures j.JObj? ==> r == Ok(HasKey(j.fields, key))
    ensures r.Err? <==> !(j.JObj? || j.JArr? || j.JStr?)
  {
    match j
    case JObj(fields) => Ok(HasKey(fields, key))
    case JArr(items) => Ok(JStr(key) in items)
    case JStr(s) => Ok(IsSubstring(key, s))
    case _ => Err(TypeError("argument of type '" + TypeName(j) + "' is not iterable"))
  }

  /** `j.append(item)`: only lists have it. */
  function AppendTo(j: Json, item: Json): (r: Result<Json, Error>)
    ensures r.Ok? <==> j.JArr?
    ensures r.Ok? ==> r.value == JArr(j.items + [item])
  {
    if j.JArr? then Ok(JArr(j.items + [item])) else Err(AttributeError("append"))
  }

  /** A one-key dictionary `{k: v}`. */
  function Single(k: string, v: Json): Json {
    JObj([(k, v)])
  }

  /** An `Optional[str]` field: `None` or the string. */
  function OptStr(o: Option<string>): (r: Json)
    ensures r == JNull <==> o.None?
  {
    if o.Some? then JStr(o.value) else JNull
  }

  /** An `Optional[int]` field. */
  function OptInt(o: Option<int>): (r: Json)
    ensures r == JNull <==> o.None?
  {
    if o.Some? then JInt(o.value) else JNull
  }

  /** A list of strings. */
  function StrArr(xs: seq<string>): (r: Json)
    ensures r.JArr? && |r.items| == |xs|
    ensures forall i :: 0 <= i < |xs| ==> r.items[i] == JStr(xs[i])
  {
    JArr(seq(|xs|, i requires 0 <= i < |xs| => JStr(xs[i])))
  }

  /** An `Optional[List[str]]`. */
  function OptStrArr(o: Option<seq<string>>): (r: Json)
    ensures r == JNull <==> o.None?
  {
    if o.Some? then StrArr(o.value) else JNull
  }

  /** A `Dict[str, str]`. */
  function StrObj(d: Assoc<string>): (r: Json)
    ensures r.JObj? && Keys(r.fields) == Keys(d)
  {
    JObj(seq(|d|, i requires 0 <= i < |d| => (d[i].0, JStr(d[i].1))))
  }

  /** An `Optional[Dict[str, str]]` field. */
  function OptStrObj(o: Option<Assoc<string>>): (r: Json)
    ensures r == JNull <==> o.None?
  {
    if o.Some? then StrObj(o.value) else JNull
  }

  /** The items a `for` loop visits: a list's items, a dictionary's keys, a string's
      characters; anything else is not iterable. */
  function Iterate(j: Json): (r: Result<seq<Json>, Error>)
    ensures r.Err? <==> !(j.JArr? || j.JObj? || j.JStr?)
    ensures j.JArr? ==> r == Ok(j.items)
    ensures j.JObj? ==> r.Ok? && |r.value| == |j.fields| && forall i :: 0 <= i < |j.fields| ==> r.value[i] == JStr(j.fields[i].0)
    ensures j.JStr? ==> r.Ok? && |r.value| == |j.s| && forall i :: 0 <= i < |j.s| ==> r.value[i] == JStr([j.s[i]])
  {
    match j
    case JArr(items) => Ok(items)
    case JObj(fields) => Ok(seq(|fields|, i requires 0 <= i < |fields| => JStr(fields[i].0)))
    case JStr(s) => Ok(seq(|s|, i requires 0 <= i < |s| => JStr([s[i]])))
    case _ => Err(TypeError("'" + TypeName(j) + "' object is not iterable"))
  }

  /** `d.copy()`: only dictionaries and lists have it; the copy is shallow. */
  function Copy(j: Json): (r: Result<Json, Error>)
    ensures r.Ok? <==> j.JObj? || j.JArr?
    ensures r.Ok? ==> r.value == j
  {
    if j.JObj? || j.JArr? then Ok(j) else Err(AttributeError("copy"))
  }

  /** `j[i]` with an integer index: lists and strings count negative indices from the end. */
  function At(j: Json, i: int): (r: Result<Json, Error>)
    ensures r.Ok? <==> (j.JArr? && -|j.items| <= i < |j.items|) || (j.JStr? && -|j.s| <= i < |j.s|)
    ensures j.JArr? && 0 <= i < |j.items| ==> r == Ok(j.items[i])
    ensures j.JArr? && -|j.items| <= i < 0 ==> r == Ok(j.items[|j.items| + i])
  {
    match j
    case JArr(items) =>
      if 0 <= i < |items| then Ok(items[i])
      else if -|items| <= i < 0 then Ok(items[|items| + i])
      else Err(IndexError)
    case JStr(s) =>
      if 0 <= i < |s| then Ok(JStr([s[i]]))
      else if -|s| <= i < 0 then Ok(JStr([s[|s| + i]]))
      else Err(IndexError)
    case JObj(_) => Err(KeyError(IntToString(i)))
    case _ => Err(TypeError("'" + TypeName(j) + "' object is not subscriptable"))
  }

  /** `j[key] = v` with a string key: only a dictionary takes it, keeping its other keys. */
  function SetItem(j: Json, key: string, v: Json): (r: Result<Json, Error>)
    ensures r.Ok? <==> j.JObj?
    ensures r.Ok? ==> r.value.JObj? && Get(r.value.fields, key) == Some(v)
                      && forall k :: k != key ==> Get(r.value.fields, k) == Get(j.fields, k)
  {
    match j
    case JObj(fields) => Ok(JObj(Put(fields, key, v)))
    case JArr(_) => Err(TypeError("list indices must be integers or slices, not str"))
    case _ => Err(TypeError("'" + TypeName(j) + "' object does not support item assignment"))
  }

  /** `repr(j)`: strings quoted, containers written out with their items' `repr`. */
  function Repr(j: Json): string
    decreases j
  {
    match j
    case JNull => "None"
    case JBool(b) => if b then "True" else "False"
    case JInt(i) => IntToString(i)
    case JStr(s) => "'" + s + "'"
    case JArr(items) => "[" + ReprItems(items) + "]"
    case JObj(fields) => "{" + ReprFields(fields) + "}"
  }

  /** The items of a list, separated by `", "`. */
  function ReprItems(items: seq<Json>): string
    decreases items
  {
    if |items| == 0 then ""
    else Repr(items[0]) + (if |items| == 1 then "" else ", " + ReprItems(items[1..]))
  }

  /** The entries of a dictionary, `'key': value`, separated by `", "`. */
  function ReprFields(fields: Assoc<Json>): string
    decreases fields
  {
    if |fields| == 0 then ""
    else
      assert fields[0].1 < fields[0];
      "'" + fields[0].0 + "': " + Repr(fields[0].1) + (if |fields| == 1 then "" else ", " + ReprFields(fields[1..]))
  }

  /** `str(j)`: a string is itself; anything else is its `repr`. */
  function Str(j: Json): (r: string)
    ensures j.JStr? ==> r == j.s
    ensures j.JInt? ==> r == IntToString(j.i)
  {
    if j.JStr? then j.s else Repr(j)
  }
}
