/** Decoded JSON bodies, and what Python's `in` operator and `[]` subscript do
    on the objects `response.json()` produces (dict, list, str, int, float,
    bool, None). */
module JsonValues {
  import opened Outcomes

  datatype Json =
    | JNull
    | JBool(b: bool)
    | JInt(i: int)
    | JFloat(f: real)
    | JString(s: string)
    | JArray(items: seq<Json>)
    | JObject(fields: map<string, Json>)

  /** Python's `needle in hay` on two strings: a substring test. */
  function IsSubstring(needle: string, hay: string): (r: bool)
    ensures r <==> exists i :: 0 <= i <= |hay| && needle <= hay[i..]
    decreases |hay|
  {
    if needle <= hay then assert hay[0..] == hay; true
    else if hay == [] then false
    else
      var r := IsSubstring(needle, hay[1..]);
      assert forall i :: 1 <= i <= |hay| ==> hay[1..][i - 1..] == hay[i..];
      r
  }

  /** Python's `key in container` for a decoded JSON value: key membership
      for a dict, element equality for a list, a substring test for a str,
      and a TypeError for None, bool and numbers, which are not iterable. */
  function Contains(container: Json, key: string): Outcome<bool>
  {
    match container
    case JObject(fields) => Return(key in fields)
    case JArray(items) => Return(JString(key) in items)
    case JString(s) => Return(IsSubstring(key, s))
    case _ => Raise(TypeError)
  }

  /** Python's `container[key]` with a str key: a dict lookup that raises
      KeyError when the key is absent; every other JSON value raises
      TypeError (lists and strings need integer indices, the rest are not
      subscriptable). */
  function Subscript(container: Json, key: string): Outcome<Json>
  {
    match container
    case JObject(fields) => if key in fields then Return(fields[key]) else Raise(KeyError)
    case _ => Raise(TypeError)
  }
}
