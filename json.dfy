/** Decoded JSON payloads, as produced by `resp.json()`, and the parts of
    Python's `in`, subscript and `dict.get` that the transforms rely on. */
module Json {
  import opened Wrappers

  /** A decoded JSON value. An object keeps its members in document order,
      as the Python dict built by the decoder does; its keys are distinct.
      Numbers are mathematical reals: floating point is not modelled. */
  datatype Json =
    | JNull
    | JBool(b: bool)
    | JNum(n: real)
    | JStr(s: string)
    | JArr(items: seq<Json>)
    | JObj(members: seq<(string, Json)>)

  /** The value stored under `key`, as `d.get(key)` on a dict. */
  function Find(members: seq<(string, Json)>, key: string): (r: Option<Json>)
    ensures r.None? <==> forall i :: 0 <= i < |members| ==> members[i].0 != key
    ensures r.Some? ==> exists i :: 0 <= i < |members| && members[i] == (key, r.value)
  {
    if members == [] then None
    else if members[0].0 == key then Some(members[0].1)
    else
      var r := Find(members[1..], key);
      assert forall i :: 1 <= i < |members| ==> members[i] == members[1..][i - 1];
      r
  }

  /** `sub` occurs in `s` as a contiguous run: Python's `sub in s` on strings. */
  predicate IsSubstring(sub: string, s: string)
    decreases |s|
  {
    sub <= s || (|s| > 0 && IsSubstring(sub, s[1..]))
  }

  /** Python's `key in x` for a decoded value `x`; `None` when Python raises
      TypeError because `x` (null, a boolean or a number) is not a container. */
  function KeyIn(x: Json, key: string): (r: Option<bool>)
    ensures r.None? <==> x.JNull? || x.JBool? || x.JNum?
    ensures x.JObj? ==> r == Some(Find(x.members, key).Some?)
  {
    match x
    case JObj(members) => Some(Find(members, key).Some?)
    case JArr(items) => Some(JStr(key) in items)
    case JStr(s) => Some(IsSubstring(key, s))
    case _ => None
  }

  /** What `key in x` followed, when it holds, by `x[key]` yields. */
  datatype Access = Absent | Present(value: Json) | Raises

  /** `key in x` and then `x[key]`: only an object can be subscripted by a
      string, so a string or an array that contains `key` raises at the
      subscript, and a scalar raises at the membership test. */
  function Subscript(x: Json, key: string): (r: Access)
    ensures r.Present? <==> x.JObj? && Find(x.members, key).Some?
    ensures r.Present? ==> Some(r.value) == Find(x.members, key)
    ensures r.Absent? <==> KeyIn(x, key) == Some(false)
  {
    match KeyIn(x, key)
    case None => Raises
    case Some(false) => Absent
    case Some(true) => if x.JObj? then Present(Find(x.members, key).value) else Raises
  }

  /** `d.get(key)` on a dict, where a JSON null reads as Python's None just
      as a missing key does. */
  function GetOrNone(members: seq<(string, Json)>, key: string): (r: Option<Json>)
    ensures r.None? <==> Find(members, key).None? || Find(members, key) == Some(JNull)
    ensures r.Some? ==> Find(members, key) == r && r.value != JNull
  {
    match Find(members, key)
    case Some(JNull) => None
    case other => other
  }
}
