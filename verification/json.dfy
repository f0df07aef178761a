/** The decoded JSON document the parser walks: `json.loads` output restricted
    to null, booleans, integers, strings, lists and objects. An object keeps
    its members in document order. */
module Json {
  import opened Results
  import opened Text

  datatype Raw =
    | JNull
    | JBool(b: bool)
    | JInt(i: int)
    | JStr(s: string)
    | JList(items: seq<Raw>)
    | JObject(members: seq<Member>)

  datatype Member = Member(key: string, value: Raw)

  /** Python truthiness of a decoded value. */
  predicate Truthy(r: Raw) {
    match r
    case JNull => false
    case JBool(b) => b
    case JInt(i) => i != 0
    case JStr(s) => s != ""
    case JList(items) => |items| > 0
    case JObject(ms) => |ms| > 0
  }

  /** `d.get(key)`: the value of the first member named `key`. A decoded JSON
      object never repeats a key, so the first member is the only one. */
  function Get(ms: seq<Member>, key: string): (r: Option<Raw>)
    ensures r.None? <==> forall i :: 0 <= i < |ms| ==> ms[i].key != key
    ensures r.Some? ==> exists i :: 0 <= i < |ms| && ms[i] == Member(key, r.value)
  {
    if ms == [] then None
    else if ms[0].key == key then Some(ms[0].value)
    else Get(ms[1..], key)
  }

  /** Sizes used as termination measures for the parser. */
  function Size(r: Raw): nat {
    match r
    case JList(items) => 1 + ListSize(items)
    case JObject(ms) => 1 + MembersSize(ms)
    case _ => 1
  }

  function ListSize(rs: seq<Raw>): nat {
    if rs == [] then 0 else 1 + Size(rs[0]) + ListSize(rs[1..])
  }

  function MembersSize(ms: seq<Member>): nat {
    if ms == [] then 0 else 1 + Size(ms[0].value) + MembersSize(ms[1..])
  }

  /** `str(r)` in Python. Strings inside containers are shown with single
      quotes, as `repr` does for strings without quotes or escapes. */
  function PyStr(r: Raw): string {
    match r
    case JNull => "None"
    case JBool(b) => if b then "True" else "False"
    case JInt(i) => IntToString(i)
    case JStr(s) => s
    case JList(items) => "[" + Join(", ", ReprList(items)) + "]"
    case JObject(ms) => "{" + Join(", ", ReprMembers(ms)) + "}"
  }

  function Quote(s: string): string {
    "'" + s + "'"
  }

  function ReprList(rs: seq<Raw>): seq<string> {
    if rs == [] then []
    else [if rs[0].JStr? then Quote(rs[0].s) else PyStr(rs[0])] + ReprList(rs[1..])
  }

  function ReprMembers(ms: seq<Member>): seq<string> {
    if ms == [] then []
    else
      var v := ms[0].value;
      [Quote(ms[0].key) + ": " + (if v.JStr? then Quote(v.s) else PyStr(v))] + ReprMembers(ms[1..])
  }
}
