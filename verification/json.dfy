/** JSON documents as the adapter reads them through rapidjson: objects keep
    their members in document order (duplicates included), and every member
    lookup finds the FIRST member with the requested name. Parsing and
    writing are not modelled; a fetch yields a `Response`. */
module Json {
  import opened Common
  import Int32

  datatype Json =
    | JNull
    | JBool(b: bool)
    | JInt(n: int)             // a number written without fraction or exponent
    | JReal(literal: string)   // any other number
    | JString(s: string)
    | JArray(items: seq<Json>)
    | JObject(members: seq<(string, Json)>)

  /** What an HTTP GET followed by a JSON parse gives the adapter: an empty
      body, a body that does not parse, or a document. */
  datatype Response = NoResponse | Unparseable | Parsed(doc: Json)

  /** The value of the first member named `key`. */
  function Lookup(members: seq<(string, Json)>, key: string): (r: Option<Json>)
    ensures r.None? <==> forall i :: 0 <= i < |members| ==> members[i].0 != key
    ensures r.Some? ==> exists i :: 0 <= i < |members| && members[i] == (key, r.value)
                          && forall k :: 0 <= k < i ==> members[k].0 != key
  {
    if |members| == 0 then None
    else if members[0].0 == key then Some(members[0].1)
    else Lookup(members[1..], key)
  }

  /** `HasMember(key)` followed by `[key]`. A lookup on a value that is not
      an object finds nothing. */
  function Get(j: Json, key: string): Option<Json> {
    if j.JObject? then Lookup(j.members, key) else None
  }

  /** The member as a `std::string`, when `IsString()` holds of it. */
  function GetString(j: Json, key: string): Option<string> {
    match Get(j, key)
    case Some(JString(s)) => Some(CString(s))
    case _ => None
  }

  /** The member's value when `IsInt()` holds of it: an integer that fits a
      32-bit `int`. */
  function GetInt(j: Json, key: string): Option<int> {
    match Get(j, key)
    case Some(JInt(n)) => if Int32.InRange(n) then Some(n) else None
    case _ => None
  }

  function GetBool(j: Json, key: string): Option<bool> {
    match Get(j, key)
    case Some(JBool(b)) => Some(b)
    case _ => None
  }

  function GetArray(j: Json, key: string): Option<seq<Json>> {
    match Get(j, key)
    case Some(JArray(items)) => Some(items)
    case _ => None
  }

  function GetObject(j: Json, key: string): Option<seq<(string, Json)>> {
    match Get(j, key)
    case Some(JObject(members)) => Some(members)
    case _ => None
  }

  /** The string member, or `default` when it is absent or not a string. */
  function StringOr(j: Json, key: string, default: string): string {
    match GetString(j, key)
    case Some(s) => s
    case None => default
  }

  /** `value` is what a field read from member `key` holds: the member's C
      string when the member is a string, else `default`. */
  predicate StringMember(j: Json, key: string, default: string, value: string) {
    match Get(j, key)
    case Some(JString(v)) => value == CString(v)
    case _ => value == default
  }

  /** `StringOr` reads a field as `StringMember` describes it. */
  lemma StringOrMember(j: Json, key: string, default: string)
    ensures StringMember(j, key, default, StringOr(j, key, default))
  {
  }

  /** The boolean member, or `default` when it is absent or not a boolean. */
  function BoolOr(j: Json, key: string, default: bool): bool {
    match GetBool(j, key)
    case Some(b) => b
    case None => default
  }

  /** A boolean field leaves its default only when the member is the
      opposite boolean. */
  lemma BoolOrMember(j: Json, key: string, default: bool)
    ensures default ==> (BoolOr(j, key, default) <==> Get(j, key) != Some(JBool(false)))
    ensures !default ==> (BoolOr(j, key, default) <==> Get(j, key) == Some(JBool(true)))
  {
  }
}
