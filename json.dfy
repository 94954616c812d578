/** JSON values as the relay sends and receives them. An object is a map from member
    names to values (member order carries no meaning); a number is kept as its literal,
    since the relay does no arithmetic on any number it sends. */
module Json {
  import opened Wrappers

  datatype Json =
    | JNull
    | JBool(b: bool)
    | JNumber(literal: string)
    | JString(s: string)
    | JArray(items: seq<Json>)
    | JObject(fields: map<string, Json>)

  /** The member `key` of an object, or None when `j` is not an object or has no such member. */
  function Field(j: Json, key: string): (r: Option<Json>)
    ensures r.Some? <==> j.JObject? && key in j.fields
  {
    if j.JObject? && key in j.fields then Some(j.fields[key]) else None
  }

  /** A member that must be present and hold a string. */
  function StringField(j: Json, key: string): Option<string>
  {
    match Field(j, key)
    case Some(JString(s)) => Some(s)
    case _ => None
  }

  /** A member that may be absent (Some(None)); when present it must hold a string. */
  function OptionalStringField(j: Json, key: string): Option<Option<string>>
  {
    match Field(j, key)
    case None => Some(None)
    case Some(JString(s)) => Some(Some(s))
    case Some(_) => None
  }

  /** A member that may be absent (Some(None)); when present it must hold a boolean. */
  function OptionalBoolField(j: Json, key: string): Option<Option<bool>>
  {
    match Field(j, key)
    case None => Some(None)
    case Some(JBool(b)) => Some(Some(b))
    case Some(_) => None
  }

  /** The JSON array of the given strings, in order. */
  function StringItems(ss: seq<string>): (r: seq<Json>)
    ensures |r| == |ss|
  {
    if ss == [] then [] else [JString(ss[0])] + StringItems(ss[1..])
  }

  lemma StringItemsSingleton(s: string)
    ensures StringItems([s]) == [JString(s)]
  {
    assert [s][1..] == [];
  }

  /** The strings of a JSON array all of whose items are strings. */
  function ParseStringItems(items: seq<Json>): Option<seq<string>>
  {
    if items == [] then Some([])
    else if items[0].JString? then
      var rest :- ParseStringItems(items[1..]);
      Some([items[0].s] + rest)
    else None
  }

  /** A member that must be present and hold an array of strings. */
  function StringArrayField(j: Json, key: string): Option<seq<string>>
  {
    match Field(j, key)
    case Some(JArray(items)) => ParseStringItems(items)
    case _ => None
  }

  lemma {:induction false} StringItemsRoundTrip(ss: seq<string>)
    ensures ParseStringItems(StringItems(ss)) == Some(ss)
  {
    if ss != [] {
      var items := StringItems(ss);
      assert items[1..] == StringItems(ss[1..]);
      StringItemsRoundTrip(ss[1..]);
      assert [ss[0]] + ss[1..] == ss;
    }
  }
}
