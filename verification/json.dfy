/** A parsed JSON document, as the map loader reads it. Objects are keyed
    maps (each key once); integers and floats are distinct kinds, so a value
    written `16.0` is not an integer. */
module Json {

  datatype Json =
    | JNull
    | JBool(b: bool)
    | JInt(i: int)
    | JFloat(f: real)
    | JString(s: string)
    | JArray(elems: seq<Json>)
    | JObject(fields: map<string, Json>)

  /** `j.contains(key) && j[key].is_number_integer()`; `contains` is false on
      anything but an object. */
  predicate HasInt(j: Json, key: string) {
    j.JObject? && key in j.fields && j.fields[key].JInt?
  }

  predicate HasString(j: Json, key: string) {
    j.JObject? && key in j.fields && j.fields[key].JString?
  }

  predicate HasArray(j: Json, key: string) {
    j.JObject? && key in j.fields && j.fields[key].JArray?
  }

  function IntAt(j: Json, key: string): int
    requires HasInt(j, key)
  {
    j.fields[key].i
  }

  function StringAt(j: Json, key: string): string
    requires HasString(j, key)
  {
    j.fields[key].s
  }

  /** The elements a range-for over `j[key]` visits when the code first checks
      `is_array()`, and nothing when that check fails. */
  function ArrayAt(j: Json, key: string): seq<Json> {
    if HasArray(j, key) then j.fields[key].elems else []
  }
}
