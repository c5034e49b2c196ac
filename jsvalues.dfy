/**
 * JavaScript values shared by the creational examples: plain objects used as
 * string dictionaries (`Record<string, string>`), which are passed around by
 * reference, and JSON-shaped payloads.
 */
module JsValues {

  /** A JSON value, as a request body holds it. */
  datatype Json =
    | JNull
    | JBool(b: bool)
    | JNumber(n: int)
    | JString(s: string)
    | JArray(items: seq<Json>)
    | JObject(fields: seq<(string, Json)>)

  /** A plain object `{}` used as a string-to-string dictionary; aliases see each other's updates. */
  class Record {
    var entries: map<string, string>

    constructor (entries: map<string, string>)
      ensures this.entries == entries
    {
      this.entries := entries;
    }

    /** `record[key] = value`: set one key, overwriting any earlier value. */
    method Set(key: string, value: string)
      modifies this
      ensures entries == old(entries)[key := value]
    {
      entries := entries[key := value];
    }
  }

  /** A JavaScript object holding a JSON value; two boxes are distinct objects even when their values are equal. */
  class JsonBox {
    var value: Json

    constructor (value: Json)
      ensures this.value == value
    {
      this.value := value;
    }
  }
}
