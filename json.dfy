/** JSON values as the configuration file holds them, and the abstract outcome
    of locating and parsing that file. */
module Json {

  /** A JSON value. Numbers are kept as integers: the configuration never
      stores any, and their exact representation plays no role here. */
  datatype JValue =
    | JNull
    | JBool(b: bool)
    | JNumber(n: int)
    | JString(s: string)
    | JArray(items: seq<JValue>)
    | JObject(fields: map<string, JValue>)

  /** A top-level JSON object, i.e. the Python dict `json.load` returns. */
  type Object = map<string, JValue>

  /** What the file system and the JSON parser deliver: no file at the path,
      a file whose contents are not valid JSON, or a parsed object. */
  datatype ParseResult = NoFile | BadJson | Parsed(obj: Object)
}
