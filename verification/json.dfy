/** JSON values as Python's `json` module decodes them (numbers other than
    integers are not modelled). Objects are dictionaries keyed by strings. */
module Json {

  datatype Json =
    | JNull
    | JBool(b: bool)
    | JInt(i: int)
    | JStr(s: string)
    | JList(items: seq<Json>)
    | JObj(fields: map<string, Json>)
}
