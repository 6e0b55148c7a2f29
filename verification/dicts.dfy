/** The JSON-shaped values that the Python code keeps in `Dict[str, Any]` fields
    and produces with `to_dict` / `model_dump`. */
module Dicts {

  datatype Json =
    | JNull
    | JBool(b: bool)
    | JInt(i: int)
    | JNum(r: real)
    | JStr(s: string)
    | JArr(items: seq<Json>)
    | JObj(fields: map<string, Json>)

  /** A Python `dict` with string keys. */
  type Dict = map<string, Json>
}
