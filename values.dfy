/** Values shared by the bulk payload model and the records DAO model: the
    JSON-like Python values (`Dict[str, Any]` and what it holds) and the usual
    Option/Result wrappers. */
module Values {

  /** A Python value as it travels in a JSON body or an Elasticsearch
      document. Floats are not represented: numbers are integers. */
  datatype Json =
    | JNull
    | JBool(b: bool)
    | JNum(n: int)
    | JStr(s: string)
    | JList(items: seq<Json>)
    | JObj(fields: map<string, Json>)

  /** A Python `Dict[str, Any]`. Key order is not part of the model. */
  type Dict = map<string, Json>

  datatype Option<+T> = None | Some(value: T) {
    function GetOr(default: T): T {
      match this
      case Some(v) => v
      case None => default
    }
  }

  /** The value, or the exception a Python call would raise. */
  datatype Result<+T, +E> = Ok(value: T) | Err(error: E)
}
