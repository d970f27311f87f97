/**
 * The values that `json.loads` can hand back, as far as the risk-fusion core
 * looks at them. Parsing itself is not modelled: it is an oracle parameter
 * (see `Classifier.Parser`).
 */
module JsonValue {

  datatype Json =
    | Null
    | Bool(b: bool)
    | Number(n: real)
    | Str(s: string)
    | Array(items: seq<Json>)
    | Object(fields: map<string, Json>)

  /** `d.get(key, default)` on a JSON object. */
  function Get(fields: map<string, Json>, key: string, default: Json): Json
  {
    if key in fields then fields[key] else default
  }
}
