/**
 Parsed JSON values. Structural equality `==` stands for Go's reflect.DeepEqual
 on values that came out of json.Unmarshal.
 */
module Json {
  datatype Json =
    | Null
    | Bool(b: bool)
    | Number(n: real)
    | Str(s: string)
    | Arr(items: seq<Json>)
    | Obj(fields: map<string, Json>)

  /** `obj[key]` on a value of unknown shape: Null when it is no object or has no such key. */
  function Field(j: Json, key: string): Json {
    if j.Obj? && key in j.fields then j.fields[key] else Null
  }

  /** `v.(string)` with the zero value on a failed assertion. */
  function TextOf(j: Json): string {
    if j.Str? then j.s else ""
  }

  /** ReplayMessageRole: the role string of a message, "" when it has none. */
  function RoleOf(m: Json): string {
    TextOf(Field(m, "role"))
  }

  function BlockType(block: Json): string {
    TextOf(Field(block, "type"))
  }
}
