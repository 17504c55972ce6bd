/** Decoded JSON values and the accessors the gateway reads them with.

Go's `nil` and a JSON null are the same thing to every accessor, so both are `Null`, and a
missing object is the empty map. Decoding itself, white-space trimming, lower-casing and the
printing of a non-string tool index are library calls: they are the fields of `Host`, and every
result in this project holds for all of them. */
module Json {
  import opened Common

  datatype Value =
    | Null
    | Bool(b: bool)
    | Number(n: real)
    | Str(s: string)
    | Array(items: seq<Value>)
    | Object(fields: map<string, Value>)

  type Fields = map<string, Value>

  datatype Host = Host(
    trim: string -> string,
    lower: string -> string,
    show: Value -> string,
    decode: string -> Option<Fields>)

  function AnyAt(v: Value, path: seq<string>): Value {
    if path == [] then v
    else if v.Object? && path[0] in v.fields then AnyAt(v.fields[path[0]], path[1..])
    else Null
  }

  function AsObject(v: Value): Fields {
    if v.Object? then v.fields else map[]
  }

  function MapAt(o: Fields, path: seq<string>): Fields {
    AsObject(AnyAt(Object(o), path))
  }

  function SliceAt(o: Fields, path: seq<string>): seq<Value> {
    var v := AnyAt(Object(o), path);
    if v.Array? then v.items else []
  }

  function StringAt(o: Fields, path: seq<string>): string {
    var v := AnyAt(Object(o), path);
    if v.Str? then v.s else ""
  }

  /** A JSON number read as an integer: Go's float-to-int conversion truncates toward zero. */
  function IntAt(o: Fields, path: seq<string>): int {
    var v := AnyAt(Object(o), path);
    if v.Number? then Truncate(v.n) else 0
  }

  function Truncate(r: real): int {
    if r >= 0.0 then r.Floor else -(-r).Floor
  }

  /** First argument that is non-blank after trimming, trimmed. */
  function FirstString(h: Host, values: seq<string>): string {
    if values == [] then ""
    else if h.trim(values[0]) != "" then h.trim(values[0])
    else FirstString(h, values[1..])
  }
}
