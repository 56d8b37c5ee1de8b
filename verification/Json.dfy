/** JSON values and the field lookups that a derived deserializer makes. */
module Json {
  import opened Wrappers

  datatype Json = Num(num: int) | Str(str: string) | List(items: seq<Json>) | Object(fields: map<string, Json>)

  function StrField(j: Json, name: string): Option<string> {
    if j.Object? && name in j.fields && j.fields[name].Str? then Some(j.fields[name].str) else None
  }

  function NumField(j: Json, name: string): Option<int> {
    if j.Object? && name in j.fields && j.fields[name].Num? then Some(j.fields[name].num) else None
  }
}
