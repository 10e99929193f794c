/** JSON values with their object members in order, over any strings `S` and numbers `N`. */
module Json {
  datatype Json<S, N> =
    | Null
    | Bool(flag: bool)
    | Num(number: N)
    | Str(text: S)
    | Arr(items: seq<Json<S, N>>)
    | Obj(fields: seq<Field<S, Json<S, N>>>)

  datatype Field<K, V> = Field(key: K, value: V)

  ghost predicate UniqueKeys<K, V>(fields: seq<Field<K, V>>) {
    forall i, j :: 0 <= i < j < |fields| ==> fields[i].key != fields[j].key
  }
}
