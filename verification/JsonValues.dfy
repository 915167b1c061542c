/** JSON as Python's decoder hands it over. */
module JsonValues {
  import opened Optional

  /**
   `OtherJson` stands for numbers, booleans and null. An object is a dictionary: its items in order, each key once.
   */
  datatype Json = Str(text: string) | List(items: seq<Json>) | Object(entries: seq<Entry>) | OtherJson
  datatype Entry = Entry(key: string, value: Json)

  /** `d.get(key)` */
  function Get(entries: seq<Entry>, key: string): Option<Json> {
    if entries == [] then None
    else if entries[0].key == key then Some(entries[0].value)
    else Get(entries[1..], key)
  }

  predicate HasText(entries: seq<Entry>, key: string) {
    var v := Get(entries, key);
    v.Some? && v.value.Str?
  }
}
