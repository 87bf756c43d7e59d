/**
  The face-shape rule table (FACE_SHAPE_CRITERIA) and the recommendation map
  (HAIRSTYLE_RECOMMENDATIONS) that the classifier and the recommender read.
  Their contents are configuration, so the model works over any table: an
  ordered sequence of named entries, in the dictionary's insertion order,
  which is the order the classifier tries them in.
*/
module Config {

  datatype Option<T> = None | Some(value: T)

  /** The shape every unmatched ratio set and every unknown key falls back to. */
  const Oval: string := "OVAL"

  /** An inclusive interval [low, high], a two-element list in the table. */
  datatype Range = Range(low: real, high: real) {
    predicate Contains(x: real) {
      low <= x <= high
    }
  }

  /** The per-shape record: one range per ratio and a human-readable description. */
  datatype Criteria = Criteria(
    widthToLength: Range,
    foreheadToJawline: Range,
    cheekboneToJawline: Range,
    description: string)

  datatype Entry = Entry(name: string, criteria: Criteria)

  /** FACE_SHAPE_CRITERIA, as its items in iteration order. */
  type Table = seq<Entry>

  /** HAIRSTYLE_RECOMMENDATIONS: shape name to its ordered list of hairstyles. */
  type Recommendations = map<string, seq<string>>

  function Keys(table: Table): set<string> {
    set e | e in table :: e.name
  }

  /** A Python dictionary never holds the same key twice. */
  predicate DistinctNames(table: Table) {
    forall i, j :: 0 <= i < j < |table| ==> table[i].name != table[j].name
  }

  /** Dictionary indexing `table[name]`: None where Python raises KeyError. */
  function Find(table: Table, name: string): (r: Option<Criteria>)
    ensures r.Some? <==> name in Keys(table)
    ensures r.Some? ==> Entry(name, r.value) in table
    ensures DistinctNames(table) ==>
      forall i :: 0 <= i < |table| && table[i].name == name ==> r == Some(table[i].criteria)
  {
    if table == [] then None
    else if table[0].name == name then Some(table[0].criteria)
    else
      assert Keys(table) == {table[0].name} + Keys(table[1..]) by {
        assert table == [table[0]] + table[1..];
      }
      Find(table[1..], name)
  }
}
