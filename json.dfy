/** The decoded JSON tree the resolvers walk (rustc_serialize's `Json`).

    Text parsing is not modelled: every resolver starts from a tree that
    has already been decoded. An object is any sequence of (key, value)
    pairs, visited in sequence order. A rustc_serialize object is a
    `BTreeMap<String, Json>`, whose keys are strictly ascending; that shape
    is the predicate `SortedKeys`, which only the lemmas that need it
    (`GetSorted`, `GlobalPairsAscending`) take as a hypothesis.
 */
module JsonValue {
  import opened Outcomes

  type Fields = seq<(string, Json)>

  datatype Json =
    | Null
    | Boolean(b: bool)
    | Number(n: int)        // I64 / U64: an integer literal
    | Float(x: real)        // F64: a literal with a fraction or exponent
    | String(s: string)
    | Array(items: seq<Json>)
    | Object(fields: Fields)

  /** The order of `String` keys in a `BTreeMap`: lexicographic by code
      point, which is the byte order of their UTF-8 encodings. */
  predicate StrLess(a: string, b: string)
  {
    if a == [] then b != []
    else if b == [] then false
    else if a[0] == b[0] then StrLess(a[1..], b[1..])
    else a[0] < b[0]
  }

  lemma {:induction false} StrLessIrreflexive(a: string)
    ensures !StrLess(a, a)
  {
    if a != [] {
      StrLessIrreflexive(a[1..]);
    }
  }

  predicate SortedKeys(fields: Fields)
  {
    forall i, j | 0 <= i < j < |fields| :: StrLess(fields[i].0, fields[j].0)
  }

  /** `BTreeMap::get`: the value stored under `key`, if any. */
  function Get(fields: Fields, key: string): Option<Json>
  {
    if fields == [] then None
    else if fields[0].0 == key then Some(fields[0].1)
    else Get(fields[1..], key)
  }

  /** With sorted keys, looking a key up finds the pair that holds it. */
  lemma {:induction false} GetSorted(fields: Fields, i: nat)
    requires SortedKeys(fields)
    requires i < |fields|
    ensures Get(fields, fields[i].0) == Some(fields[i].1)
  {
    if i > 0 {
      assert StrLess(fields[0].0, fields[i].0);
      if fields[0].0 == fields[i].0 {
        StrLessIrreflexive(fields[i].0);
      }
      assert fields[1..][i - 1] == fields[i];
      GetSorted(fields[1..], i - 1);
    }
  }

  function AsObject(j: Json): (r: Option<Fields>)
    ensures r.Some? <==> j.Object?
  {
    if j.Object? then Some(j.fields) else None
  }

  function AsArray(j: Json): (r: Option<seq<Json>>)
    ensures r.Some? <==> j.Array?
  {
    if j.Array? then Some(j.items) else None
  }

  function AsString(j: Json): (r: Option<string>)
    ensures r.Some? <==> j.String?
  {
    if j.String? then Some(j.s) else None
  }

  const U64_MAX: int := 0xFFFF_FFFF_FFFF_FFFF

  /** `Json::as_u64`: an integer that fits in 64 unsigned bits. */
  function AsU64(j: Json): (r: Option<nat>)
    ensures r.Some? <==> j.Number? && 0 <= j.n <= U64_MAX
    ensures r.Some? ==> r.value == j.n
  {
    if j.Number? && 0 <= j.n <= U64_MAX then Some(j.n) else None
  }
}
