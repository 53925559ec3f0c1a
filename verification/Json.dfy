/** JSON values as the converters see them through cJSON. Numbers are exact reals. */
module Json {
  import opened Common

  /** `Raw` is text that cJSON prints verbatim (`cJSON_AddRawToObject`); parsing never yields it. */
  datatype Json =
    | Null
    | Bool(flag: bool)
    | Number(value: real)
    | String(text: string)
    | Array(items: seq<Json>)
    | Object(members: seq<(string, Json)>)
    | Raw(text: string)

  const SAFE_INTEGER_MAX: int := 9007199254740991

  /** `item_to_integer`: a number in `min..max` without a fraction. */
  function ItemToInteger(item: Json, min: int, max: int): (r: Option<int>)
    ensures r.Some? ==> item == Number(r.value as real) && min <= r.value <= max
  {
    if item.Number? && min as real <= item.value <= max as real && item.value.Floor as real == item.value
    then Some(item.value.Floor) else None
  }

  /** `cJSON_GetObjectItemCaseSensitive`: the first member with this key. */
  function Lookup(members: seq<(string, Json)>, key: string): (r: Option<Json>)
    ensures r.Some? <==> exists i :: 0 <= i < |members| && members[i].0 == key
  {
    if members == [] then None
    else if members[0].0 == key then Some(members[0].1)
    else Lookup(members[1..], key)
  }

  /** The value found is the one of the member with this key that has none of the key before it. */
  lemma {:induction false} LookupFindsFirst(members: seq<(string, Json)>, key: string, i: nat)
    requires i < |members| && members[i].0 == key && forall j :: 0 <= j < i ==> members[j].0 != key
    ensures Lookup(members, key) == Some(members[i].1)
  {
    if i > 0 { LookupFindsFirst(members[1..], key, i - 1); }
  }

  /** `get_item`: a member that is present and not null. */
  function GetItem(json: Json, key: string): (r: Option<Json>) {
    if !json.Object? then None
    else match Lookup(json.members, key)
      case Some(Null) => None
      case found => found
  }
}
