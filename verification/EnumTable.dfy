/** The tables of enumeration names and the two searches through them. */
module EnumTable {
  import opened Common

  type Table = seq<(int, string)>

  predicate Distinct(table: Table) {
    forall i, j :: 0 <= i < j < |table| ==> table[i].0 != table[j].0 && table[i].1 != table[j].1
  }

  function NameOf(table: Table, value: int): (r: Option<string>) {
    if table == [] then None else if table[0].0 == value then Some(table[0].1) else NameOf(table[1..], value)
  }

  function ValueOf(table: Table, name: string): (r: Option<int>) {
    if table == [] then None else if table[0].1 == name then Some(table[0].0) else ValueOf(table[1..], name)
  }

  /** `enum_to_name`. */
  method EnumToName(table: Table, value: int) returns (r: Option<string>)
    ensures r == NameOf(table, value)
  {
    var i := 0;
    while i < |table|
      invariant 0 <= i <= |table| && NameOf(table[i..], value) == NameOf(table, value)
    {
      if table[i].0 == value {
        return Some(table[i].1);
      }
      i := i + 1;
    }
    return None;
  }

  /** The search of `item_to_enum`. */
  method NameToEnum(table: Table, name: string) returns (r: Option<int>)
    ensures r == ValueOf(table, name)
  {
    var i := 0;
    while i < |table|
      invariant 0 <= i <= |table| && ValueOf(table[i..], name) == ValueOf(table, name)
    {
      if table[i].1 == name {
        return Some(table[i].0);
      }
      i := i + 1;
    }
    return None;
  }

  lemma {:induction false} NameOfMember(table: Table, i: nat)
    requires Distinct(table) && i < |table|
    ensures NameOf(table, table[i].0) == Some(table[i].1) && ValueOf(table, table[i].1) == Some(table[i].0)
  {
    if i > 0 { NameOfMember(table[1..], i - 1); }
  }

  lemma {:induction false} NameOfFinds(table: Table, value: int) returns (i: nat)
    requires NameOf(table, value).Some?
    ensures i < |table| && table[i] == (value, NameOf(table, value).value)
  {
    if table[0].0 == value {
      i := 0;
    } else {
      i := NameOfFinds(table[1..], value);
      i := i + 1;
    }
  }

  lemma {:induction false} ValueOfFinds(table: Table, name: string) returns (i: nat)
    requires ValueOf(table, name).Some?
    ensures i < |table| && table[i] == (ValueOf(table, name).value, name)
  {
    if table[0].1 == name {
      i := 0;
    } else {
      i := ValueOfFinds(table[1..], name);
      i := i + 1;
    }
  }

  /** In a table without repetitions the two searches are inverse to each other. */
  lemma LookupsInverse(table: Table, value: int, name: string)
    requires Distinct(table)
    ensures NameOf(table, value) == Some(name) <==> ValueOf(table, name) == Some(value)
  {
    if NameOf(table, value) == Some(name) {
      var i := NameOfFinds(table, value);
      NameOfMember(table, i);
    }
    if ValueOf(table, name) == Some(value) {
      var i := ValueOfFinds(table, name);
      NameOfMember(table, i);
    }
  }
}
