/** Objects built member by member, and the lists that several converters read and print. */
module JsonFields {
  import opened Common
  import opened Json

  /** The members of an object under construction; an absent one is not added. */
  type Fields = seq<(string, Option<Json>)>

  function Members(fields: Fields): (members: seq<(string, Json)>) {
    if fields == [] then []
    else if fields[0].1.Some? then [(fields[0].0, fields[0].1.value)] + Members(fields[1..])
    else Members(fields[1..])
  }

  function Build(fields: Fields): (json: Json) { Object(Members(fields)) }

  predicate DistinctKeys(fields: Fields) { forall i, j :: 0 <= i < j < |fields| ==> fields[i].0 != fields[j].0 }

  lemma {:induction false} LookupAbsent(fields: Fields, key: string)
    requires forall i :: 0 <= i < |fields| ==> fields[i].0 != key
    ensures Lookup(Members(fields), key).None?
  {
    if fields != [] {
      LookupAbsent(fields[1..], key);
      if fields[0].1.Some? { assert Members(fields)[1..] == Members(fields[1..]); }
    }
  }

  lemma {:induction false} LookupMember(fields: Fields, i: nat)
    requires DistinctKeys(fields) && i < |fields|
    ensures Lookup(Members(fields), fields[i].0) == fields[i].1
  {
    if fields[0].1.Some? { assert Members(fields)[1..] == Members(fields[1..]); }
    if i > 0 {
      LookupMember(fields[1..], i - 1);
    } else {
      LookupAbsent(fields[1..], fields[0].0);
    }
  }

  /** What was added under a key is what `get_item` finds there. */
  lemma GetBuilt(fields: Fields, i: nat)
    requires DistinctKeys(fields) && i < |fields| && fields[i].1 != Some(Null)
    ensures GetItem(Build(fields), fields[i].0) == fields[i].1
  {
    LookupMember(fields, i);
  }

  // ---- Converting every entry of a list ----

  /** Converts all entries, or fails with the first entry that cannot be converted. */
  function All<A, B>(convert: A -> Option<B>, xs: seq<A>): (r: Option<seq<B>>)
    ensures r.Some? ==> |r.value| == |xs| && forall i :: 0 <= i < |xs| ==> convert(xs[i]) == Some(r.value[i])
    ensures r.None? ==> exists i :: 0 <= i < |xs| && convert(xs[i]).None?
  {
    if xs == [] then Some([])
    else
      var first, others := convert(xs[0]), All(convert, xs[1..]);
      if first.Some? && others.Some? then Some([first.value] + others.value) else None
  }

  /** The results of a loop that converted every entry. */
  lemma AllIs<A, B>(convert: A -> Option<B>, xs: seq<A>, ys: seq<B>)
    requires |ys| == |xs| && forall i :: 0 <= i < |xs| ==> convert(xs[i]) == Some(ys[i])
    ensures All(convert, xs) == Some(ys)
  {
    assert All(convert, xs).Some? ==> All(convert, xs).value == ys;
  }

  predicate Survives<A(==), B>(write: A -> Option<B>, read: B -> Option<A>, x: A) {
    write(x).Some? && read(write(x).value) == Some(x)
  }

  /** A list of entries that survive printing and reading survives as a whole. */
  lemma AllInverse<A, B>(write: A -> Option<B>, read: B -> Option<A>, xs: seq<A>)
    requires forall i :: 0 <= i < |xs| ==> Survives(write, read, xs[i])
    ensures All(write, xs).Some? && All(read, All(write, xs).value) == Some(xs)
  {
    var ys := All(write, xs).value;
    forall i | 0 <= i < |xs| ensures read(ys[i]) == Some(xs[i]) { assert Survives(write, read, xs[i]); }
    assert All(read, ys).value == xs;
  }
}
