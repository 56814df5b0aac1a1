/**
 * A Python dictionary: a map together with the order in which its keys were
 * first inserted, which is the order `for k in d` visits them.  Assigning to a
 * present key keeps its place; `del` takes the key out of the order.
 */
module OrderedDict {

  import opened Lists

  /** No element occurs twice. */
  ghost predicate Distinct<K>(s: seq<K>)
  {
    forall i, j :: 0 <= i < j < |s| ==> s[i] != s[j]
  }

  /** `s` without the element `k`; the others keep their order. */
  function Without<K(==,!new)>(s: seq<K>, k: K): (r: seq<K>)
    ensures forall x :: x in r <==> x in s && x != k
    ensures |r| <= |s|
  {
    if s == [] then []
    else (if s[0] == k then [] else [s[0]]) + Without(s[1..], k)
  }

  /** A sequence without `k` comes back as it is. */
  lemma {:induction false} WithoutAbsent<K(!new)>(s: seq<K>, k: K)
    requires k !in s
    ensures Without(s, k) == s
  {
    if s != [] {
      WithoutAbsent(s[1..], k);
    }
  }

  /** The tail of a sequence without repeats has none either, and lacks the head. */
  lemma DistinctTail<K>(s: seq<K>)
    requires Distinct(s) && s != []
    ensures Distinct(s[1..]) && s[0] !in s[1..]
  {
    var tail := s[1..];
    forall i, j | 0 <= i < j < |tail| ensures tail[i] != tail[j] {
      assert tail[i] == s[i + 1] && tail[j] == s[j + 1];
    }
    forall j | 0 <= j < |tail| ensures tail[j] != s[0] {
      assert tail[j] == s[j + 1];
    }
  }

  /** Dropping index `i` of the tail is dropping index `i + 1` of the whole. */
  lemma DropAfterHead<K>(s: seq<K>, i: nat)
    requires i + 1 < |s|
    ensures [s[0]] + (s[1..][..i] + s[1..][i + 1..]) == s[..i + 1] + s[i + 2..]
  {
    assert [s[0]] + s[1..][..i] == s[..i + 1];
    assert s[1..][i + 1..] == s[i + 2..];
  }

  /** From a sequence holding `k` once, only that occurrence goes, as `list.remove(k)` does. */
  lemma {:induction false} WithoutIsRemoveFirst<K(!new)>(s: seq<K>, k: K)
    requires Distinct(s) && k in s
    ensures Without(s, k) == RemoveFirst(s, k)
  {
    var tail := s[1..];
    DistinctTail(s);
    if s[0] == k {
      WithoutAbsent(tail, k);
    } else {
      WithoutIsRemoveFirst(tail, k);
      var i := IndexOf(tail, k);
      assert IndexOf(s, k) == i + 1;
      DropAfterHead(s, i);
    }
  }

  lemma {:induction false} WithoutAppend<K(!new)>(s: seq<K>, t: seq<K>, k: K)
    ensures Without(s + t, k) == Without(s, k) + Without(t, k)
  {
    if s == [] {
      assert s + t == t;
    } else {
      assert (s + t)[0] == s[0] && (s + t)[1..] == s[1..] + t;
      WithoutAppend(s[1..], t, k);
      assert Without(s, k) == (if s[0] == k then [] else [s[0]]) + Without(s[1..], k);
    }
  }

  lemma {:induction false} WithoutKeepsDistinct<K(!new)>(s: seq<K>, k: K)
    requires Distinct(s)
    ensures Distinct(Without(s, k))
  {
    if s != [] {
      WithoutKeepsDistinct(s[1..], k);
      var head := if s[0] == k then [] else [s[0]];
      var r := head + Without(s[1..], k);
      assert s[0] !in s[1..];
      assert s[0] !in Without(s[1..], k);
    }
  }

  datatype Dict<K(==,!new), V> = Dict(order: seq<K>, entries: map<K, V>) {

    /** The order lists every key exactly once. */
    ghost predicate Valid()
    {
      && Distinct(order)
      && (forall k :: k in entries <==> k in order)
    }

    /** `d[k] = v` */
    function Put(k: K, v: V): (d: Dict<K, V>)
      requires Valid()
      ensures d.Valid()
      ensures k in d.entries && d.entries[k] == v
      ensures forall j :: j != k ==> (j in d.entries <==> j in entries)
      ensures forall j :: j != k && j in entries ==> d.entries[j] == entries[j]
      ensures k in entries ==> d.order == order
      ensures k !in entries ==> d.order == order + [k]
    {
      if k in entries then Dict(order, entries[k := v]) else Dict(order + [k], entries[k := v])
    }

    /** `del d[k]`; a missing key raises `KeyError`. */
    function Del(k: K): (d: Dict<K, V>)
      requires Valid() && k in entries
      ensures d.Valid()
      ensures k !in d.entries
      ensures forall j :: j != k ==> (j in d.entries <==> j in entries)
      ensures forall j :: j != k && j in entries ==> d.entries[j] == entries[j]
      ensures d.order == Without(order, k) == RemoveFirst(order, k)
    {
      WithoutKeepsDistinct(order, k);
      WithoutIsRemoveFirst(order, k);
      Dict(Without(order, k), entries - {k})
    }
  }

  /** Inserting a new key and then deleting it gives back the same dictionary, order included. */
  lemma PutThenDelRestores<K(!new), V>(d: Dict<K, V>, k: K, v: V)
    requires d.Valid() && k !in d.entries
    ensures d.Put(k, v).Del(k) == d
  {
    assert k !in d.order;
    WithoutAppend(d.order, [k], k);
    WithoutAbsent(d.order, k);
    assert Without([k], k) == [];
    assert d.Put(k, v).entries - {k} == d.entries;
  }

}
