/** A JavaScript Map with string keys: iteration follows insertion order, writing to a key
    that is present keeps its place, deleting and inserting again moves it to the end. */
module OrderedMap {
  import opened Wrappers

  datatype Map<+V> = Map(keys: seq<string>, vals: map<string, V>)

  ghost predicate Distinct(keys: seq<string>) {
    forall i, j :: 0 <= i < j < |keys| ==> keys[i] != keys[j]
  }

  ghost predicate Valid<V>(m: Map<V>) {
    Distinct(m.keys) && forall k :: k in m.keys <==> k in m.vals
  }

  function Get<V>(m: Map<V>, k: string): Option<V> {
    if k in m.vals then Some(m.vals[k]) else None
  }

  function Put<V>(m: Map<V>, k: string, v: V): Map<V> {
    Map(if k in m.vals then m.keys else m.keys + [k], m.vals[k := v])
  }

  function Without(keys: seq<string>, k: string): seq<string> {
    if keys == [] then []
    else if keys[0] == k then Without(keys[1..], k)
    else [keys[0]] + Without(keys[1..], k)
  }

  function Drop<V>(m: Map<V>, k: string): Map<V> {
    Map(Without(m.keys, k), m.vals - {k})
  }

  lemma {:induction false} WithoutMembers(keys: seq<string>, k: string)
    requires Distinct(keys)
    ensures forall x :: x in Without(keys, k) <==> x in keys && x != k
    ensures Distinct(Without(keys, k))
  {
    if keys != [] {
      WithoutMembers(keys[1..], k);
      assert keys == [keys[0]] + keys[1..];
      assert keys[0] !in keys[1..];
    }
  }

  lemma PutValid<V>(m: Map<V>, k: string, v: V)
    requires Valid(m)
    ensures Valid(Put(m, k, v))
  {
    var m' := Put(m, k, v);
    forall x
      ensures x in m'.keys <==> x in m'.vals
    {
      assert x in m.keys <==> x in m.vals;
    }
  }

  lemma DropValid<V>(m: Map<V>, k: string)
    requires Valid(m)
    ensures Valid(Drop(m, k))
  {
    WithoutMembers(m.keys, k);
  }

  /** The keys that are not in `inside`, in order. */
  function Outside(keys: seq<string>, inside: set<string>): seq<string> {
    if keys == [] then []
    else if keys[0] in inside then Outside(keys[1..], inside)
    else [keys[0]] + Outside(keys[1..], inside)
  }

  lemma {:induction false} OutsideSnoc(keys: seq<string>, k: string, inside: set<string>)
    requires k in inside
    ensures Outside(keys + [k], inside) == Outside(keys, inside)
  {
    if keys != [] {
      assert (keys + [k])[1..] == keys[1..] + [k];
      OutsideSnoc(keys[1..], k, inside);
    }
  }

  lemma {:induction false} OutsideWithout(keys: seq<string>, k: string, inside: set<string>)
    requires k in inside
    ensures Outside(Without(keys, k), inside) == Outside(keys, inside)
  {
    if keys != [] { OutsideWithout(keys[1..], k, inside); }
  }

  lemma {:induction false} OutsideNone(keys: seq<string>, inside: set<string>)
    requires forall k :: k in keys ==> k in inside
    ensures Outside(keys, inside) == []
  {
    if keys != [] { OutsideNone(keys[1..], inside); }
  }
}
