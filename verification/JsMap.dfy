/** An insertion-ordered map: what a JavaScript `Map` is. Setting a present key keeps its place, deleting forgets it. */
module JsMaps {

  datatype JsMap<V> = JsMap(keys: seq<string>, at: map<string, V>) {

    ghost predicate Valid() {
      && (forall i, j :: 0 <= i < j < |keys| ==> keys[i] != keys[j])
      && (forall k :: k in keys <==> k in at)
    }

    function Set(k: string, v: V): JsMap<V> {
      JsMap(if k in at then keys else keys + [k], at[k := v])
    }

    function Delete(k: string): JsMap<V> {
      JsMap(Without(keys, k), at - {k})
    }

    /** The values in key order. */
    function Values(): seq<V>
      requires Valid()
    {
      seq(|keys|, i requires 0 <= i < |keys| => assert keys[i] in keys; at[keys[i]])
    }
  }

  function Empty<V>(): JsMap<V> {
    JsMap([], map[])
  }

  /** `keys` without the entry `k`; the others keep their order. */
  function Without(keys: seq<string>, k: string): (rest: seq<string>)
    ensures forall x :: x in rest <==> x in keys && x != k
  {
    if keys == [] then []
    else if keys[|keys| - 1] == k then Without(keys[..|keys| - 1], k)
    else Without(keys[..|keys| - 1], k) + [keys[|keys| - 1]]
  }

  /** An order on keys, given by `rank`, survives `Without`. */
  lemma {:induction false} WithoutKeepsOrder(keys: seq<string>, k: string, rank: string -> int)
    requires forall i, j :: 0 <= i < j < |keys| ==> rank(keys[i]) < rank(keys[j])
    ensures forall i, j :: 0 <= i < j < |Without(keys, k)| ==> rank(Without(keys, k)[i]) < rank(Without(keys, k)[j])
  {
    if keys != [] {
      var front := keys[..|keys| - 1];
      WithoutKeepsOrder(front, k, rank);
      var rest := Without(front, k);
      forall i | 0 <= i < |rest|
        ensures rank(rest[i]) < rank(keys[|keys| - 1])
      {
        assert rest[i] in rest;
        assert rest[i] in front;
      }
    }
  }

  lemma {:induction false} WithoutStaysDistinct(keys: seq<string>, k: string)
    requires forall i, j :: 0 <= i < j < |keys| ==> keys[i] != keys[j]
    ensures forall i, j :: 0 <= i < j < |Without(keys, k)| ==> Without(keys, k)[i] != Without(keys, k)[j]
  {
    if keys != [] {
      var front := keys[..|keys| - 1];
      WithoutStaysDistinct(front, k);
      var rest := Without(front, k);
      forall i | 0 <= i < |rest|
        ensures rest[i] != keys[|keys| - 1]
      {
        assert rest[i] in rest;
        assert rest[i] in front;
      }
    }
  }

  lemma SetKeepsValid<V>(m: JsMap<V>, k: string, v: V)
    requires m.Valid()
    ensures m.Set(k, v).Valid()
  {
    if k !in m.at {
      assert forall i :: 0 <= i < |m.keys| ==> m.keys[i] in m.keys;
    }
  }

  lemma DeleteKeepsValid<V>(m: JsMap<V>, k: string)
    requires m.Valid()
    ensures m.Delete(k).Valid()
  {
    WithoutStaysDistinct(m.keys, k);
  }
}
