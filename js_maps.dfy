/**
 * JavaScript's `Map`: a dictionary that remembers the order in which keys were
 * first inserted. Setting an existing key replaces its value and keeps its place.
 */
module JsMaps {

  datatype OrderedMap<K(==,!new), V> = OrderedMap(keys: seq<K>, entries: map<K, V>) {

    /** The key list has no repetitions and holds exactly the keys of the table. */
    ghost predicate Valid()
    {
      && (forall i, j :: 0 <= i < j < |keys| ==> keys[i] != keys[j])
      && (forall k :: k in entries <==> k in keys)
    }
  }

  function EmptyMap<K(==,!new), V>(): (m: OrderedMap<K, V>)
    ensures m.Valid() && m.keys == [] && m.entries == map[]
  {
    OrderedMap([], map[])
  }

  /** `Map.prototype.set`. */
  function Set<K(==,!new), V>(m: OrderedMap<K, V>, k: K, v: V): (r: OrderedMap<K, V>)
    requires m.Valid()
    ensures r.Valid()
    ensures r.entries == m.entries[k := v]
    ensures k in m.entries ==> r.keys == m.keys
    ensures k !in m.entries ==> r.keys == m.keys + [k]
  {
    if k in m.entries then OrderedMap(m.keys, m.entries[k := v])
    else OrderedMap(m.keys + [k], m.entries[k := v])
  }

  /** The position of the first occurrence of `x` in `s`. */
  function FirstIndex<K(==)>(s: seq<K>, x: K): (i: nat)
    requires x in s
    ensures i < |s| && s[i] == x
    ensures forall j :: 0 <= j < i ==> s[j] != x
  {
    if s[0] == x then 0
    else
      var i := 1 + FirstIndex(s[1..], x);
      assert forall j :: 1 <= j < i ==> s[j] == s[1..][j - 1];
      i
  }

  /**
   * The elements of `s` in the order of their first occurrence, each once: the
   * key order of a `Map` filled by setting the elements of `s` in turn.
   */
  function FirstOccurrences<K(==,!new)>(s: seq<K>): (r: seq<K>)
    ensures forall x :: x in r <==> x in s
    ensures forall i, j :: 0 <= i < j < |r| ==> r[i] != r[j]
    decreases |s|
  {
    if |s| == 0 then []
    else
      var init := FirstOccurrences(s[..|s| - 1]);
      if s[|s| - 1] in init then init else init + [s[|s| - 1]]
  }

  /** The first occurrences come in the order in which the elements first appear in `s`. */
  lemma {:induction false} FirstOccurrencesInOrder<K(!new)>(s: seq<K>)
    ensures forall i, j :: 0 <= i < j < |FirstOccurrences(s)| ==>
              FirstIndex(s, FirstOccurrences(s)[i]) < FirstIndex(s, FirstOccurrences(s)[j])
    decreases |s|
  {
    if |s| > 0 {
      var init := s[..|s| - 1];
      FirstOccurrencesInOrder(init);
      FirstIndexOfPrefix(s);
      var before := FirstOccurrences(init);
      var r := FirstOccurrences(s);
      forall i, j | 0 <= i < j < |r|
        ensures FirstIndex(s, r[i]) < FirstIndex(s, r[j])
      {
        assert r[i] == before[i] && before[i] in before;
        if j < |before| {
          assert r[j] == before[j] && before[j] in before;
          assert FirstIndex(init, before[i]) < FirstIndex(init, before[j]);
        } else {
          assert r[j] == s[|s| - 1] && s[|s| - 1] !in init;
        }
      }
    }
  }

  /**
   * Extending a sequence by one element keeps the first occurrence of every
   * earlier element, and a new element first occurs at the end.
   */
  lemma FirstIndexOfPrefix<K>(s: seq<K>)
    requires |s| > 0
    ensures forall x :: x in s[..|s| - 1] ==> FirstIndex(s, x) == FirstIndex(s[..|s| - 1], x) < |s| - 1
    ensures s[|s| - 1] !in s[..|s| - 1] ==> FirstIndex(s, s[|s| - 1]) == |s| - 1
  {
    var init := s[..|s| - 1];
    forall x | x in init
      ensures FirstIndex(s, x) == FirstIndex(init, x) < |s| - 1
    {
      var a := FirstIndex(s, x);
      var b := FirstIndex(init, x);
      assert s[b] == x;
      assert a <= b;
      assert init[a] == x;
    }
  }

  /** Without repetitions, the first occurrences are the sequence itself. */
  lemma {:induction false} FirstOccurrencesOfDistinct<K(!new)>(s: seq<K>)
    requires forall i, j :: 0 <= i < j < |s| ==> s[i] != s[j]
    ensures FirstOccurrences(s) == s
    decreases |s|
  {
    if |s| > 0 {
      var init := s[..|s| - 1];
      assert forall i, j :: 0 <= i < j < |init| ==> init[i] != init[j];
      FirstOccurrencesOfDistinct(init);
      assert s[|s| - 1] !in init by {
        forall j | 0 <= j < |init|
          ensures init[j] != s[|s| - 1]
        {
          assert init[j] == s[j];
        }
      }
      assert init + [s[|s| - 1]] == s;
    }
  }
}
