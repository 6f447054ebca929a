/**
 Lists as the API server returns them, and what loops over them compute.
 */
module Lists {
  import opened Api

  /** The first element with the property. */
  function FirstMatch<T>(items: seq<T>, p: T -> bool): Option<T> {
    if items == [] then None
    else if p(items[0]) then Some(items[0])
    else FirstMatch(items[1..], p)
  }

  lemma {:induction false} FirstMatchIsFirst<T>(items: seq<T>, p: T -> bool)
    ensures match FirstMatch(items, p)
            case Some(x) => exists i | 0 <= i < |items| :: items[i] == x && p(x) && forall j | 0 <= j < i ::
                !p(items[j])
            case None => forall i | 0 <= i < |items| :: !p(items[i])
  {
    if items != [] && !p(items[0]) {
      FirstMatchIsFirst(items[1..], p);
      var rest := FirstMatch(items[1..], p);
      if rest.Some? {
        var i :| 0 <= i < |items[1..]| && items[1..][i] == rest.value && p(rest.value) && forall j | 0 <= j < i ::
            !p(items[1..][j]);
        assert items[i + 1] == rest.value;
        forall j | 0 <= j < i + 1
          ensures !p(items[j])
        {
          assert j > 0 ==> items[j] == items[1..][j - 1];
        }
      } else {
        forall i | 0 <= i < |items|
          ensures !p(items[i])
        {
          assert i > 0 ==> items[i] == items[1..][i - 1];
        }
      }
    }
  }

  /** A list in some order. */
  method SomeOrder<T(==)>(s: set<T>) returns (items: seq<T>)
    ensures forall x :: x in items <==> x in s
    ensures forall i, j | 0 <= i < j < |items| :: items[i] != items[j]
  {
    items := [];
    var rest := s;
    while rest != {}
      invariant rest <= s && forall x :: x in items <==> x in s - rest
      invariant forall i, j | 0 <= i < j < |items| :: items[i] != items[j]
      decreases rest
    {
      var x :| x in rest;
      assert forall y :: y in items + [x] <==> y in items || y == x;
      assert s - (rest - {x}) == (s - rest) + {x};
      items := items + [x];
      rest := rest - {x};
    }
  }

  /** The objects after those of the list have been changed and stored, one after the other. */
  function Stored<K, V>(objects: map<K, V>, items: seq<(K, V)>, f: V -> V): map<K, V> {
    if items == [] then objects
    else
      var (k, v) := items[|items| - 1];
      Stored(objects, items[..|items| - 1], f)[k := f(v)]
  }

  /** Every listed object is changed once, whatever the order, and no other. */
  lemma {:induction false} StoredAt<K, V>(objects: map<K, V>, items: seq<(K, V)>, f: V -> V)
    requires forall x | x in items :: x.0 in objects && x.1 == objects[x.0]
    ensures Stored(objects, items, f).Keys == objects.Keys
    ensures forall k | k in objects ::
              Stored(objects, items, f)[k] == if (k, objects[k]) in items then f(objects[k]) else objects[k]
  {
    if items != [] {
      var last := items[|items| - 1];
      StoredAt(objects, items[..|items| - 1], f);
      assert last in items && items == items[..|items| - 1] + [last];
    }
  }
}
