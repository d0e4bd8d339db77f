/** The two list operations the customer's rented-car list relies on:
    appending, and removing the first element equal to a given one (the
    Python `list.remove`; for objects without their own equality, "equal"
    is "the same object", which is what `==` on Dafny references is). */
module Listas {

  /** No element occurs twice. */
  predicate SemRepeticao<T(==)>(s: seq<T>)
  {
    forall i, j :: 0 <= i < j < |s| ==> s[i] != s[j]
  }

  /** Position of the first occurrence of `x` in `s`. */
  function PrimeiroIndice<T(==)>(s: seq<T>, x: T): (i: nat)
    requires x in s
    ensures i < |s| && s[i] == x && x !in s[..i]
  {
    if s[0] == x then 0 else 1 + PrimeiroIndice(s[1..], x)
  }

  /** `s` without its first occurrence of `x`; `list.remove` fails when `x`
      is absent, so it is only defined when `x` is present. */
  function RemoverPrimeiro<T(==)>(s: seq<T>, x: T): seq<T>
    requires x in s
  {
    if s[0] == x then s[1..] else [s[0]] + RemoverPrimeiro(s[1..], x)
  }

  /** Removing cuts out exactly the first occurrence and keeps every other
      element in its order. */
  lemma {:induction false} RemoverPrimeiroRecorta<T>(s: seq<T>, x: T)
    requires x in s
    ensures RemoverPrimeiro(s, x) == s[..PrimeiroIndice(s, x)] + s[PrimeiroIndice(s, x) + 1..]
  {
    if s[0] != x {
      var t := s[1..];
      RemoverPrimeiroRecorta(t, x);
      var i := PrimeiroIndice(t, x);
      assert PrimeiroIndice(s, x) == i + 1;
      assert [s[0]] + t[..i] == s[..i + 1];
      assert t[i + 1..] == s[i + 2..];
      calc {
        RemoverPrimeiro(s, x);
        [s[0]] + RemoverPrimeiro(t, x);
        [s[0]] + (t[..i] + t[i + 1..]);
        ([s[0]] + t[..i]) + t[i + 1..];
      }
    }
  }

  /** On a list without repetitions, removing a present element shortens
      the list by one, drops that element and nothing else, and keeps the
      list free of repetitions. */
  lemma RemoverSemRepeticao<T>(s: seq<T>, x: T)
    requires x in s && SemRepeticao(s)
    ensures |RemoverPrimeiro(s, x)| == |s| - 1
    ensures SemRepeticao(RemoverPrimeiro(s, x))
    ensures forall y :: y in RemoverPrimeiro(s, x) <==> y in s && y != x
  {
    RemoverPrimeiroRecorta(s, x);
    var i := PrimeiroIndice(s, x);
    var r := RemoverPrimeiro(s, x);
    assert forall k :: 0 <= k < |r| ==> r[k] == if k < i then s[k] else s[k + 1];
    forall y
      ensures y in r <==> y in s && y != x
    {
      if y in s && y != x {
        var k :| 0 <= k < |s| && s[k] == y;
        assert k != i;
        assert r[if k < i then k else k - 1] == y;
      }
    }
  }

  /** Appending an element that is not yet present keeps the list free of
      repetitions. */
  lemma AnexarSemRepeticao<T>(s: seq<T>, x: T)
    requires SemRepeticao(s) && x !in s
    ensures SemRepeticao(s + [x])
  {
    assert forall k :: 0 <= k < |s| ==> (s + [x])[k] == s[k];
  }
}
