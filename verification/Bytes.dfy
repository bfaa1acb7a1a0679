/** Bytes, and the concatenation of a list of byte strings. */
module Bytes {

  newtype Byte = x: int | 0 <= x < 256

  type Item = seq<Byte>

  function Flatten<T>(items: seq<seq<T>>): seq<T> {
    if items == [] then [] else items[0] + Flatten(items[1..])
  }

  lemma FlattenAppend<T>(a: seq<seq<T>>, b: seq<seq<T>>)
    ensures Flatten(a + b) == Flatten(a) + Flatten(b)
  {
    if a == [] {
      assert a + b == b;
    } else {
      assert (a + b)[1..] == a[1..] + b;
    }
  }

  lemma FlattenSnoc<T>(a: seq<seq<T>>, x: seq<T>)
    ensures Flatten(a + [x]) == Flatten(a) + x
  {
    FlattenAppend(a, [x]);
    assert Flatten([x]) == x + Flatten<T>([]);
  }

  lemma FlattenCons<T>(x: seq<T>, a: seq<seq<T>>)
    ensures Flatten([x] + a) == x + Flatten(a)
  {
    assert ([x] + a)[1..] == a;
  }

  lemma FlattenTake<T>(a: seq<seq<T>>, i: nat)
    requires i < |a|
    ensures Flatten(a[..i + 1]) == Flatten(a[..i]) + a[i]
  {
    FlattenSnoc(a[..i], a[i]);
    assert a[..i + 1] == a[..i] + [a[i]];
  }
}
