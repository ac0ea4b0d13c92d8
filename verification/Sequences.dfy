/** Joining the sequences that a function makes of the elements of a list. */
module Sequences {

  function Flat<T, U>(list: seq<T>, f: T -> seq<U>): seq<U> {
    if list == [] then [] else Flat(list[..|list| - 1], f) + f(list[|list| - 1])
  }

  lemma FlatPush<T, U>(list: seq<T>, k: nat, f: T -> seq<U>)
    requires k < |list|
    ensures Flat(list[..k + 1], f) == Flat(list[..k], f) + f(list[k])
  {
    assert list[..k + 1][..k] == list[..k];
  }

  lemma {:induction false} FlatFront<T, U>(x: T, list: seq<T>, f: T -> seq<U>)
    ensures Flat([x] + list, f) == f(x) + Flat(list, f)
  {
    if list == [] {
      assert [x] + list == [x] && [x][..0] == [];
    } else {
      FlatFront(x, list[..|list| - 1], f);
      assert ([x] + list)[..|list|] == [x] + list[..|list| - 1];
    }
  }

  lemma Associates<T>(a: seq<T>, b: seq<T>, c: seq<T>)
    ensures a + b + c == a + (b + c)
  {
  }

}
