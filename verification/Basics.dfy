/** Bytes, optional values and results shared by every component. */
module Basics {

  type byte = b: int | 0 <= b < 256

  type Bytes = seq<byte>

  const TWO_TO_THE_64: nat := 0x1_0000_0000_0000_0000

  type u64 = n: int | 0 <= n < TWO_TO_THE_64

  datatype Option<+T> = None | Some(value: T)

  datatype Result<+T, +E> = Ok(value: T) | Err(error: E)

  /** `order` lists every element of `elements` exactly once. */
  ghost predicate Enumerates(order: seq<nat>, elements: set<nat>) {
    && (forall i, j :: 0 <= i < j < |order| ==> order[i] != order[j])
    && (forall x :: x in order <==> x in elements)
  }

  /** Some iteration order of a hash table's keys. */
  method KeysInSomeOrder(keys: set<nat>) returns (order: seq<nat>)
    ensures Enumerates(order, keys)
  {
    order := [];
    var rest := keys;
    while rest != {}
      invariant rest <= keys
      invariant forall i, j :: 0 <= i < j < |order| ==> order[i] != order[j]
      invariant forall x :: x in order <==> x in keys - rest
      decreases rest
    {
      var x :| x in rest;
      assert x !in order;
      order := order + [x];
      rest := rest - {x};
    }
  }

  lemma Regroup<T>(a: seq<T>, b: seq<T>, c: seq<T>)
    ensures a + b + c == a + (b + c)
  {
  }

  /** The parts of a queue that `f` picks out of each element, in order. */
  function Project<X, Y>(q: seq<X>, f: X -> seq<Y>): seq<Y> {
    if q == [] then [] else f(q[0]) + Project(q[1..], f)
  }

  lemma {:induction false} ProjectAppend<X, Y>(a: seq<X>, b: seq<X>, f: X -> seq<Y>)
    ensures Project(a + b, f) == Project(a, f) + Project(b, f)
  {
    if a == [] {
      assert a + b == b;
    } else {
      assert (a + b)[1..] == a[1..] + b;
      ProjectAppend(a[1..], b, f);
    }
  }

  lemma ProjectOne<X, Y>(q: seq<X>, x: X, f: X -> seq<Y>)
    ensures Project(q + [x], f) == Project(q, f) + f(x)
  {
    ProjectAppend(q, [x], f);
    assert [x][1..] == [];
    assert Project([x], f) == f(x);
  }
}
