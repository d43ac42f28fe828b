/** A std::vector that its owner hands out by reference: clients that
    obtain it from a getter edit the owner's list in place. */
module Containers {

  class Vector<T> {
    var elems: seq<T>

    constructor ()
      ensures elems == []
    {
      elems := [];
    }

    /** push_back */
    method PushBack(x: T)
      modifies this
      ensures elems == old(elems) + [x]
    {
      elems := elems + [x];
    }

    /** operator[] used as an lvalue */
    method Set(i: nat, x: T)
      requires i < |elems|
      modifies this
      ensures elems == old(elems)[i := x]
    {
      elems := elems[i := x];
    }

    /** std::iter_swap on two positions */
    method Swap(i: nat, j: nat)
      requires i < |elems| && j < |elems|
      modifies this
      ensures elems == old(elems)[i := old(elems)[j]][j := old(elems)[i]]
    {
      elems := elems[i := elems[j]][j := elems[i]];
    }

    /** erase at a position */
    method Erase(i: nat)
      requires i < |elems|
      modifies this
      ensures elems == old(elems)[..i] + old(elems)[i + 1..]
    {
      elems := elems[..i] + elems[i + 1..];
    }
  }
}
