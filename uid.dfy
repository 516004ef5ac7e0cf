/**
 * The process-wide ID counter (apollo/uid.go). The package-level atomic
 * counter becomes the field of one counter object; the atomic add is a plain
 * read-then-write, and the counter is an unbounded integer.
 */
module Uid {

  class UniqueIDCounter {
    var uniqueID: int
    /** Every ID handed out so far, in the order handed out. */
    ghost var issued: seq<int>

    /** The IDs issued are exactly 1, 2, ..., uniqueID. */
    ghost predicate Valid()
      reads this
    {
      |issued| == uniqueID && forall i :: 0 <= i < |issued| ==> issued[i] == i + 1
    }

    /** init: the counter starts at 0. */
    constructor ()
      ensures Valid() && uniqueID == 0 && issued == []
    {
      uniqueID := 0;
      issued := [];
    }

    /** GetUniqueID: the previous counter value plus one, never seen before. */
    method GetUniqueID() returns (id: int)
      requires Valid()
      modifies this
      ensures Valid()
      ensures id == old(uniqueID) + 1 && uniqueID == id
      ensures issued == old(issued) + [id]
      ensures id >= 1 && id !in old(issued)
      ensures forall x :: x in old(issued) ==> x < id
    {
      uniqueID := uniqueID + 1;
      id := uniqueID;
      issued := issued + [id];
    }
  }

  /** In a valid counter every issued ID is at least 1 and IDs strictly increase. */
  lemma IssuedStrictlyIncreasing(c: UniqueIDCounter)
    requires c.Valid()
    ensures forall i :: 0 <= i < |c.issued| ==> c.issued[i] >= 1
    ensures forall i, j :: 0 <= i < j < |c.issued| ==> c.issued[i] < c.issued[j]
  {
  }
}
