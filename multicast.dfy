/**
  The invocation list of a C# multicast delegate (an event's handler list).
  `e += h` appends `h`; `e -= h` removes the LAST occurrence of `h` and leaves
  the list alone when `h` does not occur in it.
*/
module Multicast {

  /** `list += h` */
  function Combine<T>(list: seq<T>, h: T): (r: seq<T>)
    ensures |r| == |list| + 1 && r[..|list|] == list && r[|list|] == h
  {
    list + [h]
  }

  /** `list -= h`: drops the last occurrence of `h`, keeps everything else in order. */
  function Remove<T(==)>(list: seq<T>, h: T): (r: seq<T>)
    ensures h !in list ==> r == list
    ensures forall x | x in r :: x in list
    decreases |list|
  {
    if list == [] then []
    else
      var last := list[|list| - 1];
      var front := list[..|list| - 1];
      assert list == front + [last];
      if last == h then front
      else Remove(front, h) + [last]
  }

  /** Position of the last occurrence of `h`. */
  function LastIndexOf<T(==)>(list: seq<T>, h: T): (k: nat)
    requires h in list
    ensures k < |list| && list[k] == h && h !in list[k + 1..]
    decreases |list|
  {
    var last := list[|list| - 1];
    if last == h then |list| - 1
    else
      var front := list[..|list| - 1];
      assert list == front + [last];
      LastIndexOf(front, h)
  }

  /** Removing a present handler splices out exactly the element at its last position. */
  lemma {:induction false} RemoveSplices<T>(list: seq<T>, h: T)
    requires h in list
    ensures Remove(list, h) == list[..LastIndexOf(list, h)] + list[LastIndexOf(list, h) + 1..]
  {
    var n := |list| - 1;
    var last := list[n];
    var front := list[..n];
    assert list == front + [last];
    if last == h {
      assert LastIndexOf(list, h) == n;
      assert Remove(list, h) == front;
    } else {
      assert h in front;
      assert LastIndexOf(list, h) == LastIndexOf(front, h);
      assert Remove(list, h) == Remove(front, h) + [last];
      RemoveSplices(front, h);
    }
  }

  /** `+=` followed by `-=` of the same handler restores the list. */
  lemma CombineThenRemove<T>(list: seq<T>, h: T)
    ensures Remove(Combine(list, h), h) == list
  {
    var r := list + [h];
    assert r[..|r| - 1] == list;
  }

  /** `-=` takes exactly one copy of the handler out of the list, if it has one. */
  lemma {:induction false} RemoveMultiset<T>(list: seq<T>, h: T)
    ensures multiset(Remove(list, h)) == multiset(list) - multiset{h}
    decreases |list|
  {
    if list != [] {
      var n := |list| - 1;
      var last := list[n];
      var front := list[..n];
      assert list == front + [last];
      assert multiset(list) == multiset(front) + multiset{last};
      if last != h {
        assert Remove(list, h) == Remove(front, h) + [last];
        RemoveMultiset(front, h);
      }
    }
  }

  /** Removing a handler does not change how often any other handler occurs. */
  lemma RemoveOthers<T>(list: seq<T>, h: T, x: T)
    requires x != h
    ensures multiset(Remove(list, h))[x] == multiset(list)[x]
    ensures x in Remove(list, h) <==> x in list
  {
    RemoveMultiset(list, h);
  }

  /** `+=` adds exactly one copy of the handler. */
  lemma CombineMultiset<T>(list: seq<T>, h: T)
    ensures multiset(Combine(list, h)) == multiset(list) + multiset{h}
  {
  }
}
