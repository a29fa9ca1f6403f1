/**
 * The double-ended queue of Sources/SwiftyTooth/Deque.swift, the building block of the
 * peripheral role's notification queue: an item that the platform refuses is pushed
 * back to the front and taken again later, so emission order is preserved.
 * The Swift struct wraps a private array that its mutating methods change in place;
 * here that array is the field `elements`, which those methods reassign.
 */
module Deques {
  import opened Optional

  class Deque<T> {
    var elements: seq<T>

    constructor ()
      ensures elements == []
    {
      elements := [];
    }

    predicate IsEmpty()
      reads this
      ensures IsEmpty() <==> Count() == 0
    {
      |elements| == 0
    }

    function Count(): nat
      reads this
    {
      |elements|
    }

    /** `array.first`: nil for an empty deque. */
    function PeekFront(): (r: Option<T>)
      reads this
      ensures r.None? <==> IsEmpty()
      ensures r.Some? ==> r.value == elements[0]
    {
      if |elements| == 0 then None else Some(elements[0])
    }

    /** `array.last`: nil for an empty deque. */
    function PeekBack(): (r: Option<T>)
      reads this
      ensures r.None? <==> IsEmpty()
      ensures r.Some? ==> r.value == elements[|elements| - 1]
    {
      if |elements| == 0 then None else Some(elements[|elements| - 1])
    }

    /** `array.append(element)`. */
    method Enqueue(element: T)
      modifies this
      ensures elements == old(elements) + [element]
      ensures Count() == old(Count()) + 1 && PeekBack() == Some(element)
    {
      elements := elements + [element];
    }

    /** `array.insert(element, at: 0)`. */
    method EnqueueFront(element: T)
      modifies this
      ensures elements == [element] + old(elements)
      ensures Count() == old(Count()) + 1 && PeekFront() == Some(element)
    {
      elements := [element] + elements;
    }

    /** nil when empty, otherwise `array.removeFirst()`. */
    method Dequeue() returns (r: Option<T>)
      modifies this
      ensures old(elements) == [] ==> r == None && elements == []
      ensures old(elements) != [] ==> r == Some(old(elements)[0]) && elements == old(elements)[1..]
    {
      if IsEmpty() {
        r := None;
      } else {
        r := Some(elements[0]);
        elements := elements[1..];
      }
    }

    /** nil when empty, otherwise `array.removeLast()`. */
    method DequeueBack() returns (r: Option<T>)
      modifies this
      ensures old(elements) == [] ==> r == None && elements == []
      ensures old(elements) != [] ==>
        r == Some(old(elements)[|old(elements)| - 1]) && elements == old(elements)[..|old(elements)| - 1]
    {
      if IsEmpty() {
        r := None;
      } else {
        r := Some(elements[|elements| - 1]);
        elements := elements[..|elements| - 1];
      }
    }
  }

  /**
   * The push-back-to-front pattern the deque serves: an element put back at the front
   * is the next one taken, and taking it restores the previous contents.
   */
  method PushBackThenTake<T>(d: Deque<T>, x: T) returns (taken: Option<T>)
    modifies d
    ensures taken == Some(x)
    ensures d.elements == old(d.elements)
  {
    d.EnqueueFront(x);
    taken := d.Dequeue();
  }

  /**
   * First in, first out: enqueueing `xs` onto an empty deque and dequeueing as many
   * times yields `xs` in order and leaves the deque empty.
   */
  method EnqueueAllThenDrain<T>(xs: seq<T>) returns (drained: seq<T>, remaining: nat)
    ensures drained == xs
    ensures remaining == 0
  {
    var d := new Deque<T>();
    var i := 0;
    while i < |xs|
      invariant 0 <= i <= |xs|
      invariant d.elements == xs[..i]
    {
      d.Enqueue(xs[i]);
      i := i + 1;
    }
    drained := [];
    while |drained| < |xs|
      invariant |drained| <= |xs|
      invariant drained + d.elements == xs
      decreases |xs| - |drained|
    {
      var r := d.Dequeue();
      drained := drained + [r.value];
    }
    remaining := d.Count();
  }
}
