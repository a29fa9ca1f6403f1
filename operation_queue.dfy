/**
 * The serial `OperationQueue` every queue-based device revision owns
 * (`maxConcurrentOperationCount = 1`), seen through the `SwiftyQueue` protocol:
 * `pushBack` admits an item, `cancelAll` cancels every item, and `items` lists the
 * items not yet finished.  Foundation's scheduling is reduced to an explicit step,
 * `StartNext`, which runs `main` on the first ready item when no item is executing;
 * every item a device creates has normal priority, so the first ready item is the
 * oldest one.  `Reap` is Foundation dropping finished items from `items`.
 */
module OperationQueues {
  import opened Optional
  import opened Results
  import opened QueueItems

  predicate NoneExecuting<T, X>(items: seq<QueueItem<T, X>>)
    reads items
  {
    forall i :: 0 <= i < |items| ==> !items[i].IsExecuting()
  }

  /** The position of the first ready item, if any. */
  function FirstReady<T, X>(items: seq<QueueItem<T, X>>): (r: Option<nat>)
    reads items
    ensures r.None? <==> forall i :: 0 <= i < |items| ==> items[i].state != Ready
    ensures r.Some? ==> r.value < |items| && items[r.value].state == Ready
                        && forall j :: 0 <= j < r.value ==> items[j].state != Ready
  {
    if items == [] then None
    else if items[0].state == Ready then Some(0)
    else
      var r := FirstReady(items[1..]);
      assert forall i :: 1 <= i < |items| ==> items[i] == items[1..][i - 1];
      if r.None? then None else Some(r.value + 1)
  }

  /** No item before position `i` is executing under the name `key`. */
  predicate NoneExecutingNamedBefore<T, X>(items: seq<QueueItem<T, X>>, key: string, i: int)
    requires i <= |items|
    reads items
  {
    forall j :: 0 <= j < i ==> !(items[j].IsExecuting() && items[j].name == Some(key))
  }

  /**
   * `queue.items.first { $0.isExecuting && $0.name == key }`: the lookup every
   * completion handler of a queue-based device performs.
   */
  function FirstExecutingNamed<T, X>(items: seq<QueueItem<T, X>>, key: string): (r: Option<QueueItem<T, X>>)
    reads items
    ensures r.None? <==> forall i :: 0 <= i < |items| ==> !(items[i].IsExecuting() && items[i].name == Some(key))
    ensures r.Some? ==> r.value in items && r.value.IsExecuting() && r.value.name == Some(key)
    ensures r.Some? ==> exists i :: 0 <= i < |items| && items[i] == r.value && NoneExecutingNamedBefore(items, key, i)
  {
    if items == [] then None
    else if items[0].IsExecuting() && items[0].name == Some(key) then Some(items[0])
    else
      var r := FirstExecutingNamed(items[1..], key);
      assert forall i :: 1 <= i < |items| ==> items[i] == items[1..][i - 1];
      r
  }

  /** At most one item is executing: the queue is serial. */
  predicate AtMostOneExecuting<T, X>(items: seq<QueueItem<T, X>>)
    reads items
  {
    forall i, j :: 0 <= i < |items| && 0 <= j < |items| && items[i].IsExecuting() && items[j].IsExecuting()
      ==> i == j
  }

  /** On a serial queue, the lookup by name finds the executing item whenever it carries that name. */
  lemma FirstExecutingNamedFindsExecutingItem<T, X>(items: seq<QueueItem<T, X>>, key: string, i: int)
    requires AtMostOneExecuting(items)
    requires 0 <= i < |items| && items[i].IsExecuting() && items[i].name == Some(key)
    ensures FirstExecutingNamed(items, key) == Some(items[i])
  {
    var r := FirstExecutingNamed(items, key);
    var j :| 0 <= j < |items| && items[j] == r.value && NoneExecutingNamedBefore(items, key, j);
    assert items[j].IsExecuting();
  }

  /** The unfinished items of `s`. */
  function Unfinished<T, X>(s: seq<QueueItem<T, X>>): (r: seq<QueueItem<T, X>>)
    reads s
    ensures forall i :: 0 <= i < |r| ==> r[i] in s && !r[i].IsFinished()
    ensures forall i :: 0 <= i < |s| && !s[i].IsFinished() ==> s[i] in r
  {
    if s == [] then []
    else Unfinished(s[..|s| - 1]) + (if s[|s| - 1].IsFinished() then [] else [s[|s| - 1]])
  }

  predicate Distinct<T, X>(s: seq<QueueItem<T, X>>) {
    forall i, j :: 0 <= i < j < |s| ==> s[i] != s[j]
  }

  lemma UnfinishedKeepsDistinct<T, X>(s: seq<QueueItem<T, X>>)
    requires Distinct(s)
    ensures Distinct(Unfinished(s))
  {
    if s != [] {
      UnfinishedKeepsDistinct(s[..|s| - 1]);
    }
  }

  class OperationQueue<T, X> {
    var items: seq<QueueItem<T, X>>
    ghost var Repr: set<object>

    /**
     * The items are distinct objects the queue owns, and at most one of them is
     * executing: the queue is serial.
     */
    ghost predicate Valid()
      reads this, Repr
    {
      && this in Repr
      && (forall i :: 0 <= i < |items| ==> items[i] in Repr)
      && Distinct(items)
      && AtMostOneExecuting(items)
    }

    constructor ()
      ensures Valid() && fresh(Repr) && items == []
    {
      items := [];
      Repr := {this};
    }

    /** `pushBack(item)` is `addOperation`, which refuses an item that is already queued or has run. */
    method PushBack(item: QueueItem<T, X>)
      requires Valid()
      requires item !in Repr && item.state == Ready
      modifies this
      ensures Valid()
      ensures items == old(items) + [item]
      ensures Repr == old(Repr) + {item}
    {
      items := items + [item];
      Repr := Repr + {item};
    }

    /** `cancelAll()` is `cancelAllOperations`: `cancel` on every item, after which all have finished. */
    method CancelAll()
      requires Valid()
      modifies Repr
      ensures Valid() && Repr == old(Repr)
      ensures items == old(items)
      ensures forall i :: 0 <= i < |items| ==>
        items[i].Snap() == CancelSpec(old(items[i].Snap()))
      ensures forall o :: o in Repr && o !in items && o != this ==> unchanged(o)
    {
      var i := 0;
      while i < |items|
        invariant 0 <= i <= |items|
        invariant Valid() && Repr == old(Repr) && items == old(items)
        invariant forall k :: 0 <= k < i ==> items[k].Snap() == CancelSpec(old(items[k].Snap()))
        invariant forall k :: i <= k < |items| ==> items[k].Snap() == old(items[k].Snap())
        invariant forall o :: o in Repr && o !in items && o != this ==> unchanged(o)
        invariant unchanged(this)
      {
        items[i].Cancel();
        i := i + 1;
      }
    }

    /** Foundation drops finished items from `operations`. */
    method Reap()
      requires Valid()
      modifies this
      ensures Valid() && Repr == old(Repr)
      ensures items == Unfinished(old(items))
    {
      var kept: seq<QueueItem<T, X>> := [];
      var i := 0;
      while i < |items|
        invariant 0 <= i <= |items|
        invariant kept == Unfinished(items[..i])
      {
        assert items[..i + 1][..i] == items[..i];
        if !items[i].IsFinished() {
          kept := kept + [items[i]];
        }
        i := i + 1;
      }
      assert items[..i] == items;
      UnfinishedKeepsDistinct(items);
      items := kept;
    }

    /**
     * One scheduling step of a serial queue: when no item is executing, `main` runs on
     * the first ready item; `run` is what that item's execution block reports while it
     * runs.  Otherwise nothing happens.
     */
    method StartNext(run: X -> Option<Result<T>>) returns (started: Option<QueueItem<T, X>>)
      requires Valid()
      modifies Repr
      ensures Valid() && Repr == old(Repr) && items == old(items)
      ensures started.None? <==> old(!NoneExecuting(items) || FirstReady(items).None?)
      ensures started.Some? ==>
        && started.value == old(items[FirstReady(items).value])
        && started.value.cancelled == old(started.value.cancelled)
        && var it := started.value;
           it.Snap() == PerformSpec(old(it.Snap()), it.execution.Some?, it.callback,
                                 if it.execution.Some? then run(it.execution.value) else None)
      ensures forall o :: o in Repr && (started.None? || o != started.value) ==> unchanged(o)
    {
      if !NoneExecuting(items) {
        return None;
      }
      var k := FirstReady(items);
      if k.None? {
        return None;
      }
      var it := items[k.value];
      var report := if it.execution.Some? then run(it.execution.value) else None;
      it.Perform(report);
      started := Some(it);
    }
  }
}
