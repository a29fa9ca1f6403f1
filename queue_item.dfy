/**
 * `QueueItem<T>` of Sources/SwiftyTeeth/QueueItem.swift: one asynchronous unit of work
 * on a device's serial queue.  The item moves from ready to executing to finished; the
 * `cancelled` flag, set by `cancel`, makes `main` finish the item without running it.
 *
 * The two closures of an item are defunctionalised.  The execution block is an opaque
 * descriptor of type X that the item's owner evaluates; what the block passes to its
 * completion while it runs is handed to `Perform` as `report` (None when it passed
 * nothing and left the answer to a later platform callback).  The callback block is
 * reduced to the one thing that matters to the item: whether it calls its `done`
 * continuation.  Each invocation of either block is recorded in the ghost `trace`.
 */
module QueueItems {
  import opened Optional
  import opened Results

  /** The states the item assigns; `none` and `finishing` are declared in Swift but never assigned. */
  datatype State = Ready | Executing | Finished

  /** Foundation's `Operation.QueuePriority`. */
  datatype Priority = VeryLow | Low | Normal | High | VeryHigh

  /** `FailureHandler` of Sources/Protocols/SwiftyQueue.swift. */
  datatype FailureHandler = Nothing | Retry | Reschedule

  /** The callback block: it receives the result and a `done` continuation that it may call. */
  datatype CallbackBlock = CallbackBlock(callsDone: bool)

  /** An invocation of one of the item's closures. */
  datatype ItemEvent<T> = ExecutionRan | CallbackRan(result: Result<T>)

  /** The part of an item that its methods change. */
  datatype Snapshot<T> = Snapshot(state: State, cancelled: bool, trace: seq<ItemEvent<T>>)

  // ---------------------------------------------------------------------------------
  // What each method does to the item, as functions of the item before the call.

  /** `done()`: `state = .finished`. */
  function DoneSpec<T>(s: Snapshot<T>): Snapshot<T> {
    s.(state := Finished)
  }

  /** `cancel()`: `super.cancel()` sets the flag, then `done()`. */
  function CancelSpec<T>(s: Snapshot<T>): Snapshot<T> {
    DoneSpec(s.(cancelled := true))
  }

  /** `notify(result)`: hand the result and `done` to the callback, or finish directly without one. */
  function NotifySpec<T>(s: Snapshot<T>, callback: Option<CallbackBlock>, r: Result<T>): Snapshot<T> {
    match callback
    case None => DoneSpec(s)
    case Some(cb) =>
      var s' := s.(trace := s.trace + [CallbackRan(r)]);
      if cb.callsDone then DoneSpec(s') else s'
  }

  /**
   * `execute()`: without an execution block, finish; otherwise run it, and if it reported
   * a failure, notify with that failure (a success report is ignored).
   */
  function ExecuteSpec<T>(s: Snapshot<T>, hasExecution: bool, callback: Option<CallbackBlock>,
                          report: Option<Result<T>>): Snapshot<T> {
    if !hasExecution then DoneSpec(s)
    else
      var s' := s.(trace := s.trace + [ExecutionRan]);
      if report.Some? && report.value.Failure? then NotifySpec(s', callback, report.value) else s'
  }

  /** `main()`: a cancelled item finishes at once; otherwise it becomes executing and executes. */
  function PerformSpec<T>(s: Snapshot<T>, hasExecution: bool, callback: Option<CallbackBlock>,
                       report: Option<Result<T>>): Snapshot<T> {
    if s.cancelled then DoneSpec(s)
    else ExecuteSpec(s.(state := Executing), hasExecution, callback, report)
  }

  class QueueItem<T, X> {
    const name: Option<string>
    const priority: Priority
    const execution: Option<X>
    const callback: Option<CallbackBlock>
    /** Declared constants of the item, consulted nowhere. */
    const timeout: real
    const doOnFailure: FailureHandler

    var state: State
    var cancelled: bool
    ghost var trace: seq<ItemEvent<T>>

    ghost function Snap(): Snapshot<T>
      reads this
    {
      Snapshot(state, cancelled, trace)
    }

    /** `init(name:priority:execution:callback:)`: a new item is ready. */
    constructor (name: Option<string>, priority: Priority, execution: Option<X>, callback: Option<CallbackBlock>)
      ensures this.name == name && this.priority == priority
      ensures this.execution == execution && this.callback == callback
      ensures state == Ready && !cancelled && trace == []
      ensures !IsExecuting() && !IsFinished()
      ensures timeout == 0.0 && doOnFailure == Nothing
    {
      this.name := name;
      this.priority := priority;
      this.execution := execution;
      this.callback := callback;
      timeout := 0.0;
      doOnFailure := Nothing;
      state := Ready;
      cancelled := false;
      trace := [];
    }

    /** `isExecuting` mirrors `state`. */
    predicate IsExecuting()
      reads this
    {
      state == Executing
    }

    /** `isFinished` mirrors `state`. */
    predicate IsFinished()
      reads this
    {
      state == Finished
    }

    method Done()
      modifies this
      ensures Snap() == DoneSpec(old(Snap()))
      ensures IsFinished() && cancelled == old(cancelled) && trace == old(trace)
    {
      state := Finished;
    }

    method Cancel()
      modifies this
      ensures Snap() == CancelSpec(old(Snap()))
      ensures IsFinished() && cancelled && trace == old(trace)
    {
      cancelled := true;
      Done();
    }

    method Notify(r: Result<T>)
      modifies this
      ensures Snap() == NotifySpec(old(Snap()), callback, r)
    {
      if callback.Some? {
        trace := trace + [CallbackRan(r)];
        if callback.value.callsDone {
          Done();
        }
      } else {
        Done();
      }
    }

    method Execute(report: Option<Result<T>>)
      modifies this
      ensures Snap() == ExecuteSpec(old(Snap()), execution.Some?, callback, report)
    {
      if execution.Some? {
        trace := trace + [ExecutionRan];
        if report.Some? && report.value.Failure? {
          Notify(report.value);
        }
      } else {
        Done();
      }
    }

    /** `main()`, the entry point the queue calls when it starts the item. */
    method Perform(report: Option<Result<T>>)
      modifies this
      ensures Snap() == PerformSpec(old(Snap()), execution.Some?, callback, report)
      ensures old(cancelled) ==> IsFinished() && trace == old(trace)
      ensures cancelled == old(cancelled)
    {
      if cancelled {
        Done();
        return;
      }
      state := Executing;
      Execute(report);
    }
  }

  // ---------------------------------------------------------------------------------
  // Properties of single calls

  /** A cancelled item finishes in `main` and its execution block never runs. */
  lemma CancelledPerformSkipsExecution<T>(s: Snapshot<T>, hasExecution: bool, cb: Option<CallbackBlock>,
                                       report: Option<Result<T>>)
    requires s.cancelled
    ensures PerformSpec(s, hasExecution, cb, report).state == Finished
    ensures PerformSpec(s, hasExecution, cb, report).trace == s.trace
  {
  }

  /**
   * A live item's `main` runs the execution block once; it stays executing unless the
   * block reported a failure and the callback called `done`, or there was no callback.
   */
  lemma PerformRunsExecution<T>(s: Snapshot<T>, cb: Option<CallbackBlock>, report: Option<Result<T>>)
    requires !s.cancelled
    ensures var t := PerformSpec(s, true, cb, report);
      && t.trace[..|s.trace| + 1] == s.trace + [ExecutionRan]
      && (t.state == Finished <==> report.Some? && report.value.Failure? && (cb.None? || cb.value.callsDone))
      && (t.state != Finished ==> t.state == Executing)
      && (report.Some? && report.value.Failure? && cb.Some? ==>
            t.trace == s.trace + [ExecutionRan, CallbackRan(report.value)])
      && (!(report.Some? && report.value.Failure?) || cb.None? ==> t.trace == s.trace + [ExecutionRan])
  {
  }

  /** Without an execution block an item finishes as soon as it executes. */
  lemma NoExecutionFinishes<T>(s: Snapshot<T>, cb: Option<CallbackBlock>, report: Option<Result<T>>)
    ensures ExecuteSpec(s, false, cb, report) == s.(state := Finished)
  {
  }

  /** `notify` finishes the item only through `done`: with a callback, only if the callback calls it. */
  lemma NotifyFinishesOnlyThroughDone<T>(s: Snapshot<T>, cb: Option<CallbackBlock>, r: Result<T>)
    requires s.state != Finished
    ensures NotifySpec(s, cb, r).state == Finished <==> cb.None? || cb.value.callsDone
    ensures cb.Some? ==> NotifySpec(s, cb, r).trace == s.trace + [CallbackRan(r)]
    ensures cb.None? ==> NotifySpec(s, cb, r).trace == s.trace
  {
  }

  /** `cancel` finishes an item from any state and never invokes the callback. */
  lemma CancelFinishesSilently<T>(s: Snapshot<T>)
    ensures CancelSpec(s).state == Finished && CancelSpec(s).cancelled
    ensures CancelSpec(s).trace == s.trace
  {
  }

  /** Finished is absorbing under `done`, `cancel` and `notify`, and `done` is idempotent. */
  lemma FinishedIsAbsorbing<T>(s: Snapshot<T>, cb: Option<CallbackBlock>, r: Result<T>)
    requires s.state == Finished
    ensures DoneSpec(s) == s
    ensures CancelSpec(s).state == Finished
    ensures NotifySpec(s, cb, r).state == Finished
    ensures DoneSpec(DoneSpec(s)) == DoneSpec(s)
  {
  }

  // ---------------------------------------------------------------------------------
  // The whole life of an item on a serial queue

  /**
   * What can happen to an item once it is queued: the queue starts it (only when it is
   * ready), its owner delivers a platform completion to it (only while it executes, the
   * routing every device revision performs), or the queue cancels it.
   */
  datatype Step<T> = Start(report: Option<Result<T>>) | Complete(result: Result<T>) | CancelStep

  function Apply<T>(s: Snapshot<T>, hasExecution: bool, cb: Option<CallbackBlock>, step: Step<T>): Snapshot<T> {
    match step
    case Start(report) => if s.state == Ready then PerformSpec(s, hasExecution, cb, report) else s
    case Complete(r) => if s.state == Executing then NotifySpec(s, cb, r) else s
    case CancelStep => CancelSpec(s)
  }

  function Run<T>(s: Snapshot<T>, hasExecution: bool, cb: Option<CallbackBlock>, steps: seq<Step<T>>): Snapshot<T>
    decreases |steps|
  {
    if steps == [] then s else Run(Apply(s, hasExecution, cb, steps[0]), hasExecution, cb, steps[1..])
  }

  function ExecutionCount<T>(trace: seq<ItemEvent<T>>): nat {
    if trace == [] then 0 else (if trace[0].ExecutionRan? then 1 else 0) + ExecutionCount(trace[1..])
  }

  function CallbackCount<T>(trace: seq<ItemEvent<T>>): nat {
    if trace == [] then 0 else (if trace[0].CallbackRan? then 1 else 0) + CallbackCount(trace[1..])
  }

  lemma CountsOfAppend<T>(a: seq<ItemEvent<T>>, e: ItemEvent<T>)
    ensures ExecutionCount(a + [e]) == ExecutionCount(a) + (if e.ExecutionRan? then 1 else 0)
    ensures CallbackCount(a + [e]) == CallbackCount(a) + (if e.CallbackRan? then 1 else 0)
  {
    if a != [] {
      assert (a + [e])[1..] == a[1..] + [e];
      CountsOfAppend(a[1..], e);
    }
  }

  ghost predicate LifeInvariant<T>(s: Snapshot<T>) {
    && ExecutionCount(s.trace) <= 1
    && CallbackCount(s.trace) <= 1
    && (s.state == Ready ==> ExecutionCount(s.trace) == 0 && CallbackCount(s.trace) == 0)
    && (CallbackCount(s.trace) == 1 ==> s.state == Finished)
  }

  lemma ApplyKeepsInvariant<T>(s: Snapshot<T>, hasExecution: bool, cb: Option<CallbackBlock>, step: Step<T>)
    requires cb.Some? ==> cb.value.callsDone
    requires LifeInvariant(s)
    ensures LifeInvariant(Apply(s, hasExecution, cb, step))
  {
    match step
    case Start(report) =>
      if s.state == Ready && !s.cancelled && hasExecution {
        var s1 := s.(state := Executing);
        CountsOfAppend(s1.trace, ExecutionRan);
        if report.Some? && report.value.Failure? && cb.Some? {
          CountsOfAppend(s1.trace + [ExecutionRan], CallbackRan(report.value));
        }
      }
    case Complete(r) =>
      if s.state == Executing && cb.Some? {
        CountsOfAppend(s.trace, CallbackRan(r));
      }
    case CancelStep =>
  }

  /**
   * On a serial queue whose callbacks call `done` (every item a device creates), the
   * execution block of an item runs at most once and its callback fires at most once,
   * whatever interleaving of starts, completions and cancellations occurs; and once the
   * callback has fired the item is finished.  The callback is not guaranteed to fire at
   * all: `cancel` finishes an item without it.
   */
  lemma {:induction false} AtMostOnceOnSerialQueue<T>(s: Snapshot<T>, hasExecution: bool, cb: Option<CallbackBlock>,
                                                      steps: seq<Step<T>>)
    requires cb.Some? ==> cb.value.callsDone
    requires LifeInvariant(s)
    ensures var t := Run(s, hasExecution, cb, steps);
      ExecutionCount(t.trace) <= 1 && CallbackCount(t.trace) <= 1
      && (CallbackCount(t.trace) == 1 ==> t.state == Finished)
    decreases |steps|
  {
    if steps != [] {
      ApplyKeepsInvariant(s, hasExecution, cb, steps[0]);
      AtMostOnceOnSerialQueue(Apply(s, hasExecution, cb, steps[0]), hasExecution, cb, steps[1..]);
    }
  }

  /** A freshly constructed item satisfies the invariant the serial-queue lemma starts from. */
  lemma FreshItemStartsLife<T>()
    ensures LifeInvariant(Snapshot<T>.Snapshot(Ready, false, []))
  {
  }
}
