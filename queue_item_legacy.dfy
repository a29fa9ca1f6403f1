/**
 * The older `QueueItem` of Sources/Models/QueueItem.swift.  It has no closures of its
 * own: `execute` is a default implementation that finishes the item, and `main` either
 * finishes a cancelled item or executes.  Its `state` is never assigned `.executing`.
 */
module LegacyQueueItems {
  import opened Optional
  import opened QueueItems

  class LegacyQueueItem {
    /** Stored as given and consulted nowhere. */
    const timeout: real
    const doOnFailure: FailureHandler
    const priority: Priority
    /** Foundation's `completionBlock`, which Foundation itself runs once the item finishes. */
    const completion: Option<nat>

    var state: State
    var cancelled: bool
    /** How many times `execute` ran. */
    ghost var executions: nat

    /** The item's state is never `.executing`: no method assigns it. */
    ghost predicate Valid()
      reads this
    {
      state != Executing
    }

    /** `init(timeout:doOnFailure:priority:completion:)`: a new item is ready. */
    constructor (timeout: real, doOnFailure: FailureHandler, priority: Priority, completion: Option<nat>)
      ensures Valid()
      ensures this.timeout == timeout && this.doOnFailure == doOnFailure
      ensures this.priority == priority && this.completion == completion
      ensures !IsExecuting() && !IsFinished() && !cancelled && executions == 0
    {
      this.timeout := timeout;
      this.doOnFailure := doOnFailure;
      this.priority := priority;
      this.completion := completion;
      state := Ready;
      cancelled := false;
      executions := 0;
    }

    predicate IsExecuting()
      reads this
    {
      state == Executing
    }

    predicate IsFinished()
      reads this
    {
      state == Finished
    }

    /** `finish()`: idempotent, and finished is absorbing. */
    method Finish()
      requires Valid()
      modifies this
      ensures Valid() && IsFinished()
      ensures cancelled == old(cancelled) && executions == old(executions)
    {
      state := Finished;
    }

    /** `cancel()` is Foundation's: it only sets the flag. */
    method Cancel()
      requires Valid()
      modifies this
      ensures Valid() && cancelled
      ensures state == old(state) && executions == old(executions)
    {
      cancelled := true;
    }

    /** The default `execute()` finishes the item. */
    method Execute()
      requires Valid()
      modifies this
      ensures Valid() && IsFinished()
      ensures cancelled == old(cancelled) && executions == old(executions) + 1
    {
      executions := executions + 1;
      Finish();
    }

    /** `main()`: a cancelled item finishes without executing; any other executes, and so finishes. */
    method Perform()
      requires Valid()
      modifies this
      ensures Valid() && IsFinished() && !IsExecuting()
      ensures cancelled == old(cancelled)
      ensures executions == old(executions) + (if old(cancelled) then 0 else 1)
    {
      if cancelled {
        Finish();
        return;
      }
      Execute();
    }
  }
}
