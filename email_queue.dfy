/**
 * The single-consumer FIFO work queue of utils/Queue.ts.
 *
 * The injected processing function is represented by an outcome oracle
 * `fails`: `fails(x)` says whether processing `x` raises.  A raised error
 * is caught, logged and forgotten, so the queue itself only needs to know
 * which items were handed over and which of them failed.
 */
module Queueing {

  /** The items of `handed` whose processing failed, in order (the errors that were logged). */
  function Failures<T(!new)>(handed: seq<T>, fails: T -> bool): (failed: seq<T>)
    ensures |failed| <= |handed|
    ensures forall x :: x in failed <==> x in handed && fails(x)
  {
    if handed == [] then []
    else
      var last := handed[|handed| - 1];
      Failures(handed[..|handed| - 1], fails) + (if fails(last) then [last] else [])
  }

  class EmailQueue<T(!new)> {
    /** Items not yet taken by the drain loop, oldest first. */
    var queue: seq<T>
    /** A drain loop is running. */
    var processing: bool

    constructor ()
      ensures queue == [] && !processing
    {
      queue := [];
      processing := false;
    }

    /** The `push` of `enqueue`. */
    method Push(item: T)
      modifies this
      ensures queue == old(queue) + [item] && processing == old(processing)
    {
      queue := queue + [item];
    }

    /** The guard of `processQueue`: a drain starts only if none runs and there is work. */
    method TryStartDrain() returns (started: bool)
      modifies this
      ensures started <==> !old(processing) && old(queue) != []
      ensures queue == old(queue) && processing == (old(processing) || started)
    {
      if processing || |queue| == 0 {
        return false;
      }
      processing := true;
      started := true;
    }

    /** The `shift` of the drain loop; the loop calls it only on a non-empty queue. */
    method Shift() returns (item: T)
      requires queue != []
      modifies this
      ensures item == old(queue)[0] && queue == old(queue)[1..] && processing == old(processing)
    {
      item := queue[0];
      queue := queue[1..];
    }

    /** The end of the drain loop. */
    method FinishDrain()
      modifies this
      ensures queue == old(queue) && !processing
    {
      processing := false;
    }

    /**
     * `processQueue`: unless a drain already runs or there is nothing to do,
     * hands every queued item to the processor, in FIFO order and exactly
     * once, whatever the processor's failures, and leaves the queue empty
     * and idle.  `handed` is the sequence of items given to the processor,
     * `failed` the ones whose error was caught and logged.
     */
    method ProcessQueue(fails: T -> bool) returns (handed: seq<T>, failed: seq<T>)
      modifies this
      ensures old(processing) || old(queue) == [] ==>
        handed == [] && queue == old(queue) && processing == old(processing)
      ensures !old(processing) && old(queue) != [] ==>
        handed == old(queue) && queue == [] && !processing
      ensures failed == Failures(handed, fails)
    {
      handed, failed := [], [];
      var started := TryStartDrain();
      if !started {
        return;
      }
      while |queue| > 0
        invariant handed + queue == old(queue)
        invariant failed == Failures(handed, fails)
        invariant processing
        decreases |queue|
      {
        var item := Shift();
        assert (handed + [item])[..|handed|] == handed;
        handed := handed + [item];
        if fails(item) {
          failed := failed + [item];
        }
      }
      FinishDrain();
    }

    /** `enqueue`: push the item, then trigger a drain. */
    method Enqueue(item: T, fails: T -> bool) returns (handed: seq<T>, failed: seq<T>)
      modifies this
      ensures old(processing) ==>
        handed == [] && queue == old(queue) + [item] && processing
      ensures !old(processing) ==>
        handed == old(queue) + [item] && queue == [] && !processing
      ensures failed == Failures(handed, fails)
    {
      Push(item);
      handed, failed := ProcessQueue(fails);
    }

    /** Items not yet taken by the drain loop (the one in flight is not counted). */
    function GetQueueSize(): nat
      reads this
    {
      |queue|
    }
  }
}
