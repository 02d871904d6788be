/** `InferenceQueue`: a bounded FIFO admission queue drained by a single worker.

    Every `async` method is one atomic step. A future is named by a ticket, a number handed out
    once per admitted request; `futures` holds the state of every future created so far. The
    token channel of a streaming request lives in `channels` under the request's ticket. What a
    task does when run is given by the function parameters of `WorkerStep`. */
module AdmissionQueue {
  import opened Outcomes
  import opened StreamChannel

  type TaskId = nat
  type Ticket = nat

  const DefaultMaxSize: nat := 100

  /** A queued callable: a single-shot task (`enqueue`) or the stream wrapper around a token
      generator (`enqueue_stream`). */
  datatype Job = Call(task: TaskId) | Stream(task: TaskId)

  /** One `(task_fn, future)` pair of the deque. */
  datatype Entry = Entry(ticket: Ticket, job: Job)

  /** What a task returns: a value (the stream wrapper returns `None`) or an exception. */
  datatype Value = NoValue | Text(text: string)
  datatype TaskOutcome = Returned(value: Value) | Threw(error: string)

  /** The state of an `asyncio.Future`. */
  datatype FutureState = Pending | Cancelled | Done(value: Value) | Failed(error: string)

  datatype Admission = Admitted(ticket: Ticket) | QueueFull

  /** What one iteration of `_worker`'s loop did. */
  datatype StepResult =
    | Waited            // the queue was empty: the worker blocks on its event
    | Exited            // `processing` was false: the loop breaks
    | Skipped(ticket: Ticket)  // the oldest item's future was already cancelled
    | Ran(ticket: Ticket)      // the oldest item's task was run

  /** `deque.append` on a deque bounded by `maxlen`: when full, the leftmost item is dropped. */
  function DequeAppend<T>(s: seq<T>, x: T, maxlen: nat): (r: seq<T>)
    requires |s| <= maxlen
    ensures |r| <= maxlen
    ensures |s| < maxlen ==> r == s + [x]
    ensures |s| == maxlen > 0 ==> r == s[1..] + [x]
    ensures maxlen == 0 ==> r == []
  {
    if |s| < maxlen then s + [x] else (s + [x])[1..]
  }

  /** The future state the worker leaves after running a task whose future was pending:
      the task's outcome, unless the future was cancelled while the task ran. */
  function Settle(outcome: TaskOutcome, cancelledMeanwhile: bool): (f: FutureState)
    ensures f != Pending
    ensures cancelledMeanwhile <==> f == Cancelled
    ensures !cancelledMeanwhile && outcome.Returned? ==> f == Done(outcome.value)
    ensures !cancelledMeanwhile && outcome.Threw? ==> f == Failed(outcome.error)
  {
    if cancelledMeanwhile then Cancelled
    else match outcome
      case Returned(v) => Done(v)
      case Threw(e) => Failed(e)
  }

  /** A future, once no longer pending, keeps its state: it is assigned at most once. */
  ghost predicate SettledKept(before: map<Ticket, FutureState>, after: map<Ticket, FutureState>) {
    forall t :: t in before ==> t in after && (before[t] != Pending ==> after[t] == before[t])
  }

  class InferenceQueue {
    const maxSize: nat                 // the deque's `maxlen`
    var entries: seq<Entry>            // the deque, oldest first
    var futures: map<Ticket, FutureState>
    var channels: map<Ticket, seq<Marker<string, string>>>
    var processing: bool
    var hasWorkerTask: bool            // `_worker_task is not None`
    var nextTicket: Ticket
    ghost var dequeued: seq<Ticket>    // tickets popped by the worker, in the order popped
    ghost var executed: seq<Ticket>    // tickets whose task the worker actually ran

    ghost predicate Valid()
      reads this
    {
      && |entries| <= maxSize
      && (forall t :: t in futures <==> 0 <= t < nextTicket)
      // FIFO: tickets are handed out in admission order; popped ones form a prefix of it,
      // queued ones the rest, in order
      && |dequeued| + |entries| == nextTicket
      && (forall i :: 0 <= i < |dequeued| ==> dequeued[i] == i)
      && (forall i :: 0 <= i < |entries| ==> entries[i].ticket == |dequeued| + i)
      // a queued item's future has not been assigned a result
      && (forall i :: 0 <= i < |entries| ==> futures[entries[i].ticket] in {Pending, Cancelled})
      // a queued stream item's channel is still empty
      && (forall i :: 0 <= i < |entries| && entries[i].job.Stream? ==>
            entries[i].ticket in channels && channels[entries[i].ticket] == [])
      // each task is run at most once, and only after it was dequeued
      && (forall i :: 0 <= i < |executed| ==> executed[i] < |dequeued|)
      && (forall i, j :: 0 <= i < j < |executed| ==> executed[i] < executed[j])
      // a future holds a result or an exception only if its task was run
      && (forall t :: t in futures && (futures[t].Done? || futures[t].Failed?) ==> t in executed)
    }

    /** `__init__(max_size=100)`. */
    constructor (maxSize: nat := DefaultMaxSize)
      ensures Valid()
      ensures this.maxSize == maxSize
      ensures entries == [] && futures == map[] && channels == map[]
      ensures !processing && !hasWorkerTask
      ensures nextTicket == 0 && dequeued == [] && executed == []
    {
      this.maxSize := maxSize;
      entries := [];
      futures := map[];
      channels := map[];
      processing := false;
      hasWorkerTask := false;
      nextTicket := 0;
      dequeued := [];
      executed := [];
    }

    /** `depth()`: the number of queued items, never more than the capacity. */
    function Depth(): (d: nat)
      reads this
      requires Valid()
      ensures d == |entries|
      ensures d <= maxSize
    {
      |entries|
    }

    /** `start_worker()`: creates the worker only if none was ever created. */
    method StartWorker()
      requires Valid()
      modifies this
      ensures Valid()
      ensures old(hasWorkerTask) ==> processing == old(processing)
      ensures !old(hasWorkerTask) ==> processing
      ensures hasWorkerTask
      ensures entries == old(entries) && futures == old(futures) && channels == old(channels)
      ensures nextTicket == old(nextTicket) && dequeued == old(dequeued) && executed == old(executed)
    {
      if !hasWorkerTask {
        processing := true;
        hasWorkerTask := true;
      }
    }

    /** `shutdown()`: clears `processing`; queued work stays queued and its futures pending. */
    method Shutdown()
      requires Valid()
      modifies this`processing
      ensures Valid()
      ensures !processing
    {
      processing := false;
    }

    /** The admission shared by `enqueue` and `enqueue_stream`: refuse when the deque holds
      `maxlen` items, otherwise append one item with a fresh pending future. */
    method Admit(job: Job) returns (r: Admission)
      requires Valid()
      modifies this
      ensures Valid()
      ensures r == QueueFull <==> old(|entries|) >= maxSize
      ensures r == QueueFull ==>
        entries == old(entries) && futures == old(futures) && channels == old(channels) &&
        nextTicket == old(nextTicket)
      ensures r.Admitted? ==>
        && r.ticket == old(nextTicket) && r.ticket !in old(futures)
        && entries == old(entries) + [Entry(r.ticket, job)]
        && futures == old(futures)[r.ticket := Pending]
        && nextTicket == old(nextTicket) + 1
        && channels == if job.Stream? then old(channels)[r.ticket := []] else old(channels)
      ensures SettledKept(old(futures), futures)
      ensures processing == old(processing) && hasWorkerTask == old(hasWorkerTask)
      ensures dequeued == old(dequeued) && executed == old(executed)
    {
      if |entries| >= maxSize {
        return QueueFull;
      }
      var ticket := nextTicket;
      if job.Stream? {
        channels := channels[ticket := []];
      }
      futures := futures[ticket := Pending];
      entries := DequeAppend(entries, Entry(ticket, job), maxSize);
      nextTicket := nextTicket + 1;
      r := Admitted(ticket);
    }

    /** `enqueue(task_fn)`: admission of a single-shot task; awaiting the result is reading
      `futures[ticket]` once the worker has run it. */
    method Enqueue(task: TaskId) returns (r: Admission)
      requires Valid()
      modifies this
      ensures Valid()
      ensures r == QueueFull <==> old(|entries|) >= maxSize
      ensures r == QueueFull ==> entries == old(entries) && futures == old(futures)
      ensures r.Admitted? ==>
        && entries == old(entries) + [Entry(r.ticket, Call(task))]
        && r.ticket == old(nextTicket) && r.ticket !in old(futures) && nextTicket == old(nextTicket) + 1
        && futures == old(futures)[r.ticket := Pending]
      ensures channels == old(channels)
      ensures processing == old(processing) && hasWorkerTask == old(hasWorkerTask)
      ensures dequeued == old(dequeued) && executed == old(executed)
    {
      r := Admit(Call(task));
    }

    /** `enqueue_stream(task_fn)`, admission half: the same check, then a fresh empty channel
      and the stream wrapper appended. Reading the channel is `StreamChannel.Consume`. */
    method EnqueueStream(task: TaskId) returns (r: Admission)
      requires Valid()
      modifies this
      ensures Valid()
      ensures r == QueueFull <==> old(|entries|) >= maxSize
      ensures r == QueueFull ==> entries == old(entries) && futures == old(futures) && channels == old(channels)
      ensures r.Admitted? ==>
        && entries == old(entries) + [Entry(r.ticket, Stream(task))]
        && r.ticket == old(nextTicket) && r.ticket !in old(futures) && nextTicket == old(nextTicket) + 1
        && futures == old(futures)[r.ticket := Pending]
        && channels == old(channels)[r.ticket := []]
      ensures processing == old(processing) && hasWorkerTask == old(hasWorkerTask)
      ensures dequeued == old(dequeued) && executed == old(executed)
    {
      r := Admit(Stream(task));
    }

    /** `future.cancel()` called by the requester on the future of `ticket`: only a pending future
      becomes cancelled. */
    method Cancel(ticket: Ticket) returns (cancelled: bool)
      requires Valid()
      modifies this`futures
      ensures Valid()
      ensures cancelled <==> ticket in old(futures) && old(futures)[ticket] == Pending
      ensures futures == if cancelled then old(futures)[ticket := Cancelled] else old(futures)
      ensures SettledKept(old(futures), futures)
    {
      cancelled := ticket in futures && futures[ticket] == Pending;
      if cancelled {
        futures := futures[ticket := Cancelled];
      }
    }

    /** `self._queue.popleft()`: removes and returns the oldest item. */
    method PopOldest() returns (entry: Entry)
      requires Valid() && entries != []
      modifies this`entries, this`dequeued
      ensures Valid()
      ensures entry == old(entries)[0] && entries == old(entries)[1..]
      ensures dequeued == old(dequeued) + [entry.ticket]
      ensures entry.ticket == old(|dequeued|)
      ensures forall i :: 0 <= i < |entries| ==> entries[i].ticket != entry.ticket
    {
      entry := entries[0];
      entries := entries[1..];
      dequeued := dequeued + [entry.ticket];
    }

    /** The worker runs the task of a dequeued item whose future is pending and settles that
      future; a stream item's wrapper fills the item's channel. */
    method RunDequeued(entry: Entry, calls: TaskId -> TaskOutcome, streams: TaskId -> ProducerRun<string, string>,
                       cancelledMeanwhile: bool)
      requires Valid()
      requires entry.ticket + 1 == |dequeued| && dequeued[entry.ticket] == entry.ticket
      requires entry.ticket in futures && futures[entry.ticket] == Pending
      requires forall i :: 0 <= i < |executed| ==> executed[i] < entry.ticket
      modifies this`futures, this`channels, this`executed
      ensures Valid()
      ensures executed == old(executed) + [entry.ticket]
      ensures match entry.job
        case Call(task) =>
          && futures == old(futures)[entry.ticket := Settle(calls(task), cancelledMeanwhile)]
          && channels == old(channels)
        case Stream(task) =>
          && futures == old(futures)[entry.ticket := Settle(Returned(NoValue), cancelledMeanwhile)]
          && channels == old(channels)[entry.ticket := Wrap(streams(task))]
          && Decode(channels[entry.ticket]) == Consumed(streams(task).tokens, ExpectedEnding(streams(task)))
    {
      var t := entry.ticket;
      assert forall i :: 0 <= i < |entries| ==> entries[i].ticket != t;
      executed := executed + [t];
      match entry.job {
        case Call(task) =>
          futures := futures[t := Settle(calls(task), cancelledMeanwhile)];
        case Stream(task) =>
          var channel := RunWrapper(streams(task));
          DecodeWrap(streams(task));
          channels := channels[t := channel];
          futures := futures[t := Settle(Returned(NoValue), cancelledMeanwhile)];
      }
    }

    /** One iteration of `_worker`'s loop. `calls` and `streams` say what each task does when run;
      `cancelledMeanwhile` says whether the future was cancelled while its task ran. */
    method WorkerStep(calls: TaskId -> TaskOutcome, streams: TaskId -> ProducerRun<string, string>,
                      cancelledMeanwhile: bool)
      returns (s: StepResult)
      requires Valid()
      modifies this
      ensures Valid()
      ensures s == Waited <==> old(entries) == []
      ensures s == Exited <==> old(entries) != [] && !processing
      ensures s.Ran? <==>
        old(entries) != [] && processing && old(futures)[old(entries)[0].ticket] != Cancelled
      ensures s == Waited || s == Exited ==>
        entries == old(entries) && futures == old(futures) && channels == old(channels) &&
        dequeued == old(dequeued) && executed == old(executed)
      // otherwise the oldest item is removed, whatever happens to it next
      ensures s.Skipped? || s.Ran? ==>
        && old(entries) != [] && processing
        && s.ticket == old(entries)[0].ticket
        && entries == old(entries)[1..]
        && dequeued == old(dequeued) + [s.ticket]
      // an item whose future was cancelled before it was dequeued is discarded, its task not run
      ensures s.Skipped? <==> old(entries) != [] && processing && old(futures)[old(entries)[0].ticket] == Cancelled
      ensures s.Skipped? ==> futures == old(futures) && channels == old(channels) && executed == old(executed)
      // otherwise its task is run once and its outcome goes to its own future only
      ensures s.Ran? ==>
        && executed == old(executed) + [s.ticket]
        && old(futures)[s.ticket] == Pending
        && match old(entries)[0].job
           case Call(task) =>
             && futures == old(futures)[s.ticket := Settle(calls(task), cancelledMeanwhile)]
             && channels == old(channels)
           case Stream(task) =>
             && futures == old(futures)[s.ticket := Settle(Returned(NoValue), cancelledMeanwhile)]
             && channels == old(channels)[s.ticket := Wrap(streams(task))]
             && Decode(channels[s.ticket]) == Consumed(streams(task).tokens, ExpectedEnding(streams(task)))
      ensures SettledKept(old(futures), futures)
      ensures processing == old(processing) && hasWorkerTask == old(hasWorkerTask)
      ensures nextTicket == old(nextTicket)
    {
      if |entries| == 0 {
        return Waited;
      }
      if !processing {
        return Exited;
      }
      var entry := PopOldest();
      var t := entry.ticket;
      if futures[t] == Cancelled {
        return Skipped(t);
      }
      RunDequeued(entry, calls, streams, cancelledMeanwhile);
      s := Ran(t);
    }
  }
}
