# Admission queue and model residency of tiny-llm, in Dafny

This project models the two stateful parts of the tiny-llm inference server's core. Each
`async` method is treated as one atomic step of a sequential state machine.

- **`InferenceQueue`** (`src/app/core/interenceQueue.py`) is a bounded FIFO of `(task, future)`
  pairs drained by one worker. It is modelled as the class `AdmissionQueue.InferenceQueue`.
  - The deque is a `seq` of entries. `deque(maxlen=...)` silently drops the leftmost item when
    it is full; that behaviour is written out as `DequeAppend`.
  - Futures are named by tickets, which are handed out in admission order. The `futures` map
    holds each future's state: `Pending`, `Cancelled`, `Done` or `Failed`.
  - What a task does when it runs is a function parameter of the worker step. So is whether
    its future was cancelled while it ran.
  - Two ghost logs record the tickets the worker popped and the tickets whose task it ran. The
    class invariant ties them to the admission order.
- **The stream channel of `enqueue_stream`** is modelled by the module `StreamChannel`.
  - The channel carries markers: `Token(t) | Failure(e) | End`.
  - `Wrap` is what the producer wrapper puts on the channel. `Decode` is what the consumer loop
    yields from it.
  - The wrapper's loop and the consumer's loop are methods proved equal to these two functions.
- **`ModelManager`** (`src/app/core/modelManager.py`) is the residency table, modelled as the
  class `ResidencyManager.ModelManager`.
  - It has a constant registry (id to path) and a mutable `models` map (id to loaded brain).
  - `os.path.exists` and the `Llama(...)` constructor are function parameters: `pathExists` and
    `construct`.
  - A ghost log records each unload and each call of `_load_model`, together with the ids
    resident at that moment.
  - The class invariant is that no two ids are ever resident at once.

`scenarios.dfy` holds client runs whose outcomes are proved:
- a capacity-1 queue refuses a second request;
- requests run in admission order;
- a request cancelled before it is dequeued never runs;
- a stream of `"He"`, `"llo"` is read back followed by its end;
- after shutdown, nothing is popped;
- asking for an unregistered model id first evicts the resident model, then raises.

The last scenario is how the code behaves: `safe_load` evicts before `_load_model` checks the
registry. So a request for an unknown id leaves nothing resident, and `is_ready()` turns false.

Four behaviours of the code are worth noting; the model follows the code in each:
- A loader failure is re-raised as is. It is not wrapped in a separate load error.
- The admission check is `len >= maxlen`. Under the invariant this is the same as "depth equals
  capacity".
- `start_worker` after `shutdown` of a worker that was started does nothing, because
  `_worker_task` is never reset, so such a queue cannot be restarted. A `shutdown` before any
  `start_worker` leaves `_worker_task` at `None`, and a later `start_worker` still starts the
  worker.
- `enqueue_stream` is an async generator (it contains `yield`), so calling it runs nothing. Its
  capacity check, channel creation and append happen when the consumer first reads from it. The
  model's `EnqueueStream` is that first read, and `QueueFull` is raised there.

## Model

| member | source | states |
|---|---|---|
| `StreamChannel.Wrap` | src/app/core/interenceQueue.py:55-65 | The wrapper's channel holds the produced tokens in order. It then holds one exception marker exactly when the producer raised. It ends with exactly one end marker, and nothing comes after it. |
| `StreamChannel.Decode` | src/app/core/interenceQueue.py:73-79 | The consumer yields exactly the leading tokens of the channel. It stops at the first end marker, raises the first exception marker, or is still waiting when the channel has no terminal marker. |
| `StreamChannel.DecodeUnique` | src/app/core/interenceQueue.py:73-79 | Any reading that yields the channel's leading tokens and stops at its first terminal marker, or waits when there is none, is the consumer's reading. So the read loop's result is determined by the channel alone. |
| `StreamChannel.DecodeWrapThenAnything` | src/app/core/interenceQueue.py:55-79 | Round trip: reading what the wrapper wrote yields exactly the produced tokens, in order. It then finishes normally, or raises the producer's exception. Whatever follows on the channel is never read. |
| `StreamChannel.DecodeWrap` | src/app/core/interenceQueue.py:55-79 | The round trip for a channel that holds only the wrapper's output. |
| `StreamChannel.RunWrapper` | src/app/core/interenceQueue.py:55-65 | The wrapper's loop (forward each token, then the exception if any, then always the end marker) produces exactly `Wrap` of the producer run. |
| `StreamChannel.Consume` | src/app/core/interenceQueue.py:73-79 | The consumer's `while True` read loop yields exactly what `Decode` says and stops the same way. |
| `AdmissionQueue.DequeAppend` | src/app/core/interenceQueue.py:8 | A bounded deque never exceeds `maxlen`. Below `maxlen` it appends at the tail. At `maxlen` it silently drops the oldest item. |
| `AdmissionQueue.Settle` | src/app/core/interenceQueue.py:100-106 | A run task's future gets the returned value or the raised exception. It stays cancelled if it was cancelled meanwhile, and it is never left pending. |
| `AdmissionQueue.InferenceQueue.constructor` | src/app/core/interenceQueue.py:7-11 | A new queue with capacity `max_size` (default 100) is empty, not processing, and has no worker. |
| `AdmissionQueue.InferenceQueue.Depth` | src/app/core/interenceQueue.py:108-110 | The depth is the number of queued items and never exceeds the capacity. |
| `AdmissionQueue.InferenceQueue.StartWorker` | src/app/core/interenceQueue.py:13-18 | The first call sets `processing` and creates the worker. Any later call, including one after `shutdown`, changes nothing. |
| `AdmissionQueue.InferenceQueue.Shutdown` | src/app/core/interenceQueue.py:20-25 | Clears `processing`. Nothing else changes: queued items stay queued and their futures stay as they were. |
| `AdmissionQueue.InferenceQueue.Admit` | src/app/core/interenceQueue.py:32-36 | Refusal happens exactly when depth >= capacity, and then nothing changes. Otherwise exactly one item with a fresh pending future is appended at the tail. Earlier items, their order and all other futures are unchanged, and the deque's drop never happens. |
| `AdmissionQueue.InferenceQueue.Enqueue` | src/app/core/interenceQueue.py:27-39 | `enqueue` admission: `QueueFull` exactly when depth >= capacity, with the queue unchanged. Otherwise one call item and a fresh pending future are appended at the tail. |
| `AdmissionQueue.InferenceQueue.EnqueueStream` | src/app/core/interenceQueue.py:41-70 | `enqueue_stream` admission, which runs at the consumer's first read of the generator: the same check. On success, one stream item, a fresh pending future and a fresh empty channel are added. |
| `AdmissionQueue.InferenceQueue.Cancel` | src/app/core/interenceQueue.py:97-98 | A requester's `future.cancel()`, which the worker observes: only a pending future becomes cancelled. A settled future is never changed. |
| `AdmissionQueue.InferenceQueue.PopOldest` | src/app/core/interenceQueue.py:92-93 | `popleft` removes the head item. Its ticket is the next one in admission order and is no longer queued. |
| `AdmissionQueue.InferenceQueue.RunDequeued` | src/app/core/interenceQueue.py:100-106 | Running a popped item with a pending future runs its task exactly once, after every earlier run. Only that item's own future is settled (`Settle`). For a stream, its channel is set to the wrapper's output, and that output decodes to the produced tokens and ending. |
| `AdmissionQueue.InferenceQueue.WorkerStep` | src/app/core/interenceQueue.py:81-106 | One worker iteration. It waits, changing nothing, exactly when the queue is empty. It exits without popping exactly when items are queued and `processing` is false. Otherwise it pops the oldest item. If that item's future was already cancelled, it is discarded without running. Otherwise its task runs once, and only its own future is settled (`Settle`). A stream task's channel then decodes to its tokens and ending. Settled futures never change, and a failing task leaves the worker running. |
| `ResidencyManager.Evicted` | src/app/core/modelManager.py:84-88 | After eviction only `keep` can remain resident, with its handle unchanged. It stays resident if it already was. |
| `ResidencyManager.LoadModel` | src/app/core/modelManager.py:94-118 | `ValueError` exactly when the id is not registered. `FileNotFoundError`, naming the registry path, exactly when the id is registered but its path does not exist. Exactly when the loader raises, its own exception is re-raised unchanged. Success exactly when the file exists and the loader builds an instance. The loader is called with the registry path, context 2048, 6 threads and all GPU layers, and the result is the brain of this id wrapping that instance. |
| `ResidencyManager.AtMostOneResidentSize` | src/app/core/modelManager.py:80-92 | The residency invariant (no two distinct ids resident) means at most one entry in the table. `Unload`, `SafeLoad` and `GetModel` use it to promise at most one resident model afterwards. |
| `ResidencyManager.UnloadOneMore` | src/app/core/modelManager.py:84-88 | Unloading one more id extends an exactly-once unload record. |
| `ResidencyManager.ModelManager.constructor` | src/app/core/modelManager.py:62-67 | The registry holds the one configured model and nothing is resident. |
| `ResidencyManager.ModelManager.IsReady` | src/app/core/modelManager.py:143-144 | Ready exactly when some model is resident. |
| `ResidencyManager.ModelManager.Unload` | src/app/core/modelManager.py:120-128 | An absent id is a no-op: nothing changes and nothing is logged. A present id is removed, logged once, and no other entry changes. At most one model stays resident. |
| `ResidencyManager.ModelManager.EvictOthers` | src/app/core/modelManager.py:84-88 | The loop over the resident ids unloads every id other than the target, each exactly once. It leaves the table as `Evicted`. |
| `ResidencyManager.ModelManager.SafeLoad` | src/app/core/modelManager.py:80-92 | Afterwards every resident key is the target. If the target was resident, nothing is loaded. Otherwise all others are unloaded before the single loader call, which sees nothing resident. The table then holds exactly the new brain, or is empty if the load failed; the load's error is reported. At most one model stays resident. |
| `ResidencyManager.ModelManager.GetModel` | src/app/core/modelManager.py:69-78 | An already resident id is returned as is, with no load and no change. Otherwise the result is `_load_model`'s, after the others were evicted. On success the id is resident and the returned handle is `models[id]`; on failure nothing is resident. At most one model stays resident. |

## Left out

- Asyncio scheduling is not modelled. This covers `asyncio.Event`, `create_task`, awaiting a future, and interleavings between steps. Each method is one atomic step. Awaiting `enqueue`'s future is modelled by reading the future's state in `futures`.
- A cancellation that reaches the worker while a task runs is not modelled as such. It is only the `cancelledMeanwhile` parameter (see `Settle`). Shutdown's `_worker_task.cancel()` is modelled only by `processing` becoming false. The abandoned in-flight run is not represented.
- On an empty queue the worker waits, so `except IndexError: continue` (src/app/core/interenceQueue.py:94-95) cannot be reached in a sequential model. It is not represented.
- The `asyncio.Lock` in `get_model` is not modelled. With one step at a time the re-check always finds the id still absent. The race between a lookup and a concurrent eviction is a concurrency matter and is not modelled.
- `LlamaBrain.generate`, `generate_iterator` and `__call__` are not modelled. They are calls into `llama_cpp` through a thread pool. A brain is modelled as its model id and an opaque instance number.
- The `Llama(...)` constructor and `os.path.exists` are not modelled. Both are foreign calls and appear as the parameters `construct` and `pathExists`.
- `del ....model`, `gc.collect()` and all `print` logging are not modelled. They release memory or write output and change no modelled state.
- `warmup_models` is not modelled. It is a foreign inference call whose exceptions are swallowed.
- The module-level singleton `get_manager` is not modelled.
- The HTTP controller, the server-sent-events framing, the application lifespan, the request schemas and the manual test script are not part of this model. They are not core.
- Channel typing: the source puts tokens, exception objects and the `StopAsyncIteration` class on one untyped channel. A generator that yielded an exception object or that class as a token would be misread by the consumer. The model's tagged markers rule this case out.
- Consuming a channel is modelled as reading a snapshot of it. That `get()` removes items, and that a stream cannot be replayed, are not modelled.
- A `max_size` that is negative or `None` makes the deque constructor or the check raise. Such values are not modelled; the capacity is a `nat`.
- Task results are modelled as `NoValue` (Python `None`) or a text. Exceptions are modelled as strings.
- EnqueueStream: models the consumer's first read of the `enqueue_stream` async generator, not the call that creates it. Admission, and any `QueueFull`, happen at that first read. A stream that is never read is never admitted, and the model has no state for such a stream.
- In the source, nobody but the queue holds the future created by `enqueue_stream`. The model's `Cancel` accepts any ticket.
