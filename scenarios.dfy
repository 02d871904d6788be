/** Client runs of the two components, proved from their contracts alone. */
module Scenarios {
  import opened Outcomes
  import opened StreamChannel
  import opened AdmissionQueue
  import opened ResidencyManager

  function Results(task: TaskId): TaskOutcome {
    Returned(Text(if task == 0 then "a" else if task == 1 then "b" else "c"))
  }

  function NoTokens(task: TaskId): ProducerRun<string, string> {
    ProducerRun([], None)
  }

  function Hello(task: TaskId): ProducerRun<string, string> {
    ProducerRun(["He", "llo"], None)
  }

  /** Capacity 1: while the first request is queued, a second one is refused. */
  method CapacityScenario() {
    var q := new InferenceQueue(1);
    q.StartWorker();
    var first := q.Enqueue(0);
    var second := q.Enqueue(1);
    assert first == Admitted(0) && second == QueueFull;
    var s := q.WorkerStep(Results, NoTokens, false);
    assert s == Ran(0) && q.futures[0] == Done(Text("a"));
    var third := q.Enqueue(1);
    assert third == Admitted(1);
  }

  /** Requests run in the order they were admitted: "a", then "b". */
  method OrderScenario() {
    var q := new InferenceQueue();
    q.StartWorker();
    var a := q.Enqueue(0);
    var b := q.Enqueue(1);
    var s := q.WorkerStep(Results, NoTokens, false);
    assert s == Ran(0) && q.futures[0] == Done(Text("a")) && q.futures[1] == Pending;
    s := q.WorkerStep(Results, NoTokens, false);
    assert s == Ran(1) && q.futures[1] == Done(Text("b"));
  }

  /** A request cancelled before it is dequeued is discarded without running. */
  method CancelScenario() {
    var q := new InferenceQueue();
    q.StartWorker();
    var a := q.Enqueue(7);
    var cancelled := q.Cancel(0);
    assert cancelled;
    var s := q.WorkerStep(Results, NoTokens, false);
    assert s == Skipped(0) && q.futures[0] == Cancelled && q.executed == [];
  }

  /** A streamed request yields "He", "llo", then the end of the stream. */
  method StreamScenario() {
    var q := new InferenceQueue();
    q.StartWorker();
    var b := q.EnqueueStream(8);
    assert b == Admitted(0);
    var s := q.WorkerStep(Results, Hello, false);
    assert s == Ran(0);
    var tokens, ending := Consume(q.channels[0]);
    assert tokens == ["He", "llo"] && ending == Finished;
  }

  /** After shutdown a queued request is never popped, and the worker cannot be restarted. */
  method ShutdownScenario() {
    var q := new InferenceQueue();
    q.StartWorker();
    q.Shutdown();
    var c := q.Enqueue(9);
    q.StartWorker();
    var s := q.WorkerStep(Results, NoTokens, false);
    assert s == Exited && q.futures[0] == Pending;
  }

  function OnDisk(p: Path): bool { true }

  function Loader(params: LoadParams): LoadAttempt { Constructed(42) }

  /** Loading the registered model makes the manager ready; asking again loads nothing. */
  method LoadScenario() {
    var m := new ModelManager();
    var brain := m.GetModel("gemma-3-1b", OnDisk, Loader);
    assert brain == Ok(Brain("gemma-3-1b", 42));
    assert m.IsReady();
    var again := m.GetModel("gemma-3-1b", OnDisk, Loader);
    assert again == brain && |m.log| == 1;
  }

  /** Asking for an unregistered id first evicts the resident model, then fails. */
  method UnknownModelScenario(m: ModelManager)
    requires m.Valid() && m.registry == DefaultRegistry()
    requires m.models == map["gemma-3-1b" := Brain("gemma-3-1b", 42)]
    modifies m
  {
    ghost var before := |m.log|;
    var other := m.GetModel("llama-3", OnDisk, Loader);
    assert other == Err(UnknownModel("llama-3"));
    assert m.models == map[] && !m.IsReady();
    assert m.log[before..|m.log| - 1] == [Unloaded("gemma-3-1b")];
  }
}
