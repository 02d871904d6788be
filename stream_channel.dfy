/** The token channel of `InferenceQueue.enqueue_stream`.

    The producer side (`worker_wrapper`) runs inside the queue's worker: it forwards every token
    the generation produces, pushes the exception if the generation raised, and always pushes an
    end marker last (its `finally` block). The consumer side reads markers until the end marker,
    re-raising an exception marker. The channel carries an explicit tagged variant instead of the
    source's exception objects and `StopAsyncIteration` sentinel. */
module StreamChannel {
  import opened Outcomes

  /** One item put on the channel. */
  datatype Marker<T, E> = Token(token: T) | Failure(error: E) | End

  /** What the producer generator did: the tokens it yielded, in order, and the exception it
      raised afterwards, if any. */
  datatype ProducerRun<T, E> = ProducerRun(tokens: seq<T>, failure: Option<E>)

  /** How the consumer's read loop stops: at the end marker, by raising an exception marker,
      or (the channel holding no terminal marker yet) still blocked in `get()`. */
  datatype Termination<E> = Finished | Raised(error: E) | Waiting

  /** What a consumer observes: the tokens it yielded and how it stopped. */
  datatype Consumed<T, E> = Consumed(tokens: seq<T>, ending: Termination<E>)

  function TokenMarkers<T, E>(ts: seq<T>): (ms: seq<Marker<T, E>>)
    ensures |ms| == |ts|
    ensures forall i :: 0 <= i < |ts| ==> ms[i] == Token(ts[i])
  {
    seq(|ts|, i requires 0 <= i < |ts| => Token(ts[i]))
  }

  /** The markers the producer wrapper puts on the channel for one run of the generator. */
  function Wrap<T, E>(run: ProducerRun<T, E>): (ch: seq<Marker<T, E>>)
    // the tokens come first, in the order produced
    ensures |ch| == |run.tokens| + (if run.failure.Some? then 1 else 0) + 1
    ensures forall i :: 0 <= i < |run.tokens| ==> ch[i] == Token(run.tokens[i])
    // exactly one end marker, and it is the last item
    ensures ch[|ch| - 1] == End
    ensures forall i :: 0 <= i < |ch| - 1 ==> !ch[i].End?
    // at most one exception marker, only when the producer raised, right before the end marker
    ensures forall i :: 0 <= i < |ch| && ch[i].Failure? ==> i == |ch| - 2 && run.failure == Some(ch[i].error)
    ensures run.failure.Some? ==> ch[|ch| - 2] == Failure(run.failure.value)
  {
    TokenMarkers(run.tokens) + (match run.failure case Some(e) => [Failure(e)] case None => []) + [End]
  }

  /** What the consumer loop yields from a channel: the leading tokens up to the first
      terminal marker. */
  function Decode<T, E>(ch: seq<Marker<T, E>>): (c: Consumed<T, E>)
    ensures |c.tokens| <= |ch|
    ensures forall i :: 0 <= i < |c.tokens| ==> ch[i] == Token(c.tokens[i])
    ensures c.ending == Waiting <==> |c.tokens| == |ch|
    ensures c.ending == Finished ==> ch[|c.tokens|] == End
    ensures c.ending.Raised? ==> ch[|c.tokens|] == Failure(c.ending.error)
  {
    if ch == [] then Consumed([], Waiting)
    else match ch[0]
      case End => Consumed([], Finished)
      case Failure(e) => Consumed([], Raised(e))
      case Token(t) =>
        var rest := Decode(ch[1..]);
        Consumed([t] + rest.tokens, rest.ending)
  }

  /** The ending a consumer should see for a producer run. */
  function ExpectedEnding<T, E>(run: ProducerRun<T, E>): Termination<E> {
    match run.failure
    case None => Finished
    case Some(e) => Raised(e)
  }

  /** The consumer's behaviour is determined by the channel: any reading that yields the leading
      tokens and stops as `Decode` describes is `Decode`'s. */
  lemma DecodeUnique<T, E>(ch: seq<Marker<T, E>>, c: Consumed<T, E>)
    requires |c.tokens| <= |ch|
    requires forall i :: 0 <= i < |c.tokens| ==> ch[i] == Token(c.tokens[i])
    requires c.ending == Waiting <==> |c.tokens| == |ch|
    requires c.ending == Finished ==> ch[|c.tokens|] == End
    requires c.ending.Raised? ==> ch[|c.tokens|] == Failure(c.ending.error)
    ensures c == Decode(ch)
  {
    var d := Decode(ch);
    assert |d.tokens| == |c.tokens|;
    assert c.tokens == d.tokens;
  }

  /** Round trip: the consumer yields exactly the produced tokens, in order, and then either stops
      normally or raises the producer's exception. Whatever follows on the channel is never read. */
  lemma DecodeWrapThenAnything<T, E>(run: ProducerRun<T, E>, after: seq<Marker<T, E>>)
    ensures Decode(Wrap(run) + after) == Consumed(run.tokens, ExpectedEnding(run))
  {
    var w := Wrap(run);
    var ch := w + after;
    var n := |run.tokens|;
    assert ch[n] == w[n];
    assert run.failure.None? ==> w[n] == End;
    DecodeUnique(ch, Consumed(run.tokens, ExpectedEnding(run)));
  }

  lemma DecodeWrap<T, E>(run: ProducerRun<T, E>)
    ensures Decode(Wrap(run)) == Consumed(run.tokens, ExpectedEnding(run))
  {
    DecodeWrapThenAnything(run, []);
    assert Wrap(run) + [] == Wrap(run);
  }

  /** The producer wrapper: `async for token in task_fn(): put(token)`, `except: put(e)`,
      `finally: put(end)`. Returns the channel contents it produced. */
  method RunWrapper<T, E>(run: ProducerRun<T, E>) returns (channel: seq<Marker<T, E>>)
    ensures channel == Wrap(run)
  {
    channel := [];
    var i := 0;
    while i < |run.tokens|
      invariant 0 <= i <= |run.tokens|
      invariant channel == TokenMarkers(run.tokens[..i])
    {
      channel := channel + [Token(run.tokens[i])];
      i := i + 1;
    }
    assert run.tokens[..i] == run.tokens;
    match run.failure {
      case Some(e) => channel := channel + [Failure(e)];
      case None =>
    }
    channel := channel + [End];
  }

  /** The consumer loop of `enqueue_stream`: read markers one by one, stop at the end marker,
      raise at an exception marker, otherwise yield the token. */
  method Consume<T, E>(channel: seq<Marker<T, E>>) returns (tokens: seq<T>, ending: Termination<E>)
    ensures Consumed(tokens, ending) == Decode(channel)
  {
    tokens := [];
    var i := 0;
    while i < |channel|
      invariant 0 <= i <= |channel| && |tokens| == i
      invariant forall k :: 0 <= k < i ==> channel[k] == Token(tokens[k])
    {
      match channel[i] {
        case End =>
          ending := Finished;
          DecodeUnique(channel, Consumed(tokens, ending));
          return;
        case Failure(e) =>
          ending := Raised(e);
          DecodeUnique(channel, Consumed(tokens, ending));
          return;
        case Token(t) =>
          tokens := tokens + [t];
          i := i + 1;
      }
    }
    ending := Waiting;
    DecodeUnique(channel, Consumed(tokens, ending));
  }
}
