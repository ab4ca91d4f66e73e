/** `completions` and `handler`: the incremental emitter. Each token goes out
    as one event on the server-sent-event channel; completion sends a final
    usage event and closes the channel; an error sends an error signal. */
module StreamCompletion {
  import opened Wrappers
  import opened JavaInts
  import opened Generation
  import opened Normalize

  /** What goes out on the channel: `new ChatRes(token)`,
      `new ChatRes(totalTokenCount, System.currentTimeMillis())`, and the
      error signal of `emitter.error(message)`. A final event is recorded by
      the constructor arguments it was built from: the token count and the
      clock reading passed as the start time. */
  datatype Outbound =
    | Chunk(message: string)
    | Done(usedToken: int32, startTime: int64)
    | ErrorSignal(message: string)

  /** The `StreamEmitter`, seen as the log of what it has sent and whether
      the channel is closed. A closed channel accepts nothing more. */
  class StreamEmitter {
    var events: seq<Outbound>
    var closed: bool

    constructor ()
      ensures events == [] && !closed
    {
      events, closed := [], false;
    }

    /** Every event before the last is content, and a terminal event, once
        sent, has closed the channel. */
    predicate Consistent()
      reads this
    {
      (forall i :: 0 <= i < |events| - 1 ==> events[i].Chunk?) &&
      (|events| > 0 && !events[|events| - 1].Chunk? ==> closed)
    }

    /** `send`: appended while the channel is open, dropped once it is closed. */
    method Send(x: Outbound)
      modifies this
      ensures closed == old(closed)
      ensures events == if old(closed) then old(events) else old(events) + [x]
    {
      if !closed {
        events := events + [x];
      }
    }

    /** `complete`: close the channel. */
    method Complete()
      modifies this
      ensures closed && events == old(events)
    {
      closed := true;
    }

    /** `error`: one error signal, then the channel is closed. */
    method Error(message: string)
      modifies this
      ensures closed
      ensures events == if old(closed) then old(events) else old(events) + [ErrorSignal(message)]
    {
      if !closed {
        events := events + [ErrorSignal(message)];
      }
      closed := true;
    }
  }

  /** The `onNext` callback of `handler`. */
  method ForwardToken(emitter: StreamEmitter, token: string)
    modifies emitter
    ensures emitter.closed == old(emitter.closed)
    ensures emitter.events == if old(emitter.closed) then old(emitter.events) else old(emitter.events) + [Chunk(token)]
  {
    emitter.Send(Chunk(token));
  }

  /** The `onComplete` callback of `handler`: one final event built from the
      summary's total token count and the clock reading, then close. */
  method ForwardCompletion(emitter: StreamEmitter, totalTokenCount: int32, nowMillis: int64)
    modifies emitter
    ensures emitter.closed
    ensures emitter.events == if old(emitter.closed) then old(emitter.events)
                              else old(emitter.events) + [Done(totalTokenCount, nowMillis)]
  {
    emitter.Send(Done(totalTokenCount, nowMillis));
    emitter.Complete();
  }

  /** The `onError` callback of `handler`. */
  method ForwardError(emitter: StreamEmitter, message: string)
    modifies emitter
    ensures emitter.closed
    ensures emitter.events == if old(emitter.closed) then old(emitter.events)
                              else old(emitter.events) + [ErrorSignal(message)]
  {
    emitter.Error(message);
  }

  /** The content events for `tokens`, one per token, in order. */
  function Chunks(tokens: seq<string>): (r: seq<Outbound>)
    ensures |r| == |tokens|
    ensures forall i :: 0 <= i < |tokens| ==> r[i] == Chunk(tokens[i])
  {
    seq(|tokens|, i requires 0 <= i < |tokens| => Chunk(tokens[i]))
  }

  /** The terminal event for how a run ended, if any. */
  function TerminalEvents(end: End, nowMillis: int64): (r: seq<Outbound>) {
    match end
    case Completed(total, _) => [Done(total, nowMillis)]
    case Failed(message) => [ErrorSignal(message)]
    case Unfinished => []
  }

  /** Everything the channel carries for a run: the tokens' events, then the
      terminal event. */
  function StreamEvents(run: Run, nowMillis: int64): (r: seq<Outbound>) {
    Chunks(run.tokens) + TerminalEvents(run.end, nowMillis)
  }

  /** `handler`, with the backend's callbacks replayed in order on the
      emitter; `nowMillis` is the clock reading taken in `onComplete`. */
  method Handler(emitter: StreamEmitter, appId: Option<string>, messages: Option<seq<Message>>,
                 store: map<string, App>, run: Run, nowMillis: int64)
    returns (r: Result<StreamEmitter, ApiException>)
    requires emitter.events == [] && !emitter.closed
    modifies emitter
    ensures NormalizeStream(messages, appId, store).Failure? ==>
              r == Failure(NormalizeStream(messages, appId, store).error) &&
              emitter.events == [] && !emitter.closed
    ensures NormalizeStream(messages, appId, store).Success? ==>
              r == Success(emitter) &&
              emitter.events == StreamEvents(run, nowMillis) &&
              emitter.closed == !run.end.Unfinished? &&
              emitter.Consistent()
  {
    var checked := NormalizeStream(messages, appId, store);
    if checked.Failure? {
      return Failure(checked.error);
    }
    var i := 0;
    while i < |run.tokens|
      invariant 0 <= i <= |run.tokens|
      invariant emitter.events == Chunks(run.tokens[..i])
      invariant !emitter.closed
    {
      ForwardToken(emitter, run.tokens[i]);
      i := i + 1;
    }
    assert run.tokens[..i] == run.tokens;
    match run.end {
      case Completed(total, _) =>
        ForwardCompletion(emitter, total, nowMillis);
      case Failed(message) =>
        ForwardError(emitter, message);
      case Unfinished =>
    }
    r := Success(emitter);
  }

  /** `completions`: a new emitter handed to `handler` with the channel's
      app id and the request's messages. */
  method Completions(req: CompletionReq, appId: Option<string>, store: map<string, App>, run: Run,
                     nowMillis: int64)
    returns (r: Result<StreamEmitter, ApiException>)
    ensures r.Failure? <==> NormalizeStream(req.messages, appId, store).Failure?
    ensures r.Failure? ==> r.error == NormalizeStream(req.messages, appId, store).error
    ensures r.Success? ==> r.value.events == StreamEvents(run, nowMillis) &&
                           r.value.closed == !run.end.Unfinished? &&
                           r.value.Consistent()
  {
    var emitter := new StreamEmitter();
    r := Handler(emitter, appId, req.messages, store, run, nowMillis);
  }

  /** Each token goes out as exactly one content event, in order, and the
      only other event is the one terminal event, last. */
  lemma StreamForwardsTokensInOrder(run: Run, nowMillis: int64)
    ensures var events := StreamEvents(run, nowMillis);
      |events| == |run.tokens| + (if run.end.Unfinished? then 0 else 1) &&
      (forall i :: 0 <= i < |run.tokens| ==> events[i] == Chunk(run.tokens[i])) &&
      (forall i :: |run.tokens| <= i < |events| ==> !events[i].Chunk?)
  {
  }

  /** Completion sends one final event with the total token count and the
      clock reading; an error sends one error signal and nothing else. */
  lemma StreamTerminalEvent(run: Run, nowMillis: int64)
    ensures var events := StreamEvents(run, nowMillis);
      (run.end.Completed? ==> events[|events| - 1] == Done(run.end.totalTokenCount, nowMillis)) &&
      (run.end.Failed? ==> events[|events| - 1] == ErrorSignal(run.end.message)) &&
      (run.end.Unfinished? ==> events == Chunks(run.tokens))
  {
  }

  /** Once a run's terminal callback has closed the channel, later callbacks
      (which a backend keeping its contract never makes) send nothing. This
      is the behaviour of the emitter as modelled here, whose `Send` drops an
      event on a closed channel; the real `StreamEmitter` is not part of this
      model and may instead raise an exception in the backend's thread. */
  method LateTokenIsDropped(req: CompletionReq, appId: Option<string>, store: map<string, App>, run: Run,
                            nowMillis: int64, late: string)
    returns (r: Result<StreamEmitter, ApiException>)
    requires !run.end.Unfinished?
    ensures r.Success? ==> r.value.events == StreamEvents(run, nowMillis) && r.value.closed
  {
    var emitter := new StreamEmitter();
    r := Handler(emitter, appId, req.messages, store, run, nowMillis);
    if r.Success? {
      ForwardToken(emitter, late);
    }
  }
}
