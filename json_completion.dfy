/** `completionsJson`: the synchronous aggregator. The backend's callbacks
    append to a buffer, bump counters and open a one-shot gate; the request
    thread waits on the gate for at most 60 seconds and then builds one
    OpenAI-style chat-completion object from whatever the callbacks left. */
module JsonCompletion {
  import opened Wrappers
  import opened JavaInts
  import opened Generation
  import opened Normalize

  const IdPrefix: string := "chatcmpl-"
  const StopReason: string := "stop"

  datatype Delta = Delta(content: string)
  datatype Choice = Choice(delta: Delta, finishReason: string)
  datatype Usage = Usage(promptTokens: int32, completionTokens: int32, totalTokens: int32)
  datatype CompletionRes = CompletionRes(id: string, created: int32, model: string,
                                         choices: seq<Choice>, usage: Usage)

  /** The in-order concatenation of the tokens. */
  function Concat(tokens: seq<string>): (s: string)
    decreases |tokens|
  {
    if |tokens| == 0 then [] else Concat(tokens[..|tokens| - 1]) + tokens[|tokens| - 1]
  }

  /** The sum of the tokens' lengths. */
  function TotalLength(tokens: seq<string>): (n: nat)
    decreases |tokens|
  {
    if |tokens| == 0 then 0 else |tokens[0]| + TotalLength(tokens[1..])
  }

  lemma {:induction false} ConcatAppend(a: seq<string>, b: seq<string>)
    ensures Concat(a + b) == Concat(a) + Concat(b)
    decreases |b|
  {
    if |b| == 0 {
      assert a + b == a;
    } else {
      var b' := b[..|b| - 1];
      assert (a + b)[..|a + b| - 1] == a + b';
      ConcatAppend(a, b');
    }
  }

  /** Token `i` sits in the concatenation right after the tokens before it,
      and the concatenation is exactly as long as all tokens together. */
  lemma {:induction false} ConcatAt(tokens: seq<string>, i: nat)
    requires i < |tokens|
    ensures Concat(tokens) == Concat(tokens[..i]) + tokens[i] + Concat(tokens[i + 1..])
    ensures |Concat(tokens)| == TotalLength(tokens)
  {
    assert tokens == tokens[..i] + [tokens[i]] + tokens[i + 1..];
    ConcatAppend(tokens[..i] + [tokens[i]], tokens[i + 1..]);
    ConcatAppend(tokens[..i], [tokens[i]]);
    assert [tokens[i]][..0] == [];
    ConcatLength(tokens);
  }

  lemma {:induction false} ConcatLength(tokens: seq<string>)
    ensures |Concat(tokens)| == TotalLength(tokens)
    decreases |tokens|
  {
    if |tokens| > 0 {
      assert tokens == [tokens[0]] + tokens[1..];
      ConcatAppend([tokens[0]], tokens[1..]);
      assert [tokens[0]][..0] == [];
      ConcatLength(tokens[1..]);
    }
  }

  /** The local state the callbacks of `completionsJson` share: the
      `StringBuilder`, the `CountDownLatch(1)` and the three `AtomicInteger`s. */
  class Aggregation {
    var responseBuilder: string
    var latchCount: nat
    var totalTokens: int32
    var promptTokens: int32
    var completionTokens: int32

    constructor ()
      ensures responseBuilder == [] && latchCount == 1
      ensures totalTokens == 0 && promptTokens == 0 && completionTokens == 0
    {
      responseBuilder := [];
      latchCount := 1;
      totalTokens, promptTokens, completionTokens := 0, 0, 0;
    }

    /** `onNext`: append the token and count it. */
    method OnNext(token: string)
      modifies this
      ensures responseBuilder == old(responseBuilder) + token
      ensures completionTokens == Wrap32(old(completionTokens) as int + 1)
      ensures latchCount == old(latchCount)
      ensures totalTokens == old(totalTokens) && promptTokens == old(promptTokens)
    {
      responseBuilder := responseBuilder + token;
      completionTokens := Wrap32(completionTokens as int + 1);
    }

    /** `onComplete`: copy total and input counts from the summary, then
        count the latch down (a count already at zero stays there). */
    method OnComplete(totalTokenCount: int32, inputTokenCount: int32)
      modifies this
      ensures totalTokens == totalTokenCount && promptTokens == inputTokenCount
      ensures latchCount == if old(latchCount) == 0 then 0 else old(latchCount) - 1
      ensures responseBuilder == old(responseBuilder) && completionTokens == old(completionTokens)
    {
      totalTokens := totalTokenCount;
      promptTokens := inputTokenCount;
      if latchCount > 0 {
        latchCount := latchCount - 1;
      }
    }

    /** `onError`: raise a `RuntimeException` with the error's message into the
        backend's thread. Nothing is recorded and the gate is not released. */
    method OnError(message: string) returns (raised: ApiException)
      ensures raised == RuntimeException(message)
    {
      raised := RuntimeException(message);
    }

    /** The outcome of `latch.await(60, SECONDS)` when it is not interrupted:
        true when the gate was released, false when the wait ran out. */
    method Await() returns (released: bool)
      ensures released <==> latchCount == 0
    {
      released := latchCount == 0;
    }
  }

  /** What the callbacks leave behind once a run has been delivered. */
  datatype Totals = Totals(content: string, promptTokens: int32, completionTokens: int32,
                           totalTokens: int32)

  /** The buffer and counters after `run`: the tokens concatenated in
      order, one count per token, and the summary's counts only if the run
      completed. */
  function AfterRun(run: Run): (t: Totals) {
    match run.end
    case Completed(total, input) => Totals(Concat(run.tokens), input, Wrap32(|run.tokens|), total)
    case _ => Totals(Concat(run.tokens), 0, Wrap32(|run.tokens|), 0)
  }

  /** `"chatcmpl-" + System.currentTimeMillis()`. */
  function ResponseId(millis: int64): (id: string) {
    IdPrefix + LongToString(millis)
  }

  /** The builder chain at the end of `completionsJson`. */
  function BuildResponse(modelId: string, t: Totals, idMillis: int64, createdMillis: int64): (res: CompletionRes) {
    CompletionRes(ResponseId(idMillis), EpochSeconds(createdMillis), modelId,
                  [Choice(Delta(t.content), StopReason)],
                  Usage(t.promptTokens, t.completionTokens, t.totalTokens))
  }

  /** What `completionsJson` returns or throws for a run. The result of the
      wait is not consulted: only an interrupt makes the wait fail. */
  function JsonResult(req: CompletionReq, app: Option<App>, run: Run, interrupted: bool,
                      idMillis: int64, createdMillis: int64): (r: Result<CompletionRes, ApiException>)
  {
    match NormalizeJson(req.messages, app)
    case Failure(e) => Failure(e)
    case Success(_) =>
      if interrupted then Failure(RuntimeException(WaitTimeoutMessage))
      else Success(BuildResponse(app.value.modelId, AfterRun(run), idMillis, createdMillis))
  }

  /** The callbacks of `run` delivered in order to a fresh `Aggregation`:
      the buffer and counters end as `AfterRun(run)` says, and the latch is
      counted down, so the gate is open, exactly when the run completed. An
      error leaves the gate shut. */
  method Replay(run: Run) returns (agg: Aggregation)
    ensures Totals(agg.responseBuilder, agg.promptTokens, agg.completionTokens, agg.totalTokens) == AfterRun(run)
    ensures agg.latchCount == 0 <==> run.end.Completed?
    ensures run.end.Failed? ==> agg.latchCount == 1
  {
    agg := new Aggregation();
    var i := 0;
    while i < |run.tokens|
      invariant 0 <= i <= |run.tokens|
      invariant agg.responseBuilder == Concat(run.tokens[..i])
      invariant agg.completionTokens == Wrap32(i)
      invariant agg.latchCount == 1 && agg.totalTokens == 0 && agg.promptTokens == 0
    {
      assert run.tokens[..i + 1][..i] == run.tokens[..i];
      Wrap32Step(i);
      agg.OnNext(run.tokens[i]);
      i := i + 1;
    }
    assert run.tokens[..i] == run.tokens;
    match run.end {
      case Completed(total, input) =>
        agg.OnComplete(total, input);
      case Failed(message) =>
        var _ := agg.OnError(message);
      case Unfinished =>
    }
  }

  /** The bounded wait of `completionsJson` after the run's callbacks: it
      reports an opened gate exactly when the run completed, and a run that
      failed is reported like one that ran out of time. */
  method WaitForRun(run: Run) returns (released: bool)
    ensures released <==> run.end.Completed?
    ensures run.end.Failed? ==> !released
  {
    var agg := Replay(run);
    released := agg.Await();
  }

  /** `completionsJson`, with the channel's app id, the app store, the
      delivered callbacks, whether the wait was interrupted, and the two clock
      readings as inputs. The result of the wait is computed and, as in the
      Java code, not consulted. */
  method CompletionsJson(req: CompletionReq, appId: Option<string>, store: map<string, App>, run: Run,
                         interrupted: bool, idMillis: int64, createdMillis: int64)
    returns (r: Result<CompletionRes, ApiException>)
    ensures r == JsonResult(req, Lookup(store, appId), run, interrupted, idMillis, createdMillis)
  {
    var app := Lookup(store, appId);
    var checked := NormalizeJson(req.messages, app);
    if checked.Failure? {
      return Failure(checked.error);
    }
    var agg := Replay(run);
    if interrupted {
      return Failure(RuntimeException(WaitTimeoutMessage));
    }
    var released := agg.Await();
    var totals := Totals(agg.responseBuilder, agg.promptTokens, agg.completionTokens, agg.totalTokens);
    r := Success(BuildResponse(app.value.modelId, totals, idMillis, createdMillis));
  }

  /** Validation happens before generation: a rejected request gets the same
      error whatever the backend would have delivered, and no wait happens. */
  lemma JsonRejectsBeforeGeneration(req: CompletionReq, app: Option<App>, run1: Run, run2: Run,
                                    interrupted1: bool, interrupted2: bool,
                                    id1: int64, id2: int64, created1: int64, created2: int64)
    requires NormalizeJson(req.messages, app).Failure?
    ensures JsonResult(req, app, run1, interrupted1, id1, created1) == JsonResult(req, app, run2, interrupted2, id2, created2)
    ensures JsonResult(req, app, run1, interrupted1, id1, created1) == Failure(NormalizeJson(req.messages, app).error)
  {
  }

  /** Every response has exactly one choice, finishing with "stop", for the
      app's model, with id "chatcmpl-" followed by the clock reading (which
      the id determines), however the run ended. */
  lemma JsonResponseShape(req: CompletionReq, app: Option<App>, run: Run, idMillis: int64, createdMillis: int64)
    requires JsonResult(req, app, run, false, idMillis, createdMillis).Success?
    ensures var res := JsonResult(req, app, run, false, idMillis, createdMillis).value;
      |res.choices| == 1 && res.choices[0].finishReason == StopReason &&
      res.model == app.value.modelId &&
      res.id[..|IdPrefix|] == IdPrefix && ParseLong(res.id[|IdPrefix|..]) == Some(idMillis as int) &&
      res.created == EpochSeconds(createdMillis)
  {
    var res := JsonResult(req, app, run, false, idMillis, createdMillis).value;
    assert res.id[|IdPrefix|..] == LongToString(idMillis);
    LongToStringRoundTrip(idMillis);
  }

  /** The answer is every token in delivery order: token `i` starts right
      after the text of the tokens before it, and the content is exactly as
      long as all tokens together, so a run without tokens answers "". */
  lemma JsonContentIsConcatenation(req: CompletionReq, app: Option<App>, run: Run, idMillis: int64,
                                   createdMillis: int64)
    requires JsonResult(req, app, run, false, idMillis, createdMillis).Success?
    ensures var content := JsonResult(req, app, run, false, idMillis, createdMillis).value.choices[0].delta.content;
      |content| == TotalLength(run.tokens)
    ensures var content := JsonResult(req, app, run, false, idMillis, createdMillis).value.choices[0].delta.content;
      forall i :: 0 <= i < |run.tokens| ==>
        TotalLength(run.tokens[..i]) + |run.tokens[i]| <= |content| &&
        content[TotalLength(run.tokens[..i])..TotalLength(run.tokens[..i]) + |run.tokens[i]|] == run.tokens[i]
  {
    var content := JsonResult(req, app, run, false, idMillis, createdMillis).value.choices[0].delta.content;
    assert content == Concat(run.tokens);
    ConcatLength(run.tokens);
    forall i | 0 <= i < |run.tokens|
      ensures TotalLength(run.tokens[..i]) + |run.tokens[i]| <= |content|
      ensures content[TotalLength(run.tokens[..i])..TotalLength(run.tokens[..i]) + |run.tokens[i]|] == run.tokens[i]
    {
      ConcatAt(run.tokens, i);
      ConcatLength(run.tokens[..i]);
    }
  }

  /** completion_tokens counts the token callbacks (modulo 2^32, as an
      `AtomicInteger` does); prompt_tokens and total_tokens are the summary's
      on completion and stay 0 otherwise. */
  lemma JsonUsageCounts(req: CompletionReq, app: Option<App>, run: Run, idMillis: int64, createdMillis: int64)
    requires JsonResult(req, app, run, false, idMillis, createdMillis).Success?
    ensures var u := JsonResult(req, app, run, false, idMillis, createdMillis).value.usage;
      (|run.tokens| < TwoTo31 ==> u.completionTokens as int == |run.tokens|) &&
      (run.end.Completed? ==> u.promptTokens == run.end.inputTokenCount && u.totalTokens == run.end.totalTokenCount) &&
      (!run.end.Completed? ==> u.promptTokens == 0 && u.totalTokens == 0)
  {
  }

  /** As written, a run that fails is answered like a run that times out, and
      both as a "stop" success carrying the partial content. */
  lemma ErrorRunStillReportsStop(m: Message, app: App, tokens: seq<string>, message: string,
                                 idMillis: int64, createdMillis: int64)
    ensures var req := CompletionReq(Some([m]));
      var failed := JsonResult(req, Some(app), Run(tokens, Failed(message)), false, idMillis, createdMillis);
      failed == JsonResult(req, Some(app), Run(tokens, Unfinished), false, idMillis, createdMillis) &&
      failed.Success? && failed.value.choices[0].finishReason == StopReason &&
      failed.value.choices[0].delta.content == Concat(tokens)
  {
  }

  /** Tokens "He" and "llo" followed by a summary of 5 total and 2 input
      tokens give "Hello" with 2 prompt, 2 completion and 5 total tokens. */
  lemma HelloExample(app: App, idMillis: int64, createdMillis: int64)
    ensures var res := JsonResult(CompletionReq(Some([Message("user", "hi")])), Some(app),
                                  Run(["He", "llo"], Completed(5, 2)), false, idMillis, createdMillis);
      res.Success? && res.value.choices[0].delta.content == "Hello" &&
      res.value.usage == Usage(2, 2, 5) && res.value.choices[0].finishReason == StopReason
  {
    var tokens := ["He", "llo"];
    assert tokens[..1] == ["He"];
    assert Concat(tokens[..1]) == "He" by { assert tokens[..1][..0] == []; }
  }

  /** The three ways the wait can end, told apart. */
  datatype JsonOutcome =
    | Answered(response: CompletionRes)
    | Rejected(failure: ApiException)
    | GenerationFailed(message: string)
    | TimedOut

  /** `completionsJson` as the Java code evidently means it: the latch exists to
      wait for the stream to finish (the comment on the wait says so) and the
      interrupt branch reports a timeout, yet `onError`'s exception never
      reaches the waiting caller and the boolean `latch.await` returns is
      discarded. Here the error callback also opens the gate and the wait's
      outcome decides the result, so only a completed run is answered. */
  function CheckedJsonResult(req: CompletionReq, app: Option<App>, run: Run, interrupted: bool,
                             idMillis: int64, createdMillis: int64): (r: JsonOutcome)
    ensures NormalizeJson(req.messages, app).Failure? ==> r == Rejected(NormalizeJson(req.messages, app).error)
    ensures NormalizeJson(req.messages, app).Success? && interrupted ==>
              r == Rejected(RuntimeException(WaitTimeoutMessage))
    ensures NormalizeJson(req.messages, app).Success? && !interrupted && run.end.Completed? ==> r.Answered?
    ensures r.Answered? ==> run.end.Completed? && !interrupted
    ensures r.Answered? ==> JsonResult(req, app, run, interrupted, idMillis, createdMillis) == Success(r.response)
    ensures NormalizeJson(req.messages, app).Success? && !interrupted ==>
              (run.end.Failed? ==> r == GenerationFailed(run.end.message)) &&
              (r.GenerationFailed? ==> run.end.Failed?) &&
              (run.end.Unfinished? <==> r == TimedOut)
  {
    match NormalizeJson(req.messages, app)
    case Failure(e) => Rejected(e)
    case Success(_) =>
      if interrupted then Rejected(RuntimeException(WaitTimeoutMessage))
      else match run.end
        case Completed(_, _) => Answered(BuildResponse(app.value.modelId, AfterRun(run), idMillis, createdMillis))
        case Failed(message) => GenerationFailed(message)
        case Unfinished => TimedOut
  }
}
