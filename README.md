# LangChat application chat endpoint, modelled in Dafny

This project models `AppApiChatEndpoint`, the OpenAI-style chat API of a
LangChat application. A request names an application (through its API
channel) and carries a list of chat messages. The endpoint validates it,
builds a `ChatReq` from the first message and the application's
configuration, starts a generation run, and consumes the run's callbacks
(`onNext` per token, then `onComplete` with a token-usage summary or
`onError`) in one of two ways:

- `completionsJson` aggregates: a buffer collects the tokens, three
  `AtomicInteger`s count tokens, a `CountDownLatch(1)` is opened on
  completion, and after a wait of at most 60 seconds one chat-completion
  object is built (`id`, `created`, `model`, one choice with finish reason
  `"stop"`, usage counts).
- `completions`/`handler` stream: every token becomes one server-sent event,
  completion sends a final event built from the total token count and a clock reading
  and closes the channel, an error sends an error signal.

The callbacks are modelled as a sequential trace, `Generation.Run(tokens, end)`:
the tokens in delivery order, then how the run ended (`Completed`, `Failed`
or `Unfinished`). For the JSON path a run holds the callbacks delivered
before the wait ended, so "the wait timed out" is "the run did not complete".
Each path replays the trace on its state, a class with the source's fields:
`JsonCompletion.Aggregation` (buffer, latch count, three counters) and
`StreamCompletion.StreamEmitter` (log of sent events, closed flag). The
driver methods `CompletionsJson` and `Handler` are proved against the
specification functions `JsonResult` and `StreamEvents`, and the lemmas state
the endpoint's properties about those.

Java's integer widths are explicit (`JavaInts`): the counters wrap at 2^32
like `AtomicInteger`, and `created` is `(int) (millis / 1000)` with Java's
truncating division and narrowing cast, which turns negative in January 2038
(`EpochSecondsOverflowIn2038`). The response id is `"chatcmpl-"` followed by
`Long.toString` of a clock reading, which the id determines.

The JSON path does not do what its own code evidently means. The latch is
there to wait for the stream to finish (the comment on the wait at line 110
says so), and an interrupted wait is reported as a timeout. Yet the error
callback throws into the backend's thread, so its exception never reaches
the waiting caller and the latch is never opened; and the boolean that
`latch.await` returns is discarded. A failed or timed-out run therefore
comes back as a `"stop"` success. The model follows the code (`JsonResult`)
and states the discrepancy as a finding below, with the evidently intended
behaviour beside it (`CheckedJsonResult`).

Files: `wrappers.dfy` (Option, Result), `java_ints.dfy`, `generation.dfy`,
`normalize.dfy` (validation and `ChatReq`), `json_completion.dfy`,
`stream_completion.dfy`.

## Model

| member | source | states |
|---|---|---|
| JavaInts.Wrap32 | langchat-server/src/main/java/cn/tycoding/langchat/server/api/AppApiChatEndpoint.java:97 | the stored value is the true count modulo 2^32 in Java's int range, and equals it while it fits |
| JavaInts.Wrap32Step | langchat-server/src/main/java/cn/tycoding/langchat/server/api/AppApiChatEndpoint.java:97 | incrementing a wrapped counter gives the wrapped incremented count, so n increments from 0 leave Wrap32(n) |
| JavaInts.TruncDiv | langchat-server/src/main/java/cn/tycoding/langchat/server/api/AppApiChatEndpoint.java:119 | long division by a positive divisor truncates toward zero: for a non-negative dividend the quotient times the divisor lies within one divisor below it, for a negative one within one divisor above it |
| JavaInts.EpochSeconds | langchat-server/src/main/java/cn/tycoding/langchat/server/api/AppApiChatEndpoint.java:119 | created is millis/1000 exactly while that fits in an int |
| JavaInts.EpochSecondsOverflowIn2038 | langchat-server/src/main/java/cn/tycoding/langchat/server/api/AppApiChatEndpoint.java:119 | between 2^31 and 2^32 seconds (2038-01-19 to 2106) the narrowing cast makes created the true seconds less 2^32, hence negative |
| JavaInts.LongToStringRoundTrip | langchat-server/src/main/java/cn/tycoding/langchat/server/api/AppApiChatEndpoint.java:118 | the decimal text of the clock reading in the id parses back to that reading |
| Normalize.NormalizeJson | langchat-server/src/main/java/cn/tycoding/langchat/server/api/AppApiChatEndpoint.java:70-86 | missing app is a ServiceException whatever the messages; else null or empty messages a RuntimeException; success exactly when both are present, with the ChatReq built from the first message |
| Normalize.NormalizeStream | langchat-server/src/main/java/cn/tycoding/langchat/server/api/AppApiChatEndpoint.java:134-148 | null or empty messages or a blank app id fail first; then a missing app is a ServiceException; success exactly otherwise, built from the first message and the stored app |
| Normalize.StreamRejectsBeforeLookup | langchat-server/src/main/java/cn/tycoding/langchat/server/api/AppApiChatEndpoint.java:134-136 | the streaming rejection does not depend on the app store at all |
| Normalize.JsonMissingAppWins | langchat-server/src/main/java/cn/tycoding/langchat/server/api/AppApiChatEndpoint.java:72-78 | a missing app gives the same ServiceException whatever the messages are |
| Normalize.OnlyFirstMessageUsed | langchat-server/src/main/java/cn/tycoding/langchat/server/api/AppApiChatEndpoint.java:80 | messages after the first never affect either path's result |
| Normalize.BothPathsBuildSameRequest | langchat-server/src/main/java/cn/tycoding/langchat/server/api/AppApiChatEndpoint.java:137-148 | when the streaming path accepts, the JSON path with the same app id builds the identical ChatReq; with messages and a non-blank id both paths agree outright |
| Normalize.CheckOrderDiffers | langchat-server/src/main/java/cn/tycoding/langchat/server/api/AppApiChatEndpoint.java:72-78 | for any null or empty message list and any app id the store does not know, the JSON path reports the missing app and the streaming path the empty messages |
| JsonCompletion.ConcatAt | langchat-server/src/main/java/cn/tycoding/langchat/server/api/AppApiChatEndpoint.java:96 | each token sits in the buffer right after the tokens before it; the buffer is as long as all tokens together |
| JsonCompletion.Aggregation.constructor | langchat-server/src/main/java/cn/tycoding/langchat/server/api/AppApiChatEndpoint.java:88-92 | empty buffer, latch count 1, all three counters 0 |
| JsonCompletion.Aggregation.OnNext | langchat-server/src/main/java/cn/tycoding/langchat/server/api/AppApiChatEndpoint.java:95-98 | appends the token, increments completion tokens (wrapping), touches nothing else |
| JsonCompletion.Aggregation.OnComplete | langchat-server/src/main/java/cn/tycoding/langchat/server/api/AppApiChatEndpoint.java:99-103 | total and prompt counts are set from the summary and the latch is counted down; buffer and completion count unchanged |
| JsonCompletion.Aggregation.OnError | langchat-server/src/main/java/cn/tycoding/langchat/server/api/AppApiChatEndpoint.java:104-106 | raises a RuntimeException with the error's message and changes no state, so the gate stays shut |
| JsonCompletion.WaitForRun | langchat-server/src/main/java/cn/tycoding/langchat/server/api/AppApiChatEndpoint.java:109-111 | after the run's callbacks the wait reports an opened gate exactly when the run completed; a failed run is reported as not released, like one that ran out of time |
| JsonCompletion.Replay | langchat-server/src/main/java/cn/tycoding/langchat/server/api/AppApiChatEndpoint.java:94-107 | after the run's callbacks the buffer holds the tokens' concatenation, completion tokens their count, prompt and total the summary's counts or 0, and the latch is at 0 (gate open) exactly when the run completed; after an error it is still 1 |
| JsonCompletion.CompletionsJson | langchat-server/src/main/java/cn/tycoding/langchat/server/api/AppApiChatEndpoint.java:68-131 | replaying the run on a fresh aggregation yields exactly JsonResult: validation error, interrupt error, or the response built from the aggregated state |
| JsonCompletion.JsonRejectsBeforeGeneration | langchat-server/src/main/java/cn/tycoding/langchat/server/api/AppApiChatEndpoint.java:72-78 | a rejected request gets its validation error whatever the run, clocks or interrupt would have been |
| JsonCompletion.JsonResponseShape | langchat-server/src/main/java/cn/tycoding/langchat/server/api/AppApiChatEndpoint.java:117-124 | every response has one choice with finish reason "stop", the app's model, id "chatcmpl-" plus the id clock reading, and created from the second clock reading |
| JsonCompletion.JsonContentIsConcatenation | langchat-server/src/main/java/cn/tycoding/langchat/server/api/AppApiChatEndpoint.java:122 | for every run, including one with no tokens, the content is exactly as long as all tokens together and each token sits, in delivery order, right after the text of the tokens before it |
| JsonCompletion.JsonUsageCounts | langchat-server/src/main/java/cn/tycoding/langchat/server/api/AppApiChatEndpoint.java:125-129 | completion tokens equal the number of tokens (below 2^31); prompt and total come from the summary on completion and are 0 otherwise |
| JsonCompletion.ErrorRunStillReportsStop | langchat-server/src/main/java/cn/tycoding/langchat/server/api/AppApiChatEndpoint.java:104-111 | a failed run is answered exactly like a timed-out one, as a "stop" success with the partial content |
| JsonCompletion.HelloExample | langchat-server/src/main/java/cn/tycoding/langchat/server/api/AppApiChatEndpoint.java:94-130 | tokens "He", "llo" then usage 5 total, 2 input give content "Hello" with usage 2 prompt, 2 completion, 5 total and finish "stop" |
| JsonCompletion.CheckedJsonResult | langchat-server/src/main/java/cn/tycoding/langchat/server/api/AppApiChatEndpoint.java:109-115 | intended behaviour: a rejected request keeps its validation error and an interrupted wait its timeout error; otherwise a completed run is always answered, exactly as the code answers it, a failed run is a generation error carrying its message, an unfinished one a timeout, and nothing else is answered |
| StreamCompletion.StreamEmitter.constructor | langchat-server/src/main/java/cn/tycoding/langchat/server/api/AppApiChatEndpoint.java:60 | a new channel is open and has sent nothing |
| StreamCompletion.StreamEmitter.Send | langchat-server/src/main/java/cn/tycoding/langchat/server/api/AppApiChatEndpoint.java:154 | an open channel appends the event; a closed one drops it |
| StreamCompletion.StreamEmitter.Complete | langchat-server/src/main/java/cn/tycoding/langchat/server/api/AppApiChatEndpoint.java:158 | closes the channel without sending |
| StreamCompletion.StreamEmitter.Error | langchat-server/src/main/java/cn/tycoding/langchat/server/api/AppApiChatEndpoint.java:160 | sends one error signal if open, and closes the channel |
| StreamCompletion.ForwardToken | langchat-server/src/main/java/cn/tycoding/langchat/server/api/AppApiChatEndpoint.java:152-154 | one content event carrying the token, unless the channel is closed |
| StreamCompletion.ForwardCompletion | langchat-server/src/main/java/cn/tycoding/langchat/server/api/AppApiChatEndpoint.java:155-158 | one final event built from the total token count and the clock reading passed to `ChatRes` as its start time, then the channel is closed |
| StreamCompletion.ForwardError | langchat-server/src/main/java/cn/tycoding/langchat/server/api/AppApiChatEndpoint.java:159-160 | one error signal with the message, and nothing else; the channel ends closed |
| StreamCompletion.Handler | langchat-server/src/main/java/cn/tycoding/langchat/server/api/AppApiChatEndpoint.java:133-164 | a rejected request leaves the channel untouched and reports the validation error; otherwise the channel carries exactly StreamEvents of the run, is closed exactly when the run ended, and only its last event can be terminal |
| StreamCompletion.Completions | langchat-server/src/main/java/cn/tycoding/langchat/server/api/AppApiChatEndpoint.java:59-64 | fails exactly when the streaming validation fails, with its error; otherwise returns a channel carrying StreamEvents of the run |
| StreamCompletion.StreamForwardsTokensInOrder | langchat-server/src/main/java/cn/tycoding/langchat/server/api/AppApiChatEndpoint.java:152-154 | each token is exactly one content event in order, and only the terminal event follows them |
| StreamCompletion.StreamTerminalEvent | langchat-server/src/main/java/cn/tycoding/langchat/server/api/AppApiChatEndpoint.java:155-160 | completion ends with one event built from the total tokens and the clock reading; an error ends with one error signal; an unfinished run sends only content |
| StreamCompletion.LateTokenIsDropped | langchat-server/src/main/java/cn/tycoding/langchat/server/api/AppApiChatEndpoint.java:155-158 | a token delivered after the terminal callback adds no event to the closed channel |

## Left out

- Spring routing, the `@OpenapiAuth` check and `AppChannelStore.getApiChannel()`: the channel's app id is a parameter (`None` for `null`).
- `AppStore` is not part of this model: `appStore.get` is a map lookup, and a `null` id finds no app.
- `LangChatService.chat` is not part of this model: the callbacks it delivers for the built `ChatReq` are the `Run` parameter, so the model does not relate the run to the request.
- `ChatRes` is not part of this model: the final streaming event carries the constructor's arguments (total token count, and the clock reading passed as the start time), not any value the constructor derives from them, such as an elapsed time.
- `StreamEmitter` is not part of this model: a send on a closed channel is taken to be dropped, `error(message)` to send one error signal and close the channel, and I/O failures of `send` are not modelled.
- Threads, `CountDownLatch` timing and `AtomicInteger` atomicity: callbacks are replayed sequentially; a token that arrives after the wait ended but while the response is being built is not modelled.
- The 60-second bound itself: whether the wait ran out is represented by the run not having completed.
- `InterruptedException`: modelled as an `interrupted` input that yields `RuntimeException("等待响应超时")`; re-setting the thread's interrupt flag is not modelled.
- `System.currentTimeMillis()`: the three readings (id, created, streaming completion time) are parameters.
- `null` values: a `null` element of `messages` (which makes `messages.get(0).getContent()` throw a `NullPointerException` at lines 82 and 144), `null` message content or role, a `null` usage summary and a `null` error message; in the model every message, string and count is present.
- Where the exception raised by the JSON path's `onError` goes inside the backend: the model returns it from `Aggregation.OnError` and discards it.
- `StrUtil.isBlank` belongs to Hutool, which is not part of this model; `Normalize.IsBlankChar` lists Hutool's blank characters explicitly.
- `langchat-ui/src/config/website.config.ts`: UI title and logo constants with no behaviour.

## Findings

| source | as written | input that shows it | evidently intended | confidence | as-written member | corrected member |
|---|---|---|---|---|---|---|
| langchat-server/src/main/java/cn/tycoding/langchat/server/api/AppApiChatEndpoint.java:104-111 | `onError` throws instead of opening the latch, and the result of `latch.await` is ignored, so a failed or timed-out run still returns a success with finish reason "stop" | a valid request whose run delivers token "He" then `onError("boom")`: after the full 60 s wait the response has content "He", finish reason "stop", usage 0/1/0 | a failed run yields a generation error, an unfinished run a timeout error, and only a completed run a response | not executed | JsonCompletion.ErrorRunStillReportsStop | JsonCompletion.CheckedJsonResult |
