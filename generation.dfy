/** What the generation backend (`LangChatService.chat(...)`, not part of this
    model) delivers to the callbacks the endpoint registers: zero or more
    `onNext` tokens, then at most one terminal callback. The shape of `Run`
    makes "tokens before the terminal signal, never two terminal signals"
    hold by construction. */
module Generation {
  import opened JavaInts

  /** How the run ended, as far as the consumer saw it. */
  datatype End =
    | Completed(totalTokenCount: int32, inputTokenCount: int32)  // onComplete with the summary's token usage
    | Failed(message: string)                                    // onError with the exception's message
    | Unfinished                                                 // no terminal callback was delivered

  /** The callbacks delivered, in order. For the JSON path these are the ones
      delivered before its wait of at most 60 seconds ended; the wait itself
      is not modelled, and "the wait ran out" is "the run did not complete". */
  datatype Run = Run(tokens: seq<string>, end: End)
}
