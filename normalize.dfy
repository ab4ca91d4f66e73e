/** Request validation and the construction of the `ChatReq` handed to the
    generation backend, for both endpoints of `AppApiChatEndpoint`. */
module Normalize {
  import opened Wrappers

  /** One entry of `CompletionReq.messages`. */
  datatype Message = Message(role: string, content: string)

  /** The inbound request body; `None` stands for a JSON `null` list. */
  datatype CompletionReq = CompletionReq(messages: Option<seq<Message>>)

  /** The fields of an `AigcApp` that the endpoint reads. */
  datatype App = App(modelId: string, prompt: string, knowledgeIds: seq<string>)

  /** The canonical generation request. */
  datatype ChatReq = ChatReq(message: string, role: string, modelId: string,
                             promptText: string, knowledgeIds: seq<string>)

  /** The two exception classes the endpoint throws, with their messages. */
  datatype ApiException = ServiceException(message: string) | RuntimeException(message: string)

  const NoAppMessage: string := "没有配置应用信息"
  const EmptyMessagesMessage: string := "聊天消息为空"
  const EmptyMessagesOrNoModelMessage: string := "聊天消息为空，或者没有配置模型信息"
  const WaitTimeoutMessage: string := "等待响应超时"

  /** `appStore.get(appId)`: the configured app, if any. A `null` id finds none. */
  function Lookup(store: map<string, App>, appId: Option<string>): (app: Option<App>)
    ensures app.Some? <==> appId.Some? && appId.value in store
    ensures app.Some? ==> app.value == store[appId.value]
  {
    if appId.Some? && appId.value in store then Some(store[appId.value]) else None
  }

  /** Hutool's blank characters: Java whitespace and space separators, plus
      the byte-order mark, the left-to-right embedding, NUL, the Hangul
      filler, the Braille blank and the Mongolian vowel separator. */
  predicate IsBlankChar(c: char) {
    var n := c as int;
    n == 0 || 0x09 <= n <= 0x0D || 0x1C <= n <= 0x20 || n == 0xA0 || n == 0x1680 || n == 0x180E ||
    0x2000 <= n <= 0x200A || n == 0x2028 || n == 0x2029 || n == 0x202A || n == 0x202F || n == 0x205F ||
    n == 0x2800 || n == 0x3000 || n == 0x3164 || n == 0xFEFF
  }

  /** `StrUtil.isBlank`: null, empty, or blank characters only. */
  predicate IsBlank(s: Option<string>) {
    s.None? || forall i :: 0 <= i < |s.value| ==> IsBlankChar(s.value[i])
  }

  predicate HasMessages(messages: Option<seq<Message>>) {
    messages.Some? && |messages.value| > 0
  }

  /** The builder chain both endpoints use: text and role from one message,
      model, prompt and knowledge sources from the app. */
  function BuildChatReq(m: Message, app: App): (r: ChatReq)
    ensures r.message == m.content && r.role == m.role
    ensures r.modelId == app.modelId && r.promptText == app.prompt && r.knowledgeIds == app.knowledgeIds
  {
    ChatReq(m.content, m.role, app.modelId, app.prompt, app.knowledgeIds)
  }

  /** Validation of `completionsJson`: the app is checked first, then the
      messages; on success the request is built from the first message. */
  function NormalizeJson(messages: Option<seq<Message>>, app: Option<App>): (r: Result<ChatReq, ApiException>)
    ensures app.None? ==> r == Failure(ServiceException(NoAppMessage))
    ensures app.Some? && !HasMessages(messages) ==> r == Failure(RuntimeException(EmptyMessagesMessage))
    ensures r.Success? <==> app.Some? && HasMessages(messages)
    ensures r.Success? ==> r.value == BuildChatReq(messages.value[0], app.value)
  {
    if app.None? then Failure(ServiceException(NoAppMessage))
    else if !HasMessages(messages) then Failure(RuntimeException(EmptyMessagesMessage))
    else Success(BuildChatReq(messages.value[0], app.value))
  }

  /** Validation of `handler`: messages and app id are checked before the
      store is consulted at all; a missing app is a separate error. */
  function NormalizeStream(messages: Option<seq<Message>>, appId: Option<string>, store: map<string, App>)
    : (r: Result<ChatReq, ApiException>)
    ensures !HasMessages(messages) || IsBlank(appId) ==>
              r == Failure(RuntimeException(EmptyMessagesOrNoModelMessage))
    ensures HasMessages(messages) && !IsBlank(appId) && appId.value !in store ==>
              r == Failure(ServiceException(NoAppMessage))
    ensures r.Success? <==> HasMessages(messages) && !IsBlank(appId) && appId.value in store
    ensures r.Success? ==> r.value == BuildChatReq(messages.value[0], store[appId.value])
  {
    if !HasMessages(messages) || IsBlank(appId) then Failure(RuntimeException(EmptyMessagesOrNoModelMessage))
    else
      var app := Lookup(store, appId);
      if app.None? then Failure(ServiceException(NoAppMessage))
      else Success(BuildChatReq(messages.value[0], app.value))
  }

  /** The streaming path's rejection does not depend on the app store: it
      happens before any lookup. */
  lemma StreamRejectsBeforeLookup(messages: Option<seq<Message>>, appId: Option<string>,
                                  store1: map<string, App>, store2: map<string, App>)
    requires !HasMessages(messages) || IsBlank(appId)
    ensures NormalizeStream(messages, appId, store1) == NormalizeStream(messages, appId, store2)
    ensures NormalizeStream(messages, appId, store1).Failure?
  {
  }

  /** The JSON path's missing-app error does not depend on the messages. */
  lemma JsonMissingAppWins(messages1: Option<seq<Message>>, messages2: Option<seq<Message>>)
    ensures NormalizeJson(messages1, None) == NormalizeJson(messages2, None)
    ensures NormalizeJson(messages1, None).Failure?
  {
  }

  /** Only the first message matters: the rest of the list never reaches the
      generation request. */
  lemma OnlyFirstMessageUsed(m: Message, rest1: seq<Message>, rest2: seq<Message>, appId: Option<string>,
                             store: map<string, App>)
    ensures NormalizeJson(Some([m] + rest1), Lookup(store, appId)) == NormalizeJson(Some([m] + rest2), Lookup(store, appId))
    ensures NormalizeStream(Some([m] + rest1), appId, store) == NormalizeStream(Some([m] + rest2), appId, store)
  {
  }

  /** Whenever the streaming path accepts a request, the JSON path, fed the
      same app id, accepts it too and builds the same `ChatReq`; for a
      non-blank id and non-empty messages, both reject a missing app alike. */
  lemma BothPathsBuildSameRequest(messages: Option<seq<Message>>, appId: Option<string>, store: map<string, App>)
    ensures NormalizeStream(messages, appId, store).Success? ==>
              NormalizeJson(messages, Lookup(store, appId)) == NormalizeStream(messages, appId, store)
    ensures HasMessages(messages) && !IsBlank(appId) ==>
              NormalizeJson(messages, Lookup(store, appId)) == NormalizeStream(messages, appId, store)
  {
  }

  /** The two paths order their checks differently: with no messages and an
      unknown app, the JSON path reports the missing app and the streaming
      path reports the empty message list. */
  lemma CheckOrderDiffers(messages: Option<seq<Message>>, appId: Option<string>, store: map<string, App>)
    requires !HasMessages(messages) && Lookup(store, appId).None?
    ensures NormalizeJson(messages, Lookup(store, appId)) == Failure(ServiceException(NoAppMessage))
    ensures NormalizeStream(messages, appId, store) == Failure(RuntimeException(EmptyMessagesOrNoModelMessage))
  {
  }
}
