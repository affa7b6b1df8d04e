/**
 * The chat relay of app/api/chat/route.ts as one decision: given the server
 * environment, the parsed request body and what the upstream chat service
 * answers, which upstream request is made (if any) and what the browser gets.
 *
 * An exception the handler does not catch (destructuring a `null` body, a
 * rejected `fetch`) is the outcome `Crashed`: the framework answers it with
 * its own error page. `JSON.stringify` of the style configuration is the
 * parameter `stringify`.
 */
module ChatRelay {
  import opened Options
  import opened Text
  import opened Json
  import opened Http
  import CreateChat

  /** The three server variables the relay reads; absent variables are `None`. */
  datatype Env = Env(chatApiUrl: Option<string>, apiUrl: Option<string>, chatApiKey: Option<string>)

  datatype UpstreamRequest = UpstreamRequest(url: string, headers: seq<(string, string)>, body: ChatMessagesBody)

  /** What `fetch` to the upstream service gave: a rejection, or a status, the body text, a content type and a stream. */
  datatype UpstreamReply =
    | Unreachable
    | Replied(status: nat, text: string, contentType: Option<string>, stream: Option<seq<string>>)

  datatype Response =
    | JsonError(status: nat, error: string)
    | Crashed
    | EventStream(headers: seq<(string, string)>, stream: seq<string>)

  datatype Exchange = Exchange(sent: Option<UpstreamRequest>, response: Response)

  const CONFIG_ERROR := "DIFY_CHAT_API_KEY and Dify chat API URL must be set"
  const INVALID_JSON := "Invalid JSON body"
  const MESSAGE_REQUIRED := "message is required"
  const NOT_A_STREAM := "Dify did not return a stream"
  const NO_BODY := "No response body"
  const UPSTREAM_ERROR_LIMIT := 400
  const USER_NAME := "vibe-creator-user"
  const EVENT_STREAM := "text/event-stream"
  const STYLE_PREAMBLE :=
    "[System: The user has already selected this style. Do not ask what style they want; only use it. Style configuration: ]"
  const STREAM_HEADERS := [("Content-Type", EVENT_STREAM), ("Cache-Control", "no-cache"), ("Connection", "keep-alive")]

  /** `DIFY_CHAT_API_URL || DIFY_API_URL`: the chat URL unless it is absent or empty. */
  function ChatApiUrl(env: Env): (r: Option<string>)
    ensures env.chatApiUrl.Some? && env.chatApiUrl.value != "" ==> r == env.chatApiUrl
    ensures env.chatApiUrl.None? || env.chatApiUrl.value == "" ==> r == env.apiUrl
  {
    if env.chatApiUrl.Some? && env.chatApiUrl.value != "" then env.chatApiUrl else env.apiUrl
  }

  /** Both the URL and the key are present and not blank. */
  predicate Configured(env: Env) {
    var url := ChatApiUrl(env);
    url.Some? && !Blank(url.value) && env.chatApiKey.Some? && !Blank(env.chatApiKey.value)
  }

  /** The request's `message` when it is a non-empty string (`!message || typeof message !== 'string'` rejects the rest). */
  function MessageOf(body: Json): (r: Option<string>)
    ensures r.Some? <==> exists s :: Get(body, "message") == Some(JStr(s)) && s != ""
    ensures r.Some? ==> Get(body, "message") == Some(JStr(r.value)) && r.value != ""
  {
    match Get(body, "message")
    case Some(JStr(s)) => if s != "" then Some(s) else None
    case _ => None
  }

  /** Whether the browser's style configuration is forwarded (`style_config && Object.keys(style_config).length > 0`). */
  predicate ForwardsStyle(body: Json) {
    var cfg := Get(body, "style_config");
    cfg.Some? && HasKeys(cfg.value)
  }

  /**
   * The JSON posted upstream, member by member. `JSON.stringify` leaves out
   * members whose value is `undefined`: `conversationId` and `stylePrompt` are
   * `None` exactly when their member is absent (`inputs` then holds only
   * `style_prompt`).
   */
  datatype ChatMessagesBody = ChatMessagesBody(
    query: string,
    user: string,
    responseMode: string,
    conversationId: Option<Json>,
    stylePrompt: Option<string>)

  /** The upstream body for a validated request: the message as query, the id only when truthy, the style only when it has keys. */
  function UpstreamBody(message: string, body: Json, stringify: Json -> string): (r: ChatMessagesBody)
    ensures r.query == message && r.user == USER_NAME && r.responseMode == "streaming"
    ensures r.conversationId.Some? <==> TruthyOpt(Get(body, "conversation_id"))
    ensures r.conversationId.Some? ==> Get(body, "conversation_id") == r.conversationId
    ensures r.stylePrompt.Some? <==> ForwardsStyle(body)
    ensures r.stylePrompt.Some? ==>
      var cfg := stringify(Get(body, "style_config").value);
      StartsWith(r.stylePrompt.value, STYLE_PREAMBLE) && r.stylePrompt.value[|STYLE_PREAMBLE|..] == cfg
  {
    var conv := Get(body, "conversation_id");
    ChatMessagesBody(
      message, USER_NAME, "streaming",
      if TruthyOpt(conv) then conv else None,
      if ForwardsStyle(body) then Some(STYLE_PREAMBLE + stringify(Get(body, "style_config").value)) else None)
  }

  /** The response once the upstream service was called. */
  function Forward(reply: UpstreamReply): (r: Response)
    ensures reply.Unreachable? <==> r.Crashed?
    ensures r.EventStream? <==>
      reply.Replied? && IsOk(reply.status) && Contains(reply.contentType.GetOr(""), EVENT_STREAM) &&
      reply.stream.Some?
    ensures r.EventStream? ==> r.headers == STREAM_HEADERS && r.stream == reply.stream.value
    ensures reply.Replied? && !IsOk(reply.status) ==>
      r == JsonError(reply.status, UpstreamError(reply.status, reply.text, UPSTREAM_ERROR_LIMIT))
    ensures reply.Replied? && IsOk(reply.status) && !Contains(reply.contentType.GetOr(""), EVENT_STREAM) ==>
      r == JsonError(502, NOT_A_STREAM)
    ensures reply.Replied? && IsOk(reply.status) && Contains(reply.contentType.GetOr(""), EVENT_STREAM) &&
            reply.stream.None? ==>
      r == JsonError(502, NO_BODY)
  {
    match reply
    case Unreachable => Crashed
    case Replied(status, text, contentType, stream) =>
      if !IsOk(status) then JsonError(status, UpstreamError(status, text, UPSTREAM_ERROR_LIMIT))
      else if !Contains(contentType.GetOr(""), EVENT_STREAM) then JsonError(502, NOT_A_STREAM)
      else if stream.None? then JsonError(502, NO_BODY)
      else EventStream(STREAM_HEADERS, stream.value)
  }

  /**
   * `POST /api/chat`. `body` is the parsed request body, `None` when it is not
   * JSON. The upstream service is called exactly when the relay is configured
   * and the body carries a non-empty string message.
   */
  function Relay(env: Env, body: Option<Json>, upstream: UpstreamReply, stringify: Json -> string): (x: Exchange)
    ensures x.sent.Some? <==>
      Configured(env) && body.Some? && body.value != JNull && MessageOf(body.value).Some?
    ensures !Configured(env) ==> x.response == JsonError(500, CONFIG_ERROR)
    ensures Configured(env) && body.None? ==> x.response == JsonError(400, INVALID_JSON)
    ensures Configured(env) && body == Some(JNull) ==> x.response == Crashed
    ensures Configured(env) && body.Some? && body.value != JNull && MessageOf(body.value).None? ==>
      x.response == JsonError(400, MESSAGE_REQUIRED)
    ensures x.sent.Some? ==>
      && x.sent.value.url == StripTrailingSlash(ChatApiUrl(env).value) + "/chat-messages"
      && x.sent.value.headers ==
         [("Content-Type", "application/json"), ("Authorization", "Bearer " + env.chatApiKey.value)]
      && x.sent.value.body == UpstreamBody(MessageOf(body.value).value, body.value, stringify)
      && x.response == Forward(upstream)
    ensures x.response.EventStream? ==> x.sent.Some? && upstream.Replied? && x.response.stream == upstream.stream.value
  {
    if !Configured(env) then Exchange(None, JsonError(500, CONFIG_ERROR))
    else if body.None? then Exchange(None, JsonError(400, INVALID_JSON))
    else if body.value == JNull then Exchange(None, Crashed)
    else
      match MessageOf(body.value)
      case None => Exchange(None, JsonError(400, MESSAGE_REQUIRED))
      case Some(message) =>
        var url := StripTrailingSlash(ChatApiUrl(env).value) + "/chat-messages";
        var headers := [("Content-Type", "application/json"), ("Authorization", "Bearer " + env.chatApiKey.value)];
        Exchange(Some(UpstreamRequest(url, headers, UpstreamBody(message, body.value, stringify))), Forward(upstream))
  }

  /** A trailing slash on the configured URL does not change where the relay posts. */
  lemma TrailingSlashIgnored(env: Env, body: Option<Json>, upstream: UpstreamReply, stringify: Json -> string, base: string)
    requires env.chatApiUrl == Some(base + "/") && !Blank(base) && base[|base| - 1] != '/'
    requires Relay(env, body, upstream, stringify).sent.Some?
    ensures Relay(env, body, upstream, stringify).sent.value.url == base + "/chat-messages"
  {
    assert (base + "/")[..|base + "/"| - 1] == base;
  }

  /**
   * What the chat view posts is always accepted by a configured relay: its
   * trimmed, non-blank text becomes the upstream query, and the conversation
   * id it holds (always truthy, or absent) is forwarded unchanged.
   */
  lemma ClientRequestAccepted(text: string, conversation: Option<Json>, styleConfig: Json, env: Env,
                              upstream: UpstreamReply, stringify: Json -> string)
    requires !Blank(text) && Configured(env)
    requires conversation.Some? ==> Truthy(conversation.value)
    ensures var x := Relay(env, Some(CreateChat.RequestBody(Trim(text), conversation, styleConfig)), upstream, stringify);
      && x.sent.Some?
      && x.sent.value.body.query == Trim(text)
      && x.sent.value.body.conversationId == conversation
      && x.response == Forward(upstream)
  {
    var body := CreateChat.RequestBody(Trim(text), conversation, styleConfig);
    assert MessageOf(body) == Some(Trim(text));
  }
}
