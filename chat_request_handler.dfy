/**
 * ChatRequestHandler: builds the request for the configured back end (the
 * gateway, also called the MCP server, or the chat-completion endpoint
 * directly), interprets its reply, localizes it and post-processes it into the
 * result the conversation manager receives, appending the exchanged pair to the
 * player's history list in place.
 */
module ChatRequestHandler {
  import opened Wrappers
  import opened JavaStrings
  import opened Json
  import opened History
  import opened ArchGptConfig

  datatype RequestType = Greeting | Conversation

  /** RequestType.name(). */
  function RequestTypeName(t: RequestType): string {
    match t
    case Greeting => "GREETING"
    case Conversation => "CONVERSATION"
  }

  /** The context object gathered for a request: each field is absent or a JSON value. */
  datatype Context = Context(environment: Option<Json>, player: Option<Json>, npc: Option<Json>, knowledge: Option<Json>)

  /** Why a request yields no reply; every one of them ends in the hiccup reply. */
  datatype Failure =
    | ContextNotText           // getAsString on a context field that is not a primitive
    | MissingCredential        // buildOpenAIHttpRequest without an API key
    | UpstreamStatus(code: int)
    | TransportFailure         // IOException from the HTTP client
    | MalformedResponse        // a gateway body that is not an object, or whose output is not text
    | TranslationFailure       // the translation future completes exceptionally

  // ---------------------------------------------------------------------------
  // The system text built from the context

  /** One "Label: value | " piece, empty for an absent field, None when the value is not text. */
  function ContextField(name: string, value: Option<Json>): Option<string> {
    match value
    case None => Some("")
    case Some(j) =>
      match AsString(j)
      case None => None
      case Some(s) => Some(name + ": " + s + " | ")
  }

  predicate FieldIsText(value: Option<Json>) {
    value.Some? ==> AsString(value.value).Some?
  }

  /** "Context -> " and the present fields in the order environment, player, npc, knowledge. */
  function ContextText(ctx: Context): (r: Option<string>)
    ensures r.Some? <==> FieldIsText(ctx.environment) && FieldIsText(ctx.player) && FieldIsText(ctx.npc) && FieldIsText(ctx.knowledge)
    ensures r.Some? ==> "Context -> " <= r.value
  {
    var e := ContextField("Environment", ctx.environment);
    var p := ContextField("Player", ctx.player);
    var n := ContextField("NPC", ctx.npc);
    var k := ContextField("Knowledge", ctx.knowledge);
    if e.Some? && p.Some? && n.Some? && k.Some? then
      Some("Context -> " + e.value + p.value + n.value + k.value)
    else
      None
  }

  /** A context field that is absent or holds a JSON string. */
  function TextField(o: Option<string>): Option<Json> {
    if o.Some? then Some(JString(o.value)) else None
  }

  /** What a text field adds to the system text: "Label: value | ", or nothing when absent. */
  function Piece(name: string, o: Option<string>): string {
    if o.Some? then name + ": " + o.value + " | " else ""
  }

  lemma TextFieldPiece(name: string, o: Option<string>)
    ensures ContextField(name, TextField(o)) == Some(Piece(name, o))
  {
  }

  /**
   * For every combination of present and absent text fields, each present field
   * adds its labelled piece in the order environment, player, npc, knowledge,
   * and an absent one adds nothing.
   */
  lemma ContextTextOfStrings(e: Option<string>, p: Option<string>, n: Option<string>, k: Option<string>)
    ensures ContextText(Context(TextField(e), TextField(p), TextField(n), TextField(k)))
      == Some("Context -> " + Piece("Environment", e) + Piece("Player", p) + Piece("NPC", n) + Piece("Knowledge", k))
    ensures e.None? && p.None? && n.None? && k.None? ==>
      ContextText(Context(TextField(e), TextField(p), TextField(n), TextField(k))) == Some("Context -> ")
  {
    TextFieldPiece("Environment", e);
    TextFieldPiece("Player", p);
    TextFieldPiece("NPC", n);
    TextFieldPiece("Knowledge", k);
    if e.None? && p.None? && n.None? && k.None? {
      assert "Context -> " + "" + "" + "" + "" == "Context -> ";
    }
  }

  const SYSTEM_TEXT_CAP := 6000

  /** The safety cap of the gateway request: the first 6000 characters. */
  function CapSystemText(s: string): (r: string)
    ensures r <= s
    ensures |r| <= SYSTEM_TEXT_CAP
    ensures |s| <= SYSTEM_TEXT_CAP ==> r == s
    ensures |s| > SYSTEM_TEXT_CAP ==> |r| == SYSTEM_TEXT_CAP
  {
    if |s| > SYSTEM_TEXT_CAP then s[..SYSTEM_TEXT_CAP] else s
  }

  // ---------------------------------------------------------------------------
  // buildMCPRequest

  /** The stored history is non-empty and its first role is "system" in any case. */
  predicate StartsWithSystem(state: seq<Turn>) {
    |state| > 0 && EqualsIgnoreCase(SYSTEM, state[0].role)
  }

  /** The conversation_history of a gateway request. */
  function GatewayHistory(systemTurn: Turn, state: seq<Turn>): seq<Turn> {
    if StartsWithSystem(state) then state else [systemTurn] + state
  }

  /**
   * The history is never empty and starts with a system turn; it is the stored
   * history, unchanged exactly when that already starts with one, and the
   * synthesized turn followed by it otherwise.
   */
  lemma GatewayHistoryShape(systemTurn: Turn, state: seq<Turn>)
    requires systemTurn.role == SYSTEM
    ensures var h := GatewayHistory(systemTurn, state);
      && |h| > 0
      && EqualsIgnoreCase(SYSTEM, h[0].role)
      && h[|h| - |state|..] == state
      && (h == state <==> StartsWithSystem(state))
      && (h != state ==> h[0] == systemTurn && |h| == |state| + 1)
  {
    var h := GatewayHistory(systemTurn, state);
    if !StartsWithSystem(state) {
      assert h[1..] == state;
      assert |h| != |state|;
    }
  }

  /** The gateway request body. */
  datatype McpRequest = McpRequest(
    context: Context,
    message: string,
    conversationHistory: Option<seq<Turn>>,   // None when the key is not emitted
    requestType: string,
    provider: string,
    model: string,
    maxTokens: int)

  /** buildMCPRequest, or the failure it raises. */
  function McpRequestFor(settings: Settings, ctx: Context, message: string, state: seq<Turn>, kind: RequestType): Result<McpRequest, Failure> {
    match ContextText(ctx)
    case None => Err(ContextNotText)
    case Some(text) =>
      var history := GatewayHistory(Turn(SYSTEM, CapSystemText(text)), state);
      Ok(McpRequest(ctx, message, if |history| > 0 then Some(history) else None,
                    RequestTypeName(kind), settings.mcpProvider, settings.mcpModel, settings.mcpMaxTokens))
  }

  /**
   * A gateway request always carries conversation_history, headed by a system
   * turn; a synthesized one holds at most 6000 characters of the context text.
   */
  lemma McpRequestCarriesHistory(settings: Settings, ctx: Context, message: string, state: seq<Turn>, kind: RequestType)
    requires ContextText(ctx).Some?
    ensures var r := McpRequestFor(settings, ctx, message, state, kind);
      && r.Ok?
      && r.value.conversationHistory.Some?
      && |r.value.conversationHistory.value| > 0
      && EqualsIgnoreCase(SYSTEM, r.value.conversationHistory.value[0].role)
      && (!StartsWithSystem(state) ==>
            |r.value.conversationHistory.value[0].content| <= SYSTEM_TEXT_CAP
            && r.value.conversationHistory.value[0].content <= ContextText(ctx).value)
      && r.value.requestType == RequestTypeName(kind)
  {
    GatewayHistoryShape(Turn(SYSTEM, CapSystemText(ContextText(ctx).value)), state);
  }

  /** Copies the stored history, prepending the system turn when it lacks one. */
  method BuildGatewayHistory(systemTurn: Turn, state: seq<Turn>) returns (history: seq<Turn>)
    ensures history == GatewayHistory(systemTurn, state)
  {
    history := [];
    var hasSystemAlready := false;
    if |state| > 0 {
      if EqualsIgnoreCase(SYSTEM, state[0].role) {
        hasSystemAlready := true;
      }
      var i := 0;
      while i < |state|
        invariant 0 <= i <= |state|
        invariant history == state[..i]
      {
        history := history + [state[i]];
        i := i + 1;
      }
    }
    assert history == state;
    if !hasSystemAlready {
      var newHistory := [systemTurn];
      var i := 0;
      while i < |history|
        invariant 0 <= i <= |history|
        invariant newHistory == [systemTurn] + history[..i]
      {
        newHistory := newHistory + [history[i]];
        i := i + 1;
      }
      assert history[..i] == history;
      history := newHistory;
    }
  }

  /** buildMCPRequest. */
  method BuildMcpRequest(settings: Settings, ctx: Context, message: string, state: seq<Turn>, kind: RequestType)
    returns (r: Result<McpRequest, Failure>)
    ensures r == McpRequestFor(settings, ctx, message, state, kind)
  {
    var text := ContextText(ctx);
    if text.None? {
      return Err(ContextNotText);
    }
    var systemContent := text.value;
    if |systemContent| > SYSTEM_TEXT_CAP {
      systemContent := systemContent[..SYSTEM_TEXT_CAP];
    }
    var history := BuildGatewayHistory(Turn(SYSTEM, systemContent), state);
    var conversationHistory := None;
    if |history| > 0 {
      conversationHistory := Some(history);
    }
    r := Ok(McpRequest(ctx, message, conversationHistory, RequestTypeName(kind),
                       settings.mcpProvider, settings.mcpModel, settings.mcpMaxTokens));
  }

  // ---------------------------------------------------------------------------
  // buildOpenAIChatRequestBody

  const GUIDELINES := "Guidelines: Use the Knowledge section as the canonical source of server facts (rules, staff, FAQs, links). If the answer isn't in Knowledge, say you don't know. | "

  /** The optional instruction piece taken from the default prompt. */
  function Instruction(defaultPrompt: Option<string>): (r: string)
    ensures r != "" <==> defaultPrompt.Some? && !IsBlank(defaultPrompt.value)
    ensures r != "" ==> r == "Instruction: " + defaultPrompt.value + " | "
  {
    if defaultPrompt.Some? && !IsBlank(defaultPrompt.value) then "Instruction: " + defaultPrompt.value + " | " else ""
  }

  /** The system text of a direct request: instruction, guidelines and the context, with no cap. */
  function DirectSystemText(settings: Settings, ctx: Context): Option<string> {
    match ContextText(ctx)
    case None => None
    case Some(text) => Some(Instruction(settings.defaultPrompt) + GUIDELINES + text)
  }

  /** The chat-completion request body. */
  datatype OpenAiRequest = OpenAiRequest(model: string, maxTokens: int, messages: seq<Turn>)

  /** The messages of a direct request. */
  function DirectMessages(systemText: string, state: seq<Turn>, message: string): seq<Turn> {
    [Turn(SYSTEM, systemText)] + state + [Turn(USER, message)]
  }

  /** buildOpenAIChatRequestBody, or the failure it raises. */
  function OpenAiRequestFor(settings: Settings, ctx: Context, message: string, state: seq<Turn>): Result<OpenAiRequest, Failure> {
    match DirectSystemText(settings, ctx)
    case None => Err(ContextNotText)
    case Some(text) => Ok(OpenAiRequest(settings.chatGptEngine, settings.maxResponseLength, DirectMessages(text, state, message)))
  }

  /**
   * A direct request holds |state| + 2 messages: the synthesized system turn, the
   * stored turns in order with their roles and contents, and the user's message.
   */
  lemma DirectMessagesShape(settings: Settings, ctx: Context, message: string, state: seq<Turn>)
    requires ContextText(ctx).Some?
    ensures var r := OpenAiRequestFor(settings, ctx, message, state);
      && r.Ok?
      && |r.value.messages| == |state| + 2
      && r.value.messages[0] == Turn(SYSTEM, Instruction(settings.defaultPrompt) + GUIDELINES + ContextText(ctx).value)
      && (forall i :: 0 <= i < |state| ==> r.value.messages[i + 1] == state[i])
      && r.value.messages[|state| + 1] == Turn(USER, message)
      && r.value.model == settings.chatGptEngine && r.value.maxTokens == settings.maxResponseLength
  {
  }

  /** The stored system turn is forwarded too: a history that starts with one gives two system turns. */
  lemma DirectRequestRepeatsSystemTurn(settings: Settings, ctx: Context, message: string, state: seq<Turn>)
    requires ContextText(ctx).Some? && |state| > 0 && state[0].role == SYSTEM
    ensures var m := OpenAiRequestFor(settings, ctx, message, state).value.messages;
      m[0].role == SYSTEM && m[1].role == SYSTEM
  {
  }

  /** Unlike the gateway's, the direct system text is not capped: it outgrows the context text. */
  lemma DirectSystemTextUncapped(settings: Settings, ctx: Context)
    requires ContextText(ctx).Some? && |ContextText(ctx).value| > SYSTEM_TEXT_CAP
    ensures |DirectSystemText(settings, ctx).value| > SYSTEM_TEXT_CAP
    ensures |CapSystemText(ContextText(ctx).value)| == SYSTEM_TEXT_CAP
  {
  }

  /** buildOpenAIChatRequestBody. */
  method BuildOpenAiChatRequestBody(settings: Settings, ctx: Context, message: string, state: seq<Turn>)
    returns (r: Result<OpenAiRequest, Failure>)
    ensures r == OpenAiRequestFor(settings, ctx, message, state)
  {
    var text := ContextText(ctx);
    if text.None? {
      return Err(ContextNotText);
    }
    var sys := Instruction(settings.defaultPrompt) + GUIDELINES + text.value;
    var messages := [Turn(SYSTEM, sys)];
    var i := 0;
    while i < |state|
      invariant 0 <= i <= |state|
      invariant messages == [Turn(SYSTEM, sys)] + state[..i]
    {
      var msg := state[i];
      messages := messages + [Turn(msg.role, msg.content)];
      i := i + 1;
    }
    assert state[..i] == state;
    messages := messages + [Turn(USER, message)];
    r := Ok(OpenAiRequest(settings.chatGptEngine, settings.maxResponseLength, messages));
  }

  // ---------------------------------------------------------------------------
  // buildOpenAIHttpRequest

  const OPENAI_URL := "https://api.openai.com/v1/chat/completions"

  /** The key check of buildOpenAIHttpRequest: present and not blank. */
  predicate HasApiKey(apiKey: Option<string>) {
    apiKey.Some? && !IsBlank(apiKey.value)
  }

  /** The Authorization header value. */
  function BearerHeader(key: string): string {
    "Bearer " + key
  }

  /** A character of the b64token rule of section 2.1 of RFC 6750, other than the trailing '='. */
  predicate IsB64Char(c: char) {
    ('A' <= c <= 'Z') || ('a' <= c <= 'z') || IsDigit(c) || c == '-' || c == '.' || c == '_' || c == '~' || c == '+' || c == '/'
  }

  /** b64token = 1*( ALPHA / DIGIT / "-" / "." / "_" / "~" / "+" / "/" ) *"=" */
  predicate IsB64Token(t: string) {
    exists n :: 0 < n <= |t| && B64TokenSplit(t, n)
  }

  /** t is n token characters followed by padding. */
  predicate B64TokenSplit(t: string, n: int) {
    0 < n <= |t| && (forall i :: 0 <= i < n ==> IsB64Char(t[i])) && (forall i :: n <= i < |t| ==> t[i] == '=')
  }

  /** credentials = "Bearer" 1*SP b64token, with the scheme matched without regard to case. */
  predicate IsBearerCredentials(h: string) {
    exists n :: 6 < n < |h| && EqualsIgnoreCase(h[..6], "Bearer") && (forall i :: 6 <= i < n ==> h[i] == ' ') && IsB64Token(h[n..])
  }

  /** A key of b64token characters is sent as RFC 6750 bearer credentials, and it can be read back. */
  lemma BearerHeaderIsCredentials(key: string)
    requires IsB64Token(key)
    ensures IsBearerCredentials(BearerHeader(key))
    ensures BearerHeader(key)[7..] == key
  {
    var h := BearerHeader(key);
    assert h[..6] == "Bearer";
    assert h[7..] == key;
    assert 6 < 7 < |h| && (forall i :: 6 <= i < 7 ==> h[i] == ' ');
  }

  // ---------------------------------------------------------------------------
  // Reply envelopes

  const TROUBLE := "I'm having trouble processing that right now."
  const HICCUP := "Sorry, I had a little hiccup understanding that. Could you say it again?"

  /** extractOpenAIResponseText: the body is None when it is not JSON at all. */
  function ExtractOpenAiResponseText(body: Option<Json>): (r: string)
    ensures r == TROUBLE || IsTrimmed(r)
  {
    if body.Some? && body.value.JObject? && "choices" in body.value.members then
      var choices := body.value.members["choices"];
      if choices.JArray? && |choices.items| > 0 && choices.items[0].JObject? && "message" in choices.items[0].members then
        var msg := choices.items[0].members["message"];
        if msg.JObject? && "content" in msg.members && AsString(msg.members["content"]).Some? then
          Trim(AsString(msg.members["content"]).value)
        else TROUBLE
      else TROUBLE
    else TROUBLE
  }

  /** A body whose choices array starts with the given choice, followed by any further choices. */
  function ChoicesBody(choice: Json, rest: seq<Json>, extra: map<string, Json>): Json {
    JObject(extra["choices" := JArray([choice] + rest)])
  }

  /** {"choices": [{"message": {"content": c, ...}, ...}, ...], ...}: any further members and choices. */
  function CompletionEnvelope(content: Json, msg: map<string, Json>, first: map<string, Json>, rest: seq<Json>,
                              extra: map<string, Json>): Json {
    ChoicesBody(JObject(first["message" := JObject(msg["content" := content])]), rest, extra)
  }

  /**
   * A completion whose first choice's message has text content yields that text
   * trimmed, whatever else the body, the choice and the message carry.
   */
  lemma OpenAiReplyOfEnvelope(content: Json, msg: map<string, Json>, first: map<string, Json>, rest: seq<Json>,
                              extra: map<string, Json>)
    requires AsString(content).Some?
    ensures ExtractOpenAiResponseText(Some(CompletionEnvelope(content, msg, first, rest, extra)))
      == Trim(AsString(content).value)
  {
    var m := JObject(msg["content" := content]);
    var choice := JObject(first["message" := m]);
    assert msg["content" := content]["content"] == content;
    assert first["message" := m]["message"] == m;
    assert ([choice] + rest)[0] == choice;
    assert extra["choices" := JArray([choice] + rest)]["choices"] == JArray([choice] + rest);
  }

  /** A body that is not JSON, not an object, lacks choices, has a non-array or an empty one yields the fixed fallback. */
  lemma OpenAiReplyFallbacks(body: Json, members: map<string, Json>)
    ensures ExtractOpenAiResponseText(None) == TROUBLE
    ensures !body.JObject? ==> ExtractOpenAiResponseText(Some(body)) == TROUBLE
    ensures "choices" !in members ==> ExtractOpenAiResponseText(Some(JObject(members))) == TROUBLE
    ensures "choices" in members && !members["choices"].JArray? ==> ExtractOpenAiResponseText(Some(JObject(members))) == TROUBLE
    ensures ExtractOpenAiResponseText(Some(JObject(members["choices" := JArray([])]))) == TROUBLE
  {
  }

  /**
   * A first choice that is not an object, has no message, a message that is not
   * an object, a message without content, or content that is not text (null, an
   * object, an array not of one text) yields the fixed fallback.
   */
  lemma OpenAiChoiceFallbacks(choice: Json, rest: seq<Json>, extra: map<string, Json>)
    ensures var r := ExtractOpenAiResponseText(Some(ChoicesBody(choice, rest, extra)));
      && (!choice.JObject? ==> r == TROUBLE)
      && (choice.JObject? && "message" !in choice.members ==> r == TROUBLE)
      && (choice.JObject? && "message" in choice.members && !choice.members["message"].JObject? ==> r == TROUBLE)
  {
    assert ([choice] + rest)[0] == choice;
  }

  /** A message without content, or whose content is not text, yields the fixed fallback. */
  lemma OpenAiMessageFallbacks(msg: map<string, Json>, first: map<string, Json>, rest: seq<Json>, extra: map<string, Json>)
    ensures "content" !in msg ==>
      ExtractOpenAiResponseText(Some(ChoicesBody(JObject(first["message" := JObject(msg)]), rest, extra))) == TROUBLE
    ensures "content" in msg && AsString(msg["content"]).None? ==>
      ExtractOpenAiResponseText(Some(ChoicesBody(JObject(first["message" := JObject(msg)]), rest, extra))) == TROUBLE
  {
    var choice := JObject(first["message" := JObject(msg)]);
    assert ([choice] + rest)[0] == choice;
  }

  /**
   * extractAssistantResponseText, after the body has been parsed as an object: a
   * body that is not an object, or an output that is not text, raises.
   */
  function GatewayReply(body: Option<Json>): (r: Result<string, Failure>)
    ensures r.Ok? ==> r.value == TROUBLE || IsTrimmed(r.value)
    ensures r.Err? ==> r.error == MalformedResponse
  {
    match body
    case Some(JObject(members)) =>
      if "output" in members then
        match AsString(members["output"])
        case Some(s) => Ok(Trim(s))
        case None => Err(MalformedResponse)
      else Ok(TROUBLE)
    case _ => Err(MalformedResponse)
  }

  /** The gateway's output field comes back trimmed when it is text; a null output raises. */
  lemma GatewayReplyOfOutput(output: string, extra: map<string, Json>)
    ensures GatewayReply(Some(JObject(extra["output" := JString(output)]))) == Ok(Trim(output))
    ensures GatewayReply(Some(JObject(extra["output" := JNull]))) == Err(MalformedResponse)
  {
    assert extra["output" := JString(output)]["output"] == JString(output);
    assert extra["output" := JNull]["output"] == JNull;
  }

  /**
   * Without an output field the fixed fallback comes back; a body that is not
   * JSON, or any JSON value that is not an object, raises.
   */
  lemma GatewayReplyFallbacks(body: Json, extra: map<string, Json>)
    ensures "output" !in extra ==> GatewayReply(Some(JObject(extra))) == Ok(TROUBLE)
    ensures GatewayReply(None) == Err(MalformedResponse)
    ensures !body.JObject? ==> GatewayReply(Some(body)) == Err(MalformedResponse)
  {
  }

  // ---------------------------------------------------------------------------
  // The request pipeline of processMCPRequest

  /** What the HTTP client returned: a status and a body (None when it is not JSON), or an IOException. */
  datatype Exchange = Response(status: int, body: Option<Json>) | TransportFailed

  /** The request that is sent. */
  datatype Outbound =
    | McpPost(url: string, mcp: McpRequest)
    | OpenAiPost(url: string, authorization: string, openAi: OpenAiRequest)

  /** The request for the configured back end, or the failure raised before anything is sent. */
  function OutboundFor(settings: Settings, ctx: Context, message: string, kind: RequestType, state: seq<Turn>): Result<Outbound, Failure> {
    if settings.useMcp then
      match McpRequestFor(settings, ctx, message, state, kind)
      case Err(e) => Err(e)
      case Ok(r) => Ok(McpPost(settings.mcpServerUrl, r))
    else
      match OpenAiRequestFor(settings, ctx, message, state)
      case Err(e) => Err(e)
      case Ok(r) =>
        if !HasApiKey(settings.apiKey) then Err(MissingCredential)
        else Ok(OpenAiPost(OPENAI_URL, BearerHeader(settings.apiKey.value), r))
  }

  /** In direct mode nothing is sent without an API key; with one, it travels as a bearer credential. */
  lemma DirectModeCredential(settings: Settings, ctx: Context, message: string, kind: RequestType, state: seq<Turn>)
    requires !settings.useMcp && ContextText(ctx).Some?
    ensures OutboundFor(settings, ctx, message, kind, state).Err? <==> !HasApiKey(settings.apiKey)
    ensures !HasApiKey(settings.apiKey) ==> OutboundFor(settings, ctx, message, kind, state) == Err(MissingCredential)
    ensures HasApiKey(settings.apiKey) ==>
      OutboundFor(settings, ctx, message, kind, state).value.authorization == "Bearer " + settings.apiKey.value
  {
  }

  /**
   * With a text context and a key, direct mode posts to the chat-completions
   * endpoint with the bearer header, the configured model and token limit, and
   * the synthesized system turn, the stored turns and the user's message.
   */
  lemma DirectOutboundShape(settings: Settings, ctx: Context, message: string, kind: RequestType, state: seq<Turn>)
    requires !settings.useMcp && HasApiKey(settings.apiKey) && ContextText(ctx).Some?
    ensures var r := OutboundFor(settings, ctx, message, kind, state);
      && r.Ok? && r.value.OpenAiPost?
      && r.value.url == OPENAI_URL
      && r.value.authorization == "Bearer " + settings.apiKey.value
      && r.value.openAi.model == settings.chatGptEngine
      && r.value.openAi.maxTokens == settings.maxResponseLength
      && r.value.openAi.messages == [Turn(SYSTEM, Instruction(settings.defaultPrompt) + GUIDELINES + ContextText(ctx).value)]
                                      + state + [Turn(USER, message)]
  {
  }

  /** Over a one-turn history, direct mode sends the synthesized system turn, that turn and the message. */
  lemma DirectOutboundOfOneTurn(settings: Settings, ctx: Context, message: string, kind: RequestType, first: Turn)
    requires !settings.useMcp && HasApiKey(settings.apiKey) && ContextText(ctx).Some?
    ensures var r := OutboundFor(settings, ctx, message, kind, [first]);
      && r.Ok? && r.value.OpenAiPost?
      && |r.value.openAi.messages| == 3
      && r.value.openAi.messages[0].role == SYSTEM
      && r.value.openAi.messages[1] == first
      && r.value.openAi.messages[2] == Turn(USER, message)
  {
    DirectOutboundShape(settings, ctx, message, kind, [first]);
  }

  /** The reply text of a sent request, or why there is none. */
  function Fetched(settings: Settings, exchange: Exchange): Result<string, Failure> {
    match exchange
    case TransportFailed => Err(TransportFailure)
    case Response(status, body) =>
      if status != 200 then Err(UpstreamStatus(status))
      else if settings.useMcp then GatewayReply(body)
      else Ok(ExtractOpenAiResponseText(body))
  }

  /** The language code: the locale's first two characters, or "en". */
  function LangCode(locale: Option<string>): (r: string)
    ensures |r| == 2
    ensures locale.Some? && |locale.value| >= 2 ==> r == locale.value[..2]
    ensures !(locale.Some? && |locale.value| >= 2) ==> r == "en"
  {
    if locale.Some? && |locale.value| >= 2 then locale.value[..2] else "en"
  }

  predicate NeedsTranslation(locale: Option<string>) {
    !EqualsIgnoreCase(LangCode(locale), "en")
  }

  /** How a translation attempt ends: a value (possibly null), a synchronous throw, or a failed future. */
  datatype Translation = Translated(text: Option<string>) | TranslationThrew | TranslationFailed

  /** The localization step of processMCPRequest. */
  function Localized(text: string, locale: Option<string>, translation: Translation): Result<string, Failure> {
    if !NeedsTranslation(locale) then Ok(text)
    else
      match translation
      case Translated(t) => Ok(t.GetOr(text))
      case TranslationThrew => Ok(text)
      case TranslationFailed => Err(TranslationFailure)
  }

  /**
   * Translation is attempted exactly for a locale of two or more characters whose
   * code is not "en" in any case; otherwise, and when it yields null, the text
   * passes unchanged.
   */
  lemma LocalizedCases(text: string, locale: Option<string>, translation: Translation)
    ensures NeedsTranslation(locale) <==> locale.Some? && |locale.value| >= 2 && !EqualsIgnoreCase(locale.value[..2], "en")
    ensures !NeedsTranslation(locale) ==> Localized(text, locale, translation) == Ok(text)
    ensures translation == Translated(None) ==> Localized(text, locale, translation) == Ok(text)
    ensures NeedsTranslation(locale) && translation.Translated? && translation.text.Some? ==>
      Localized(text, locale, translation) == Ok(translation.text.value)
  {
  }

  /** "EN_us" is English: never translated. */
  lemma UpperCaseEnglishNotTranslated()
    ensures !NeedsTranslation(Some("EN_us"))
  {
    assert LangCode(Some("EN_us")) == "EN";
    assert CharEqualsIgnoreCase('E', 'e') && CharEqualsIgnoreCase('N', 'n');
  }

  /** The reply before post-processing: every failure becomes the hiccup reply. */
  function AssistantText(settings: Settings, ctx: Context, message: string, kind: RequestType, state: seq<Turn>,
                         exchange: Exchange, locale: Option<string>, translation: Translation): string {
    match OutboundFor(settings, ctx, message, kind, state)
    case Err(_) => HICCUP
    case Ok(_) =>
      match Fetched(settings, exchange)
      case Err(_) => HICCUP
      case Ok(text) =>
        match Localized(text, locale, translation)
        case Err(_) => HICCUP
        case Ok(t) => t
  }

  /**
   * A missing key in direct mode, any status other than 200, a transport failure
   * and a gateway body that raises all end in the hiccup reply.
   */
  lemma FailuresGiveHiccup(settings: Settings, ctx: Context, message: string, kind: RequestType, state: seq<Turn>,
                           exchange: Exchange, locale: Option<string>, translation: Translation)
    ensures !settings.useMcp && !HasApiKey(settings.apiKey) ==>
      AssistantText(settings, ctx, message, kind, state, exchange, locale, translation) == HICCUP
    ensures exchange.Response? && exchange.status != 200 ==>
      AssistantText(settings, ctx, message, kind, state, exchange, locale, translation) == HICCUP
    ensures exchange.TransportFailed? ==>
      AssistantText(settings, ctx, message, kind, state, exchange, locale, translation) == HICCUP
    ensures settings.useMcp && exchange.Response? && exchange.status == 200 && GatewayReply(exchange.body).Err? ==>
      AssistantText(settings, ctx, message, kind, state, exchange, locale, translation) == HICCUP
  {
  }

  /** The text after post-processing: trimmed, and "..." where that leaves nothing. */
  function FinalText(raw: string): (r: string)
    ensures r != "" && IsTrimmed(r)
    ensures Trim(raw) != "" ==> r == Trim(raw)
    ensures Trim(raw) == "" ==> r == "..."
  {
    var response := Trim(raw);
    if response == "" then "..." else response
  }

  /** Post-processing is idempotent. */
  lemma FinalTextIdempotent(raw: string)
    ensures FinalText(FinalText(raw)) == FinalText(raw)
  {
    TrimIdempotent(raw);
    var r := FinalText(raw);
    if Trim(raw) == "" {
      TrimOfPadded([], "...", []);
      assert [] + "..." + [] == "...";
    }
  }

  /** Removing the two oldest turns fails on a one-turn list, which is over the cap only when the cap is 0. */
  predicate EvictionThrows(state: seq<Turn>, max: nat) {
    |state| > 2 * max && |state| < 2
  }

  /** The history after a conversation reply: eviction of two entries over the cap, then the pair. */
  function AppendPair(state: seq<Turn>, message: string, response: string, max: nat): (r: seq<Turn>)
    requires !EvictionThrows(state, max)
    ensures |r| == (if |state| > 2 * max then |state| else |state| + 2)
    ensures r[|r| - 2] == Turn(USER, message) && r[|r| - 1] == Turn(ASSISTANT, response)
  {
    (if |state| > 2 * max then state[2..] else state) + [Turn(USER, message), Turn(ASSISTANT, response)]
  }

  /** Within the cap nothing is lost; over it exactly the two oldest turns are, whatever their roles. */
  lemma AppendPairKeeps(state: seq<Turn>, message: string, response: string, max: nat)
    requires !EvictionThrows(state, max)
    ensures var r := AppendPair(state, message, response, max);
      && (|state| <= 2 * max ==> r[..|state|] == state)
      && (|state| > 2 * max ==> r[..|state| - 2] == state[2..])
  {
    var r := AppendPair(state, message, response, max);
    if |state| <= 2 * max {
      assert r[..|state|] == state;
    } else {
      assert r[..|state| - 2] == state[2..];
    }
  }

  /** The history never grows past 2 * max + 2 entries. */
  lemma AppendPairBounded(state: seq<Turn>, message: string, response: string, max: nat)
    requires |state| <= 2 * max + 2 && !EvictionThrows(state, max)
    ensures |AppendPair(state, message, response, max)| <= 2 * max + 2
  {
  }

  /** A one-turn history under a cap of at least one keeps its turn and gains the pair. */
  lemma AppendPairToOneTurn(first: Turn, message: string, response: string, max: nat)
    requires max >= 1
    ensures var r := AppendPair([first], message, response, max);
      |r| == 3 && r[0] == first && r[1] == Turn(USER, message) && r[2] == Turn(ASSISTANT, response)
  {
  }

  /** Eviction can discard the system turn that heads the history. */
  lemma EvictionDropsSystemTurn(system: Turn, a: Turn, b: Turn, message: string, response: string)
    requires system.role == SYSTEM && b.role == USER
    ensures AppendPair([system, a, b], message, response, 1)[0] == b
    ensures forall i :: 0 <= i < 3 ==> AppendPair([system, a, b], message, response, 1)[i].role != SYSTEM
  {
  }

  /** What processMCPRequest's future completes with. */
  datatype ChatResult =
    | GreetingResult(text: string)
    | ConversationResult(text: string, history: TurnList)
    | NoResult                       // the future completes exceptionally

  function TurnsOf(state: TurnList?): seq<Turn>
    reads state
  {
    if state != null then state.turns else []
  }

  function Sent(r: Result<Outbound, Failure>): Option<Outbound> {
    if r.Ok? then Some(r.value) else None
  }

  /** The reply that processMCPRequest completes with, for a gathered context. */
  function ReplyText(settings: Settings, ctx: Context, message: string, kind: RequestType, state: seq<Turn>,
                     exchange: Exchange, locale: Option<string>, translation: Translation): string {
    FinalText(AssistantText(settings, ctx, message, kind, state, exchange, locale, translation))
  }

  /**
   * processMCPRequest as one sequential step. The context (None when gathering
   * it failed), the HTTP exchange, the player's locale and the translation
   * outcome are inputs. A conversation reply is appended in place to the given
   * list (a fresh list when none is given), which the result then carries.
   */
  method ProcessMcpRequest(settings: Settings, context: Option<Context>, message: string, kind: RequestType,
                           state: TurnList?, exchange: Exchange, locale: Option<string>, translation: Translation)
    returns (sent: Option<Outbound>, result: ChatResult)
    modifies if state != null then {state} else {}
    ensures context.None? ==> sent.None? && result == NoResult && TurnsOf(state) == old(TurnsOf(state))
    ensures context.Some? ==> sent == Sent(OutboundFor(settings, context.value, message, kind, old(TurnsOf(state))))
    ensures context.Some? && kind == Greeting ==>
      result == GreetingResult(ReplyText(settings, context.value, message, kind, old(TurnsOf(state)), exchange, locale, translation))
      && TurnsOf(state) == old(TurnsOf(state))
    ensures context.Some? && kind == Conversation && EvictionThrows(old(TurnsOf(state)), settings.maxConversationStateSize) ==>
      result == NoResult && TurnsOf(state) == old(TurnsOf(state))
    ensures context.Some? && kind == Conversation && !EvictionThrows(old(TurnsOf(state)), settings.maxConversationStateSize) ==>
      var text := ReplyText(settings, context.value, message, kind, old(TurnsOf(state)), exchange, locale, translation);
      && result.ConversationResult?
      && result.text == text
      && (state != null ==> result.history == state)
      && (state == null ==> fresh(result.history))
      && result.history.turns == AppendPair(old(TurnsOf(state)), message, text, settings.maxConversationStateSize)
  {
    var turns := TurnsOf(state);
    if context.None? {
      return None, NoResult;
    }
    var ctx := context.value;
    sent := Sent(OutboundFor(settings, ctx, message, kind, turns));
    var response := ReplyText(settings, ctx, message, kind, turns, exchange, locale, translation);
    if kind == Greeting {
      return sent, GreetingResult(response);
    }
    var convoState: TurnList;
    if state != null {
      convoState := state;
    } else {
      convoState := new TurnList([]);
    }
    var max := settings.maxConversationStateSize;
    if EvictionThrows(turns, max) {
      return sent, NoResult;
    }
    RecordExchange(convoState, message, response, max);
    result := ConversationResult(response, convoState);
  }

  /** The in-place update of the post-processing block: evict over the cap, then append the pair. */
  method RecordExchange(list: TurnList, message: string, response: string, max: nat)
    requires !EvictionThrows(list.turns, max)
    modifies list
    ensures list.turns == AppendPair(old(list.turns), message, response, max)
  {
    if |list.turns| > 2 * max {
      list.turns := list.turns[2..];
    }
    list.turns := list.turns + [Turn(USER, message)];
    list.turns := list.turns + [Turn(ASSISTANT, response)];
  }
}
