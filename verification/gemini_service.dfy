/**
 * The session engine (services/geminiService.ts): two module-level slots, the
 * client `ai` and the active `chatSession`, and the three operations that set
 * and use them. The remote SDK is replaced by opaque handles; the reply of each
 * remote call is a parameter of the operation that awaits it.
 */
module Gemini {
  import opened Wrappers
  import opened Strings

  /** The outcome of one remote `sendMessage`: a response whose text may be missing, or a rejection. */
  datatype Reply = Responded(text: Option<string>) | Rejected(reason: string)

  /** The errors the engine throws. A rejection from the remote end is rethrown unchanged. */
  datatype ServiceError = NotInitialized | SessionNotStarted | RemoteFailure(reason: string)

  /** The text of each error. */
  function ErrorText(e: ServiceError): string {
    match e
    case NotInitialized => "Gemini API not initialized"
    case SessionNotStarted => "Chat session not started"
    case RemoteFailure(reason) => reason
  }

  /** The configuration every session is created with; the temperature is kept and never reasoned about. */
  datatype ChatConfig = ChatConfig(model: string, systemInstruction: string, temperature: real)

  const ModelName := "gemini-3-pro-preview"

  function SessionConfig(persona: string): ChatConfig {
    ChatConfig(ModelName, persona, 0.7)
  }

  /** The text a start returns when the response carries no text, or an empty one. */
  const NoResponseText := "Error: No response text generated."

  const BeginMarker := "--- BEGIN PAPERS ---"
  const EndMarker := "--- END PAPERS ---"
  /** The indentation the template literal carries on each of its continuation lines. */
  const Indent := "      "

  /** The seeding envelope before the context, up to the begin marker. */
  const Preamble := "[System Injection: Documents Uploaded]\n" + Indent + "\n"
    + Indent + "The user has provided the following text content from their reference papers. \n"
    + Indent + "Please perform Step 1 (Reviewer's Scan) immediately based on these texts.\n"
    + Indent + "\n" + Indent

  /** The line break and indentation on each side of the context. */
  const LineIndent := "\n" + Indent

  /** Everything before the context. */
  const SeedPrefix := Preamble + BeginMarker + LineIndent

  /** The seeding envelope after the end marker. */
  const Postamble := "\n" + Indent + "\n" + Indent + "Start your analysis now."

  /** Everything after the context. */
  const SeedSuffix := LineIndent + EndMarker + Postamble

  /** The first message of a session: the context wrapped in the fixed envelope. */
  function SeedMessage(context: string): string {
    SeedPrefix + context + SeedSuffix
  }

  /** The inverse of `SeedMessage`: the context a seeding message carries, if it is one. */
  function SeededContext(message: string): (r: Option<string>)
    ensures r.Some? ==> SeedMessage(r.value) == message
  {
    if |SeedPrefix| + |SeedSuffix| <= |message|
       && message[..|SeedPrefix|] == SeedPrefix
       && message[|message| - |SeedSuffix|..] == SeedSuffix
    then
      UnwrapSlices(SeedPrefix, SeedSuffix, message);
      Some(message[|SeedPrefix|..|message| - |SeedSuffix|])
    else None
  }

  /** The seeding message gives back exactly the context it wraps. */
  lemma SeedRoundTrip(context: string)
    ensures SeededContext(SeedMessage(context)) == Some(context)
  {
    WrapSlices(SeedPrefix, context, SeedSuffix);
  }

  /** Two different contexts never give the same seeding message. */
  lemma SeedInjective(a: string, b: string)
    requires SeedMessage(a) == SeedMessage(b)
    ensures a == b
  {
    SeedRoundTrip(a);
    SeedRoundTrip(b);
  }

  /**
   * The context stands verbatim between the two markers: the begin marker,
   * a line break and the indentation, the context, a line break, the
   * indentation and the end marker.
   */
  lemma SeedMarkers(context: string)
    ensures var m, k := SeedMessage(context), |Preamble| + |BeginMarker|;
      && k + 2 * |LineIndent| + |context| + |EndMarker| <= |m|
      && m[|Preamble|..k] == BeginMarker
      && m[k..k + |LineIndent|] == LineIndent
      && m[k + |LineIndent|..k + |LineIndent| + |context|] == context
      && m[k + |LineIndent| + |context|..k + 2 * |LineIndent| + |context|] == LineIndent
      && m[k + 2 * |LineIndent| + |context|..k + 2 * |LineIndent| + |context| + |EndMarker|] == EndMarker
  {
    EnvelopeLayout(Preamble, BeginMarker, LineIndent, context, EndMarker, Postamble);
  }

  /** `response.text || "Error: No response text generated."`: a missing or empty text is replaced. */
  function StartText(text: Option<string>): (r: string)
    ensures r != ""
    ensures text.Some? && text.value != "" ==> r == text.value
    ensures text.None? || text.value == "" ==> r == NoResponseText
  {
    if text.Some? && text.value != "" then text.value else NoResponseText
  }

  /** `response.text || ""`: a missing text becomes the empty string, any other text is kept. */
  function SendText(text: Option<string>): (r: string)
    ensures text.Some? ==> r == text.value
    ensures text.None? ==> r == ""
  {
    match text
    case Some(t) => t
    case None => ""
  }

  /** The two fallbacks agree exactly when the response carries a non-empty text. */
  lemma FallbackAsymmetry(text: Option<string>)
    ensures StartText(text) == SendText(text) <==> SendText(text) != ""
  {
  }

  /** What an awaited start evaluates to, once `ai` was set. */
  function StartOutcome(reply: Reply): (r: Result<string, ServiceError>)
    ensures r.Success? <==> reply.Responded?
    ensures r.Success? ==> r.value == StartText(reply.text)
    ensures reply.Rejected? ==> r == Failure(RemoteFailure(reply.reason))
  {
    match reply
    case Responded(t) => Success(StartText(t))
    case Rejected(e) => Failure(RemoteFailure(e))
  }

  /** What an awaited send evaluates to, once a session exists. */
  function SendOutcome(reply: Reply): (r: Result<string, ServiceError>)
    ensures r.Success? <==> reply.Responded?
    ensures r.Success? ==> r.value == SendText(reply.text)
    ensures reply.Rejected? ==> r == Failure(RemoteFailure(reply.reason))
  {
    match reply
    case Responded(t) => Success(SendText(t))
    case Rejected(e) => Failure(RemoteFailure(e))
  }

  /**
   * The synchronous part of an engine call, before its first `await`: the
   * request was issued on a session, or the guard threw first.
   */
  datatype Call = Issued | Refused(error: ServiceError)

  /** What an awaited start evaluates to, once its call was issued or refused and the reply is known. */
  function StartSettled(call: Call, reply: Reply): (r: Result<string, ServiceError>)
    ensures r.Success? <==> call.Issued? && reply.Responded?
    ensures r.Success? ==> r.value == StartText(reply.text)
    ensures call.Refused? ==> r == Failure(call.error)
    ensures call.Issued? && reply.Rejected? ==> r == Failure(RemoteFailure(reply.reason))
  {
    match call
    case Issued => StartOutcome(reply)
    case Refused(e) => Failure(e)
  }

  /** What an awaited send evaluates to, once its call was issued or refused and the reply is known. */
  function SendSettled(call: Call, reply: Reply): (r: Result<string, ServiceError>)
    ensures r.Success? <==> call.Issued? && reply.Responded?
    ensures r.Success? ==> r.value == SendText(reply.text)
    ensures call.Refused? ==> r == Failure(call.error)
    ensures call.Issued? && reply.Rejected? ==> r == Failure(RemoteFailure(reply.reason))
  {
    match call
    case Issued => SendOutcome(reply)
    case Refused(e) => Failure(e)
  }

  /** The SDK client; it holds the key it was built with. */
  class Client {
    const apiKey: string

    constructor (apiKey: string)
      ensures this.apiKey == apiKey
    {
      this.apiKey := apiKey;
    }
  }

  /**
   * One remote conversation. Its identity is the object's; `requests` records
   * every message issued on it, in order, whatever the reply.
   */
  class ChatSession {
    const client: Client
    const config: ChatConfig
    var requests: seq<string>

    constructor (client: Client, config: ChatConfig)
      ensures this.client == client && this.config == config && requests == []
    {
      this.client := client;
      this.config := config;
      requests := [];
    }

    /** Issue one message on this session. */
    method SendMessage(message: string)
      modifies this
      ensures requests == old(requests) + [message]
    {
      requests := requests + [message];
    }
  }

  /** The module's state: the two slots, and the persona text every session is created with. */
  class GeminiService {
    const persona: string
    var ai: Client?
    var chatSession: ChatSession?

    /** Module load: both slots are empty. */
    constructor (persona: string)
      ensures this.persona == persona && ai == null && chatSession == null
    {
      this.persona := persona;
      ai := null;
      chatSession := null;
    }

    /**
     * `initializeGemini`: build a client for the key. `built` says whether the
     * SDK constructor returned (true) or threw (false, and nothing is set).
     */
    method InitializeGemini(apiKey: string, built: bool) returns (ok: bool)
      modifies this`ai
      ensures ok == built
      ensures built ==> ai != null && fresh(ai) && ai.apiKey == apiKey
      ensures !built ==> ai == old(ai)
    {
      ok := built;
      if built {
        ai := new Client(apiKey);
      }
    }

    /**
     * The part of `startChatSession` that runs before its first `await`:
     * without a client, refuse and change nothing; otherwise install a new
     * session before anything is sent and issue the seeding message on it.
     */
    method IssueStart(initialContext: string) returns (call: Call)
      modifies this`chatSession
      ensures old(ai) == null ==> call == Refused(NotInitialized) && chatSession == old(chatSession)
      ensures old(ai) != null ==>
        && call == Issued
        && chatSession != null && fresh(chatSession)
        && chatSession.client == ai && chatSession.config == SessionConfig(persona)
        && chatSession.requests == [SeedMessage(initialContext)]
    {
      if ai == null {
        return Refused(NotInitialized);
      }
      chatSession := new ChatSession(ai, SessionConfig(persona));
      chatSession.SendMessage(SeedMessage(initialContext));
      call := Issued;
    }

    /**
     * `startChatSession` awaited to its end: without a client, fail and change
     * nothing. Otherwise the new session is installed and seeded, and the
     * reply's text or the fallback text is returned. A rejection is rethrown
     * and the new session stays installed.
     */
    method StartChatSession(initialContext: string, reply: Reply) returns (r: Result<string, ServiceError>)
      modifies this`chatSession
      ensures old(ai) == null ==> r == Failure(NotInitialized) && chatSession == old(chatSession)
      ensures old(ai) != null ==>
        && r == StartOutcome(reply)
        && chatSession != null && fresh(chatSession)
        && chatSession.client == ai && chatSession.config == SessionConfig(persona)
        && chatSession.requests == [SeedMessage(initialContext)]
    {
      var call := IssueStart(initialContext);
      r := StartSettled(call, reply);
    }

    /**
     * The part of `sendChatMessage` that runs before its first `await`:
     * without a session, refuse; otherwise issue the message unchanged on the
     * current session. The slot itself is never reassigned.
     */
    method IssueSend(userMessage: string) returns (call: Call)
      modifies chatSession
      ensures chatSession == old(chatSession)
      ensures chatSession == null ==> call == Refused(SessionNotStarted)
      ensures chatSession != null ==>
        call == Issued && chatSession.requests == old(chatSession.requests) + [userMessage]
    {
      if chatSession == null {
        return Refused(SessionNotStarted);
      }
      chatSession.SendMessage(userMessage);
      call := Issued;
    }

    /**
     * `sendChatMessage` awaited to its end: without a session, fail and change
     * nothing. Otherwise the message is issued on the current session and the
     * reply's text or "" is returned. The slot keeps its session, whatever the reply.
     */
    method SendChatMessage(userMessage: string, reply: Reply) returns (r: Result<string, ServiceError>)
      modifies chatSession
      ensures old(chatSession) == null ==> r == Failure(SessionNotStarted)
      ensures chatSession == old(chatSession)
      ensures chatSession != null ==>
        r == SendOutcome(reply) && chatSession.requests == old(chatSession.requests) + [userMessage]
    {
      var call := IssueSend(userMessage);
      r := SendSettled(call, reply);
    }
  }
}
