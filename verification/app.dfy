/**
 * The application shell (App.tsx): the phase, the transcript, the in-flight
 * flag, and the three handlers that move between SETUP, INGEST and ANALYSIS.
 * The awaited start is split into the click, which runs `startChatSession`
 * up to its first `await` (the new session is installed and seeded then), and
 * the step that receives the reply; `pendingStart` holds the call in flight.
 */
module Application {
  import opened Wrappers
  import opened Types
  import opened ContextCompiler
  import opened Gemini

  /**
   * The phase moves SETUP -> INGEST on a key whose client is built, INGEST ->
   * ANALYSIS only in `CompleteStartAnalysis` when the start succeeds, and back
   * to INGEST on a reset; no other handler writes `appState`.
   */
  class App {
    /** The engine's module-level slots, shared with the chat screen. */
    const service: GeminiService
    var appState: AppState
    var messages: seq<Message>
    var isProcessing: bool
    var pendingStart: Option<Call>

    /** The in-flight flag is up exactly while a start is outstanding. */
    ghost predicate Valid()
      reads this
    {
      isProcessing <==> pendingStart.Some?
    }

    /** First render: SETUP, no messages, nothing in flight. */
    constructor (service: GeminiService)
      ensures this.service == service
      ensures appState == Setup && messages == [] && !isProcessing && pendingStart == None
      ensures Valid()
    {
      this.service := service;
      appState := Setup;
      messages := [];
      isProcessing := false;
      pendingStart := None;
    }

    /**
     * `handleApiKeySubmit`: install a client for the key and move to INGEST;
     * if the client constructor throws (`built` false) the phase stays.
     */
    method HandleApiKeySubmit(key: string, built: bool)
      modifies this`appState, service`ai
      ensures built ==> appState == Ingest && service.ai != null && fresh(service.ai) && service.ai.apiKey == key
      ensures !built ==> appState == old(appState) && service.ai == old(service.ai)
    {
      var ok := service.InitializeGemini(key, built);
      if ok {
        appState := Ingest;
      }
    }

    /**
     * The synchronous part of `handleStartAnalysis`: raise the in-flight flag,
     * compile the context and run `startChatSession` up to its first `await`,
     * so that the new session is installed and seeded before any reply. Its
     * only caller's button is disabled while a start is in flight.
     */
    method BeginStartAnalysis(papers: seq<PaperData>)
      requires Valid() && !isProcessing
      modifies this`isProcessing, this`pendingStart, service`chatSession
      ensures Valid() && isProcessing
      ensures old(service.ai) == null ==>
        pendingStart == Some(Refused(NotInitialized)) && service.chatSession == old(service.chatSession)
      ensures old(service.ai) != null ==>
        && pendingStart == Some(Issued)
        && service.chatSession != null && fresh(service.chatSession)
        && service.chatSession.requests == [SeedMessage(CompileContext(papers))]
    {
      isProcessing := true;
      var context := CompileContext(papers);
      var call := service.IssueStart(context);
      pendingStart := Some(call);
    }

    /**
     * The rest of `handleStartAnalysis`, given the reply: on success the
     * transcript becomes the one model turn and the phase ANALYSIS; on failure
     * both stay. The in-flight flag drops either way; the session slot is not
     * touched here.
     */
    method CompleteStartAnalysis(reply: Reply, id: string, timestamp: int) returns (ok: bool)
      requires Valid() && isProcessing
      modifies this`appState, this`messages, this`isProcessing, this`pendingStart
      ensures Valid() && !isProcessing
      ensures ok == (old(pendingStart) == Some(Issued) && reply.Responded?)
      ensures ok ==> messages == [Message(id, Model, StartText(reply.text), timestamp)] && appState == Analysis
      ensures !ok ==> messages == old(messages) && appState == old(appState)
    {
      var r := StartSettled(pendingStart.value, reply);
      if r.Success? {
        messages := [Message(id, Model, r.value, timestamp)];
        appState := Analysis;
      }
      ok := r.Success?;
      isProcessing := false;
      pendingStart := None;
    }

    /** `handleStartAnalysis` from click to reply, with nothing else in between. */
    method HandleStartAnalysis(papers: seq<PaperData>, reply: Reply, id: string, timestamp: int) returns (ok: bool)
      requires Valid() && !isProcessing
      modifies this`appState, this`messages, this`isProcessing, this`pendingStart, service`chatSession
      ensures Valid() && !isProcessing
      ensures ok == (old(service.ai) != null && reply.Responded?)
      ensures ok ==> messages == [Message(id, Model, StartText(reply.text), timestamp)] && appState == Analysis
      ensures !ok ==> messages == old(messages) && appState == old(appState)
      ensures old(service.ai) == null ==> service.chatSession == old(service.chatSession)
      ensures old(service.ai) != null ==>
        && service.chatSession != null && fresh(service.chatSession)
        && service.chatSession.requests == [SeedMessage(CompileContext(papers))]
    {
      BeginStartAnalysis(papers);
      ok := CompleteStartAnalysis(reply, id, timestamp);
    }

    /** `handleReset`: empty transcript, phase INGEST; the session slot is left as it is. */
    method HandleReset()
      modifies this`messages, this`appState
      ensures messages == [] && appState == Ingest
    {
      messages := [];
      appState := Ingest;
    }
  }
}
