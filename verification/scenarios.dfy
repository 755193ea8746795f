/**
 * Whole runs through the engine and the screens, each proved from the
 * contracts of the operations alone.
 */
module Scenarios {
  import opened Wrappers
  import opened Types
  import opened ContextCompiler
  import opened Gemini
  import opened Application
  import opened Conversation

  /**
   * Two starts in a row: the second installs a second session, and a later
   * send reaches only that one; the first keeps just its seeding message.
   */
  method RestartRoutesToNewest(persona: string, key: string, first: string, second: string,
                               message: string, r1: Reply, r2: Reply, r3: Reply)
    returns (s1: ChatSession, s2: ChatSession, sent: Result<string, ServiceError>)
    ensures s1 != s2
    ensures s1.requests == [SeedMessage(first)]
    ensures s2.requests == [SeedMessage(second), message]
    ensures sent == SendOutcome(r3)
  {
    var service := new GeminiService(persona);
    var _ := service.InitializeGemini(key, true);
    var _ := service.StartChatSession(first, r1);
    s1 := service.chatSession;
    var _ := service.StartChatSession(second, r2);
    s2 := service.chatSession;
    sent := service.SendChatMessage(message, r3);
  }

  /** Before any start, a send fails with "Chat session not started". */
  method SendBeforeStart(persona: string, key: string, message: string, reply: Reply)
    returns (sent: Result<string, ServiceError>)
    ensures sent == Failure(SessionNotStarted)
  {
    var service := new GeminiService(persona);
    var _ := service.InitializeGemini(key, true);
    sent := service.SendChatMessage(message, reply);
  }

  /**
   * A start whose reply is a rejection keeps the shell in INGEST with an empty
   * transcript, but its session stays installed (`midState`, `midMessages`,
   * `midSlot` are taken right after it); a retry with the same papers installs
   * another session and reaches ANALYSIS on its own.
   */
  method FailedStartThenRetry(persona: string, key: string, papers: seq<PaperData>, reason: string,
                              text: string, id: string, timestamp: int)
    returns (app: App, failed: ChatSession, midState: AppState, midMessages: seq<Message>, midSlot: ChatSession?,
             retried: ChatSession)
    ensures midState == Ingest && midMessages == [] && midSlot == failed
    ensures failed != retried
    ensures app.service.chatSession == retried
    ensures failed.requests == [SeedMessage(CompileContext(papers))]
    ensures retried.requests == [SeedMessage(CompileContext(papers))]
    ensures app.appState == Analysis && !app.isProcessing
    ensures app.messages == [Message(id, Model, StartText(Some(text)), timestamp)]
  {
    var service := new GeminiService(persona);
    app := new App(service);
    app.HandleApiKeySubmit(key, true);
    var ok := app.HandleStartAnalysis(papers, Rejected(reason), id, timestamp);
    failed := service.chatSession;
    midState, midMessages, midSlot := app.appState, app.messages, service.chatSession;
    ok := app.HandleStartAnalysis(papers, Responded(Some(text)), id, timestamp);
    retried := service.chatSession;
  }

  /**
   * After a successful start and a reset, the transcript is empty and the
   * phase is INGEST, yet the session slot still holds the session: a send
   * issued now reaches it instead of failing.
   */
  method ResetKeepsSession(persona: string, key: string, papers: seq<PaperData>, text: string,
                           message: string, reply: Reply)
    returns (app: App, session: ChatSession, sent: Result<string, ServiceError>)
    ensures app.messages == [] && app.appState == Ingest
    ensures app.service.chatSession == session
    ensures session.requests == [SeedMessage(CompileContext(papers)), message]
    ensures sent == SendOutcome(reply)
  {
    var service := new GeminiService(persona);
    app := new App(service);
    app.HandleApiKeySubmit(key, true);
    var _ := app.HandleStartAnalysis(papers, Responded(Some(text)), "0", 0);
    session := service.chatSession;
    app.HandleReset();
    sent := service.SendChatMessage(message, reply);
  }

  /**
   * A reset while a send is outstanding: the transcript is emptied, and the
   * reply that then arrives is appended to the empty transcript, so it is the
   * only message while the phase is INGEST.
   */
  method ResetDuringSend(screen: ChatScreen, message: string, text: string)
    requires screen.Valid() && !screen.isTyping && !Text.IsBlank(message)
    modifies screen, screen.app, screen.app.service.chatSession
    ensures screen.app.appState == Ingest && !screen.isTyping
    ensures screen.app.messages
      == [Message("2", Model, ReplyTurnText(old(screen.app.service.chatSession) != null, Responded(Some(text))), 2)]
  {
    screen.SetInput(message);
    var accepted := screen.BeginSend("1", 1);
    screen.app.HandleReset();
    screen.CompleteSend(Responded(Some(text)), "2", 2);
  }

  /**
   * On the chat screen, a send that throws appends the error turn and keeps
   * the session; the next send goes to the same session and appends its reply.
   */
  method TurnFailureKeepsSession(screen: ChatScreen, first: string, second: string, reason: string, text: string)
    requires screen.Valid() && !screen.isTyping && screen.app.service.chatSession != null
    requires !Text.IsBlank(first) && !Text.IsBlank(second)
    modifies screen, screen.app, screen.app.service.chatSession
    ensures screen.app.service.chatSession == old(screen.app.service.chatSession)
    ensures screen.app.service.chatSession.requests == old(screen.app.service.chatSession.requests) + [first, second]
    ensures screen.app.messages == old(screen.app.messages) + [
      Message("1", User, first, 1), Message("2", Model, ErrorTurnText, 2),
      Message("3", User, second, 3), Message("4", Model, text, 4)]
  {
    ghost var before := screen.app.messages;
    screen.SetInput(first);
    var accepted := screen.HandleSend(Rejected(reason), "1", 1, "2", 2);
    assert screen.app.messages == before + [Message("1", User, first, 1), Message("2", Model, ErrorTurnText, 2)];
    screen.SetInput(second);
    accepted := screen.HandleSend(Responded(Some(text)), "3", 3, "4", 4);
  }
}
