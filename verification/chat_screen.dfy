/**
 * Turn-taking on the chat screen (components/ChatScreen.tsx). `handleSend`
 * is split into the click, which appends the user turn and runs
 * `sendChatMessage` up to its first `await` (the message is issued on the
 * session then), and the step that receives the reply and appends the model
 * turn; `pendingSend` holds the call in flight.
 */
module Conversation {
  import opened Wrappers
  import opened Types
  import opened Text
  import opened Gemini
  import opened Application

  /** The model turn shown when a send throws. */
  const ErrorTurnText := "Error communicating with the reviewer persona. Please try again."

  /** The text of the model turn a send produces: the reply's text, or the error text when the send throws. */
  function ModelTurnText(r: Result<string, ServiceError>): (t: string)
    ensures r.Success? ==> t == r.value
    ensures r.Failure? ==> t == ErrorTurnText
  {
    match r
    case Success(text) => text
    case Failure(_) => ErrorTurnText
  }

  /** The model turn for a send on a session that exists (`hasSession`) or not, given the reply. */
  function ReplyTurnText(hasSession: bool, reply: Reply): (t: string)
    ensures hasSession && reply.Responded? ==> t == SendText(reply.text)
    ensures !hasSession || reply.Rejected? ==> t == ErrorTurnText
  {
    ModelTurnText(if hasSession then SendOutcome(reply) else Failure(SessionNotStarted))
  }

  class ChatScreen {
    /** The shell whose transcript this screen appends to (`setMessages`). */
    const app: App
    var input: string
    var isTyping: bool
    var pendingSend: Option<Call>

    /** `isTyping` is up exactly while one send is outstanding. */
    ghost predicate Valid()
      reads this
    {
      isTyping <==> pendingSend.Some?
    }

    /** Mount: empty input, not typing. */
    constructor (app: App)
      ensures this.app == app && input == "" && !isTyping && pendingSend == None
      ensures Valid()
    {
      this.app := app;
      input := "";
      isTyping := false;
      pendingSend := None;
    }

    /** The text area's change handler. */
    method SetInput(text: string)
      modifies this`input
      ensures input == text
    {
      input := text;
    }

    /**
     * The synchronous part of `handleSend`: refuse a blank input or a send
     * while one is in flight; otherwise append the user turn with the input as
     * typed, clear the input, raise `isTyping`, and run `sendChatMessage` up to
     * its first `await`, which issues the input on the current session.
     */
    method BeginSend(id: string, timestamp: int) returns (accepted: bool)
      requires Valid()
      modifies this`input, this`isTyping, this`pendingSend, app`messages, app.service.chatSession
      ensures Valid()
      ensures app.service.chatSession == old(app.service.chatSession)
      ensures accepted == (!IsBlank(old(input)) && !old(isTyping))
      ensures accepted ==>
        && app.messages == old(app.messages) + [Message(id, User, old(input), timestamp)]
        && input == "" && isTyping
        && pendingSend == Some(if app.service.chatSession == null then Refused(SessionNotStarted) else Issued)
        && (app.service.chatSession != null ==>
              app.service.chatSession.requests == old(app.service.chatSession.requests) + [old(input)])
      ensures !accepted ==>
        && app.messages == old(app.messages)
        && input == old(input) && isTyping == old(isTyping) && pendingSend == old(pendingSend)
        && (app.service.chatSession != null ==>
              app.service.chatSession.requests == old(app.service.chatSession.requests))
    {
      if IsBlank(input) || isTyping {
        return false;
      }
      app.messages := app.messages + [Message(id, User, input, timestamp)];
      var text := input;
      input := "";
      isTyping := true;
      var call := app.service.IssueSend(text);
      pendingSend := Some(call);
      accepted := true;
    }

    /**
     * The rest of `handleSend`, given the reply: append exactly one model turn
     * (the reply's text, or the error text when the send throws) and drop
     * `isTyping`. Neither the session slot nor any session is touched here.
     */
    method CompleteSend(reply: Reply, id: string, timestamp: int)
      requires Valid() && isTyping
      modifies this`isTyping, this`pendingSend, app`messages
      ensures Valid() && !isTyping && input == old(input)
      ensures app.messages == old(app.messages)
        + [Message(id, Model, ReplyTurnText(old(pendingSend) == Some(Issued), reply), timestamp)]
    {
      var r := SendSettled(pendingSend.value, reply);
      app.messages := app.messages + [Message(id, Model, ModelTurnText(r), timestamp)];
      isTyping := false;
      pendingSend := None;
    }

    /**
     * `handleSend` from click to reply, with nothing else in between: an
     * accepted send grows the transcript by exactly the user turn and one
     * model turn, and leaves `isTyping` down; a refused one changes nothing.
     */
    method HandleSend(reply: Reply, userId: string, userTime: int, modelId: string, modelTime: int)
      returns (accepted: bool)
      requires Valid()
      modifies this`input, this`isTyping, this`pendingSend, app`messages, app.service.chatSession
      ensures Valid()
      ensures accepted == (!IsBlank(old(input)) && !old(isTyping))
      ensures app.service.chatSession == old(app.service.chatSession)
      ensures accepted ==>
        && app.messages == old(app.messages)
             + [Message(userId, User, old(input), userTime),
                Message(modelId, Model, ReplyTurnText(old(app.service.chatSession) != null, reply), modelTime)]
        && input == "" && !isTyping
        && (app.service.chatSession != null ==>
              app.service.chatSession.requests == old(app.service.chatSession.requests) + [old(input)])
      ensures !accepted ==>
        && app.messages == old(app.messages)
        && input == old(input) && isTyping == old(isTyping) && pendingSend == old(pendingSend)
        && (app.service.chatSession != null ==>
              app.service.chatSession.requests == old(app.service.chatSession.requests))
    {
      accepted := BeginSend(userId, userTime);
      if accepted {
        CompleteSend(reply, modelId, modelTime);
      }
    }
  }
}
