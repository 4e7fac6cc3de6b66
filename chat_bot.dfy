/**
 * The floating assistant: an append-only transcript, a turn that is routed
 * either to a search-grounded call or to a long-lived chat session, and the
 * session handle that is created lazily and dropped after a failure.
 *
 * `handleSend` is split at its `await`: `Send` is the part that runs when the
 * user submits, `Finish` the continuation once the call has settled, with the
 * call's outcome passed in.
 */
module ChatBot {
  import opened Wrappers
  import opened Text
  import opened Types
  import opened Service

  /** A chat session handle, identified by the settings it was created with. */
  datatype Session = Session(model: string, config: Config)

  /** What `startChatSession` returns; creating a session makes no remote call. */
  const NewSession := Session(ChatSessionModel, ChatSessionSettings)

  const Greeting := "Hello! I am your AI-Scrapy assistant. I can help you with Scrapy architecture, debug your spiders, or research the web for site changes."
  const SearchFallback := "I found some information for you."
  const SessionFallback := "Sorry, I couldn't process that."
  const ConnectionIssue := "Connection issue. Please re-open the chat."

  /** The keyword heuristic that sends a turn to the search-grounded call. */
  predicate WantsSearch(query: string)
  {
    var q := Lower(query);
    Contains(q, "search") || Contains(q, "what is the current") || Contains(q, "latest")
  }

  /** Routing ignores case: a query routes as its lower-cased form does, and a keyword anywhere in
      it, in capitals or not, sends it to search. */
  lemma SearchRouting(query: string, before: string, after: string)
    ensures WantsSearch(Lower(query)) <==> WantsSearch(query)
    ensures WantsSearch(before + "LATEST" + after) && WantsSearch(before + "latest" + after)
  {
    LowerIdempotent(query);
    LowerConcat(before, "LATEST", after);
    LowerConcat(before, "latest", after);
    assert Lower("LATEST") == "latest";
    assert Lower("latest") == "latest";
    ContainsMiddle(Lower(before), "latest", Lower(after));
  }

  function ModelMessage(text: string, sources: Option<seq<Source>>): ChatMessage
  {
    ChatMessage(Model, text, None, sources)
  }

  /** How a turn settles: one model message, or a failure. */
  datatype Outcome = Replied(message: ChatMessage) | Broken

  /** The `try` block of `handleSend`, given the session as it was when the call was made and the remote reply. */
  function Turn(query: string, session: Option<Session>, reply: Result<Reply>): (o: Outcome)
    ensures WantsSearch(query) ==> (o.Broken? <==> reply.Err?)
    ensures !WantsSearch(query) ==> (o.Broken? <==> reply.Err? || session.None?)
    ensures o.Replied? ==> o.message.role == Model && o.message.text != ""
    ensures o.Replied? ==> (o.message.sources.Some? <==> WantsSearch(query))
    ensures o.Replied? && WantsSearch(query) ==>
      o.message.text == OrElse(reply.value.text, "I could not retrieve information at this time.")
      && o.message.sources == Some(GroundingChunks(reply.value))
    ensures o.Replied? && !WantsSearch(query) ==> o.message.text == OrElse(reply.value.text, SessionFallback)
  {
    if WantsSearch(query) then
      match ChatWithSearch(reply)
      case Err(_) => Broken
      case Ok(g) => Replied(ModelMessage(OrElse(Some(g.text), SearchFallback), Some(g.sources)))
    else if session.None? then
      Broken    // `chatSession.current` is null: calling `sendMessage` on it throws
    else
      match reply
      case Err(_) => Broken
      case Ok(r) => Replied(ModelMessage(OrElse(r.text, SessionFallback), None))
  }

  /** The message a settled turn appends. */
  function Appended(o: Outcome): (m: ChatMessage)
    ensures o.Replied? ==> m == o.message
    ensures o.Broken? ==> m.role == Model && m.text == ConnectionIssue && m.sources.None?
  {
    if o.Replied? then o.message else ModelMessage(ConnectionIssue, None)
  }

  /** A turn in flight: the submitted text and the session the call was made on. */
  datatype Pending = Pending(query: string, session: Option<Session>)

  class Assistant {
    var isOpen: bool
    var input: string
    var messages: seq<ChatMessage>
    var isLoading: bool
    var session: Option<Session>
    var inFlight: Option<Pending>

    /** A turn is in flight exactly while the assistant is loading. */
    predicate Valid()
      reads this
    {
      isLoading <==> inFlight.Some?
    }

    constructor()
      ensures Valid()
      ensures !isOpen && input == "" && !isLoading && session.None?
      ensures messages == [ModelMessage(Greeting, None)]
    {
      isOpen := false;
      input := "";
      messages := [ChatMessage(Model, Greeting, None, None)];
      isLoading := false;
      session := None;
      inFlight := None;
    }

    /** The launcher button, followed by the effect on `isOpen`: a session is created only if none exists. */
    method Open()
      modifies this
      ensures isOpen
      ensures !old(isOpen) && old(session).None? ==> session == Some(NewSession)
      ensures old(isOpen) || old(session).Some? ==> session == old(session)
      ensures messages == old(messages) && input == old(input)
      ensures isLoading == old(isLoading) && inFlight == old(inFlight)
    {
      if !isOpen {
        isOpen := true;
        if session.None? {
          session := Some(NewSession);
        }
      }
    }

    /** The close button; the session is kept. */
    method Close()
      modifies this
      ensures !isOpen
      ensures session == old(session) && messages == old(messages) && input == old(input)
      ensures isLoading == old(isLoading) && inFlight == old(inFlight)
    {
      isOpen := false;
    }

    method SetInput(text: string)
      modifies this
      ensures input == text
      ensures isOpen == old(isOpen) && session == old(session) && messages == old(messages)
      ensures isLoading == old(isLoading) && inFlight == old(inFlight)
    {
      input := text;
    }

    /** `handleSend` up to its `await`: blank input or a turn in flight changes nothing. */
    method Send() returns (accepted: bool)
      requires Valid()
      modifies this
      ensures Valid()
      ensures accepted <==> !IsBlank(old(input)) && !old(isLoading)
      ensures !accepted ==> (input == old(input) && messages == old(messages) && isLoading == old(isLoading)
        && inFlight == old(inFlight) && session == old(session) && isOpen == old(isOpen))
      ensures accepted ==> (messages == old(messages) + [ChatMessage(User, old(input), None, None)]
        && input == "" && isLoading && inFlight == Some(Pending(old(input), old(session)))
        && session == old(session) && isOpen == old(isOpen))
    {
      if IsBlank(input) || isLoading {
        return false;
      }
      messages := messages + [ChatMessage(User, input, None, None)];
      inFlight := Some(Pending(input, session));
      input := "";
      isLoading := true;
      accepted := true;
    }

    /** The continuation once the call settles: one message is appended and loading ends; a failure drops the session. */
    method Finish(reply: Result<Reply>)
      requires Valid() && isLoading
      modifies this
      ensures Valid() && !isLoading && inFlight.None?
      ensures var o := Turn(old(inFlight).value.query, old(inFlight).value.session, reply);
        && messages == old(messages) + [Appended(o)]
        && session == (if o.Broken? then None else old(session))
      ensures input == old(input) && isOpen == old(isOpen)
    {
      var o := Turn(inFlight.value.query, inFlight.value.session, reply);
      messages := messages + [Appended(o)];
      if o.Broken? {
        session := None;
      }
      isLoading := false;
      inFlight := None;
    }
  }

  /** An accepted turn grows the transcript by exactly two entries and leaves the earlier ones alone. */
  method TurnAppendsTwo(a: Assistant, reply: Result<Reply>) returns (accepted: bool)
    requires a.Valid()
    modifies a
    ensures a.Valid()
    ensures accepted ==> |a.messages| == |old(a.messages)| + 2 && a.messages[..|old(a.messages)|] == old(a.messages)
    ensures accepted ==> a.messages[|old(a.messages)|] == ChatMessage(User, old(a.input), None, None)
    ensures accepted ==> a.messages[|old(a.messages)| + 1].role == Model
    ensures !accepted ==> a.messages == old(a.messages)
  {
    accepted := a.Send();
    if accepted {
      a.Finish(reply);
    }
  }

  /** Once the session is gone, every turn that does not ask for a search fails, whatever the reply. */
  lemma NoSessionMeansFailure(query: string, reply: Result<Reply>)
    requires !WantsSearch(query)
    ensures Turn(query, None, reply) == Broken
    ensures Appended(Turn(query, None, reply)).text == ConnectionIssue
  {
  }
}
