/**
  The web application's process-wide state and its request handlers: the flag that
  says whether the model is loaded and the server-side conversation history, both
  updated in place by the handlers.
 */
module Server {

  import opened Text
  import opened Prompt
  import opened Stream
  import opened Conversation

  /** The outcome of the first half of a chat request: refused before anything
      changes, or started with the prompt handed to the tokenizer. */
  datatype ChatStart = Refused(reply: Reply) | Started(prompt: string)

  class ChatServer {
    var modelLoaded: bool
    var conversationHistory: seq<Message>

    /** The state as the request-level model sees it. */
    function Observed(): State
      reads this
    {
      State(modelLoaded, conversationHistory)
    }

    /** A fresh process: no model yet, no history. */
    constructor ()
      ensures !modelLoaded && conversationHistory == []
    {
      modelLoaded := false;
      conversationHistory := [];
    }

    /** The last step of loading the model: from now on chats are served. */
    method LoadFinished()
      modifies this
      ensures modelLoaded
      ensures conversationHistory == old(conversationHistory)
    {
      modelLoaded := true;
    }

    /** The status endpoint. */
    method Status() returns (reply: Reply)
      ensures reply == StatusReply(modelLoaded)
    {
      reply := StatusReply(modelLoaded);
    }

    /** The history endpoint: the current history, left as it is. */
    method GetHistory() returns (reply: Reply)
      ensures reply == HistoryReply(conversationHistory)
    {
      reply := HistoryReply(conversationHistory);
    }

    /** The clear endpoint: the history is emptied whatever it held. */
    method ClearMemory() returns (reply: Reply)
      modifies this
      ensures conversationHistory == []
      ensures modelLoaded == old(modelLoaded)
      ensures reply == Cleared("memory cleared", true)
    {
      conversationHistory := [];
      reply := Cleared("memory cleared", true);
    }

    /** The chat handler up to the start of the stream: refuse when the model is not
        loaded; otherwise append the user turn, evict down to MaxHistory entries and
        format the prompt from the system prompt and the history. */
    method ChatBegin(body: map<string, string>) returns (start: ChatStart)
      modifies this
      ensures modelLoaded == old(modelLoaded)
      ensures !old(modelLoaded) ==>
        start == Refused(ServiceUnavailable(503, NotLoadedError)) &&
        conversationHistory == old(conversationHistory)
      ensures old(modelLoaded) ==>
        conversationHistory == AfterUserTurn(old(conversationHistory), MessageOf(body)) &&
        start == Started(PromptFor(conversationHistory))
    {
      if !modelLoaded {
        return Refused(ServiceUnavailable(503, NotLoadedError));
      }
      var userMessage := MessageOf(body);
      conversationHistory := conversationHistory + [Message("user", userMessage)];
      if |conversationHistory| > MaxHistory {
        conversationHistory := conversationHistory[|conversationHistory| - MaxHistory..];
      }
      var fullMessages := [SystemMessage()] + conversationHistory;
      var prompt := FormatChat(fullMessages);
      start := Started(prompt);
    }

    /** The streaming generator of a started chat: forward each fragment as an event
        while accumulating the reply; once the streamer is drained, send the
        terminating event and append the reply as the assistant turn. */
    method ChatFinish(p: Production, tokenJson: string -> string) returns (events: seq<string>)
      modifies this
      ensures modelLoaded == old(modelLoaded)
      ensures events == Events(p, tokenJson)
      ensures conversationHistory == old(conversationHistory) + AssistantTurn(p)
    {
      var assistantResponse := "";
      events := [];
      for i := 0 to |p.fragments|
        invariant assistantResponse == Join(p.fragments[..i])
        invariant events == TokenEvents(p.fragments[..i], tokenJson)
        invariant unchanged(this)
      {
        var text := p.fragments[i];
        assert p.fragments[..i + 1] == p.fragments[..i] + [text];
        JoinSnoc(p.fragments[..i], text);
        assistantResponse := assistantResponse + text;
        events := events + [Frame(tokenJson(text))];
      }
      assert p.fragments[..|p.fragments|] == p.fragments;
      if p.drained {
        events := events + [DoneEvent];
        conversationHistory := conversationHistory + [Message("assistant", assistantResponse)];
      }
    }

    /** A whole chat request, handled before the next request arrives. */
    method Chat(body: map<string, string>, p: Production, tokenJson: string -> string)
      returns (reply: Reply)
      modifies this
      ensures Observed() == Next(old(Observed()), ChatRequest(body, p))
      ensures reply == Answer(old(Observed()), ChatRequest(body, p), tokenJson)
    {
      var start := ChatBegin(body);
      match start
      case Refused(r) =>
        reply := r;
      case Started(prompt) =>
        var events := ChatFinish(p, tokenJson);
        reply := EventStream(prompt, events);
    }

    /** Any request, dispatched to its handler. */
    method Handle(r: Request, tokenJson: string -> string) returns (reply: Reply)
      modifies this
      ensures Observed() == Next(old(Observed()), r)
      ensures reply == Answer(old(Observed()), r, tokenJson)
    {
      match r
      case ChatRequest(body, p) =>
        reply := Chat(body, p, tokenJson);
      case ClearRequest =>
        reply := ClearMemory();
      case HistoryRequest =>
        reply := GetHistory();
      case StatusRequest =>
        reply := Status();
    }
  }
}
