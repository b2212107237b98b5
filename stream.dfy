/**
  The reply stream of the chat endpoint: every generated fragment is forwarded as one
  server-sent event (section 9.2 of the WHATWG HTML Living Standard), and a final
  `[DONE]` event closes a stream that was drained to its end.
 */
module Stream {

  import opened Text
  import opened Prompt

  /** The terminating event of a completed stream. */
  const DoneEvent: string := "data: [DONE]\n\n"

  /** One server-sent event whose single data line carries `payload`. */
  function Frame(payload: string): string {
    "data: " + payload + "\n\n"
  }

  /** The data line of an event, without the `data: ` field name and the blank line
      that ends the event. */
  function Payload(event: string): string {
    if |event| >= 8 then event[6..|event| - 2] else ""
  }

  /** The framing is lossless, and the terminating event is the frame of `[DONE]`. */
  lemma PayloadOfFrame(payload: string)
    ensures Payload(Frame(payload)) == payload
    ensures Frame("[DONE]") == DoneEvent
  {
  }

  /** A token event is the terminating event only if its payload is `[DONE]`. */
  lemma FrameIsDoneOnlyForDone(payload: string)
    requires Frame(payload) == DoneEvent
    ensures payload == "[DONE]"
  {
    PayloadOfFrame(payload);
    PayloadOfFrame("[DONE]");
  }

  /** What the model produced for one request: the fragments the streamer handed
      over, in arrival order, and whether the streamer was drained to its end
      (false when iterating it raised, after the fragments listed). */
  datatype Production = Production(fragments: seq<string>, drained: bool)

  /** One event per fragment, in arrival order; `tokenJson` stands for the JSON
      encoding of the object `{"token": fragment}`. */
  function TokenEvents(fragments: seq<string>, tokenJson: string -> string): (r: seq<string>)
    ensures |r| == |fragments|
  {
    seq(|fragments|, i requires 0 <= i < |fragments| => Frame(tokenJson(fragments[i])))
  }

  /** The whole event stream of a request: the token events, then the terminating
      event, which is sent only once the streamer has been drained. */
  function Events(p: Production, tokenJson: string -> string): seq<string> {
    TokenEvents(p.fragments, tokenJson) + (if p.drained then [DoneEvent] else [])
  }

  /** The assistant turn that a request adds to the history: the concatenation of all
      fragments, only when the stream was drained; nothing when streaming faulted. */
  function AssistantTurn(p: Production): seq<Message> {
    if p.drained then [Message("assistant", Join(p.fragments))] else []
  }

  /** The shape of the event stream: one event per fragment in arrival order, and
      the terminating event exactly once, last, and only for a drained stream. */
  lemma EventsShape(p: Production, tokenJson: string -> string)
    requires forall f :: tokenJson(f) != "[DONE]"
    ensures |Events(p, tokenJson)| == |p.fragments| + (if p.drained then 1 else 0)
    ensures forall i :: 0 <= i < |p.fragments| ==>
      Events(p, tokenJson)[i] == Frame(tokenJson(p.fragments[i]))
    ensures forall i :: 0 <= i < |Events(p, tokenJson)| && Events(p, tokenJson)[i] == DoneEvent ==>
      p.drained && i == |p.fragments|
    ensures p.drained ==> Events(p, tokenJson)[|p.fragments|] == DoneEvent
  {
    var es := Events(p, tokenJson);
    forall i | 0 <= i < |es| && es[i] == DoneEvent
      ensures p.drained && i == |p.fragments|
    {
      if i < |p.fragments| {
        assert es[i] == Frame(tokenJson(p.fragments[i]));
        FrameIsDoneOnlyForDone(tokenJson(p.fragments[i]));
      }
    }
  }

  /** The text a client reassembles from an event stream: the decoded payloads of all
      events other than the terminating one, in order. */
  function Received(events: seq<string>, decode: string -> string): string {
    if events == [] then ""
    else
      var last := events[|events| - 1];
      Received(events[..|events| - 1], decode) + (if last == DoneEvent then "" else decode(Payload(last)))
  }

  lemma {:induction false} ReceivedTokens(fragments: seq<string>, tokenJson: string -> string, decode: string -> string)
    requires forall f :: decode(tokenJson(f)) == f
    requires forall f :: tokenJson(f) != "[DONE]"
    ensures Received(TokenEvents(fragments, tokenJson), decode) == Join(fragments)
    decreases |fragments|
  {
    if fragments != [] {
      var init, last := fragments[..|fragments| - 1], fragments[|fragments| - 1];
      var es := TokenEvents(fragments, tokenJson);
      assert es[..|es| - 1] == TokenEvents(init, tokenJson);
      assert es[|es| - 1] == Frame(tokenJson(last));
      if es[|es| - 1] == DoneEvent {
        FrameIsDoneOnlyForDone(tokenJson(last));
      }
      PayloadOfFrame(tokenJson(last));
      ReceivedTokens(init, tokenJson, decode);
      assert fragments == init + [last];
      JoinSnoc(init, last);
    }
  }

  /** Whatever way the stream ends, the client has received exactly the concatenation
      of the fragments; for a drained stream that is also the content of the assistant
      turn stored in the history. */
  lemma ClientSeesAssistantTurn(p: Production, tokenJson: string -> string, decode: string -> string)
    requires forall f :: decode(tokenJson(f)) == f
    requires forall f :: tokenJson(f) != "[DONE]"
    ensures Received(Events(p, tokenJson), decode) == Join(p.fragments)
    ensures p.drained ==> AssistantTurn(p) == [Message("assistant", Received(Events(p, tokenJson), decode))]
    ensures !p.drained ==> AssistantTurn(p) == []
  {
    var tokens := TokenEvents(p.fragments, tokenJson);
    ReceivedTokens(p.fragments, tokenJson, decode);
    if p.drained {
      var es := tokens + [DoneEvent];
      assert es[..|es| - 1] == tokens;
    } else {
      assert tokens + [] == tokens;
    }
  }
}
